/** `MarketingScheduler`: the posting-time configuration, the running flag and the job
    registry of the `schedule` library (held here as a field instead of the library's global
    list), the scheduled posting cycle over the store, and the report builders. */
module Scheduler {
  import opened Common
  import opened Database
  import opened Social

  // ---------------------------------------------------------------- configuration

  const DefaultSchedule: string := "09:00,15:00,21:00"

  /** The configured schedule text: `POSTING_SCHEDULE`, or the default. */
  function ScheduleText(env: map<string, string>): string {
    if "POSTING_SCHEDULE" in env then env["POSTING_SCHEDULE"] else DefaultSchedule
  }

  function StripAll(pieces: seq<string>): (r: seq<string>)
    ensures |r| == |pieces| && forall i :: 0 <= i < |pieces| ==> r[i] == Strip(pieces[i])
  {
    seq(|pieces|, i requires 0 <= i < |pieces| => Strip(pieces[i]))
  }

  /** Schedule text split on ',' with every piece stripped. */
  function ParseTimes(text: string): seq<string>
  {
    StripAll(Split(text, ','))
  }

  /** `_parse_posting_schedule`: the configured schedule text, parsed. */
  function ParsePostingSchedule(env: map<string, string>): seq<string>
  {
    ParseTimes(ScheduleText(env))
  }

  /** A stripped piece without a comma has no comma and no surrounding white space. */
  lemma StripPiece(p: string)
    requires ',' !in p
    ensures var q := Strip(p);
      (q == [] || (!IsSpace(q[0]) && !IsSpace(q[|q| - 1]))) && ',' !in q
  {
    StripProps(p);
  }

  lemma SplitPieces(s: string)
    ensures |Split(s, ',')| == Occurrences(s, ',') + 1
    ensures forall i :: 0 <= i < |Split(s, ',')| ==> ',' !in Split(s, ',')[i]
  {
    SplitJoin(s, ',');
  }

  lemma SplitStripProps(s: string)
    ensures var r := StripAll(Split(s, ','));
      && |r| == Occurrences(s, ',') + 1
      && forall i :: 0 <= i < |r| ==>
           (r[i] == [] || (!IsSpace(r[i][0]) && !IsSpace(r[i][|r[i]| - 1]))) && ',' !in r[i]
  {
    var pieces := Split(s, ',');
    SplitPieces(s);
    var r := StripAll(pieces);
    forall i | 0 <= i < |r|
      ensures (r[i] == [] || (!IsSpace(r[i][0]) && !IsSpace(r[i][|r[i]| - 1]))) && ',' !in r[i]
    {
      StripPiece(pieces[i]);
    }
  }

  /** Parsing gives one time per comma-separated piece of the text, none with surrounding
      white space and none holding a comma. */
  lemma ParseTimesProps(s: string)
    ensures var r := ParseTimes(s);
      && |r| == Occurrences(s, ',') + 1
      && forall i :: 0 <= i < |r| ==>
           (r[i] == [] || (!IsSpace(r[i][0]) && !IsSpace(r[i][|r[i]| - 1]))) && ',' !in r[i]
  {
    SplitStripProps(s);
  }

  /** A non-empty string without white space at either end. */
  predicate Trimmed(s: string) {
    s != [] && !IsSpace(s[0]) && !IsSpace(s[|s| - 1])
  }

  /** Times already free of white space are kept as they are. */
  lemma StripAllNoop(pieces: seq<string>)
    requires forall i :: 0 <= i < |pieces| ==> Trimmed(pieces[i])
    ensures StripAll(pieces) == pieces
  {
    forall i | 0 <= i < |pieces| ensures Strip(pieces[i]) == pieces[i] {
      TrimLeftNoop(pieces[i]);
      TrimRightNoop(pieces[i]);
    }
  }

  /** Three trimmed, comma-free times joined by commas parse back to those three times. */
  lemma ParseThree(s: string, a: string, b: string, c: string)
    requires s == a + [','] + (b + [','] + c)
    requires ',' !in a && ',' !in b && ',' !in c
    requires Trimmed(a) && Trimmed(b) && Trimmed(c)
    ensures ParseTimes(s) == [a, b, c]
  {
    var bc := b + [','] + c;
    SplitNoSep(c, ',');
    SplitCons(b, ',', c);
    assert Split(bc, ',') == [b, c];
    SplitCons(a, ',', bc);
    var p := [a, b, c];
    assert Split(s, ',') == p;
    assert forall i :: 0 <= i < |p| ==> Trimmed(p[i]);
    StripAllNoop(p);
  }

  /** Without the setting the three default posting times result. */
  lemma DefaultPostingSchedule(env: map<string, string>)
    requires "POSTING_SCHEDULE" !in env
    ensures ParsePostingSchedule(env) == ["09:00", "15:00", "21:00"]
  {
    ParseThree(DefaultSchedule, "09:00", "15:00", "21:00");
  }

  // ---------------------------------------------------------------- the job registry

  /** The job functions the scheduler registers. */
  datatype Task = DataCollection | ContentGeneration | AnalyticsReport | ScheduledPosting
                | DataCleanup | MonthlyReport | CustomJob

  /** How often a job runs: `every().day`, `every().sunday`, `every().month`. */
  datatype Unit = Day | Sunday | Month

  /** A registered job: its period, its time of day (none for the monthly job), its function
      and its tags. */
  datatype Job = Job(unit: Unit, at: Option<string>, task: Task, tags: seq<string>)

  /** `_schedule_daily_tasks`: collection at 06:00, content generation at 07:00 and the
      analytics report at 08:00. */
  const DailyJobs: seq<Job> := [
    Job(Day, Some("06:00"), DataCollection, []),
    Job(Day, Some("07:00"), ContentGeneration, []),
    Job(Day, Some("08:00"), AnalyticsReport, [])]

  const CleanupJob: Job := Job(Sunday, Some("02:00"), DataCleanup, [])
  const MonthlyJob: Job := Job(Month, None, MonthlyReport, [])

  /** One daily posting job per time. */
  function PostingJobs(times: seq<string>): (r: seq<Job>)
    ensures |r| == |times|
    ensures forall i :: 0 <= i < |times| ==> r[i] == Job(Day, Some(times[i]), ScheduledPosting, [])
  {
    seq(|times|, i requires 0 <= i < |times| => Job(Day, Some(times[i]), ScheduledPosting, []))
  }

  /** How many leading posting times the library's `.at` accepts; registration stops with an
      exception at the first one it rejects. */
  function AcceptedPrefix(times: seq<string>, timeOk: string -> bool): (k: nat)
    ensures k <= |times|
    ensures forall j :: 0 <= j < k ==> timeOk(times[j])
    ensures k < |times| ==> !timeOk(times[k])
  {
    if times == [] || !timeOk(times[0]) then 0
    else 1 + AcceptedPrefix(times[1..], timeOk)
  }

  /** The jobs `start` registers: the daily jobs, the accepted posting jobs and, when every
      posting time was accepted, the Sunday cleanup and (when the library supports a
      monthly period) the monthly report. */
  function Registered(times: seq<string>, timeOk: string -> bool, monthlySupported: bool): seq<Job>
  {
    var k := AcceptedPrefix(times, timeOk);
    DailyJobs + PostingJobs(times[..k])
    + (if k == |times| then [CleanupJob] + (if monthlySupported then [MonthlyJob] else []) else [])
  }

  /** Registration completes, and the flag is raised, only when no step raised. */
  predicate RegistrationSucceeds(times: seq<string>, timeOk: string -> bool, monthlySupported: bool) {
    AcceptedPrefix(times, timeOk) == |times| && monthlySupported
  }

  function IsPosting(j: Job): bool { j.task == ScheduledPosting }

  /** A completed registration holds the three daily jobs, exactly one posting job per
      configured time at that time and in that order, the Sunday 02:00 cleanup and the
      monthly report. */
  lemma RegisteredShape(times: seq<string>, timeOk: string -> bool)
    requires RegistrationSucceeds(times, timeOk, true)
    ensures var r := Registered(times, timeOk, true);
      && |r| == |times| + 5
      && r[..3] == DailyJobs
      && r[3..3 + |times|] == PostingJobs(times)
      && r[3 + |times|] == CleanupJob && r[4 + |times|] == MonthlyJob
      && Count(r, IsPosting) == |times|
      && Filter(r, IsPosting) == PostingJobs(times)
  {
    var r := Registered(times, timeOk, true);
    RegisteredAt(times, timeOk, true, |times|);
    assert times[..|times|] == times;
    var posting := PostingJobs(times);
    var tail := [CleanupJob] + [MonthlyJob];
    assert r == DailyJobs + posting + tail;
    Parts(DailyJobs, posting, tail);
    RegisteredFilter(posting, tail);
    FilterAll(posting, IsPosting);
  }

  /** Slicing three concatenated parts gives back each part. */
  lemma Parts<T>(a: seq<T>, b: seq<T>, c: seq<T>)
    ensures (a + b + c)[..|a|] == a && (a + b + c)[|a|..|a| + |b|] == b
    ensures forall i :: 0 <= i < |c| ==> (a + b + c)[|a| + |b| + i] == c[i]
  {
  }

  /** Only the posting jobs pass the posting filter. */
  lemma RegisteredFilter(posting: seq<Job>, tail: seq<Job>)
    requires tail == [CleanupJob] + [MonthlyJob]
    ensures Filter(DailyJobs + posting + tail, IsPosting) == Filter(posting, IsPosting)
  {
    FilterAppend(DailyJobs + posting, tail, IsPosting);
    FilterAppend(DailyJobs, posting, IsPosting);
    assert Filter(DailyJobs, IsPosting) == [] by {
      assert DailyJobs[1..][1..][1..] == [];
    }
    assert Filter(tail, IsPosting) == [] by {
      assert tail[1..][1..] == [];
    }
  }

  /** `schedule.clear(tag)`: every job for None, else the jobs carrying the tag. */
  function ClearTag(jobs: seq<Job>, tag: Option<string>): seq<Job>
  {
    match tag
    case None => []
    case Some(t) => Filter(jobs, (j: Job) => t !in j.tags)
  }

  /** Clearing a tag removes exactly the jobs carrying it and keeps the others in order. */
  lemma ClearTagProps(jobs: seq<Job>, t: string)
    ensures var r := ClearTag(jobs, Some(t));
      && Subseq(r, jobs)
      && (forall j :: j in r <==> j in jobs && t !in j.tags)
  {
    var p := (j: Job) => t !in j.tags;
    FilterIsSubseq(jobs, p);
    forall j | j in jobs && t !in j.tags ensures j in ClearTag(jobs, Some(t)) {
      FilterKeeps(jobs, p, j);
    }
  }

  /** The tag `add_custom_schedule` gives: the job name, or `custom_<seconds>` when the name
      is missing or empty. */
  function CustomTag(jobName: Option<string>, clock: nat): string {
    if jobName.Some? && jobName.value != "" then jobName.value else "custom_" + NatToString(clock)
  }

  /** Adding a custom job and removing its tag leaves the registry as removing the tag
      alone would. */
  lemma AddThenRemove(jobs: seq<Job>, time: string, jobName: Option<string>, clock: nat)
    ensures var t := CustomTag(jobName, clock);
      ClearTag(jobs + [Job(Day, Some(time), CustomJob, [t])], Some(t)) == ClearTag(jobs, Some(t))
  {
    var t := CustomTag(jobName, clock);
    var p := (j: Job) => t !in j.tags;
    FilterAppend(jobs, [Job(Day, Some(time), CustomJob, [t])], p);
    assert [Job(Day, Some(time), CustomJob, [t])][1..] == [];
  }

  /** The scheduler: its running flag, its posting times and the job registry. */
  class MarketingScheduler {
    var isRunning: bool
    var postingSchedule: seq<string>
    var jobs: seq<Job>

    /** `__init__`, in a process whose registry is still empty. */
    constructor (env: map<string, string>)
      ensures !isRunning && postingSchedule == ParsePostingSchedule(env) && jobs == []
    {
      isRunning := false;
      postingSchedule := ParsePostingSchedule(env);
      jobs := [];
    }

    /** `start`: nothing when already running; otherwise registers the jobs and raises the
        flag only when every registration succeeded. */
    method Start(timeOk: string -> bool, monthlySupported: bool)
      modifies this
      ensures postingSchedule == old(postingSchedule)
      ensures old(isRunning) ==> isRunning && jobs == old(jobs)
      ensures !old(isRunning) ==>
        && jobs == old(jobs) + Registered(postingSchedule, timeOk, monthlySupported)
        && (isRunning <==> RegistrationSucceeds(postingSchedule, timeOk, monthlySupported))
    {
      if isRunning {
        return;
      }
      jobs := jobs + DailyJobs;
      var i := 0;
      while i < |postingSchedule|
        invariant 0 <= i <= |postingSchedule|
        invariant forall j :: 0 <= j < i ==> timeOk(postingSchedule[j])
        invariant jobs == old(jobs) + (DailyJobs + PostingJobs(postingSchedule[..i]))
        invariant !isRunning && postingSchedule == old(postingSchedule)
      {
        if !timeOk(postingSchedule[i]) {
          AcceptedPrefixAt(postingSchedule, timeOk, i);
          RegisteredAt(postingSchedule, timeOk, monthlySupported, i);
          return;
        }
        PostingJobsSnoc(postingSchedule, i);
        jobs := jobs + [Job(Day, Some(postingSchedule[i]), ScheduledPosting, [])];
        i := i + 1;
      }
      AcceptedPrefixAt(postingSchedule, timeOk, i);
      RegisteredAt(postingSchedule, timeOk, monthlySupported, i);
      jobs := jobs + [CleanupJob];
      if !monthlySupported {
        return;
      }
      jobs := jobs + [MonthlyJob];
      isRunning := true;
    }

    /** `stop`: lowers the flag; the registered jobs stay in the registry. */
    method Stop()
      modifies this
      ensures !isRunning && jobs == old(jobs) && postingSchedule == old(postingSchedule)
    {
      isRunning := false;
    }

    /** `add_custom_schedule(job_func, schedule_time, job_name)`: one tagged daily job, or
        nothing when the library rejects the time. */
    method AddCustomSchedule(time: string, jobName: Option<string>, timeOk: string -> bool, clock: nat)
      modifies this
      ensures isRunning == old(isRunning) && postingSchedule == old(postingSchedule)
      ensures jobs == old(jobs) + (if timeOk(time) then [Job(Day, Some(time), CustomJob, [CustomTag(jobName, clock)])] else [])
    {
      if timeOk(time) {
        jobs := jobs + [Job(Day, Some(time), CustomJob, [CustomTag(jobName, clock)])];
      }
    }

    /** `remove_schedule(job_name)`. */
    method RemoveSchedule(tag: Option<string>)
      modifies this
      ensures isRunning == old(isRunning) && postingSchedule == old(postingSchedule)
      ensures jobs == ClearTag(old(jobs), tag)
    {
      jobs := ClearTag(jobs, tag);
    }
  }

  /** The posting jobs of one more time. */
  lemma PostingJobsSnoc(times: seq<string>, i: nat)
    requires i < |times|
    ensures DailyJobs + PostingJobs(times[..i + 1])
         == DailyJobs + PostingJobs(times[..i]) + [Job(Day, Some(times[i]), ScheduledPosting, [])]
  {
    assert PostingJobs(times[..i + 1]) == PostingJobs(times[..i]) + [Job(Day, Some(times[i]), ScheduledPosting, [])];
  }

  /** The registry after registration stopped at the `k`-th posting time. */
  lemma RegisteredAt(times: seq<string>, timeOk: string -> bool, monthlySupported: bool, k: nat)
    requires k <= |times| && AcceptedPrefix(times, timeOk) == k
    ensures Registered(times, timeOk, monthlySupported)
         == DailyJobs + PostingJobs(times[..k]) + (if k == |times| then [CleanupJob] + (if monthlySupported then [MonthlyJob] else []) else [])
  {
  }

  lemma {:induction false} AcceptedPrefixAt(times: seq<string>, timeOk: string -> bool, i: nat)
    requires i <= |times|
    requires forall j :: 0 <= j < i ==> timeOk(times[j])
    requires i < |times| ==> !timeOk(times[i])
    ensures AcceptedPrefix(times, timeOk) == i
  {
    if i > 0 {
      AcceptedPrefixAt(times[1..], timeOk, i - 1);
    }
  }

  /** Stopping and starting again registers every job a second time: the registry then
      holds two posting jobs per configured time. */
  lemma RestartDuplicates(jobs: seq<Job>, times: seq<string>, timeOk: string -> bool)
    requires RegistrationSucceeds(times, timeOk, true)
    ensures Count(jobs + Registered(times, timeOk, true) + Registered(times, timeOk, true), IsPosting)
            == Count(jobs, IsPosting) + 2 * |times|
  {
    var r := Registered(times, timeOk, true);
    RegisteredShape(times, timeOk);
    CountAppend(jobs + r, r, IsPosting);
    CountAppend(jobs, r, IsPosting);
  }

  // ---------------------------------------------------------------- the posting cycle

  /** How many pending items one cycle takes. */
  const PostingBatch: int := 10

  /** The history records of a publish: the property id with each platform result. */
  function Records(propertyId: string, platforms: seq<(string, PostResult)>): (r: seq<(string, string, PostResult)>)
    ensures |r| == |platforms|
    ensures forall i :: 0 <= i < |platforms| ==> r[i] == (propertyId, platforms[i].0, platforms[i].1)
  {
    seq(|platforms|, i requires 0 <= i < |platforms| => (propertyId, platforms[i].0, platforms[i].1))
  }

  /** The content handed to `post_to_all_platforms`: the stored payload as the source passes
      it, or, `corrected`, the payload wrapped under its platform (see `WrapForDispatch`). */
  function Payload(row: ContentRow, corrected: bool): Json {
    if corrected then WrapForDispatch(row) else row.contentData
  }

  /** The publish of each item, in order. */
  function Publishes(items: seq<PendingItem>, corrected: bool, c: Clients, files: set<string>, clock: nat, now: nat): (r: seq<Publish>)
    ensures |r| == |items|
    ensures forall k :: 0 <= k < |items| ==> r[k] == Dispatch(c, Payload(items[k].row, corrected), items[k].property.id, files, clock, now)
  {
    seq(|items|, k requires 0 <= k < |items| => Dispatch(c, Payload(items[k].row, corrected), items[k].property.id, files, clock, now))
  }

  /** The records of a cycle over `items` whose publishes were `pubs`; an item whose
      processing raises (its id is in `raised`) contributes none. */
  function CycleRecords(items: seq<PendingItem>, raised: set<nat>, pubs: seq<Publish>): seq<(string, string, PostResult)>
    requires |pubs| == |items|
  {
    if items == [] then []
    else
      var n := |items| - 1;
      CycleRecords(items[..n], raised, pubs[..n])
      + (if items[n].row.id in raised then [] else Records(items[n].row.propertyId, pubs[n].platforms))
  }

  /** The ids the cycle marks posted: every item that did not raise, whatever its results. */
  function MarkedIds(items: seq<PendingItem>, raised: set<nat>): seq<nat>
  {
    if items == [] then []
    else
      var n := |items| - 1;
      MarkedIds(items[..n], raised) + (if items[n].row.id in raised then [] else [items[n].row.id])
  }

  /** The content table after marking each id in turn. */
  function MarkAll(cs: seq<ContentRow>, ids: seq<nat>, now: nat): seq<ContentRow>
  {
    if ids == [] then cs else MarkPosted(MarkAll(cs, ids[..|ids| - 1], now), ids[|ids| - 1], now)
  }

  /** The history rows the records become, numbered from `first`. */
  function HistoryRows(records: seq<(string, string, PostResult)>, first: nat, now: nat): (r: seq<HistoryRow>)
    ensures |r| == |records|
    ensures forall i :: 0 <= i < |records| ==> r[i] == HistoryEntry(first + i, records[i].0, records[i].1, records[i].2, now)
  {
    seq(|records|, i requires 0 <= i < |records| => HistoryEntry(first + i, records[i].0, records[i].1, records[i].2, now))
  }

  lemma HistoryRowsAppend(a: seq<(string, string, PostResult)>, b: seq<(string, string, PostResult)>, first: nat, now: nat)
    ensures HistoryRows(a + b, first, now) == HistoryRows(a, first, now) + HistoryRows(b, first + |a|, now)
  {
  }

  /** The records and the marked ids of a cycle grow item by item. */
  lemma CycleStep(items: seq<PendingItem>, pubs: seq<Publish>, p: Publish, i: nat, raised: set<nat>)
    requires i < |items| && |pubs| == i
    ensures items[i].row.id in raised ==>
      && CycleRecords(items[..i + 1], raised, pubs + [p]) == CycleRecords(items[..i], raised, pubs)
      && MarkedIds(items[..i + 1], raised) == MarkedIds(items[..i], raised)
    ensures items[i].row.id !in raised ==>
      && CycleRecords(items[..i + 1], raised, pubs + [p])
         == CycleRecords(items[..i], raised, pubs) + Records(items[i].row.propertyId, p.platforms)
      && MarkedIds(items[..i + 1], raised) == MarkedIds(items[..i], raised) + [items[i].row.id]
  {
    assert items[..i + 1][..i] == items[..i];
    assert (pubs + [p])[..i] == pubs;
    if items[i].row.id in raised {
      assert CycleRecords(items[..i], raised, pubs) + [] == CycleRecords(items[..i], raised, pubs);
      assert MarkedIds(items[..i], raised) + [] == MarkedIds(items[..i], raised);
    }
  }

  lemma SeqAssoc<T>(a: seq<T>, b: seq<T>, c: seq<T>)
    ensures a + b + c == a + (b + c)
  {
  }

  lemma MarkAllSnoc(cs: seq<ContentRow>, ids: seq<nat>, id: nat, now: nat)
    ensures MarkAll(cs, ids + [id], now) == MarkPosted(MarkAll(cs, ids, now), id, now)
  {
    assert (ids + [id])[..|ids|] == ids;
  }

  lemma PublishesSnoc(items: seq<PendingItem>, i: nat, corrected: bool, c: Clients, files: set<string>, clock: nat, now: nat)
    requires i < |items|
    ensures Publishes(items[..i + 1], corrected, c, files, clock, now)
         == Publishes(items[..i], corrected, c, files, clock, now)
            + [Dispatch(c, Payload(items[i].row, corrected), items[i].property.id, files, clock, now)]
  {
    var a := Publishes(items[..i + 1], corrected, c, files, clock, now);
    var b := Publishes(items[..i], corrected, c, files, clock, now);
    forall k | 0 <= k < i ensures a[k] == b[k] {
      assert items[..i + 1][k] == items[..i][k];
    }
    assert a == b + [a[i]];
  }

  /** Saving one more platform result appends its history row. */
  lemma SaveStep(hs: seq<HistoryRow>, propertyId: string, platforms: seq<(string, PostResult)>, j: nat, first: nat, now: nat)
    requires j < |platforms|
    ensures hs + HistoryRows(Records(propertyId, platforms[..j + 1]), first, now)
         == hs + HistoryRows(Records(propertyId, platforms[..j]), first, now)
            + [HistoryEntry(first + j, propertyId, platforms[j].0, platforms[j].1, now)]
  {
    assert Records(propertyId, platforms[..j + 1]) == Records(propertyId, platforms[..j]) + [(propertyId, platforms[j].0, platforms[j].1)];
    HistoryRowsAppend(Records(propertyId, platforms[..j]), [(propertyId, platforms[j].0, platforms[j].1)], first, now);
  }

  /** The inner loop of `_run_scheduled_posting`: one history row per platform result. */
  method SaveResults(store: Store, propertyId: string, platforms: seq<(string, PostResult)>, now: nat)
    requires store.Valid()
    modifies store
    ensures store.Valid()
    ensures store.history == old(store.history) + HistoryRows(Records(propertyId, platforms), old(store.nextHistoryId), now)
    ensures store.nextHistoryId == old(store.nextHistoryId) + |platforms|
    ensures store.properties == old(store.properties) && store.content == old(store.content)
    ensures store.conversions == old(store.conversions)
  {
    ghost var hs0, h0 := store.history, store.nextHistoryId;
    var j := 0;
    while j < |platforms|
      invariant 0 <= j <= |platforms|
      invariant store.Valid()
      invariant store.history == hs0 + HistoryRows(Records(propertyId, platforms[..j]), h0, now)
      invariant store.nextHistoryId == h0 + j
      invariant store.properties == old(store.properties) && store.content == old(store.content)
      invariant store.conversions == old(store.conversions)
    {
      SaveStep(hs0, propertyId, platforms, j, h0, now);
      var _ := store.SavePostingHistory(propertyId, platforms[j].0, platforms[j].1, now);
      j := j + 1;
    }
    assert platforms[..j] == platforms;
  }

  /** The body of the cycle's loop for one item: publish, record each platform result, mark
      the item posted. */
  method ProcessItem(store: Store, item: PendingItem, corrected: bool, c: Clients, files: set<string>, clock: nat, now: nat)
    returns (result: Publish)
    requires store.Valid()
    modifies store
    ensures result == Dispatch(c, Payload(item.row, corrected), item.property.id, files, clock, now)
    ensures store.Valid()
    ensures store.history == old(store.history) + HistoryRows(Records(item.row.propertyId, result.platforms), old(store.nextHistoryId), now)
    ensures store.nextHistoryId == old(store.nextHistoryId) + |result.platforms|
    ensures store.content == MarkPosted(old(store.content), item.row.id, now)
    ensures store.properties == old(store.properties) && store.conversions == old(store.conversions)
  {
    result := PostToAllPlatforms(c, Payload(item.row, corrected), item.property.id, files, clock, now);
    SaveResults(store, item.row.propertyId, result.platforms, now);
    var _ := store.MarkContentAsPosted(item.row.id, now);
  }

  /** The cycle's state after the first `i` items: the history rows of their records and
      the content table with their ids marked. */
  ghost predicate CycleState(store: Store, items: seq<PendingItem>, i: nat, raised: set<nat>, pubs: seq<Publish>,
                             cs0: seq<ContentRow>, hs0: seq<HistoryRow>, h0: nat, now: nat)
    requires i <= |items| && |pubs| == i
    reads store
  {
    && store.Valid()
    && store.history == hs0 + HistoryRows(CycleRecords(items[..i], raised, pubs), h0, now)
    && store.nextHistoryId == h0 + |CycleRecords(items[..i], raised, pubs)|
    && store.content == MarkAll(cs0, MarkedIds(items[..i], raised), now)
  }

  /** An item whose processing raises leaves the cycle's state as it was. */
  lemma RaisedStep(store: Store, items: seq<PendingItem>, i: nat, raised: set<nat>, pubs: seq<Publish>, p: Publish,
                   cs0: seq<ContentRow>, hs0: seq<HistoryRow>, h0: nat, now: nat)
    requires i < |items| && |pubs| == i && items[i].row.id in raised
    requires CycleState(store, items, i, raised, pubs, cs0, hs0, h0, now)
    ensures CycleState(store, items, i + 1, raised, pubs + [p], cs0, hs0, h0, now)
  {
    CycleStep(items, pubs, p, i, raised);
  }

  /** One turn of the cycle's loop for an item that does not raise. */
  method PostOne(store: Store, items: seq<PendingItem>, i: nat, corrected: bool, c: Clients, files: set<string>, clock: nat, now: nat,
                 raised: set<nat>, ghost pubs: seq<Publish>, ghost cs0: seq<ContentRow>, ghost hs0: seq<HistoryRow>, ghost h0: nat)
    requires i < |items| && |pubs| == i && items[i].row.id !in raised
    requires CycleState(store, items, i, raised, pubs, cs0, hs0, h0, now)
    modifies store
    ensures CycleState(store, items, i + 1, raised, pubs + [Dispatch(c, Payload(items[i].row, corrected), items[i].property.id, files, clock, now)], cs0, hs0, h0, now)
    ensures store.properties == old(store.properties) && store.conversions == old(store.conversions)
  {
    ghost var p := Dispatch(c, Payload(items[i].row, corrected), items[i].property.id, files, clock, now);
    CycleStep(items, pubs, p, i, raised);
    ghost var before, ids := CycleRecords(items[..i], raised, pubs), MarkedIds(items[..i], raised);
    ghost var recs := Records(items[i].row.propertyId, p.platforms);
    ghost var hBefore, nBefore := store.history, store.nextHistoryId;
    ghost var rowsBefore, rowsNew := HistoryRows(before, h0, now), HistoryRows(recs, h0 + |before|, now);
    assert hBefore == hs0 + rowsBefore;
    assert nBefore == h0 + |before|;
    HistoryRowsAppend(before, recs, h0, now);
    MarkAllSnoc(cs0, ids, items[i].row.id, now);
    var result := ProcessItem(store, items[i], corrected, c, files, clock, now);
    assert store.history == hBefore + rowsNew;
    SeqAssoc(hs0, rowsBefore, rowsNew);
    assert CycleRecords(items[..i + 1], raised, pubs + [p]) == before + recs;
  }

  /** The loop of `_run_scheduled_posting` over the selected items. */
  method PostItems(store: Store, items: seq<PendingItem>, corrected: bool, c: Clients, files: set<string>, clock: nat, now: nat, raised: set<nat>)
    requires store.Valid()
    modifies store
    ensures store.Valid()
    ensures store.history == old(store.history)
      + HistoryRows(CycleRecords(items, raised, Publishes(items, corrected, c, files, clock, now)), old(store.nextHistoryId), now)
    ensures store.content == MarkAll(old(store.content), MarkedIds(items, raised), now)
    ensures store.properties == old(store.properties) && store.conversions == old(store.conversions)
  {
    ghost var cs0, hs0, h0 := store.content, store.history, store.nextHistoryId;
    ghost var pubs: seq<Publish> := [];
    var i := 0;
    while i < |items|
      invariant 0 <= i <= |items| && |pubs| == i
      invariant CycleState(store, items, i, raised, pubs, cs0, hs0, h0, now)
      invariant store.properties == old(store.properties) && store.conversions == old(store.conversions)
      invariant pubs == Publishes(items[..i], corrected, c, files, clock, now)
    {
      if items[i].row.id in raised {
        RaisedStep(store, items, i, raised, pubs, Dispatch(c, Payload(items[i].row, corrected), items[i].property.id, files, clock, now), cs0, hs0, h0, now);
      } else {
        PostOne(store, items, i, corrected, c, files, clock, now, raised, pubs, cs0, hs0, h0);
      }
      PublishesSnoc(items, i, corrected, c, files, clock, now);
      pubs := pubs + [Dispatch(c, Payload(items[i].row, corrected), items[i].property.id, files, clock, now)];
      i := i + 1;
    }
    assert items[..i] == items;
  }

  /** `_run_scheduled_posting`: publishes each of at most ten pending items, records one
      history row per platform result and marks the item posted; an item whose processing
      raises is skipped and stays pending. The stored payload is passed as it is. */
  method RunScheduledPosting(store: Store, c: Clients, files: set<string>, clock: nat, now: nat, raised: set<nat>)
    requires store.Valid()
    modifies store
    ensures store.Valid()
    ensures var items := PendingItems(old(store.content), old(store.properties), PostingBatch);
      && store.history == old(store.history)
           + HistoryRows(CycleRecords(items, raised, Publishes(items, false, c, files, clock, now)), old(store.nextHistoryId), now)
      && store.content == MarkAll(old(store.content), MarkedIds(items, raised), now)
    ensures store.properties == old(store.properties) && store.conversions == old(store.conversions)
  {
    var items := store.GetPendingContent(PostingBatch);
    PostItems(store, items, false, c, files, clock, now, raised);
  }

  /** The posting cycle with each payload wrapped under its platform before the dispatch. */
  method RunScheduledPostingCorrected(store: Store, c: Clients, files: set<string>, clock: nat, now: nat, raised: set<nat>)
    requires store.Valid()
    modifies store
    ensures store.Valid()
    ensures var items := PendingItems(old(store.content), old(store.properties), PostingBatch);
      && store.history == old(store.history)
           + HistoryRows(CycleRecords(items, raised, Publishes(items, true, c, files, clock, now)), old(store.nextHistoryId), now)
      && store.content == MarkAll(old(store.content), MarkedIds(items, raised), now)
    ensures store.properties == old(store.properties) && store.conversions == old(store.conversions)
  {
    var items := store.GetPendingContent(PostingBatch);
    PostItems(store, items, true, c, files, clock, now, raised);
  }

  /** A cycle takes at most ten items, and each is one the pending query selects. */
  lemma CycleBatch(cs: seq<ContentRow>, ps: seq<PropertyRow>)
    ensures var items := PendingItems(cs, ps, PostingBatch);
      && |items| <= 10
      && forall i :: 0 <= i < |items| ==> !items[i].row.isPosted && items[i].row in cs && items[i].property.id == items[i].row.propertyId
  {
    PendingRowsProps(cs, ps, PostingBatch);
  }

  /** After the cycle every content row whose id was marked is posted at `now`, and every
      other row is as before; in particular an item whose processing raised stays pending
      unless another item shares its id. */
  lemma {:induction false} MarkAllEffect(cs: seq<ContentRow>, ids: seq<nat>, now: nat)
    ensures var r := MarkAll(cs, ids, now);
      && |r| == |cs|
      && forall k :: 0 <= k < |cs| ==> r[k] == if cs[k].id in ids then Database.Posted(cs[k], now) else cs[k]
  {
    if ids != [] {
      var n := |ids| - 1;
      MarkAllEffect(cs, ids[..n], now);
      var r := MarkAll(cs, ids, now);
      forall k | 0 <= k < |cs| ensures r[k] == if cs[k].id in ids then Database.Posted(cs[k], now) else cs[k] {
        assert cs[k].id in ids <==> cs[k].id in ids[..n] || cs[k].id == ids[n] by {
          assert ids == ids[..n] + [ids[n]];
        }
      }
    }
  }

  /** The marked ids are exactly the ids of the items that did not raise; the platform
      results play no part. */
  lemma {:induction false} MarkedIdsExact(items: seq<PendingItem>, raised: set<nat>)
    ensures forall x :: x in MarkedIds(items, raised) <==>
      x !in raised && exists i :: 0 <= i < |items| && items[i].row.id == x
  {
    if items != [] {
      var n := |items| - 1;
      MarkedIdsExact(items[..n], raised);
      forall x ensures x in MarkedIds(items, raised) <==> x !in raised && exists i :: 0 <= i < |items| && items[i].row.id == x {
        if x !in raised && exists i :: 0 <= i < |items| && items[i].row.id == x {
          var i :| 0 <= i < |items| && items[i].row.id == x;
          if i < n {
            assert items[..n][i].row.id == x;
          }
        }
        if x in MarkedIds(items[..n], raised) {
          var i :| 0 <= i < n && items[..n][i].row.id == x;
          assert items[i].row.id == x;
        }
      }
    }
  }

  /** Each publish adds at most three records, one per platform of instagram, youtube and
      blog. */
  lemma {:induction false} CycleRecordsLength(items: seq<PendingItem>, raised: set<nat>, corrected: bool, c: Clients, files: set<string>, clock: nat, now: nat)
    ensures var r := CycleRecords(items, raised, Publishes(items, corrected, c, files, clock, now));
      && |r| <= 3 * |items|
      && forall k :: 0 <= k < |r| ==> r[k].1 in PlatformOrder
  {
    if items != [] {
      var n := |items| - 1;
      CycleRecordsLength(items[..n], raised, corrected, c, files, clock, now);
      var pubs := Publishes(items, corrected, c, files, clock, now);
      assert pubs[..n] == Publishes(items[..n], corrected, c, files, clock, now);
      PublishRecords(c, Payload(items[n].row, corrected), items[n].property.id, items[n].row.propertyId, files, clock, now);
      var before := CycleRecords(items[..n], raised, pubs[..n]);
      var mine := if items[n].row.id in raised then [] else Records(items[n].row.propertyId, pubs[n].platforms);
      assert CycleRecords(items, raised, pubs) == before + mine;
    }
  }

  /** One publish gives at most three records, each for a platform of `PlatformOrder`. */
  lemma PublishRecords(c: Clients, content: Json, propertyId: string, rowProperty: string, files: set<string>, clock: nat, now: nat)
    ensures var mine := Records(rowProperty, Dispatch(c, content, propertyId, files, clock, now).platforms);
      |mine| <= 3 && forall k :: 0 <= k < |mine| ==> mine[k].1 in PlatformOrder
  {
    var d := Dispatch(c, content, propertyId, files, clock, now);
    if !DispatchRaises(content) {
      var keys := Selected(content);
      ResultsKeys(c, keys, content, propertyId, files, clock, now);
      SelectedProps(content);
      SubseqLength(keys, PlatformOrder);
      var mine := Records(rowProperty, d.platforms);
      forall k | 0 <= k < |mine| ensures mine[k].1 in PlatformOrder {
        assert ResultKeys(d)[k] == mine[k].1;
        assert keys[k] in keys;
      }
    }
  }

  /** A dict without a 'platforms' key publishes nowhere and raises nothing. */
  lemma NoPlatformsKey(c: Clients, fields: seq<(string, Json)>, propertyId: string, files: set<string>, clock: nat, now: nat)
    requires forall i :: 0 <= i < |fields| ==> fields[i].0 != "platforms"
    ensures var r := Dispatch(c, JObj(fields), propertyId, files, clock, now);
      r.platforms == [] && !r.error
  {
    var content := JObj(fields);
    assert PlatformsField(content) == Some(JObj([]));
    SelectedUnfold(content);
  }

  /** A stored payload is one platform's dict, which has no 'platforms' key; for such rows
      the cycle as written records no history row at all, while it still marks every item
      that did not raise as posted. */
  lemma {:induction false} CycleWritesNothing(items: seq<PendingItem>, raised: set<nat>, c: Clients, files: set<string>, clock: nat, now: nat)
    requires forall i :: 0 <= i < |items| ==>
      items[i].row.contentData.JObj? && forall k :: 0 <= k < |items[i].row.contentData.fields| ==> items[i].row.contentData.fields[k].0 != "platforms"
    ensures CycleRecords(items, raised, Publishes(items, false, c, files, clock, now)) == []
  {
    if items != [] {
      var n := |items| - 1;
      CycleWritesNothing(items[..n], raised, c, files, clock, now);
      var pubs := Publishes(items, false, c, files, clock, now);
      assert pubs[..n] == Publishes(items[..n], false, c, files, clock, now);
      NoPlatformsKey(c, items[n].row.contentData.fields, items[n].property.id, files, clock, now);
    }
  }

  /** With the payload wrapped, every item that did not raise and whose row names a known
      platform adds exactly one record: its property and its platform. */
  lemma {:induction false} CorrectedCycleRecordsOne(items: seq<PendingItem>, raised: set<nat>, c: Clients, files: set<string>, clock: nat, now: nat)
    requires forall i :: 0 <= i < |items| ==> items[i].row.contentType in PlatformOrder
    ensures Pairs(CycleRecords(items, raised, Publishes(items, true, c, files, clock, now))) == ExpectedRecords(items, raised)
  {
    if items != [] {
      var n := |items| - 1;
      CorrectedCycleRecordsOne(items[..n], raised, c, files, clock, now);
      var pubs := Publishes(items, true, c, files, clock, now);
      assert pubs[..n] == Publishes(items[..n], true, c, files, clock, now);
      WrappedRecords(c, items[n], files, clock, now);
      var mine := if items[n].row.id in raised then [] else Records(items[n].row.propertyId, pubs[n].platforms);
      PairsAppend(CycleRecords(items[..n], raised, pubs[..n]), mine);
    }
  }

  /** The (property, platform) pairs of records. */
  function Pairs(r: seq<(string, string, PostResult)>): (q: seq<(string, string)>)
    ensures |q| == |r| && forall i :: 0 <= i < |r| ==> q[i] == (r[i].0, r[i].1)
  {
    seq(|r|, i requires 0 <= i < |r| => (r[i].0, r[i].1))
  }

  lemma PairsAppend(a: seq<(string, string, PostResult)>, b: seq<(string, string, PostResult)>)
    ensures Pairs(a + b) == Pairs(a) + Pairs(b)
  {
  }

  lemma WrappedRecords(c: Clients, item: PendingItem, files: set<string>, clock: nat, now: nat)
    requires item.row.contentType in PlatformOrder
    ensures Pairs(Records(item.row.propertyId, Dispatch(c, Payload(item.row, true), item.property.id, files, clock, now).platforms))
         == [(item.row.propertyId, item.row.contentType)]
  {
    WrappedPublishesOnce(c, item.row, item.property.id, files, clock, now);
  }

  /** One (property, platform) pair per item that did not raise, in order. */
  function ExpectedRecords(items: seq<PendingItem>, raised: set<nat>): (r: seq<(string, string)>)
  {
    if items == [] then []
    else
      var n := |items| - 1;
      ExpectedRecords(items[..n], raised)
      + (if items[n].row.id in raised then [] else [(items[n].row.propertyId, items[n].row.contentType)])
  }

  /** The payload evidently meant for the dispatch: the row's content under its own platform
      key, `{'platforms': {content_type: content_data}}`. */
  function WrapForDispatch(row: ContentRow): Json {
    JObj([("platforms", JObj([(row.contentType, row.contentData)]))])
  }

  /** Wrapped, a row of a known platform publishes to exactly that platform: one result,
      which a cycle records as one history row. */
  lemma WrappedPublishesOnce(c: Clients, row: ContentRow, propertyId: string, files: set<string>, clock: nat, now: nat)
    requires row.contentType in PlatformOrder
    ensures var r := Dispatch(c, WrapForDispatch(row), propertyId, files, clock, now);
      && !r.error && |r.platforms| == 1 && r.platforms[0].0 == row.contentType
      && r.platforms[0].1 == Poster(c, row.contentType, WrapForDispatch(row), propertyId, files, clock)
  {
    WrappedSelected(row);
    ResultsAt(c, [row.contentType], WrapForDispatch(row), propertyId, files, clock, 0);
  }

  /** The wrapped payload selects exactly its own platform. */
  lemma WrappedSelected(row: ContentRow)
    requires row.contentType in PlatformOrder
    ensures !DispatchRaises(WrapForDispatch(row)) && Selected(WrapForDispatch(row)) == [row.contentType]
  {
    var content := WrapForDispatch(row);
    var t := row.contentType;
    var p := JObj([(t, row.contentData)]);
    assert PlatformsField(content) == Some(p);
    SelectedUnfold(content);
    MentionsSingle(t, row.contentData, "instagram");
    MentionsSingle(t, row.contentData, "youtube");
    MentionsSingle(t, row.contentData, "blog");
  }

  /** A one-entry dict mentions exactly its key. */
  lemma MentionsSingle(t: string, d: Json, k: string)
    ensures Mentions(JObj([(t, d)]), k) == Some(t == k)
  {
    assert [(t, d)][0].0 == t;
  }

  // ---------------------------------------------------------------- reports

  /** The report `_generate_analytics_report` builds. */
  datatype WeeklyReport = WeeklyReport(
    totalPosts: nat,
    successfulPosts: nat,
    failedPosts: int,
    successRate: real,
    platformStats: seq<(string, Tally)>,
    topProperties: seq<PropertyStat>)

  /** An entry of `_get_top_properties`: the first title and city seen for the property and
      its post counters. */
  datatype PropertyStat = PropertyStat(propertyId: string, title: string, city: string, posts: nat, successfulPosts: nat)

  function GenerateAnalyticsReport(analytics: seq<AnalyticsItem>): WeeklyReport
  {
    var total := |analytics|;
    var ok := Count(analytics, IsSuccess);
    WeeklyReport(total, ok, total - ok, Percent(ok, total),
                 Tallies(analytics, PlatformOf, IsSuccess), TopProperties(analytics, 5))
  }

  /** The failed posts are the posts whose status is not 'success'; the rate lies in
      [0, 100] and is 0 without posts; per platform, total = success + failed, the platforms
      are distinct and are exactly those of the rows, and their totals and successes add up
      to the report's totals. */
  lemma AnalyticsReportProps(analytics: seq<AnalyticsItem>)
    ensures var r := GenerateAnalyticsReport(analytics);
      && r.failedPosts == Count(analytics, (a: AnalyticsItem) => !IsSuccess(a))
      && 0.0 <= r.successRate <= 100.0
      && (r.totalPosts == 0 ==> r.successRate == 0.0)
      && Distinct(Keys(r.platformStats)) && Balanced(r.platformStats)
      && SumPosts(r.platformStats) == r.totalPosts
      && SumSuccess(r.platformStats) == r.successfulPosts
      && (forall p :: p in Keys(r.platformStats) <==> exists i :: 0 <= i < |analytics| && analytics[i].row.platform == p)
      && |r.topProperties| <= 5
  {
    CountSplit(analytics, IsSuccess, (a: AnalyticsItem) => !IsSuccess(a), (a: AnalyticsItem) => true);
    CountAll(analytics, (a: AnalyticsItem) => true);
    PercentBounds(Count(analytics, IsSuccess), |analytics|);
    TalliesPartition(analytics, PlatformOf, IsSuccess);
  }

  /** The first title and city recorded for a property. */
  function FirstTitleCity(analytics: seq<AnalyticsItem>, propertyId: string): (string, string)
  {
    if analytics == [] then ("", "")
    else if analytics[0].row.propertyId == propertyId then (analytics[0].title, analytics[0].city)
    else FirstTitleCity(analytics[1..], propertyId)
  }

  /** The per-property counters, in first-appearance order. */
  function PropertyStats(analytics: seq<AnalyticsItem>): seq<PropertyStat>
  {
    var b := Tallies(analytics, PropertyOf, IsSuccess);
    seq(|b|, i requires 0 <= i < |b| =>
      var tc := FirstTitleCity(analytics, b[i].0);
      PropertyStat(b[i].0, tc.0, tc.1, b[i].1.posts, b[i].1.success))
  }

  /** The ranking key: successful_posts / posts, 0 without posts. */
  function SuccessShare(p: PropertyStat): real {
    if p.posts > 0 then p.successfulPosts as real / p.posts as real else 0.0
  }

  /** `_get_top_properties(analytics, limit)`. */
  function TopProperties(analytics: seq<AnalyticsItem>, limit: int): seq<PropertyStat>
  {
    PyTake(SortDesc(PropertyStats(analytics), SuccessShare), limit)
  }

  /** Each property's entry counts exactly its rows and its successful rows. */
  lemma PropertyStatsCounts(analytics: seq<AnalyticsItem>)
    ensures forall s :: s in PropertyStats(analytics) ==>
      && s.posts == CountKey(analytics, PropertyOf, s.propertyId)
      && s.successfulPosts == CountKeyOk(analytics, PropertyOf, IsSuccess, s.propertyId, true)
      && s.successfulPosts <= s.posts
  {
    var b := Tallies(analytics, PropertyOf, IsSuccess);
    TalliesPartition(analytics, PropertyOf, IsSuccess);
    var stats := PropertyStats(analytics);
    forall s | s in stats
      ensures s.posts == CountKey(analytics, PropertyOf, s.propertyId)
      ensures s.successfulPosts == CountKeyOk(analytics, PropertyOf, IsSuccess, s.propertyId, true)
      ensures s.successfulPosts <= s.posts
    {
      var i :| 0 <= i < |stats| && stats[i] == s;
      TallyForEntry(b, i);
      TalliesCount(analytics, PropertyOf, IsSuccess, b[i].0);
    }
  }

  lemma SuccessShareBounds(s: PropertyStat)
    requires s.successfulPosts <= s.posts
    ensures 0.0 <= SuccessShare(s) <= 1.0
  {
    if s.posts > 0 {
      assert s.successfulPosts as real <= s.posts as real;
    }
  }

  /** The top list holds min(limit, properties) entries for a non-negative limit, in
      non-increasing order of success share, each the true counters of a property of the
      input, and no property left out has a larger share than one listed. */
  lemma TopPropertiesProps(analytics: seq<AnalyticsItem>, limit: int)
    ensures var r := TopProperties(analytics, limit);
      && (limit >= 0 ==> |r| == Min(limit, |PropertyStats(analytics)|))
      && SortedDesc(r, SuccessShare)
      && multiset(r) <= multiset(PropertyStats(analytics))
      && (forall x, i :: x in PropertyStats(analytics) && x !in r && 0 <= i < |r| ==>
            SuccessShare(x) <= SuccessShare(r[i]))
      && forall s :: s in r ==>
           && s.posts == CountKey(analytics, PropertyOf, s.propertyId)
           && s.successfulPosts == CountKeyOk(analytics, PropertyOf, IsSuccess, s.propertyId, true)
           && 0.0 <= SuccessShare(s) <= 1.0
  {
    TopTaken(PropertyStats(analytics), SuccessShare, limit);
    PropertyStatsCounts(analytics);
    forall s | s in TopProperties(analytics, limit) ensures 0.0 <= SuccessShare(s) <= 1.0 {
      SuccessShareBounds(s);
    }
  }

  /** A platform's month: posts in the analytics, clicks and conversions of its tracked
      links. */
  datatype PlatformPerf = PlatformPerf(platform: string, posts: nat, clicks: int, conversions: int)

  datatype MonthReport = MonthReport(
    totalPosts: nat,
    totalClicks: int,
    totalConversions: int,
    conversionRate: real,
    performance: seq<PlatformPerf>,
    recommendations: seq<string>)

  /** The sum of `f` over the conversion rows of one platform. */
  function PlatformSum(conversions: seq<ConversionItem>, platform: string, f: ConversionItem -> int): int
  {
    if conversions == [] then 0
    else (if conversions[0].row.platform == platform then f(conversions[0]) else 0)
         + PlatformSum(conversions[1..], platform, f)
  }

  /** `platform_performance`: one entry per platform of the analytics rows, in first
      appearance order, with its clicks and conversions. */
  function Performance(analytics: seq<AnalyticsItem>, conversions: seq<ConversionItem>): seq<PlatformPerf>
  {
    var b := Tallies(analytics, PlatformOf, (a: AnalyticsItem) => true);
    seq(|b|, i requires 0 <= i < |b| =>
      PlatformPerf(b[i].0, b[i].1.posts, PlatformSum(conversions, b[i].0, Clicks), PlatformSum(conversions, b[i].0, Conversions)))
  }

  /** `_generate_monthly_report(analytics, conversions)`. */
  function GenerateMonthlyReport(analytics: seq<AnalyticsItem>, conversions: seq<ConversionItem>): MonthReport
  {
    var clicks := Sum(conversions, Clicks);
    var conv := Sum(conversions, Conversions);
    var perf := Performance(analytics, conversions);
    MonthReport(|analytics|, clicks, conv, Percent(conv, clicks), perf, Recommendations(perf))
  }

  /** Only platforms that appear in the analytics rows get an entry, each exactly once, with
      its own post count and the clicks and conversions of its own links; the posts add up
      to the analytics total; the rate is 0 without clicks. */
  lemma MonthlyReportProps(analytics: seq<AnalyticsItem>, conversions: seq<ConversionItem>)
    ensures var r := GenerateMonthlyReport(analytics, conversions);
      && r.totalPosts == |analytics|
      && (r.totalClicks <= 0 ==> r.conversionRate == 0.0)
      && (forall p :: p in PerfPlatforms(r.performance)
                      <==> (exists i :: 0 <= i < |analytics| && analytics[i].row.platform == p))
      && Distinct(PerfPlatforms(r.performance))
      && (forall i :: 0 <= i < |r.performance| ==>
            && r.performance[i].posts == CountKey(analytics, PlatformOf, r.performance[i].platform)
            && r.performance[i].clicks == PlatformSum(conversions, r.performance[i].platform, Clicks)
            && r.performance[i].conversions == PlatformSum(conversions, r.performance[i].platform, Conversions))
  {
    var ok := (a: AnalyticsItem) => true;
    var b := Tallies(analytics, PlatformOf, ok);
    TalliesPartition(analytics, PlatformOf, ok);
    var perf := Performance(analytics, conversions);
    forall i | 0 <= i < |perf| ensures perf[i].posts == CountKey(analytics, PlatformOf, perf[i].platform) {
      TallyForEntry(b, i);
      TalliesCount(analytics, PlatformOf, ok, b[i].0);
    }
    assert PerfPlatforms(perf) == Keys(b);
  }

  /** The platforms of the performance entries, in order. */
  function PerfPlatforms(perf: seq<PlatformPerf>): (r: seq<string>)
    ensures |r| == |perf| && forall i :: 0 <= i < |perf| ==> r[i] == perf[i].platform
  {
    seq(|perf|, i requires 0 <= i < |perf| => perf[i].platform)
  }

  const LowRateAdvice: string := ": 전환율이 낮습니다. 콘텐츠 품질을 개선해보세요."
  const HighRateAdvice: string := ": 전환율이 우수합니다. 더 많은 콘텐츠를 게시해보세요."
  const DefaultAdvice: seq<string> := [
    "모든 플랫폼에서 균형잡힌 성과를 보이고 있습니다.",
    "다양한 콘텐츠 유형을 시도해보세요.",
    "해시태그 전략을 최적화해보세요."]

  /** The advice for one platform: none without posts, low below 5 %, high above 15 %. */
  function Advice(p: PlatformPerf): Option<string> {
    if p.posts == 0 then None
    else
      var rate := Percent(p.conversions, p.clicks);
      if rate < 5.0 then Some(p.platform + LowRateAdvice)
      else if rate > 15.0 then Some(p.platform + HighRateAdvice)
      else None
  }

  function HasAdvice(p: PlatformPerf): bool { Advice(p).Some? }

  /** The platform messages, in platform order. */
  function PlatformAdvice(perf: seq<PlatformPerf>): seq<string>
  {
    if perf == [] then []
    else (match Advice(perf[0]) case Some(m) => [m] case None => []) + PlatformAdvice(perf[1..])
  }

  /** `_generate_recommendations(platform_performance)`. */
  function Recommendations(perf: seq<PlatformPerf>): seq<string>
  {
    var own := PlatformAdvice(perf);
    if own == [] then DefaultAdvice else own
  }

  /** One message per platform with posts and a rate below 5 % or above 15 %, each naming
      that platform; when there is none, exactly the three default messages. */
  lemma {:induction false} RecommendationsProps(perf: seq<PlatformPerf>)
    ensures var r := Recommendations(perf);
      && (Count(perf, HasAdvice) == 0 ==> r == DefaultAdvice)
      && (Count(perf, HasAdvice) > 0 ==> |r| == Count(perf, HasAdvice))
      && (forall p :: p in perf && p.posts > 0 && Percent(p.conversions, p.clicks) < 5.0 ==> p.platform + LowRateAdvice in r)
      && (forall p :: p in perf && p.posts > 0 && Percent(p.conversions, p.clicks) > 15.0 ==> p.platform + HighRateAdvice in r)
  {
    PlatformAdviceProps(perf);
  }

  lemma {:induction false} PlatformAdviceProps(perf: seq<PlatformPerf>)
    ensures |PlatformAdvice(perf)| == Count(perf, HasAdvice)
    ensures forall p :: p in perf && Advice(p).Some? ==> Advice(p).value in PlatformAdvice(perf)
  {
    if perf != [] {
      PlatformAdviceProps(perf[1..]);
      forall p | p in perf && Advice(p).Some? ensures Advice(p).value in PlatformAdvice(perf) {
        if p != perf[0] {
          assert p in perf[1..];
        }
      }
    }
  }

  /** Any platform with posts and no clicks is advised as low. */
  lemma NoClicksIsLow(p: PlatformPerf)
    requires p.posts > 0 && p.clicks <= 0
    ensures Advice(p) == Some(p.platform + LowRateAdvice)
  {
  }
}
