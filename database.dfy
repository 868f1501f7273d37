/** The marketing store: the properties, content, posting_history and conversions tables
    of `DatabaseManager`, held in memory. Every write of the store is a method of `Store`
    whose new table is given by a function of the old one; the functions carry the SQL
    statement's meaning and the lemmas below state what the statements promise.

    Time is an integer clock (seconds); `now` is the moment `datetime.now()` is read. */
module Database {
  import opened Common

  /** One day in clock units, for the `datetime('now', '-N days')` horizons. */
  const DaySeconds: int := 86400

  /** The listing columns a save writes; the defaults of `property_data.get` (empty string,
      0, empty list, empty object) are already filled in. */
  datatype Listing = Listing(
    title: string,
    description: string,
    city: string,
    latitude: real,
    longitude: real,
    pricePerNight: int,
    propertyType: string,
    maxGuests: int,
    bedrooms: int,
    bathrooms: int,
    amenities: seq<string>,
    rating: real,
    reviewCount: int,
    hostName: string,
    hostRating: real,
    images: seq<string>,
    availability: Json,
    bookingUrl: string)

  /** The `property_data` dict of a save: only `id`, `created_at` and `scraped_at` may be
      absent in a way that matters (a missing id raises, missing times default to now). */
  datatype PropertyInput = PropertyInput(
    id: Option<string>,
    listing: Listing,
    createdAt: Option<nat>,
    scrapedAt: Option<nat>)

  /** A row of the properties table. */
  datatype PropertyRow = PropertyRow(
    id: string,
    listing: Listing,
    createdAt: nat,
    scrapedAt: nat,
    isActive: bool)

  /** A row of the content table: one platform's generated content for one property. */
  datatype ContentRow = ContentRow(
    id: nat,
    propertyId: string,
    contentType: string,
    contentData: Json,
    createdAt: nat,
    isPosted: bool,
    postedAt: Option<nat>)

  /** The result dict a platform poster returns and `save_posting_history` reads: the
      `success`, `post_id`, `url`, `error` and `analytics` keys, the other identifier keys
      (`story_id`, `video_id`, ...) in `mediaIds`, and the nested sub-results (feed post,
      story, video, ...) in `parts`, which the table ignores. */
  datatype PostResult = PostResult(
    success: bool,
    postId: Option<string>,
    url: Option<string>,
    error: Option<string>,
    analytics: Option<Json>,
    mediaIds: seq<(string, string)>,
    parts: seq<(string, PostResult)>)

  /** A row of the posting_history table. */
  datatype HistoryRow = HistoryRow(
    id: nat,
    propertyId: string,
    platform: string,
    postId: string,
    postUrl: string,
    status: string,
    errorMessage: string,
    postedAt: nat,
    analyticsData: Json)

  /** A row of the conversions table. */
  datatype ConversionRow = ConversionRow(
    id: nat,
    propertyId: string,
    platform: string,
    trackingUrl: string,
    clickCount: int,
    conversionCount: int,
    createdAt: nat,
    lastUpdated: nat)

  /** A pending content row joined with its property (`content_data` and `property_data`). */
  datatype PendingItem = PendingItem(row: ContentRow, property: PropertyRow)

  /** A history row joined with its property's title and city. */
  datatype AnalyticsItem = AnalyticsItem(row: HistoryRow, title: string, city: string)

  /** A conversions row joined with its property's title and city. */
  datatype ConversionItem = ConversionItem(row: ConversionRow, title: string, city: string)

  /** The selectors of an analytics row the reports group and count by. */
  function IsSuccess(a: AnalyticsItem): bool { a.row.status == "success" }
  function IsFailed(a: AnalyticsItem): bool { a.row.status == "failed" }
  function PlatformOf(a: AnalyticsItem): string { a.row.platform }
  function PropertyOf(a: AnalyticsItem): string { a.row.propertyId }
  function Clicks(c: ConversionItem): int { c.row.clickCount }
  function Conversions(c: ConversionItem): int { c.row.conversionCount }

  // ---------------------------------------------------------------- properties

  predicate HasId(ps: seq<PropertyRow>, id: string) {
    exists i :: 0 <= i < |ps| && ps[i].id == id
  }

  /** The primary key: no two property rows share an id. */
  predicate UniqueIds(ps: seq<PropertyRow>) {
    forall i, j :: 0 <= i < j < |ps| ==> ps[i].id != ps[j].id
  }

  /** `SELECT * FROM properties WHERE id = ?` followed by `fetchone()`. */
  function Lookup(ps: seq<PropertyRow>, id: string): (r: Option<PropertyRow>)
    ensures r.Some? <==> HasId(ps, id)
    ensures r.Some? ==> r.value in ps && r.value.id == id
  {
    if ps == [] then None
    else if ps[0].id == id then Some(ps[0])
    else Lookup(ps[1..], id)
  }

  /** The inner join of a query: each row paired, through `mk`, with the property row its
      `property_id` names. */
  function JoinRows<R, I>(rows: seq<R>, ps: seq<PropertyRow>, pid: R -> string, mk: (R, PropertyRow) -> I): (r: seq<I>)
    requires forall i :: 0 <= i < |rows| ==> HasId(ps, pid(rows[i]))
    ensures |r| == |rows|
    ensures forall i :: 0 <= i < |rows| ==> r[i] == mk(rows[i], Lookup(ps, pid(rows[i])).value)
  {
    if rows == [] then []
    else JoinRows(rows[..|rows| - 1], ps, pid, mk) + [mk(rows[|rows| - 1], Lookup(ps, pid(rows[|rows| - 1])).value)]
  }

  /** The `for row in cursor.fetchall()` loop that builds the result dicts of a join. */
  method JoinLoop<R, I>(rows: seq<R>, ps: seq<PropertyRow>, pid: R -> string, mk: (R, PropertyRow) -> I) returns (r: seq<I>)
    requires forall i :: 0 <= i < |rows| ==> HasId(ps, pid(rows[i]))
    ensures r == JoinRows(rows, ps, pid, mk)
  {
    r := [];
    var i := 0;
    while i < |rows|
      invariant 0 <= i <= |rows|
      invariant r == JoinRows(rows[..i], ps, pid, mk)
    {
      r := r + [mk(rows[i], Lookup(ps, pid(rows[i])).value)];
      i := i + 1;
      assert rows[..i][..i - 1] == rows[..i - 1];
    }
    assert rows[..i] == rows;
  }

  /** The UPDATE branch of a save: new listing columns and scrape time, active again,
      creation time kept. */
  function Refresh(row: PropertyRow, input: PropertyInput, now: nat): PropertyRow {
    row.(listing := input.listing, scrapedAt := input.scrapedAt.GetOr(now), isActive := true)
  }

  /** The INSERT branch of a save; `is_active` takes its column default 1. */
  function NewProperty(id: string, input: PropertyInput, now: nat): PropertyRow {
    PropertyRow(id, input.listing, input.createdAt.GetOr(now), input.scrapedAt.GetOr(now), true)
  }

  /** The properties table after `save_property_data` for the given id. */
  function Upsert(ps: seq<PropertyRow>, id: string, input: PropertyInput, now: nat): seq<PropertyRow>
  {
    if HasId(ps, id) then
      seq(|ps|, i requires 0 <= i < |ps| => if ps[i].id == id then Refresh(ps[i], input, now) else ps[i])
    else
      ps + [NewProperty(id, input, now)]
  }

  /** Saving an id already present overwrites the listing columns and the scrape time,
      reactivates the row and keeps its creation time; every other row is untouched. */
  lemma UpsertExisting(ps: seq<PropertyRow>, id: string, input: PropertyInput, now: nat)
    requires HasId(ps, id)
    ensures var r := Upsert(ps, id, input, now);
      && |r| == |ps|
      && (forall i :: 0 <= i < |ps| && ps[i].id == id ==>
            && r[i].id == id && r[i].listing == input.listing && r[i].isActive
            && r[i].scrapedAt == input.scrapedAt.GetOr(now) && r[i].createdAt == ps[i].createdAt)
      && (forall i :: 0 <= i < |ps| && ps[i].id != id ==> r[i] == ps[i])
  {
  }

  /** Saving a new id appends one active row carrying the input's times (or now). */
  lemma UpsertNew(ps: seq<PropertyRow>, id: string, input: PropertyInput, now: nat)
    requires !HasId(ps, id)
    ensures var r := Upsert(ps, id, input, now);
      && r[..|ps|] == ps && |r| == |ps| + 1
      && r[|ps|] == PropertyRow(id, input.listing, input.createdAt.GetOr(now), input.scrapedAt.GetOr(now), true)
  {
  }

  /** A save keeps the primary key and leaves exactly one row for the saved id. */
  lemma UpsertKeepsKey(ps: seq<PropertyRow>, id: string, input: PropertyInput, now: nat)
    requires UniqueIds(ps)
    ensures var r := Upsert(ps, id, input, now);
      && UniqueIds(r)
      && HasId(r, id)
      && (forall i, j :: 0 <= i < |r| && 0 <= j < |r| && r[i].id == id && r[j].id == id ==> i == j)
  {
    var r := Upsert(ps, id, input, now);
    if !HasId(ps, id) {
      assert r[|ps|].id == id;
    } else {
      var k :| 0 <= k < |ps| && ps[k].id == id;
      assert r[k].id == id;
    }
  }

  /** Saving the same data twice at the same moment is the same as saving it once. */
  lemma UpsertIdempotent(ps: seq<PropertyRow>, id: string, input: PropertyInput, now: nat)
    ensures Upsert(Upsert(ps, id, input, now), id, input, now) == Upsert(ps, id, input, now)
  {
    var r := Upsert(ps, id, input, now);
    if HasId(ps, id) {
      var k :| 0 <= k < |ps| && ps[k].id == id;
      assert r[k].id == id;
    } else {
      assert r[|ps|].id == id;
    }
    assert HasId(r, id);
  }

  /** Active rows, newest scrape first, windowed by LIMIT and OFFSET (`get_all_properties`). */
  function ActiveWindow(ps: seq<PropertyRow>, limit: int, offset: int): seq<PropertyRow>
  {
    SqlWindow(SortDesc(Filter(ps, (p: PropertyRow) => p.isActive), (p: PropertyRow) => p.scrapedAt as real), limit, offset)
  }

  /** `get_all_properties` returns only active rows, newest scrape first: the page is the
      run of positions [offset, offset + limit) of the active rows ordered newest first,
      holding min(limit, active rows after the offset) of them, and with the default window
      (offset 0, no limit reached) every active row. */
  lemma ActiveWindowProps(ps: seq<PropertyRow>, limit: int, offset: int)
    ensures var r := ActiveWindow(ps, limit, offset);
      && (forall x :: x in r ==> x.isActive && x in ps)
      && SortedDesc(r, (p: PropertyRow) => p.scrapedAt as real)
      && (limit >= 0 ==> |r| <= limit)
      && (offset <= 0 && (limit < 0 || limit >= Count(ps, (p: PropertyRow) => p.isActive)) ==>
            multiset(r) == multiset(Filter(ps, (p: PropertyRow) => p.isActive)))
    ensures var active := Filter(ps, (p: PropertyRow) => p.isActive);
      var newest := SortDesc(active, (p: PropertyRow) => p.scrapedAt as real);
      var r := ActiveWindow(ps, limit, offset);
      var o := if offset < 0 then 0 else offset;
      && SortedDesc(newest, (p: PropertyRow) => p.scrapedAt as real)
      && multiset(newest) == multiset(active) && |newest| == |active|
      && |r| == WindowLength(|active|, limit, offset)
      && (o <= |active| ==> r == newest[o..o + |r|])
  {
    var active := Filter(ps, (p: PropertyRow) => p.isActive);
    var key := (p: PropertyRow) => p.scrapedAt as real;
    var sorted := SortDesc(active, key);
    SortDescCorrect(active, key);
    WindowElements(sorted, limit, offset);
    WindowSortedDesc(sorted, key, limit, offset);
    var r := ActiveWindow(ps, limit, offset);
    forall x | x in r ensures x.isActive && x in ps {
      assert x in multiset(sorted);
    }
  }

  // ---------------------------------------------------------------- content

  /** The entries of `content_data['platforms']` that `_save_content_data` inserts: nothing
      when no content is given, the dict is empty, the key is missing, or either level is
      not a dict (the `.get`/`.items()` call raises and the helper swallows it). */
  function PlatformEntries(contentData: Option<Json>): seq<(string, Json)>
  {
    match contentData
    case Some(JObj(fields)) =>
      if fields == [] then []
      else (match Get(fields, "platforms")
            case Some(JObj(entries)) => entries
            case _ => [])
    case _ => []
  }

  /** The content table after inserting one unposted row per platform entry; AUTOINCREMENT
      hands out `next`, `next + 1`, ... */
  function AppendContent(cs: seq<ContentRow>, next: nat, propertyId: string, entries: seq<(string, Json)>, now: nat): seq<ContentRow>
  {
    cs + seq(|entries|, i requires 0 <= i < |entries| =>
      ContentRow(next + i, propertyId, entries[i].0, entries[i].1, now, false, None))
  }

  /** `is_posted` holds exactly when `posted_at` is set. */
  predicate PostedInvariant(cs: seq<ContentRow>) {
    forall i :: 0 <= i < |cs| ==> (cs[i].isPosted <==> cs[i].postedAt.Some?)
  }

  /** The AUTOINCREMENT key: ids are distinct and below the next id to hand out. */
  predicate ContentKeys(cs: seq<ContentRow>, next: nat) {
    && (forall i :: 0 <= i < |cs| ==> cs[i].id < next)
    && (forall i, j :: 0 <= i < j < |cs| ==> cs[i].id != cs[j].id)
  }

  /** Saving content appends exactly one unposted row per platform entry, in order, after
      the existing rows; so saving twice appends the rows twice. */
  lemma AppendContentShape(cs: seq<ContentRow>, next: nat, pid: string, entries: seq<(string, Json)>, now: nat)
    ensures var r := AppendContent(cs, next, pid, entries, now);
      && |r| == |cs| + |entries| && r[..|cs|] == cs
      && (forall i :: 0 <= i < |entries| ==>
            && r[|cs| + i].propertyId == pid && r[|cs| + i].contentType == entries[i].0
            && r[|cs| + i].contentData == entries[i].1 && r[|cs| + i].createdAt == now
            && !r[|cs| + i].isPosted && r[|cs| + i].postedAt == None)
  {
  }

  /** Inserting content keeps the key and the posted invariant. */
  lemma AppendContentValid(cs: seq<ContentRow>, next: nat, pid: string, entries: seq<(string, Json)>, now: nat)
    requires ContentKeys(cs, next) && PostedInvariant(cs)
    ensures ContentKeys(AppendContent(cs, next, pid, entries, now), next + |entries|)
    ensures PostedInvariant(AppendContent(cs, next, pid, entries, now))
  {
  }

  /** The row after `UPDATE content SET is_posted = 1, posted_at = now`. */
  function Posted(c: ContentRow, now: nat): ContentRow {
    c.(isPosted := true, postedAt := Some(now))
  }

  /** The content table after `mark_content_as_posted(id)`. */
  function MarkPosted(cs: seq<ContentRow>, id: nat, now: nat): seq<ContentRow>
  {
    seq(|cs|, i requires 0 <= i < |cs| => if cs[i].id == id then Posted(cs[i], now) else cs[i])
  }

  /** Marking changes only the row with that id (posted, stamped now); an unknown id
      changes nothing. */
  lemma MarkPostedFrame(cs: seq<ContentRow>, id: nat, now: nat)
    ensures var r := MarkPosted(cs, id, now);
      && |r| == |cs|
      && (forall i :: 0 <= i < |cs| && cs[i].id != id ==> r[i] == cs[i])
      && (forall i :: 0 <= i < |cs| && cs[i].id == id ==>
            r[i].isPosted && r[i].postedAt == Some(now) && r[i].id == id
            && r[i].propertyId == cs[i].propertyId && r[i].contentData == cs[i].contentData)
      && ((forall i :: 0 <= i < |cs| ==> cs[i].id != id) ==> r == cs)
  {
  }

  /** Marking keeps the key and the posted invariant. */
  lemma MarkPostedValid(cs: seq<ContentRow>, next: nat, id: nat, now: nat)
    requires ContentKeys(cs, next) && PostedInvariant(cs)
    ensures ContentKeys(MarkPosted(cs, id, now), next) && PostedInvariant(MarkPosted(cs, id, now))
  {
  }

  /** Unposted content whose property row exists (the inner join), in the table's order. */
  function PendingCandidates(cs: seq<ContentRow>, ps: seq<PropertyRow>): seq<ContentRow>
  {
    Filter(cs, (c: ContentRow) => !c.isPosted && HasId(ps, c.propertyId))
  }

  /** `WHERE c.is_posted = 0 ORDER BY c.created_at ASC LIMIT ?`. */
  function PendingRows(cs: seq<ContentRow>, ps: seq<PropertyRow>, limit: int): seq<ContentRow>
  {
    SqlWindow(SortAsc(PendingCandidates(cs, ps), (c: ContentRow) => c.createdAt as real), limit, 0)
  }

  /** The pending selection is first-in first-out: only unposted rows with a property,
      oldest first, min(limit, candidates) of them for a non-negative limit, and no
      candidate left out is older than one taken; without a binding limit every candidate
      is taken. */
  lemma PendingRowsProps(cs: seq<ContentRow>, ps: seq<PropertyRow>, limit: int)
    ensures var r := PendingRows(cs, ps, limit);
      && (forall i :: 0 <= i < |r| ==> !r[i].isPosted && HasId(ps, r[i].propertyId) && r[i] in cs)
      && SortedAsc(r, (c: ContentRow) => c.createdAt as real)
      && (limit >= 0 ==> |r| == Min(limit, |PendingCandidates(cs, ps)|))
      && multiset(r) <= multiset(PendingCandidates(cs, ps))
      && (forall c, i :: c in PendingCandidates(cs, ps) && c !in r && 0 <= i < |r| ==> r[i].createdAt <= c.createdAt)
      && (limit < 0 || limit >= |PendingCandidates(cs, ps)| ==> multiset(r) == multiset(PendingCandidates(cs, ps)))
  {
    var cand := PendingCandidates(cs, ps);
    var key := (c: ContentRow) => c.createdAt as real;
    OldestFirst(cand, key, limit);
    CandidateMembers(cs, ps);
    var r := PendingRows(cs, ps, limit);
    forall i | 0 <= i < |r| ensures !r[i].isPosted && HasId(ps, r[i].propertyId) && r[i] in cs {
      assert r[i] in cand;
    }
    forall c, i | c in cand && c !in r && 0 <= i < |r| ensures r[i].createdAt <= c.createdAt {
      assert key(r[i]) <= key(c);
    }
  }

  /** A candidate is an unposted row of the table whose property exists. */
  lemma CandidateMembers(cs: seq<ContentRow>, ps: seq<PropertyRow>)
    ensures forall x :: x in PendingCandidates(cs, ps) ==> !x.isPosted && HasId(ps, x.propertyId) && x in cs
  {
    var cand := PendingCandidates(cs, ps);
    forall x | x in cand ensures !x.isPosted && HasId(ps, x.propertyId) && x in cs {
      var k :| 0 <= k < |cand| && cand[k] == x;
    }
  }

  /** Each pending row joined with its property row. */
  function PendingItems(cs: seq<ContentRow>, ps: seq<PropertyRow>, limit: int): seq<PendingItem>
  {
    PendingRowsProps(cs, ps, limit);
    JoinRows(PendingRows(cs, ps, limit), ps, (c: ContentRow) => c.propertyId,
             (c: ContentRow, p: PropertyRow) => PendingItem(c, p))
  }

  // ---------------------------------------------------------------- posting history

  /** The row `save_posting_history` inserts: 'success' when the result says so and
      'failed' otherwise; missing id, url and error become '' and missing analytics {}. */
  function HistoryEntry(id: nat, propertyId: string, platform: string, post: PostResult, now: nat): HistoryRow
  {
    HistoryRow(id, propertyId, platform, post.postId.GetOr(""), post.url.GetOr(""),
               if post.success then "success" else "failed",
               post.error.GetOr(""), now, post.analytics.GetOr(JObj([])))
  }

  /** Recording a result appends exactly one row whose status is 'success' exactly when the
      result succeeded (and 'failed' otherwise); earlier rows are untouched. */
  lemma HistoryEntryProps(hs: seq<HistoryRow>, id: nat, pid: string, platform: string, post: PostResult, now: nat)
    ensures var r := hs + [HistoryEntry(id, pid, platform, post, now)];
      && |r| == |hs| + 1 && r[..|hs|] == hs
      && (r[|hs|].status == "success" <==> post.success)
      && (r[|hs|].status == "failed" <==> !post.success)
      && r[|hs|].propertyId == pid && r[|hs|].platform == platform && r[|hs|].postedAt == now
      && (post.error.None? ==> r[|hs|].errorMessage == "")
  {
  }

  /** The oldest posting time that `datetime('now', '-N days')` still admits. */
  function Horizon(now: nat, days: int): int {
    now - days * DaySeconds
  }

  /** The WHERE clause of `get_posting_analytics`: recent enough, and the optional property
      and platform filters, each skipped when empty (`if property_id:`). */
  predicate InAnalytics(h: HistoryRow, ps: seq<PropertyRow>, propertyId: string, platform: string, horizon: int) {
    && HasId(ps, h.propertyId)
    && h.postedAt >= horizon
    && (propertyId == "" || h.propertyId == propertyId)
    && (platform == "" || h.platform == platform)
  }

  /** The selected history rows, newest first. */
  function AnalyticsRows(hs: seq<HistoryRow>, ps: seq<PropertyRow>, propertyId: string, platform: string, days: int, now: nat): seq<HistoryRow>
  {
    SortDesc(Filter(hs, (h: HistoryRow) => InAnalytics(h, ps, propertyId, platform, Horizon(now, days))),
             (h: HistoryRow) => h.postedAt as real)
  }

  /** The analytics query returns exactly the matching rows, each once, newest first. */
  lemma AnalyticsRowsProps(hs: seq<HistoryRow>, ps: seq<PropertyRow>, propertyId: string, platform: string, days: int, now: nat)
    ensures var r := AnalyticsRows(hs, ps, propertyId, platform, days, now);
      && multiset(r) == multiset(Filter(hs, (h: HistoryRow) => InAnalytics(h, ps, propertyId, platform, Horizon(now, days))))
      && SortedDesc(r, (h: HistoryRow) => h.postedAt as real)
      && (forall i :: 0 <= i < |r| ==> r[i] in hs && InAnalytics(r[i], ps, propertyId, platform, Horizon(now, days)))
  {
    var sel := Filter(hs, (h: HistoryRow) => InAnalytics(h, ps, propertyId, platform, Horizon(now, days)));
    SortDescCorrect(sel, (h: HistoryRow) => h.postedAt as real);
    var r := AnalyticsRows(hs, ps, propertyId, platform, days, now);
    forall i | 0 <= i < |r| ensures r[i] in hs && InAnalytics(r[i], ps, propertyId, platform, Horizon(now, days)) {
      assert r[i] in multiset(sel);
    }
  }

  /** Each selected history row joined with its property's title and city. */
  function AnalyticsItems(hs: seq<HistoryRow>, ps: seq<PropertyRow>, propertyId: string, platform: string, days: int, now: nat): seq<AnalyticsItem>
  {
    AnalyticsRowsProps(hs, ps, propertyId, platform, days, now);
    JoinRows(AnalyticsRows(hs, ps, propertyId, platform, days, now), ps, (h: HistoryRow) => h.propertyId,
             (h: HistoryRow, p: PropertyRow) => AnalyticsItem(h, p.listing.title, p.listing.city))
  }

  // ---------------------------------------------------------------- conversions

  predicate HasPair(rs: seq<ConversionRow>, pid: string, platform: string) {
    exists i :: 0 <= i < |rs| && rs[i].propertyId == pid && rs[i].platform == platform
  }

  /** At most one conversions row per (property, platform). */
  predicate UniquePairs(rs: seq<ConversionRow>) {
    forall i, j :: 0 <= i < j < |rs| ==>
      (rs[i].propertyId, rs[i].platform) != (rs[j].propertyId, rs[j].platform)
  }

  /** The conversions table after `save_conversion_tracking`. */
  function UpsertTracking(rs: seq<ConversionRow>, next: nat, pid: string, platform: string, url: string, now: nat): seq<ConversionRow>
  {
    if HasPair(rs, pid, platform) then
      seq(|rs|, i requires 0 <= i < |rs| =>
        if rs[i].propertyId == pid && rs[i].platform == platform
        then rs[i].(trackingUrl := url, lastUpdated := now) else rs[i])
    else
      rs + [ConversionRow(next, pid, platform, url, 0, 0, now, now)]
  }

  /** Tracking an existing pair changes only its URL and update time and keeps its counts;
      a new pair gets one row starting at zero clicks and conversions; the pair stays unique. */
  lemma UpsertTrackingProps(rs: seq<ConversionRow>, next: nat, pid: string, platform: string, url: string, now: nat)
    requires UniquePairs(rs)
    ensures var r := UpsertTracking(rs, next, pid, platform, url, now);
      && UniquePairs(r)
      && HasPair(r, pid, platform)
      && (HasPair(rs, pid, platform) ==>
            && |r| == |rs|
            && forall i :: 0 <= i < |rs| ==>
                 (if rs[i].propertyId == pid && rs[i].platform == platform
                  then r[i].clickCount == rs[i].clickCount && r[i].conversionCount == rs[i].conversionCount
                       && r[i].createdAt == rs[i].createdAt && r[i].trackingUrl == url && r[i].lastUpdated == now
                  else r[i] == rs[i]))
      && (!HasPair(rs, pid, platform) ==>
            && r[..|rs|] == rs && |r| == |rs| + 1
            && r[|rs|].clickCount == 0 && r[|rs|].conversionCount == 0 && r[|rs|].trackingUrl == url)
  {
    var r := UpsertTracking(rs, next, pid, platform, url, now);
    if HasPair(rs, pid, platform) {
      var k :| 0 <= k < |rs| && rs[k].propertyId == pid && rs[k].platform == platform;
      assert r[k].propertyId == pid && r[k].platform == platform;
    } else {
      assert r[|rs|].propertyId == pid && r[|rs|].platform == platform;
    }
  }

  /** The conversions table after `update_conversion_stats`: the deltas are added to the
      matching row; with no matching row the UPDATE touches nothing. */
  function AddStats(rs: seq<ConversionRow>, pid: string, platform: string, clicks: int, conversions: int, now: nat): seq<ConversionRow>
  {
    seq(|rs|, i requires 0 <= i < |rs| =>
      if rs[i].propertyId == pid && rs[i].platform == platform
      then rs[i].(clickCount := rs[i].clickCount + clicks,
                  conversionCount := rs[i].conversionCount + conversions, lastUpdated := now)
      else rs[i])
  }

  /** Updating statistics adds the deltas to the matching row only, and creates nothing:
      for an untracked pair the table is unchanged. */
  lemma AddStatsProps(rs: seq<ConversionRow>, pid: string, platform: string, clicks: int, conversions: int, now: nat)
    ensures var r := AddStats(rs, pid, platform, clicks, conversions, now);
      && |r| == |rs|
      && (forall i :: 0 <= i < |rs| ==>
            if rs[i].propertyId == pid && rs[i].platform == platform
            then r[i].clickCount == rs[i].clickCount + clicks
                 && r[i].conversionCount == rs[i].conversionCount + conversions
                 && r[i].trackingUrl == rs[i].trackingUrl && r[i].id == rs[i].id
            else r[i] == rs[i])
      && (!HasPair(rs, pid, platform) ==> r == rs)
  {
  }

  /** The total clicks grow by exactly the delta when the pair is tracked once. */
  lemma {:induction false} AddStatsTotals(rs: seq<ConversionRow>, pid: string, platform: string, clicks: int, conversions: int, now: nat)
    requires UniquePairs(rs) && HasPair(rs, pid, platform)
    ensures Sum(AddStats(rs, pid, platform, clicks, conversions, now), (c: ConversionRow) => c.clickCount)
            == Sum(rs, (c: ConversionRow) => c.clickCount) + clicks
    ensures Sum(AddStats(rs, pid, platform, clicks, conversions, now), (c: ConversionRow) => c.conversionCount)
            == Sum(rs, (c: ConversionRow) => c.conversionCount) + conversions
  {
    var r := AddStats(rs, pid, platform, clicks, conversions, now);
    assert r[1..] == AddStats(rs[1..], pid, platform, clicks, conversions, now);
    if rs[0].propertyId == pid && rs[0].platform == platform {
      AddStatsUntracked(rs[1..], pid, platform, clicks, conversions, now);
    } else {
      var k :| 0 <= k < |rs| && rs[k].propertyId == pid && rs[k].platform == platform;
      assert rs[1..][k - 1] == rs[k];
      AddStatsTotals(rs[1..], pid, platform, clicks, conversions, now);
    }
  }

  lemma AddStatsUntracked(rs: seq<ConversionRow>, pid: string, platform: string, clicks: int, conversions: int, now: nat)
    requires forall i :: 0 <= i < |rs| ==> rs[i].propertyId != pid || rs[i].platform != platform
    ensures AddStats(rs, pid, platform, clicks, conversions, now) == rs
  {
  }

  /** `get_conversion_stats`: rows with a property, optionally of one property (skipped when
      empty), most recently updated first. */
  function ConversionRows(rs: seq<ConversionRow>, ps: seq<PropertyRow>, propertyId: string): seq<ConversionRow>
  {
    SortDesc(Filter(rs, (c: ConversionRow) => HasId(ps, c.propertyId) && (propertyId == "" || c.propertyId == propertyId)),
             (c: ConversionRow) => c.lastUpdated as real)
  }

  /** The statistics query returns exactly the matching rows, most recently updated first. */
  lemma ConversionRowsProps(rs: seq<ConversionRow>, ps: seq<PropertyRow>, propertyId: string)
    ensures var r := ConversionRows(rs, ps, propertyId);
      && multiset(r) == multiset(Filter(rs, (c: ConversionRow) => HasId(ps, c.propertyId) && (propertyId == "" || c.propertyId == propertyId)))
      && SortedDesc(r, (c: ConversionRow) => c.lastUpdated as real)
      && (forall i :: 0 <= i < |r| ==> HasId(ps, r[i].propertyId) && (propertyId == "" || r[i].propertyId == propertyId))
  {
    var sel := Filter(rs, (c: ConversionRow) => HasId(ps, c.propertyId) && (propertyId == "" || c.propertyId == propertyId));
    SortDescCorrect(sel, (c: ConversionRow) => c.lastUpdated as real);
    var r := ConversionRows(rs, ps, propertyId);
    forall i | 0 <= i < |r|
      ensures HasId(ps, r[i].propertyId) && (propertyId == "" || r[i].propertyId == propertyId)
    {
      assert r[i] in multiset(sel);
    }
  }

  /** Each selected conversions row joined with its property's title and city. */
  function ConversionItems(rs: seq<ConversionRow>, ps: seq<PropertyRow>, propertyId: string): seq<ConversionItem>
  {
    ConversionRowsProps(rs, ps, propertyId);
    JoinRows(ConversionRows(rs, ps, propertyId), ps, (c: ConversionRow) => c.propertyId,
             (c: ConversionRow, p: PropertyRow) => ConversionItem(c, p.listing.title, p.listing.city))
  }

  // ---------------------------------------------------------------- cleanup

  /** `DELETE FROM posting_history WHERE posted_at < horizon`. */
  function PurgeHistory(hs: seq<HistoryRow>, horizon: int): seq<HistoryRow>
  {
    Filter(hs, (h: HistoryRow) => h.postedAt >= horizon)
  }

  /** `UPDATE properties SET is_active = 0 WHERE scraped_at < horizon`. */
  function Deactivate(ps: seq<PropertyRow>, horizon: int): seq<PropertyRow>
  {
    seq(|ps|, i requires 0 <= i < |ps| => if ps[i].scrapedAt < horizon then ps[i].(isActive := false) else ps[i])
  }

  /** The purge keeps exactly the history rows at or after the horizon, in order, and a
      second purge with the same horizon removes nothing more. */
  lemma PurgeHistoryProps(hs: seq<HistoryRow>, horizon: int)
    ensures var r := PurgeHistory(hs, horizon);
      && Subseq(r, hs)
      && (forall h :: h in r <==> h in hs && h.postedAt >= horizon)
      && PurgeHistory(r, horizon) == r
  {
    var p := (h: HistoryRow) => h.postedAt >= horizon;
    FilterIsSubseq(hs, p);
    var r := PurgeHistory(hs, horizon);
    forall h | h in hs && h.postedAt >= horizon ensures h in r {
      FilterKeeps(hs, p, h);
    }
    FilterAll(r, p);
  }

  /** Deactivation turns off exactly the rows scraped before the horizon, changes no other
      column, and is idempotent. */
  lemma DeactivateProps(ps: seq<PropertyRow>, horizon: int)
    ensures var r := Deactivate(ps, horizon);
      && |r| == |ps|
      && (forall i :: 0 <= i < |ps| ==>
            r[i].isActive == (ps[i].isActive && ps[i].scrapedAt >= horizon)
            && r[i].(isActive := ps[i].isActive) == ps[i])
      && Deactivate(r, horizon) == r
  {
  }

  // ---------------------------------------------------------------- the store

  /** The tables of one database file and the AUTOINCREMENT counters of the three tables
      that have one. */
  class Store {
    var properties: seq<PropertyRow>
    var content: seq<ContentRow>
    var history: seq<HistoryRow>
    var conversions: seq<ConversionRow>
    var nextContentId: nat
    var nextHistoryId: nat
    var nextConversionId: nat

    /** The constraints the schema and the write paths keep. */
    ghost predicate Valid()
      reads this
    {
      && UniqueIds(properties)
      && ContentKeys(content, nextContentId)
      && PostedInvariant(content)
      && (forall h :: h in history ==> h.id < nextHistoryId)
      && UniquePairs(conversions)
      && (forall i :: 0 <= i < |conversions| ==> conversions[i].id < nextConversionId)
    }

    /** `init_database` on a fresh file: every table empty, AUTOINCREMENT starting at 1. */
    constructor ()
      ensures Valid()
      ensures properties == [] && content == [] && history == [] && conversions == []
      ensures nextContentId == 1 && nextHistoryId == 1 && nextConversionId == 1
    {
      properties := [];
      content := [];
      history := [];
      conversions := [];
      nextContentId := 1;
      nextHistoryId := 1;
      nextConversionId := 1;
    }

    /** `save_property_data(property_data, content_data)`: a missing id raises before any
      write and the save reports False; otherwise the property is upserted, one content row
      is appended per platform entry, and the save reports True. */
    method SaveProperty(input: PropertyInput, contentData: Option<Json>, now: nat) returns (ok: bool)
      requires Valid()
      modifies this
      ensures Valid()
      ensures ok <==> input.id.Some?
      ensures !ok ==> unchanged(this)
      ensures ok ==>
        && properties == Upsert(old(properties), input.id.value, input, now)
        && content == AppendContent(old(content), old(nextContentId), input.id.value, PlatformEntries(contentData), now)
        && nextContentId == old(nextContentId) + |PlatformEntries(contentData)|
      ensures history == old(history) && conversions == old(conversions)
      ensures nextHistoryId == old(nextHistoryId) && nextConversionId == old(nextConversionId)
    {
      if input.id.None? {
        return false;
      }
      var id := input.id.value;
      UpsertKeepsKey(properties, id, input, now);
      properties := Upsert(properties, id, input, now);
      var entries := PlatformEntries(contentData);
      SaveContentData(id, entries, now);
      ok := true;
    }

    /** `_save_content_data`: one INSERT per entry of `content_data['platforms']`. */
    method SaveContentData(propertyId: string, entries: seq<(string, Json)>, now: nat)
      requires Valid()
      modifies this
      ensures Valid()
      ensures content == AppendContent(old(content), old(nextContentId), propertyId, entries, now)
      ensures nextContentId == old(nextContentId) + |entries|
      ensures properties == old(properties) && history == old(history) && conversions == old(conversions)
      ensures nextHistoryId == old(nextHistoryId) && nextConversionId == old(nextConversionId)
    {
      ghost var start, first := content, nextContentId;
      var i := 0;
      while i < |entries|
        invariant 0 <= i <= |entries|
        invariant content == AppendContent(start, first, propertyId, entries[..i], now)
        invariant nextContentId == first + i
        invariant Valid()
        invariant properties == old(properties) && history == old(history) && conversions == old(conversions)
        invariant nextHistoryId == old(nextHistoryId) && nextConversionId == old(nextConversionId)
      {
        var row := ContentRow(nextContentId, propertyId, entries[i].0, entries[i].1, now, false, None);
        AppendContentValid(content, nextContentId, propertyId, [entries[i]], now);
        assert AppendContent(content, nextContentId, propertyId, [entries[i]], now) == content + [row];
        content := content + [row];
        nextContentId := nextContentId + 1;
        i := i + 1;
        assert AppendContent(start, first, propertyId, entries[..i], now)
            == AppendContent(start, first, propertyId, entries[..i - 1], now) + [row];
      }
      assert entries[..i] == entries;
    }

    /** `get_property_data(id)`: the row with that id, active or not. */
    method GetProperty(id: string) returns (r: Option<PropertyRow>)
      ensures r.Some? <==> HasId(properties, id)
      ensures r.Some? ==> r.value in properties && r.value.id == id
      ensures r == Lookup(properties, id)
    {
      r := Lookup(properties, id);
    }

    /** `get_all_properties(limit, offset)`. */
    method GetAllProperties(limit: int, offset: int) returns (r: seq<PropertyRow>)
      ensures r == ActiveWindow(properties, limit, offset)
    {
      r := ActiveWindow(properties, limit, offset);
    }

    /** `get_pending_content(limit)`: the selected rows, each joined with its property. */
    method GetPendingContent(limit: int) returns (r: seq<PendingItem>)
      ensures r == PendingItems(content, properties, limit)
    {
      var rows := PendingRows(content, properties, limit);
      PendingRowsProps(content, properties, limit);
      r := JoinLoop(rows, properties, (c: ContentRow) => c.propertyId,
                    (c: ContentRow, p: PropertyRow) => PendingItem(c, p));
    }

    /** `mark_content_as_posted(id)`: reports True whether or not the id exists. */
    method MarkContentAsPosted(id: nat, now: nat) returns (ok: bool)
      requires Valid()
      modifies this
      ensures Valid()
      ensures ok
      ensures content == MarkPosted(old(content), id, now)
      ensures properties == old(properties) && history == old(history) && conversions == old(conversions)
      ensures nextContentId == old(nextContentId) && nextHistoryId == old(nextHistoryId)
      ensures nextConversionId == old(nextConversionId)
    {
      MarkPostedValid(content, nextContentId, id, now);
      content := MarkPosted(content, id, now);
      ok := true;
    }

    /** `save_posting_history(property_id, platform, post_data)`: one row appended. */
    method SavePostingHistory(propertyId: string, platform: string, post: PostResult, now: nat) returns (ok: bool)
      requires Valid()
      modifies this
      ensures Valid()
      ensures ok
      ensures history == old(history) + [HistoryEntry(old(nextHistoryId), propertyId, platform, post, now)]
      ensures nextHistoryId == old(nextHistoryId) + 1
      ensures properties == old(properties) && content == old(content) && conversions == old(conversions)
      ensures nextContentId == old(nextContentId) && nextConversionId == old(nextConversionId)
    {
      history := history + [HistoryEntry(nextHistoryId, propertyId, platform, post, now)];
      nextHistoryId := nextHistoryId + 1;
      ok := true;
    }

    /** `get_posting_analytics(property_id, platform, days)`; an empty filter means none. */
    method GetPostingAnalytics(propertyId: string, platform: string, days: int, now: nat) returns (r: seq<AnalyticsItem>)
      ensures r == AnalyticsItems(history, properties, propertyId, platform, days, now)
    {
      var rows := AnalyticsRows(history, properties, propertyId, platform, days, now);
      AnalyticsRowsProps(history, properties, propertyId, platform, days, now);
      r := JoinLoop(rows, properties, (h: HistoryRow) => h.propertyId,
                    (h: HistoryRow, p: PropertyRow) => AnalyticsItem(h, p.listing.title, p.listing.city));
    }

    /** `save_conversion_tracking(property_id, platform, tracking_url)`. */
    method SaveConversionTracking(propertyId: string, platform: string, url: string, now: nat) returns (ok: bool)
      requires Valid()
      modifies this
      ensures Valid()
      ensures ok
      ensures conversions == UpsertTracking(old(conversions), old(nextConversionId), propertyId, platform, url, now)
      ensures nextConversionId == old(nextConversionId) + (if HasPair(old(conversions), propertyId, platform) then 0 else 1)
      ensures properties == old(properties) && content == old(content) && history == old(history)
      ensures nextContentId == old(nextContentId) && nextHistoryId == old(nextHistoryId)
    {
      UpsertTrackingProps(conversions, nextConversionId, propertyId, platform, url, now);
      var isNew := !HasPair(conversions, propertyId, platform);
      conversions := UpsertTracking(conversions, nextConversionId, propertyId, platform, url, now);
      if isNew {
        nextConversionId := nextConversionId + 1;
      }
      ok := true;
    }

    /** `update_conversion_stats(property_id, platform, click_count, conversion_count)`. */
    method UpdateConversionStats(propertyId: string, platform: string, clicks: int, conversions': int, now: nat) returns (ok: bool)
      requires Valid()
      modifies this
      ensures Valid()
      ensures ok
      ensures conversions == AddStats(old(conversions), propertyId, platform, clicks, conversions', now)
      ensures properties == old(properties) && content == old(content) && history == old(history)
      ensures nextContentId == old(nextContentId) && nextHistoryId == old(nextHistoryId)
      ensures nextConversionId == old(nextConversionId)
    {
      conversions := AddStats(conversions, propertyId, platform, clicks, conversions', now);
      ok := true;
    }

    /** `get_conversion_stats(property_id)`; an empty id means every property. */
    method GetConversionStats(propertyId: string) returns (r: seq<ConversionItem>)
      ensures r == ConversionItems(conversions, properties, propertyId)
    {
      var rows := ConversionRows(conversions, properties, propertyId);
      ConversionRowsProps(conversions, properties, propertyId);
      r := JoinLoop(rows, properties, (c: ConversionRow) => c.propertyId,
                    (c: ConversionRow, p: PropertyRow) => ConversionItem(c, p.listing.title, p.listing.city));
    }

    /** `cleanup_old_data(days)`: old history deleted, stale properties deactivated, content
      and conversions untouched. */
    method CleanupOldData(days: int, now: nat) returns (ok: bool)
      requires Valid()
      modifies this
      ensures Valid()
      ensures ok
      ensures history == PurgeHistory(old(history), Horizon(now, days))
      ensures properties == Deactivate(old(properties), Horizon(now, days))
      ensures content == old(content) && conversions == old(conversions)
      ensures nextContentId == old(nextContentId) && nextHistoryId == old(nextHistoryId)
      ensures nextConversionId == old(nextConversionId)
    {
      var horizon := Horizon(now, days);
      history := PurgeHistory(history, horizon);
      properties := Deactivate(properties, horizon);
      ok := true;
    }
  }
}
