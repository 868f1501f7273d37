/** The analytics API: the overview partitions by day and platform, the per-property
    performance ranking, the ISO-week trend with its growth rates, and the CSV export.
    Each handler receives the rows `get_posting_analytics` and `get_conversion_stats`
    returned; the loops that fill the local dicts are methods proved against the functions
    that say what the dicts hold. */
module AnalyticsRoutes {
  import opened Common
  import opened Database

  // ---------------------------------------------------------------- calendar

  /** Day 0 of the clock is 1970-01-01, a Thursday. */
  const Epoch: nat := 1970

  predicate Leap(y: nat) {
    y % 4 == 0 && (y % 100 != 0 || y % 400 == 0)
  }

  function YearLength(y: nat): nat {
    if Leap(y) then 366 else 365
  }

  /** The Gregorian year and zero-based day of that year of the date `d` days after
      1 January of year `y`. */
  function YearDay(d: nat, y: nat): (r: (nat, nat))
    ensures r.0 >= y && r.1 < YearLength(r.0)
    decreases d
  {
    if d < YearLength(y) then (y, d) else YearDay(d - YearLength(y), y + 1)
  }

  /** The date (`posted_at[:10]`) of a posting time, as its day number. */
  function DayOf(a: AnalyticsItem): nat {
    a.row.postedAt / DaySeconds
  }

  /** The Monday-to-Sunday week a day falls in: week `q` runs from day 7q-3 to day 7q+3 and
      its Thursday is day 7q. */
  function WeekIndex(day: nat): nat {
    (day + 3) / 7
  }

  /** An ISO 8601 week: the year and the week number `isocalendar()` gives. */
  datatype WeekKey = WeekKey(year: nat, week: nat)

  /** Section 4.1.4 of ISO 8601:2004: a week belongs to the year that holds its Thursday,
      and is numbered by the Thursday's place in that year (week 1 holds the first
      Thursday). */
  function IsoWeekKey(day: nat): WeekKey {
    var yd := YearDay(7 * WeekIndex(day), Epoch);
    WeekKey(yd.0, yd.1 / 7 + 1)
  }

  function WeekOf(a: AnalyticsItem): WeekKey {
    IsoWeekKey(DayOf(a))
  }

  /** `f"{year}-W{week:02d}"`. */
  function WeekKeyText(k: WeekKey): string
    requires k.week < 100
  {
    NatToString(k.year) + "-W" + Pad2(k.week)
  }

  /** The order `sorted` puts week keys in: year first, then week. */
  function WeekRank(k: WeekKey): real {
    (k.year * 100 + k.week) as real
  }

  /** Every week number lies between 1 and 53, in a year from 1970 on. */
  lemma IsoWeekBounds(day: nat)
    ensures var k := IsoWeekKey(day);
      k.year >= Epoch && 1 <= k.week <= 53 && |WeekKeyText(k)| >= 4
  {
  }

  /** Within one year the day of the year advances with the date. */
  lemma {:induction false} YearDaySameYear(d1: nat, d2: nat, y: nat)
    requires YearDay(d1, y).0 == YearDay(d2, y).0
    ensures YearDay(d2, y).1 - YearDay(d1, y).1 == d2 - d1
    decreases d1 + d2
  {
    var n := YearLength(y);
    if d1 >= n && d2 >= n {
      YearDaySameYear(d1 - n, d2 - n, y + 1);
    }
  }

  /** A later date never falls in an earlier year. */
  lemma {:induction false} YearDayMonotone(d1: nat, d2: nat, y: nat)
    requires d1 <= d2
    ensures YearDay(d1, y).0 <= YearDay(d2, y).0
    decreases d2
  {
    var n := YearLength(y);
    if d1 >= n {
      YearDayMonotone(d1 - n, d2 - n, y + 1);
    }
  }

  /** Week keys follow the calendar: a later week always has a larger key, so sorting the
      keys sorts the weeks by date and two different weeks never share a key. */
  lemma WeekKeyOrder(d1: nat, d2: nat)
    requires WeekIndex(d1) < WeekIndex(d2)
    ensures WeekRank(IsoWeekKey(d1)) < WeekRank(IsoWeekKey(d2))
  {
    var t1, t2 := 7 * WeekIndex(d1), 7 * WeekIndex(d2);
    YearDayMonotone(t1, t2, Epoch);
    var a, b := YearDay(t1, Epoch), YearDay(t2, Epoch);
    if a.0 == b.0 {
      YearDaySameYear(t1, t2, Epoch);
      assert b.1 >= a.1 + 7;
    }
  }

  /** Two posting days share a week key exactly when they fall in the same Monday-to-Sunday
      week. */
  lemma SameWeekSameKey(d1: nat, d2: nat)
    ensures IsoWeekKey(d1) == IsoWeekKey(d2) <==> WeekIndex(d1) == WeekIndex(d2)
  {
    if WeekIndex(d1) < WeekIndex(d2) {
      WeekKeyOrder(d1, d2);
    } else if WeekIndex(d2) < WeekIndex(d1) {
      WeekKeyOrder(d2, d1);
    }
  }

  // ---------------------------------------------------------------- overview

  /** The response of `GET /overview`. */
  datatype Overview = Overview(
    period: string,
    totalPosts: nat,
    successfulPosts: nat,
    failedPosts: int,
    successRate: real,
    totalClicks: int,
    totalConversions: int,
    conversionRate: real,
    dailyStats: seq<(nat, Tally)>,
    platformStats: seq<(string, Tally)>)

  function OverviewOf(days: int, history: seq<AnalyticsItem>, conversions: seq<ConversionItem>): Overview {
    var total := |history|;
    var ok := Count(history, IsSuccess);
    var clicks := Sum(conversions, Clicks);
    var conv := Sum(conversions, Conversions);
    Overview(IntToString(days) + "일", total, ok, total - ok, Percent(ok, total), clicks, conv,
             Percent(conv, clicks), Tallies(history, DayOf, IsSuccess), Tallies(history, PlatformOf, IsSuccess))
  }

  /** `get_analytics_overview(days)` over the rows it read. */
  method GetAnalyticsOverview(days: int, history: seq<AnalyticsItem>, conversions: seq<ConversionItem>) returns (r: Overview)
    ensures r == OverviewOf(days, history, conversions)
  {
    var total := |history|;
    var ok := Count(history, IsSuccess);
    var clicks := Sum(conversions, Clicks);
    var conv := Sum(conversions, Conversions);
    var daily := TallyLoop(history, DayOf, IsSuccess);
    var platforms := TallyLoop(history, PlatformOf, IsSuccess);
    r := Overview(IntToString(days) + "일", total, ok, total - ok, Percent(ok, total), clicks, conv,
                  Percent(conv, clicks), daily, platforms);
  }

  /** Any status but 'success' counts as failed; the success rate lies in [0, 100] and is 0
      without posts; the conversion rate is 0 without clicks. */
  lemma OverviewTotals(days: int, history: seq<AnalyticsItem>, conversions: seq<ConversionItem>)
    ensures var r := OverviewOf(days, history, conversions);
      && r.failedPosts == Count(history, (a: AnalyticsItem) => !IsSuccess(a))
      && 0.0 <= r.successRate <= 100.0
      && (r.totalPosts == 0 ==> r.successRate == 0.0)
      && (r.totalClicks <= 0 ==> r.conversionRate == 0.0)
  {
    CountSplit(history, IsSuccess, (a: AnalyticsItem) => !IsSuccess(a), (a: AnalyticsItem) => true);
    CountAll(history, (a: AnalyticsItem) => true);
    PercentBounds(Count(history, IsSuccess), |history|);
  }

  /** The daily counters partition the posts: one per date that has posts, each balanced,
      adding up to the totals. */
  lemma OverviewDaily(days: int, history: seq<AnalyticsItem>, conversions: seq<ConversionItem>)
    ensures var r := OverviewOf(days, history, conversions);
      && Distinct(Keys(r.dailyStats)) && Balanced(r.dailyStats)
      && SumPosts(r.dailyStats) == r.totalPosts && SumSuccess(r.dailyStats) == r.successfulPosts
      && (forall d :: d in Keys(r.dailyStats) <==> exists i :: 0 <= i < |history| && DayOf(history[i]) == d)
  {
    TalliesPartition(history, DayOf, IsSuccess);
  }

  /** The platform counters partition the posts in the same way. */
  lemma OverviewPlatforms(days: int, history: seq<AnalyticsItem>, conversions: seq<ConversionItem>)
    ensures var r := OverviewOf(days, history, conversions);
      && Distinct(Keys(r.platformStats)) && Balanced(r.platformStats)
      && SumPosts(r.platformStats) == r.totalPosts && SumSuccess(r.platformStats) == r.successfulPosts
      && (forall p :: p in Keys(r.platformStats) <==> exists i :: 0 <= i < |history| && PlatformOf(history[i]) == p)
  {
    TalliesPartition(history, PlatformOf, IsSuccess);
  }

  // ---------------------------------------------------------------- performance

  /** One value of `property_performance` after the second loop. */
  datatype PropertyPerformance = PropertyPerformance(
    propertyId: string,
    posts: nat,
    success: nat,
    error: nat,
    platforms: set<string>,
    successRate: real)

  /** The response of `GET /performance`. */
  datatype Performance = Performance(topPerformers: seq<PropertyPerformance>, totalProperties: nat, averageSuccessRate: real)

  /** The platforms the property was posted to. */
  function PlatformsOf(history: seq<AnalyticsItem>, propertyId: string): set<string> {
    set i | 0 <= i < |history| && history[i].row.propertyId == propertyId :: history[i].row.platform
  }

  function Entry(history: seq<AnalyticsItem>, e: (string, Tally)): PropertyPerformance {
    PropertyPerformance(e.0, e.1.posts, e.1.success, e.1.error, PlatformsOf(history, e.0), Percent(e.1.success, e.1.posts))
  }

  /** The values of `property_performance`, in first-appearance order of the property ids. */
  function Performances(history: seq<AnalyticsItem>): (r: seq<PropertyPerformance>)
    ensures |r| == |Tallies(history, PropertyOf, IsSuccess)|
  {
    var b := Tallies(history, PropertyOf, IsSuccess);
    seq(|b|, i requires 0 <= i < |b| => Entry(history, b[i]))
  }

  function SuccessRateOf(p: PropertyPerformance): real {
    p.successRate
  }

  function RateSum(ps: seq<PropertyPerformance>): real {
    if ps == [] then 0.0 else RateSum(ps[..|ps| - 1]) + ps[|ps| - 1].successRate
  }

  /** `sum(rates) / len(rates)`, or 0 for no properties. */
  function AverageRate(perf: seq<PropertyPerformance>): real {
    if |perf| > 0 then RateSum(perf) / |perf| as real else 0.0
  }

  function PerformanceOf(history: seq<AnalyticsItem>): Performance {
    var perf := Performances(history);
    Performance(PyTake(SortDesc(perf, SuccessRateOf), 10), |perf|, AverageRate(perf))
  }

  /** `get_performance_analytics(days)` over the rows it read: the counting loop, then the
      loop that adds each property's rate, then the ranking. */
  method GetPerformanceAnalytics(history: seq<AnalyticsItem>) returns (r: Performance)
    ensures r == PerformanceOf(history)
  {
    var b := TallyLoop(history, PropertyOf, IsSuccess);
    var perf: seq<PropertyPerformance> := [];
    var i := 0;
    while i < |b|
      invariant 0 <= i <= |b|
      invariant |perf| == i
      invariant forall j :: 0 <= j < i ==> perf[j] == Entry(history, b[j])
    {
      perf := perf + [Entry(history, b[i])];
      i := i + 1;
    }
    assert perf == Performances(history);
    var average := if |perf| > 0 then RateSum(perf) / |perf| as real else 0.0;
    assert average == AverageRate(perf);
    r := Performance(PyTake(SortDesc(perf, SuccessRateOf), 10), |perf|, average);
  }

  /** Each entry counts exactly its property's rows: posts = success + error, posts > 0 and
      the rate in [0, 100]. */
  lemma PerformancesCounts(history: seq<AnalyticsItem>)
    ensures forall p :: p in Performances(history) ==>
      && p.posts == CountKey(history, PropertyOf, p.propertyId)
      && p.success == CountKeyOk(history, PropertyOf, IsSuccess, p.propertyId, true)
      && p.posts == p.success + p.error && p.posts > 0
      && 0.0 <= p.successRate <= 100.0
  {
    var perf := Performances(history);
    forall p | p in perf
      ensures p.posts == CountKey(history, PropertyOf, p.propertyId)
      ensures p.success == CountKeyOk(history, PropertyOf, IsSuccess, p.propertyId, true)
      ensures p.posts == p.success + p.error && p.posts > 0
      ensures 0.0 <= p.successRate <= 100.0
    {
      var i :| 0 <= i < |perf| && perf[i] == p;
      PerformanceEntry(history, i);
    }
  }

  lemma PerformanceEntry(history: seq<AnalyticsItem>, i: nat)
    requires i < |Performances(history)|
    ensures var p := Performances(history)[i];
      && p.posts == CountKey(history, PropertyOf, p.propertyId)
      && p.success == CountKeyOk(history, PropertyOf, IsSuccess, p.propertyId, true)
      && p.posts == p.success + p.error && p.posts > 0
      && 0.0 <= p.successRate <= 100.0
  {
    var b := Tallies(history, PropertyOf, IsSuccess);
    var p := Performances(history)[i];
    TalliesEntry(history, PropertyOf, IsSuccess, i);
    assert p == Entry(history, b[i]);
    PercentBounds(p.success, p.posts);
  }

  /** The property ids of the entries, in order. */
  function PerformanceIds(perf: seq<PropertyPerformance>): (r: seq<string>)
    ensures |r| == |perf| && forall i :: 0 <= i < |perf| ==> r[i] == perf[i].propertyId
  {
    seq(|perf|, i requires 0 <= i < |perf| => perf[i].propertyId)
  }

  /** There is one entry per distinct property id of the rows, so `totalProperties` counts
      the distinct ids. */
  lemma PerformanceIdsDistinct(history: seq<AnalyticsItem>)
    ensures Distinct(PerformanceIds(Performances(history)))
    ensures forall id :: id in PerformanceIds(Performances(history)) <==>
      exists k :: 0 <= k < |history| && PropertyOf(history[k]) == id
  {
    TalliesPartition(history, PropertyOf, IsSuccess);
    assert PerformanceIds(Performances(history)) == Keys(Tallies(history, PropertyOf, IsSuccess));
  }

  /** The mean of rates that all lie in [0, 100] lies there too. */
  lemma {:induction false} RateSumBounds(ps: seq<PropertyPerformance>)
    requires forall p :: p in ps ==> 0.0 <= p.successRate <= 100.0
    ensures 0.0 <= RateSum(ps) <= 100.0 * |ps| as real
  {
    if ps != [] {
      var n := |ps| - 1;
      assert forall p :: p in ps[..n] ==> p in ps;
      RateSumBounds(ps[..n]);
      assert ps[n] in ps;
    }
  }

  /** min(10, properties) top performers, in non-increasing rate order, each an entry of
      the property list; none left out has a higher rate than one shown. */
  lemma PerformanceTop(history: seq<AnalyticsItem>)
    ensures var r := PerformanceOf(history); var perf := Performances(history);
      && |r.topPerformers| == Min(10, |perf|)
      && SortedDesc(r.topPerformers, SuccessRateOf)
      && (forall p :: p in r.topPerformers ==> p in perf)
      && multiset(r.topPerformers) <= multiset(perf)
      && (forall p, i :: p in perf && p !in r.topPerformers && 0 <= i < |r.topPerformers| ==>
            SuccessRateOf(p) <= SuccessRateOf(r.topPerformers[i]))
  {
    var perf := Performances(history);
    TopTaken(perf, SuccessRateOf, 10);
  }

  /** The average of rates in [0, 100] lies in [0, 100], and is 0 for no properties. */
  lemma AverageRateBounds(perf: seq<PropertyPerformance>)
    requires forall p :: p in perf ==> 0.0 <= p.successRate <= 100.0
    ensures 0.0 <= AverageRate(perf) <= 100.0
    ensures perf == [] ==> AverageRate(perf) == 0.0
  {
    RateSumBounds(perf);
    if |perf| > 0 {
      var n := |perf| as real;
      var t := RateSum(perf);
      assert t / n <= (100.0 * n) / n by {
        assert t <= 100.0 * n;
      }
    }
  }

  /** The average rate is 0 without properties and lies in [0, 100]. */
  lemma PerformanceAverage(history: seq<AnalyticsItem>)
    ensures var r := PerformanceOf(history);
      && r.totalProperties == |Performances(history)|
      && (r.totalProperties == 0 ==> r.averageSuccessRate == 0.0)
      && 0.0 <= r.averageSuccessRate <= 100.0
  {
    PerformancesCounts(history);
    AverageRateBounds(Performances(history));
  }

  // ---------------------------------------------------------------- trends

  /** One entry of `growth_rates`. */
  datatype Growth = Growth(week: WeekKey, growthRate: real, posts: nat)

  /** The response of `GET /trends`. */
  datatype Trends = Trends(weeklyStats: seq<(WeekKey, Tally)>, growthRates: seq<Growth>, averageGrowthRate: real)

  /** `sorted(weekly_stats.keys())`. */
  function SortedWeeks(stats: seq<(WeekKey, Tally)>): seq<WeekKey> {
    SortAsc(Keys(stats), WeekRank)
  }

  /** The entry for week `curr` after week `prev`: the change of its posts over the earlier
      week's, in percent. */
  function Change(stats: seq<(WeekKey, Tally)>, prev: WeekKey, curr: WeekKey): Growth {
    var p, c := TallyFor(stats, prev).posts, TallyFor(stats, curr).posts;
    Growth(curr, if p > 0 then (c - p) as real / p as real * 100.0 else 0.0, c)
  }

  /** The growth entry for `curr` after `prev`: none when the earlier week had no posts. */
  function GrowthStep(stats: seq<(WeekKey, Tally)>, prev: WeekKey, curr: WeekKey): seq<Growth> {
    if TallyFor(stats, prev).posts > 0 then [Change(stats, prev, curr)] else []
  }

  /** The entries of the growth loop over `weeks[1..]`. */
  function GrowthRates(stats: seq<(WeekKey, Tally)>, weeks: seq<WeekKey>): seq<Growth>
  {
    if |weeks| <= 1 then []
    else
      var n := |weeks| - 1;
      GrowthRates(stats, weeks[..n]) + GrowthStep(stats, weeks[n - 1], weeks[n])
  }

  /** One change per pair of consecutive weeks. */
  function Changes(stats: seq<(WeekKey, Tally)>, weeks: seq<WeekKey>): (r: seq<Growth>)
    ensures |weeks| > 0 ==> |r| == |weeks| - 1
  {
    if |weeks| <= 1 then []
    else seq(|weeks| - 1, j requires 0 <= j < |weeks| - 1 => Change(stats, weeks[j], weeks[j + 1]))
  }

  function GrowthSum(gs: seq<Growth>): real {
    if gs == [] then 0.0 else GrowthSum(gs[..|gs| - 1]) + gs[|gs| - 1].growthRate
  }

  function TrendsOf(history: seq<AnalyticsItem>): Trends {
    var stats := Tallies(history, WeekOf, IsSuccess);
    var growth := GrowthRates(stats, SortedWeeks(stats));
    Trends(stats, growth, if |growth| > 0 then GrowthSum(growth) / |growth| as real else 0.0)
  }

  /** `get_trend_analytics(days)` over the rows it read. */
  method GetTrendAnalytics(history: seq<AnalyticsItem>) returns (r: Trends)
    ensures r == TrendsOf(history)
  {
    var stats := TallyLoop(history, WeekOf, IsSuccess);
    var weeks := SortedWeeks(stats);
    var growth: seq<Growth> := [];
    if weeks != [] {
      var i := 1;
      while i < |weeks|
        invariant 1 <= i <= |weeks|
        invariant growth == GrowthRates(stats, weeks[..i])
      {
        GrowthRatesSnoc(stats, weeks, i);
        var prev := TallyFor(stats, weeks[i - 1]);
        var curr := TallyFor(stats, weeks[i]);
        if prev.posts > 0 {
          var rate := (curr.posts - prev.posts) as real / prev.posts as real * 100.0;
          assert GrowthStep(stats, weeks[i - 1], weeks[i]) == [Growth(weeks[i], rate, curr.posts)];
          growth := growth + [Growth(weeks[i], rate, curr.posts)];
        }
        i := i + 1;
      }
      assert weeks[..i] == weeks;
    }
    var average := if |growth| > 0 then GrowthSum(growth) / |growth| as real else 0.0;
    r := Trends(stats, growth, average);
  }

  /** One more week adds its growth step. */
  lemma GrowthRatesSnoc(stats: seq<(WeekKey, Tally)>, weeks: seq<WeekKey>, i: nat)
    requires 1 <= i < |weeks|
    ensures GrowthRates(stats, weeks[..i + 1]) == GrowthRates(stats, weeks[..i]) + GrowthStep(stats, weeks[i - 1], weeks[i])
  {
    var w := weeks[..i + 1];
    assert w[..i] == weeks[..i];
    assert w[i - 1] == weeks[i - 1] && w[i] == weeks[i];
    assert GrowthRates(stats, w) == GrowthRates(stats, w[..i]) + GrowthStep(stats, w[i - 1], w[i]);
  }

  /** When every week has posts, the loop skips no week: it yields one change per pair of
      consecutive weeks. */
  lemma {:induction false} GrowthRatesAllWeeks(stats: seq<(WeekKey, Tally)>, weeks: seq<WeekKey>)
    requires forall k :: k in weeks ==> TallyFor(stats, k).posts > 0
    ensures GrowthRates(stats, weeks) == Changes(stats, weeks)
  {
    if |weeks| > 1 {
      var n := |weeks| - 1;
      var front := weeks[..n];
      assert forall k :: k in front ==> k in weeks;
      GrowthRatesAllWeeks(stats, front);
      assert weeks[n - 1] in weeks;
      assert GrowthStep(stats, weeks[n - 1], weeks[n]) == [Change(stats, weeks[n - 1], weeks[n])];
      ChangesSnoc(stats, weeks);
    }
  }

  lemma ChangesSnoc(stats: seq<(WeekKey, Tally)>, weeks: seq<WeekKey>)
    requires |weeks| > 1
    ensures var n := |weeks| - 1;
      Changes(stats, weeks) == Changes(stats, weeks[..n]) + [Change(stats, weeks[n - 1], weeks[n])]
  {
    var n := |weeks| - 1;
    var front := weeks[..n];
    var a, b := Changes(stats, front) + [Change(stats, weeks[n - 1], weeks[n])], Changes(stats, weeks);
    forall j | 0 <= j < n ensures a[j] == b[j] {
      if j < n - 1 {
        assert front[j] == weeks[j] && front[j + 1] == weeks[j + 1];
      }
    }
    assert a == b;
  }

  /** The sorted week keys are exactly the weeks of the rows. */
  lemma TrendsWeekMembers(history: seq<AnalyticsItem>)
    ensures var weeks := SortedWeeks(TrendsOf(history).weeklyStats);
      forall k :: k in weeks <==> exists i :: 0 <= i < |history| && WeekOf(history[i]) == k
  {
    var stats := Tallies(history, WeekOf, IsSuccess);
    TalliesPartition(history, WeekOf, IsSuccess);
    SortedWeeksMembers(stats);
  }

  lemma SortedWeeksMembers(stats: seq<(WeekKey, Tally)>)
    ensures forall k :: k in SortedWeeks(stats) <==> k in Keys(stats)
  {
    var weeks := SortedWeeks(stats);
    SortAscCorrect(Keys(stats), WeekRank);
    forall k: WeekKey ensures k in weeks <==> k in Keys(stats) {
      assert k in weeks <==> k in multiset(weeks);
      assert k in Keys(stats) <==> k in multiset(Keys(stats));
    }
  }

  /** The week keys are sorted by year and week, which is the order of the weeks in time,
      and each occurs once. */
  lemma TrendsWeeksSorted(history: seq<AnalyticsItem>)
    ensures var weeks := SortedWeeks(TrendsOf(history).weeklyStats);
      forall i, j :: 0 <= i < j < |weeks| ==> WeekRank(weeks[i]) < WeekRank(weeks[j])
  {
    var stats := Tallies(history, WeekOf, IsSuccess);
    TalliesPartition(history, WeekOf, IsSuccess);
    var weeks := SortedWeeks(stats);
    SortAscCorrect(Keys(stats), WeekRank);
    forall k: WeekKey | k in Keys(stats) ensures k.week < 100 {
      var i :| 0 <= i < |history| && WeekOf(history[i]) == k;
      IsoWeekBounds(DayOf(history[i]));
    }
    forall i, j | 0 <= i < j < |weeks| ensures WeekRank(weeks[i]) < WeekRank(weeks[j]) {
      SortedDistinct(Keys(stats), weeks, i, j);
    }
  }

  /** Every week listed has posts. */
  lemma TrendsWeeksPosted(history: seq<AnalyticsItem>)
    ensures var stats := TrendsOf(history).weeklyStats;
      forall k :: k in SortedWeeks(stats) ==> TallyFor(stats, k).posts > 0
  {
    var stats := Tallies(history, WeekOf, IsSuccess);
    TalliesPartition(history, WeekOf, IsSuccess);
    SortedWeeksMembers(stats);
    forall k: WeekKey | k in SortedWeeks(stats) ensures TallyFor(stats, k).posts > 0 {
      TalliesCount(history, WeekOf, IsSuccess, k);
      CountKeyPositive(history, WeekOf, k);
    }
  }

  /** Every week after the first has its growth entry against the week before it, which has
      posts, so no division by zero occurs; the average is 0 without entries. */
  lemma TrendsGrowth(history: seq<AnalyticsItem>)
    ensures var r := TrendsOf(history);
      var weeks := SortedWeeks(r.weeklyStats);
      && r.growthRates == Changes(r.weeklyStats, weeks)
      && (weeks != [] ==> |r.growthRates| == |weeks| - 1)
      && (r.growthRates == [] ==> r.averageGrowthRate == 0.0)
  {
    TrendsWeeksPosted(history);
    var stats := Tallies(history, WeekOf, IsSuccess);
    GrowthRatesAllWeeks(stats, SortedWeeks(stats));
  }

  /** A sorted permutation of distinct keys holds each key once, so its ranks increase
      strictly. */
  lemma SortedDistinct(keys: seq<WeekKey>, weeks: seq<WeekKey>, i: nat, j: nat)
    requires Distinct(keys) && multiset(weeks) == multiset(keys) && SortedAsc(weeks, WeekRank)
    requires forall k :: k in keys ==> k.week < 100
    requires i < j < |weeks|
    ensures WeekRank(weeks[i]) < WeekRank(weeks[j])
  {
    DistinctMultiplicity(keys, weeks[i]);
    RepeatCount(weeks, i, j);
    assert weeks[i] in multiset(keys) && weeks[j] in multiset(keys);
    WeekRankInjective(weeks[i], weeks[j]);
  }

  /** An element at two positions occurs at least twice. */
  lemma RepeatCount<T>(s: seq<T>, i: nat, j: nat)
    requires i < j < |s|
    ensures s[i] == s[j] ==> multiset(s)[s[i]] >= 2
  {
    assert s == s[..i] + [s[i]] + s[i + 1..j] + [s[j]] + s[j + 1..];
    assert multiset(s) == multiset(s[..i]) + multiset{s[i]} + multiset(s[i + 1..j]) + multiset{s[j]} + multiset(s[j + 1..]);
  }

  lemma DistinctMultiplicity<T>(s: seq<T>, x: T)
    requires Distinct(s)
    ensures multiset(s)[x] <= 1
  {
    if s != [] {
      assert s == [s[0]] + s[1..];
      assert Distinct(s[1..]) by {
        forall p, q | 0 <= p < q < |s| - 1 ensures s[1..][p] != s[1..][q] {
          assert s[1..][p] == s[p + 1] && s[1..][q] == s[q + 1];
        }
      }
      DistinctMultiplicity(s[1..], x);
      if s[0] == x {
        assert x !in s[1..] by {
          forall q | 0 <= q < |s| - 1 ensures s[1..][q] != x {
            assert s[1..][q] == s[q + 1];
          }
        }
      }
    }
  }

  /** Keys with week numbers below 100 are told apart by their rank. */
  lemma WeekRankInjective(a: WeekKey, b: WeekKey)
    requires a.week < 100 && b.week < 100
    ensures WeekRank(a) == WeekRank(b) ==> a == b
  {
  }

  // ---------------------------------------------------------------- export

  const CsvColumns: seq<string> := ["id", "property_id", "platform", "status", "posted_at", "error_message"]

  /** `id,property_id,platform,status,posted_at,error_message`. */
  const CsvHeader: string := Join(CsvColumns, ",")

  /** The six values of one CSV line, in header order; `stamp` renders `posted_at` as the
      database returns it. */
  function CsvFields(a: AnalyticsItem, stamp: nat -> string): (r: seq<string>)
    ensures |r| == 6
  {
    [NatToString(a.row.id), a.row.propertyId, a.row.platform, a.row.status, stamp(a.row.postedAt), a.row.errorMessage]
  }

  /** One line of the export, without its newline: the values joined by commas, unquoted. */
  function CsvLine(a: AnalyticsItem, stamp: nat -> string): string {
    Join(CsvFields(a, stamp), ",")
  }

  /** The lines of the rows, each followed by a newline. */
  function CsvRows(history: seq<AnalyticsItem>, stamp: nat -> string): string {
    if history == [] then ""
    else CsvRows(history[..|history| - 1], stamp) + CsvLine(history[|history| - 1], stamp) + "\n"
  }

  function CsvOf(history: seq<AnalyticsItem>, stamp: nat -> string): string {
    CsvHeader + "\n" + CsvRows(history, stamp)
  }

  /** The `data` of `GET /export`: the rows themselves for 'json', the CSV text for 'csv';
      any other format fails the query pattern `^(json|csv)$`. */
  datatype Export = JsonExport(rows: seq<AnalyticsItem>) | CsvExport(text: string) | BadFormat

  function ExportOf(format: string, history: seq<AnalyticsItem>, stamp: nat -> string): Export {
    if format == "json" then JsonExport(history)
    else if format == "csv" then CsvExport(CsvOf(history, stamp))
    else BadFormat
  }

  /** `export_analytics(format, days)` over the rows it read; the CSV text is built line by
      line. */
  method ExportAnalytics(format: string, history: seq<AnalyticsItem>, stamp: nat -> string) returns (r: Export)
    ensures r == ExportOf(format, history, stamp)
  {
    if format == "json" {
      r := JsonExport(history);
    } else if format == "csv" {
      var csv := CsvHeader + "\n";
      var i := 0;
      while i < |history|
        invariant 0 <= i <= |history|
        invariant csv == CsvHeader + "\n" + CsvRows(history[..i], stamp)
      {
        CsvStep(history, stamp, i);
        csv := csv + CsvLine(history[i], stamp) + "\n";
        i := i + 1;
      }
      assert history[..i] == history;
      r := CsvExport(csv);
    } else {
      r := BadFormat;
    }
  }

  /** The lines of the rows, in row order. */
  function CsvLines(history: seq<AnalyticsItem>, stamp: nat -> string): (r: seq<string>)
    ensures |r| == |history|
  {
    seq(|history|, i requires 0 <= i < |history| => CsvLine(history[i], stamp))
  }

  predicate FieldsFree(a: AnalyticsItem, stamp: nat -> string, ch: char) {
    forall k :: 0 <= k < 6 ==> ch !in CsvFields(a, stamp)[k]
  }

  /** The text is the header and the lines joined by newlines, with a final newline. */
  lemma {:induction false} CsvOfJoin(history: seq<AnalyticsItem>, stamp: nat -> string)
    ensures CsvOf(history, stamp) == Join([CsvHeader] + CsvLines(history, stamp), "\n") + "\n"
  {
    if history != [] {
      var n := |history| - 1;
      var x := CsvLine(history[n], stamp);
      var init := history[..n];
      var front := [CsvHeader] + CsvLines(init, stamp);
      var rows := CsvRows(init, stamp);
      CsvOfJoin(init, stamp);
      assert CsvRows(history, stamp) == rows + x + "\n";
      JoinLineStep(front, x, CsvHeader + "\n", rows);
      CsvLinesSnoc(history, stamp);
    }
  }

  /** A text that is the lines joined, with a final newline, stays so when one more line
      and its newline are appended. */
  lemma JoinLineStep(front: seq<string>, x: string, head: string, rows: string)
    requires front != []
    requires head + rows == Join(front, "\n") + "\n"
    ensures head + (rows + x + "\n") == Join(front + [x], "\n") + "\n"
  {
    JoinSnoc(front, x, "\n");
    AppendLine(head, rows, x, Join(front, "\n") + "\n");
  }

  lemma CsvLinesSnoc(history: seq<AnalyticsItem>, stamp: nat -> string)
    requires history != []
    ensures CsvLines(history, stamp) == CsvLines(history[..|history| - 1], stamp) + [CsvLine(history[|history| - 1], stamp)]
    ensures [CsvHeader] + CsvLines(history, stamp)
         == [CsvHeader] + CsvLines(history[..|history| - 1], stamp) + [CsvLine(history[|history| - 1], stamp)]
  {
    var n := |history| - 1;
    var a, b := CsvLines(history, stamp), CsvLines(history[..n], stamp) + [CsvLine(history[n], stamp)];
    forall k | 0 <= k < |a| ensures a[k] == b[k] {
      if k < n {
        assert history[..n][k] == history[k];
      }
    }
    assert a == b;
  }

  /** One more row appends its line and a newline to the text. */
  lemma CsvStep(history: seq<AnalyticsItem>, stamp: nat -> string, i: nat)
    requires i < |history|
    ensures CsvHeader + "\n" + CsvRows(history[..i + 1], stamp)
         == CsvHeader + "\n" + CsvRows(history[..i], stamp) + CsvLine(history[i], stamp) + "\n"
  {
    assert history[..i + 1][..i] == history[..i];
    AppendLine(CsvHeader + "\n", CsvRows(history[..i], stamp), CsvLine(history[i], stamp), CsvHeader + "\n" + CsvRows(history[..i], stamp));
  }

  lemma AppendLine(head: string, rows: string, line: string, text: string)
    requires head + rows == text
    ensures head + (rows + line + "\n") == text + line + "\n"
  {
  }

  /** A character in no value is in no line. */
  lemma CsvLineFree(a: AnalyticsItem, stamp: nat -> string, ch: char)
    requires ch != ',' && FieldsFree(a, stamp, ch)
    ensures ch !in CsvLine(a, stamp)
  {
    JoinFree(CsvFields(a, stamp), ",", ch);
  }

  /** Splitting the export on newlines gives the header, one line per row in order, and the
      empty piece after the final newline, as long as no value holds a newline. */
  lemma CsvSplitsIntoLines(history: seq<AnalyticsItem>, stamp: nat -> string)
    requires forall i :: 0 <= i < |history| ==> FieldsFree(history[i], stamp, '\n')
    ensures Split(CsvOf(history, stamp), '\n') == [CsvHeader] + CsvLines(history, stamp) + [""]
  {
    var lines := CsvLines(history, stamp);
    var parts := [CsvHeader] + lines;
    CsvOfJoin(history, stamp);
    JoinSnoc(parts, "", "\n");
    var all := parts + [""];
    forall i | 0 <= i < |all| ensures '\n' !in all[i] {
      if i == 0 {
        assert all[0] == CsvHeader;
        HeaderFree();
      } else if i == |parts| {
        assert all[i] == "";
      } else {
        assert all[i] == lines[i - 1] == CsvLine(history[i - 1], stamp);
        CsvLineFree(history[i - 1], stamp, '\n');
      }
    }
    var text := Join(parts, "\n");
    assert text + "\n" + "" == text + "\n";
    assert CsvOf(history, stamp) == Join(all, ['\n']);
    SplitJoinInverse(all, '\n');
  }

  lemma HeaderFree()
    ensures '\n' !in CsvHeader
  {
    assert '\n' !in CsvColumns[0] && '\n' !in CsvColumns[1] && '\n' !in CsvColumns[2];
    assert '\n' !in CsvColumns[3] && '\n' !in CsvColumns[4] && '\n' !in CsvColumns[5];
    JoinFree(CsvColumns, ",", '\n');
  }

  /** A line splits on commas back into its six values when none of them holds a comma. */
  lemma CsvLineFields(a: AnalyticsItem, stamp: nat -> string)
    requires FieldsFree(a, stamp, ',')
    ensures Split(CsvLine(a, stamp), ',') == CsvFields(a, stamp)
  {
    assert Join(CsvFields(a, stamp), ",") == Join(CsvFields(a, stamp), [',']);
    SplitJoinInverse(CsvFields(a, stamp), ',');
  }

  /** The values are written unquoted, so a comma in an error message yields more than six
      columns on its line. */
  lemma CsvCommaShiftsColumns(a: AnalyticsItem, stamp: nat -> string)
    requires ',' in a.row.errorMessage
    ensures |Split(CsvLine(a, stamp), ',')| > 6
  {
    var f := CsvFields(a, stamp);
    assert Join(f, ",") == Join(f, [',']);
    JoinOccurrences(f, ',');
    OccurrencesPositive(f[5], ',');
    SplitJoin(CsvLine(a, stamp), ',');
  }
}
