/** The dashboard endpoints: the headline counters over properties, posts and conversions,
    and the feed of recent activities. */
module DashboardRoutes {
  import opened Common
  import opened Database

  // ---------------------------------------------------------------- stats

  /** The response of `GET /stats`. */
  datatype DashboardStats = DashboardStats(
    totalProperties: nat,
    activeProperties: nat,
    totalPosts: nat,
    successfulPosts: nat,
    failedPosts: nat,
    totalClicks: int,
    totalConversions: int,
    conversionRate: real,
    errorCount: nat,
    successRate: real)

  function IsActive(p: PropertyRow): bool { p.isActive }

  /** A status the counters know: 'success' or 'failed'. */
  function IsCounted(a: AnalyticsItem): bool { IsSuccess(a) || IsFailed(a) }

  /** `get_dashboard_stats` over the rows it read: the property rows, the posting history of
      the last 30 days and the conversion rows. */
  function StatsOf(properties: seq<PropertyRow>, history: seq<AnalyticsItem>, conversions: seq<ConversionItem>): DashboardStats {
    var successful := Count(history, IsSuccess);
    var failed := Count(history, IsFailed);
    var clicks := Sum(conversions, Clicks);
    var converted := Sum(conversions, Conversions);
    DashboardStats(|properties|, Count(properties, IsActive), |history|, successful, failed,
                   clicks, converted, Percent(converted, clicks), failed, Percent(successful, |history|))
  }

  /** Successful and failed posts are counted apart and together never exceed the posts; they
      add up to all posts exactly when no post has any other status. The error count is the
      failed count. */
  lemma StatsCounts(properties: seq<PropertyRow>, history: seq<AnalyticsItem>, conversions: seq<ConversionItem>)
    ensures var r := StatsOf(properties, history, conversions);
      && r.errorCount == r.failedPosts
      && r.successfulPosts + r.failedPosts <= r.totalPosts
      && (r.successfulPosts + r.failedPosts == r.totalPosts <==>
            forall i :: 0 <= i < |history| ==> history[i].row.status == "success" || history[i].row.status == "failed")
  {
    CountSplit(history, IsSuccess, IsFailed, IsCounted);
    CountFull(history, IsCounted);
  }

  /** Both rates are 0 without a denominator, and the success rate is a percentage. */
  lemma StatsRates(properties: seq<PropertyRow>, history: seq<AnalyticsItem>, conversions: seq<ConversionItem>)
    ensures var r := StatsOf(properties, history, conversions);
      && (history == [] ==> r.successRate == 0.0)
      && (r.totalClicks == 0 ==> r.conversionRate == 0.0)
      && 0.0 <= r.successRate <= 100.0
      && (0 <= r.totalConversions <= r.totalClicks ==> 0.0 <= r.conversionRate <= 100.0)
  {
    var r := StatsOf(properties, history, conversions);
    PercentBounds(r.successfulPosts, |history|);
    if 0 <= r.totalConversions <= r.totalClicks {
      PercentBounds(r.totalConversions, r.totalClicks);
    }
  }

  /** At most every property is active; over the rows `get_all_properties` returns, which are
      all active, every property is. */
  lemma StatsActive(rows: seq<PropertyRow>, history: seq<AnalyticsItem>, conversions: seq<ConversionItem>)
    ensures StatsOf(rows, history, conversions).activeProperties <= StatsOf(rows, history, conversions).totalProperties
    ensures var r := StatsOf(ActiveWindow(rows, 100, 0), history, conversions);
      r.activeProperties == r.totalProperties
  {
    var ps := ActiveWindow(rows, 100, 0);
    ActiveWindowProps(rows, 100, 0);
    assert forall i :: 0 <= i < |ps| ==> IsActive(ps[i]) by {
      forall i | 0 <= i < |ps| ensures IsActive(ps[i]) {
        assert ps[i] in ps;
      }
    }
    CountAll(ps, IsActive);
  }

  // ---------------------------------------------------------------- recent activities

  datatype ActivityKind = Post | PropertyAdded

  /** One entry of the activity feed; `timestamp` is the row's posting or creation time. */
  datatype Activity = Activity(kind: ActivityKind, message: string, status: string, timestamp: nat, propertyId: string)

  /** The response of `GET /recent-activities`. */
  datatype RecentActivities = RecentActivities(activities: seq<Activity>, total: nat)

  /** The entry for a post: the platform it went to and the post's own status. */
  function PostActivity(post: AnalyticsItem): Activity {
    Activity(Post, post.row.platform + "에 게시됨", post.row.status, post.row.postedAt, post.row.propertyId)
  }

  /** The entry for a property: its title, always with status 'success'. */
  function PropertyActivity(p: PropertyRow): Activity {
    Activity(PropertyAdded, "새 숙소 추가: " + p.listing.title, "success", p.createdAt, p.id)
  }

  function PostActivities(posts: seq<AnalyticsItem>): (r: seq<Activity>)
    ensures |r| == |posts| && forall i :: 0 <= i < |posts| ==> r[i] == PostActivity(posts[i])
  {
    seq(|posts|, i requires 0 <= i < |posts| => PostActivity(posts[i]))
  }

  function PropertyActivities(ps: seq<PropertyRow>): (r: seq<Activity>)
    ensures |r| == |ps| && forall i :: 0 <= i < |ps| ==> r[i] == PropertyActivity(ps[i])
  {
    seq(|ps|, i requires 0 <= i < |ps| => PropertyActivity(ps[i]))
  }

  function TimestampOf(a: Activity): real { a.timestamp as real }

  /** The entries in the order the two loops append them: the first ten posts, then the
      first five properties. */
  function Collected(posts: seq<AnalyticsItem>, ps: seq<PropertyRow>): seq<Activity> {
    PostActivities(PyTake(posts, 10)) + PropertyActivities(PyTake(ps, 5))
  }

  /** Newest first (a stable sort, as Python's), at most twenty, with the count before the
      cut. */
  function RecentOf(posts: seq<AnalyticsItem>, ps: seq<PropertyRow>): RecentActivities {
    var all := SortDesc(Collected(posts, ps), TimestampOf);
    RecentActivities(PyTake(all, 20), |all|)
  }

  /** `get_recent_activities` over the posts of the last seven days and the first five
      property rows. */
  method GetRecentActivities(posts: seq<AnalyticsItem>, ps: seq<PropertyRow>) returns (r: RecentActivities)
    ensures r == RecentOf(posts, ps)
  {
    var activities: seq<Activity> := [];
    var firstPosts := PyTake(posts, 10);
    for i := 0 to |firstPosts|
      invariant activities == PostActivities(firstPosts[..i])
    {
      activities := activities + [PostActivity(firstPosts[i])];
    }
    assert firstPosts[..|firstPosts|] == firstPosts;
    var firstProperties := PyTake(ps, 5);
    for i := 0 to |firstProperties|
      invariant activities == PostActivities(firstPosts) + PropertyActivities(firstProperties[..i])
    {
      activities := activities + [PropertyActivity(firstProperties[i])];
    }
    assert firstProperties[..|firstProperties|] == firstProperties;
    activities := SortDesc(activities, TimestampOf);
    r := RecentActivities(PyTake(activities, 20), |activities|);
  }

  function IsPost(a: Activity): bool { a.kind == Post }

  function IsPropertyAdded(a: Activity): bool { a.kind == PropertyAdded }

  /** At most ten post entries and five property entries go in, so the cut at twenty never
      drops one: every collected entry is returned, newest first, and `total` is their
      number. */
  lemma RecentComplete(posts: seq<AnalyticsItem>, ps: seq<PropertyRow>)
    ensures var r := RecentOf(posts, ps);
      && r.total == Min(|posts|, 10) + Min(|ps|, 5) <= 15
      && |r.activities| == r.total
      && SortedDesc(r.activities, TimestampOf)
      && multiset(r.activities) == multiset(Collected(posts, ps))
  {
    SortDescCorrect(Collected(posts, ps), TimestampOf);
  }

  /** Exactly `min(posts, 10)` entries come from posts and `min(properties, 5)` from
      properties. */
  lemma RecentKinds(posts: seq<AnalyticsItem>, ps: seq<PropertyRow>)
    ensures var r := RecentOf(posts, ps);
      && Count(r.activities, IsPost) == Min(|posts|, 10)
      && Count(r.activities, IsPropertyAdded) == Min(|ps|, 5)
  {
    var c := Collected(posts, ps);
    RecentComplete(posts, ps);
    var r := RecentOf(posts, ps);
    CountPerm(r.activities, c, IsPost);
    CountPerm(r.activities, c, IsPropertyAdded);
    CollectedKinds(posts, ps);
  }

  lemma CollectedKinds(posts: seq<AnalyticsItem>, ps: seq<PropertyRow>)
    ensures Count(Collected(posts, ps), IsPost) == Min(|posts|, 10)
    ensures Count(Collected(posts, ps), IsPropertyAdded) == Min(|ps|, 5)
  {
    var a, b := PostActivities(PyTake(posts, 10)), PropertyActivities(PyTake(ps, 5));
    CountAppend(a, b, IsPost);
    CountAppend(a, b, IsPropertyAdded);
    CountAll(a, IsPost);
    CountAll(b, IsPropertyAdded);
    CountNone(a, IsPropertyAdded);
    CountNone(b, IsPost);
  }

  /** A post entry carries the status of one of the first ten posts; a property entry is
      always 'success' and names one of the first five properties. */
  lemma RecentStatuses(posts: seq<AnalyticsItem>, ps: seq<PropertyRow>)
    ensures var r := RecentOf(posts, ps);
      forall x :: x in r.activities ==> CollectedFrom(posts, ps, x)
  {
    RecentComplete(posts, ps);
    var r := RecentOf(posts, ps);
    forall x | x in r.activities ensures CollectedFrom(posts, ps, x) {
      assert x in multiset(Collected(posts, ps));
      CollectedMember(posts, ps, x);
    }
  }

  /** Where an entry comes from: one of the first ten posts, with that post's status, or one
      of the first five properties, with status 'success'. */
  predicate CollectedFrom(posts: seq<AnalyticsItem>, ps: seq<PropertyRow>, x: Activity) {
    && (x.kind == Post ==> exists i :: 0 <= i < Min(|posts|, 10) && x == PostActivity(posts[i]))
    && (x.kind == PropertyAdded ==>
          x.status == "success" && exists i :: 0 <= i < Min(|ps|, 5) && x == PropertyActivity(ps[i]))
  }

  lemma CollectedMember(posts: seq<AnalyticsItem>, ps: seq<PropertyRow>, x: Activity)
    requires x in Collected(posts, ps)
    ensures CollectedFrom(posts, ps, x)
  {
    var a, b := PostActivities(PyTake(posts, 10)), PropertyActivities(PyTake(ps, 5));
    if x in a {
      var i :| 0 <= i < |a| && a[i] == x;
      assert x == PostActivity(posts[i]);
    } else {
      assert x in b;
      var i :| 0 <= i < |b| && b[i] == x;
      assert x == PropertyActivity(ps[i]);
    }
  }
}
