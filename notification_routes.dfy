/** The notification endpoints: the notification list derived from recent posts, the
    24-hour statistics and the 30-day analytics. */
module NotificationRoutes {
  import opened Common
  import opened Database
  import AnalyticsRoutes

  // ---------------------------------------------------------------- notifications

  datatype Kind = Success | Error

  datatype Notification = Notification(
    id: string,
    kind: Kind,
    title: string,
    message: string,
    timestamp: nat,
    propertyId: string,
    read: bool)

  /** The response of `GET /`. */
  datatype NotificationList = NotificationList(notifications: seq<Notification>, total: nat, unread: nat)

  const SuccessPrefix: string := "post_success_"
  const ErrorPrefix: string := "post_error_"

  /** The notification made for one post: a success notice for status 'success' and an
      error notice for every other status, never read. */
  function NotificationFor(post: AnalyticsItem): Notification {
    var h := post.row;
    if h.status == "success" then
      Notification(SuccessPrefix + NatToString(h.id), Success, "게시 성공",
                   h.platform + "에 게시가 완료되었습니다.", h.postedAt, h.propertyId, false)
    else
      Notification(ErrorPrefix + NatToString(h.id), Error, "게시 실패",
                   h.platform + " 게시 중 오류가 발생했습니다.", h.postedAt, h.propertyId, false)
  }

  /** One notification per post, in post order. */
  function Notifications(recent: seq<AnalyticsItem>): (r: seq<Notification>)
    ensures |r| == |recent| && forall i :: 0 <= i < |recent| ==> r[i] == NotificationFor(recent[i])
  {
    seq(|recent|, i requires 0 <= i < |recent| => NotificationFor(recent[i]))
  }

  function StampOf(n: Notification): real { n.timestamp as real }

  function Unread(n: Notification): bool { !n.read }

  /** Newest first, the first `limit` of them (Python's `[:limit]`), with the total and the
      unread count taken before the cut. */
  function NotificationsOf(recent: seq<AnalyticsItem>, limit: int): NotificationList {
    var all := SortDesc(Notifications(recent), StampOf);
    NotificationList(PyTake(all, limit), |all|, Count(all, Unread))
  }

  /** `get_notifications(limit)` over the posts of the last seven days. */
  method GetNotifications(recent: seq<AnalyticsItem>, limit: int) returns (r: NotificationList)
    ensures r == NotificationsOf(recent, limit)
  {
    var notifications: seq<Notification> := [];
    for i := 0 to |recent|
      invariant notifications == Notifications(recent[..i])
    {
      notifications := notifications + [NotificationFor(recent[i])];
    }
    assert recent[..|recent|] == recent;
    notifications := SortDesc(notifications, StampOf);
    r := NotificationList(PyTake(notifications, limit), |notifications|, Count(notifications, Unread));
  }

  /** A post gets a success notice exactly when its status is 'success'; the id is the
      matching prefix and the post id. */
  lemma NotificationKind(post: AnalyticsItem)
    ensures var n := NotificationFor(post);
      && (n.kind == Success <==> post.row.status == "success")
      && n.id == (if n.kind == Success then SuccessPrefix else ErrorPrefix) + NatToString(post.row.id)
      && !n.read && n.timestamp == post.row.postedAt && n.propertyId == post.row.propertyId
  {
  }

  /** Posts with different ids get different notification ids. */
  lemma NotificationIdsDistinct(a: AnalyticsItem, b: AnalyticsItem)
    requires a.row.id != b.row.id
    ensures NotificationFor(a).id != NotificationFor(b).id
  {
    var x, y := NotificationFor(a), NotificationFor(b);
    var s, t := NatToString(a.row.id), NatToString(b.row.id);
    if x.kind == y.kind {
      var prefix := if x.kind == Success then SuccessPrefix else ErrorPrefix;
      if x.id == y.id {
        PrefixCancel(prefix, s, t);
        NatToStringInjective(a.row.id, b.row.id);
      }
    } else {
      assert x.id[5] != y.id[5];
    }
  }

  /** Every post is counted and every notification is unread, so `unread` equals `total`;
      the list shown is the newest min(limit, total) of them: no notification left out is
      newer than one shown. */
  lemma NotificationListProps(recent: seq<AnalyticsItem>, limit: int)
    ensures var r := NotificationsOf(recent, limit);
      && r.total == |recent| && r.unread == r.total
      && (limit >= 0 ==> |r.notifications| == Min(limit, r.total))
      && SortedDesc(r.notifications, StampOf)
      && (forall n :: n in r.notifications ==> exists i :: 0 <= i < |recent| && n == NotificationFor(recent[i]))
      && (forall n, i :: n in Notifications(recent) && n !in r.notifications && 0 <= i < |r.notifications| ==>
            StampOf(n) <= StampOf(r.notifications[i]))
  {
    var made := Notifications(recent);
    AllUnread(recent);
    TopTaken(made, StampOf, limit);
    var shown := NotificationsOf(recent, limit).notifications;
    forall n | n in shown ensures exists i :: 0 <= i < |recent| && n == NotificationFor(recent[i]) {
      assert n in multiset(shown);
    }
  }

  /** Sorting keeps every post's notification, and each is unread. */
  lemma AllUnread(recent: seq<AnalyticsItem>)
    ensures var all := SortDesc(Notifications(recent), StampOf);
      |all| == |recent| && Count(all, Unread) == |recent|
  {
    var made := Notifications(recent);
    var all := SortDesc(made, StampOf);
    SortDescCorrect(made, StampOf);
    forall i | 0 <= i < |all| ensures Unread(all[i]) {
      assert all[i] in multiset(made);
    }
    CountAll(all, Unread);
  }

  // ---------------------------------------------------------------- statistics

  /** The `{'success', 'error'}` counters of one key. */
  datatype Outcome = Outcome(success: nat, error: nat)

  /** The counters without the post count, in first-appearance order of the keys. */
  function Outcomes<K>(b: seq<(K, Tally)>): (r: seq<(K, Outcome)>)
    ensures |r| == |b| && forall i :: 0 <= i < |b| ==> r[i] == (b[i].0, Outcome(b[i].1.success, b[i].1.error))
  {
    seq(|b|, i requires 0 <= i < |b| => (b[i].0, Outcome(b[i].1.success, b[i].1.error)))
  }

  function ErrorSum<K>(o: seq<(K, Outcome)>): nat {
    if o == [] then 0 else o[0].1.error + ErrorSum(o[1..])
  }

  /** The response of `GET /stats`. */
  datatype NotificationStats = NotificationStats(
    total: nat,
    success: nat,
    error: nat,
    successRate: real,
    platformStats: seq<(string, Outcome)>)

  /** `get_notification_stats` over the posts of the last day: `error` counts the 'failed'
      posts while each platform's `error` counts every post that did not succeed. */
  function StatsOf(recent: seq<AnalyticsItem>): NotificationStats {
    var success := Count(recent, IsSuccess);
    NotificationStats(|recent|, success, Count(recent, IsFailed), Percent(success, |recent|),
                      Outcomes(Tallies(recent, PlatformOf, IsSuccess)))
  }

  method GetNotificationStats(recent: seq<AnalyticsItem>) returns (r: NotificationStats)
    ensures r == StatsOf(recent)
  {
    var success := Count(recent, IsSuccess);
    var error := Count(recent, IsFailed);
    var b := TallyLoop(recent, PlatformOf, IsSuccess);
    r := NotificationStats(|recent|, success, error, Percent(success, |recent|), Outcomes(b));
  }

  /** The platform error counts add up to every post that did not succeed, which is at
      least the headline `error` (the 'failed' posts), and equal to it exactly when no post
      has a status other than 'success' and 'failed'. */
  lemma StatsErrorCounts(recent: seq<AnalyticsItem>)
    ensures var r := StatsOf(recent);
      && ErrorSum(r.platformStats) == r.total - r.success
      && r.error <= ErrorSum(r.platformStats)
      && (r.error == ErrorSum(r.platformStats) <==>
            forall i :: 0 <= i < |recent| ==> recent[i].row.status == "success" || recent[i].row.status == "failed")
  {
    var b := Tallies(recent, PlatformOf, IsSuccess);
    TalliesPartition(recent, PlatformOf, IsSuccess);
    OutcomeErrors(b);
    CountSplit(recent, IsSuccess, IsFailed, IsCounted);
    CountFull(recent, IsCounted);
  }

  function IsCounted(a: AnalyticsItem): bool { IsSuccess(a) || IsFailed(a) }

  /** With balanced counters the errors are the posts that did not succeed. */
  lemma {:induction false} OutcomeErrors<K>(b: seq<(K, Tally)>)
    requires Balanced(b)
    ensures ErrorSum(Outcomes(b)) + SumSuccess(b) == SumPosts(b)
  {
    if b != [] {
      assert Balanced(b[1..]) by {
        forall i | 0 <= i < |b| - 1 ensures b[1..][i].1.posts == b[1..][i].1.success + b[1..][i].1.error {
          assert b[1..][i] == b[i + 1];
        }
      }
      OutcomeErrors(b[1..]);
      assert Outcomes(b)[1..] == Outcomes(b[1..]);
    }
  }

  /** The rate is 0 without posts and a percentage otherwise; each platform appears once. */
  lemma StatsRate(recent: seq<AnalyticsItem>)
    ensures var r := StatsOf(recent);
      && (recent == [] ==> r.successRate == 0.0)
      && 0.0 <= r.successRate <= 100.0
      && Distinct(Keys(r.platformStats))
      && (forall p :: p in Keys(r.platformStats) <==> exists i :: 0 <= i < |recent| && recent[i].row.platform == p)
  {
    var b := Tallies(recent, PlatformOf, IsSuccess);
    TalliesPartition(recent, PlatformOf, IsSuccess);
    PercentBounds(Count(recent, IsSuccess), |recent|);
    assert Keys(Outcomes(b)) == Keys(b);
  }

  // ---------------------------------------------------------------- analytics

  /** The response of `GET /analytics`: per-day `{'success', 'error'}` keyed by the date of
      `posted_at`, per-platform counters whose `posts` is the source's `total`. */
  datatype Summary = Summary(dailyStats: seq<(nat, Outcome)>, platformStats: seq<(string, Tally)>, totalPosts: nat, successRate: real)

  function SummaryOf(recent: seq<AnalyticsItem>): Summary {
    Summary(Outcomes(Tallies(recent, AnalyticsRoutes.DayOf, IsSuccess)),
            Tallies(recent, PlatformOf, IsSuccess),
            |recent|, Percent(Count(recent, IsSuccess), |recent|))
  }

  /** `get_analytics` over the posts of the last 30 days: the day loop, then the platform
      loop. */
  method GetAnalytics(recent: seq<AnalyticsItem>) returns (r: Summary)
    ensures r == SummaryOf(recent)
  {
    var daily := TallyLoop(recent, AnalyticsRoutes.DayOf, IsSuccess);
    var platforms := TallyLoop(recent, PlatformOf, IsSuccess);
    r := Summary(Outcomes(daily), platforms, |recent|, Percent(Count(recent, IsSuccess), |recent|));
  }

  /** One day entry per date with posts, each post counted once as a success or an error. */
  lemma SummaryDaily(recent: seq<AnalyticsItem>)
    ensures var r := SummaryOf(recent);
      && Distinct(Keys(r.dailyStats))
      && (forall d :: d in Keys(r.dailyStats) <==> exists i :: 0 <= i < |recent| && AnalyticsRoutes.DayOf(recent[i]) == d)
      && ErrorSum(r.dailyStats) == r.totalPosts - Count(recent, IsSuccess)
  {
    var b := Tallies(recent, AnalyticsRoutes.DayOf, IsSuccess);
    var daily := Outcomes(b);
    assert SummaryOf(recent).dailyStats == daily && SummaryOf(recent).totalPosts == |recent|;
    DailyErrors(recent);
    TalliesPartition(recent, AnalyticsRoutes.DayOf, IsSuccess);
    assert Keys(daily) == Keys(b);
  }

  lemma DailyErrors(recent: seq<AnalyticsItem>)
    ensures ErrorSum(Outcomes(Tallies(recent, AnalyticsRoutes.DayOf, IsSuccess))) == |recent| - Count(recent, IsSuccess)
  {
    TalliesPartition(recent, AnalyticsRoutes.DayOf, IsSuccess);
    OutcomeErrors(Tallies(recent, AnalyticsRoutes.DayOf, IsSuccess));
  }

  /** Per platform, total = success + error; the totals add up to all posts; the rate is 0
      without posts and a percentage otherwise. */
  lemma SummaryPlatforms(recent: seq<AnalyticsItem>)
    ensures var r := SummaryOf(recent);
      && Distinct(Keys(r.platformStats)) && Balanced(r.platformStats)
      && SumPosts(r.platformStats) == r.totalPosts
      && SumSuccess(r.platformStats) == Count(recent, IsSuccess)
      && (recent == [] ==> r.successRate == 0.0)
      && 0.0 <= r.successRate <= 100.0
  {
    TalliesPartition(recent, PlatformOf, IsSuccess);
    PercentBounds(Count(recent, IsSuccess), |recent|);
  }
}
