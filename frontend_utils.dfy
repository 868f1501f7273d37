/** The dashboard's formatting helpers: the class-name join, the relative-time text and the
    status colour and icon tables. */
module FrontendUtils {
  import opened Common

  // ---------------------------------------------------------------- cn

  /** One argument of `cn`: a class string or one of the falsy placeholders. */
  datatype ClassArg = Cls(name: string) | Undefined | Null | False

  /** `Boolean(arg)`: only a non-empty string is truthy. */
  predicate Truthy(a: ClassArg) {
    a.Cls? && a.name != ""
  }

  function Names(args: seq<ClassArg>): (r: seq<string>)
    requires forall i :: 0 <= i < |args| ==> args[i].Cls?
    ensures |r| == |args| && forall i :: 0 <= i < |args| ==> r[i] == args[i].name
  {
    seq(|args|, i requires 0 <= i < |args| => args[i].name)
  }

  /** The truthy arguments' class names, in order. */
  function Kept(args: seq<ClassArg>): (r: seq<string>)
    ensures forall i :: 0 <= i < |r| ==> r[i] != ""
  {
    var kept := Filter(args, Truthy);
    Names(kept)
  }

  /** `cn(...classes)`: the truthy arguments joined by single spaces. */
  function Cn(args: seq<ClassArg>): string {
    Join(Kept(args), " ")
  }

  /** Splitting the class string on spaces gives back the kept names, in order, when none
      of them holds a space; with nothing kept the string is empty. */
  lemma CnSplits(args: seq<ClassArg>)
    ensures Kept(args) == [] ==> Cn(args) == ""
    ensures Kept(args) != [] && (forall i :: 0 <= i < |Kept(args)| ==> ' ' !in Kept(args)[i]) ==>
      Split(Cn(args), ' ') == Kept(args)
  {
    var kept := Kept(args);
    if kept != [] && forall i :: 0 <= i < |kept| ==> ' ' !in kept[i] {
      SplitJoinInverse(kept, ' ');
    }
  }

  /** A falsy argument anywhere changes nothing. */
  lemma CnSkipsFalsy(a: seq<ClassArg>, x: ClassArg, b: seq<ClassArg>)
    requires !Truthy(x)
    ensures Cn(a + [x] + b) == Cn(a + b)
  {
    FilterAppend(a + [x], b, Truthy);
    FilterAppend(a, [x], Truthy);
    FilterAppend(a, b, Truthy);
    assert [x][1..] == [];
    assert Filter(a + [x], Truthy) == Filter(a, Truthy);
  }

  /** The kept names are exactly the non-empty class strings among the arguments. */
  lemma KeptMembers(args: seq<ClassArg>)
    ensures forall s :: s in Kept(args) <==> s != "" && Cls(s) in args
  {
    var kept := Filter(args, Truthy);
    forall s ensures s in Kept(args) <==> s != "" && Cls(s) in args {
      if s in Kept(args) {
        var i :| 0 <= i < |kept| && Kept(args)[i] == s;
        assert kept[i] == Cls(s);
      }
      if s != "" && Cls(s) in args {
        FilterKeeps(args, Truthy, Cls(s));
        var i :| 0 <= i < |kept| && kept[i] == Cls(s);
        assert Kept(args)[i] == s;
      }
    }
  }

  // ---------------------------------------------------------------- formatRelativeTime

  const Minute: int := 60
  const Hour: int := 3600
  const Day: int := 86400
  const Month: int := 2592000

  /** The band a difference in seconds falls in, with the whole count it shows. */
  datatype Ago = JustNow | Minutes(n: nat) | Hours(n: nat) | Days(n: nat) | Absolute

  /** The if-chain of `formatRelativeTime` on `diffInSeconds`. */
  function Band(d: int): Ago {
    if d < Minute then JustNow
    else if d < Hour then Minutes(d / Minute)
    else if d < Day then Hours(d / Hour)
    else if d < Month then Days(d / Day)
    else Absolute
  }

  /** `formatRelativeTime(date)` for the whole seconds elapsed; `dateText` stands for
      `formatDate(date)`, whose locale formatting is not modelled. */
  function FormatRelativeTime(d: int, dateText: string): string {
    match Band(d)
    case JustNow => "방금 전"
    case Minutes(n) => NatToString(n) + "분 전"
    case Hours(n) => NatToString(n) + "시간 전"
    case Days(n) => NatToString(n) + "일 전"
    case Absolute => dateText
  }

  /** Each band shows the whole number of its unit that has elapsed: 1-59 minutes, 1-23
      hours, 1-29 days; below a minute (a date in the future included) "just now". */
  lemma BandBounds(d: int)
    ensures Band(d).JustNow? <==> d < Minute
    ensures Band(d).Minutes? ==> 1 <= Band(d).n <= 59 && Band(d).n * Minute <= d < (Band(d).n + 1) * Minute
    ensures Band(d).Hours? ==> 1 <= Band(d).n <= 23 && Band(d).n * Hour <= d < (Band(d).n + 1) * Hour
    ensures Band(d).Days? ==> 1 <= Band(d).n <= 29 && Band(d).n * Day <= d < (Band(d).n + 1) * Day
    ensures Band(d).Absolute? <==> d >= Month
  {
  }

  /** The rank of a band, coarsest last. */
  function Rank(a: Ago): nat {
    match a
    case JustNow => 0
    case Minutes(_) => 1
    case Hours(_) => 2
    case Days(_) => 3
    case Absolute => 4
  }

  /** An older date never shows a finer band, nor a smaller count in the same band. */
  lemma BandMonotone(d1: int, d2: int)
    requires d1 <= d2
    ensures Rank(Band(d1)) <= Rank(Band(d2))
    ensures Rank(Band(d1)) == Rank(Band(d2)) && !Band(d1).JustNow? && !Band(d1).Absolute? ==>
      Band(d1).n <= Band(d2).n
  {
    BandBounds(d1);
    BandBounds(d2);
  }

  /** The text for each range of differences, stated over the thresholds alone: the whole
      number of units followed by the unit's word, and the formatted date past 30 days. */
  lemma RelativeTimeText(d: int, dateText: string)
    ensures d < Minute ==> FormatRelativeTime(d, dateText) == "방금 전"
    ensures Minute <= d < Hour ==> FormatRelativeTime(d, dateText) == NatToString(d / Minute) + "분 전"
    ensures Hour <= d < Day ==> FormatRelativeTime(d, dateText) == NatToString(d / Hour) + "시간 전"
    ensures Day <= d < Month ==> FormatRelativeTime(d, dateText) == NatToString(d / Day) + "일 전"
    ensures Month <= d ==> FormatRelativeTime(d, dateText) == dateText
  {
  }

  /** Two differences in the minutes band show the same text exactly when they fall in the
      same minute. */
  lemma MinutesTextInjective(d1: int, d2: int, dateText: string)
    requires Minute <= d1 < Hour && Minute <= d2 < Hour
    ensures FormatRelativeTime(d1, dateText) == FormatRelativeTime(d2, dateText) <==> d1 / Minute == d2 / Minute
  {
    var t1, t2 := NatToString(d1 / Minute), NatToString(d2 / Minute);
    if FormatRelativeTime(d1, dateText) == FormatRelativeTime(d2, dateText) {
      SuffixCancel(t1, t2, "분 전");
      NatToStringInjective(d1 / Minute, d2 / Minute);
    }
  }

  // ---------------------------------------------------------------- status tables

  const Green: string := "text-green-600 bg-green-100"
  const Red: string := "text-red-600 bg-red-100"
  const Yellow: string := "text-yellow-600 bg-yellow-100"
  const Blue: string := "text-blue-600 bg-blue-100"

  const Check: string := "✅"
  const Cross: string := "❌"
  const Warn: string := "⚠️"
  const Info: string := "ℹ️"

  predicate IsGood(s: string) { s == "success" || s == "active" || s == "completed" }
  predicate IsBad(s: string) { s == "error" || s == "failed" }
  predicate IsWaiting(s: string) { s == "warning" || s == "pending" }

  /** `getStatusColor(status)`: a switch on `status.toLowerCase()`. */
  function StatusColor(status: string): string {
    var s := Lower(status);
    if IsGood(s) then Green
    else if IsBad(s) || s == "inactive" then Red
    else if IsWaiting(s) then Yellow
    else Blue
  }

  /** `getStatusIcon(status)`: the same switch without the 'inactive' case. */
  function StatusIcon(status: string): string {
    var s := Lower(status);
    if IsGood(s) then Check
    else if IsBad(s) then Cross
    else if IsWaiting(s) then Warn
    else Info
  }

  /** The icon that goes with each colour. */
  function ColorIcon(color: string): string {
    if color == Green then Check
    else if color == Red then Cross
    else if color == Yellow then Warn
    else Info
  }

  /** Both tables read only the lower-cased status. */
  lemma StatusCaseInsensitive(status: string)
    ensures StatusColor(status) == StatusColor(Lower(status))
    ensures StatusIcon(status) == StatusIcon(Lower(status))
  {
    LowerIdempotent(status);
  }

  /** Each colour is chosen for exactly its group of statuses, blue for anything else. */
  lemma StatusColorGroups(status: string)
    ensures var s := Lower(status);
      && (StatusColor(status) == Green <==> IsGood(s))
      && (StatusColor(status) == Red <==> IsBad(s) || s == "inactive")
      && (StatusColor(status) == Yellow <==> IsWaiting(s))
      && (StatusColor(status) == Blue <==> !IsGood(s) && !IsBad(s) && s != "inactive" && !IsWaiting(s))
  {
    ColorsDistinct();
  }

  lemma ColorsDistinct()
    ensures Green != Red && Green != Yellow && Green != Blue && Red != Yellow && Red != Blue && Yellow != Blue
  {
    assert Green[5] != Red[5] && Green[5] != Yellow[5] && Green[5] != Blue[5];
    assert Red[5] != Yellow[5] && Red[5] != Blue[5] && Yellow[5] != Blue[5];
  }

  /** The icon is the one of the status's colour, except for 'inactive': red, yet the
      default icon. */
  lemma IconFollowsColor(status: string)
    ensures StatusIcon(status) == ColorIcon(StatusColor(status)) <==> Lower(status) != "inactive"
  {
    ColorsDistinct();
    assert Info != Cross;
  }
}
