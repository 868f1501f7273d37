/** Vocabulary shared by every module of the model: optional values, the string operations
    the Python and TypeScript code relies on (lower-casing, substring tests, split, strip,
    join, decimal rendering), counting and summing over sequences, Python-style slicing,
    a stable sort, and first-appearance tallies (the `dict` counters the handlers build). */
module Common {

  datatype Option<T> = None | Some(value: T) {
    function GetOr(default: T): T {
      match this
      case Some(v) => v
      case None => default
    }
  }

  /** A decoded JSON value, as `json.loads` returns it (no floating-point numbers). Objects
      keep their fields in insertion order, like a Python `dict`. */
  datatype Json =
    | JNull
    | JBool(b: bool)
    | JInt(i: int)
    | JStr(s: string)
    | JArr(items: seq<Json>)
    | JObj(fields: seq<(string, Json)>)

  /** `d.get(key)` on an object's fields: the first field with that key. */
  function Get(fields: seq<(string, Json)>, key: string): (r: Option<Json>)
    ensures r.Some? <==> exists i :: 0 <= i < |fields| && fields[i].0 == key
    ensures r.Some? ==> exists i :: 0 <= i < |fields| && fields[i] == (key, r.value)
  {
    if fields == [] then None
    else if fields[0].0 == key then Some(fields[0].1)
    else Get(fields[1..], key)
  }

  // ---------------------------------------------------------------- counting

  /** Number of elements of `s` that satisfy `p` (Python's `len([x for x in s if p(x)])`). */
  function Count<T>(s: seq<T>, p: T -> bool): (n: nat)
    ensures n <= |s|
  {
    if s == [] then 0 else (if p(s[0]) then 1 else 0) + Count(s[1..], p)
  }

  lemma {:induction false} CountAppend<T>(a: seq<T>, b: seq<T>, p: T -> bool)
    ensures Count(a + b, p) == Count(a, p) + Count(b, p)
  {
    if a == [] {
      assert a + b == b;
    } else {
      assert (a + b)[1..] == a[1..] + b;
      CountAppend(a[1..], b, p);
    }
  }

  /** Two predicates that split every element between them split the count too. */
  lemma {:induction false} CountSplit<T>(s: seq<T>, p: T -> bool, q: T -> bool, r: T -> bool)
    requires forall x :: r(x) <==> (p(x) || q(x))
    requires forall x :: !(p(x) && q(x))
    ensures Count(s, r) == Count(s, p) + Count(s, q)
  {
    if s != [] {
      CountSplit(s[1..], p, q, r);
    }
  }

  /** Counting with a predicate that holds of every element gives the length. */
  lemma {:induction false} CountAll<T>(s: seq<T>, p: T -> bool)
    requires forall i :: 0 <= i < |s| ==> p(s[i])
    ensures Count(s, p) == |s|
  {
    if s != [] {
      CountAll(s[1..], p);
    }
  }

  /** The count is the length exactly when every element satisfies the predicate. */
  lemma {:induction false} CountFull<T>(s: seq<T>, p: T -> bool)
    ensures Count(s, p) == |s| <==> forall i :: 0 <= i < |s| ==> p(s[i])
  {
    if s != [] {
      CountFull(s[1..], p);
      if Count(s, p) == |s| {
        forall i | 0 <= i < |s| ensures p(s[i]) {
          if i > 0 {
            assert s[i] == s[1..][i - 1];
          }
        }
      }
      if forall i :: 0 <= i < |s| ==> p(s[i]) {
        assert forall i :: 0 <= i < |s| - 1 ==> p(s[1..][i]) by {
          forall i | 0 <= i < |s| - 1 ensures p(s[1..][i]) {
            assert s[1..][i] == s[i + 1];
          }
        }
      }
    }
  }

  /** Counting with a predicate no element satisfies gives 0. */
  lemma {:induction false} CountNone<T>(s: seq<T>, p: T -> bool)
    requires forall i :: 0 <= i < |s| ==> !p(s[i])
    ensures Count(s, p) == 0
  {
    if s != [] {
      assert forall i :: 0 <= i < |s| - 1 ==> !p(s[1..][i]) by {
        forall i | 0 <= i < |s| - 1 ensures !p(s[1..][i]) {
          assert s[1..][i] == s[i + 1];
        }
      }
      CountNone(s[1..], p);
    }
  }

  /** A permutation has the same count. */
  lemma {:induction false} CountPerm<T>(a: seq<T>, b: seq<T>, p: T -> bool)
    requires multiset(a) == multiset(b)
    ensures Count(a, p) == Count(b, p)
    decreases |a|
  {
    if a == [] {
      assert |b| == |multiset(b)| == 0;
    } else {
      var x := a[0];
      assert x in multiset(b);
      var j :| 0 <= j < |b| && b[j] == x;
      var rest := b[..j] + b[j + 1..];
      RemoveAt(b, j);
      assert a == [x] + a[1..];
      assert multiset(a[1..]) == multiset(a) - multiset{x};
      CountPerm(a[1..], rest, p);
      CountRemoveIndex(b, j, p);
    }
  }

  lemma RemoveAt<T>(b: seq<T>, j: nat)
    requires j < |b|
    ensures multiset(b[..j] + b[j + 1..]) == multiset(b) - multiset{b[j]}
  {
    assert b == b[..j] + [b[j]] + b[j + 1..];
  }

  lemma {:induction false} CountRemoveIndex<T>(b: seq<T>, j: nat, p: T -> bool)
    requires j < |b|
    ensures Count(b, p) == Count(b[..j] + b[j + 1..], p) + (if p(b[j]) then 1 else 0)
  {
    if j == 0 {
      assert b[..0] + b[1..] == b[1..];
    } else {
      var t := b[1..];
      CountRemoveIndex(t, j - 1, p);
      var rest := t[..j - 1] + t[j..];
      assert b[..j] + b[j + 1..] == [b[0]] + rest;
      assert ([b[0]] + rest)[1..] == rest;
    }
  }

  /** Sum of `f` over `s` (Python's `sum(f(x) for x in s)`). */
  function Sum<T>(s: seq<T>, f: T -> int): int
  {
    if s == [] then 0 else f(s[0]) + Sum(s[1..], f)
  }

  lemma {:induction false} SumAppend<T>(a: seq<T>, b: seq<T>, f: T -> int)
    ensures Sum(a + b, f) == Sum(a, f) + Sum(b, f)
  {
    if a == [] {
      assert a + b == b;
    } else {
      assert (a + b)[1..] == a[1..] + b;
      SumAppend(a[1..], b, f);
    }
  }

  /** `count * 100 / total`, 0 for an empty total (exact; the source computes in floating
      point). */
  function Percent(count: int, total: int): real {
    if total > 0 then count as real / total as real * 100.0 else 0.0
  }

  lemma PercentBounds(count: nat, total: nat)
    requires count <= total
    ensures 0.0 <= Percent(count, total) <= 100.0
    ensures total == 0 ==> Percent(count, total) == 0.0
  {
    if total > 0 {
      assert count as real / total as real <= 1.0 by {
        assert count as real <= total as real;
      }
    }
  }

  // ---------------------------------------------------------------- filtering

  /** The elements of `s` that satisfy `p`, in order (a list comprehension with a guard). */
  function Filter<T>(s: seq<T>, p: T -> bool): (r: seq<T>)
    ensures |r| == Count(s, p)
    ensures forall i :: 0 <= i < |r| ==> p(r[i])
    ensures forall x :: x in r ==> x in s
  {
    if s == [] then []
    else (if p(s[0]) then [s[0]] else []) + Filter(s[1..], p)
  }

  lemma {:induction false} FilterAppend<T>(a: seq<T>, b: seq<T>, p: T -> bool)
    ensures Filter(a + b, p) == Filter(a, p) + Filter(b, p)
  {
    if a == [] {
      assert a + b == b;
    } else {
      assert (a + b)[1..] == a[1..] + b;
      FilterAppend(a[1..], b, p);
    }
  }

  /** `a` can be obtained from `b` by deleting elements (order is kept). */
  predicate Subseq<T(==)>(a: seq<T>, b: seq<T>)
    decreases |b|
  {
    a == [] || (b != [] && ((a[0] == b[0] && Subseq(a[1..], b[1..])) || Subseq(a, b[1..])))
  }

  lemma {:induction false} FilterIsSubseq<T>(s: seq<T>, p: T -> bool)
    ensures Subseq(Filter(s, p), s)
  {
    if s != [] {
      FilterIsSubseq(s[1..], p);
      var f := Filter(s, p);
      if p(s[0]) {
        assert f[0] == s[0] && f[1..] == Filter(s[1..], p);
      } else {
        assert f == Filter(s[1..], p);
      }
    }
  }

  /** An element is kept exactly when it is in the input and satisfies the predicate. */
  lemma FilterMembers<T>(s: seq<T>, p: T -> bool)
    ensures forall x :: x in Filter(s, p) <==> x in s && p(x)
  {
    forall x | x in s && p(x) ensures x in Filter(s, p) {
      FilterKeeps(s, p, x);
    }
    forall x | x in Filter(s, p) ensures p(x) {
      var i :| 0 <= i < |Filter(s, p)| && Filter(s, p)[i] == x;
    }
  }

  /** Every element of `s` that satisfies `p` survives the filter. */
  lemma {:induction false} FilterKeeps<T>(s: seq<T>, p: T -> bool, x: T)
    requires x in s && p(x)
    ensures x in Filter(s, p)
  {
    if s[0] != x {
      FilterKeeps(s[1..], p, x);
    }
  }

  /** Filtering with a predicate every element satisfies changes nothing. */
  lemma {:induction false} FilterAll<T>(s: seq<T>, p: T -> bool)
    requires forall i :: 0 <= i < |s| ==> p(s[i])
    ensures Filter(s, p) == s
  {
    if s != [] {
      FilterAll(s[1..], p);
    }
  }

  /** Filtering with a predicate no element satisfies leaves nothing. */
  lemma {:induction false} FilterNone<T>(s: seq<T>, p: T -> bool)
    requires forall i :: 0 <= i < |s| ==> !p(s[i])
    ensures Filter(s, p) == []
  {
    if s != [] {
      FilterNone(s[1..], p);
    }
  }

  lemma {:induction false} SubseqTrans<T>(a: seq<T>, b: seq<T>, c: seq<T>)
    requires Subseq(a, b) && Subseq(b, c)
    ensures Subseq(a, c)
    decreases |c|
  {
    if a != [] {
      if b[0] == c[0] && Subseq(b[1..], c[1..]) {
        if a[0] == b[0] && Subseq(a[1..], b[1..]) {
          SubseqTrans(a[1..], b[1..], c[1..]);
        } else {
          SubseqTrans(a, b[1..], c[1..]);
        }
      } else {
        SubseqTrans(a, b, c[1..]);
      }
    }
  }

  lemma {:induction false} SubseqRefl<T>(a: seq<T>)
    ensures Subseq(a, a)
  {
    if a != [] {
      SubseqRefl(a[1..]);
    }
  }

  /** A subsequence is no longer than the sequence it is taken from. */
  lemma {:induction false} SubseqLength<T>(a: seq<T>, b: seq<T>)
    requires Subseq(a, b)
    ensures |a| <= |b|
    decreases |b|
  {
    if a != [] {
      if a[0] == b[0] && Subseq(a[1..], b[1..]) {
        SubseqLength(a[1..], b[1..]);
      } else {
        SubseqLength(a, b[1..]);
      }
    }
  }

  /** A prefix is a subsequence. */
  lemma {:induction false} PrefixIsSubseq<T>(s: seq<T>, k: nat)
    requires k <= |s|
    ensures Subseq(s[..k], s)
  {
    if k > 0 {
      assert s[..k][1..] == s[1..][..k - 1];
      PrefixIsSubseq(s[1..], k - 1);
    }
  }

  // ---------------------------------------------------------------- slicing

  /** Python's `min` of two integers. */
  function Min(a: int, b: int): int { if a < b then a else b }

  /** Python's `s[:k]` for any integer `k` (a negative `k` drops `-k` elements at the end). */
  function PyTake<T>(s: seq<T>, k: int): (r: seq<T>)
    ensures |r| <= |s| && r == s[..|r|]
    ensures k >= 0 ==> |r| == if k < |s| then k else |s|
    ensures k < 0 ==> |r| == if -k < |s| then |s| + k else 0
  {
    if k >= |s| then s
    else if k >= 0 then s[..k]
    else if -k >= |s| then []
    else s[..|s| + k]
  }

  /** Python's `s[start:end]` for non-negative bounds. */
  function PySlice<T>(s: seq<T>, start: nat, end: nat): (r: seq<T>)
    ensures |r| <= if end >= start then end - start else 0
    ensures start < end <= |s| ==> r == s[start..end]
  {
    var lo := if start < |s| then start else |s|;
    var hi := if end < |s| then end else |s|;
    if lo <= hi then s[lo..hi] else []
  }

  /** SQL `LIMIT limit OFFSET offset` over an ordered result: a negative offset counts as
      zero and a negative limit means "no limit" (SQLite's rules). */
  /** How many rows `LIMIT limit OFFSET offset` leaves of `n`: none once the offset reaches
      the end, otherwise the rest after the offset, cut at a non-negative limit. */
  function WindowLength(n: nat, limit: int, offset: int): nat {
    var o := if offset < 0 then 0 else offset;
    if o >= n then 0 else if limit < 0 || limit >= n - o then n - o else limit
  }

  function SqlWindow<T>(s: seq<T>, limit: int, offset: int): (r: seq<T>)
    ensures limit >= 0 ==> |r| <= limit
    ensures |r| <= |s|
    ensures |r| == WindowLength(|s|, limit, offset)
    ensures var o := if offset < 0 then 0 else offset;
            o <= |s| ==> o + |r| <= |s| && r == s[o..o + |r|]
  {
    var o := if offset < 0 then 0 else offset;
    var rest := if o <= |s| then s[o..] else [];
    if limit < 0 || limit >= |rest| then rest else rest[..limit]
  }

  /** A window holds only elements of the result, and with no offset and no binding limit
      it is the whole result. */
  lemma WindowElements<T>(s: seq<T>, limit: int, offset: int)
    ensures forall x :: x in SqlWindow(s, limit, offset) ==> x in s
    ensures offset <= 0 && (limit < 0 || limit >= |s|) ==> SqlWindow(s, limit, offset) == s
  {
    var r := SqlWindow(s, limit, offset);
    var o := if offset < 0 then 0 else offset;
    if o <= |s| {
      forall x | x in r ensures x in s {
        var i :| 0 <= i < |r| && r[i] == x;
        assert r[i] == s[o + i];
      }
    }
  }

  /** A window of a result ordered by decreasing key keeps that order. */
  lemma WindowSortedDesc<T>(s: seq<T>, key: T -> real, limit: int, offset: int)
    requires SortedDesc(s, key)
    ensures SortedDesc(SqlWindow(s, limit, offset), key)
  {
    var r := SqlWindow(s, limit, offset);
    var o := if offset < 0 then 0 else offset;
    if o <= |s| {
      forall i, j | 0 <= i < j < |r| ensures key(r[i]) >= key(r[j]) {
        assert r[i] == s[o + i] && r[j] == s[o + j];
      }
    }
  }

  // ---------------------------------------------------------------- sorting

  predicate SortedDesc<T>(s: seq<T>, key: T -> real) {
    forall i, j :: 0 <= i < j < |s| ==> key(s[i]) >= key(s[j])
  }

  predicate SortedAsc<T>(s: seq<T>, key: T -> real) {
    forall i, j :: 0 <= i < j < |s| ==> key(s[i]) <= key(s[j])
  }

  /** Puts `x` before the first element whose key is not larger, so that among equal keys
      the element inserted later (the one that came earlier in the input) comes first. */
  function InsertDesc<T>(x: T, s: seq<T>, key: T -> real): seq<T>
  {
    if s == [] || key(x) >= key(s[0]) then [x] + s else [s[0]] + InsertDesc(x, s[1..], key)
  }

  /** Stable sort by decreasing key: Python's `sorted(s, key=key, reverse=True)`. */
  function SortDesc<T>(s: seq<T>, key: T -> real): seq<T>
  {
    if s == [] then [] else InsertDesc(s[0], SortDesc(s[1..], key), key)
  }

  /** Stable sort by increasing key: `sorted(s, key=key)` and SQL `ORDER BY key ASC`. */
  function SortAsc<T>(s: seq<T>, key: T -> real): seq<T>
  {
    SortDesc(s, x => -key(x))
  }

  /** Inserting adds exactly `x`, and the result starts with `x` or with the old head. */
  lemma {:induction false} InsertDescPerm<T>(x: T, s: seq<T>, key: T -> real)
    ensures var r := InsertDesc(x, s, key);
      && multiset(r) == multiset(s) + multiset{x}
      && |r| == |s| + 1
      && (r[0] == x || r[0] == s[0])
  {
    if s != [] && key(x) < key(s[0]) {
      var tail := s[1..];
      InsertDescPerm(x, tail, key);
      assert s == [s[0]] + tail;
    }
  }

  /** Inserting keeps every key at most `m` when `x` and all of `s` are. */
  lemma {:induction false} InsertDescBound<T>(x: T, s: seq<T>, key: T -> real, m: real)
    requires key(x) <= m && forall i :: 0 <= i < |s| ==> key(s[i]) <= m
    ensures forall i :: 0 <= i < |InsertDesc(x, s, key)| ==> key(InsertDesc(x, s, key)[i]) <= m
  {
    if s != [] && key(x) < key(s[0]) {
      var tail := s[1..];
      assert forall i :: 0 <= i < |tail| ==> tail[i] == s[i + 1];
      InsertDescBound(x, tail, key, m);
      var t := InsertDesc(x, tail, key);
      var r := [s[0]] + t;
      assert r == InsertDesc(x, s, key);
      forall i | 0 <= i < |r| ensures key(r[i]) <= m {
        if i > 0 {
          assert r[i] == t[i - 1];
        }
      }
    }
  }

  lemma {:induction false} InsertDescSorted<T>(x: T, s: seq<T>, key: T -> real)
    requires SortedDesc(s, key)
    ensures SortedDesc(InsertDesc(x, s, key), key)
  {
    if s != [] && key(x) < key(s[0]) {
      var tail := s[1..];
      assert SortedDesc(tail, key) by {
        forall i, j | 0 <= i < j < |tail| ensures key(tail[i]) >= key(tail[j]) {
          assert tail[i] == s[i + 1] && tail[j] == s[j + 1];
        }
      }
      forall i | 0 <= i < |tail| ensures key(tail[i]) <= key(s[0]) {
        assert tail[i] == s[i + 1];
      }
      InsertDescSorted(x, tail, key);
      InsertDescBound(x, tail, key, key(s[0]));
      var t := InsertDesc(x, tail, key);
      var r := [s[0]] + t;
      assert r == InsertDesc(x, s, key);
      forall i, j | 0 <= i < j < |r| ensures key(r[i]) >= key(r[j]) {
        assert r[j] == t[j - 1];
        if i > 0 {
          assert r[i] == t[i - 1];
        }
      }
    }
  }

  lemma InsertDescCorrect<T>(x: T, s: seq<T>, key: T -> real)
    requires SortedDesc(s, key)
    ensures var r := InsertDesc(x, s, key);
      && SortedDesc(r, key)
      && multiset(r) == multiset(s) + multiset{x}
      && |r| == |s| + 1
  {
    InsertDescPerm(x, s, key);
    InsertDescSorted(x, s, key);
  }

  /** The sort yields a permutation of its input in non-increasing key order. */
  lemma {:induction false} SortDescCorrect<T>(s: seq<T>, key: T -> real)
    ensures SortedDesc(SortDesc(s, key), key)
    ensures multiset(SortDesc(s, key)) == multiset(s)
    ensures |SortDesc(s, key)| == |s|
  {
    if s != [] {
      SortDescCorrect(s[1..], key);
      InsertDescCorrect(s[0], SortDesc(s[1..], key), key);
      assert s == [s[0]] + s[1..];
      assert multiset(s) == multiset(s[1..]) + multiset{s[0]};
    }
  }

  lemma SortAscCorrect<T>(s: seq<T>, key: T -> real)
    ensures SortedAsc(SortAsc(s, key), key)
    ensures multiset(SortAsc(s, key)) == multiset(s)
    ensures |SortAsc(s, key)| == |s|
  {
    SortDescCorrect(s, x => -key(x));
  }

  /** The first `limit` of the stable descending sort (`sorted(..., reverse=True)[:limit]`)
      are in non-increasing key order, are entries of the input, and none left out ranks
      above one taken. */
  lemma TopTaken<T>(s: seq<T>, key: T -> real, limit: int)
    ensures var r := PyTake(SortDesc(s, key), limit);
      && SortedDesc(r, key)
      && (forall x :: x in r ==> x in s)
      && multiset(r) <= multiset(s)
      && (limit >= 0 ==> |r| == Min(limit, |s|))
      && (forall x, i :: x in s && x !in r && 0 <= i < |r| ==> key(x) <= key(r[i]))
  {
    var sorted := SortDesc(s, key);
    SortDescCorrect(s, key);
    var r := PyTake(sorted, limit);
    assert sorted == r + sorted[|r|..];
    assert multiset(sorted) == multiset(r) + multiset(sorted[|r|..]);
    forall i, j | 0 <= i < j < |r| ensures key(r[i]) >= key(r[j]) {
      assert r[i] == sorted[i] && r[j] == sorted[j];
    }
    forall x | x in r ensures x in s {
      assert x in multiset(sorted);
    }
    forall x, i | x in s && x !in r && 0 <= i < |r| ensures key(x) <= key(r[i]) {
      assert x in multiset(sorted);
      var j :| 0 <= j < |sorted| && sorted[j] == x;
      assert r[i] == sorted[i];
    }
  }

  /** The first `limit` of the stable ascending sort (`sorted(..., key=key)[:limit]`) are in
      non-decreasing key order, min(limit, |s|) of them for a non-negative limit, drawn from
      the input, and none left out has a smaller key than one taken. */
  lemma LowestTaken<T>(s: seq<T>, key: T -> real, limit: int)
    ensures var r := PyTake(SortAsc(s, key), limit);
      && SortedAsc(r, key)
      && multiset(r) <= multiset(s)
      && (limit >= 0 ==> |r| == Min(limit, |s|))
      && (forall x, i :: x in s && x !in r && 0 <= i < |r| ==> key(r[i]) <= key(x))
  {
    var neg := x => -key(x);
    TopTaken(s, neg, limit);
    var r := PyTake(SortAsc(s, key), limit);
    forall i, j | 0 <= i < j < |r| ensures key(r[i]) <= key(r[j]) {
      assert neg(r[i]) >= neg(r[j]);
    }
    forall x, i | x in s && x !in r && 0 <= i < |r| ensures key(r[i]) <= key(x) {
      assert neg(x) <= neg(r[i]);
    }
  }

  /** `ORDER BY key ASC LIMIT limit` takes elements of `s`, in key order, min(limit, |s|)
      of them for a non-negative limit, none with a larger key than an element left out,
      and all of them when the limit does not bind. */
  lemma OldestFirst<T>(s: seq<T>, key: T -> real, limit: int)
    ensures var r := SqlWindow(SortAsc(s, key), limit, 0);
      && (forall x :: x in r ==> x in s)
      && SortedAsc(r, key)
      && (limit >= 0 ==> |r| == Min(limit, |s|))
      && multiset(r) <= multiset(s)
      && (forall c, i :: c in s && c !in r && 0 <= i < |r| ==> key(r[i]) <= key(c))
      && (limit < 0 || limit >= |s| ==> multiset(r) == multiset(s))
  {
    var sorted := SortAsc(s, key);
    SortAscCorrect(s, key);
    var r := SqlWindow(sorted, limit, 0);
    assert r == sorted[..|r|];
    assert sorted == r + sorted[|r|..];
    assert multiset(sorted) == multiset(r) + multiset(sorted[|r|..]);
    forall x | x in r ensures x in s {
      assert x in multiset(sorted);
    }
    forall i, j | 0 <= i < j < |r| ensures key(r[i]) <= key(r[j]) {
      assert r[i] == sorted[i] && r[j] == sorted[j];
    }
    forall c, i | c in s && c !in r && 0 <= i < |r| ensures key(r[i]) <= key(c) {
      assert c in multiset(sorted);
      var j :| 0 <= j < |sorted| && sorted[j] == c;
      assert r[i] == sorted[i];
    }
    if limit < 0 || limit >= |s| {
      assert r == sorted;
    }
  }

  /** Elements of a sequence are pairwise distinct. */
  predicate Distinct<T(==)>(s: seq<T>) {
    forall i, j :: 0 <= i < j < |s| ==> s[i] != s[j]
  }

  // ---------------------------------------------------------------- tallies

  /** The counters the handlers keep per key: `{'posts': 0, 'success': 0, 'error': 0}`. */
  datatype Tally = Tally(posts: nat, success: nat, error: nat)

  /** One more row under a key: `posts += 1`, then `success += 1` or `error += 1`. */
  function Bump(t: Tally, ok: bool): Tally {
    Tally(t.posts + 1, t.success + (if ok then 1 else 0), t.error + (if ok then 0 else 1))
  }

  /** `if key not in d: d[key] = zero` followed by the bump, on an insertion-ordered dict
      represented as a list of entries. */
  function AddTo<K(==)>(b: seq<(K, Tally)>, k: K, ok: bool): (r: seq<(K, Tally)>)
  {
    if b == [] then [(k, Bump(Tally(0, 0, 0), ok))]
    else if b[0].0 == k then [(k, Bump(b[0].1, ok))] + b[1..]
    else [b[0]] + AddTo(b[1..], k, ok)
  }

  /** The dict a `for row in rows:` loop builds, in first-appearance order of the keys. */
  function Tallies<R, K(==)>(rows: seq<R>, key: R -> K, ok: R -> bool): seq<(K, Tally)>
  {
    if rows == [] then []
    else
      var n := |rows| - 1;
      AddTo(Tallies(rows[..n], key, ok), key(rows[n]), ok(rows[n]))
  }

  function Keys<K, V>(b: seq<(K, V)>): seq<K> {
    seq(|b|, i requires 0 <= i < |b| => b[i].0)
  }

  function SumPosts<K>(b: seq<(K, Tally)>): nat {
    if b == [] then 0 else b[0].1.posts + SumPosts(b[1..])
  }

  function SumSuccess<K>(b: seq<(K, Tally)>): nat {
    if b == [] then 0 else b[0].1.success + SumSuccess(b[1..])
  }

  /** Every counter satisfies posts == success + error. */
  predicate Balanced<K>(b: seq<(K, Tally)>) {
    forall i :: 0 <= i < |b| ==> b[i].1.posts == b[i].1.success + b[i].1.error
  }

  lemma DistinctCons<T>(x: T, t: seq<T>)
    requires x !in t && Distinct(t)
    ensures Distinct([x] + t)
  {
    var s := [x] + t;
    forall i, j | 0 <= i < j < |s| ensures s[i] != s[j] {
      if i == 0 {
        assert s[j] == t[j - 1];
      } else {
        assert s[i] == t[i - 1] && s[j] == t[j - 1];
      }
    }
  }

  lemma KeysCons<K, V>(e: (K, V), t: seq<(K, V)>)
    ensures Keys([e] + t) == [e.0] + Keys(t)
  {
  }

  /** Bumping an existing key keeps the key list; a new key goes to the end. */
  lemma {:induction false} AddToKeys<K>(b: seq<(K, Tally)>, k: K, ok: bool)
    ensures Keys(AddTo(b, k, ok)) == if k in Keys(b) then Keys(b) else Keys(b) + [k]
  {
    if b != [] {
      var t := b[1..];
      assert b == [b[0]] + t;
      KeysCons(b[0], t);
      if b[0].0 == k {
        KeysCons((k, Bump(b[0].1, ok)), t);
      } else {
        AddToKeys(t, k, ok);
        KeysCons(b[0], AddTo(t, k, ok));
        assert k in Keys(b) <==> k in Keys(t);
      }
    }
  }

  lemma {:induction false} AddToSums<K>(b: seq<(K, Tally)>, k: K, ok: bool)
    ensures SumPosts(AddTo(b, k, ok)) == SumPosts(b) + 1
    ensures SumSuccess(AddTo(b, k, ok)) == SumSuccess(b) + (if ok then 1 else 0)
  {
    if b != [] && b[0].0 != k {
      AddToSums(b[1..], k, ok);
      var r := AddTo(b, k, ok);
      assert r[1..] == AddTo(b[1..], k, ok);
    }
  }

  lemma {:induction false} AddToBalanced<K>(b: seq<(K, Tally)>, k: K, ok: bool)
    requires Balanced(b)
    ensures Balanced(AddTo(b, k, ok))
  {
    if b != [] && b[0].0 != k {
      var t := b[1..];
      assert Balanced(t) by {
        forall i | 0 <= i < |t| ensures t[i].1.posts == t[i].1.success + t[i].1.error {
          assert t[i] == b[i + 1];
        }
      }
      AddToBalanced(t, k, ok);
      var r := AddTo(b, k, ok);
      forall i | 0 <= i < |r| ensures r[i].1.posts == r[i].1.success + r[i].1.error {
        if i > 0 {
          assert r[i] == AddTo(t, k, ok)[i - 1];
        }
      }
    }
  }

  lemma DistinctSnoc<T>(t: seq<T>, x: T)
    requires x !in t && Distinct(t)
    ensures Distinct(t + [x])
  {
    var s := t + [x];
    forall i, j | 0 <= i < j < |s| ensures s[i] != s[j] {
      assert s[i] == t[i];
      if j < |t| {
        assert s[j] == t[j];
      }
    }
  }

  lemma AddToProps<K>(b: seq<(K, Tally)>, k: K, ok: bool)
    requires Distinct(Keys(b)) && Balanced(b)
    ensures var r := AddTo(b, k, ok);
      && Distinct(Keys(r)) && Balanced(r)
      && SumPosts(r) == SumPosts(b) + 1
      && SumSuccess(r) == SumSuccess(b) + (if ok then 1 else 0)
      && (forall x :: x in Keys(r) <==> x in Keys(b) || x == k)
  {
    AddToKeys(b, k, ok);
    AddToSums(b, k, ok);
    AddToBalanced(b, k, ok);
    if k !in Keys(b) {
      DistinctSnoc(Keys(b), k);
    }
  }

  /** The tallies partition the rows: keys are distinct, each counter is balanced, the posts
      add up to the number of rows and the successes to the number of successful rows, and
      the keys are exactly the keys of the rows. */
  lemma {:induction false} TalliesPartition<R, K>(rows: seq<R>, key: R -> K, ok: R -> bool)
    ensures var b := Tallies(rows, key, ok);
      && Distinct(Keys(b)) && Balanced(b)
      && SumPosts(b) == |rows|
      && SumSuccess(b) == Count(rows, ok)
      && (forall x :: x in Keys(b) <==> exists i :: 0 <= i < |rows| && key(rows[i]) == x)
  {
    if rows != [] {
      var n := |rows| - 1;
      TalliesPartition(rows[..n], key, ok);
      AddToProps(Tallies(rows[..n], key, ok), key(rows[n]), ok(rows[n]));
      assert rows == rows[..n] + [rows[n]];
      CountAppend(rows[..n], [rows[n]], ok);
      var b := Tallies(rows, key, ok);
      forall x ensures x in Keys(b) <==> exists i :: 0 <= i < |rows| && key(rows[i]) == x {
        if x in Keys(b) && x != key(rows[n]) {
          var i :| 0 <= i < n && key(rows[..n][i]) == x;
          assert key(rows[i]) == x;
        }
        if exists i :: 0 <= i < |rows| && key(rows[i]) == x {
          var i :| 0 <= i < |rows| && key(rows[i]) == x;
          if i < n {
            assert key(rows[..n][i]) == x;
          }
        }
      }
    }
  }

  /** Number of rows under key `x`. */
  function CountKey<R, K(==)>(rows: seq<R>, key: R -> K, x: K): nat
  {
    if rows == [] then 0
    else CountKey(rows[..|rows| - 1], key, x) + (if key(rows[|rows| - 1]) == x then 1 else 0)
  }

  /** Number of rows under key `x` whose outcome is `want`. */
  function CountKeyOk<R, K(==)>(rows: seq<R>, key: R -> K, ok: R -> bool, x: K, want: bool): nat
  {
    if rows == [] then 0
    else CountKeyOk(rows[..|rows| - 1], key, ok, x, want)
         + (if key(rows[|rows| - 1]) == x && ok(rows[|rows| - 1]) == want then 1 else 0)
  }

  /** `d.get(x, zero)`: the counter of the first entry for `x`. */
  function TallyFor<K(==)>(b: seq<(K, Tally)>, x: K): Tally
  {
    if b == [] then Tally(0, 0, 0)
    else if b[0].0 == x then b[0].1
    else TallyFor(b[1..], x)
  }

  lemma {:induction false} AddToTallyFor<K>(b: seq<(K, Tally)>, k: K, ok: bool, x: K)
    ensures TallyFor(AddTo(b, k, ok), x) == if x == k then Bump(TallyFor(b, x), ok) else TallyFor(b, x)
  {
    if b != [] && b[0].0 != k {
      AddToTallyFor(b[1..], k, ok, x);
    }
  }

  /** Each key's counter holds exactly its rows: posts counts the rows under the key,
      success those that succeeded and error those that did not. */
  lemma {:induction false} TalliesCount<R, K>(rows: seq<R>, key: R -> K, ok: R -> bool, x: K)
    ensures TallyFor(Tallies(rows, key, ok), x)
      == Tally(CountKey(rows, key, x), CountKeyOk(rows, key, ok, x, true), CountKeyOk(rows, key, ok, x, false))
  {
    if rows != [] {
      var n := |rows| - 1;
      TalliesCount(rows[..n], key, ok, x);
      AddToTallyFor(Tallies(rows[..n], key, ok), key(rows[n]), ok(rows[n]), x);
    }
  }

  /** With distinct keys, the counter found for an entry's key is that entry's counter. */
  /** A key some row carries is counted at least once. */
  lemma {:induction false} CountKeyPositive<R, K>(rows: seq<R>, key: R -> K, x: K)
    requires exists i :: 0 <= i < |rows| && key(rows[i]) == x
    ensures CountKey(rows, key, x) > 0
  {
    var n := |rows| - 1;
    if key(rows[n]) != x {
      var i :| 0 <= i < |rows| && key(rows[i]) == x;
      assert key(rows[..n][i]) == x;
      CountKeyPositive(rows[..n], key, x);
    }
  }

  /** The i-th counter of `Tallies` counts exactly the rows with its key, of which there
      is at least one. */
  lemma TalliesEntry<R, K>(rows: seq<R>, key: R -> K, ok: R -> bool, i: nat)
    requires i < |Tallies(rows, key, ok)|
    ensures var e := Tallies(rows, key, ok)[i];
      && e.1 == Tally(CountKey(rows, key, e.0), CountKeyOk(rows, key, ok, e.0, true), CountKeyOk(rows, key, ok, e.0, false))
      && e.1.posts == e.1.success + e.1.error && e.1.posts > 0
  {
    var b := Tallies(rows, key, ok);
    TalliesPartition(rows, key, ok);
    TallyForEntry(b, i);
    TalliesCount(rows, key, ok, b[i].0);
    assert Keys(b)[i] == b[i].0;
    assert b[i].0 in Keys(b);
    CountKeyPositive(rows, key, b[i].0);
  }

  lemma {:induction false} TallyForEntry<K>(b: seq<(K, Tally)>, i: nat)
    requires Distinct(Keys(b)) && i < |b|
    ensures TallyFor(b, b[i].0) == b[i].1
  {
    if i > 0 {
      assert Keys(b)[0] == b[0].0 && Keys(b)[i] == b[i].0;
      assert Distinct(Keys(b[1..])) by {
        forall p, q | 0 <= p < q < |b| - 1 ensures Keys(b[1..])[p] != Keys(b[1..])[q] {
          assert Keys(b[1..])[p] == Keys(b)[p + 1] && Keys(b[1..])[q] == Keys(b)[q + 1];
        }
      }
      TallyForEntry(b[1..], i - 1);
    }
  }

  /** The loop that builds the counters, entry by entry, as the handlers do. */
  method TallyLoop<R, K(==)>(rows: seq<R>, key: R -> K, ok: R -> bool) returns (b: seq<(K, Tally)>)
    ensures b == Tallies(rows, key, ok)
  {
    b := [];
    var i := 0;
    while i < |rows|
      invariant 0 <= i <= |rows|
      invariant b == Tallies(rows[..i], key, ok)
    {
      assert rows[..i + 1][..i] == rows[..i];
      b := AddTo(b, key(rows[i]), ok(rows[i]));
      i := i + 1;
    }
    assert rows[..i] == rows;
  }

  // ---------------------------------------------------------------- strings

  function LowerChar(c: char): char {
    if 'A' <= c <= 'Z' then (c as int + 32) as char else c
  }

  /** `str.lower()` / `toLowerCase()` on the ASCII letters. */
  function Lower(s: string): (r: string)
    ensures |r| == |s|
  {
    seq(|s|, i requires 0 <= i < |s| => LowerChar(s[i]))
  }

  lemma LowerIdempotent(s: string)
    ensures Lower(Lower(s)) == Lower(s)
  {
  }

  predicate StartsWith(s: string, prefix: string) {
    |prefix| <= |s| && s[..|prefix|] == prefix
  }

  /** Python's `sub in s`. */
  predicate Contains(s: string, sub: string)
    decreases |s|
  {
    StartsWith(s, sub) || (s != [] && Contains(s[1..], sub))
  }

  /** `sep.join(parts)`. */
  function Join(parts: seq<string>, sep: string): string
  {
    if parts == [] then ""
    else if |parts| == 1 then parts[0]
    else parts[0] + sep + Join(parts[1..], sep)
  }

  /** How many times `ch` occurs in `s`. */
  function Occurrences(s: string, ch: char): nat
  {
    if s == [] then 0 else (if s[0] == ch then 1 else 0) + Occurrences(s[1..], ch)
  }

  /** Python's `s.split(sep)` for a one-character separator: always at least one piece. */
  function Split(s: string, sep: char): (r: seq<string>)
    ensures |r| >= 1
    decreases |s|
  {
    if s == [] then [""]
    else
      var rest := Split(s[1..], sep);
      if s[0] == sep then [""] + rest else [[s[0]] + rest[0]] + rest[1..]
  }

  /** A string without the separator is a single piece. */
  lemma {:induction false} SplitNoSep(s: string, sep: char)
    requires sep !in s
    ensures Split(s, sep) == [s]
    decreases |s|
  {
    if s != [] {
      SplitNoSep(s[1..], sep);
      assert [s[0]] + s[1..] == s;
    }
  }

  /** A leading piece without the separator splits off as the first piece. */
  lemma {:induction false} SplitCons(a: string, sep: char, b: string)
    requires sep !in a
    ensures Split(a + [sep] + b, sep) == [a] + Split(b, sep)
    decreases |a|
  {
    if a == [] {
      assert a + [sep] + b == [sep] + b;
      assert ([sep] + b)[1..] == b;
    } else {
      SplitCons(a[1..], sep, b);
      assert (a + [sep] + b)[1..] == a[1..] + [sep] + b;
      assert [a[0]] + a[1..] == a;
    }
  }

  lemma {:induction false} SplitCount(s: string, sep: char)
    ensures |Split(s, sep)| == Occurrences(s, sep) + 1
    decreases |s|
  {
    if s != [] {
      SplitCount(s[1..], sep);
    }
  }

  lemma {:induction false} SplitPiecesFree(s: string, sep: char)
    ensures forall i :: 0 <= i < |Split(s, sep)| ==> sep !in Split(s, sep)[i]
    decreases |s|
  {
    if s != [] {
      SplitPiecesFree(s[1..], sep);
      var rest := Split(s[1..], sep);
      var r := Split(s, sep);
      forall i | 0 <= i < |r| ensures sep !in r[i] {
        if s[0] == sep {
          if i > 0 {
            assert r[i] == rest[i - 1];
          }
        } else if i > 0 {
          assert r[i] == rest[i];
        } else {
          assert r[0] == [s[0]] + rest[0];
        }
      }
    }
  }

  lemma {:induction false} SplitJoinBack(s: string, sep: char)
    ensures Join(Split(s, sep), [sep]) == s
    decreases |s|
  {
    if s != [] {
      SplitJoinBack(s[1..], sep);
      var rest := Split(s[1..], sep);
      assert s == [s[0]] + s[1..];
      if s[0] == sep {
        assert Split(s, sep) == [""] + rest;
      } else {
        var r := Split(s, sep);
        assert r == [[s[0]] + rest[0]] + rest[1..];
        if |rest| > 1 {
          assert rest == [rest[0]] + rest[1..];
          assert Join(rest, [sep]) == rest[0] + [sep] + Join(rest[1..], [sep]);
        }
      }
    }
  }

  /** Splitting and joining back with the same separator is the identity, no piece
      contains the separator, and there is one more piece than separators. */
  lemma SplitJoin(s: string, sep: char)
    ensures Join(Split(s, sep), [sep]) == s
    ensures forall i :: 0 <= i < |Split(s, sep)| ==> sep !in Split(s, sep)[i]
    ensures |Split(s, sep)| == Occurrences(s, sep) + 1
  {
    SplitJoinBack(s, sep);
    SplitPiecesFree(s, sep);
    SplitCount(s, sep);
  }

  /** Joining non-empty separator-free pieces and splitting again gives the pieces. */
  lemma {:induction false} SplitJoinInverse(parts: seq<string>, sep: char)
    requires parts != []
    requires forall i :: 0 <= i < |parts| ==> sep !in parts[i]
    ensures Split(Join(parts, [sep]), sep) == parts
  {
    if |parts| == 1 {
      SplitNoSep(parts[0], sep);
    } else {
      var rest := parts[1..];
      SplitJoinInverse(rest, sep);
      assert Join(parts, [sep]) == parts[0] + [sep] + Join(rest, [sep]);
      SplitCons(parts[0], sep, Join(rest, [sep]));
      assert parts == [parts[0]] + rest;
    }
  }

  /** Appending one more part adds the separator and the part. */
  lemma {:induction false} JoinSnoc(parts: seq<string>, x: string, sep: string)
    requires parts != []
    ensures Join(parts + [x], sep) == Join(parts, sep) + sep + x
  {
    if |parts| > 1 {
      JoinSnoc(parts[1..], x, sep);
      assert (parts + [x])[1..] == parts[1..] + [x];
    }
  }

  /** A character in neither the parts nor the separator is not in their join. */
  lemma {:induction false} JoinFree(parts: seq<string>, sep: string, ch: char)
    requires ch !in sep && forall i :: 0 <= i < |parts| ==> ch !in parts[i]
    ensures ch !in Join(parts, sep)
  {
    if |parts| > 1 {
      JoinFree(parts[1..], sep, ch);
    }
  }

  lemma {:induction false} OccurrencesAppend(s: string, t: string, ch: char)
    ensures Occurrences(s + t, ch) == Occurrences(s, ch) + Occurrences(t, ch)
  {
    if s == [] {
      assert s + t == t;
    } else {
      OccurrencesAppend(s[1..], t, ch);
      assert (s + t)[1..] == s[1..] + t;
    }
  }

  /** Joining with a one-character separator adds one occurrence of it per gap. */
  lemma {:induction false} JoinOccurrences(parts: seq<string>, ch: char)
    requires parts != []
    ensures Occurrences(Join(parts, [ch]), ch) >= |parts| - 1 + Occurrences(parts[|parts| - 1], ch)
  {
    if |parts| > 1 {
      var rest := parts[1..];
      JoinOccurrences(rest, ch);
      OccurrencesAppend(parts[0] + [ch], Join(rest, [ch]), ch);
      OccurrencesAppend(parts[0], [ch], ch);
      assert Join(parts, [ch]) == (parts[0] + [ch]) + Join(rest, [ch]);
    }
  }

  lemma {:induction false} OccurrencesPositive(s: string, ch: char)
    requires ch in s
    ensures Occurrences(s, ch) >= 1
  {
    if s[0] != ch {
      OccurrencesPositive(s[1..], ch);
    }
  }

  /** Python's `str.isspace()` on one character: the ASCII controls TAB to CR and FS to US,
      the space, and the Unicode white space (NEL, NO-BREAK SPACE, OGHAM SPACE MARK, the
      spaces EN QUAD to HAIR SPACE, the line and paragraph separators, NARROW NO-BREAK SPACE,
      MEDIUM MATHEMATICAL SPACE and IDEOGRAPHIC SPACE). */
  predicate IsSpace(c: char) {
    || ('\t' <= c <= '\r')
    || ('\U{001C}' <= c <= '\U{001F}')
    || c == ' ' || c == '\U{0085}' || c == '\U{00A0}' || c == '\U{1680}'
    || ('\U{2000}' <= c <= '\U{200A}')
    || c == '\U{2028}' || c == '\U{2029}' || c == '\U{202F}' || c == '\U{205F}' || c == '\U{3000}'
  }

  /** IDEOGRAPHIC SPACE and NO-BREAK SPACE are stripped like the ASCII space; a digit is not. */
  lemma UnicodeSpaces()
    ensures IsSpace('\U{3000}') && IsSpace('\U{00A0}') && IsSpace('\t') && !IsSpace('0')
    ensures Strip(['\U{3000}', '1', '5', ':', '0', '0']) == "15:00"
  {
    var s := ['\U{3000}', '1', '5', ':', '0', '0'];
    assert s[1..] == "15:00";
    TrimLeftNoop(s[1..]);
    TrimRightNoop("15:00");
  }

  function TrimLeft(s: string): (r: string)
    ensures |r| <= |s| && r == s[|s| - |r|..]
    ensures r == [] || !IsSpace(r[0])
    decreases |s|
  {
    if s != [] && IsSpace(s[0]) then TrimLeft(s[1..]) else s
  }

  function TrimRight(s: string): (r: string)
    ensures |r| <= |s| && r == s[..|r|]
    ensures r == [] || !IsSpace(r[|r| - 1])
    decreases |s|
  {
    if s != [] && IsSpace(s[|s| - 1]) then TrimRight(s[..|s| - 1]) else s
  }

  /** Python's `str.strip()` with no argument. */
  function Strip(s: string): string
  {
    TrimRight(TrimLeft(s))
  }

  lemma TrimLeftNoop(s: string)
    requires s == [] || !IsSpace(s[0])
    ensures TrimLeft(s) == s
  {
  }

  lemma TrimRightNoop(s: string)
    requires s == [] || !IsSpace(s[|s| - 1])
    ensures TrimRight(s) == s
  {
  }

  lemma StripEnds(s: string)
    ensures Strip(s) == [] || (!IsSpace(Strip(s)[0]) && !IsSpace(Strip(s)[|Strip(s)| - 1]))
  {
    var l := TrimLeft(s);
    var r := TrimRight(l);
    assert r == l[..|r|];
    if r != [] {
      assert r[0] == l[0];
    }
  }

  lemma StripSlice(s: string)
    ensures |s| - |TrimLeft(s)| + |Strip(s)| <= |s|
    ensures s[|s| - |TrimLeft(s)|..|s| - |TrimLeft(s)| + |Strip(s)|] == Strip(s)
  {
    var l := TrimLeft(s);
    var r := TrimRight(l);
    var k := |s| - |l|;
    assert l == s[k..];
    assert r == l[..|r|];
    assert |r| <= |l| && k + |r| <= |s|;
    assert s[k..k + |r|] == s[k..][..|r|];
  }

  /** The stripped string has no surrounding white space, is a contiguous piece of the input,
      and stripping it again changes nothing. */
  lemma StripProps(s: string)
    ensures Strip(s) == [] || !IsSpace(Strip(s)[0])
    ensures Strip(s) == [] || !IsSpace(Strip(s)[|Strip(s)| - 1])
    ensures |s| - |TrimLeft(s)| + |Strip(s)| <= |s|
    ensures s[|s| - |TrimLeft(s)|..|s| - |TrimLeft(s)| + |Strip(s)|] == Strip(s)
    ensures Strip(Strip(s)) == Strip(s)
  {
    StripEnds(s);
    StripSlice(s);
    var r := Strip(s);
    TrimLeftNoop(r);
    TrimRightNoop(r);
  }

  function DigitChar(d: nat): char
    requires d < 10
  {
    "0123456789"[d]
  }

  /** Decimal rendering of a natural number, as `str(n)` and template literals do. */
  function NatToString(n: nat): (r: string)
    ensures |r| >= 1
    ensures (|r| == 1) == (n < 10)
  {
    if n < 10 then [DigitChar(n)] else NatToString(n / 10) + [DigitChar(n % 10)]
  }

  /** A decimal rendering holds digits only. */
  lemma {:induction false} NatToStringDigitsOnly(n: nat, ch: char)
    requires ch !in "0123456789"
    ensures ch !in NatToString(n)
  {
    if n >= 10 {
      NatToStringDigitsOnly(n / 10, ch);
    }
  }

  /** Decimal rendering of an integer, with a leading '-' when negative. */
  function IntToString(n: int): string
  {
    if n < 0 then "-" + NatToString(-n) else NatToString(n)
  }

  lemma DigitCharInjective(d: nat, e: nat)
    requires d < 10 && e < 10 && DigitChar(d) == DigitChar(e)
    ensures d == e
  {
  }

  /** Different numbers render differently. */
  lemma {:induction false} NatToStringInjective(a: nat, b: nat)
    requires NatToString(a) == NatToString(b)
    ensures a == b
  {
    var ra, rb := NatToString(a), NatToString(b);
    if a < 10 && b < 10 {
      DigitCharInjective(a, b);
    } else if a >= 10 && b >= 10 {
      assert ra == NatToString(a / 10) + [DigitChar(a % 10)];
      assert rb == NatToString(b / 10) + [DigitChar(b % 10)];
      assert ra[..|ra| - 1] == NatToString(a / 10);
      assert rb[..|rb| - 1] == NatToString(b / 10);
      assert ra[|ra| - 1] == DigitChar(a % 10) && rb[|rb| - 1] == DigitChar(b % 10);
      DigitCharInjective(a % 10, b % 10);
      NatToStringInjective(a / 10, b / 10);
    }
  }

  /** Two digits with a leading zero: Python's `f"{n:02d}"` for 0 <= n < 100. */
  function Pad2(n: nat): (r: string)
    requires n < 100
    ensures |r| == 2
  {
    [DigitChar(n / 10), DigitChar(n % 10)]
  }

  /** Appending the same prefix keeps strings apart. */
  lemma PrefixCancel(p: string, a: string, b: string)
    requires p + a == p + b
    ensures a == b
  {
    assert a == (p + a)[|p|..];
    assert b == (p + b)[|p|..];
  }

  lemma SuffixCancel(a: string, b: string, t: string)
    requires a + t == b + t
    ensures a == b
  {
    assert a == (a + t)[..|a|];
    assert b == (b + t)[..|b|];
  }

  /** In `h + t` with `t` starting with `mark` and `h` free of it, the first `mark` sits
      right after `h`. */
  lemma FirstMark(h: string, t: string, mark: char)
    requires mark !in h && |t| > 0 && t[0] == mark
    ensures (h + t)[|h|] == mark
    ensures forall i :: 0 <= i < |h| ==> (h + t)[i] != mark
  {
    forall i | 0 <= i < |h| ensures (h + t)[i] != mark {
      assert (h + t)[i] == h[i];
    }
  }

  /** Splitting at the first occurrence of a separator that the heads do not contain is
      unambiguous. */
  lemma SplitAtMark(h1: string, t1: string, h2: string, t2: string, mark: char)
    requires mark !in h1 && mark !in h2
    requires |t1| > 0 && |t2| > 0 && t1[0] == mark && t2[0] == mark
    requires h1 + t1 == h2 + t2
    ensures h1 == h2 && t1 == t2
  {
    var s := h1 + t1;
    FirstMark(h1, t1, mark);
    FirstMark(h2, t2, mark);
    assert |h1| == |h2|;
    assert h1 == s[..|h1|] && h2 == (h2 + t2)[..|h2|];
    assert t1 == s[|h1|..] && t2 == (h2 + t2)[|h2|..];
  }
}
