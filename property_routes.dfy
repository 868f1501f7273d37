/** The property endpoints: filtered and paginated listing, the city list, the summary
    statistics and the status toggle. */
module PropertyRoutes {
  import opened Common
  import opened Database

  // ---------------------------------------------------------------- listing

  function CityOf(p: PropertyRow): string { p.listing.city }

  function IsActive(p: PropertyRow): bool { p.isActive }

  /** The search query (already lower-cased) is in the lower-cased title, city or
      description. */
  predicate Matches(p: PropertyRow, query: string) {
    || Contains(Lower(p.listing.title), query)
    || Contains(Lower(p.listing.city), query)
    || Contains(Lower(p.listing.description), query)
  }

  /** `if city:` keep the properties whose city equals it, ignoring case. */
  function ByCity(ps: seq<PropertyRow>, city: string): seq<PropertyRow> {
    if city == "" then ps else Filter(ps, (p: PropertyRow) => Lower(p.listing.city) == Lower(city))
  }

  /** `if status:` only 'active' and 'inactive' filter; any other value keeps everything. */
  function ByStatus(ps: seq<PropertyRow>, status: string): seq<PropertyRow> {
    if status == "active" then Filter(ps, IsActive)
    else if status == "inactive" then Filter(ps, (p: PropertyRow) => !p.isActive)
    else ps
  }

  /** `if search:` keep the properties the lower-cased query matches. */
  function BySearch(ps: seq<PropertyRow>, search: string): seq<PropertyRow> {
    if search == "" then ps else Filter(ps, (p: PropertyRow) => Matches(p, Lower(search)))
  }

  /** The three filters in the order `get_properties` applies them; an absent query
      parameter is the empty string. */
  function Filtered(ps: seq<PropertyRow>, city: string, status: string, search: string): seq<PropertyRow> {
    BySearch(ByStatus(ByCity(ps, city), status), search)
  }

  /** What the filters keep, stated on one property. */
  predicate Kept(p: PropertyRow, city: string, status: string, search: string) {
    && (city == "" || Lower(p.listing.city) == Lower(city))
    && (status == "active" ==> p.isActive)
    && (status == "inactive" ==> !p.isActive)
    && (search == "" || Matches(p, Lower(search)))
  }

  /** A property is listed exactly when it is one of the input and passes every given
      filter. */
  lemma FilteredMembers(ps: seq<PropertyRow>, city: string, status: string, search: string)
    ensures forall p :: p in Filtered(ps, city, status, search) <==> p in ps && Kept(p, city, status, search)
  {
    var a := ByCity(ps, city);
    var b := ByStatus(a, status);
    if city != "" { FilterMembers(ps, (p: PropertyRow) => Lower(p.listing.city) == Lower(city)); }
    if status == "active" { FilterMembers(a, IsActive); }
    if status == "inactive" { FilterMembers(a, (p: PropertyRow) => !p.isActive); }
    if search != "" { FilterMembers(b, (p: PropertyRow) => Matches(p, Lower(search))); }
  }

  /** Filtering only drops properties: the result keeps the input's order. */
  lemma FilteredSubseq(ps: seq<PropertyRow>, city: string, status: string, search: string)
    ensures Subseq(Filtered(ps, city, status, search), ps)
  {
    var a := ByCity(ps, city);
    var b := ByStatus(a, status);
    var c := BySearch(b, search);
    if city != "" { FilterIsSubseq(ps, (p: PropertyRow) => Lower(p.listing.city) == Lower(city)); } else { SubseqRefl(ps); }
    if status == "active" { FilterIsSubseq(a, IsActive); }
    else if status == "inactive" { FilterIsSubseq(a, (p: PropertyRow) => !p.isActive); }
    else { SubseqRefl(a); }
    if search != "" { FilterIsSubseq(b, (p: PropertyRow) => Matches(p, Lower(search))); } else { SubseqRefl(b); }
    SubseqTrans(b, a, ps);
    SubseqTrans(c, b, ps);
  }

  /** A status other than 'active' and 'inactive' is ignored. */
  lemma UnknownStatusIgnored(ps: seq<PropertyRow>, city: string, status: string, search: string)
    requires status != "active" && status != "inactive"
    ensures Filtered(ps, city, status, search) == Filtered(ps, city, "", search)
  {
  }

  /** The `pagination` object of the response. */
  datatype Pagination = Pagination(page: nat, limit: nat, total: nat, pages: nat)

  /** The response of `GET /`; a `page` below 1 or a `limit` outside 1..100 fails the query
      validation. */
  datatype PropertyPage = PropertyPage(properties: seq<PropertyRow>, pagination: Pagination) | InvalidQuery

  /** `get_properties(page, limit, city, status, search)` over the rows it read. */
  function GetProperties(ps: seq<PropertyRow>, page: int, limit: int, city: string, status: string, search: string): PropertyPage {
    if page < 1 || limit < 1 || limit > 100 then InvalidQuery
    else
      var filtered := Filtered(ps, city, status, search);
      var total := |filtered|;
      var start := PageStart(page, limit);
      PropertyPage(PySlice(filtered, start, start + limit), Pagination(page, limit, total, (total + limit - 1) / limit))
  }

  /** The offset of a page's first property. */
  function PageStart(page: int, limit: int): (r: nat)
    requires page >= 1 && limit >= 1
    ensures r == (page - 1) * limit
  {
    MulMonotone(0, page - 1, limit);
    (page - 1) * limit
  }

  /** The page is the slice `[(page - 1) * limit, page * limit)` of the filtered list, cut at
      its end; it holds at most `limit` properties and is empty exactly when it starts at or
      past the end. */
  lemma PageSlice(ps: seq<PropertyRow>, page: int, limit: int, city: string, status: string, search: string)
    requires page >= 1 && 1 <= limit <= 100
    ensures var r := GetProperties(ps, page, limit, city, status, search);
      var filtered := Filtered(ps, city, status, search);
      var start := (page - 1) * limit;
      && r.PropertyPage?
      && r.pagination.total == |filtered|
      && |r.properties| <= limit
      && (start < |filtered| ==> r.properties == filtered[start..Min(start + limit, |filtered|)])
      && (r.properties == [] <==> start >= |filtered|)
  {
  }

  /** `pages` is the ceiling of `total / limit`: the fewest pages that hold every property. */
  lemma PagesCeiling(total: nat, limit: nat)
    requires 1 <= limit
    ensures var pages := (total + limit - 1) / limit;
      && pages * limit >= total
      && (pages > 0 ==> (pages - 1) * limit < total)
      && (pages == 0 <==> total == 0)
  {
    var pages := (total + limit - 1) / limit;
    var rem := (total + limit - 1) % limit;
    assert total + limit - 1 == pages * limit + rem;
  }

  /** A page has properties exactly when its number is at most `pages`. */
  lemma PageNonEmpty(ps: seq<PropertyRow>, page: int, limit: int, city: string, status: string, search: string)
    requires page >= 1 && 1 <= limit <= 100
    ensures var r := GetProperties(ps, page, limit, city, status, search);
      r.properties != [] <==> page <= r.pagination.pages
  {
    var r := GetProperties(ps, page, limit, city, status, search);
    var total := r.pagination.total;
    var pages := r.pagination.pages;
    PageSlice(ps, page, limit, city, status, search);
    PagesCeiling(total, limit);
    PageStartInRange(page, pages, total, limit);
  }

  /** With `pages` the ceiling of `total / limit`, page `page` starts before the end exactly
      when `page <= pages`. */
  lemma PageStartInRange(page: nat, pages: nat, total: nat, limit: nat)
    requires page >= 1 && limit >= 1
    requires pages * limit >= total && (pages > 0 ==> (pages - 1) * limit < total) && (pages == 0 <==> total == 0)
    ensures (page - 1) * limit < total <==> page <= pages
  {
    if page <= pages {
      MulMonotone(page - 1, pages - 1, limit);
    } else {
      MulMonotone(pages, page - 1, limit);
    }
  }

  lemma MulMonotone(a: nat, b: nat, c: nat)
    requires a <= b
    ensures a * c <= b * c
  {
  }

  /** Over the rows `get_all_properties` returns, all active, the 'inactive' filter leaves
      nothing. */
  lemma InactiveNeverListed(rows: seq<PropertyRow>, page: int, limit: int, city: string, search: string)
    requires page >= 1 && 1 <= limit <= 100
    ensures var r := GetProperties(ActiveWindow(rows, 1000, 0), page, limit, city, "inactive", search);
      r.properties == [] && r.pagination.total == 0
  {
    ActiveWindowProps(rows, 1000, 0);
    InactiveFilteredEmpty(ActiveWindow(rows, 1000, 0), city, search);
    PageSlice(ActiveWindow(rows, 1000, 0), page, limit, city, "inactive", search);
  }

  lemma InactiveFilteredEmpty(ps: seq<PropertyRow>, city: string, search: string)
    requires forall p :: p in ps ==> p.isActive
    ensures Filtered(ps, city, "inactive", search) == []
  {
    FilteredMembers(ps, city, "inactive", search);
  }

  // ---------------------------------------------------------------- cities

  /** Python's `<` on strings: code point by code point, a proper prefix first. */
  predicate LexLess(a: string, b: string)
    decreases |a|
  {
    if a == [] then b != []
    else if b == [] then false
    else if a[0] != b[0] then a[0] < b[0]
    else LexLess(a[1..], b[1..])
  }

  lemma {:induction false} LexIrreflexive(a: string)
    ensures !LexLess(a, a)
  {
    if a != [] {
      LexIrreflexive(a[1..]);
    }
  }

  lemma {:induction false} LexTotal(a: string, b: string)
    requires a != b
    ensures LexLess(a, b) || LexLess(b, a)
  {
    if a != [] && b != [] && a[0] == b[0] {
      assert a == [a[0]] + a[1..] && b == [b[0]] + b[1..];
      LexTotal(a[1..], b[1..]);
    }
  }

  lemma {:induction false} LexTransitive(a: string, b: string, c: string)
    requires LexLess(a, b) && LexLess(b, c)
    ensures LexLess(a, c)
  {
    if a != [] && a[0] == b[0] && b[0] == c[0] {
      LexTransitive(a[1..], b[1..], c[1..]);
    }
  }

  predicate StrictlySorted(s: seq<string>) {
    forall i, j :: 0 <= i < j < |s| ==> LexLess(s[i], s[j])
  }

  /** Inserting into a strictly sorted list of distinct strings, skipping one already there. */
  function InsertCity(c: string, s: seq<string>): seq<string> {
    if s == [] then [c]
    else if c == s[0] then s
    else if LexLess(c, s[0]) then [c] + s
    else [s[0]] + InsertCity(c, s[1..])
  }

  lemma {:induction false} InsertCityProps(c: string, s: seq<string>)
    requires StrictlySorted(s)
    ensures StrictlySorted(InsertCity(c, s))
    ensures forall x :: x in InsertCity(c, s) <==> x == c || x in s
  {
    if s != [] && c != s[0] && !LexLess(c, s[0]) {
      var t := s[1..];
      assert StrictlySorted(t) by {
        forall i, j | 0 <= i < j < |t| ensures LexLess(t[i], t[j]) {
          assert t[i] == s[i + 1] && t[j] == s[j + 1];
        }
      }
      InsertCityProps(c, t);
      LexTotal(c, s[0]);
      var r := InsertCity(c, t);
      forall j | 0 <= j < |r| ensures LexLess(s[0], r[j]) {
        assert r[j] in r;
        if r[j] != c {
          var k :| 0 <= k < |t| && t[k] == r[j];
          assert s[k + 1] == r[j];
        }
      }
    } else if s != [] && c != s[0] {
      forall j | 0 <= j < |s| ensures LexLess(c, s[j]) {
        if j > 0 {
          LexTransitive(c, s[0], s[j]);
        }
      }
    }
  }

  /** The non-empty cities of the properties, distinct and sorted (`list(set(...))` then
      `sort()`), accumulated one property at a time. */
  function CitiesList(ps: seq<PropertyRow>): seq<string> {
    if ps == [] then []
    else
      var rest := CitiesList(ps[..|ps| - 1]);
      var c := CityOf(ps[|ps| - 1]);
      if c == "" then rest else InsertCity(c, rest)
  }

  /** The list is strictly sorted, so free of repeats, and holds exactly the non-empty
      cities. */
  lemma {:induction false} CitiesListProps(ps: seq<PropertyRow>)
    ensures StrictlySorted(CitiesList(ps))
    ensures forall c :: c in CitiesList(ps) <==> c != "" && exists i :: 0 <= i < |ps| && CityOf(ps[i]) == c
  {
    if ps != [] {
      var n := |ps| - 1;
      CitiesListProps(ps[..n]);
      var c := CityOf(ps[n]);
      if c != "" {
        InsertCityProps(c, CitiesList(ps[..n]));
      }
      forall x ensures x in CitiesList(ps) <==> x != "" && exists i :: 0 <= i < |ps| && CityOf(ps[i]) == x {
        if x != "" && exists i :: 0 <= i < |ps| && CityOf(ps[i]) == x {
          var i :| 0 <= i < |ps| && CityOf(ps[i]) == x;
          if i < n {
            assert CityOf(ps[..n][i]) == x;
          }
        }
        if x in CitiesList(ps[..n]) {
          var i :| 0 <= i < n && CityOf(ps[..n][i]) == x;
          assert CityOf(ps[i]) == x;
        }
      }
    }
  }

  /** A strictly sorted list is fixed by its elements, so the list does not depend on the
      order in which the set of cities is walked. */
  lemma {:induction false} SortedUnique(s: seq<string>, t: seq<string>)
    requires StrictlySorted(s) && StrictlySorted(t)
    requires forall x :: x in s <==> x in t
    ensures s == t
  {
    if s != [] {
      assert s[0] in t;
    }
    if t != [] {
      assert t[0] in s;
    }
    if s != [] && t != [] {
      if s[0] != t[0] {
        var i :| 0 <= i < |t| && t[i] == s[0];
        var j :| 0 <= j < |s| && s[j] == t[0];
        LexTransitive(s[0], s[j], s[0]);
        LexIrreflexive(s[0]);
      }
      var s', t' := s[1..], t[1..];
      assert StrictlySorted(s') by {
        forall i, j | 0 <= i < j < |s'| ensures LexLess(s'[i], s'[j]) {
          assert s'[i] == s[i + 1] && s'[j] == s[j + 1];
        }
      }
      assert StrictlySorted(t') by {
        forall i, j | 0 <= i < j < |t'| ensures LexLess(t'[i], t'[j]) {
          assert t'[i] == t[i + 1] && t'[j] == t[j + 1];
        }
      }
      forall x ensures x in s' <==> x in t' {
        NotHeadAfter(s, x);
        NotHeadAfter(t, x);
      }
      SortedUnique(s', t');
      assert s == [s[0]] + s' && t == [t[0]] + t';
    }
  }

  /** In a strictly sorted list the head does not occur again. */
  lemma NotHeadAfter(s: seq<string>, x: string)
    requires StrictlySorted(s) && s != []
    ensures x in s[1..] <==> x in s && x != s[0]
  {
    if x in s[1..] {
      var k :| 0 <= k < |s| - 1 && s[1..][k] == x;
      assert s[k + 1] == x;
      if x == s[0] {
        LexIrreflexive(x);
      }
    }
    if x in s && x != s[0] {
      var k :| 0 <= k < |s| && s[k] == x;
      assert s[1..][k - 1] == x;
    }
  }

  // ---------------------------------------------------------------- summary

  /** The `{'total', 'active'}` counters of one city. */
  datatype CityCount = CityCount(total: nat, active: nat)

  datatype PriceRanges = PriceRanges(under100k: nat, from100kTo200k: nat, from200kTo300k: nat, over300k: nat)

  /** The response of `GET /stats/summary`. */
  datatype Summary = Summary(total: nat, active: nat, inactive: int, cityStats: seq<(string, CityCount)>, priceRanges: PriceRanges)

  /** The bucket of a nightly price: below 100000, below 200000, below 300000, or above. */
  function Bucket(price: int): nat {
    if price < 100000 then 0 else if price < 200000 then 1 else if price < 300000 then 2 else 3
  }

  function InBucket0(p: PropertyRow): bool { Bucket(p.listing.pricePerNight) == 0 }
  function InBucket1(p: PropertyRow): bool { Bucket(p.listing.pricePerNight) == 1 }
  function InBucket2(p: PropertyRow): bool { Bucket(p.listing.pricePerNight) == 2 }
  function InBucket3(p: PropertyRow): bool { Bucket(p.listing.pricePerNight) == 3 }

  function PriceRangesOf(ps: seq<PropertyRow>): PriceRanges {
    PriceRanges(Count(ps, InBucket0), Count(ps, InBucket1), Count(ps, InBucket2), Count(ps, InBucket3))
  }

  /** The per-city counters, in first-appearance order of the cities. */
  function CityCounts(b: seq<(string, Tally)>): (r: seq<(string, CityCount)>)
    ensures |r| == |b| && forall i :: 0 <= i < |b| ==> r[i] == (b[i].0, CityCount(b[i].1.posts, b[i].1.success))
  {
    seq(|b|, i requires 0 <= i < |b| => (b[i].0, CityCount(b[i].1.posts, b[i].1.success)))
  }

  function SummaryOf(ps: seq<PropertyRow>): Summary {
    var active := Count(ps, IsActive);
    Summary(|ps|, active, |ps| - active, CityCounts(Tallies(ps, CityOf, IsActive)), PriceRangesOf(ps))
  }

  /** `get_properties_summary` over the rows it read: the active list, the city loop and the
      price loop. */
  method GetPropertiesSummary(ps: seq<PropertyRow>) returns (r: Summary)
    ensures r == SummaryOf(ps)
  {
    var active := Filter(ps, IsActive);
    var cities := TallyLoop(ps, CityOf, IsActive);
    var under100k, from100kTo200k, from200kTo300k, over300k := 0, 0, 0, 0;
    for i := 0 to |ps|
      invariant under100k == Count(ps[..i], InBucket0)
      invariant from100kTo200k == Count(ps[..i], InBucket1)
      invariant from200kTo300k == Count(ps[..i], InBucket2)
      invariant over300k == Count(ps[..i], InBucket3)
    {
      var price := ps[i].listing.pricePerNight;
      BucketStep(ps, i);
      if price < 100000 {
        under100k := under100k + 1;
      } else if price < 200000 {
        from100kTo200k := from100kTo200k + 1;
      } else if price < 300000 {
        from200kTo300k := from200kTo300k + 1;
      } else {
        over300k := over300k + 1;
      }
    }
    assert ps[..|ps|] == ps;
    r := Summary(|ps|, |active|, |ps| - |active|, CityCounts(cities),
                 PriceRanges(under100k, from100kTo200k, from200kTo300k, over300k));
  }

  /** One more property adds one to its own bucket's count only. */
  lemma BucketStep(ps: seq<PropertyRow>, i: nat)
    requires i < |ps|
    ensures Count(ps[..i + 1], InBucket0) == Count(ps[..i], InBucket0) + (if InBucket0(ps[i]) then 1 else 0)
    ensures Count(ps[..i + 1], InBucket1) == Count(ps[..i], InBucket1) + (if InBucket1(ps[i]) then 1 else 0)
    ensures Count(ps[..i + 1], InBucket2) == Count(ps[..i], InBucket2) + (if InBucket2(ps[i]) then 1 else 0)
    ensures Count(ps[..i + 1], InBucket3) == Count(ps[..i], InBucket3) + (if InBucket3(ps[i]) then 1 else 0)
  {
    assert ps[..i + 1] == ps[..i] + [ps[i]];
    CountAppend(ps[..i], [ps[i]], InBucket0);
    CountAppend(ps[..i], [ps[i]], InBucket1);
    CountAppend(ps[..i], [ps[i]], InBucket2);
    CountAppend(ps[..i], [ps[i]], InBucket3);
    assert [ps[i]][1..] == [];
  }

  /** Every property falls in exactly one price bucket, so the four counts add up to the
      total; inactive is total minus active, never negative. */
  lemma SummaryCounts(ps: seq<PropertyRow>)
    ensures var r := SummaryOf(ps);
      && r.priceRanges.under100k + r.priceRanges.from100kTo200k + r.priceRanges.from200kTo300k + r.priceRanges.over300k == r.total
      && 0 <= r.inactive == r.total - r.active
  {
    var low := (p: PropertyRow) => Bucket(p.listing.pricePerNight) <= 1;
    var high := (p: PropertyRow) => Bucket(p.listing.pricePerNight) >= 2;
    var any := (p: PropertyRow) => true;
    CountSplit(ps, InBucket0, InBucket1, low);
    CountSplit(ps, InBucket2, InBucket3, high);
    CountSplit(ps, low, high, any);
    CountAll(ps, any);
  }

  /** One city entry per city, each counting its properties and the active ones among them. */
  lemma SummaryCities(ps: seq<PropertyRow>)
    ensures var r := SummaryOf(ps);
      && Distinct(Keys(r.cityStats))
      && (forall c :: c in Keys(r.cityStats) <==> exists i :: 0 <= i < |ps| && CityOf(ps[i]) == c)
      && (forall i :: 0 <= i < |r.cityStats| ==>
            && r.cityStats[i].1.total == CountKey(ps, CityOf, r.cityStats[i].0) > 0
            && r.cityStats[i].1.active == CountKeyOk(ps, CityOf, IsActive, r.cityStats[i].0, true)
            && r.cityStats[i].1.active <= r.cityStats[i].1.total)
  {
    var b := Tallies(ps, CityOf, IsActive);
    TalliesPartition(ps, CityOf, IsActive);
    assert Keys(CityCounts(b)) == Keys(b);
    forall i | 0 <= i < |b|
      ensures b[i].1.posts == CountKey(ps, CityOf, b[i].0) > 0
      ensures b[i].1.success == CountKeyOk(ps, CityOf, IsActive, b[i].0, true)
    {
      TalliesEntry(ps, CityOf, IsActive, i);
    }
  }

  // ---------------------------------------------------------------- toggle

  /** The response of `POST /{id}/toggle`. */
  datatype ToggleResult = NotFound | Toggled(message: string, propertyId: string, isActive: bool)

  /** The two messages of the f-string `숙소가 {'활성화' if ... else '비활성화'}되었습니다.`. */
  const ActivatedMessage: string := "숙소가 활성화되었습니다."
  const DeactivatedMessage: string := "숙소가 비활성화되었습니다."

  function ToggleOf(row: Option<PropertyRow>, id: string): ToggleResult {
    match row
    case None => NotFound
    case Some(p) =>
      var now := !p.isActive;
      Toggled(if now then ActivatedMessage else DeactivatedMessage, id, now)
  }

  /** `toggle_property(id)`: reads the row, answers with the flipped flag and writes nothing
      back. */
  method ToggleProperty(store: Store, id: string) returns (r: ToggleResult)
    ensures r == ToggleOf(Lookup(store.properties, id), id)
  {
    var row := store.GetProperty(id);
    r := ToggleOf(row, id);
  }

  /** A missing id is 404; otherwise the answer is the negation of the stored flag with the
      matching message. Nothing is stored, so toggling again answers the same. */
  lemma ToggleProps(ps: seq<PropertyRow>, id: string)
    ensures var r := ToggleOf(Lookup(ps, id), id);
      && (r.NotFound? <==> !HasId(ps, id))
      && (r.Toggled? ==> r.isActive == !Lookup(ps, id).value.isActive && r.propertyId == id)
      && (r.Toggled? ==> r.message == if r.isActive then ActivatedMessage else DeactivatedMessage)
  {
  }
}
