/** `AirbnbScraper`: the collection of mock listings, five per city over the scraper's city
    table, truncated to the caller's limit, and the keyword search over a collection. The
    random fields of a mock listing are drawn by a parameter; the pauses between cities and
    the logging are left out. */
module Scraper {
  import opened Common
  import opened Database

  /** A city of the scraper's table with its centre coordinates. */
  datatype Place = Place(name: string, lat: real, lng: real)

  /** `self.korean_cities`, in its insertion order. */
  const ScraperCities: seq<Place> := [
    Place("서울", 37.5665, 126.9780),
    Place("부산", 35.1796, 129.0756),
    Place("인천", 37.4563, 126.7052),
    Place("대구", 35.8714, 128.6014),
    Place("대전", 36.3504, 127.3845),
    Place("광주", 35.1595, 126.8526),
    Place("울산", 35.5384, 129.3114),
    Place("세종", 36.4800, 127.2890),
    Place("제주", 33.4996, 126.5312),
    Place("수원", 37.2636, 127.0286),
    Place("고양", 37.6584, 126.8320),
    Place("용인", 37.2411, 127.1776),
    Place("성남", 37.4201, 127.1267),
    Place("부천", 37.5034, 126.7660),
    Place("화성", 37.1995, 126.8314)]

  /** How many listings `get_korean_properties` asks for per city. */
  const CityBatch: int := 5

  const PropertyTypes: seq<string> := [
    "아파트", "단독주택", "콘도", "펜션", "게스트하우스", "호텔", "리조트", "빌라", "타운하우스", "로프트"]

  const Amenities: seq<string> := [
    "무료 WiFi", "주차장", "에어컨", "세탁기", "주방", "TV", "헤어드라이어", "다리미", "전자레인지", "냉장고"]

  const TitleMiddle: string := " 중심가의 아름다운 "
  const DescriptionTail: string := "의 핫한 관광지 근처에 위치한 편리한 숙소입니다. 모든 편의시설이 갖춰져 있어 편안한 여행을 즐기실 수 있습니다."

  /** The random values of one mock listing, in the order the source draws them; the
      ratings are already rounded to one decimal. */
  datatype Draw = Draw(
    titleType: string,
    latOffset: real,
    lngOffset: real,
    price: int,
    propertyType: string,
    maxGuests: int,
    bedrooms: int,
    bathrooms: int,
    amenities: seq<string>,
    rating: real,
    reviewCount: int,
    hostNumber: nat,
    hostRating: real,
    minNights: int,
    maxNights: int,
    roomNumber: nat)

  /** The ranges the source draws from. */
  predicate ValidDraw(d: Draw) {
    && d.titleType in PropertyTypes && d.propertyType in PropertyTypes
    && -0.01 <= d.latOffset <= 0.01 && -0.01 <= d.lngOffset <= 0.01
    && 50000 <= d.price <= 200000
    && 2 <= d.maxGuests <= 8 && 1 <= d.bedrooms <= 4 && 1 <= d.bathrooms <= 3
    && 3 <= |d.amenities| <= 8 && Distinct(d.amenities)
    && (forall j :: 0 <= j < |d.amenities| ==> d.amenities[j] in Amenities)
    && 4.0 <= d.rating <= 5.0 && 10 <= d.reviewCount <= 200
    && 1 <= d.hostNumber <= 100 && 4.5 <= d.hostRating <= 5.0
    && 1 <= d.minNights <= 3 && 7 <= d.maxNights <= 30
    && 100000 <= d.roomNumber <= 999999
  }

  /** The draws of the `i`-th listing generated for a city. */
  type Random = (string, nat) -> Draw

  /** `f"airbnb_{city_name}_{i+1}"`. */
  function MockId(city: string, i: nat): string {
    "airbnb_" + city + "_" + NatToString(i + 1)
  }

  /** `f"https://example.com/image_{i+1}_{k}.jpg"`. */
  function ImageUrl(i: nat, k: nat): string {
    "https://example.com/image_" + NatToString(i + 1) + "_" + NatToString(k) + ".jpg"
  }

  /** The `i`-th mock listing of a city; both timestamps are the moment of generation. */
  function MockProperty(place: Place, i: nat, d: Draw, now: nat): PropertyInput {
    PropertyInput(
      Some(MockId(place.name, i)),
      Listing(
        place.name + TitleMiddle + d.titleType,
        place.name + DescriptionTail,
        place.name,
        place.lat + d.latOffset,
        place.lng + d.lngOffset,
        d.price,
        d.propertyType,
        d.maxGuests,
        d.bedrooms,
        d.bathrooms,
        d.amenities,
        d.rating,
        d.reviewCount,
        "호스트" + NatToString(d.hostNumber),
        d.hostRating,
        [ImageUrl(i, 1), ImageUrl(i, 2), ImageUrl(i, 3)],
        JObj([("check_in", JStr("15:00")), ("check_out", JStr("11:00")),
              ("min_nights", JInt(d.minNights)), ("max_nights", JInt(d.maxNights))]),
        "https://airbnb.com/rooms/" + NatToString(d.roomNumber)),
      Some(now),
      Some(now))
  }

  /** `range(limit)` has no elements for a limit below one. */
  function RangeSize(limit: int): nat {
    if limit > 0 then limit else 0
  }

  /** The listings `_generate_mock_properties(city, lat, lng, limit)` returns. */
  function MockBatch(place: Place, limit: int, rnd: Random, now: nat): seq<PropertyInput> {
    seq(RangeSize(limit), i requires 0 <= i < RangeSize(limit) => MockProperty(place, i, rnd(place.name, i), now))
  }

  /** `_generate_mock_properties`: one listing per index, appended in order. */
  method GenerateMockProperties(place: Place, limit: int, rnd: Random, now: nat) returns (props: seq<PropertyInput>)
    ensures props == MockBatch(place, limit, rnd, now)
  {
    props := [];
    var i := 0;
    while i < limit
      invariant 0 <= i <= RangeSize(limit)
      invariant props == MockBatch(place, i, rnd, now)
    {
      props := props + [MockProperty(place, i, rnd(place.name, i), now)];
      i := i + 1;
    }
  }

  /** `_search_properties_in_city`: the city's mock listings (the generation cannot raise,
      so the handler's empty result does not arise). */
  method SearchPropertiesInCity(place: Place, limit: int, rnd: Random, now: nat) returns (props: seq<PropertyInput>)
    ensures props == MockBatch(place, limit, rnd, now)
  {
    props := [];
    var mock := GenerateMockProperties(place, limit, rnd, now);
    props := props + mock;
  }

  /** A batch has one listing per index, with the city's name, the numbered id and three
      image URLs. */
  lemma MockBatchProps(place: Place, limit: int, rnd: Random, now: nat)
    ensures var r := MockBatch(place, limit, rnd, now);
      && |r| == (if limit > 0 then limit else 0)
      && forall i :: 0 <= i < |r| ==>
           && r[i].id == Some(MockId(place.name, i))
           && r[i].listing.city == place.name
           && |r[i].listing.images| == 3
           && r[i].createdAt == Some(now) && r[i].scrapedAt == Some(now)
  {
    var r := MockBatch(place, limit, rnd, now);
    forall i | 0 <= i < |r|
      ensures && r[i].id == Some(MockId(place.name, i))
              && r[i].listing.city == place.name
              && |r[i].listing.images| == 3
              && r[i].createdAt == Some(now) && r[i].scrapedAt == Some(now)
    {
      assert r[i] == MockProperty(place, i, rnd(place.name, i), now);
    }
  }

  /** Within a city the ids are pairwise distinct. */
  lemma MockIdsDistinct(place: Place, limit: int, rnd: Random, now: nat)
    ensures var r := MockBatch(place, limit, rnd, now);
      forall i, j :: 0 <= i < j < |r| ==> r[i].id != r[j].id
  {
    var r := MockBatch(place, limit, rnd, now);
    forall i, j | 0 <= i < j < |r| ensures r[i].id != r[j].id {
      MockBatchProps(place, limit, rnd, now);
      MockIdInjective(place.name, i, place.name, j);
    }
  }

  /** For city names without '_', the id determines the city and the index. */
  lemma MockIdInjective(c1: string, i: nat, c2: string, j: nat)
    requires c1 == c2 || ('_' !in c1 && '_' !in c2)
    ensures MockId(c1, i) == MockId(c2, j) ==> c1 == c2 && i == j
  {
    if MockId(c1, i) == MockId(c2, j) {
      var t1 := NatToString(i + 1);
      var t2 := NatToString(j + 1);
      assert MockId(c1, i) == "airbnb_" + (c1 + ("_" + t1));
      assert MockId(c2, j) == "airbnb_" + (c2 + ("_" + t2));
      PrefixCancel("airbnb_", c1 + ("_" + t1), c2 + ("_" + t2));
      if c1 == c2 {
        PrefixCancel(c1, "_" + t1, "_" + t2);
      } else {
        SplitAtMark(c1, "_" + t1, c2, "_" + t2, '_');
      }
      PrefixCancel("_", t1, t2);
      NatToStringInjective(i + 1, j + 1);
    }
  }

  /** A drawn listing keeps the source's ranges: price, type, guests and amenities. */
  lemma MockPropertyRanges(place: Place, i: nat, d: Draw, now: nat)
    requires ValidDraw(d)
    ensures var l := MockProperty(place, i, d, now).listing;
      && 50000 <= l.pricePerNight <= 200000
      && l.propertyType in PropertyTypes
      && 2 <= l.maxGuests <= 8
      && 3 <= |l.amenities| <= 8 && Distinct(l.amenities)
      && forall j :: 0 <= j < |l.amenities| ==> l.amenities[j] in Amenities
  {
  }

  // ---------------------------------------------------------------- collection

  /** The listings of the cities in order, five per city. */
  function Collected(cities: seq<Place>, rnd: Random, now: nat): seq<PropertyInput>
  {
    if cities == [] then []
    else
      var n := |cities| - 1;
      Collected(cities[..n], rnd, now) + MockBatch(cities[n], CityBatch, rnd, now)
  }

  /** `get_korean_properties(limit)`: everything collected, then `[:limit]`. */
  function KoreanProperties(limit: int, rnd: Random, now: nat): seq<PropertyInput> {
    PyTake(Collected(ScraperCities, rnd, now), limit)
  }

  /** `get_korean_properties`: extends the list city by city and slices it at the end. */
  method GetKoreanProperties(limit: int, rnd: Random, now: nat) returns (props: seq<PropertyInput>)
    ensures props == KoreanProperties(limit, rnd, now)
  {
    var all: seq<PropertyInput> := [];
    var k := 0;
    while k < |ScraperCities|
      invariant 0 <= k <= |ScraperCities|
      invariant all == Collected(ScraperCities[..k], rnd, now)
    {
      var city := SearchPropertiesInCity(ScraperCities[k], CityBatch, rnd, now);
      assert ScraperCities[..k + 1][..k] == ScraperCities[..k];
      all := all + city;
      k := k + 1;
    }
    assert ScraperCities[..k] == ScraperCities;
    props := PyTake(all, limit);
  }

  /** Entry `5k + i` of the collection is the `i`-th listing of the `k`-th city. */
  lemma {:induction false} CollectedAt(cities: seq<Place>, rnd: Random, now: nat, k: nat, i: nat)
    requires k < |cities| && i < 5
    ensures |Collected(cities, rnd, now)| == 5 * |cities|
    ensures Collected(cities, rnd, now)[5 * k + i] == MockProperty(cities[k], i, rnd(cities[k].name, i), now)
    decreases |cities|
  {
    var n := |cities| - 1;
    var front := Collected(cities[..n], rnd, now);
    var last := MockBatch(cities[n], CityBatch, rnd, now);
    CollectedLength(cities[..n], rnd, now);
    if k < n {
      CollectedAt(cities[..n], rnd, now, k, i);
      assert Collected(cities, rnd, now)[5 * k + i] == front[5 * k + i];
    } else {
      assert Collected(cities, rnd, now)[5 * k + i] == last[i];
    }
  }

  lemma {:induction false} CollectedLength(cities: seq<Place>, rnd: Random, now: nat)
    ensures |Collected(cities, rnd, now)| == 5 * |cities|
    decreases |cities|
  {
    if cities != [] {
      CollectedLength(cities[..|cities| - 1], rnd, now);
    }
  }

  /** The result is a prefix of the per-city listings concatenated in city order, of length
      `limit` capped at the 75 collected (Python's negative slice drops from the end). */
  lemma KoreanPropertiesProps(limit: int, rnd: Random, now: nat)
    ensures var all := Collected(ScraperCities, rnd, now);
      var r := KoreanProperties(limit, rnd, now);
      && |all| == 75
      && r == all[..|r|]
      && (0 <= limit ==> |r| == if limit < 75 then limit else 75)
      && (limit < 0 ==> |r| == if -limit < 75 then 75 + limit else 0)
  {
    CollectedLength(ScraperCities, rnd, now);
  }

  /** Two places of the collection come from different positions of the table. */
  predicate NamesApart(cities: seq<Place>) {
    forall a, b :: 0 <= a < b < |cities| ==> cities[a].name != cities[b].name
  }

  /** With distinct city names free of '_', every collected listing has its own id. */
  lemma CollectedIdsDistinct(cities: seq<Place>, rnd: Random, now: nat)
    requires NamesApart(cities)
    requires forall a :: 0 <= a < |cities| ==> '_' !in cities[a].name
    ensures forall x, y :: 0 <= x < y < |Collected(cities, rnd, now)| ==>
      Collected(cities, rnd, now)[x].id != Collected(cities, rnd, now)[y].id
  {
    CollectedLength(cities, rnd, now);
    forall x, y | 0 <= x < y < |Collected(cities, rnd, now)|
      ensures Collected(cities, rnd, now)[x].id != Collected(cities, rnd, now)[y].id
    {
      IdsApart(cities, rnd, now, x, y);
    }
  }

  /** Two positions of the collection hold different ids. */
  lemma IdsApart(cities: seq<Place>, rnd: Random, now: nat, x: nat, y: nat)
    requires NamesApart(cities)
    requires forall a :: 0 <= a < |cities| ==> '_' !in cities[a].name
    requires x < y < 5 * |cities|
    ensures |Collected(cities, rnd, now)| == 5 * |cities|
    ensures Collected(cities, rnd, now)[x].id != Collected(cities, rnd, now)[y].id
  {
    var k1, i1 := x / 5, x % 5;
    var k2, i2 := y / 5, y % 5;
    Positions(x, y, |cities|);
    CollectedAt(cities, rnd, now, k1, i1);
    CollectedAt(cities, rnd, now, k2, i2);
    var n1, n2 := cities[k1].name, cities[k2].name;
    assert n1 != n2 || i1 != i2;
    MockIdInjective(n1, i1, n2, i2);
  }

  /** Two positions of a collection of `n` batches of five: their cities come first, their
      indices within the batch second. */
  lemma Positions(x: nat, y: nat, n: nat)
    requires x < y < 5 * n
    ensures x / 5 <= y / 5 < n && x % 5 < 5 && y % 5 < 5
    ensures x / 5 < y / 5 || x % 5 != y % 5
  {
  }

  /** The listings `get_korean_properties` returns have pairwise distinct ids. */
  lemma KoreanPropertiesIdsDistinct(limit: int, rnd: Random, now: nat)
    ensures var r := KoreanProperties(limit, rnd, now);
      forall x, y :: 0 <= x < y < |r| ==> r[x].id != r[y].id
  {
    ScraperNamesApart();
    ScraperNamesFree();
    PrefixIdsDistinct(ScraperCities, limit, rnd, now);
  }

  /** A slice of a collection over distinct '_'-free names has distinct ids. */
  lemma PrefixIdsDistinct(cities: seq<Place>, limit: int, rnd: Random, now: nat)
    requires NamesApart(cities)
    requires forall a :: 0 <= a < |cities| ==> '_' !in cities[a].name
    ensures forall x, y :: 0 <= x < y < |PyTake(Collected(cities, rnd, now), limit)| ==>
      PyTake(Collected(cities, rnd, now), limit)[x].id != PyTake(Collected(cities, rnd, now), limit)[y].id
  {
    CollectedIdsDistinct(cities, rnd, now);
    var all := Collected(cities, rnd, now);
    var r := PyTake(all, limit);
    forall x, y | 0 <= x < y < |r| ensures r[x].id != r[y].id {
      assert r[x] == all[x] && r[y] == all[y];
    }
  }

  /** Two-letter names that differ in a letter are different names. */
  lemma NamesApartByLetters(cities: seq<Place>)
    requires forall a :: 0 <= a < |cities| ==> |cities[a].name| == 2
    requires forall a, b :: 0 <= a < b < |cities| ==>
      cities[a].name[0] != cities[b].name[0] || cities[a].name[1] != cities[b].name[1]
    ensures NamesApart(cities)
  {
  }

  /** The scraper's table has distinct names ... */
  lemma ScraperNamesApart()
    ensures NamesApart(ScraperCities)
  {
    NamesApartByLetters(ScraperCities);
  }

  /** ... none holding '_'. */
  lemma ScraperNamesFree()
    ensures forall a :: 0 <= a < |ScraperCities| ==> '_' !in ScraperCities[a].name
  {
  }

  // ---------------------------------------------------------------- keyword search

  /** `any(keyword.lower() in f"{title} {description}".lower() for keyword in keywords)`. */
  predicate MatchesAny(p: PropertyInput, keywords: seq<string>) {
    exists j :: 0 <= j < |keywords| && Contains(Lower(p.listing.title + " " + p.listing.description), Lower(keywords[j]))
  }

  function Matcher(keywords: seq<string>): PropertyInput -> bool {
    (p: PropertyInput) => MatchesAny(p, keywords)
  }

  /** `search_properties_by_keywords(keywords, limit)`: the matching listings among
      `get_korean_properties(limit * 2)`, in order, then `[:limit]`. */
  function SearchResults(keywords: seq<string>, limit: int, rnd: Random, now: nat): seq<PropertyInput> {
    PyTake(Filter(KoreanProperties(limit * 2, rnd, now), Matcher(keywords)), limit)
  }

  method SearchPropertiesByKeywords(keywords: seq<string>, limit: int, rnd: Random, now: nat) returns (r: seq<PropertyInput>)
    ensures r == SearchResults(keywords, limit, rnd, now)
  {
    var all := GetKoreanProperties(limit * 2, rnd, now);
    var filtered: seq<PropertyInput> := [];
    var i := 0;
    while i < |all|
      invariant 0 <= i <= |all|
      invariant filtered == Filter(all[..i], Matcher(keywords))
    {
      FilterSnoc(all, i, Matcher(keywords));
      if MatchesAny(all[i], keywords) {
        filtered := filtered + [all[i]];
      }
      i := i + 1;
    }
    assert all[..i] == all;
    r := PyTake(filtered, limit);
  }

  /** Filtering one more element appends it exactly when it passes. */
  lemma FilterSnoc<T>(s: seq<T>, i: nat, p: T -> bool)
    requires i < |s|
    ensures Filter(s[..i + 1], p) == Filter(s[..i], p) + (if p(s[i]) then [s[i]] else [])
  {
    assert s[..i + 1] == s[..i] + [s[i]];
    FilterAppend(s[..i], [s[i]], p);
    assert [s[i]][1..] == [];
  }

  /** Every result contains a keyword; the results keep the collection's order and never
      exceed the limit; they are the first `limit` matching listings, so a matching listing
      is left out only when `limit` results came before it. */
  lemma SearchProps(keywords: seq<string>, limit: int, rnd: Random, now: nat)
    ensures var pool := KoreanProperties(limit * 2, rnd, now);
      var r := SearchResults(keywords, limit, rnd, now);
      && (forall i :: 0 <= i < |r| ==> MatchesAny(r[i], keywords))
      && Subseq(r, pool)
      && (limit >= 0 ==> |r| <= limit)
      && (limit >= 0 && Count(pool, Matcher(keywords)) <= limit ==>
            forall p :: p in pool && MatchesAny(p, keywords) ==> p in r)
      && (var f := Filter(pool, Matcher(keywords)); limit >= 0 ==> r == f[..Min(limit, |f|)])
  {
    var pool := KoreanProperties(limit * 2, rnd, now);
    var f := Filter(pool, Matcher(keywords));
    var r := SearchResults(keywords, limit, rnd, now);
    forall i | 0 <= i < |r| ensures MatchesAny(r[i], keywords) {
      assert r[i] == f[i];
      assert Matcher(keywords)(f[i]);
    }
    FilterIsSubseq(pool, Matcher(keywords));
    PrefixIsSubseq(f, |r|);
    SubseqTrans(r, f, pool);
    if limit >= 0 && Count(pool, Matcher(keywords)) <= limit {
      assert r == f;
      forall p | p in pool && MatchesAny(p, keywords) ensures p in r {
        assert Matcher(keywords)(p);
        FilterKeeps(pool, Matcher(keywords), p);
      }
    }
  }

  /** Without keywords nothing matches. */
  lemma NoKeywordsNoResults(limit: int, rnd: Random, now: nat)
    ensures SearchResults([], limit, rnd, now) == []
  {
    FilterNone(KoreanProperties(limit * 2, rnd, now), Matcher([]));
  }

  lemma LowerAppend(a: string, b: string)
    ensures Lower(a + b) == Lower(a) + Lower(b)
  {
  }

  /** Searching for a city's name finds each of that city's listings: its title starts
      with the name. */
  lemma CityKeywordMatches(place: Place, i: nat, d: Draw, now: nat)
    ensures MatchesAny(MockProperty(place, i, d, now), [place.name])
  {
    var l := MockProperty(place, i, d, now).listing;
    var rest := TitleMiddle + d.titleType + " " + l.description;
    assert l.title + " " + l.description == place.name + rest;
    LowerAppend(place.name, rest);
    var s := Lower(place.name + rest);
    assert s[..|Lower(place.name)|] == Lower(place.name);
    assert Contains(s, Lower([place.name][0]));
  }
}
