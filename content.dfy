/** `ContentGenerator`: the content dict built for a listing (one entry per platform and the
    list of generated images), the hashtag rules, the caption assembly, the price rendering
    with thousands separators and the title cut of the image builders. The AI caption, the
    random template choices and `random.sample` are inputs; the long prose templates are
    carried as given texts. */
module Content {
  import opened Common
  import opened Database
  import Social

  // ---------------------------------------------------------------- hashtags

  const InstagramTags: seq<string> := [
    "#에어비앤비", "#한국여행", "#숙소추천", "#여행", "#휴가",
    "#관광", "#호텔", "#펜션", "#게스트하우스", "#여행스타그램",
    "#인스타여행", "#여행일기", "#여행사진", "#여행코스", "#여행팁"]

  const YouTubeTags: seq<string> := [
    "#에어비앤비", "#한국여행", "#숙소리뷰", "#여행브이로그", "#숙소추천",
    "#여행가이드", "#한국관광", "#여행정보", "#숙소후기", "#여행팁"]

  const BlogTags: seq<string> := [
    "에어비앤비", "한국여행", "숙소추천", "여행정보", "관광지",
    "여행코스", "숙소리뷰", "여행팁", "한국관광", "여행가이드"]

  /** `hashtag_templates.get(platform, [])`. */
  function BaseTags(platform: string): seq<string> {
    if platform == "instagram" then InstagramTags
    else if platform == "youtube" then YouTubeTags
    else if platform == "blog" then BlogTags
    else []
  }

  const CheapTag: string := "#저렴한숙소"
  const LuxuryTag: string := "#럭셔리숙소"

  /** The price band tag: cheap below 100000, luxury above 150000, none in between. */
  function PriceTier(price: int): Option<string> {
    if price < 100000 then Some(CheapTag)
    else if price > 150000 then Some(LuxuryTag)
    else None
  }

  /** The three price bands do not overlap and cover every price; the band edges 100000
      and 150000 both get no tag. */
  lemma PriceTierBands(price: int)
    ensures PriceTier(price) == Some(CheapTag) <==> price < 100000
    ensures PriceTier(price) == Some(LuxuryTag) <==> price > 150000
    ensures PriceTier(price) == None <==> 100000 <= price <= 150000
  {
  }

  function CityTag(city: string): string {
    "#" + city + "여행"
  }

  function TypeTag(propertyType: string): string {
    "#" + propertyType
  }

  function Opt(o: Option<string>): seq<string> {
    if o.Some? then [o.value] else []
  }

  /** The tags the listing adds: the city tag when a city is given, the type tag when a
      type is given, then the price band tag. */
  function ExtraTags(l: Listing): seq<string> {
    Opt(if l.city != "" then Some(CityTag(l.city)) else None)
    + Opt(if l.propertyType != "" then Some(TypeTag(l.propertyType)) else None)
    + Opt(PriceTier(l.pricePerNight))
  }

  /** The sampling population: the platform's base tags followed by the listing's tags. */
  function Candidates(l: Listing, platform: string): seq<string> {
    BaseTags(platform) + ExtraTags(l)
  }

  /** The city tag is present exactly when a city is given, the type tag exactly when a
      type is given, and the price band tag, when there is one, comes last;
      an unknown platform samples from the listing's tags alone. */
  lemma ExtraTagsProps(l: Listing, platform: string)
    ensures var e := ExtraTags(l);
      && |e| == (if l.city != "" then 1 else 0) + (if l.propertyType != "" then 1 else 0)
                + (if PriceTier(l.pricePerNight).Some? then 1 else 0)
      && (l.city != "" ==> e[0] == CityTag(l.city))
      && (l.propertyType != "" ==> e[if l.city != "" then 1 else 0] == TypeTag(l.propertyType))
      && (PriceTier(l.pricePerNight).Some? ==> e[|e| - 1] == PriceTier(l.pricePerNight).value)
    ensures platform !in Social.PlatformOrder ==> Candidates(l, platform) == ExtraTags(l)
  {
    var e := ExtraTags(l);
    var c := Opt(if l.city != "" then Some(CityTag(l.city)) else None);
    var t := Opt(if l.propertyType != "" then Some(TypeTag(l.propertyType)) else None);
    var p := Opt(PriceTier(l.pricePerNight));
    assert e == c + t + p;
    if platform !in Social.PlatformOrder {
      assert BaseTags(platform) == [];
    }
  }

  /** What `random.sample(population, min(10, n))` may return, as positions: min(10, n)
      distinct positions of the population. */
  predicate ValidSample(picks: seq<nat>, n: nat) {
    && |picks| == Min(10, n)
    && (forall i :: 0 <= i < |picks| ==> picks[i] < n)
    && DistinctNats(picks)
  }

  function Pick(population: seq<string>, picks: seq<nat>): (r: seq<string>)
    requires forall i :: 0 <= i < |picks| ==> picks[i] < |population|
    ensures |r| == |picks| && forall i :: 0 <= i < |picks| ==> r[i] == population[picks[i]]
  {
    seq(|picks|, i requires 0 <= i < |picks| => population[picks[i]])
  }

  /** `_generate_hashtags`: the sampled tags joined by single spaces. */
  function Hashtags(l: Listing, platform: string, picks: seq<nat>): string
    requires ValidSample(picks, |Candidates(l, platform)|)
  {
    Join(Pick(Candidates(l, platform), picks), " ")
  }

  predicate DistinctNats(s: seq<nat>) {
    forall i, j :: 0 <= i < j < |s| ==> s[i] != s[j]
  }

  /** `s` without its element at position `j`. */
  function Without(s: seq<nat>, j: nat): (r: seq<nat>)
    requires j < |s|
    ensures |r| == |s| - 1
    ensures forall i :: 0 <= i < |r| ==> r[i] == if i < j then s[i] else s[i + 1]
  {
    s[..j] + s[j + 1..]
  }

  /** Pigeonhole: distinct values below m are at most m many. */
  lemma {:induction false} Pigeonhole(s: seq<nat>, m: nat)
    requires DistinctNats(s)
    requires forall i :: 0 <= i < |s| ==> s[i] < m
    ensures |s| <= m
    decreases m
  {
    if s == [] {
    } else if j :| 0 <= j < |s| && s[j] == m - 1 {
      var t := Without(s, j);
      forall i | 0 <= i < |t| ensures t[i] < m - 1 {
        var k := if i < j then i else i + 1;
        assert t[i] == s[k] && k != j;
      }
      forall p, q | 0 <= p < q < |t| ensures t[p] != t[q] {
        var p' := if p < j then p else p + 1;
        var q' := if q < j then q else q + 1;
        assert t[p] == s[p'] && t[q] == s[q'] && p' < q';
      }
      Pigeonhole(t, m - 1);
    } else {
      assert s[0] < m;
      Pigeonhole(s, m - 1);
    }
  }

  /** Distinct positions below n, n of them, are all the positions below n. */
  lemma DistinctPositionsCover(picks: seq<nat>, n: nat, k: nat)
    requires |picks| == n && DistinctNats(picks)
    requires forall i :: 0 <= i < |picks| ==> picks[i] < n
    requires k < n
    ensures k in picks
  {
    if k !in picks {
      var t: seq<nat> := seq(n, i requires 0 <= i < n => if picks[i] > k then picks[i] - 1 else picks[i]);
      forall p, q | 0 <= p < q < n ensures t[p] != t[q] {
        assert picks[p] != picks[q] && picks[p] != k && picks[q] != k;
      }
      Pigeonhole(t, n - 1);
    }
  }

  /** The selection holds min(10, n) tags, each a candidate, taken from distinct
      positions; when there are at most ten candidates every one of them is selected. */
  lemma SelectionProps(l: Listing, platform: string, picks: seq<nat>)
    requires ValidSample(picks, |Candidates(l, platform)|)
    ensures var cs := Candidates(l, platform);
      var r := Pick(cs, picks);
      && |r| == Min(10, |cs|)
      && (forall x :: x in r ==> x in cs)
      && (|cs| <= 10 ==> forall x :: x in cs ==> x in r)
  {
    var cs := Candidates(l, platform);
    var r := Pick(cs, picks);
    if |cs| <= 10 {
      forall x | x in cs ensures x in r {
        var k :| 0 <= k < |cs| && cs[k] == x;
        DistinctPositionsCover(picks, |cs|, k);
        var i :| 0 <= i < |picks| && picks[i] == k;
        assert r[i] == x;
      }
    }
  }

  // ---------------------------------------------------------------- rendering

  function Pad3(n: nat): (r: string)
    requires n < 1000
    ensures |r| == 3
  {
    [DigitChar(n / 100), DigitChar(n / 10 % 10), DigitChar(n % 10)]
  }

  function Grouped(n: nat): string
  {
    if n < 1000 then NatToString(n) else Grouped(n / 1000) + "," + Pad3(n % 1000)
  }

  /** Python's `f"{n:,}"` for an integer: groups of three digits separated by commas. */
  function FormatThousands(n: int): string
  {
    if n < 0 then "-" + Grouped(-n) else Grouped(n)
  }

  predicate NotComma(c: char) {
    c != ','
  }

  /** The text with its commas removed. */
  function Uncomma(s: string): string {
    Filter(s, NotComma)
  }

  lemma {:induction false} DigitsNoComma(n: nat)
    ensures ',' !in NatToString(n)
  {
    if n >= 10 {
      DigitsNoComma(n / 10);
    }
  }

  lemma Pad3NoComma(n: nat)
    requires n < 1000
    ensures ',' !in Pad3(n)
  {
    var d1, d2, d3 := n / 100, n / 10 % 10, n % 10;
    assert d1 < 10 && d2 < 10 && d3 < 10;
    assert Pad3(n) == [DigitChar(d1), DigitChar(d2), DigitChar(d3)];
    assert forall d :: 0 <= d < 10 ==> DigitChar(d) != ',';
  }

  lemma NatToStringShift(n: nat, a: nat, d: nat)
    requires a >= 1 && d < 10 && n == 10 * a + d
    ensures NatToString(n) == NatToString(a) + [DigitChar(d)]
  {
    assert n / 10 == a && n % 10 == d;
  }

  lemma ThreeDigits(b: nat)
    requires b < 1000
    ensures b == 100 * (b / 100) + 10 * (b / 10 % 10) + b % 10
  {
  }

  lemma NatToStringDigits(n: nat, a: nat, d1: nat, d2: nat, d3: nat)
    requires a >= 1 && d1 < 10 && d2 < 10 && d3 < 10
    requires n == 1000 * a + 100 * d1 + 10 * d2 + d3
    ensures NatToString(n) == NatToString(a) + [DigitChar(d1), DigitChar(d2), DigitChar(d3)]
  {
    var x := 10 * a + d1;
    var y := 10 * x + d2;
    NatToStringShift(x, a, d1);
    NatToStringShift(y, x, d2);
    NatToStringShift(n, y, d3);
    var sa, c1, c2, c3 := NatToString(a), DigitChar(d1), DigitChar(d2), DigitChar(d3);
    assert NatToString(y) == sa + [c1] + [c2];
    assert sa + [c1] + [c2] + [c3] == sa + [c1, c2, c3];
  }

  /** The decimal form of n = 1000·a + b, for a >= 1, is a's form followed by b's three
      digits. */
  lemma NatToStringGroup(n: nat, a: nat, b: nat)
    requires a >= 1 && b < 1000 && n == 1000 * a + b
    ensures NatToString(n) == NatToString(a) + Pad3(b)
  {
    ThreeDigits(b);
    NatToStringDigits(n, a, b / 100, b / 10 % 10, b % 10);
  }

  lemma GroupedUnfold(n: nat, q: nat, r: nat)
    requires n >= 1000 && q == n / 1000 && r == n % 1000
    ensures Grouped(n) == Grouped(q) + "," + Pad3(r)
    ensures q >= 1 && r < 1000 && n == 1000 * q + r
  {
  }

  lemma NoCommaKept(s: string)
    requires ',' !in s
    ensures Uncomma(s) == s
  {
    FilterAll(s, NotComma);
  }

  lemma UncommaJoin(g: string, p: string)
    requires ',' !in p
    ensures Uncomma(g + "," + p) == Uncomma(g) + p
  {
    var gc := g + ",";
    FilterAppend(g, ",", NotComma);
    assert Filter(",", NotComma) == [];
    assert Uncomma(gc) == Uncomma(g);
    FilterAppend(gc, p, NotComma);
    NoCommaKept(p);
    assert Uncomma(gc + p) == Uncomma(g) + p;
  }

  /** Dropping the separators from the grouped form gives back the plain decimal form. */
  lemma {:induction false} GroupedDigits(n: nat)
    ensures Uncomma(Grouped(n)) == NatToString(n)
  {
    if n < 1000 {
      DigitsNoComma(n);
      NoCommaKept(NatToString(n));
    } else {
      var q, r := n / 1000, n % 1000;
      GroupedUnfold(n, q, r);
      GroupedDigits(q);
      Pad3NoComma(r);
      UncommaJoin(Grouped(q), Pad3(r));
      NatToStringGroup(n, q, r);
    }
  }

  /** The rendered price reads as the plain decimal number once the commas are removed. */
  lemma FormatThousandsDigits(n: int)
    ensures n >= 0 ==> Uncomma(FormatThousands(n)) == NatToString(n)
    ensures n < 0 ==> Uncomma(FormatThousands(n)) == "-" + NatToString(-n)
  {
    if n >= 0 {
      GroupedDigits(n);
    } else {
      GroupedDigits(-n);
      FilterAppend("-", Grouped(-n), NotComma);
      assert Filter("-", NotComma) == "-";
    }
  }

  /** The image builders' title: longer than `n` characters is cut to the first `n` and
      '...' is appended, otherwise the title is drawn as is. */
  function CutTitle(title: string, n: nat): (r: string)
  {
    if |title| > n then title[..n] + "..." else title
  }

  const MainTitleLimit: nat := 30
  const StoryTitleLimit: nat := 20
  const ThumbnailTitleLimit: nat := 25

  /** A cut title keeps the first `n` characters of the title and is `n` + 3 long; a title
      that fits is unchanged. */
  lemma CutTitleProps(title: string, n: nat)
    ensures |title| <= n ==> CutTitle(title, n) == title
    ensures |title| > n ==>
      |CutTitle(title, n)| == n + 3 && CutTitle(title, n)[..n] == title[..n] && CutTitle(title, n)[n..] == "..."
    ensures |CutTitle(title, n)| <= n + 3
  {
  }

  // ---------------------------------------------------------------- the content dict

  /** The texts built from the long templates and the random template choices, and the
      caption (from the AI or the fallback templates). */
  datatype Prose = Prose(
    caption: string,
    reelsScript: string,
    youTubeTitle: string,
    youTubeDescription: string,
    shortsScript: string,
    blogContent: string,
    metaDescription: string)

  /** The random draws of one content build: the tag sample per platform. */
  datatype Draws = Draws(instagram: seq<nat>, youtube: seq<nat>, blog: seq<nat>)

  predicate ValidDraws(l: Listing, d: Draws) {
    && ValidSample(d.instagram, |Candidates(l, "instagram")|)
    && ValidSample(d.youtube, |Candidates(l, "youtube")|)
    && ValidSample(d.blog, |Candidates(l, "blog")|)
  }

  /** Which image builders produced a file (the PIL save may fail). */
  datatype Saved = Saved(main: bool, story: bool, thumbnail: bool)

  function StoryText(l: Listing): string {
    "✨ " + l.title + "\n📍 " + l.city + "\n💰 " + FormatThousands(l.pricePerNight) + "원/박"
  }

  function ThumbnailText(l: Listing): string {
    l.city + "\n" + FormatThousands(l.pricePerNight) + "원"
  }

  function BlogTitle(l: Listing): string {
    l.city + " 여행 숙소 추천: " + l.title + " 완전 리뷰"
  }

  function BlogExcerpt(l: Listing): string {
    l.city + " 여행의 완벽한 선택! " + l.title + "의 상세 리뷰와 예약 정보를 확인해보세요."
  }

  /** The Instagram caption: the caption, a blank line, then the hashtags. */
  function Caption(caption: string, hashtags: string): string {
    caption + "\n\n" + hashtags
  }

  /** The caption ends with the hashtags after a blank line, and the caption text and the
      hashtags can both be read back from it. */
  lemma CaptionProps(caption: string, hashtags: string)
    ensures var c := Caption(caption, hashtags);
      && c[..|caption|] == caption
      && c[|caption|..|caption| + 2] == "\n\n"
      && c[|caption| + 2..] == hashtags
      && |c| == |caption| + 2 + |hashtags|
  {
  }

  function Str(s: string): Json {
    JStr(s)
  }

  function InstagramEntry(l: Listing, p: Prose, d: Draws): Json
    requires ValidDraws(l, d)
  {
    var tags := Hashtags(l, "instagram", d.instagram);
    JObj([("caption", JStr(Caption(p.caption, tags))), ("hashtags", JStr(tags)),
          ("story_text", JStr(StoryText(l))), ("reels_script", JStr(p.reelsScript))])
  }

  function YouTubeEntry(l: Listing, p: Prose, d: Draws): Json
    requires ValidDraws(l, d)
  {
    JObj([("title", JStr(p.youTubeTitle)), ("description", JStr(p.youTubeDescription)),
          ("tags", JStr(Hashtags(l, "youtube", d.youtube))), ("shorts_script", JStr(p.shortsScript)),
          ("thumbnail_text", JStr(ThumbnailText(l)))])
  }

  function BlogEntry(l: Listing, p: Prose, d: Draws): Json
    requires ValidDraws(l, d)
  {
    JObj([("title", JStr(BlogTitle(l))), ("content", JStr(p.blogContent)),
          ("excerpt", JStr(BlogExcerpt(l))), ("tags", JStr(Hashtags(l, "blog", d.blog))),
          ("meta_description", JStr(p.metaDescription))])
  }

  function ImageEntry(id: string, kind: string, platforms: seq<string>): Json {
    JObj([("type", JStr(kind)), ("path", JStr(Social.ImageFile(id, kind))),
          ("platforms", JArr(seq(|platforms|, i requires 0 <= i < |platforms| => JStr(platforms[i]))))])
  }

  /** `_create_property_images`: an entry per image that was saved, main (for all three
      platforms), story (Instagram) and thumbnail (YouTube), in that order. */
  function Images(id: string, s: Saved): seq<Json>
  {
    (if s.main then [ImageEntry(id, "main", ["instagram", "youtube", "blog"])] else [])
    + (if s.story then [ImageEntry(id, "story", ["instagram"])] else [])
    + (if s.thumbnail then [ImageEntry(id, "thumbnail", ["youtube"])] else [])
  }

  /** The `type` of an image entry. */
  function KindOf(image: Json): seq<string> {
    match image
    case JObj(f) => (match Get(f, "type") case Some(JStr(k)) => [k] case _ => [])
    case _ => []
  }

  function Kinds(images: seq<Json>): seq<string> {
    if images == [] then [] else KindOf(images[0]) + Kinds(images[1..])
  }

  lemma EntryKind(id: string, kind: string, platforms: seq<string>)
    ensures Kinds([ImageEntry(id, kind, platforms)]) == [kind]
  {
    var e := ImageEntry(id, kind, platforms);
    assert Get(e.fields, "type") == Some(JStr(kind));
    assert [e][1..] == [];
  }

  lemma KindsOpt(id: string, kind: string, platforms: seq<string>, saved: bool)
    ensures Kinds(if saved then [ImageEntry(id, kind, platforms)] else []) == if saved then [kind] else []
  {
    if saved {
      EntryKind(id, kind, platforms);
    }
  }

  /** The saved images are listed once each, in the order main, story, thumbnail. */
  lemma ImagesProps(id: string, s: Saved)
    ensures Kinds(Images(id, s)) == (if s.main then ["main"] else []) + (if s.story then ["story"] else [])
                                    + (if s.thumbnail then ["thumbnail"] else [])
    ensures |Images(id, s)| == (if s.main then 1 else 0) + (if s.story then 1 else 0) + (if s.thumbnail then 1 else 0)
  {
    var m := if s.main then [ImageEntry(id, "main", ["instagram", "youtube", "blog"])] else [];
    var st := if s.story then [ImageEntry(id, "story", ["instagram"])] else [];
    var th := if s.thumbnail then [ImageEntry(id, "thumbnail", ["youtube"])] else [];
    KindsOpt(id, "main", ["instagram", "youtube", "blog"], s.main);
    KindsOpt(id, "story", ["instagram"], s.story);
    KindsOpt(id, "thumbnail", ["youtube"], s.thumbnail);
    KindsAppend(m + st, th);
    KindsAppend(m, st);
    assert Images(id, s) == m + st + th;
  }

  lemma {:induction false} KindsAppend(a: seq<Json>, b: seq<Json>)
    ensures Kinds(a + b) == Kinds(a) + Kinds(b)
  {
    if a == [] {
      assert a + b == b;
    } else {
      assert (a + b)[0] == a[0];
      assert (a + b)[1..] == a[1..] + b;
      KindsAppend(a[1..], b);
    }
  }

  /** The dict `create_property_content` fills in, given its parts. */
  function ContentDict(id: string, now: nat, ig: Json, yt: Json, bl: Json, images: seq<Json>): Json {
    JObj([("property_id", JStr(id)), ("created_at", JInt(now)),
          ("platforms", JObj([("instagram", ig), ("youtube", yt), ("blog", bl)])),
          ("images", JArr(images))])
  }

  /** `create_property_content`: the property id, the creation time, the three platform
      entries and the image list; a listing without an id raises and gives `{}`. */
  function CreatePropertyContent(input: PropertyInput, p: Prose, d: Draws, s: Saved, now: nat): Json
    requires ValidDraws(input.listing, d)
  {
    match input.id
    case None => JObj([])
    case Some(id) =>
      var l := input.listing;
      ContentDict(id, now, InstagramEntry(l, p, d), YouTubeEntry(l, p, d), BlogEntry(l, p, d), Images(id, s))
  }

  /** Whatever the platform entries hold, the store reads back exactly those three entries
      under the keys instagram, youtube and blog, and the property id is the given one. */
  lemma ContentDictShape(id: string, now: nat, ig: Json, yt: Json, bl: Json, images: seq<Json>)
    ensures var c := ContentDict(id, now, ig, yt, bl, images);
      && PlatformEntries(Some(c)) == [("instagram", ig), ("youtube", yt), ("blog", bl)]
      && Get(c.fields, "property_id") == Some(JStr(id))
  {
    var c := ContentDict(id, now, ig, yt, bl, images);
    assert c.fields[0].0 != "platforms" && c.fields[1].0 != "platforms" && c.fields[2].0 == "platforms";
    assert Get(c.fields, "platforms") == Some(c.fields[2].1);
  }

  /** The platforms are exactly instagram, youtube and blog, so saving the content with the
      listing inserts three content rows; the property id is the listing's id; without an id
      the content is empty and saving it inserts nothing. */
  lemma ContentPlatforms(input: PropertyInput, p: Prose, d: Draws, s: Saved, now: nat)
    requires ValidDraws(input.listing, d) && input.id.Some?
    ensures PlatformEntries(Some(CreatePropertyContent(input, p, d, s, now)))
         == [("instagram", InstagramEntry(input.listing, p, d)), ("youtube", YouTubeEntry(input.listing, p, d)),
             ("blog", BlogEntry(input.listing, p, d))]
    ensures Get(CreatePropertyContent(input, p, d, s, now).fields, "property_id") == Some(JStr(input.id.value))
  {
    var l := input.listing;
    var id := input.id.value;
    ContentDictShape(id, now, InstagramEntry(l, p, d), YouTubeEntry(l, p, d), BlogEntry(l, p, d), Images(id, s));
  }

  lemma EntriesKeys(ig: Json, yt: Json, bl: Json)
    ensures Keys([("instagram", ig), ("youtube", yt), ("blog", bl)]) == Social.PlatformOrder
  {
  }

  lemma CreatePropertyContentProps(input: PropertyInput, p: Prose, d: Draws, s: Saved, now: nat)
    requires ValidDraws(input.listing, d)
    ensures var c := CreatePropertyContent(input, p, d, s, now);
      && (input.id.Some? ==> Keys(PlatformEntries(Some(c))) == Social.PlatformOrder)
      && (input.id.Some? ==> c.JObj? && Get(c.fields, "property_id") == Some(JStr(input.id.value)))
      && (input.id.None? ==> c == JObj([]) && PlatformEntries(Some(c)) == [])
  {
    if input.id.Some? {
      var l := input.listing;
      ContentPlatforms(input, p, d, s, now);
      EntriesKeys(InstagramEntry(l, p, d), YouTubeEntry(l, p, d), BlogEntry(l, p, d));
    }
  }

  /** The Instagram entry's caption is the caption followed by a blank line and the same
      hashtags that the entry lists on their own. */
  lemma InstagramCaptionCarriesTags(l: Listing, p: Prose, d: Draws)
    requires ValidDraws(l, d)
    ensures var e := InstagramEntry(l, p, d);
      && Get(e.fields, "hashtags") == Some(JStr(Hashtags(l, "instagram", d.instagram)))
      && Get(e.fields, "caption") == Some(JStr(Caption(p.caption, Hashtags(l, "instagram", d.instagram))))
  {
  }
}
