/** Publishing dispatch of `SocialMediaManager`: which platform results a publish produces,
    the failures when a client is missing, the shape of each platform's result, the image
    lookup and the UTM tracking URL. The platform SDK calls are simulated in the source and
    their simulated outcome is modelled; the sleeps are left out. */
module Social {
  import opened Common
  import opened Database

  /** Which clients the manager could build (`instagram_client`, `youtube_service`,
      `wordpress_client` not None). */
  datatype Clients = Clients(instagram: bool, youtube: bool, wordpress: bool)

  /** The outcome of `post_to_all_platforms`: the copied property id, the publish time, the
      per-platform results in the order they were added, and whether an exception was caught
      (the `error` key; its text is not modelled). */
  datatype Publish = Publish(propertyId: string, postedAt: nat, platforms: seq<(string, PostResult)>, error: bool)

  /** The platforms the dispatch tries, in its order. */
  const PlatformOrder: seq<string> := ["instagram", "youtube", "blog"]

  /** Stands for `str(e)` of an exception a poster caught; Python's message text varies with
      the exception and the interpreter and is not modelled. */
  const ExceptionText: string := "<exception>"

  const InstagramMissing: string := "인스타그램 클라이언트가 초기화되지 않았습니다"
  const YouTubeMissing: string := "유튜브 서비스가 초기화되지 않았습니다"
  const WordPressMissing: string := "워드프레스 클라이언트가 초기화되지 않았습니다"
  const ImageMissing: string := "이미지 파일을 찾을 수 없습니다"

  /** A setting is usable when `os.getenv` returns a non-empty string. */
  predicate Truthy(env: map<string, string>, key: string) {
    key in env && env[key] != ""
  }

  /** `__init__`: the Instagram client exists when both credentials are set and the login
      (`Client(username, password)`) succeeds; the YouTube service when Google's default
      credentials are found; the WordPress client never, because `WordPressAPI` is not
      imported and the constructor call raises a NameError that the setup swallows. */
  function Setup(env: map<string, string>, instagramLoginOk: bool, googleAuthOk: bool): (c: Clients)
    ensures c.instagram <==> Truthy(env, "INSTAGRAM_USERNAME") && Truthy(env, "INSTAGRAM_PASSWORD") && instagramLoginOk
    ensures c.youtube <==> googleAuthOk
    ensures !c.wordpress
  {
    Clients(
      Truthy(env, "INSTAGRAM_USERNAME") && Truthy(env, "INSTAGRAM_PASSWORD") && instagramLoginOk,
      googleAuthOk,
      false)
  }

  /** The file an image of the given kind ('main', 'story', 'thumbnail') is saved under. */
  function ImageFile(propertyId: string, imageType: string): string {
    "generated_images/" + propertyId + "_" + imageType + ".jpg"
  }

  /** `_get_image_path`: the image file's path when it exists among `files`, else None. */
  function ImagePath(propertyId: string, imageType: string, files: set<string>): (r: Option<string>)
    ensures r.Some? <==> ImageFile(propertyId, imageType) in files
    ensures r.Some? ==> r.value == ImageFile(propertyId, imageType)
  {
    var path := ImageFile(propertyId, imageType);
    if path in files then Some(path) else None
  }

  /** `{'success': False, 'error': message}`. */
  function Failure(message: string): PostResult {
    PostResult(false, None, None, Some(message), None, [], [])
  }

  /** A successful sub-result carrying one identifier key and maybe a URL. */
  function Posted(idKey: string, id: string, url: Option<string>): PostResult {
    PostResult(true, if idKey == "post_id" then Some(id) else None, url, None, None,
               if idKey == "post_id" then [] else [(idKey, id)], [])
  }

  /** `content.get('platforms', {})`: None when `content` is not a dict (the call raises). */
  function PlatformsField(content: Json): Option<Json> {
    match content
    case JObj(fields) => Some(Get(fields, "platforms").GetOr(JObj([])))
    case _ => None
  }

  /** Python's `key in value`: a dict's keys, a list's elements, a string's substrings;
      None for a value `in` raises on. */
  function Mentions(value: Json, key: string): Option<bool> {
    match value
    case JObj(fields) => Some(exists i :: 0 <= i < |fields| && fields[i].0 == key)
    case JArr(items) => Some(JStr(key) in items)
    case JStr(s) => Some(Contains(s, key))
    case _ => None
  }

  /** `content['platforms'][key]` once `key in content['platforms']` held: the entry of a
      dict, None for a list or a string (indexing it with a string raises). */
  function PlatformEntry(content: Json, key: string): Option<Json> {
    match PlatformsField(content)
    case Some(JObj(entries)) => Get(entries, key)
    case _ => None
  }

  /** `value.get(key, '')` yields a string: the key is absent or holds a string. */
  predicate StringOrAbsent(fields: seq<(string, Json)>, key: string) {
    Get(fields, key).None? || Get(fields, key).value.JStr?
  }

  /** `value.get(key, '')[:50]` does not raise: the key is absent or holds a string or a
      list (a stored null, number, bool or dict is not subscriptable). */
  predicate SliceableOrAbsent(fields: seq<(string, Json)>, key: string) {
    Get(fields, key).None? || Get(fields, key).value.JStr? || Get(fields, key).value.JArr?
  }

  // Each sub-post reads `int(time.time())` after its own simulated sleep, so the source's
  // ids carry different stamps; the model takes one `clock` value for a whole publish, and
  // for the YouTube results one value for both the id and the URL, which the source reads
  // separately.

  /** `_post_instagram_feed`: fails when the main image is missing; otherwise the caption is
      read and cut to 50 characters for the log (which raises unless the content is a dict
      whose caption is a string or a list), and the post is made. */
  function InstagramFeed(entry: Json, propertyId: string, files: set<string>, clock: nat): (r: PostResult)
    ensures r.success <==> ImageFile(propertyId, "main") in files && entry.JObj? && SliceableOrAbsent(entry.fields, "caption")
    ensures r.success ==> r.postId == Some("ig_" + propertyId + "_" + NatToString(clock)) && r.error.None?
    ensures !r.success ==> r.error == Some(if ImageFile(propertyId, "main") in files then ExceptionText else ImageMissing)
  {
    if ImagePath(propertyId, "main", files).None? then Failure(ImageMissing)
    else if !entry.JObj? || !SliceableOrAbsent(entry.fields, "caption") then Failure(ExceptionText)
    else Posted("post_id", "ig_" + propertyId + "_" + NatToString(clock), None)
  }

  /** `_post_instagram_story`: the story text is only formatted, so any dict succeeds. */
  function InstagramStory(entry: Json, propertyId: string, clock: nat): (r: PostResult)
    ensures r.success <==> entry.JObj?
    ensures r.success ==> r.mediaIds == [("story_id", "story_" + propertyId + "_" + NatToString(clock))] && r.error.None?
    ensures !r.success ==> r.error == Some(ExceptionText)
  {
    if !entry.JObj? then Failure(ExceptionText)
    else Posted("story_id", "story_" + propertyId + "_" + NatToString(clock), None)
  }

  /** `_post_instagram_reels`: the script is cut to 50 characters for the log. */
  function InstagramReels(entry: Json, propertyId: string, clock: nat): (r: PostResult)
    ensures r.success <==> entry.JObj? && SliceableOrAbsent(entry.fields, "reels_script")
    ensures r.success ==> r.mediaIds == [("reels_id", "reels_" + propertyId + "_" + NatToString(clock))] && r.error.None?
    ensures !r.success ==> r.error == Some(ExceptionText)
  {
    if !entry.JObj? || !SliceableOrAbsent(entry.fields, "reels_script") then Failure(ExceptionText)
    else Posted("reels_id", "reels_" + propertyId + "_" + NatToString(clock), None)
  }

  /** `_post_to_instagram`: fails without a client or when the platform entry cannot be
      read; otherwise succeeds, whatever its three sub-posts report, with the feed, story
      and reels sub-results of the entry in that order. */
  function PostToInstagram(c: Clients, content: Json, propertyId: string, files: set<string>, clock: nat): (r: PostResult)
    ensures !c.instagram ==> r == Failure(InstagramMissing)
    ensures c.instagram && PlatformEntry(content, "instagram").None? ==> r == Failure(ExceptionText)
    ensures r.success <==> c.instagram && PlatformEntry(content, "instagram").Some?
    ensures r.success ==> |r.parts| == 3 && r.parts[0].0 == "feed_post" && r.parts[1].0 == "story" && r.parts[2].0 == "reels"
    ensures r.success ==> r.parts[1].1.success == PlatformEntry(content, "instagram").value.JObj?
    ensures r.success ==> (
      && r.parts[0].1 == InstagramFeed(PlatformEntry(content, "instagram").value, propertyId, files, clock)
      && r.parts[1].1 == InstagramStory(PlatformEntry(content, "instagram").value, propertyId, clock)
      && r.parts[2].1 == InstagramReels(PlatformEntry(content, "instagram").value, propertyId, clock))
  {
    if !c.instagram then Failure(InstagramMissing)
    else match PlatformEntry(content, "instagram")
      case None => Failure(ExceptionText)
      case Some(entry) =>
        PostResult(true, None, None, None, None, [],
          [("feed_post", InstagramFeed(entry, propertyId, files, clock)),
           ("story", InstagramStory(entry, propertyId, clock)),
           ("reels", InstagramReels(entry, propertyId, clock))])
  }

  /** `_upload_youtube_video`: reading the fields raises unless the entry is a dict whose
      `tags` is a string (or absent). */
  function YouTubeVideo(entry: Json, propertyId: string, clock: nat): (r: PostResult)
    ensures r.success <==> entry.JObj? && StringOrAbsent(entry.fields, "tags")
    ensures r.success ==> (
      && |r.mediaIds| == 1 && r.mediaIds[0].0 == "video_id"
      && r.mediaIds[0].1 == "yt_" + propertyId + "_" + NatToString(clock)
      && r.url == Some("https://youtube.com/watch?v=" + r.mediaIds[0].1))
    ensures !r.success ==> r.error == Some(ExceptionText)
  {
    if !entry.JObj? || !StringOrAbsent(entry.fields, "tags") then Failure(ExceptionText)
    else
      var id := "yt_" + propertyId + "_" + NatToString(clock);
      Posted("video_id", id, Some("https://youtube.com/watch?v=" + id))
  }

  /** `_upload_youtube_shorts`: the script is cut to 50 characters for the log. */
  function YouTubeShorts(entry: Json, propertyId: string, clock: nat): (r: PostResult)
    ensures r.success <==> entry.JObj? && SliceableOrAbsent(entry.fields, "shorts_script")
    ensures r.success ==> (
      && |r.mediaIds| == 1 && r.mediaIds[0].0 == "shorts_id"
      && r.mediaIds[0].1 == "shorts_" + propertyId + "_" + NatToString(clock)
      && r.url == Some("https://youtube.com/shorts/" + r.mediaIds[0].1))
    ensures !r.success ==> r.error == Some(ExceptionText)
  {
    if !entry.JObj? || !SliceableOrAbsent(entry.fields, "shorts_script") then Failure(ExceptionText)
    else
      var id := "shorts_" + propertyId + "_" + NatToString(clock);
      Posted("shorts_id", id, Some("https://youtube.com/shorts/" + id))
  }

  /** `_post_to_youtube`: fails without a service or an unreadable entry; otherwise succeeds
      with the video and shorts sub-results. */
  function PostToYouTube(c: Clients, content: Json, propertyId: string, clock: nat): (r: PostResult)
    ensures !c.youtube ==> r == Failure(YouTubeMissing)
    ensures r.success <==> c.youtube && PlatformEntry(content, "youtube").Some?
    ensures r.success ==> |r.parts| == 2 && r.parts[0].0 == "video" && r.parts[1].0 == "shorts"
    ensures r.success ==> (
      && r.parts[0].1 == YouTubeVideo(PlatformEntry(content, "youtube").value, propertyId, clock)
      && r.parts[1].1 == YouTubeShorts(PlatformEntry(content, "youtube").value, propertyId, clock))
    ensures c.youtube && !r.success ==> r.error == Some(ExceptionText)
  {
    if !c.youtube then Failure(YouTubeMissing)
    else match PlatformEntry(content, "youtube")
      case None => Failure(ExceptionText)
      case Some(entry) =>
        PostResult(true, None, None, None, None, [],
          [("video", YouTubeVideo(entry, propertyId, clock)), ("shorts", YouTubeShorts(entry, propertyId, clock))])
  }

  /** `_post_to_blog`: fails without a client; otherwise the entry must be a dict whose
      `tags` is a string (or absent), and the post gets an id and a URL. */
  function PostToBlog(c: Clients, content: Json, propertyId: string, clock: nat): (r: PostResult)
    ensures !c.wordpress ==> r == Failure(WordPressMissing)
    ensures r.success <==> (
      && c.wordpress && PlatformEntry(content, "blog").Some? && PlatformEntry(content, "blog").value.JObj?
      && StringOrAbsent(PlatformEntry(content, "blog").value.fields, "tags"))
    ensures r.success ==> (
      && r.postId == Some("blog_" + propertyId + "_" + NatToString(clock))
      && r.url == Some("https://your-blog.com/" + propertyId))
    ensures c.wordpress && !r.success ==> r.error == Some(ExceptionText)
  {
    if !c.wordpress then Failure(WordPressMissing)
    else match PlatformEntry(content, "blog")
      case Some(JObj(fields)) =>
        if StringOrAbsent(fields, "tags")
        then Posted("post_id", "blog_" + propertyId + "_" + NatToString(clock), Some("https://your-blog.com/" + propertyId))
        else Failure(ExceptionText)
      case _ => Failure(ExceptionText)
  }

  /** The poster for one platform key of `PlatformOrder`. */
  function Poster(c: Clients, key: string, content: Json, propertyId: string, files: set<string>, clock: nat): PostResult {
    if key == "instagram" then PostToInstagram(c, content, propertyId, files, clock)
    else if key == "youtube" then PostToYouTube(c, content, propertyId, clock)
    else PostToBlog(c, content, propertyId, clock)
  }

  /** Whether the dispatch raises at its first `in` test: the content is not a dict, or its
      `platforms` value is neither a dict, a list nor a string. */
  predicate DispatchRaises(content: Json) {
    PlatformsField(content).None? || Mentions(PlatformsField(content).value, "instagram").None?
  }

  /** The platform keys the dispatch posts to. */
  function Selected(content: Json): seq<string>
    requires !DispatchRaises(content)
  {
    Filter(PlatformOrder, (k: string) => Mentions(PlatformsField(content).value, k) == Some(true))
  }

  /** Each key paired with its poster's result, in order. */
  function Results(c: Clients, keys: seq<string>, content: Json, propertyId: string, files: set<string>, clock: nat): (r: seq<(string, PostResult)>)
    ensures |r| == |keys|
    ensures forall i :: 0 <= i < |keys| ==> r[i].0 == keys[i]
  {
    if keys == [] then []
    else [(keys[0], Poster(c, keys[0], content, propertyId, files, clock))] + Results(c, keys[1..], content, propertyId, files, clock)
  }

  /** Entry `i` of the results is key `i` with that key's poster result. */
  lemma {:induction false} ResultsAt(c: Clients, keys: seq<string>, content: Json, propertyId: string, files: set<string>, clock: nat, i: nat)
    requires i < |keys|
    ensures Results(c, keys, content, propertyId, files, clock)[i] == (keys[i], Poster(c, keys[i], content, propertyId, files, clock))
  {
    if i > 0 {
      ResultsAt(c, keys[1..], content, propertyId, files, clock, i - 1);
    }
  }

  /** Posting to one more key appends that key's result. */
  lemma {:induction false} ResultsSnoc(c: Clients, keys: seq<string>, k: string, content: Json, propertyId: string, files: set<string>, clock: nat)
    ensures Results(c, keys + [k], content, propertyId, files, clock)
      == Results(c, keys, content, propertyId, files, clock) + [(k, Poster(c, k, content, propertyId, files, clock))]
  {
    if keys != [] {
      assert (keys + [k])[1..] == keys[1..] + [k];
      ResultsSnoc(c, keys[1..], k, content, propertyId, files, clock);
    }
  }

  /** The specification of `post_to_all_platforms`. */
  function Dispatch(c: Clients, content: Json, propertyId: string, files: set<string>, clock: nat, now: nat): Publish
  {
    if DispatchRaises(content) then Publish(propertyId, now, [], true)
    else Publish(propertyId, now, Results(c, Selected(content), content, propertyId, files, clock), false)
  }

  /** `post_to_all_platforms(content, property_data)`: tests each platform in turn and adds
      its poster's result to `results['platforms']`. */
  method PostToAllPlatforms(c: Clients, content: Json, propertyId: string, files: set<string>, clock: nat, now: nat) returns (r: Publish)
    ensures r == Dispatch(c, content, propertyId, files, clock, now)
  {
    var platforms: seq<(string, PostResult)> := [];
    ghost var keys: seq<string> := [];
    var field := PlatformsField(content);
    if field.None? || Mentions(field.value, "instagram").None? {
      return Publish(propertyId, now, [], true);
    }
    var p := field.value;
    ghost var ig: seq<string> := if Mentions(p, "instagram") == Some(true) then ["instagram"] else [];
    ghost var yt: seq<string> := if Mentions(p, "youtube") == Some(true) then ["youtube"] else [];
    ghost var bl: seq<string> := if Mentions(p, "blog") == Some(true) then ["blog"] else [];
    if Mentions(p, "instagram") == Some(true) {
      platforms := platforms + [("instagram", PostToInstagram(c, content, propertyId, files, clock))];
      ResultsSnoc(c, keys, "instagram", content, propertyId, files, clock);
      keys := keys + ["instagram"];
    }
    assert keys == ig && platforms == Results(c, keys, content, propertyId, files, clock);
    if Mentions(p, "youtube") == Some(true) {
      platforms := platforms + [("youtube", PostToYouTube(c, content, propertyId, clock))];
      ResultsSnoc(c, keys, "youtube", content, propertyId, files, clock);
      keys := keys + ["youtube"];
    }
    assert keys == ig + yt && platforms == Results(c, keys, content, propertyId, files, clock);
    if Mentions(p, "blog") == Some(true) {
      platforms := platforms + [("blog", PostToBlog(c, content, propertyId, clock))];
      ResultsSnoc(c, keys, "blog", content, propertyId, files, clock);
      keys := keys + ["blog"];
    }
    assert keys == ig + yt + bl;
    SelectedUnfold(content);
    r := Publish(propertyId, now, platforms, false);
  }

  lemma SelectedUnfold(content: Json)
    requires !DispatchRaises(content)
    ensures var p := PlatformsField(content).value;
      Selected(content) ==
        (if Mentions(p, "instagram") == Some(true) then ["instagram"] else [])
        + (if Mentions(p, "youtube") == Some(true) then ["youtube"] else [])
        + (if Mentions(p, "blog") == Some(true) then ["blog"] else [])
  {
    var p := PlatformsField(content).value;
    var f := (k: string) => Mentions(p, k) == Some(true);
    assert PlatformOrder[1..] == ["youtube", "blog"];
    assert PlatformOrder[1..][1..] == ["blog"];
    assert PlatformOrder[1..][1..][1..] == [];
  }

  /** The keys of a publish's `platforms`. */
  function ResultKeys(r: Publish): seq<string> {
    seq(|r.platforms|, i requires 0 <= i < |r.platforms| => r.platforms[i].0)
  }

  /** The dispatch copies the property id and has a `platforms` entry for exactly those of
      instagram, youtube and blog that `content['platforms']` contains, in that order;
      it records an error, with no entries, exactly when the test itself raises. */
  lemma DispatchKeys(c: Clients, content: Json, propertyId: string, files: set<string>, clock: nat, now: nat)
    ensures var r := Dispatch(c, content, propertyId, files, clock, now);
      && r.propertyId == propertyId
      && (r.error <==> DispatchRaises(content))
      && (r.error ==> r.platforms == [])
      && Subseq(ResultKeys(r), PlatformOrder)
      && forall k :: k in ResultKeys(r) <==>
           (k in PlatformOrder && !DispatchRaises(content) && Mentions(PlatformsField(content).value, k) == Some(true))
  {
    var r := Dispatch(c, content, propertyId, files, clock, now);
    if DispatchRaises(content) {
      assert ResultKeys(r) == [];
    } else {
      ResultsKeys(c, Selected(content), content, propertyId, files, clock, now);
      SelectedProps(content);
    }
  }

  /** The keys of a publish built from `Results` are the keys posted to. */
  lemma ResultsKeys(c: Clients, keys: seq<string>, content: Json, propertyId: string, files: set<string>, clock: nat, now: nat)
    ensures ResultKeys(Publish(propertyId, now, Results(c, keys, content, propertyId, files, clock), false)) == keys
  {
  }

  /** The selected keys are those of `PlatformOrder` that the platforms value mentions, in
      that order. */
  lemma SelectedProps(content: Json)
    requires !DispatchRaises(content)
    ensures Subseq(Selected(content), PlatformOrder)
    ensures forall k :: k in Selected(content) <==> k in PlatformOrder && Mentions(PlatformsField(content).value, k) == Some(true)
  {
    var f := (k: string) => Mentions(PlatformsField(content).value, k) == Some(true);
    FilterIsSubseq(PlatformOrder, f);
    forall k | k in PlatformOrder && f(k) ensures k in Selected(content) {
      FilterKeeps(PlatformOrder, f, k);
    }
  }

  /** Each poster answers `{'success': False, 'error': <not initialised>}` when its client
      is missing, whatever the content. */
  lemma MissingClientFails(c: Clients, content: Json, propertyId: string, files: set<string>, clock: nat, now: nat)
    ensures var r := Dispatch(c, content, propertyId, files, clock, now);
      forall i :: 0 <= i < |r.platforms| ==>
        && (r.platforms[i].0 == "instagram" && !c.instagram ==> r.platforms[i].1 == Failure(InstagramMissing))
        && (r.platforms[i].0 == "youtube" && !c.youtube ==> r.platforms[i].1 == Failure(YouTubeMissing))
        && (r.platforms[i].0 == "blog" && !c.wordpress ==> r.platforms[i].1 == Failure(WordPressMissing))
  {
    if !DispatchRaises(content) {
      forall i | 0 <= i < |Selected(content)|
        ensures var e := Results(c, Selected(content), content, propertyId, files, clock)[i];
          && (e.0 == "instagram" && !c.instagram ==> e.1 == Failure(InstagramMissing))
          && (e.0 == "youtube" && !c.youtube ==> e.1 == Failure(YouTubeMissing))
          && (e.0 == "blog" && !c.wordpress ==> e.1 == Failure(WordPressMissing))
      {
        ResultsAt(c, Selected(content), content, propertyId, files, clock, i);
      }
    }
  }

  /** With a client and a dict of platform content, the Instagram result reports success
      even when its feed sub-post failed for want of the main image. */
  lemma InstagramSuccessDespiteFeed(c: Clients, fields: seq<(string, Json)>, entry: Json, propertyId: string, files: set<string>, clock: nat)
    requires c.instagram
    requires Get(fields, "platforms") == Some(JObj([("instagram", entry)]))
    requires ImageFile(propertyId, "main") !in files
    ensures var r := PostToInstagram(c, JObj(fields), propertyId, files, clock);
      r.success && r.parts[0] == ("feed_post", Failure(ImageMissing))
  {
  }

  /** With a client, the Instagram result is a failure only when the platform entry cannot
      be read, and a success otherwise. */
  lemma InstagramOutcome(c: Clients, content: Json, propertyId: string, files: set<string>, clock: nat)
    requires c.instagram
    ensures PostToInstagram(c, content, propertyId, files, clock).success <==> PlatformEntry(content, "instagram").Some?
  {
  }

  /** A manager built by the setup never has a WordPress client, so every blog result of
      its dispatch is the not-initialised failure. */
  lemma BlogAlwaysFails(env: map<string, string>, loginOk: bool, authOk: bool, content: Json, propertyId: string,
                        files: set<string>, clock: nat, now: nat)
    ensures var r := Dispatch(Setup(env, loginOk, authOk), content, propertyId, files, clock, now);
      forall i :: 0 <= i < |r.platforms| && r.platforms[i].0 == "blog" ==>
        !r.platforms[i].1.success && r.platforms[i].1.error == Some(WordPressMissing)
  {
    var c := Setup(env, loginOk, authOk);
    if !DispatchRaises(content) {
      var keys := Selected(content);
      forall i | 0 <= i < |keys| && keys[i] == "blog"
        ensures Results(c, keys, content, propertyId, files, clock)[i].1 == Failure(WordPressMissing)
      {
        ResultsAt(c, keys, content, propertyId, files, clock, i);
      }
    }
  }

  // ---------------------------------------------------------------- conversion tracking

  /** The query string `track_conversion` appends to the booking URL. */
  const UtmTail: string := "&utm_medium=social&utm_campaign=airbnb_marketing"

  /** `track_conversion(property_id, platform)['tracking_url']`. */
  function TrackingUrl(propertyId: string, platform: string): string
  {
    "https://airbnb.com/rooms/" + propertyId + "?utm_source=" + platform + UtmTail
  }

  /** The URL regrouped for the injectivity proof below: the fixed prefix, the property id,
      and the source parameter with the tail. */
  lemma TrackingUrlShape(p: string, s: string)
    ensures TrackingUrl(p, s) == "https://airbnb.com/rooms/" + (p + ("?utm_source=" + (s + UtmTail)))
  {
  }

  /** For property ids without '?', distinct (property, platform) pairs get distinct
      tracking URLs: the URL determines both. */
  lemma TrackingUrlInjective(p1: string, s1: string, p2: string, s2: string)
    requires '?' !in p1 && '?' !in p2
    requires TrackingUrl(p1, s1) == TrackingUrl(p2, s2)
    ensures p1 == p2 && s1 == s2
  {
    var key := "?utm_source=";
    TrackingUrlShape(p1, s1);
    TrackingUrlShape(p2, s2);
    PrefixCancel("https://airbnb.com/rooms/", p1 + (key + (s1 + UtmTail)), p2 + (key + (s2 + UtmTail)));
    SplitAtMark(p1, key + (s1 + UtmTail), p2, key + (s2 + UtmTail), '?');
    PrefixCancel(key, s1 + UtmTail, s2 + UtmTail);
    SuffixCancel(s1, s2, UtmTail);
  }
}
