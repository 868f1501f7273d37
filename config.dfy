/** `Config`: the settings read from the environment, the table of Korean cities, the
    platform-enabled rules and the configuration check. The environment is a map from
    variable names to values; an absent or empty value is unset, as Python's truthiness of
    `os.getenv` results makes it. */
module Config {
  import opened Common
  import opened Social
  import Scheduler

  // ---------------------------------------------------------------- posting times

  /** `POSTING_SCHEDULE` as the settings class reads it: split on ',' and not stripped. */
  function PostingSchedule(env: map<string, string>): seq<string>
  {
    Split(Scheduler.ScheduleText(env), ',')
  }

  /** The scheduler's parser is this list with every piece stripped, so the two agree
      exactly when the pieces carry no surrounding white space. */
  lemma SchedulerStripsConfig(env: map<string, string>)
    ensures Scheduler.ParsePostingSchedule(env) == Scheduler.StripAll(PostingSchedule(env))
    ensures (forall i :: 0 <= i < |PostingSchedule(env)| ==> Scheduler.Trimmed(PostingSchedule(env)[i]))
            ==> Scheduler.ParsePostingSchedule(env) == PostingSchedule(env)
  {
    if forall i :: 0 <= i < |PostingSchedule(env)| ==> Scheduler.Trimmed(PostingSchedule(env)[i]) {
      Scheduler.StripAllNoop(PostingSchedule(env));
    }
  }

  /** A space after the comma is kept by the settings class and dropped by the scheduler:
      with `POSTING_SCHEDULE = "a, b"` the two lists differ. */
  lemma ConfigKeepsSpaces(env: map<string, string>, a: string, b: string)
    requires "POSTING_SCHEDULE" in env && env["POSTING_SCHEDULE"] == a + [','] + ([' '] + b)
    requires ',' !in a && ',' !in b && Scheduler.Trimmed(a) && Scheduler.Trimmed(b)
    ensures PostingSchedule(env) == [a, [' '] + b]
    ensures Scheduler.ParsePostingSchedule(env) == [a, b]
  {
    var t := [' '] + b;
    assert ',' !in t;
    SplitNoSep(t, ',');
    SplitCons(a, ',', t);
    assert PostingSchedule(env) == [a, t];
    TrimLeftNoop(b);
    TrimRightNoop(b);
    assert TrimLeft(t) == TrimLeft(t[1..]);
    assert t[1..] == b;
    assert Strip(t) == b;
    TrimLeftNoop(a);
    TrimRightNoop(a);
  }

  // ---------------------------------------------------------------- cities

  /** An entry of `KOREAN_CITIES`: name, coordinates and priority. */
  datatype City = City(name: string, lat: real, lng: real, priority: int)

  /** `KOREAN_CITIES`, in the dict's insertion order. */
  const KoreanCities: seq<City> := [
    City("서울", 37.5665, 126.9780, 1),
    City("부산", 35.1796, 129.0756, 2),
    City("인천", 37.4563, 126.7052, 3),
    City("대구", 35.8714, 128.6014, 4),
    City("대전", 36.3504, 127.3845, 5),
    City("광주", 35.1595, 126.8526, 6),
    City("울산", 35.5384, 129.3114, 7),
    City("세종", 36.4800, 127.2890, 8),
    City("제주", 33.4996, 126.5312, 9),
    City("수원", 37.2636, 127.0286, 10),
    City("고양", 37.6584, 126.8320, 11),
    City("용인", 37.2411, 127.1776, 12),
    City("성남", 37.4201, 127.1267, 13),
    City("부천", 37.5034, 126.7660, 14),
    City("화성", 37.1995, 126.8314, 15)]

  /** `KOREAN_CITIES.get(name)`: the entry with that name. */
  function FindCity(table: seq<City>, name: string): (r: Option<City>)
    ensures r.Some? <==> exists i :: 0 <= i < |table| && table[i].name == name
    ensures r.Some? ==> r.value in table && r.value.name == name
  {
    if table == [] then None
    else if table[0].name == name then Some(table[0])
    else FindCity(table[1..], name)
  }

  predicate Known(name: string) {
    exists i :: 0 <= i < |KoreanCities| && KoreanCities[i].name == name
  }

  /** `get_city_priority`: the configured priority, or 999 for a city not in the table. */
  function CityPriority(name: string): int
  {
    match FindCity(KoreanCities, name)
    case Some(c) => c.priority
    case None => 999
  }

  /** `get_city_coordinates`: the configured latitude and longitude, or (0, 0). */
  function CityCoordinates(name: string): (real, real)
  {
    match FindCity(KoreanCities, name)
    case Some(c) => (c.lat, c.lng)
    case None => (0.0, 0.0)
  }

  lemma PrioritiesInRange()
    ensures forall c :: c in KoreanCities ==> 1 <= c.priority <= 15
  {
  }

  /** A listed city has its own priority, between 1 and 15; any other name gets 999, so
      999 marks exactly the unknown cities. */
  lemma CityPriorityProps(name: string)
    ensures Known(name) ==> exists c :: c in KoreanCities && c.name == name && CityPriority(name) == c.priority
    ensures Known(name) ==> 1 <= CityPriority(name) <= 15
    ensures !Known(name) <==> CityPriority(name) == 999
  {
    PrioritiesInRange();
  }

  /** A listed city has its own coordinates; any other name gets (0, 0). */
  lemma CityCoordinatesProps(name: string)
    ensures Known(name) ==> exists c :: c in KoreanCities && c.name == name && CityCoordinates(name) == (c.lat, c.lng)
    ensures !Known(name) ==> CityCoordinates(name) == (0.0, 0.0)
  {
  }

  function Priority(c: City): real {
    c.priority as real
  }

  function Names(cs: seq<City>): (r: seq<string>)
    ensures |r| == |cs| && forall i :: 0 <= i < |cs| ==> r[i] == cs[i].name
  {
    seq(|cs|, i requires 0 <= i < |cs| => cs[i].name)
  }

  /** `get_priority_cities`: the cities by ascending priority, cut by Python's `[:limit]`. */
  function PriorityCities(limit: int): seq<string>
  {
    Names(PyTake(SortAsc(KoreanCities, Priority), limit))
  }

  /** Sorting a table by priority and cutting it keeps ascending priority, keeps only
      table entries, leaves min(limit, |table|) of them for a non-negative limit, and keeps
      the most urgent: no entry cut off has a smaller priority number than one kept. */
  lemma SortedTake(table: seq<City>, limit: int)
    ensures var sorted := PyTake(SortAsc(table, Priority), limit);
      && SortedAsc(sorted, Priority)
      && (forall c :: c in sorted ==> c in table)
      && multiset(sorted) <= multiset(table)
      && (limit >= 0 ==> |sorted| == if limit < |table| then limit else |table|)
      && (forall c, i :: c in table && c !in sorted && 0 <= i < |sorted| ==> sorted[i].priority <= c.priority)
  {
    var t := PyTake(SortAsc(table, Priority), limit);
    LowestTaken(table, Priority, limit);
    forall c | c in t ensures c in table {
      assert c in multiset(t);
    }
    forall c, i | c in table && c !in t && 0 <= i < |t| ensures t[i].priority <= c.priority {
      assert Priority(t[i]) <= Priority(c);
    }
  }

  /** The cities come by ascending priority, each from the table, there are min(limit, 15)
      of them for a non-negative limit, and no city left out has a smaller priority number
      than one returned. */
  lemma PriorityCitiesProps(limit: int)
    ensures var sorted := PyTake(SortAsc(KoreanCities, Priority), limit);
      && PriorityCities(limit) == Names(sorted)
      && SortedAsc(sorted, Priority)
      && (forall c :: c in sorted ==> c in KoreanCities)
      && (forall c, i :: c in KoreanCities && c !in sorted && 0 <= i < |sorted| ==> sorted[i].priority <= c.priority)
    ensures limit >= 0 ==> |PriorityCities(limit)| == if limit < 15 then limit else 15
  {
    TableSize();
    SortedTake(KoreanCities, limit);
  }

  lemma TableSize()
    ensures |KoreanCities| == 15
  {
  }

  // ---------------------------------------------------------------- platforms

  /** `is_platform_enabled`: instagram needs username and password, youtube client id and
      secret, the blog URL, username and password; any other name is disabled. */
  predicate PlatformEnabled(env: map<string, string>, platform: string) {
    if platform == "instagram" then Truthy(env, "INSTAGRAM_USERNAME") && Truthy(env, "INSTAGRAM_PASSWORD")
    else if platform == "youtube" then Truthy(env, "YOUTUBE_CLIENT_ID") && Truthy(env, "YOUTUBE_CLIENT_SECRET")
    else if platform == "blog" then
      Truthy(env, "WORDPRESS_URL") && Truthy(env, "WORDPRESS_USERNAME") && Truthy(env, "WORDPRESS_PASSWORD")
    else false
  }

  /** `get_enabled_platforms`: the enabled ones among instagram, youtube and blog, in that order. */
  function EnabledPlatforms(env: map<string, string>): seq<string>
  {
    Filter(PlatformOrder, p => PlatformEnabled(env, p))
  }

  /** A platform is listed exactly when it is enabled, the list keeps the order
      instagram, youtube, blog, and a name outside the three is never enabled. */
  lemma EnabledPlatformsProps(env: map<string, string>)
    ensures Subseq(EnabledPlatforms(env), PlatformOrder)
    ensures forall p :: p in EnabledPlatforms(env) <==> p in PlatformOrder && PlatformEnabled(env, p)
    ensures forall p :: p !in PlatformOrder ==> !PlatformEnabled(env, p)
  {
    var f := p => PlatformEnabled(env, p);
    FilterIsSubseq(PlatformOrder, f);
    forall p | p in PlatformOrder && PlatformEnabled(env, p) ensures p in EnabledPlatforms(env) {
      FilterKeeps(PlatformOrder, f, p);
    }
  }

  // ---------------------------------------------------------------- validation

  /** A setting the check looks at: its variable and its description. */
  datatype Setting = Setting(key: string, description: string)

  const RequiredSettings: seq<Setting> := [
    Setting("OPENAI_API_KEY", "OpenAI API 키"),
    Setting("INSTAGRAM_USERNAME", "인스타그램 사용자명"),
    Setting("INSTAGRAM_PASSWORD", "인스타그램 비밀번호")]

  const OptionalSettings: seq<Setting> := [
    Setting("AIRBNB_API_KEY", "Airbnb API 키"),
    Setting("YOUTUBE_CLIENT_ID", "YouTube 클라이언트 ID"),
    Setting("WORDPRESS_URL", "WordPress URL")]

  /** The message for a setting that is not set. */
  function MissingMessage(s: Setting): string {
    s.description + "이 설정되지 않았습니다: " + s.key
  }

  function Messages(ss: seq<Setting>): (r: seq<string>)
    ensures |r| == |ss| && forall i :: 0 <= i < |ss| ==> r[i] == MissingMessage(ss[i])
  {
    seq(|ss|, i requires 0 <= i < |ss| => MissingMessage(ss[i]))
  }

  /** The settings that are not set, in list order. */
  function Unset(env: map<string, string>, ss: seq<Setting>): seq<Setting>
  {
    Filter(ss, (s: Setting) => !Truthy(env, s.key))
  }

  datatype Validation = Validation(valid: bool, errors: seq<string>, warnings: seq<string>)

  /** The loop of `validate_config` over one list of settings. */
  method MissingSettings(env: map<string, string>, ss: seq<Setting>) returns (msgs: seq<string>)
    ensures msgs == Messages(Unset(env, ss))
  {
    msgs := [];
    var i := 0;
    while i < |ss|
      invariant 0 <= i <= |ss|
      invariant msgs == Messages(Unset(env, ss[..i]))
    {
      UnsetStep(env, ss, i);
      if !Truthy(env, ss[i].key) {
        msgs := msgs + [MissingMessage(ss[i])];
      }
      i := i + 1;
    }
    assert ss[..i] == ss;
  }

  /** The messages of one more setting. */
  lemma UnsetStep(env: map<string, string>, ss: seq<Setting>, i: nat)
    requires i < |ss|
    ensures Messages(Unset(env, ss[..i + 1]))
         == Messages(Unset(env, ss[..i])) + (if !Truthy(env, ss[i].key) then [MissingMessage(ss[i])] else [])
  {
    var p := (s: Setting) => !Truthy(env, s.key);
    assert ss[..i + 1] == ss[..i] + [ss[i]];
    FilterAppend(ss[..i], [ss[i]], p);
    assert Filter([ss[i]], p) == if p(ss[i]) then [ss[i]] else [];
  }

  /** `validate_config`: one error per unset required setting, one warning per unset
      optional setting, and valid when there are no errors. */
  method ValidateConfig(env: map<string, string>) returns (v: Validation)
    ensures v.errors == Messages(Unset(env, RequiredSettings))
    ensures v.warnings == Messages(Unset(env, OptionalSettings))
    ensures v.valid <==> v.errors == []
  {
    var errors := MissingSettings(env, RequiredSettings);
    var warnings := MissingSettings(env, OptionalSettings);
    v := Validation(|errors| == 0, errors, warnings);
  }

  /** A listed setting is reported exactly when it is unset, once per unset setting and in
      list order. */
  lemma UnsetProps(env: map<string, string>, ss: seq<Setting>)
    ensures Subseq(Unset(env, ss), ss)
    ensures forall s :: s in Unset(env, ss) <==> s in ss && !Truthy(env, s.key)
    ensures |Messages(Unset(env, ss))| == Count(ss, (s: Setting) => !Truthy(env, s.key))
  {
    var p := (s: Setting) => !Truthy(env, s.key);
    FilterIsSubseq(ss, p);
    forall s | s in ss && !Truthy(env, s.key) ensures s in Unset(env, ss) {
      FilterKeeps(ss, p, s);
    }
  }

  /** The configuration is valid exactly when the OpenAI key and the Instagram username and
      password are all set; the optional settings never make it invalid. */
  lemma ValidIffRequiredSet(env: map<string, string>)
    ensures Unset(env, RequiredSettings) == []
        <==> Truthy(env, "OPENAI_API_KEY") && Truthy(env, "INSTAGRAM_USERNAME") && Truthy(env, "INSTAGRAM_PASSWORD")
  {
    UnsetProps(env, RequiredSettings);
    var u := Unset(env, RequiredSettings);
    if u != [] {
      assert u[0] in u;
    }
    assert RequiredSettings[0] in RequiredSettings && RequiredSettings[1] in RequiredSettings
      && RequiredSettings[2] in RequiredSettings;
  }
}
