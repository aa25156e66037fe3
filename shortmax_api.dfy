/** The JSON API of the Shortmax server (app.js): `safeApiGet` over an upstream outcome, the
    record builders that coerce missing upstream fields to defaults, the per-route cache keys and
    TTL rules, and the five `/api/...` handlers, each a method over the shared MemCache. */
module ShortmaxApi {
  import opened Js
  import opened ShortmaxCache

  // ---------------------------------------------------------------------------
  // safeApiGet

  /** What the axios call did. With `validateStatus: () => true` every HTTP status resolves, so the
      call only throws for a network error, a timeout or an unparsable response. */
  datatype Upstream = Threw | Answered(status: int, body: Value)

  datatype ApiError = MissingToken | UpstreamFail | UpstreamError

  /** The `error` string sent to the browser. */
  function ErrorCode(e: ApiError): string {
    match e
    case MissingToken => "missing_token"
    case UpstreamFail => "upstream_fail"
    case UpstreamError => "upstream_error"
  }

  /** The `{ ok, status, data, error }` record safeApiGet resolves to. */
  datatype ApiResult = ApiResult(ok: bool, status: int, data: Value, error: Option<ApiError>)

  /** safeApiGet: a missing token fails before any upstream call, a thrown call is an
      `upstream_error` with status 500, a non-2xx status is an `upstream_fail` carrying that status,
      and only a 2xx answer is ok, carrying its body. */
  function SafeApiGet(token: string, upstream: Upstream): (r: ApiResult)
    ensures r.ok <==> r.error == None
    ensures r.ok <==> token != "" && upstream.Answered? && 200 <= upstream.status < 300
    ensures r.ok ==> r.status == upstream.status && r.data == upstream.body
    ensures !r.ok ==> r.data == Null
    ensures token == "" ==> r.error == Some(MissingToken) && r.status == 500
    ensures token != "" && upstream.Threw? ==> r.error == Some(UpstreamError) && r.status == 500
    ensures token != "" && upstream.Answered? && !(200 <= upstream.status < 300) ==>
              r.error == Some(UpstreamFail) && r.status == upstream.status
  {
    if token == "" then ApiResult(false, 500, Null, Some(MissingToken))
    else match upstream
      case Threw => ApiResult(false, 500, Null, Some(UpstreamError))
      case Answered(status, body) =>
        if status < 200 || status >= 300 then ApiResult(false, status, Null, Some(UpstreamFail))
        else ApiResult(true, status, body, None)
  }

  /** Without a token the upstream outcome is never looked at. */
  lemma MissingTokenIgnoresUpstream(u1: Upstream, u2: Upstream)
    ensures SafeApiGet("", u1) == SafeApiGet("", u2)
  {
  }

  // ---------------------------------------------------------------------------
  // Record builders

  /** A text field copied as `x || ""`: kept when truthy, else the empty string. */
  predicate TextDefaulted(src: Value, out: Value) {
    (Truthy(src) ==> out == src) && (!Truthy(src) ==> out == Str(""))
  }

  /** A count copied as `Number(x || 0)`: a falsy field is 0, anything else goes through Number(). */
  predicate CountDefaulted(src: Value, out: JsNum) {
    (Truthy(src) ==> out == ToNumber(src)) && (!Truthy(src) ==> out == Int(0))
  }

  /** The card shape the older UI expects (normalizeShow). */
  datatype Show = Show(
    id: JsNum, code: JsNum, name: Value, cover: Value, episodes: JsNum, views: JsNum,
    favorites: JsNum, summary: Value, tags: seq<Value>, tagline: Value)

  /** normalizeShow: never fails on missing fields. Only a null item throws (the default
      parameter covers undefined, not null); otherwise every text field defaults to "", every
      count to 0, and `tags` is the upstream array only when it is an array. */
  function NormalizeShow(item: Value): (r: Completion<Show>)
    ensures r.Thrown? <==> item == Null
    ensures r.Normal? ==>
      && CountDefaulted(Get(item, "id"), r.value.id)
      && CountDefaulted(Get(item, "code"), r.value.code)
      && TextDefaulted(Get(item, "name"), r.value.name)
      && TextDefaulted(Get(item, "cover"), r.value.cover)
      && CountDefaulted(Get(item, "episodes"), r.value.episodes)
      && CountDefaulted(Get(item, "views"), r.value.views)
      && CountDefaulted(Get(item, "favorites"), r.value.favorites)
      && TextDefaulted(Get(item, "summary"), r.value.summary)
      && (Get(item, "tags").Arr? ==> r.value.tags == Get(item, "tags").items)
      && (!Get(item, "tags").Arr? ==> r.value.tags == [])
      && TextDefaulted(Get(item, "tagline"), r.value.tagline)
  {
    if item == Null then Thrown
    else
      var it := if item == Undefined then Obj(map[]) else item;
      Normal(Show(
        id := NumberOr0(Get(it, "id")),
        code := NumberOr0(Get(it, "code")),
        name := Or(Get(it, "name"), Str("")),
        cover := Or(Get(it, "cover"), Str("")),
        episodes := NumberOr0(Get(it, "episodes")),
        views := NumberOr0(Get(it, "views")),
        favorites := NumberOr0(Get(it, "favorites")),
        summary := Or(Get(it, "summary"), Str("")),
        tags := if Get(it, "tags").Arr? then Get(it, "tags").items else [],
        tagline := Or(Get(it, "tagline"), Str(""))))
  }

  /** The record every field of which is defaulted. */
  const EmptyShow := Show(Int(0), Int(0), Str(""), Str(""), Int(0), Int(0), Int(0), Str(""), [], Str(""))

  /** An item with none of the fields, an undefined item and an item that is not an object at
      all are all normalized to the fully defaulted record. */
  lemma NormalizeShowDefaults(item: Value)
    requires item == Undefined || (item.Obj? && item.fields == map[]) || item.Str? || item.Num? || item.Bool?
    ensures NormalizeShow(item) == Normal(EmptyShow)
  {
  }

  /** `list.map(normalizeShow)`: throws as soon as an element is null, else maps every element. */
  function NormalizeShows(items: seq<Value>): (r: Completion<seq<Show>>)
    ensures r.Thrown? <==> Null in items
    ensures r.Normal? ==>
      && |r.value| == |items|
      && forall i :: 0 <= i < |items| ==> NormalizeShow(items[i]) == Normal(r.value[i])
  {
    if items == [] then Normal([])
    else match NormalizeShow(items[0])
      case Thrown => Thrown
      case Normal(s) =>
        match NormalizeShows(items[1..])
        case Thrown => Thrown
        case Normal(rest) => Normal([s] + rest)
  }

  /** One row of the episodes list. */
  datatype EpisodeRow = EpisodeRow(id: JsNum, episode: JsNum, locked: bool)

  /** The episode mapper `x => ({ id, episode, locked })`: reading a field of a null or undefined
      element throws; otherwise counts default to 0 and `locked` is the field's truthiness. */
  function EpisodeRowOf(x: Value): (r: Completion<EpisodeRow>)
    ensures r.Thrown? <==> x == Null || x == Undefined
    ensures r.Normal? ==>
      && CountDefaulted(Get(x, "id"), r.value.id)
      && CountDefaulted(Get(x, "episode"), r.value.episode)
      && r.value.locked == Truthy(Get(x, "locked"))
  {
    match Member(x, "id")
    case Thrown => Thrown
    case Normal(id) => Normal(EpisodeRow(NumberOr0(id), NumberOr0(Get(x, "episode")), Truthy(Get(x, "locked"))))
  }

  function EpisodeRows(items: seq<Value>): (r: Completion<seq<EpisodeRow>>)
    ensures r.Thrown? <==> (Null in items || Undefined in items)
    ensures r.Normal? ==>
      && |r.value| == |items|
      && forall i :: 0 <= i < |items| ==> EpisodeRowOf(items[i]) == Normal(r.value[i])
  {
    if items == [] then Normal([])
    else match EpisodeRowOf(items[0])
      case Thrown => Thrown
      case Normal(row) =>
        match EpisodeRows(items[1..])
        case Thrown => Thrown
        case Normal(rest) => Normal([row] + rest)
  }

  /** The playback record built from the upstream `data` object. */
  datatype Play = Play(id: JsNum, name: Value, episode: JsNum, total: JsNum, video: Value, expires: JsNum, expiresIn: JsNum)

  /** `d ? { ... } : null` with `d = r.data?.data || null`: no record for a falsy `data`; otherwise
      counts default to 0, `episode` falls back to the requested episode number and `video` to {}. */
  function PlayOf(body: Value, ep: JsNum): (r: Option<Play>)
    ensures r.None? <==> !Truthy(Get(body, "data"))
    ensures r.Some? ==> var d := Get(body, "data");
      && CountDefaulted(Get(d, "id"), r.value.id)
      && TextDefaulted(Get(d, "name"), r.value.name)
      && (Truthy(Get(d, "episode")) ==> r.value.episode == ToNumber(Get(d, "episode")))
      && (!Truthy(Get(d, "episode")) ==> r.value.episode == ep)
      && CountDefaulted(Get(d, "total"), r.value.total)
      && (Truthy(Get(d, "video")) ==> r.value.video == Get(d, "video"))
      && (!Truthy(Get(d, "video")) ==> r.value.video == Obj(map[]))
      && CountDefaulted(Get(d, "expires"), r.value.expires)
      && CountDefaulted(Get(d, "expires_in"), r.value.expiresIn)
  {
    var d := Or(Get(body, "data"), Null);
    if !Truthy(d) then None
    else Some(Play(
      id := NumberOr0(Get(d, "id")),
      name := Or(Get(d, "name"), Str("")),
      episode := ToNumber(Or(Get(d, "episode"), Num(ep))),
      total := NumberOr0(Get(d, "total")),
      video := Or(Get(d, "video"), Obj(map[])),
      expires := NumberOr0(Get(d, "expires")),
      expiresIn := NumberOr0(Get(d, "expires_in"))))
  }

  // ---------------------------------------------------------------------------
  // Payloads, responses and TTLs

  /** The JSON payload each route sends and caches. */
  datatype Payload =
    | LanguagesPayload(languages: seq<Value>, cached: bool, ttl: JsNum)
    | HomePayload(shows: seq<Show>, featured: Option<Show>, cached: bool, ttl: JsNum)
    | SearchPayload(shows: seq<Show>, q: string, lang: string, cached: bool, ttl: JsNum)
    | EpisodesPayload(episodes: seq<EpisodeRow>, code: string, lang: string, cached: bool, ttl: JsNum)
    | PlayPayload(play: Option<Play>, cached: bool, ttl: JsNum, code: string, lang: string, ep: JsNum)

  /** The body of a response. */
  datatype Body =
    | Served(payload: Payload)                                        // a fresh or a cached payload
    | EmptyData(error: string)                                        // { data: [], error }
    | NoQuery(lang: string)                                           // { data: [], q: "", lang }
    | EmptySearch(q: string, lang: string, error: string)             // { data: [], q, lang, error }
    | MissingCode                                                     // { error: "missing_code" }
    | EmptyEpisodes(code: string, lang: string, error: string)        // { data: [], code, lang, error }
    | NoPlay(code: string, lang: string, ep: JsNum, error: string)    // { data: null, code, lang, ep, error }

  /** A response, or a handler whose promise rejected and sent nothing. */
  datatype Reply = Reply(status: int, body: Body) | Rejected

  /** `r.data?.data` when it is an array, else []. */
  function ListOf(body: Value): (items: seq<Value>)
    ensures Get(body, "data").Arr? ==> items == Get(body, "data").items
    ensures !Get(body, "data").Arr? ==> items == []
  {
    if Get(body, "data").Arr? then Get(body, "data").items else []
  }

  /** `Boolean(r.data?.cached)` */
  function CachedFlag(body: Value): bool {
    Truthy(Get(body, "cached"))
  }

  /** `Number(r.data?.ttl || 0)` */
  function TtlOf(body: Value): JsNum {
    NumberOr0(Get(body, "ttl"))
  }

  /** `if (payload.ttl) cacheSet(key, payload, payload.ttl)`: the listing routes cache only a
      payload whose ttl is non-zero (a zero or NaN ttl means "do not cache"). */
  function AfterListing(m: map<string, Entry<Payload>>, key: string, p: Payload, now: int): (m': map<string, Entry<Payload>>)
    ensures Truthy(Num(p.ttl)) ==> m' == Stored(m, key, p, p.ttl.i, now)
    ensures !Truthy(Num(p.ttl)) ==> m' == m
  {
    if Truthy(Num(p.ttl)) then Stored(m, key, p, p.ttl.i, now) else m
  }

  /** The play cache TTL in seconds: the payload's ttl when non-zero, else `expires_in` clamped
      to [5, 120], where a missing or NaN `expires_in` counts as 0 (so gives 5). */
  function PlayTtl(ttl: JsNum, play: Option<Play>): (t: int)
    ensures Truthy(Num(ttl)) ==> t == ttl.i
    ensures !Truthy(Num(ttl)) ==> 5 <= t <= 120
    ensures !Truthy(Num(ttl)) && play.Some? && play.value.expiresIn.Int? && 5 <= play.value.expiresIn.i <= 120 ==>
              t == play.value.expiresIn.i
    ensures !Truthy(Num(ttl)) && play.Some? && play.value.expiresIn.Int? && play.value.expiresIn.i > 120 ==> t == 120
    ensures !Truthy(Num(ttl)) && play.Some? && play.value.expiresIn.Int? && play.value.expiresIn.i < 5 ==> t == 5
    ensures !Truthy(Num(ttl)) && (play.None? || !Truthy(Num(play.value.expiresIn))) ==> t == 5
  {
    if Truthy(Num(ttl)) then ttl.i
    else
      var e := if play.Some? && Truthy(Num(play.value.expiresIn)) then play.value.expiresIn.i else 0;
      var lo := if e > 5 then e else 5;
      if lo < 120 then lo else 120
  }

  /** Without a payload ttl the play entry is served for at least 5 seconds and never after
      120 seconds. */
  lemma PlayFallbackLifetime(m: map<string, Entry<Payload>>, key: string, p: Payload, now: int, t: int)
    requires p.PlayPayload? && !Truthy(Num(p.ttl)) && now <= t
    ensures t <= now + 5000 ==> Lookup(Stored(m, key, p, PlayTtl(p.ttl, p.play), now), key, t) == Some(p)
    ensures t > now + 120000 ==> Lookup(Stored(m, key, p, PlayTtl(p.ttl, p.play), now), key, t) == None
  {
    var ttl := PlayTtl(p.ttl, p.play);
    assert 5 <= ttl <= 120;
    assert 5000 <= LifetimeMs(ttl) <= 120000;
    StoreThenLookup(m, key, p, ttl, now, t);
  }

  /** A listing payload with a non-zero ttl is served by the next lookup within a second of its
      store; one without a ttl leaves the key serving what it served before. */
  lemma ListingCachedOnlyWithTtl(m: map<string, Entry<Payload>>, key: string, p: Payload, now: int, t: int)
    requires now <= t < now + 1000
    ensures Truthy(Num(p.ttl)) ==> Lookup(AfterListing(m, key, p, now), key, t) == Some(p)
    ensures !Truthy(Num(p.ttl)) ==> Lookup(AfterListing(m, key, p, now), key, t) == Lookup(m, key, t)
  {
    if Truthy(Num(p.ttl)) {
      StoreThenLookup(m, key, p, p.ttl.i, now, t);
    }
  }

  /** The fallback does not bound the cache lifetime by the URL's own expiry: a URL said to
      expire in 2 seconds is cached for 5. */
  lemma PlayTtlCanOutliveUrl()
    ensures PlayTtl(Int(0), Some(Play(Int(0), Str(""), Int(1), Int(0), Obj(map[]), Int(0), Int(2)))) == 5
  {
  }

  // ---------------------------------------------------------------------------
  // Query parameters and cache keys

  /** `String(req.query.x || dflt)`: an absent or empty parameter takes the default. */
  function QueryOr(param: string, dflt: string): (s: string)
    ensures param != "" ==> s == param
    ensures param == "" ==> s == dflt
  {
    if param != "" then param else dflt
  }

  /** `Number(req.query.ep || 1)`: an absent `ep` is episode 1, a present one is read as a number. */
  function EpOf(param: string): (n: JsNum)
    ensures param == "" ==> n == Int(1)
    ensures param != "" ==> n == StringToNumber(param)
    ensures AllDigits(Trim(param)) && Trim(param) != "" ==> n == Int(DigitsValue(Trim(param)))
    ensures param != "" && Trim(param) == "" ==> n == Int(0)
  {
    if param == "" then Int(1) else StringToNumber(param)
  }

  const LanguagesKey := "languages"

  function HomeKey(lang: string): string {
    "home:" + lang
  }

  function SearchKey(lang: string, q: string): string {
    "search:" + lang + ":" + Lower(q)
  }

  function EpisodesKey(lang: string, code: string): string {
    "eps:" + lang + ":" + code
  }

  function PlayKey(lang: string, code: string, ep: JsNum): string {
    "play:" + lang + ":" + code + ":" + NumToString(ep)
  }

  /** Two strings are equal up to ASCII case. */
  predicate SameIgnoringCase(a: string, b: string) {
    |a| == |b| && forall i :: 0 <= i < |a| ==> LowerChar(a[i]) == LowerChar(b[i])
  }

  /** Two strings that differ only in letter case share one search key, and for a language
      without ':' the search key determines the language and the query up to case. */
  lemma SearchKeyIgnoresCase(lang1: string, q1: string, lang2: string, q2: string)
    requires ':' !in lang1 && ':' !in lang2
    ensures SearchKey(lang1, q1) == SearchKey(lang2, q2) <==> lang1 == lang2 && SameIgnoringCase(q1, q2)
  {
    var x1, x2 := "search:" + lang1 + ":" + Lower(q1), "search:" + lang2 + ":" + Lower(q2);
    if x1 == x2 {
      assert x1[7..] == x2[7..];
      assert x1[7..] == lang1 + ":" + Lower(q1);
      assert x2[7..] == lang2 + ":" + Lower(q2);
      SplitAtColon(lang1, Lower(q1), lang2, Lower(q2));
      assert forall i :: 0 <= i < |q1| ==> LowerChar(q1[i]) == Lower(q1)[i] == Lower(q2)[i] == LowerChar(q2[i]);
    }
    if lang1 == lang2 && SameIgnoringCase(q1, q2) {
      assert Lower(q1) == Lower(q2);
    }
  }

  /** A language containing ':' makes two different searches share a key. */
  lemma SearchKeyCollision()
    ensures SearchKey("en:x", "y") == SearchKey("en", "x:y")
  {
  }

  /** Episode keys determine language and code when the language has no ':'. */
  lemma EpisodesKeyInjective(lang1: string, code1: string, lang2: string, code2: string)
    requires ':' !in lang1 && ':' !in lang2
    ensures EpisodesKey(lang1, code1) == EpisodesKey(lang2, code2) <==> lang1 == lang2 && code1 == code2
  {
    var x1, x2 := EpisodesKey(lang1, code1), EpisodesKey(lang2, code2);
    if x1 == x2 {
      assert x1[4..] == lang1 + ":" + code1;
      assert x2[4..] == lang2 + ":" + code2;
      SplitAtColon(lang1, code1, lang2, code2);
    }
  }

  /** The play key holds the episode as a number: a leading zero in `ep` does not change the
      key, and an absent `ep` shares the key of `ep=1`. */
  lemma PlayKeyReadsEpAsNumber(lang: string, code: string, d: string)
    requires d != [] && AllDigits(d)
    ensures PlayKey(lang, code, EpOf("0" + d)) == PlayKey(lang, code, EpOf(d))
    ensures PlayKey(lang, code, EpOf("")) == PlayKey(lang, code, EpOf("1"))
  {
    LeadingZeroReadsSame(d);
    OneReadsAsOne();
  }

  /** A leading zero does not change the number a run of digits reads as. */
  lemma LeadingZeroReadsSame(s: string)
    requires s != [] && AllDigits(s)
    ensures StringToNumber("0" + s) == StringToNumber(s)
  {
    LeadingZeroValue(s);
    DigitsReadAsNumber(s);
    DigitsReadAsNumber("0" + s);
  }

  lemma {:induction false} LeadingZeroValue(s: string)
    requires AllDigits(s)
    ensures AllDigits("0" + s) && DigitsValue("0" + s) == DigitsValue(s)
  {
    var t := "0" + s;
    if s == [] {
      assert t[..0] == [];
    } else {
      assert t[..|t| - 1] == "0" + s[..|s| - 1];
      LeadingZeroValue(s[..|s| - 1]);
    }
  }

  /** A non-empty run of decimal digits reads as its value. */
  lemma DigitsReadAsNumber(s: string)
    requires s != [] && AllDigits(s)
    ensures StringToNumber(s) == Int(DigitsValue(s))
  {
    assert IsDigit(s[0]) && IsDigit(s[|s| - 1]);
    TrimOfNoSpace(s);
  }

  lemma OneReadsAsOne()
    ensures StringToNumber("1") == Int(1)
  {
    NumberOfPrintedInt(1);
    assert IntToString(1) == [DigitChar(1)] == "1";
  }

  /** A link that carries the episode number as the key prints it reaches the same entry: the
      number in a play key reads back as itself. */
  lemma PlayKeyEpRoundTrip(lang: string, code: string, i: int)
    ensures PlayKey(lang, code, EpOf(NumToString(Int(i)))) == PlayKey(lang, code, Int(i))
  {
    NumberOfPrintedInt(i);
  }

  /** Keys of different routes never collide: each family has its own first letter. */
  lemma RouteKeysDisjoint(lang: string, lang': string, q: string, code: string, code': string, ep: JsNum)
    ensures |{LanguagesKey[0], HomeKey(lang)[0], SearchKey(lang', q)[0], EpisodesKey(lang, code)[0], PlayKey(lang', code', ep)[0]}| == 5
    ensures LanguagesKey != HomeKey(lang) && HomeKey(lang) != SearchKey(lang', q) && SearchKey(lang', q) != EpisodesKey(lang, code)
    ensures EpisodesKey(lang, code) != PlayKey(lang', code', ep) && PlayKey(lang', code', ep) != LanguagesKey
    ensures LanguagesKey != SearchKey(lang', q) && LanguagesKey != EpisodesKey(lang, code)
    ensures HomeKey(lang) != EpisodesKey(lang, code) && HomeKey(lang) != PlayKey(lang', code', ep)
    ensures SearchKey(lang', q) != PlayKey(lang', code', ep)
  {
    assert HomeKey(lang)[0] == 'h';
    assert SearchKey(lang', q)[0] == 's';
    assert EpisodesKey(lang, code)[0] == 'e';
    assert PlayKey(lang', code', ep)[0] == 'p';
  }

  // ---------------------------------------------------------------------------
  // Handlers
  //
  // Each handler reads the clock twice, as app.js does: `now` when it looks the key up, and
  // `nowSet` when it stores the fresh payload after the upstream call has returned.

  /** GET /api/languages */
  method Languages(cache: MemCache<Payload>, token: string, upstream: Upstream, now: int, nowSet: int)
    returns (reply: Reply, contacted: bool)
    modifies cache
    ensures var hit := Lookup(old(cache.entries), LanguagesKey, now);
            var rest := Evicted(old(cache.entries), LanguagesKey, now);
            var r := SafeApiGet(token, upstream);
      && (hit.Some? ==> reply == Reply(200, Served(hit.value)) && !contacted && cache.entries == old(cache.entries))
      && (hit.None? ==> contacted == (token != ""))
      && (hit.None? && !r.ok ==> reply == Reply(200, EmptyData(ErrorCode(r.error.value))) && cache.entries == rest)
      && (hit.None? && r.ok ==>
            var p := LanguagesPayload(ListOf(r.data), CachedFlag(r.data), TtlOf(r.data));
            reply == Reply(200, Served(p)) && cache.entries == AfterListing(rest, LanguagesKey, p, nowSet))
  {
    var cached := cache.Get(LanguagesKey, now);
    if cached.Some? {
      return Reply(200, Served(cached.value)), false;
    }
    contacted := token != "";
    var r := SafeApiGet(token, upstream);
    if !r.ok {
      return Reply(200, EmptyData(ErrorCode(r.error.value))), contacted;
    }
    var payload := LanguagesPayload(ListOf(r.data), CachedFlag(r.data), TtlOf(r.data));
    if Truthy(Num(payload.ttl)) {
      cache.Set(LanguagesKey, payload, payload.ttl.i, nowSet);
    }
    reply := Reply(200, Served(payload));
  }

  /** GET /api/home?lang= */
  method Home(cache: MemCache<Payload>, langParam: string, token: string, upstream: Upstream, now: int, nowSet: int)
    returns (reply: Reply, contacted: bool)
    modifies cache
    ensures var key := HomeKey(QueryOr(langParam, "en"));
            var hit := Lookup(old(cache.entries), key, now);
            var rest := Evicted(old(cache.entries), key, now);
            var r := SafeApiGet(token, upstream);
      && (hit.Some? ==> reply == Reply(200, Served(hit.value)) && !contacted && cache.entries == old(cache.entries))
      && (hit.None? ==> contacted == (token != ""))
      && (hit.None? && !r.ok ==> reply == Reply(200, EmptyData(ErrorCode(r.error.value))) && cache.entries == rest)
      && (hit.None? && r.ok && Null in ListOf(r.data) ==> reply == Rejected && cache.entries == rest)
      && (hit.None? && r.ok && Null !in ListOf(r.data) ==>
            var shows := NormalizeShows(ListOf(r.data)).value;
            var p := HomePayload(shows, if shows == [] then None else Some(shows[0]), CachedFlag(r.data), TtlOf(r.data));
            reply == Reply(200, Served(p)) && cache.entries == AfterListing(rest, key, p, nowSet))
  {
    var lang := QueryOr(langParam, "en");
    var key := HomeKey(lang);
    var cached := cache.Get(key, now);
    if cached.Some? {
      return Reply(200, Served(cached.value)), false;
    }
    contacted := token != "";
    var r := SafeApiGet(token, upstream);
    if !r.ok {
      return Reply(200, EmptyData(ErrorCode(r.error.value))), contacted;
    }
    var list := NormalizeShows(ListOf(r.data));
    if list.Thrown? {
      return Rejected, contacted;
    }
    var shows := list.value;
    var payload := HomePayload(shows, if shows == [] then None else Some(shows[0]), CachedFlag(r.data), TtlOf(r.data));
    if Truthy(Num(payload.ttl)) {
      cache.Set(key, payload, payload.ttl.i, nowSet);
    }
    reply := Reply(200, Served(payload));
  }

  /** GET /api/search?q=&lang= */
  method Search(cache: MemCache<Payload>, qParam: string, langParam: string, token: string, upstream: Upstream, now: int, nowSet: int)
    returns (reply: Reply, contacted: bool)
    modifies cache
    ensures var q := Trim(qParam);
            var lang := QueryOr(langParam, "en");
            var key := SearchKey(lang, q);
            var hit := Lookup(old(cache.entries), key, now);
            var rest := Evicted(old(cache.entries), key, now);
            var r := SafeApiGet(token, upstream);
      && (q == "" ==> reply == Reply(200, NoQuery(lang)) && !contacted && cache.entries == old(cache.entries))
      && (q != "" && hit.Some? ==> reply == Reply(200, Served(hit.value)) && !contacted && cache.entries == old(cache.entries))
      && (q != "" && hit.None? ==> contacted == (token != ""))
      && (q != "" && hit.None? && !r.ok ==> reply == Reply(200, EmptySearch(q, lang, ErrorCode(r.error.value))) && cache.entries == rest)
      && (q != "" && hit.None? && r.ok && Null in ListOf(r.data) ==> reply == Rejected && cache.entries == rest)
      && (q != "" && hit.None? && r.ok && Null !in ListOf(r.data) ==>
            var p := SearchPayload(NormalizeShows(ListOf(r.data)).value, q, lang, CachedFlag(r.data), TtlOf(r.data));
            reply == Reply(200, Served(p)) && cache.entries == AfterListing(rest, key, p, nowSet))
  {
    var q := Trim(qParam);
    var lang := QueryOr(langParam, "en");
    if q == "" {
      return Reply(200, NoQuery(lang)), false;
    }
    var key := SearchKey(lang, q);
    var cached := cache.Get(key, now);
    if cached.Some? {
      return Reply(200, Served(cached.value)), false;
    }
    contacted := token != "";
    var r := SafeApiGet(token, upstream);
    if !r.ok {
      return Reply(200, EmptySearch(q, lang, ErrorCode(r.error.value))), contacted;
    }
    var list := NormalizeShows(ListOf(r.data));
    if list.Thrown? {
      return Rejected, contacted;
    }
    var payload := SearchPayload(list.value, q, lang, CachedFlag(r.data), TtlOf(r.data));
    if Truthy(Num(payload.ttl)) {
      cache.Set(key, payload, payload.ttl.i, nowSet);
    }
    reply := Reply(200, Served(payload));
  }

  /** GET /api/episodes/:code?lang= */
  method Episodes(cache: MemCache<Payload>, code: string, langParam: string, token: string, upstream: Upstream, now: int, nowSet: int)
    returns (reply: Reply, contacted: bool)
    modifies cache
    ensures var lang := QueryOr(langParam, "en");
            var key := EpisodesKey(lang, code);
            var hit := Lookup(old(cache.entries), key, now);
            var rest := Evicted(old(cache.entries), key, now);
            var r := SafeApiGet(token, upstream);
            var items := ListOf(r.data);
      && (code == "" ==> reply == Reply(400, MissingCode) && !contacted && cache.entries == old(cache.entries))
      && (code != "" && hit.Some? ==> reply == Reply(200, Served(hit.value)) && !contacted && cache.entries == old(cache.entries))
      && (code != "" && hit.None? ==> contacted == (token != ""))
      && (code != "" && hit.None? && !r.ok ==> reply == Reply(200, EmptyEpisodes(code, lang, ErrorCode(r.error.value))) && cache.entries == rest)
      && (code != "" && hit.None? && r.ok && (Null in items || Undefined in items) ==> reply == Rejected && cache.entries == rest)
      && (code != "" && hit.None? && r.ok && Null !in items && Undefined !in items ==>
            var p := EpisodesPayload(EpisodeRows(items).value, code, lang, CachedFlag(r.data), TtlOf(r.data));
            reply == Reply(200, Served(p)) && cache.entries == AfterListing(rest, key, p, nowSet))
  {
    var lang := QueryOr(langParam, "en");
    if code == "" {
      return Reply(400, MissingCode), false;
    }
    var key := EpisodesKey(lang, code);
    var cached := cache.Get(key, now);
    if cached.Some? {
      return Reply(200, Served(cached.value)), false;
    }
    contacted := token != "";
    var r := SafeApiGet(token, upstream);
    if !r.ok {
      return Reply(200, EmptyEpisodes(code, lang, ErrorCode(r.error.value))), contacted;
    }
    var rows := EpisodeRows(ListOf(r.data));
    if rows.Thrown? {
      return Rejected, contacted;
    }
    var payload := EpisodesPayload(rows.value, code, lang, CachedFlag(r.data), TtlOf(r.data));
    if Truthy(Num(payload.ttl)) {
      cache.Set(key, payload, payload.ttl.i, nowSet);
    }
    reply := Reply(200, Served(payload));
  }

  /** GET /api/play/:code?lang=&ep= ; the play payload is always cached, for PlayTtl seconds. */
  method PlayRoute(cache: MemCache<Payload>, code: string, langParam: string, epParam: string, token: string, upstream: Upstream, now: int, nowSet: int)
    returns (reply: Reply, contacted: bool)
    modifies cache
    ensures var lang := QueryOr(langParam, "en");
            var ep := EpOf(epParam);
            var key := PlayKey(lang, code, ep);
            var hit := Lookup(old(cache.entries), key, now);
            var rest := Evicted(old(cache.entries), key, now);
            var r := SafeApiGet(token, upstream);
      && (code == "" ==> reply == Reply(400, MissingCode) && !contacted && cache.entries == old(cache.entries))
      && (code != "" && hit.Some? ==> reply == Reply(200, Served(hit.value)) && !contacted && cache.entries == old(cache.entries))
      && (code != "" && hit.None? ==> contacted == (token != ""))
      && (code != "" && hit.None? && !r.ok ==> reply == Reply(200, NoPlay(code, lang, ep, ErrorCode(r.error.value))) && cache.entries == rest)
      && (code != "" && hit.None? && r.ok ==>
            var p := PlayPayload(PlayOf(r.data, ep), CachedFlag(r.data), TtlOf(r.data), code, lang, ep);
            reply == Reply(200, Served(p)) && cache.entries == Stored(rest, key, p, PlayTtl(p.ttl, p.play), nowSet))
  {
    var lang := QueryOr(langParam, "en");
    var ep := EpOf(epParam);
    if code == "" {
      return Reply(400, MissingCode), false;
    }
    var key := PlayKey(lang, code, ep);
    var cached := cache.Get(key, now);
    if cached.Some? {
      return Reply(200, Served(cached.value)), false;
    }
    contacted := token != "";
    var r := SafeApiGet(token, upstream);
    if !r.ok {
      return Reply(200, NoPlay(code, lang, ep, ErrorCode(r.error.value))), contacted;
    }
    var payload := PlayPayload(PlayOf(r.data, ep), CachedFlag(r.data), TtlOf(r.data), code, lang, ep);
    cache.Set(key, payload, PlayTtl(payload.ttl, payload.play), nowSet);
    reply := Reply(200, Served(payload));
  }
}
