/** The Dramabox proxy server (server.js, duplicated almost verbatim as public/app.js): the
    get-or-fetch-and-store `apiGet` over a shared cache, the URL and metadata helpers, and the
    rules that assemble the home, browse, watch and sitemap pages from upstream sections.
    The upstream is an abstract outcome per request, and the cache an abstract map. */
module DramaboxProxy {
  import opened Js

  const SiteName := "PanStream"
  const DefaultTitle := "PanStream • Streaming Drama"
  const DefaultDescription := "PanStream – streaming drama pilihanmu dengan pengalaman premium."

  // ---------------------------------------------------------------------------
  // The apiGet cache key: "GET:" + path + ":" + JSON.stringify(params)

  datatype ParamValue = PStr(s: string) | PNum(n: JsNum)

  /** One query parameter; a request's parameters are kept in insertion order. */
  datatype Param = Param(name: string, value: ParamValue)

  function HexDigit(d: nat): char
    requires d < 16
  {
    if d < 10 then DigitChar(d) else ('a' as int + d - 10) as char
  }

  /** How JSON.stringify writes one character inside a string literal. */
  function JsonChar(c: char): string {
    if c == '"' then "\\\""
    else if c == '\\' then "\\\\"
    else if c == '\U{0008}' then "\\b"
    else if c == '\U{000C}' then "\\f"
    else if c == '\n' then "\\n"
    else if c == '\r' then "\\r"
    else if c == '\t' then "\\t"
    else if (c as int) < 0x20 then "\\u00" + [HexDigit(c as int / 16), HexDigit(c as int % 16)]
    else [c]
  }

  function JsonEscape(s: string): string {
    if s == [] then [] else JsonChar(s[0]) + JsonEscape(s[1..])
  }

  function JsonString(s: string): string {
    "\"" + JsonEscape(s) + "\""
  }

  /** A number is written in decimal; NaN is written as null. */
  function JsonValue(v: ParamValue): string {
    match v
    case PStr(s) => JsonString(s)
    case PNum(n) => if n.NaN? then "null" else NumToString(n)
  }

  function JsonMember(p: Param): string {
    JsonString(p.name) + ":" + JsonValue(p.value)
  }

  function JsonMembers(ps: seq<Param>): string {
    if ps == [] then ""
    else if |ps| == 1 then JsonMember(ps[0])
    else JsonMember(ps[0]) + "," + JsonMembers(ps[1..])
  }

  /** JSON.stringify of the flat parameter object, members in insertion order. */
  function JsonParams(ps: seq<Param>): string {
    "{" + JsonMembers(ps) + "}"
  }

  function CacheKey(path: string, params: seq<Param>): string {
    "GET:" + (path + ":" + JsonParams(params))
  }

  /** For paths without ':' (every path the routes use), the key determines the path and the
      serialized parameters: different paths never share an entry. */
  lemma CacheKeySeparatesPaths(p1: string, ps1: seq<Param>, p2: string, ps2: seq<Param>)
    requires ':' !in p1 && ':' !in p2
    ensures CacheKey(p1, ps1) == CacheKey(p2, ps2) <==> p1 == p2 && JsonParams(ps1) == JsonParams(ps2)
  {
    var t1, t2 := p1 + ":" + JsonParams(ps1), p2 + ":" + JsonParams(ps2);
    if CacheKey(p1, ps1) == CacheKey(p2, ps2) {
      assert ("GET:" + t1)[4..] == t1 && ("GET:" + t2)[4..] == t2;
      SplitAtColon(p1, JsonParams(ps1), p2, JsonParams(ps2));
    }
  }

  predicate IsLetter(c: char) {
    'a' <= c <= 'z' || 'A' <= c <= 'Z'
  }

  /** The key depends on the order in which parameters were inserted: the same two parameters
      written in the other order give another key, hence another cache entry. */
  lemma {:induction false} CacheKeyDependsOnOrder(path: string, x: Param, y: Param)
    requires x.name != "" && y.name != "" && IsLetter(x.name[0]) && IsLetter(y.name[0]) && x.name[0] != y.name[0]
    ensures CacheKey(path, [x, y]) != CacheKey(path, [y, x])
  {
    LeadingLetter(path, [x, y]);
    LeadingLetter(path, [y, x]);
  }

  /** The first parameter's name starts right after `GET:<path>:{"`. */
  lemma {:induction false} LeadingLetter(path: string, ps: seq<Param>)
    requires ps != [] && ps[0].name != "" && IsLetter(ps[0].name[0])
    ensures |CacheKey(path, ps)| > |path| + 7
    ensures CacheKey(path, ps)[|path| + 7] == ps[0].name[0]
  {
    MembersHead(ps);
    var ms := JsonMembers(ps);
    var tail, params := path + ":" + JsonParams(ps), JsonParams(ps);
    assert CacheKey(path, ps) == "GET:" + tail;
    assert tail == (path + ":") + params;
    assert params == ("{" + ms) + "}";
    assert params[2] == ms[1];
  }

  lemma {:induction false} MembersHead(ps: seq<Param>)
    requires ps != [] && ps[0].name != "" && IsLetter(ps[0].name[0])
    ensures |JsonMembers(ps)| > 1 && JsonMembers(ps)[1] == ps[0].name[0]
  {
    var name := ps[0].name;
    var e := JsonEscape(name);
    assert e == JsonChar(name[0]) + JsonEscape(name[1..]);
    assert JsonChar(name[0]) == [name[0]];
    var js := JsonString(name);
    assert js == "\"" + e + "\"" && js[1] == e[0];
    var m := JsonMember(ps[0]);
    assert m == js + ":" + JsonValue(ps[0].value) && m[1] == js[1];
    var ms := JsonMembers(ps);
    if |ps| == 1 {
      assert ms == m;
    } else {
      assert ms == m + "," + JsonMembers(ps[1..]) && ms[1] == m[1];
    }
  }

  // ---------------------------------------------------------------------------
  // apiGet over the shared cache

  /** What axios.get did: resolved with the parsed body, or rejected (network error, timeout,
      or any status outside 2xx, which axios rejects by default). */
  datatype Fetch = Resolved(data: Value) | Rejected

  /** A request made through apiGet. */
  datatype Call = Call(path: string, params: seq<Param>)

  function KeyOf(c: Call): string {
    CacheKey(c.path, c.params)
  }

  /** `if (hit) return hit`: a stored falsy value counts as a miss. */
  predicate Hit(store: map<string, Value>, key: string) {
    key in store && Truthy(store[key])
  }

  /** What apiGet resolves to against a store. */
  function Answer(store: map<string, Value>, c: Call, f: Fetch): (r: Completion<Value>)
    ensures Hit(store, KeyOf(c)) ==> r == Normal(store[KeyOf(c)])
    ensures !Hit(store, KeyOf(c)) && f.Resolved? ==> r == Normal(f.data)
    ensures !Hit(store, KeyOf(c)) && f.Rejected? ==> r == Thrown
  {
    if Hit(store, KeyOf(c)) then Normal(store[KeyOf(c)])
    else if f.Resolved? then Normal(f.data) else Thrown
  }

  /** What apiGet leaves in `into` when the lookup was made against `seen`: only a fetched body
      is stored, under the call's key. */
  function Remember(into: map<string, Value>, seen: map<string, Value>, c: Call, f: Fetch): map<string, Value> {
    if !Hit(seen, KeyOf(c)) && f.Resolved? then into[KeyOf(c) := f.data] else into
  }

  class ProxyCache {
    var store: map<string, Value>

    constructor ()
      ensures store == map[]
    {
      store := map[];
    }

    /** apiGet: a hit returns the stored value without fetching; a miss fetches, stores the body
        under the same key and returns it; a failed fetch throws and stores nothing. */
    method ApiGet(c: Call, f: Fetch) returns (r: Completion<Value>, fetched: bool)
      modifies this
      ensures Hit(old(store), KeyOf(c)) ==> r == Normal(old(store)[KeyOf(c)]) && !fetched && store == old(store)
      ensures !Hit(old(store), KeyOf(c)) ==> fetched
      ensures !Hit(old(store), KeyOf(c)) && f.Resolved? ==> r == Normal(f.data) && store == old(store)[KeyOf(c) := f.data]
      ensures !Hit(old(store), KeyOf(c)) && f.Rejected? ==> r == Thrown && store == old(store)
      ensures r == Answer(old(store), c, f) && store == Remember(old(store), old(store), c, f)
    {
      var key := CacheKey(c.path, c.params);
      if key in store && Truthy(store[key]) {
        return Normal(store[key]), false;
      }
      fetched := true;
      match f
      case Rejected =>
        r := Thrown;
      case Resolved(data) =>
        store := store[key := data];
        r := Normal(data);
    }

    /** NodeCache's own expiry (its default TTL and periodic sweep): an entry may vanish. */
    method Expire(key: string)
      modifies this
      ensures store == old(store) - {key}
    {
      store := store - {key};
    }

    /** `Promise.all([apiGet(...), ...])`: every call looks the cache up before any fetch settles
        (each apiGet runs synchronously up to its first await), then the fetched bodies are
        stored. Stores are applied in call order; the calls of every route have distinct keys,
        so the order in which fetches settle does not matter there. */
    method FetchAll(calls: seq<Call>, fetches: seq<Fetch>) returns (results: seq<Completion<Value>>)
      requires |fetches| == |calls|
      modifies this
      ensures |results| == |calls|
      ensures forall i :: 0 <= i < |calls| ==> results[i] == Answer(old(store), calls[i], fetches[i])
      ensures store == RememberAll(old(store), calls, fetches)
    {
      var before := store;
      results := [];
      for i := 0 to |calls|
        invariant store == before
        invariant |results| == i
        invariant forall k :: 0 <= k < i ==> results[k] == Answer(before, calls[k], fetches[k])
      {
        var key := CacheKey(calls[i].path, calls[i].params);
        if key in store && Truthy(store[key]) {
          results := results + [Normal(store[key])];
        } else if fetches[i].Resolved? {
          results := results + [Normal(fetches[i].data)];
        } else {
          results := results + [Thrown];
        }
      }
      for i := 0 to |calls|
        invariant store == RememberAll(before, calls[..i], fetches[..i])
      {
        assert calls[..i + 1][..i] == calls[..i] && fetches[..i + 1][..i] == fetches[..i];
        var key := CacheKey(calls[i].path, calls[i].params);
        if !(key in before && Truthy(before[key])) && fetches[i].Resolved? {
          store := store[key := fetches[i].data];
        }
      }
      assert calls[..|calls|] == calls && fetches[..|calls|] == fetches;
    }
  }

  /** The store after a fan-out whose lookups were all made against `seen`. */
  function RememberAll(seen: map<string, Value>, calls: seq<Call>, fetches: seq<Fetch>): map<string, Value>
    requires |fetches| == |calls|
  {
    if calls == [] then seen
    else
      var n := |calls| - 1;
      Remember(RememberAll(seen, calls[..n], fetches[..n]), seen, calls[n], fetches[n])
  }

  predicate DistinctKeys(calls: seq<Call>) {
    forall a, b :: 0 <= a < b < |calls| ==> KeyOf(calls[a]) != KeyOf(calls[b])
  }

  /** With distinct keys, a fan-out caches every body it fetched. */
  lemma {:induction false} FanOutCachesEveryFetch(seen: map<string, Value>, calls: seq<Call>, fetches: seq<Fetch>, i: nat)
    requires |fetches| == |calls| && i < |calls| && DistinctKeys(calls)
    requires !Hit(seen, KeyOf(calls[i])) && fetches[i].Resolved?
    ensures KeyOf(calls[i]) in RememberAll(seen, calls, fetches)
    ensures RememberAll(seen, calls, fetches)[KeyOf(calls[i])] == fetches[i].data
  {
    var n := |calls| - 1;
    if i < n {
      var pre, fpre := calls[..n], fetches[..n];
      forall a, b | 0 <= a < b < |pre|
        ensures KeyOf(pre[a]) != KeyOf(pre[b])
      {
        assert pre[a] == calls[a] && pre[b] == calls[b];
      }
      assert pre[i] == calls[i] && fpre[i] == fetches[i];
      FanOutCachesEveryFetch(seen, pre, fpre, i);
      assert KeyOf(calls[n]) != KeyOf(calls[i]);
    }
  }

  /** A fan-out leaves every entry that was a hit as it was, whatever the keys. */
  lemma {:induction false} RememberAllKeepsHits(seen: map<string, Value>, calls: seq<Call>, fetches: seq<Fetch>, key: string)
    requires |fetches| == |calls| && Hit(seen, key)
    ensures key in RememberAll(seen, calls, fetches) && RememberAll(seen, calls, fetches)[key] == seen[key]
  {
    if calls != [] {
      var n := |calls| - 1;
      RememberAllKeepsHits(seen, calls[..n], fetches[..n], key);
    }
  }

  // ---------------------------------------------------------------------------
  // URL and value helpers

  /** `SITE_URL.replace(/\/$/, "")`: at most one trailing slash is removed. */
  function StripTrailingSlash(s: string): (r: string)
    ensures s == r || s == r + "/"
    ensures s != [] && s[|s| - 1] == '/' ==> s == r + "/"
  {
    if s != [] && s[|s| - 1] == '/' then s[..|s| - 1] else s
  }

  /** absUrl: the site URL without its trailing slash, then the path, with a '/' inserted when
      the path does not already start with one. */
  function AbsUrl(site: string, path: string): (u: string)
    ensures StartsWith(u, StripTrailingSlash(site) + "/")
    ensures StartsWith(path, "/") ==> u == StripTrailingSlash(site) + path
    ensures !StartsWith(path, "/") ==> u == StripTrailingSlash(site) + "/" + path
  {
    var base := StripTrailingSlash(site);
    if StartsWith(path, "/") then base + path else base + "/" + path
  }

  /** A trailing slash on the site URL and a missing leading slash on the path make no
      difference; a second slash on either side is kept. */
  lemma AbsUrlNormalizes(site: string, path: string)
    requires site == [] || site[|site| - 1] != '/'
    requires !StartsWith(path, "/")
    ensures AbsUrl(site + "/", path) == AbsUrl(site, path) == AbsUrl(site, "/" + path)
    ensures AbsUrl(site + "//", path) == site + "//" + path
  {
    assert StripTrailingSlash(site + "/") == site by {
      assert (site + "/")[..|site|] == site;
    }
    assert StripTrailingSlash(site + "//") == site + "/" by {
      assert (site + "//")[..|site| + 1] == site + "/";
    }
    assert StartsWith("/" + path, "/") by {
      assert ("/" + path)[..1] == "/";
    }
    assert site + "/" + path == site + ("/" + path);
    assert site + "/" + "/" + path == site + "//" + path;
  }

  /** safeArr: the array's elements, or nothing for a non-array. */
  function SafeArr(x: Value): (r: seq<Value>)
    ensures x.Arr? ==> r == x.items
    ensures !x.Arr? ==> r == []
  {
    if x.Arr? then x.items else []
  }

  /** The section has a truthy first element. */
  predicate Leads(x: Value) {
    x.Arr? && |x.items| > 0 && Truthy(x.items[0])
  }

  /** first: the first element of an array when it is truthy, else null. */
  function First(x: Value): (r: Value)
    ensures Leads(x) ==> r == x.items[0]
    ensures !Leads(x) ==> r == Null
  {
    Or(if SafeArr(x) == [] then Undefined else SafeArr(x)[0], Null)
  }

  /** The hero: the first element of the trending section, else of latest, else of vip, taking
      the first of these that exists and is truthy; null when there is none. */
  function Hero(trending: Value, latest: Value, vip: Value): (r: Value)
    ensures r == Null || Truthy(r)
    ensures Leads(trending) ==> r == trending.items[0]
    ensures !Leads(trending) && Leads(latest) ==> r == latest.items[0]
    ensures !Leads(trending) && !Leads(latest) && Leads(vip) ==> r == vip.items[0]
    ensures !Leads(trending) && !Leads(latest) && !Leads(vip) ==> r == Null
  {
    Or(Or(First(trending), First(latest)), First(vip))
  }

  datatype PageMeta = PageMeta(title: string, description: Value, url: string, image: Value, siteName: string)

  /** baseMeta: the title gets the site name appended, or is the default; the description and
      image default to the site's text and ""; the URL is absUrl of the path, "/" when empty. */
  function BaseMeta(site: string, title: Value, description: Value, path: string, image: Value): (m: PageMeta)
    ensures Truthy(title) ==> m.title == JsString(title) + " • " + SiteName
    ensures !Truthy(title) ==> m.title == DefaultTitle
    ensures Truthy(description) ==> m.description == description
    ensures !Truthy(description) ==> m.description == Str(DefaultDescription)
    ensures path != "" ==> m.url == AbsUrl(site, path)
    ensures path == "" ==> m.url == StripTrailingSlash(site) + "/"
    ensures Truthy(image) ==> m.image == image
    ensures !Truthy(image) ==> m.image == Str("")
    ensures m.siteName == SiteName
  {
    PageMeta(
      title := if Truthy(title) then JsString(title) + " • " + SiteName else DefaultTitle,
      description := Or(description, Str(DefaultDescription)),
      url := AbsUrl(site, if path != "" then path else "/"),
      image := Or(image, Str("")),
      siteName := SiteName)
  }

  // ---------------------------------------------------------------------------
  // Pages

  predicate AllNormal(rs: seq<Completion<Value>>) {
    forall i :: 0 <= i < |rs| ==> rs[i].Normal?
  }

  /** The six home sections, in the order the route requests them. */
  const HomeCalls: seq<Call> := [
    Call("/vip", []),
    Call("/dubindo", [Param("classify", PStr("terbaru")), Param("page", PNum(Int(1)))]),
    Call("/randomdrama", []),
    Call("/foryou", []),
    Call("/latest", []),
    Call("/trending", [])]

  /** The home fan-out never asks for one cache entry twice. */
  lemma HomeCallKeysDistinct()
    ensures DistinctKeys(HomeCalls)
  {
    TagsSeparateKeys(HomeCalls, "vdrflt");
  }

  /** Calls whose paths differ in their second character have distinct keys. */
  lemma {:induction false} TagsSeparateKeys(calls: seq<Call>, tags: string)
    requires |tags| == |calls|
    requires forall i :: 0 <= i < |calls| ==> |calls[i].path| > 1 && calls[i].path[1] == tags[i]
    requires forall a, b :: 0 <= a < b < |tags| ==> tags[a] != tags[b]
    ensures DistinctKeys(calls)
  {
    forall a, b | 0 <= a < b < |calls|
      ensures KeyOf(calls[a]) != KeyOf(calls[b])
    {
      KeyShowsPath(calls[a]);
      KeyShowsPath(calls[b]);
    }
  }

  /** The second character of the path sits at position 5 of the key. */
  lemma KeyShowsPath(c: Call)
    requires |c.path| > 1
    ensures |KeyOf(c)| > 5 && KeyOf(c)[5] == c.path[1]
  {
    var tail := c.path + ":" + JsonParams(c.params);
    assert KeyOf(c) == "GET:" + tail;
    assert tail[1] == c.path[1];
  }

  datatype Sections = Sections(vip: Value, dubindo: Value, random: Value, foryou: Value, latest: Value, trending: Value)

  datatype HomeView = HomeView(meta: PageMeta, hero: Value, sections: Sections)

  /** The home page from the six results (vip, dubindo, random, foryou, latest, trending). It is
      all or nothing: if any request threw, every section is empty and there is no hero. */
  function HomePage(site: string, description: string, rs: seq<Completion<Value>>): (v: HomeView)
    requires |rs| == 6
    ensures AllNormal(rs) ==> v.hero == Hero(rs[5].value, rs[4].value, rs[0].value)
    ensures AllNormal(rs) ==> v.sections == Sections(rs[0].value, rs[1].value, rs[2].value, rs[3].value, rs[4].value, rs[5].value)
    ensures AllNormal(rs) ==> v.meta.image == Or(Get(v.hero, "bookCover"), Str(""))
    ensures !AllNormal(rs) ==> v.hero == Null && v.sections == Sections(Arr([]), Arr([]), Arr([]), Arr([]), Arr([]), Arr([]))
    ensures !AllNormal(rs) ==> v.meta == BaseMeta(site, Str(SiteName), Undefined, "/", Undefined)
  {
    if AllNormal(rs) then
      var hero := Hero(rs[5].value, rs[4].value, rs[0].value);
      HomeView(
        BaseMeta(site, Str(SiteName), Str(description), "/", Get(hero, "bookCover")),
        hero,
        Sections(rs[0].value, rs[1].value, rs[2].value, rs[3].value, rs[4].value, rs[5].value))
    else
      HomeView(
        BaseMeta(site, Str(SiteName), Undefined, "/", Undefined),
        Null,
        Sections(Arr([]), Arr([]), Arr([]), Arr([]), Arr([]), Arr([])))
  }

  /** The browse page's first page of titles: always an array, empty when the request threw or
      the upstream returned something other than an array. */
  function BrowsePage1(r: Completion<Value>): (items: seq<Value>)
    ensures r.Normal? && r.value.Arr? ==> items == r.value.items
    ensures r.Thrown? || !r.value.Arr? ==> items == []
  {
    SafeArr(if r.Normal? then r.value else Arr([]))
  }

  predicate Nullish(v: Value) {
    v == Null || v == Undefined
  }

  /** `String(x.chapterId) === String(chapterId)` for an element that can be read. */
  predicate IsChapter(e: Value, chapterId: string) {
    !Nullish(e) && JsString(Get(e, "chapterId")) == chapterId
  }

  /** `eps.findIndex(...)` from position k: the first matching index, or -1; reading the
      chapterId of a null or undefined element before any match throws. */
  function FindChapter(eps: seq<Value>, chapterId: string, k: nat): (r: Completion<int>)
    requires k <= |eps|
    decreases |eps| - k
    ensures r.Normal? ==> r.value == -1 || k <= r.value < |eps|
    ensures r.Normal? && r.value >= 0 ==> IsChapter(eps[r.value], chapterId)
    ensures r.Normal? ==> forall j :: k <= j < |eps| && (r.value < 0 || j < r.value) ==> !Nullish(eps[j]) && !IsChapter(eps[j], chapterId)
    ensures r.Thrown? <==> exists j :: k <= j < |eps| && Nullish(eps[j]) && forall i :: k <= i < j ==> !IsChapter(eps[i], chapterId)
  {
    if k == |eps| then Normal(-1)
    else match Member(eps[k], "chapterId")
      case Thrown => Thrown
      case Normal(c) => if JsString(c) == chapterId then Normal(k) else FindChapter(eps, chapterId, k + 1)
  }

  /** The element at i, or undefined past the end. */
  function At(eps: seq<Value>, i: nat): Value {
    if i < |eps| then eps[i] else Undefined
  }

  datatype Player = Player(currentIndex: nat, videoPath: Value)

  /** The watch page's player: `currentIndex` is the index of the first episode whose chapterId
      reads as the requested one, else 0; `videoPath` is the current episode's, else the
      detail's, else "". Either request throwing, or a null episode met before a match,
      renders the 404 page instead. */
  function WatchPlayer(detail: Completion<Value>, episodes: Completion<Value>, chapterId: string): (r: Completion<Player>)
    ensures detail.Thrown? || episodes.Thrown? ==> r.Thrown?
    ensures detail.Normal? && episodes.Normal? ==>
              var eps := SafeArr(episodes.value);
              (r.Thrown? <==> exists j :: 0 <= j < |eps| && Nullish(eps[j]) && forall i :: 0 <= i < j ==> !IsChapter(eps[i], chapterId))
    ensures r.Normal? ==>
              var eps := SafeArr(episodes.value);
              var ci := r.value.currentIndex;
              && (ci == 0 || ci < |eps|)
              && (forall j :: 0 <= j < |eps| && IsChapter(eps[j], chapterId) ==> ci <= j && IsChapter(eps[ci], chapterId))
              && ((forall j :: 0 <= j < |eps| ==> !IsChapter(eps[j], chapterId)) ==> ci == 0)
    ensures r.Normal? ==>
              var cur := Or(Or(At(SafeArr(episodes.value), r.value.currentIndex), At(SafeArr(episodes.value), 0)), Null);
              && (Truthy(Get(cur, "videoPath")) ==> r.value.videoPath == Get(cur, "videoPath"))
              && (!Truthy(Get(cur, "videoPath")) && Truthy(Get(detail.value, "videoPath")) ==> r.value.videoPath == Get(detail.value, "videoPath"))
              && (!Truthy(Get(cur, "videoPath")) && !Truthy(Get(detail.value, "videoPath")) ==> r.value.videoPath == Str(""))
  {
    if detail.Thrown? || episodes.Thrown? then Thrown
    else
      var d := Or(detail.value, Obj(map[]));
      var eps := SafeArr(episodes.value);
      match FindChapter(eps, chapterId, 0)
      case Thrown => Thrown
      case Normal(found) =>
        var ci: nat := if found > 0 then found else 0;
        var cur := Or(Or(At(eps, ci), At(eps, 0)), Null);
        Normal(Player(ci, Or(Or(Get(cur, "videoPath"), Get(d, "videoPath")), Str(""))))
  }

  // ---------------------------------------------------------------------------
  // Sitemap

  datatype UrlEntry = UrlEntry(loc: string, changefreq: string, priority: string)

  /** The items the sitemap lists: vip, latest, trending and foryou concatenated, or nothing at
      all if any of the four requests threw. */
  function SitemapItems(vip: Completion<Value>, latest: Completion<Value>, trending: Completion<Value>, foryou: Completion<Value>): (items: seq<Value>)
    ensures vip.Normal? && latest.Normal? && trending.Normal? && foryou.Normal? ==>
              items == SafeArr(vip.value) + SafeArr(latest.value) + SafeArr(trending.value) + SafeArr(foryou.value)
    ensures vip.Thrown? || latest.Thrown? || trending.Thrown? || foryou.Thrown? ==> items == []
  {
    if vip.Normal? && latest.Normal? && trending.Normal? && foryou.Normal? then
      SafeArr(vip.value) + SafeArr(latest.value) + SafeArr(trending.value) + SafeArr(foryou.value)
    else []
  }

  /** `it?.bookId` for every item. */
  function BookIds(items: seq<Value>): (ids: seq<Value>)
    ensures |ids| == |items| && forall k :: 0 <= k < |items| ==> ids[k] == Get(items[k], "bookId")
  {
    seq(|items|, k requires 0 <= k < |items| => Get(items[k], "bookId"))
  }

  /** The truthy ids, each kept at its first occurrence. */
  function Dedup(ids: seq<Value>): seq<Value> {
    if ids == [] then []
    else
      var pre := Dedup(ids[..|ids| - 1]);
      var id := ids[|ids| - 1];
      if Truthy(id) && id !in pre then pre + [id] else pre
  }

  function DetailEntry(site: string, id: Value): UrlEntry {
    UrlEntry(AbsUrl(site, "/detail/" + JsString(id)), "weekly", "0.7")
  }

  function DetailEntries(site: string, ids: seq<Value>): (es: seq<UrlEntry>)
    ensures |es| == |ids|
  {
    if ids == [] then [] else DetailEntries(site, ids[..|ids| - 1]) + [DetailEntry(site, ids[|ids| - 1])]
  }

  function FixedEntries(site: string): seq<UrlEntry> {
    [UrlEntry(AbsUrl(site, "/"), "daily", "1.0"), UrlEntry(AbsUrl(site, "/browse?classify=terbaru"), "daily", "0.8")]
  }

  /** The sitemap's URL list: the two fixed pages, then one detail page per distinct truthy
      bookId, in the order the ids first occur. */
  method SitemapUrls(site: string, items: seq<Value>) returns (urls: seq<UrlEntry>)
    ensures urls == FixedEntries(site) + DetailEntries(site, Dedup(BookIds(items)))
  {
    var bookIds := BookIds(items);
    var seen: set<Value> := {};
    var details: seq<UrlEntry> := [];
    ghost var listed: seq<Value> := [];
    for i := 0 to |bookIds|
      invariant listed == Dedup(bookIds[..i])
      invariant forall v :: v in seen <==> v in listed
      invariant details == DetailEntries(site, listed)
    {
      var id := bookIds[i];
      DedupStep(bookIds[..i], id);
      assert bookIds[..i + 1] == bookIds[..i] + [id];
      if Truthy(id) && id !in seen {
        seen := seen + {id};
        DetailEntriesStep(site, listed, id);
        listed := listed + [id];
        details := details + [DetailEntry(site, id)];
      }
    }
    assert bookIds[..|bookIds|] == bookIds;
    urls := FixedEntries(site) + details;
  }

  lemma DedupStep(xs: seq<Value>, x: Value)
    ensures Dedup(xs + [x]) == if Truthy(x) && x !in Dedup(xs) then Dedup(xs) + [x] else Dedup(xs)
  {
    assert (xs + [x])[..|xs|] == xs;
  }

  lemma DetailEntriesStep(site: string, ids: seq<Value>, id: Value)
    ensures DetailEntries(site, ids + [id]) == DetailEntries(site, ids) + [DetailEntry(site, id)]
  {
    assert (ids + [id])[..|ids|] == ids;
  }

  /** The position of the first occurrence of v, or |ids| when it does not occur. */
  function FirstIndex(ids: seq<Value>, v: Value): (k: nat)
    ensures k <= |ids|
    ensures k < |ids| <==> v in ids
    ensures k < |ids| ==> ids[k] == v && forall j :: 0 <= j < k ==> ids[j] != v
  {
    if ids == [] then 0
    else if ids[0] == v then 0
    else 1 + FirstIndex(ids[1..], v)
  }

  /** Every listed id is truthy and occurs in the input, and every truthy input id is listed. */
  lemma {:induction false} DedupMembers(ids: seq<Value>)
    ensures forall v :: v in Dedup(ids) <==> Truthy(v) && v in ids
  {
    if ids != [] {
      var n := |ids| - 1;
      DedupMembers(ids[..n]);
      assert ids == ids[..n] + [ids[n]];
    }
  }

  /** No id is listed twice. */
  lemma {:induction false} DedupDistinct(ids: seq<Value>)
    ensures forall i, j :: 0 <= i < j < |Dedup(ids)| ==> Dedup(ids)[i] != Dedup(ids)[j]
  {
    if ids != [] {
      DedupDistinct(ids[..|ids| - 1]);
    }
  }

  /** Ids are listed in the order of their first occurrence in the input. */
  lemma {:induction false} DedupFirstOccurrenceOrder(ids: seq<Value>)
    ensures forall i, j :: 0 <= i < j < |Dedup(ids)| ==> FirstIndex(ids, Dedup(ids)[i]) < FirstIndex(ids, Dedup(ids)[j])
  {
    if ids != [] {
      var n := |ids| - 1;
      var pre, last := ids[..n], ids[n];
      assert ids == pre + [last];
      DedupStep(pre, last);
      var r, r' := Dedup(ids), Dedup(pre);
      DedupFirstOccurrenceOrder(pre);
      DedupMembers(pre);
      forall i, j | 0 <= i < j < |r|
        ensures FirstIndex(ids, r[i]) < FirstIndex(ids, r[j])
      {
        assert r[i] == r'[i] && r[i] in pre;
        FirstIndexOfExtension(pre, last, r[i]);
        FirstIndexOfExtension(pre, last, r[j]);
        if j < |r'| {
          assert r[j] == r'[j] && r[j] in pre;
        } else {
          assert r[j] == last && last !in pre;
        }
      }
    }
  }

  lemma {:induction false} FirstIndexOfExtension(pre: seq<Value>, last: Value, x: Value)
    ensures x in pre ==> FirstIndex(pre + [last], x) == FirstIndex(pre, x)
    ensures x !in pre && x == last ==> FirstIndex(pre + [last], x) == |pre|
  {
    if pre != [] {
      assert (pre + [last])[1..] == pre[1..] + [last];
      FirstIndexOfExtension(pre[1..], last, x);
    }
  }
}
