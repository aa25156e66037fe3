# PanStream data layer and player logic in Dafny

PanStream is a streaming-drama web site made of two Express servers and a browser video player.
This project models their logic:

- **Shortmax server (`app.js`)**: the in-memory TTL cache (`cacheGet`/`cacheSet`, lazy eviction,
  clock passed in as `now`), `safeApiGet` over an abstract upstream outcome, the record builders
  that default missing upstream fields (`normalizeShow`, episode rows, play record), the per-route
  cache keys and TTL rules, and the five `/api/*` handlers as methods over the shared cache. Also
  the request helpers `getBaseUrl`, `baseMeta` and the string branch of `previewBody`.
- **Dramabox proxy (`server.js`, duplicated almost verbatim as `public/app.js`)**: `apiGet`
  (get-or-fetch-and-store under `"GET:" + path + ":" + JSON.stringify(params)`), the `Promise.all`
  fan-out as a method, `absUrl`, `safeArr`, `first`, `baseMeta`, the hero choice, the all-or-nothing
  home page, the browse page's first page, the watch page's episode and video choice, and the
  sitemap loop that lists each truthy `bookId` once, in first-occurrence order. One model serves
  both files. Each row below cites `server.js` and names the matching `public/app.js` lines.
- **Player (`public/js/player.js`)**: `fmt`, `clamp`, the progress bar, `clientXToPercent`,
  `goNext`, and the player state that `seekTo`/`seekBy`, the volume slider, the mute button, the
  keyboard, the double tap, dragging, the 1500 ms save throttle and the restore window update.

Files: `js.dfy` (module `Js`: JavaScript values, truthiness, `||`, property reads, `String()`,
`Number()`, `trim()`, `toLowerCase()`), `shortmax_cache.dfy`, `shortmax_api.dfy`,
`shortmax_site.dfy`, `dramabox_proxy.dfy`, `player.dfy`.

Two behaviours of the code are easy to miss:

- The proxy's cache key is **not** order-independent. It serializes the parameters in insertion
  order (server.js:43), so the same parameters inserted in another order get another cache entry.
  `DramaboxProxy.CacheKeyDependsOnOrder` proves this.
- The play payload's fallback TTL is **not** bounded by the URL's expiry. `expires_in` is clamped
  to [5, 120], so a URL that expires in 2 s is cached for 5 s (app.js:410).
  `ShortmaxApi.PlayTtlCanOutliveUrl` proves this.

## Model

| member | source | states |
|---|---|---|
| ShortmaxCache.LifetimeMs | app.js:123 | An entry lives `ttl` seconds, counted in ms, and never less than 1000 ms. |
| ShortmaxCache.MemCache.constructor | app.js:112 | The cache starts empty. |
| ShortmaxCache.MemCache.Get | app.js:113-121 | An absent key misses with the map unchanged. An entry with `now > exp` is deleted and misses. Otherwise the stored value is returned and the map is unchanged, so `now == exp` is still a hit. |
| ShortmaxCache.MemCache.Set | app.js:122-125 | The key is overwritten with `exp = now + max(1, ttl) * 1000`, so it lives at least 1 s. Every other key is left as it was. |
| ShortmaxCache.NeverServedAfterExpiry | app.js:116-119 | Nothing is served once its expiry has passed, and the lookup removes it. |
| ShortmaxCache.StoreThenLookup | app.js:113-125 | Round trip: a value stored at `now` is served by every lookup up to its expiry (always for at least 1 s) and by none after it. |
| ShortmaxCache.OtherKeysUntouched | app.js:113-125 | Storing or evicting one key never changes what another key serves. |
| ShortmaxCache.EvictionIsUnobservable | app.js:116-118 | Lazy eviction only forgets entries that could no longer be served. |
| ShortmaxApi.SafeApiGet | app.js:127-156 | A missing token gives `missing_token` with status 500, before any upstream call. A thrown call gives `upstream_error` with 500. A status outside [200, 300) gives `upstream_fail` carrying that status. Only a 2xx answer is ok, and it carries the body. `ok` holds iff there is no error. |
| ShortmaxApi.MissingTokenIgnoresUpstream | app.js:128-130 | Without a token the upstream outcome makes no difference. |
| ShortmaxApi.NormalizeShow | app.js:159-172 | Only a null item throws; missing fields never do. Each text field is the upstream value when truthy, else "". Each count is `Number()` of the field when truthy, else 0. `tags` is the upstream array only when it is an array, else empty. |
| ShortmaxApi.NormalizeShowDefaults | app.js:159-172 | An undefined item, an empty object and a primitive all normalize to the fully defaulted record. |
| ShortmaxApi.NormalizeShows | app.js:306 | `list.map(normalizeShow)` throws iff some element is null. Otherwise it normalizes every element in place. The search route does the same at app.js:330. |
| ShortmaxApi.EpisodeRowOf | app.js:356-360 | A row throws iff its element is null or undefined. Otherwise `id` and `episode` default to 0, and `locked` is the field's truthiness. |
| ShortmaxApi.EpisodeRows | app.js:355-361 | The episode map throws iff some element is null or undefined. Otherwise it maps every element in place. |
| ShortmaxApi.PlayOf | app.js:389-401 | There is no play record iff `data` is falsy. Otherwise counts default to 0, `episode` falls back to the requested `ep`, and `video` falls back to `{}`. |
| ShortmaxApi.ListOf | app.js:287 | `r.data.data` when it is an array, else empty. |
| ShortmaxApi.AfterListing | app.js:292 | A listing payload is cached, for its `ttl`, only when that ttl is non-zero and not NaN. The home, search and episodes routes do the same at app.js:314, 339 and 371. |
| ShortmaxApi.ListingCachedOnlyWithTtl | app.js:292 | A listing with a non-zero ttl is served by every lookup within a second of its store. Without a ttl the key serves what it served before. |
| ShortmaxApi.PlayTtl | app.js:410 | The play TTL is the payload ttl when non-zero. Otherwise it is `expires_in` clamped to [5, 120]: 5 below 5, 120 above 120, the value itself in between, and 5 when `expires_in` is missing. |
| ShortmaxApi.PlayFallbackLifetime | app.js:409-411 | Without a payload ttl, the play entry is served for at least 5 s and never after 120 s. |
| ShortmaxApi.PlayTtlCanOutliveUrl | app.js:409-411 | A play URL that expires in 2 s is still cached for 5 s. |
| ShortmaxApi.QueryOr | app.js:297 | An absent or empty query parameter takes its default. |
| ShortmaxApi.EpOf | app.js:378 | An absent `ep` reads as episode 1. A present one goes through `Number()`: a run of digits reads as its value, and a blank one as 0. |
| ShortmaxApi.SearchKeyIgnoresCase | app.js:323 | For languages without ':', two searches share a cache key iff they have the same language and queries equal up to letter case. |
| ShortmaxApi.SearchKeyCollision | app.js:319-323 | A language containing ':' lets two different searches share a key. |
| ShortmaxApi.EpisodesKeyInjective | app.js:348 | For languages without ':', the episodes key determines the language and the code. |
| ShortmaxApi.PlayKeyReadsEpAsNumber | app.js:378-382 | The play key holds `ep` as a number. A leading zero in `ep` does not change the key, and an absent `ep` shares the key of `ep=1`. |
| ShortmaxApi.LeadingZeroReadsSame | app.js:378 | `Number()` reads a run of digits the same with or without a leading zero. |
| ShortmaxApi.PlayKeyEpRoundTrip | app.js:378-382 | Round trip: an `ep` query that carries the number printed in a play key reads back to the same key. |
| ShortmaxApi.RouteKeysDisjoint | app.js:279-382 | The keys of different routes never collide. |
| ShortmaxApi.Languages | app.js:278-294 | The lookup uses the clock reading `now`, and the store uses a second reading `nowSet` taken after the upstream call (app.js:116, 124). A hit is served as stored, without contacting the upstream. On a miss, an upstream failure gives `{data: [], error}` and caches nothing. A success serves the payload, and caches it only when its ttl is non-zero. |
| ShortmaxApi.Home | app.js:296-316 | Same as languages under `home:<lang>` (lang defaults to "en"). `featured` is the first normalized show, if any. A null list element rejects the handler and caches nothing. |
| ShortmaxApi.Search | app.js:318-341 | An empty trimmed query answers `{data: [], q: "", lang}` before any cache or upstream access. Otherwise it behaves as home under `search:<lang>:<lowercased q>`. |
| ShortmaxApi.Episodes | app.js:343-373 | An empty code gives 400 `missing_code`. Otherwise it behaves as a listing route under `eps:<lang>:<code>`, with episode rows. |
| ShortmaxApi.PlayRoute | app.js:375-414 | An empty code gives 400 `missing_code`. On a miss, a failure gives `{data: null, code, lang, ep, error}`. A success is always cached at `nowSet`, for `PlayTtl` seconds. |
| ShortmaxSite.FirstNonEmpty | app.js:63-66 | The header, else the connection value, else the default. |
| ShortmaxSite.FirstHop | app.js:63-68 | The first comma-separated hop, trimmed. It holds no ',' and has no white space at either end. |
| ShortmaxSite.FirstHopOfList | app.js:63-65 | Of a list of hops, only the first counts. |
| ShortmaxSite.BaseUrl | app.js:62-70 | The base URL starts with the scheme and "://", and the host follows. Neither part contains ','. |
| ShortmaxSite.BaseUrlHost | app.js:66-68 | The host is the forwarded host when present, else the Host header, else "". Of a list of hops, only the first counts. |
| ShortmaxSite.BaseUrlScheme | app.js:63-65 | The scheme is the forwarded proto when present, else the connection's protocol, else "http". |
| ShortmaxSite.BaseMeta | app.js:72-85 | The title is `title • PanStream`, else `PanStream • tagline`. The description has a default. The URL is the base URL plus the page path, else the request path, else "/". The image defaults to the site's Open Graph image, and `jsonLd` to null. |
| ShortmaxSite.PreviewBody | app.js:89 | A string body is cut to its first 240 string elements (Unicode scalar values here), and a shorter one is kept whole. |
| DramaboxProxy.CacheKeySeparatesPaths | server.js:43 | For paths without ':', equal keys mean the same path and the same serialized parameters, so distinct paths never share an entry. public/app.js:41 builds the same key. |
| DramaboxProxy.CacheKeyDependsOnOrder | server.js:43 | The same two parameters inserted in the other order give a different key (public/app.js:41). |
| DramaboxProxy.Answer | server.js:42-51 | apiGet resolves to the stored value on a hit. On a miss it resolves to the fetched body, or throws when the fetch is rejected. |
| DramaboxProxy.ProxyCache.constructor | server.js:17 | The shared cache starts empty (public/app.js:16). |
| DramaboxProxy.ProxyCache.ApiGet | server.js:42-51 | A hit, meaning a truthy stored value, is returned without fetching, and the store is unchanged. A miss fetches. It stores the body under the same key and returns it, or throws and stores nothing. public/app.js:40-54 is the same. |
| DramaboxProxy.ProxyCache.Expire | server.js:17 | The cache's own TTL sweep removes one entry and touches nothing else. |
| DramaboxProxy.ProxyCache.FetchAll | server.js:123-130 | Every call of a fan-out resolves as apiGet against the cache as it was before the fan-out. The fetched bodies are then stored. public/app.js:142-149 is the same. |
| DramaboxProxy.FanOutCachesEveryFetch | server.js:123-130 | When the keys are distinct, every body the fan-out fetched is cached under its key. |
| DramaboxProxy.RememberAllKeepsHits | server.js:123-130 | A fan-out leaves every entry that was a hit unchanged. |
| DramaboxProxy.HomeCallKeysDistinct | server.js:123-130 | The six home requests use six distinct cache keys. |
| DramaboxProxy.StripTrailingSlash | server.js:37 | At most one trailing '/' is removed from the site URL. |
| DramaboxProxy.AbsUrl | server.js:36-40 | The URL is the site URL without its trailing '/', then the path. A path starting with '/' is appended verbatim, and any other path gets one '/' inserted. public/app.js:34-38 is the same. |
| DramaboxProxy.AbsUrlNormalizes | server.js:36-40 | A trailing '/' on the site and a missing leading '/' on the path make no difference. A doubled slash is kept. |
| DramaboxProxy.SafeArr | server.js:53 | An array gives its elements, and anything else gives none (public/app.js:56-58). |
| DramaboxProxy.First | server.js:54 | The first element when it exists and is truthy, else null (public/app.js:59-61). |
| DramaboxProxy.Hero | server.js:132 | The hero is the first truthy first element of trending, then latest, then vip, else null (public/app.js:151). |
| DramaboxProxy.BaseMeta | server.js:56-61 | The title is `title • PanStream`, else the default title. The description defaults to the site's text. The URL is `absUrl(path \|\| "/")`. The image defaults to "". public/app.js:63-74 is the same. |
| DramaboxProxy.HomePage | server.js:121-148 | If all six requests succeed, the page shows every section and the hero, with the hero's cover as the image. If any request throws, every section is empty and the hero is null. public/app.js:140-173 is the same, except for its description text. |
| DramaboxProxy.BrowsePage1 | server.js:158-163 | The first page is always an array. It is empty when the request threw or did not return an array (public/app.js:183-188). |
| DramaboxProxy.FindChapter | server.js:193 | `findIndex` gives the first index whose `chapterId` reads as the requested one, else -1. It throws iff a null or undefined episode comes before any match. |
| DramaboxProxy.WatchPlayer | server.js:189-195 | `currentIndex` is the first matching episode, else 0, and is never negative. `videoPath` is the current episode's, else the detail's, else "". A failed request or a null episode before the match renders the 404 page. public/app.js:218-229 is the same. |
| DramaboxProxy.SitemapItems | server.js:217-226 | The items are vip, latest, trending and foryou concatenated. If any of the four requests threw, there are none (public/app.js:260-269). |
| DramaboxProxy.SitemapUrls | server.js:228-238 | The list holds the two fixed URLs, then one weekly detail URL per id of the de-duplicated `bookId` list (public/app.js:271-282). |
| DramaboxProxy.DedupMembers | server.js:233-238 | An id is listed iff it is truthy and some item carries it. |
| DramaboxProxy.DedupDistinct | server.js:233-238 | No id is listed twice. |
| DramaboxProxy.DedupFirstOccurrenceOrder | server.js:233-238 | Ids are listed in the order of their first occurrence among the items. |
| Player.Pad2 | public/js/player.js:35 | The seconds are always printed on exactly two digits. |
| Player.Fmt | public/js/player.js:31-36 | A negative time shows "0:00". Any other time shows its whole seconds div 60, a colon, then its whole seconds mod 60 on two digits. |
| Player.FloorSplit | public/js/player.js:33-34 | `floor(t / 60)` and `floor(t % 60)` are the quotient and remainder of `floor(t)` by 60, and the seconds part is below 60. |
| Player.ParseFmt | public/js/player.js:31-36 | Round trip: reading back the label of a non-negative time gives its whole seconds. |
| Player.Clamp | public/js/player.js:38-40 | The result lies in [lo, hi] when lo ≤ hi, and is `n` itself when `n` is already inside. |
| Player.ProgressPercent | public/js/player.js:56-64 | The bar width is in [0, 100], and 0 while the duration is 0. Within the video it is the played fraction times 100. |
| Player.ClientXToPercent | public/js/player.js:187-191 | The pointer position maps to a fraction in [0, 1], clamped at both ends of the track. A track of no width gives 0. |
| Player.GoNext | public/js/player.js:89-98 | The result is the smallest j > currentIndex whose episode is unlocked. It is none when there is no such j, and it throws for an index below -1. |
| Player.RestoredWithinVideo | public/js/player.js:350-353 | A restored time lies strictly inside the video. |
| Player.PlayerState.constructor | public/js/player.js:162 | The player starts with no tap, no drag and no save (`lastTap`, `dragging`, `saveTick` at lines 162, 185, 361). |
| Player.PlayerState.SeekTo | public/js/player.js:79-82 | Nothing happens while the duration is 0. Otherwise the position becomes the fraction, clamped to [0, 1], times the duration. |
| Player.PlayerState.SeekBy | public/js/player.js:84-87 | Nothing happens while the duration is 0. Otherwise the position moves by `seconds` and stays within [0, duration]. |
| Player.PlayerState.OnVolumeInput | public/js/player.js:233-239 | The volume is the input clamped to [0, 1], and the player is muted iff that value is 0. |
| Player.PlayerState.ToggleMute | public/js/player.js:226-231 | Muting toggles. Unmuting at volume 0 sets the volume to 0.6, so an unmuted player always has a volume. |
| Player.PlayerState.OnKey | public/js/player.js:285-297 | The arrow keys seek ±5 s. M toggles muting, without the mute button's volume restore. |
| Player.PlayerState.OnTouchEnd | public/js/player.js:162-180 | A touch end within 280 ms of the previous one seeks −10 s on the left half and +10 s on the right half. Every touch end is remembered. |
| Player.PlayerState.PointerDown | public/js/player.js:199-204 | Pressing on the track starts a drag and seeks to the pointer. |
| Player.PlayerState.PointerMove | public/js/player.js:206-209 | Moving seeks only during a drag. |
| Player.PlayerState.PointerUp | public/js/player.js:211-218 | Releasing or cancelling the pointer ends the drag. |
| Player.PlayerState.SaveProgress | public/js/player.js:361-373 | A call within 1500 ms of the last accepted one does nothing. An accepted call moves `saveTick` to now, and writes the position only when it is past 0. The write log stays spaced at least 1500 ms apart. |
| Player.PlayerState.RestoreOnMetadata | public/js/player.js:346-359 | A saved time is applied iff it is over 3 s, the duration is known, and it is more than 2 s before the end. A missing one reads as 0 and is never applied. |

## Left out

- Express routing, middleware, EJS rendering, static files, `robots.txt`, the XML text of the sitemap and the `listen` bootstrap: framework plumbing. Pages are modelled by the values they pass to their templates.
- The network: every axios call is an abstract outcome (`Upstream` for `app.js`, `Fetch` for the proxy). The URL, headers, timeout and query string sent upstream are not modelled. Neither is `upstreamHeaders`.
- NodeCache internals (`stdTTL`, `checkperiod`, the sweep): the proxy cache is a map, and its expiry is the single operation `ProxyCache.Expire`.
- `Date.now()` is a parameter: `now` in the cache, and `now` and `nowSet` in the handlers, for its readings before and after the upstream call. The browser's DOM, timers, `localStorage` (modelled as the field `saved`), fullscreen, picture-in-picture, the quality menu and `setSource` are left out. So are `showControls`, `updateButtons` and `togglePlay`.
- Numbers: `Value` numbers are integers or NaN. `Number()` of a string reads an optionally signed run of decimal digits. Fractions, exponents, hex and "Infinity" read as NaN in this model. Player times are exact reals: floating-point rounding, NaN and Infinity are not modelled, so `fmt`'s `isFinite` branch and `!v.duration` for a NaN duration are not covered.
- ShortmaxApi.Languages, ShortmaxApi.Home, ShortmaxApi.Search, ShortmaxApi.Episodes, ShortmaxApi.PlayRoute: each runs as one step on the cache. Another request can run while a handler awaits the upstream (for up to 45 s). Two concurrent misses on one key both fetch, and the later store wins. A store can also overwrite an entry that another request stored in the meantime. None of this interleaving is modelled.
- ShortmaxSite.PreviewBody: `slice(0, 240)` counts UTF-16 code units, and the model counts Unicode scalar values. A body made of characters outside the Basic Multilingual Plane keeps 120 of them in JavaScript and 240 in the model. A lone surrogate cannot be represented.
- Js.StringToNumber, Js.NumToString: numbers are exact integers here, while JavaScript numbers are doubles. Above 2^53 `Number()` rounds (`Number("9007199254740993")` is 9007199254740992), and `String()` prints 1e21 and beyond in exponent form. This reaches `EpOf` and the number printed in the play cache key.
- `toLowerCase` is modelled on ASCII letters only. `JSON.stringify` is modelled for flat parameter objects of strings and numbers in insertion order. The JSON branch of `previewBody` is left out, and so is its `catch`.
- `JSON.stringify` moves integer-like keys ahead of the other keys. Parameter names in this code never look like integers, so this reordering is not modelled.
- DramaboxProxy.SitemapUrls: the `seen` set compares ids by value, while JavaScript's `Set` compares objects by identity. The two agree on the string and number ids the upstream sends.
- `Promise.all`: the fan-out performs every lookup first and applies the stores in call order. The order in which fetches settle is not modelled. Since the keys of a fan-out are distinct, that order does not change the final cache.
- The JSON API routes of the proxy (`/api/home`, `/api/dubindo`, `/api/search`, `/api/detail`, `/api/episodes` in server.js:64-118) and its detail page (server.js:166-184) are not modelled. They only forward `apiGet`'s result or build page text. The meta text of the browse and watch pages is not modelled either.
- Player.GoNext: the index is an integer. A `currentIndex` that `Number()` reads as NaN, which stops the loop at once, is not modelled.
- `public/js/rail.js`, `public/js/app.js` and `public/js/browse.js`: DOM, gesture and animation code. `console` logging is also left out.
