# Live-room resolution front end and stream-configuration list

This project models two parts of a desktop live-stream recorder.

**The crawler front end** (`getLiveUrls` in `src/main/crawler/index.js`) turns a room URL into
a call to one of fourteen platform resolver plugins. It parses the URL; an unparsable URL gives
`INVALID_URL`. It then picks the first token of the ordered `supportPlatform` list that occurs
as a substring of the host; no match gives `NOT_SUPPORT`. It derives the room id with the
platform's rule and passes the room id, the proxy and the cookie to the plugin. The plugin's
result is returned unchanged. There are four rules:
- a fixed piece of `pathname.split('/')`: piece 1 by default, 2 for kuaishou and huajiao, 5 for weibo;
- a query parameter: `v` for youtube, `liveId` for taobao;
- a query parameter with a fallback to piece 1: douyu's `rid`;
- piece 1 if it is numeric, otherwise piece 2: bigo.

The model is in module `Crawler` (`crawler.dfy`), built on module `Url` (`url.dfy`). Each
platform's rule is a value of `RoomIdRule` held in the `PlatformToFnMap` table, and
`ExtractRoomId` interprets it. A room id is a string, `null` or `undefined`, as in JavaScript.

**The stream-configuration store** (`src/renderer/src/store/useStreamConfigStore.ts`) holds a
list of configuration records keyed by `title`. It can load the list, prepend a record, replace
every record with a given title, and remove every record with a given title. Module
`StreamConfigStore` (`stream_config_store.dfy`) models the list operations as sequence
functions. The store is a class `Store` whose one field, `streamConfigList`, each action
reassigns.

Behaviour of the code worth noting:
- A missing query parameter gives `null`. An out-of-range path index gives `undefined`. Both are
  passed to the plugin.
- douyu falls back to the path when `rid` is absent and also when it is the empty string,
  because the code uses `||`.
- The numeric-or-next rule belongs to bigo only, so a URL takes it only if its host contains
  `bigo`.
- The JSDoc of `getLiveUrls` names the URL field `url`, but the code reads `roomUrl`. The model
  uses `roomUrl`.

## Model

| member | source | states |
|---|---|---|
| `Url.Split` | src/main/crawler/index.js:24 | definition of `pathname.split('/')`; characterised by `Url.SplitJoin` |
| `Url.Includes` | src/main/crawler/index.js:139 | definition of `host.includes(p)`; characterised by `Url.IncludesIffOccurs` |
| `Url.QueryGet` | src/main/crawler/index.js:29 | definition of `searchParams.get(name)`; characterised by `Url.QueryGetFirst` |
| `Crawler.IsNumeric` | src/main/crawler/index.js:112 | definition of `!Number.isNaN(Number(x))`, simplified to decimal digits (see Left out); used by `Crawler.NumericOrNextChoice` |
| `Crawler.ExtractRoomId` | src/main/crawler/index.js:49-121 | definition of the `getRoomIdByUrl` closures as one interpreter of `RoomIdRule`; characterised by `Crawler.GetPathnameItem`, `Crawler.GetQueryParam`, `Crawler.QueryOrPathnameChoice` and `Crawler.NumericOrNextChoice` |
| `Crawler.SupportPlatform` | src/main/crawler/index.js:32-48 | definition: the 15 tokens in order, `'huya'` at indices 5 and 14; characterised by `Crawler.RegistryComplete` and `Crawler.DuplicateHuyaIsDead` |
| `Crawler.PlatformToFnMap` | src/main/crawler/index.js:49-121 | definition: each platform with its own plugin; douyin, bilibili, cc, huya, twitch, tiktok and yy read path piece 1; douyu reads `rid`, else piece 1; kuaishou and huajiao read piece 2; weibo reads piece 5; youtube reads `v`; taobao reads `liveId`; bigo reads piece 1 if numeric, else piece 2; characterised by `Crawler.RegistryComplete` and the example lemmas |
| `Crawler.Find` | src/main/crawler/index.js:139 | definition of `supportPlatform.find(p => host.includes(p))`; characterised by `Crawler.FindFirst` |
| `Url.SplitJoin` | src/main/crawler/index.js:24 | `pathname.split('/')` loses nothing: joining the pieces with '/' gives back the pathname, no piece contains '/', and there is one more piece than there are slashes |
| `Url.SplitFirstPiece` | src/main/crawler/index.js:24 | a slash-free prefix followed by '/' becomes the first piece, and splitting goes on after it |
| `Url.IncludesIffOccurs` | src/main/crawler/index.js:139 | `host.includes(p)` holds exactly when `p` occurs in the host at some position |
| `Url.QueryGetFirst` | src/main/crawler/index.js:28-29 | `searchParams.get(name)` is null exactly when no pair has that name; otherwise it is the value of the earliest such pair |
| `Crawler.GetPathnameItem` | src/main/crawler/index.js:22-25 | piece `index` is `undefined` exactly when the pathname has fewer than `index` slashes; a returned piece contains no '/' and is never null |
| `Crawler.GetQueryParam` | src/main/crawler/index.js:105-107 | the room id is null exactly when the parameter is absent; otherwise it is the first value (taobao's `liveId` rule) |
| `Crawler.GetYoutubeRoomId` | src/main/crawler/index.js:27-30 | the youtube room id is the first `v` value, or null when there is no `v` |
| `Crawler.QueryOrPathnameChoice` | src/main/crawler/index.js:68-71 | douyu takes the first `rid` value when it is non-empty; when `rid` is absent or empty it takes path piece 1 |
| `Crawler.NumericOrNextChoice` | src/main/crawler/index.js:111-115 | bigo keeps path piece 1 when it is numeric and otherwise takes piece 2; the result is `undefined` exactly when piece 1 is not numeric and there is no piece 2 |
| `Crawler.PathnameExample` | src/main/crawler/index.js:62-71 | `https://www.huya.com/123456` gives room id `123456` by huya's default rule, and `https://live.douyu.com/123456` gives `123456` by douyu's fallback to piece 1 when there is no `rid` |
| `Crawler.YoutubeRuleIsGetYoutubeRoomId` | src/main/crawler/index.js:79-82 | the youtube entry of the table extracts its room id with `getYoutubeRoomId` |
| `Crawler.QueryExamples` | src/main/crawler/index.js:66-108 | `?rid=98765` gives `98765` even though a path exists; `?v=abc123XYZ` gives `abc123XYZ`; taobao without `liveId` gives null; each through that platform's table rule |
| `Crawler.NumericExample` | src/main/crawler/index.js:111-115 | bigo `/778899` gives `778899` |
| `Crawler.NamedRoomTakesNextItem` | src/main/crawler/index.js:111-115 | on a path `/a/b` whose piece `a` is not numeric, the bigo rule gives `b` |
| `Crawler.NextItemExample` | src/main/crawler/index.js:111-115 | bigo `/user/alice` gives `alice` |
| `Url.SplitTwoPieces` | src/main/crawler/index.js:24 | `/a/b` with slash-free `a` and `b` splits into `""`, `a`, `b` |
| `Crawler.ShortPathExample` | src/main/crawler/index.js:93-95 | weibo's table rule reads piece 5; a pathname with only three pieces gives `undefined` |
| `Crawler.RegistryComplete` | src/main/crawler/index.js:49-121 | every `supportPlatform` token is non-empty and has a `platformToFnMap` entry with both functions present |
| `Crawler.FindFirst` | src/main/crawler/index.js:139 | `find` returns nothing exactly when no token occurs in the host; otherwise it returns the token at the lowest index that occurs |
| `Crawler.FindSound` | src/main/crawler/index.js:139 | a chosen platform is one of the tokens and occurs in the host |
| `Crawler.FindSkipsAbsent` | src/main/crawler/index.js:139 | deleting a token that does not occur in the host never changes the chosen platform |
| `Crawler.FindIgnoresRepeat` | src/main/crawler/index.js:32-48 | a token that repeats an earlier one can be deleted without changing the chosen platform for any host |
| `Crawler.DuplicateHuyaIsDead` | src/main/crawler/index.js:32-48 | the second `'huya'` (line 47) never changes the chosen platform, because the first one (line 38) always matches first |
| `Crawler.GetLiveUrls` | src/main/crawler/index.js:127-160 | unparsable URL: exactly `{code: INVALID_URL}` and no plugin call; no token in the host: exactly `{code: NOT_SUPPORT}` and no plugin call; otherwise the first matching platform's plugin is called once with that platform's room id (even null or undefined) and the request's proxy and cookie, and its result is returned unchanged |
| `StreamConfigStore.Store.constructor` | src/renderer/src/store/useStreamConfigStore.ts:14 | the store starts with an empty list |
| `StreamConfigStore.Store.InitialData` | src/renderer/src/store/useStreamConfigStore.ts:16-20 | a loaded list replaces the current one, even if it is empty; when nothing was loaded the list keeps its value |
| `StreamConfigStore.Store.AddStreamConfig` | src/renderer/src/store/useStreamConfigStore.ts:22-27 | the new list is the record followed by the old list in order; it is one longer and has one more record with that title |
| `StreamConfigStore.PrependAddsOneOfTitle` | src/renderer/src/store/useStreamConfigStore.ts:23 | there is no duplicate-title check: prepending adds one record with its title, however many were already there |
| `StreamConfigStore.Store.UpdateStreamConfig` | src/renderer/src/store/useStreamConfigStore.ts:29-32 | the length is kept; each position whose title matches holds the new record and every other position is unchanged |
| `StreamConfigStore.ReplaceTitle` | src/renderer/src/store/useStreamConfigStore.ts:30-32 | definition of the `map`; characterised by `StreamConfigStore.ReplaceTitlePointwise` |
| `StreamConfigStore.RemoveTitle` | src/renderer/src/store/useStreamConfigStore.ts:39-41 | definition of the `filter`; characterised by `StreamConfigStore.RemoveTitleContents` and `StreamConfigStore.RemoveTitleAppend` |
| `StreamConfigStore.ReplaceTitlePointwise` | src/renderer/src/store/useStreamConfigStore.ts:30-32 | the `map`: same length, matching positions replaced, every other position unchanged |
| `StreamConfigStore.ReplaceAbsentTitle` | src/renderer/src/store/useStreamConfigStore.ts:30-32 | updating a title that is not present leaves the list unchanged |
| `StreamConfigStore.ReplaceTitleIdempotent` | src/renderer/src/store/useStreamConfigStore.ts:30-32 | updating twice with the same record equals updating once |
| `StreamConfigStore.ReplaceRenames` | src/renderer/src/store/useStreamConfigStore.ts:30-32 | when the new record has another title, no record keeps the old title |
| `StreamConfigStore.Store.RemoveStreamConfig` | src/renderer/src/store/useStreamConfigStore.ts:38-41 | no record has the title afterwards; a record remains exactly when it was there and has another title |
| `StreamConfigStore.RemoveTitleContents` | src/renderer/src/store/useStreamConfigStore.ts:39-41 | the `filter`: no record has the title; a record remains exactly when it was there with another title; the length drops by the number of matching records |
| `StreamConfigStore.RemoveTitleAppend` | src/renderer/src/store/useStreamConfigStore.ts:39-41 | removal keeps order: removing from a concatenation equals concatenating the removals |
| `StreamConfigStore.RemoveAbsentTitle` | src/renderer/src/store/useStreamConfigStore.ts:39-41 | removing a title that is not present changes nothing |
| `StreamConfigStore.RemoveTitleIdempotent` | src/renderer/src/store/useStreamConfigStore.ts:39-41 | removing the same title twice equals removing it once |
| `StreamConfigStore.RemoveUndoesAddAndReplace` | src/renderer/src/store/useStreamConfigStore.ts:22-41 | removing a title cancels a prepended record with that title; it also leaves the same list whether or not matching records were first replaced by a record with that title |

## Left out

- URL parsing (`new URL(...)`): the WHATWG parser is not modelled. `GetLiveUrls` receives it as a function from a string to an optional `Url` (host, pathname and decoded query pairs). Host normalisation, percent-decoding and ports inside `host` are therefore left to that function. The rules re-parse the same string, and the model reuses the first parse, because parsing is deterministic.
- The resolver plugins (`./plugins/*`) do network scraping through proxies and with cookies. `GetLiveUrls` receives them as one function from a plugin call to a result. Awaiting the plugin's promise is modelled as calling that function. A plugin that rejects its promise is not modelled.
- The `CRAWLER_ERROR_CODE` values: `../../code` is not part of this model. The two local codes are constructors, and codes from plugins are an opaque number.
- `IsNumeric` (the bigo rule's `!Number.isNaN(Number(x))`) is simplified to "a string of decimal digits, possibly empty". JavaScript also accepts surrounding whitespace, a sign, a fraction, an exponent, `0x`/`0o`/`0b` prefixes and `Infinity`. For such pieces the model takes piece 2 where the code takes piece 1.
- The `debug` logging and `console.error` calls have no effect on results.
- The async/await ordering, zustand's `set`/`get` and the `localForage` reads and writes are left out. Each store action is one atomic update of the list. A failed or reordered save is not modelled, and `initialData` receives the loaded value as a parameter.
- The `streamConfigSheetOpen` flag is initialised in the store but no action reads or writes it.
- `StreamConfig` stands for `IStreamConfig`, whose definition is not in the modelled files; the actions read only `title`, and the other fields are placeholders.
- The locale table (`src/renderer/src/locales/locales.js`) is static text with no logic.
