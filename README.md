# shieldbow (league.ts) core, modelled in Dafny

This project models the parts of the shieldbow League of Legends client library that hold decisions of their own.

- **Rate-limit headers.** `parseHeaders` turns Riot's `x-app-rate-limit`, `x-method-rate-limit` and their `-count` headers into rate-limit windows and a synthetic log of recent request timestamps.
- **Match construction.** The `Match` constructor rejects malformed match data, maps a platform id to a region, and splits the participants and team data into a blue and a red team.
- **Champion-mastery manager.** It keeps a cache of masteries keyed by champion id. It ranks the cache as `sortedCache` (level 7, then level 6, then below 6, each by points, most first). It answers `highest(n)`, refreshes the cache and keeps the total score.
- **Web client.** It builds dDragon, cDragon and meraki URLs behind the "not initialized" guard. It takes the patch from the version with `/\d+\.\d+/`. In `initialize` it picks the version by the configured prefix, rolls the version back until both dragons serve it, and resolves the default fetch options.
- **Item and summoner-spell managers.** Each is a cache-aside lookup over an insertion-ordered map. `fetch` answers a hit, or else reloads and looks again. `_fetchAll` is the refill loop, and `fetchByName` is a case-insensitive substring search.

Modules:

- `Wrappers` holds `Option`, `Result` and `Outcome`.
- `Text` holds digit strings, `split`/`join`, ASCII lower-casing, `startsWith` and `includes`.
- `Sorting` is a stable sort by an integer key, as JavaScript's `Array.prototype.sort` is.
- `Collections` is discord.js's `Collection`: a map that remembers insertion order.
- `RateLimitHeaders`, `Match`, `ChampionMastery`, `WebClient`, `ItemManager` and `SummonerSpellManager` hold one source file each.
- `DataDragon` holds the cache-aside logic that the item and spell managers share.

Network answers are inputs of the model:

- API and CDN responses are `Result` values.
- The dDragon data is a sequence of `(key, data)` pairs in `Object.keys` order.
- The URLs that answer form a `set`.
- `Date.now()` is one `now` value.

## Model

| member | source | states |
|---|---|---|
| RateLimitHeaders.ParseHeaders | src/ratelimiter/parseHeaders.ts:8-54 | `app`/`method` are the windows of the two limit headers, and `usage.app`/`usage.method` are the logs synthesized from the two count headers. A header that is absent or empty leaves `[]` for the limits and `[now]` for the usage. App headers never touch `method` fields, nor the reverse. |
| RateLimitHeaders.PushWindows | src/ratelimiter/parseHeaders.ts:16-25 | The push loop yields exactly one window per `limit:seconds` entry, in header order. |
| RateLimitHeaders.PushStamps | src/ratelimiter/parseHeaders.ts:32-37 | The loop with its `prev` accumulator pushes, for each count group in turn, `count` copies of `now - prev`, then sets `prev` to that group's seconds × 1000 + 1000. |
| RateLimitHeaders.LimitHeaderWindows | src/ratelimiter/parseHeaders.ts:16-20 | For any non-empty list of entries written as `L:S,L:S,...`: the number of windows equals the number of entries, which is the number of commas + 1. Window i is `{limit: L_i, duration: S_i × 1000}`. |
| RateLimitHeaders.EntriesRoundTrip | src/ratelimiter/parseHeaders.ts:17-19 | Splitting on `,` and `:` and parsing the numbers gives back every entry list, once that list is written in the header's spelling. |
| RateLimitHeaders.EntryRoundTrip | src/ratelimiter/parseHeaders.ts:17-19 | One `amount:seconds` field parses back to its entry. |
| RateLimitHeaders.LimitHeaderExample | src/ratelimiter/parseHeaders.ts:16-20 | `20:1,100:120` gives the windows `{20, 1000}` and `{100, 120000}`. |
| RateLimitHeaders.TotalByWindow | src/ratelimiter/parseHeaders.ts:28-31 | Sorting the count groups by window keeps the sum of their counts. |
| RateLimitHeaders.UsageLogLength | src/ratelimiter/parseHeaders.ts:13-15 | With a count header, the `[now]` seed is dropped and the log holds exactly the sum of the counts. Without one, the log is `[now]`. |
| RateLimitHeaders.StampAt | src/ratelimiter/parseHeaders.ts:33-36 | Every position in group g of the log holds `now` for the first group. For later groups it holds `now − (seconds of the previous group × 1000 + 1000)`. |
| RateLimitHeaders.StampsShape | src/ratelimiter/parseHeaders.ts:31-36 | Over groups in ascending window order, every stamp is at most `now - prev` and the stamps never increase along the log. |
| RateLimitHeaders.UsageLogOrdered | src/ratelimiter/parseHeaders.ts:26-37 | Every synthesized timestamp is ≤ `now`, and the log is non-increasing. |
| RateLimitHeaders.CountHeaderExample | src/ratelimiter/parseHeaders.ts:33-36 | Counts are not differenced: `5:1,40:120` gives 45 stamps, 5 at `now` and then 40 at `now − 2000`. |
| Sorting.SortBySorted | src/ratelimiter/parseHeaders.ts:31 | The sort orders its result by the key, here the window seconds. |
| Sorting.SortByStable | src/ratelimiter/parseHeaders.ts:31 | Elements with equal keys keep their relative order, as the stable `Array.prototype.sort` keeps them. |
| Sorting.WithKeyConcat | src/structures/api/Match.ts:118-119 | Selecting by key distributes over concatenation. |
| Sorting.WithKeyCount | src/managers/ChampionMasteryManager.ts:53-55 | Filtering by key keeps exactly the occurrences whose key matches. |
| Collections.SetAllKeys | src/managers/ChampionMasteryManager.ts:131-134 | A run of `set` calls keeps the old insertion order as a prefix and never drops a key. The keys afterwards are the old keys plus the written ones. |
| Collections.SetAllKeeps | src/managers/ItemManager.ts:61-64 | A key that the run of `set` calls does not write keeps its value. |
| Collections.SetAllLast | src/managers/ChampionMasteryManager.ts:133 | The last write of a key wins. |
| Collections.FindFirst | src/managers/ItemManager.ts:109 | `find` returns the first value in insertion order that satisfies the predicate, or nothing when none does. |
| Match.NewMatch | src/structures/api/Match.ts:99-122 | Fails with `Match data received is malformed.` exactly when the data is malformed. Otherwise: the id, data version, timestamps, duration, game id, mode, name, type, version, map id, queue id and tournament code are copied from the data; the region comes from the platform id; the teams are exactly blue and red; the blue participants are the in-order filter of team id 100 and the red ones of 200; each team's data is the first team entry with that id. |
| Match.MalformedIff | src/structures/api/Match.ts:136-145 | The data is malformed iff creation or duration is 0, or any of game mode, name, type, version, participants or teams is empty. |
| Match.KnownPlatformsRoundTrip | src/structures/api/Match.ts:147-168 | Every region other than NA has a listed platform id that maps to it. With `KnownPlatformsDistinct`, that id is the only one. |
| Match.DefaultRegion | src/structures/api/Match.ts:147-171 | A platform id maps to NA iff it is none of the ten listed ids, so the default branch covers `NA1` and any unknown id. |
| Match.KnownPlatformsDistinct | src/structures/api/Match.ts:148-168 | Distinct listed platform ids give distinct regions. |
| Match.SidesPartition | src/structures/api/Match.ts:118-119 | Blue, red and the other participants together account for every participant, and no participant is on both teams. |
| Match.OnTeam | src/structures/api/Match.ts:118-119 | `filter` by team id keeps each participant of that team exactly as often as it occurs, and no one else. |
| Match.OnTeamOrder | src/structures/api/Match.ts:118-119 | The filter keeps the participants' order: it distributes over concatenation, keeping or dropping each participant in place. |
| Match.FindTeam | src/structures/api/Match.ts:116-117 | `find` by team id returns the first team entry with that id, or nothing. |
| ChampionMastery.RankedOrdered | src/managers/ChampionMasteryManager.ts:51-57 | `sortedCache` lists level 7, then level 6, then levels below 6. Within each group, points never increase. |
| ChampionMastery.RankedPermutation | src/managers/ChampionMasteryManager.ts:53-56 | `sortedCache` holds each cached mastery of level ≤ 7 exactly as often as the cache does, and no mastery above level 7. |
| ChampionMastery.RankedHeadIsHighest | src/managers/ChampionMasteryManager.ts:51-57 | The first entry of `sortedCache` is in the highest level group present and has the most points within it. |
| ChampionMastery.ConcatRanked | src/managers/ChampionMasteryManager.ts:56 | (support) Concatenating ranked lists of increasing tiers is ranked. |
| ChampionMastery.ChampionMasteryManager.constructor | src/managers/ChampionMasteryManager.ts:29-34 | The cache starts empty and `totalScore` at 0. |
| ChampionMastery.ChampionMasteryManager.RefreshAll | src/managers/ChampionMasteryManager.ts:115-138 | A rejected request leaves the cache alone and rejects. Otherwise each mastery is `set` under its champion id, in response order, and the cache is returned. |
| ChampionMastery.ChampionMasteryManager.Fetch | src/managers/ChampionMasteryManager.ts:65-94 | An unknown champion rejects with `Invalid champion ID`. A cached mastery is returned unless `force` is set. Otherwise the response is returned, and it is stored only when `cache` is set and the request succeeded. |
| ChampionMastery.ChampionMasteryManager.Highest | src/managers/ChampionMasteryManager.ts:100-110 | A negative `n` rejects with its message. The method refreshes only an empty cache, and a failed refresh rejects. It answers `sortedCache[n]`, or rejects with `...mastery points for n champions`. |
| ChampionMastery.ChampionMasteryManager.UpdateTotalScore | src/managers/ChampionMasteryManager.ts:143-159 | The returned score becomes `totalScore`. A rejected request leaves it unchanged. |
| DataDragon.RefilledSpec | src/managers/ItemManager.ts:56-67 | With `cache` on, every loaded key holds the value built from it. Old keys stay and keep their values unless reloaded. The old insertion order is a prefix of the new one. With `cache` off, the map is unchanged. |
| DataDragon.FetchSpec | src/managers/ItemManager.ts:56-86 | A hit without `force` answers the cached value with no reload. Otherwise the manager reloads. With `cache` on, the fetch succeeds exactly when the key was cached or loaded, and a loaded key answers its freshly built value. With `cache` off, the reload stores nothing: a forced fetch of a cached key answers the stale cached value, and an uncached key fails. Every failure carries the manager's message. |
| DataDragon.FetchUncachedWithoutCaching | src/managers/ItemManager.ts:79-83 | With `cache` off, a key that is not already cached is never found, even though it was loaded. |
| DataDragon.FindByName | src/managers/ItemManager.ts:109 | Returns the first value in insertion order whose lower-cased name contains the lower-cased query, or nothing. |
| DataDragon.FindByNameIgnoresCase | src/managers/ItemManager.ts:109 | Two queries that differ only in ASCII case find the same value. |
| ItemManager.ItemManager.constructor | src/managers/ItemManager.ts:31-35 | The item cache starts empty. |
| ItemManager.ItemManager.FetchAll | src/managers/ItemManager.ts:56-67 | The refill loop leaves exactly the refilled map, which is unchanged when `cache` is off, and returns it. |
| ItemManager.ItemManager.Fetch | src/managers/ItemManager.ts:75-86 | Answers as the cache-aside lookup with the message `There is no item with that ID`. The map reloads only on a miss or when forced. |
| ItemManager.ItemManager.FetchByName | src/managers/ItemManager.ts:106-110 | Reloads only an empty map or when forced, then answers the first cached item whose name contains the query, ignoring case. |
| SummonerSpellManager.SummonerSpellManager.constructor | src/managers/SummonerSpellManager.ts:30-34 | The spell cache starts empty. |
| SummonerSpellManager.SummonerSpellManager.FetchAll | src/managers/SummonerSpellManager.ts:55-66 | The refill loop, with each spell built from its data alone. |
| SummonerSpellManager.SummonerSpellManager.Fetch | src/managers/SummonerSpellManager.ts:76-86 | Cache-aside lookup with the message `There is no spell with that ID`. |
| SummonerSpellManager.SummonerSpellManager.FetchByName | src/managers/SummonerSpellManager.ts:106-110 | Reloads only an empty map or when forced, then answers the first cached spell whose name contains the query, ignoring case. |
| WebClient.Url | web/src/client.ts:152-176 | Fails with `Client has not been initialized.` exactly while the version is undefined. With `noVersion`, or for meraki, the URL is `base + path`. The versioned dDragon URL is `dDragonBase + version + '/data/' + locale + '/' + path`. The versioned cDragon URL is `cDragonBase + patch + '/' + path`, and it fails when the version has no patch. No other URL fails. Every URL starts with its CDN's base and ends with the path. |
| WebClient.ImageUrl | web/src/client.ts:178-183 | Not initialized means failure. The dDragon image URL is `dDragonBase + version + '/img/' + path`. The cDragon image URL is `cDragonBase + patch + '/' + path`, or fails when the version has no patch. |
| WebClient.UrlWithoutVersion | web/src/client.ts:171-175 | With `noVersion`, or for meraki whatever `noVersion` is, the URL is `base + path` and depends on neither version nor locale. |
| WebClient.CDragonImageIsVersionedUrl | web/src/client.ts:173-182 | The cDragon image URL equals the versioned cDragon data URL of the same path. When the version has a patch, both are `cDragonBase + patch + '/' + path`. |
| WebClient.CDragonVersionedUrl | web/src/client.ts:174-182 | For a version `x.y…`, the versioned cDragon URL and the cDragon image URL are both `cDragonBase + x.y + '/' + path`. |
| WebClient.MissingPatchOnlyCDragon | web/src/client.ts:171-182 | When the version contains no `digits.digits`, both versioned cDragon URLs fail with the missing patch, and both dDragon URLs still succeed. |
| WebClient.PatchSpanMatch | web/src/client.ts:17 | What the scan finds matches `\d+\.\d+`, with both digit runs as long as they go (greedy). |
| WebClient.PatchSpanLeftmost | web/src/client.ts:17 | No match starts before the one the scan finds. When it finds none, no match exists anywhere. |
| WebClient.PatchOfVersion | web/src/client.ts:82-84 | A version `x.y` followed by nothing or by a non-digit has the patch `x.y`. |
| WebClient.PatchExample | web/src/client.ts:77-84 | `13.1.1` has the patch `13.1`. |
| WebClient.FindPrefixed | web/src/client.ts:218 | `find` returns the first version that starts with the prefix, or nothing when none does. |
| WebClient.ApplyConfiguredVersion | web/src/client.ts:217-220 | The `find` and `if (latestMatch)` step computes exactly the selection below. |
| WebClient.SelectVersion | web/src/client.ts:211-220 | Without a configured version, the fetched `v` is kept. With one, when the first listed version with that prefix exists and is non-empty, it is taken. When none exists, or it is the empty string (falsy), `v` is kept. The result is always `v` or that first match. |
| WebClient.VersionIndex | web/src/client.ts:232 | `indexOf`: the first position of the version, or −1 exactly when it is not listed. |
| WebClient.RollBack | web/src/client.ts:232-234 | The step takes `all[indexOf(version) + 1]`, even in a list with duplicates; that is index 0 when the version is absent. It fails exactly when no such element exists or it is empty. In a duplicate-free list the new version sits exactly one place later. |
| WebClient.RollBackCycles | web/src/client.ts:232 | In `[a, b, a]` the step goes from `a` to `b` and back to `a`. |
| WebClient.SettleSpec | web/src/client.ts:224-240 | The loop stops at the first version on the rollback chain from the start whose two Aatrox URLs both answer: every version passed over has both URLs and is not served. The IMPOSSIBLE error comes only at an unserved version with no next step. Any other failure is the failure of that version's Aatrox URL. It only moves to versions later in the list. |
| WebClient.RollBackUntilServed | web/src/client.ts:229-240 | The `while` loop computes exactly the stopping version and outcome that the rollback specification gives. |
| WebClient.ResolveFetchOptions | web/src/client.ts:243-247 | Each given option is taken as given. An absent `cache` becomes `true`, and an absent `ignoreCache` or `noVersion` becomes `false`, each field on its own. |
| WebClient.ResolveFetchOptionsDefaults | web/src/client.ts:52-56 | No options give `{cache: true, ignoreCache: false, noVersion: false}`, the constructor's defaults. Full options are kept as they are. |
| WebClient.Client.constructor | web/src/client.ts:44-68 | Default bases, version undefined, region `na`, locale `en_US`, and the default fetch options. |
| WebClient.Client.Patch | web/src/client.ts:82-84 | The `patch` getter: nothing before `initialize`. After it, the first `digits.digits` run of the version, or nothing (the `TypeError`) when the version has none. |
| WebClient.Client.GenerateUrl | web/src/client.ts:165-176 | `generateUrl` over the client's bases, version and locale, with `source` defaulting to dDragon and `noVersion` to the client's default fetch option. It fails with `Client has not been initialized.` exactly while the version is undefined. With both defaults, the URL is the versioned dDragon data URL, or `dDragonBase + path` when the default `noVersion` is set. |
| WebClient.Client.GenerateImageUrl | web/src/client.ts:178-183 | `generateImageUrl` with `source` defaulting to dDragon: `dDragonBase + version + '/img/' + path`. The cDragon form is `cDragonBase + patch + '/' + path`, or fails when there is no patch. It fails with `Client has not been initialized.` exactly while the version is undefined. |
| WebClient.Client.AatroxUrlsAreGenerated | web/src/client.ts:224-227 | The two Aatrox URLs the rollback checks are exactly `generateUrl('champion/Aatrox.json')` and `generateUrl('…aatrox.bin.json', 'cDragon')` with the default `noVersion`. They fail together with the cDragon one. |
| WebClient.Client.Initialize | web/src/client.ts:185-247 | The CDN bases are set as written: `cdn.cDragon` becomes the dDragon base and `cdn.dDragon` the cDragon base. The region comes from the config. The locale ends as the fetched `l`. The version is the rollback's stopping point from the selected version. The default fetch options are resolved only when initialisation succeeds. |

## Left out

- Network and CDN I/O is not modelled. This covers the axios fetcher, `makeApiRequest`, the local storage managers, and the prefetch of seasons, maps, game modes, game types and queues. Every answer is an input.
- `Date.now()` is called once per pushed element of the synthesized log. The model takes a single `now`, as if the clock did not move during the call.
- RateLimitHeaders.ParseHeaders: requires well-formed `int:int` lists. `parseInt` yielding `NaN` on other text is not modelled.
- The rest of the rate limiter (quotas, queueing, retries) is not part of this model.
- ChampionMastery.ChampionMasteryManager.Fetch: the champion lookup (`client.champions.fetch`) is abstracted to a flag saying whether the champion exists. The model takes its `champ.id` to be the given id.
- ChampionMastery.ChampionMasteryManager.Highest: after a rejected refresh, the source goes on computing and settling the already-rejected promise. The model stops at the rejection. `n` is an integer.
- ChampionMastery.ChampionMasteryManager.RefreshAll: the prefetch of champions that are not cached yet (`fetchByKeys`) is not modelled. Each mastery is keyed by its `championId`.
- Match.NewMatch: the lookups of game mode, game type, map and queue in the client's static data are not modelled; the model keeps the raw mode, type, map id and queue id. The construction of `Team` objects is not modelled either: a team is its data and participants.
- Match.NewMatch: when the teams list is non-empty but has no entry with id 100 or 200, the source passes `undefined` (after a non-null assertion) to the `Team` constructor, which presumably throws on reading it. The model succeeds with that team's data set to `None`. `Team` is not part of this model, so this failure is not captured.
- Loader failures of `_fetchAll` (the rejected local fetch followed by `Object.keys` of `undefined`) are not modelled. The loaded data is a duplicate-free list of keys in `Object.keys` order.
- The deprecated `findByName` is a one-line alias of `fetchByName` with default options, and is not modelled separately.
- Lower-casing is ASCII only. Unicode `toLowerCase` is not modelled.
- WebClient.Client.Initialize: requires the list of all versions to be free of duplicates. With duplicates, the source's rollback can cycle forever, as `RollBackCycles` shows, and a terminating model cannot express that.
- WebClient.Client.Initialize: the fetcher set-up, the logger, the cache option and champion prefetching are not modelled.
- A missing patch is a `TypeError` in the source, raised by calling `.shift()` on the `null` result of `match`. The model reports it as `MissingPatch`, without the engine's message text.
- The `??` defaults of the managers' options (`force ?? false`, `cache ?? true`) and `highest(n = 0)` are not modelled as optional arguments. The methods take `force`, `cacheResult` and `n` explicitly, and a caller that omits them corresponds to `false`, `true` and `0`.
- The default CDN bases and the versions URLs come from a constants module, which is not part of this model. The bases are constructor parameters.
