# Hope Ignites application launcher: a Dafny model

This project models the core of the launcher, a static web page that shows the
organisation's applications as cards, with a service worker for offline use.
Two source files make up that core.

- `service-worker.js` is the offline cache controller. It has three parts:
  - The install handler fills three caches from fixed asset lists.
  - The activate handler deletes every cache that is not of the current generation.
  - The fetch handler picks one of five strategies for each request:
    - static assets: cache first;
    - images: cache first, storing only status 200;
    - the data file: network first, with the data cache as fallback;
    - cross-origin requests: network only;
    - everything else: network first, with all caches as fallback.
- `scripts.js` holds the page logic:
  - the link guard `isValidUrl`;
  - the favourites list;
  - the theme-dependent icon choice;
  - the shape check on the data file;
  - the tab order in tech mode (`renderTabs`);
  - the choice of cards for the current tab (`renderCards`);
  - the headquarters ("NHQ") address check;
  - the spotlight search: collecting entries, filtering and ranking, and keyboard selection.

## How the model is built

The browser's cache storage is a value, `CacheStore.Store`. It holds the cache
names in creation order, because `caches.match` searches caches in that order,
and a map from each name to its entries.

The fetch handler's branches are functions from a store, a request and the
network's outcome to a new store and a reply (`ServiceWorker.FetchStep`). The
class `ServiceWorker.Worker` holds the storage as fields. Its methods
(`Install`, `Activate`, `HandleFetch`) are proved to produce exactly the state
those functions describe.

The network is an input:
- In the fetch handler, a `NetOutcome` says whether `fetch` resolves with a response or rejects.
- In the install handler, a function gives the outcome for each asset URL.
- The page's own origin is a parameter of the worker.

On the page side:
- Pure helpers are functions.
- The favourites list and the search panel are classes whose methods update their fields.
- The loops of `renderTabs`, `renderCards`, `collectAllApps` and `checkIP` are methods with loop invariants. Each is proved equal to a specification function, and the properties are proved about that function.

JavaScript's `<<`, `parseInt` and `split` are written out in `IpCheck`: ToInt32
wrap-around, white-space skipping, sign, hex prefix, longest digit run and NaN.

## Model

| member | source | states |
|---|---|---|
| ServiceWorker.Classify | service-worker.js:64-124 | the branch taken is the first one, in the handler's order, whose test holds: non-GET, static path, `/assets/` prefix, data path, other origin, catch-all |
| ServiceWorker.FetchStep | service-worker.js:59-140 | the fetch handler as a function of the storage, the request, the network's outcome and the worker's origin: the branch `Classify` picks, applied to them |
| ServiceWorker.StaticStep | service-worker.js:69-81 | the static branch: the first cache holding the URL answers; on a miss the network response is put in the static cache and served; offline, the cached `/index.html` answers, or the request fails |
| ServiceWorker.ImageStep | service-worker.js:84-98 | the image branch: the first cache holding the URL answers; on a miss a status-200 response is put in the image cache, any response is served, and a network failure fails the request |
| ServiceWorker.DataStep | service-worker.js:102-117 | the data branch: the data cache is opened, a status-200 network response replaces its entry, any response is served, and offline the data cache alone answers |
| ServiceWorker.CrossOriginStep | service-worker.js:121-124 | the cross-origin branch: the network's outcome, with no cache touched |
| ServiceWorker.CatchAllStep | service-worker.js:127-139 | the catch-all branch: a status-200 response is put in the general cache, any response is served, and offline the first match across all caches answers |
| ServiceWorker.NonGetPassesThrough | service-worker.js:64-66 | a non-GET request is not intercepted and changes no cache |
| ServiceWorker.CrossOriginStaticPathIsCached | service-worker.js:69-121 | the path tests come before the origin test, so a cross-origin GET whose path is a static asset takes the static branch |
| ServiceWorker.OnlyTargetCacheChanges | service-worker.js:59-140 | handling any request keeps the storage well formed and writes at most the one cache of its branch; every other cache keeps its entries |
| ServiceWorker.RouteChangesOnly | service-worker.js:68-139 | branch by branch: static writes only the static cache, images only the image cache, data only the data cache, the catch-all only the general cache; pass-through and cross-origin write nothing |
| ServiceWorker.CacheFirstHit | service-worker.js:70-96 | for static and image requests, a hit in any cache is returned unchanged, whatever the network would do, and nothing is stored |
| ServiceWorker.StaticRepeatIsIdempotent | service-worker.js:70-78 | after a static request is served (from the cache, or from the network and then stored, which holds unless the response is partial), a repeat gets the same response from the cache and changes nothing |
| ServiceWorker.ImageRepeatIsIdempotent | service-worker.js:85-96 | after an image is served from the cache or stored with status 200, a repeat gets the same response from the cache and changes nothing |
| ServiceWorker.ImageMissNotStored | service-worker.js:87-95 | on an image miss, a non-200 response is returned without being stored, and a network failure gives a network error |
| ServiceWorker.CacheFirstMissStores | service-worker.js:70-95 | on a static or image miss with a response (status 200 for an image), the reply is that response and the new storage is the old one with the response put in the branch's cache under the request URL |
| ServiceWorker.StaticOfflineFallback | service-worker.js:78 | on a static miss with the network down, the answer is the cached `/index.html`, or a network error if that is not cached |
| ServiceWorker.DataFreshOverCache | service-worker.js:103-110 | a status-200 data response is returned and replaces the cached copy |
| ServiceWorker.DataErrorKeepsCache | service-worker.js:104-110 | a non-200 data response is returned, and the data cache keeps its entries (it is created empty if missing) |
| ServiceWorker.DataOfflineFallback | service-worker.js:111-114 | with the network down, the data file comes from the data cache alone, or the request fails |
| ServiceWorker.CrossOriginBypassesCache | service-worker.js:121-124 | a cross-origin request gets exactly the network's outcome, and no cache changes |
| ServiceWorker.CatchAllPolicy | service-worker.js:127-139 | a 200 response is returned and stored in the general cache; another status is returned and not stored; offline, the first match across all caches answers |
| ServiceWorker.Worker.HandleFetch | service-worker.js:59-140 | the worker's new storage and reply are those of `FetchStep` for the request, the network outcome and its origin |
| ServiceWorker.Worker.HandleStatic | service-worker.js:68-81 | the static branch on the worker's fields equals `StaticStep` |
| ServiceWorker.Worker.HandleImage | service-worker.js:83-98 | the image branch on the worker's fields equals `ImageStep` |
| ServiceWorker.Worker.HandleData | service-worker.js:101-117 | the data branch on the worker's fields equals `DataStep` |
| ServiceWorker.Worker.HandleCatchAll | service-worker.js:126-139 | the catch-all branch on the worker's fields equals `CatchAllStep` |
| ServiceWorker.Worker.OpenCache | service-worker.js:73 | `caches.open` on the worker's fields: the named cache exists afterwards, and a new one is empty and listed last |
| ServiceWorker.Worker.PutEntry | service-worker.js:74 | `cache.put` on the worker's fields equals `CacheStore.Put` |
| ServiceWorker.Worker.DeleteCache | service-worker.js:50 | `caches.delete` on the worker's fields equals `CacheStore.Delete` |
| CacheStore.Open | service-worker.js:73 | opening keeps every cache, adds the named one empty if missing, and lists a new name last |
| CacheStore.Put | service-worker.js:74 | the named cache exists afterwards and the key maps to the response in it, except that a partial (206) response is refused and leaves the cache as opening left it; every other entry of that cache, and every other cache, is unchanged |
| CacheStore.Delete | service-worker.js:50 | the named cache and its entries are gone; every other cache is unchanged, and the remaining names keep their creation order |
| CacheStore.MatchAll | service-worker.js:71 | the answer is the entry of the first cache, in creation order, that holds the key, and there is one exactly when some cache holds it |
| CacheStore.MatchAllUnique | service-worker.js:71 | when only one cache holds the key, the search over all caches returns that cache's entry |
| CacheStore.MatchIn | service-worker.js:113 | `cache.match` on one named cache: its entry for the key, if the cache exists and holds one |
| ServiceWorker.AfterAddAll | service-worker.js:35-37 | `open` followed by `addAll`: the cache holds every fetched response when all fetches are ok, and otherwise is as `open` left it; no other cache changes |
| ServiceWorker.StoredContents | service-worker.js:35-37 | after a successful `addAll`, every asset URL maps to its fetched response and the earlier entries for other keys remain |
| ServiceWorker.AddAllFillsStore | service-worker.js:35-37 | a cache left by a successful `addAll` answers every asset of its list with an ok response |
| ServiceWorker.InstallFillsCaches | service-worker.js:32-40 | after a successful install, each of the three caches answers every asset of its list with the fetched ok response |
| ServiceWorker.InstallIsAtomicPerList | service-worker.js:33-38 | a list with any failed fetch leaves its cache as opening left it: no partial writes |
| ServiceWorker.InstallCreatesItsCaches | service-worker.js:33-38 | install creates the static, image and data caches if missing, and no other cache |
| ServiceWorker.InstallKeepsOtherCaches | service-worker.js:33-38 | install leaves every other existing cache unchanged |
| ServiceWorker.AfterInstall | service-worker.js:32-40 | the install handler as a function: the three `open` and `addAll` pairs in turn, keeping the storage well formed, with success exactly when every fetch of the three lists is ok |
| ServiceWorker.Worker.Install | service-worker.js:32-40 | the worker's storage and success flag are those of `AfterInstall`; `skipWaiting` is called exactly when all three lists succeed |
| ServiceWorker.Worker.FillCaches | service-worker.js:34-38 | the three `addAll` calls in order produce `AfterInstall`'s storage and success flag |
| ServiceWorker.Worker.AddAll | service-worker.js:35 | the loop storing each fetched asset produces `AfterAddAll`, and the result says whether every fetch was ok |
| ServiceWorker.ActivateCleansUp | service-worker.js:43-56 | after activation, exactly the current-generation caches that existed remain, with their entries; every other name, foreign ones included, is deleted |
| ServiceWorker.Activated | service-worker.js:43-56 | the storage after activation: the current-generation names that existed, in their order, each with its entries |
| ServiceWorker.Worker.Activate | service-worker.js:43-56 | the loop over `caches.keys()` that deletes each name not current ends in the `Activated` storage, and clients are claimed |
| ServiceWorker.SweepStep | service-worker.js:48-52 | examining one name in the activate loop deletes it exactly when it is not current, and otherwise changes nothing |
| UrlValidation.IsValidUrl | scripts.js:33-54 | a link is valid exactly when it is a non-empty string that, lower-cased and trimmed, starts with `http://`, `https://` or `/` |
| UrlValidation.StartsWithAny | scripts.js:42 | `some(p => s.startsWith(p))` holds exactly when one of the prefixes starts the string |
| UrlValidation.DenyAndAllowDisjoint | scripts.js:38-51 | no string starts with both a refused scheme and an allowed prefix, so the refusal list never rejects a link the allow list would accept |
| UrlValidation.DangerousAlwaysRejected | scripts.js:39-45 | a link whose normalised form starts with `javascript:`, `data:`, `vbscript:` or `file:` is never valid |
| UrlValidation.PaddingIgnored | scripts.js:40 | leading white space does not change the verdict |
| UrlValidation.AllowedAccepted | scripts.js:47-53 | a non-empty link whose normalised form starts with `http://`, `https://` or `/` is valid |
| UrlValidation.JavascriptRejected | scripts.js:42-45 | the link `javascript:x` is refused |
| UrlValidation.HttpsAccepted | scripts.js:47-53 | the link `https://b` is accepted |
| UrlValidation.Normalize | scripts.js:40 | `url.toLowerCase().trim()` |
| JsStrings.BlankIffAllWhitespace | scripts.js:961 | `!s.trim()` holds exactly when every character is white space |
| JsStrings.ToLower | scripts.js:40 | lower-casing keeps the length and maps each character on its own |
| JsStrings.TrimStart | scripts.js:40 | trimming the start leaves a suffix that does not begin with white space |
| JsStrings.TrimEnd | scripts.js:40 | trimming the end leaves a prefix that does not end with white space |
| JsStrings.Trim | scripts.js:40 | `trim()`: the end is trimmed after the start |
| Favorites.IndexOf | scripts.js:227 | the result is the first position of the URL, or -1 exactly when it is absent |
| Favorites.Toggled | scripts.js:225-237 | the list after `toggleFavorite`: the first copy of a present URL spliced out, or an absent URL pushed at the end |
| Favorites.ToggleCounts | scripts.js:225-237 | a toggle removes one copy of a present URL, or adds one copy of an absent URL, and changes nothing else in the multiset |
| Favorites.ToggleKeepsOthers | scripts.js:229-233 | the other favourites keep their order |
| Favorites.ToggleFlips | scripts.js:225-237 | in a list without repeats, a toggle flips the URL's membership and adds no repeat |
| Favorites.SpliceOut | scripts.js:230 | splicing one position out of a list without repeats leaves no copy of its element and no repeat |
| Favorites.ToggleAbsentTwice | scripts.js:225-237 | toggling an absent URL twice restores the list |
| Favorites.TogglePresentTwice | scripts.js:225-237 | toggling a present URL twice moves it to the end, and the others keep their order |
| Favorites.FavoritesManager.constructor | scripts.js:188-196 | the list starts as the stored value, or empty when nothing usable is stored |
| Favorites.FavoritesManager.IsFavorite | scripts.js:215-218 | a URL is a favourite exactly when `indexOf` finds it |
| Favorites.FavoritesManager.ToggleFavorite | scripts.js:225-237 | the new list is the toggled one, and the result is the URL's new status |
| Icons.GetIconForTheme | scripts.js:270-290 | a string icon is used as is; for an object, the theme's own variant wins when set, light is the next choice and dark the last, and the fallback is used when neither is set; any other value gives the fallback |
| Icons.BothVariantsFollowTheme | scripts.js:280-286 | with both variants set, the icon is the variant of the current theme |
| Icons.SingleVariantInBothThemes | scripts.js:286 | with one variant set, that variant is used in both themes |
| Catalog.LoadPortalData | scripts.js:298-332 | the categories are returned exactly when the fetch succeeds with an ok status, the body parses and its `categories` is an array; otherwise the error path is taken |
| Catalog.FindIndex | scripts.js:345-346 | the result is the first category with the id, or -1 exactly when none has it |
| Catalog.InsertAt | scripts.js:352 | `splice(at, 0, x)`: `x` lands at `at`, or at the end when `at` is past it; the elements before it and after it keep their order |
| Catalog.TechReordered | scripts.js:343-354 | the tab order: in tech mode with both categories present, the first `tech-tools` category moved to the old index of `favorites` plus one; otherwise the data file's order |
| Catalog.ReorderPermutes | scripts.js:343-354 | the tech-mode reorder keeps every category, each as often as before |
| Catalog.ReorderOnlyWithBoth | scripts.js:344-354 | outside tech mode, or with `tech-tools` or `favorites` missing, the order is the data file's |
| Catalog.ReorderAfterFavorites | scripts.js:349-352 | a `tech-tools` category found after `favorites` lands right after it |
| Catalog.ReorderBeforeFavorites | scripts.js:349-352 | a `tech-tools` category found before `favorites` lands one place further on: `favorites` moves up by one and the category that followed it sits in between |
| Catalog.ReorderFavoritesLast | scripts.js:349-352 | when `favorites` is last, the insertion point is past the end and `tech-tools` follows it |
| Catalog.ReorderKeepsOthers | scripts.js:343-354 | apart from the first `tech-tools` category, every category keeps its relative order; in tech mode with both categories present, that category sits at the old index of `favorites` plus one (the last place when that is past the end), and the list without that position is the data file's list without it |
| Catalog.ReorderForTabs | scripts.js:343-354 | the copy and the two splices give exactly the `TechReordered` order |
| Catalog.RenderTabs | scripts.js:336-391 | the `forEach` loop over the reordered copy gives the reordered categories minus a tech-only `tech-tools` category outside tech mode |
| Catalog.TabsShown | scripts.js:356-361 | a category gets a tab exactly when it is in the data file and is not a `tech-tools` category with tech cards outside tech mode |
| Catalog.GatheredMembers | scripts.js:404-437 | a card is gathered exactly when the filter accepts it and an eligible category holds it |
| Catalog.FavoritesView | scripts.js:401-423 | the favourites tab shows exactly the visible favourite cards of the categories other than `all`, `favorites` and, outside tech mode, `tech-tools` |
| Catalog.AllView | scripts.js:424-437 | the all tab shows exactly the visible cards of those same categories |
| Catalog.SingleView | scripts.js:439-446 | any other tab shows the visible cards of the first category with its id, in order; the tech-mode rule does not apply |
| Catalog.UnknownTabEmpty | scripts.js:440-446 | a tab id that no category carries shows no card |
| Catalog.GatherCards | scripts.js:406-422 | the nested `forEach` loops push exactly the gathered cards, in order |
| Catalog.SelectCards | scripts.js:400-447 | the cards chosen for the current tab are `CardsFor` of the categories, tab, favourites, tech mode and NHQ status |
| Catalog.CardsFor | scripts.js:400-447 | the cards for the current tab: the visible favourite cards for `favorites`, the visible cards of the eligible categories for `all`, and the visible cards of the first category with the tab's id otherwise |
| Catalog.DrawnCards | scripts.js:450-455 | once a skipped card is only skipped, a selected card is drawn exactly when its URL passes `isValidUrl` |
| Catalog.DrawnAsWritten | scripts.js:450-455 | as written, the cards drawn are those before the first card whose URL fails `isValidUrl`, because logging that card throws |
| Catalog.DrawnAsWrittenIsPrefix | scripts.js:450-455 | as written, the page draws a prefix of the intended cards, and all of them when every URL is valid |
| Catalog.SkippedCardHidesRest | scripts.js:450-455 | as written, a card with an invalid URL followed by a valid one draws nothing, where the intended page draws the valid one |
| Catalog.InvalidUrlStopsDrawing | scripts.js:450-455 | the cards `javascript:x` then `https://b`: as written nothing is drawn; intended, the second card is |
| Search.Tagged | scripts.js:931-936 | each card of a category becomes one entry, in order, tagged with the category's name |
| Search.AllApps | scripts.js:920-940 | `collectAllApps()`: the cards of every category but `all` and `favorites`, in order, each tagged with its category's name |
| Search.TaggedMembers | scripts.js:931-936 | an entry comes from a category exactly when its card is one of the category's cards and its tag is the category's name |
| Search.AllAppsMembers | scripts.js:920-940 | an entry is collected exactly when a category other than `all` and `favorites` holds its card under its name; neither the tech-mode rule nor the NHQ rule applies |
| Search.WhitespaceQueryFindsNothing | scripts.js:961-964 | a query of white space alone gives no results |
| Search.SearchResults | scripts.js:960-984 | `performSearch(query)`: nothing for a blank query; otherwise the matching entries with title-prefix matches first, each group in collected order |
| Search.ResultsMatch | scripts.js:960-975 | an entry is a result exactly when the query is not blank and its lower-cased title, description or category contains the lower-cased query |
| Search.ResultsPermute | scripts.js:977-984 | ranking only reorders: the results are a permutation of the matching entries |
| Search.TitleMatchesFirst | scripts.js:977-984 | no entry whose title starts with the query comes after one whose title does not |
| Search.ResultsStable | scripts.js:977-984 | within each of the two groups, the results keep the order of the collected list (the sort is stable) |
| Search.Spotlight.constructor | scripts.js:916-917 | the panel starts with no entries, closed, with no results and nothing selected |
| Search.Spotlight.CollectAllApps | scripts.js:920-940 | the nested loops collect exactly `AllApps` of the categories; nothing else changes |
| Search.Spotlight.OpenSearch | scripts.js:943-949 | opening shows the overlay with no results and nothing selected |
| Search.Spotlight.CloseSearch | scripts.js:952-957 | closing hides the overlay with no results and nothing selected |
| Search.Spotlight.PerformSearch | scripts.js:960-986 | the results are `SearchResults`; a blank query leaves the selection as it was, otherwise the first result is selected, or nothing when there is none |
| Search.Spotlight.Hover | scripts.js:1035-1038 | the mouse entering a result selects it |
| Search.Spotlight.HandleKey | scripts.js:1056-1074 | the new selection and the launched result are those `Navigate` gives for the results on screen; ArrowDown and ArrowUp move the selection by one within the results; Enter on a selected result launches it and closes the search; any other key changes nothing |
| Search.Navigate | scripts.js:1056-1074 | only Enter on an item that exists opens something, and it opens that item and clears the selection, while Enter without one keeps the selection; the arrows move by one while there is room; a selection within the items stays within them; any other key changes nothing |
| Search.RenderedAsWritten | scripts.js:989-1040 | as written, results with an image icon leave the previous items on screen, because the image path names an undeclared constant; other results replace them |
| Search.ImageResultCannotBeOpened | scripts.js:1004-1008 | as written, a search on the freshly opened panel whose one result shows an image icon leaves no item, so Enter opens nothing; with the list drawn, Enter opens that result |
| Search.ImageIconBlocksEnter | scripts.js:1007 | the concrete case: a result whose icon is `b.png` cannot be opened with Enter |
| IpCheck.ToInt32 | scripts.js:706 | the wrapped value is in the signed 32-bit range and congruent to the input modulo 2^32 |
| IpCheck.Split | scripts.js:706 | `split('.')`: at least one piece; the pieces between separators, empty ones included (`JoinSplit` and `SplitJoin` state the round trips) |
| IpCheck.ParseInt | scripts.js:706 | `parseInt(octet)`: white space skipped, an optional sign, a hex prefix, the longest digit run, or NaN |
| IpCheck.IpToNumber | scripts.js:705-707 | `ipToNumber(ip)`: the pieces folded with `(acc << 8) + parseInt(octet)`, each shift wrapping to a signed 32-bit integer |
| IpCheck.IsIPInRange | scripts.js:710-715 | the range test as written: both bounds compared with the signed `ipToNumber` values, inclusive, and false when any value is NaN |
| IpCheck.InRange | scripts.js:710-715 | the corrected range test: both bounds compared with the addresses as unsigned numbers |
| IpCheck.JoinSplit | scripts.js:706 | joining the pieces of `split('.')` gives back the string |
| IpCheck.SplitJoin | scripts.js:706 | splitting a join of dot-free pieces gives back the pieces |
| IpCheck.ParseDecimal | scripts.js:706 | `parseInt` reads a plain decimal numeral as its value |
| IpCheck.IpToNumberOfQuad | scripts.js:705-707 | `ipToNumber` of a dotted quad is the address wrapped to a signed 32-bit integer |
| IpCheck.IpToNumberBelow128 | scripts.js:705-707 | below 128.0.0.0 `ipToNumber` is the address itself |
| IpCheck.IpToNumberFrom128 | scripts.js:705-707 | from 128.0.0.0 on, `ipToNumber` is the address minus 2^32, a negative number |
| IpCheck.SignedAgreesBelow128 | scripts.js:710-715 | when all three addresses lie below 128.0.0.0, the as-written range test agrees with numeric order |
| IpCheck.SignedRangeAcross128IsEmpty | scripts.js:710-715 | as written, a range starting below 128.0.0.0 and ending at or above it holds no address |
| IpCheck.SignedRangeCounterexample | scripts.js:710-715 | 128.0.0.1 lies between 127.0.0.0 and 128.0.0.5, but the as-written test rejects it |
| IpCheck.InRangeOfQuads | scripts.js:710-715 | the corrected test holds exactly when the addresses are in numeric order, both ends included |
| IpCheck.CheckIP | scripts.js:718-732 | an address is recognised exactly when it is on the list or inside one of the ranges |
| IpCheck.ScanRanges | scripts.js:725-729 | the `for … of` loop returns true exactly when some range passes the test |
| IpCheck.ShippedConfiguration | scripts.js:687-698 | with the shipped lists (three addresses, no range), only those three addresses are recognised |

## Findings

| source | as written | input that shows it | evidently intended | confidence | as-written member | corrected member |
|---|---|---|---|---|---|---|
| scripts.js:705-715 | `ipToNumber` builds the address with `<<`, which wraps to a signed 32-bit integer, so every address from 128.0.0.0 up is negative and `isIPInRange` compares signed values | `isIPInRange("128.0.0.1", "127.0.0.0", "128.0.0.5")` is false, although the address lies in the range | compare addresses as unsigned 32-bit numbers (for example `>>> 0`, or `acc * 256`) | not executed | IpCheck.SignedRangeCounterexample | IpCheck.InRangeOfQuads |
| scripts.js:450-455 | `renderCards` logs each card with an invalid URL through `logger.error`, which calls itself without end (scripts.js:25) and throws, so the first such card ends the `forEach` | cards `javascript:x` then `https://b`: nothing is drawn, although the second card is valid | skip the card and draw the ones after it (`logger.error` meant to call `console.error`) | not executed | Catalog.InvalidUrlStopsDrawing | Catalog.DrawnCards |
| scripts.js:1007 | `renderResults` builds an image icon's path from `ICON_BASE_PATH`, a name that is never declared (the constant is `CONFIG.ICON_BASE_PATH`), so it throws before the new list is put on screen and the previous items stay | on a freshly opened panel, a search whose one result has the icon `b.png`: the result is selected, but no item is on screen, so Enter opens nothing | draw the results and let Enter open the selected one | not executed | Search.ImageIconBlocksEnter | Search.Spotlight.HandleKey |

The as-written test is `IpCheck.IsIPInRange`. `IpCheck.SignedRangeAcross128IsEmpty`
proves in general that a range crossing 128.0.0.0 is empty under it, and
`IpCheck.SignedAgreesBelow128` shows that ranges entirely below 128.0.0.0 are not
affected. The corrected test is `IpCheck.InRange`, and `IpCheck.CheckIP` uses it. The
shipped configuration has no ranges (`IpCheck.ShippedConfiguration`), so today the
discrepancy cannot change which addresses are recognised.

For the card list, `Catalog.DrawnAsWritten` is the code as written and
`Catalog.DrawnAsWrittenIsPrefix` proves that it draws a prefix of the intended cards,
all of them when every URL is valid. The corrected list is `Catalog.Drawn`, whose
members `Catalog.DrawnCards` states.

For the search panel, `Search.RenderedAsWritten` is the list on screen as written and
`Search.ImageResultCannotBeOpened` states the general case. `Search.Spotlight` keeps the
results it computed as the list on screen, as intended, and `Search.Spotlight.HandleKey`
is proved to act as `Search.Navigate` over that list.

## Left out

- IpCheck.CheckIP: uses the corrected unsigned range test `InRange`, not the signed `isIPInRange` of the source (see Findings). With the shipped empty range list, the two agree.
- An `addAll` whose list names one URL twice is not modelled; the asset lists have no repeats. The Cache API's refusal of a 206 (partial) response is modelled in `CacheStore.Put`; the static branch stores any other status, and the image, data and catch-all branches store only status 200.
- The `cache.put` calls of the fetch handler (service-worker.js:74, 90, 108 and 132) are not awaited: the reply is returned without waiting for the store, and a refused put is an unhandled rejection. The model performs each put as part of the request, so `ServiceWorker.StaticRepeatIsIdempotent`, `ServiceWorker.ImageRepeatIsIdempotent`, `ServiceWorker.DataFreshOverCache` and `ServiceWorker.CacheFirstMissStores` describe the storage once those puts have completed; a second request that overtakes a pending put is not modelled.
- Responses are immutable values. `clone()`, body streams and the `Vary` and method rules of `cache.match` are not modelled; lookups are by the URL's origin, path and query.
- Catalog.SelectCards: returns the all view's cards before `sort` with `localeCompare`. Locale collation is not modelled, so the order of that view is left out; its contents are covered by `Catalog.AllView`.
- Each card field is modelled as a string or a boolean. A card whose `url`, `title` or `description` is not a string, and an icon object whose members are truthy non-strings, are not modelled.
- A stored favourites value that parses to something other than an array of strings is not modelled; local storage is read once, at construction, instead of on each call.
- JsStrings.ToLower: lower-cases the ASCII letters only, not the full Unicode case mapping of `toLowerCase`.
- In `parseInt`, values are unbounded integers; the double-precision rounding of very long numerals, and `Infinity`, are not modelled.
- The fallback icon is the literal as the source file spells it (the package emoji's UTF-8 bytes read as Mac Roman characters).
- Catalog.LoadPortalData: answers `None` on every path into the `catch` block, as the code intends. As written, `logger.error` (scripts.js:25) calls itself until the stack overflows, so that block throws before it draws the error panel and the promise rejects instead of answering `null`; the model does not represent the rejection.
- The same `logger.error` call makes `getFavorites` throw on an unparsable stored value (scripts.js:193) instead of reading it as empty; `Favorites.FavoritesManager.constructor` takes the intended empty list.
- The logger, the DOM (buttons, cards, result items, scroll arrows, the mobile drawer, modals), `clients.claim`'s effect on open pages and `skipWaiting`'s effect on the lifecycle are not modelled; they are recorded as flags only.
- The IP address lookup services, the one-hour IP cache in local storage, the message banner, the commit-id fetch and the theme toggle are not part of this model.
- The search input's debounce timer, the Escape, `/` and Ctrl/Cmd+K shortcuts, and the `setTimeout` retry of `collectAllApps` while the data is loading are not modelled; `Search.Spotlight.CollectAllApps` takes the loaded categories.
- The `sso` and `universal` card fields, the quick links and the tech-mode indicator do not affect the modelled behaviour and are not modelled.
