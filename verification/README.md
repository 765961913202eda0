# Shareabouts core, modelled in Dafny

Shareabouts is a map-based crowd-sourcing application. A Django REST API
stores datasets, places, their submissions (comments, support) and an
activity feed. A Django web front end serves the map page and proxies the
browser's API calls. A Backbone client runs in the browser. This project
models the parts of that system with real logic and proves what they
promise:

- **Response cache** (`response_cache.dfy`, module `ResponseCache`). This is
  the `CachedMixin` of the API views. It models how the key is built, a hit,
  a miss, and the key-set bookkeeping, over a `Cache` class whose store is a
  map. In the source no view derives from the mixin yet: the dataset
  collection, place collection and activity views declare a `cache_prefix`
  but carry a note to derive from the mixin later. As written, the API
  caches nothing. The model states what the mixin does for a view that
  derives from it.
- **Absolute URLs** (`abs_url.dfy`, module `AbsoluteUrls`). This is
  `process_urls`, which rewrites every non-null `url` of a payload into an
  absolute URI.
- **Activity feed** (`activity.dfy`, module `ActivityFeed`). This is
  `ActivityView.get_queryset`: ordering by id descending, the `after` and
  `before` bounds, and the `limit` slice.
- **Menu pages** (`pages_config.dfy`, module `PagesConfig`). This is
  `init_pages_config`, which walks the page menu, fetches page content and
  rewrites `pages` into `sub_pages`.
- **Front-end views** (`web_views.dfy`, module `WebViews`). It covers
  `make_resource_uri` and the case-insensitive check of the default place
  type.
- **Client models** (`client_models.dfy`, module `ClientModels`). It covers
  `SubmissionCollection.url` and `PlaceCollection.add`.
- **CSRF guard** (`csrf.dfy`, module `Csrf`). It covers `getCookie`,
  `sameOrigin`, `safeMethod` and the rule for the `X-CSRFToken` header.
- **API routing table** (`api_routes.dfy`, module `ApiRoutes`). This is the
  ordered URL patterns of the API as a matcher. It returns the view, the
  route name and the captured keyword arguments.

Shared pieces:

- `wrappers.dfy` holds the `Option` and `Result` datatypes.
- `text.dfy` holds string helpers: lower-casing, `strip`, `split` and
  `join`, and decimal digits.
- `json.dfy` holds JSON/YAML values. A dict is an ordered list of fields.

Where the code does something a reader might not expect, the model follows
the code:

- For a view that derives from the cache mixin (none does yet):
  - The cache key joins prefix, query string and Accept header with no
    delimiter, so different requests can share an entry (`KeyAliasing`,
    `AliasedRequestsShareEntry`).
  - The key holds neither the URL path nor the arguments captured from it.
    Once the place collection or the activity view derives from the mixin,
    each would share one entry between all its routes (at `places/` or
    `activity/` and under each dataset) for the same query string and
    Accept header (`SameKeySharesEntry`). Views that declare no prefix share
    keys when their class names agree up to case
    (`UndeclaredPrefixesShareKeys`).
  - A GET whose query string and Accept header together spell `_keys` (for
    example query `_keys` with an empty Accept header) has the key of the
    view's key set. While that key set is absent or empty, the request is
    a miss. Its response then overwrites the key set, and the request
    itself raises when it adds its key (`KeysQueryCorruptsIndex`). From then
    on every miss of the view raises (`CorruptIndexFailsEveryMiss`). While
    the key set is non-empty, the same request is a hit on a set, which
    raises when unpacked as a response; the store is left as it was
    (`IndexKeyHitRaises`).
- Nothing in the core invalidates cache entries.
- Polling the activity feed with `after` and a `limit` returns the most
  recent records, not the ones right after `after`. Records in between can
  be skipped (`LimitedPollingSkips`).
- A menu page with no url keeps any `content`, `status` or `error` keys it
  already had (`PageWithoutUrlNotFetched`).
- The API table has no entry for a submission path under a dataset
  (`datasets/<owner>/<dataset>/places/<id>/<type>/`). No entry has more than
  four segments (`DatasetScopedSubmissionUnrouted`).

External effects are parameters:

- `request.build_absolute_uri` is a function `abs`.
- The HTTP GET of a page is a function `fetch` that returns status and text.
- The wrapped `super().dispatch` is a function `inner`.
- `decodeURIComponent` is a function `decode`.
- `document.cookie`, `document.location.host` and `document.location.protocol`
  are string parameters.

## Model

| member | source | states |
|---|---|---|
| ResponseCache.DispatchEffect | src/sa_api/views.py:16-32 | specification of `dispatch`: what it returns, whether the wrapped dispatch ran, and the new store; stated by `NonGetBypassesCache`, `MissingMetaRaises`, `HitServesStoredResponse`, `MissComputesAndStores`, `MissThenHit` and `SameKeySharesEntry` |
| ResponseCache.CacheResponseEffect | src/sa_api/views.py:44-54 | specification of `cache_response`; stated by `CacheResponseBookkeeping` and `CorruptIndexFailsEveryMiss` |
| ResponseCache.IsHit | src/sa_api/views.py:27 | the truth of `response_data`; used by the hit and miss lemmas |
| ResponseCache.IndexKey | src/sa_api/views.py:52-54 | the slot of the key set, `prefix + "_keys"`; see `KeysQueryCorruptsIndex` |
| ResponseCache.KeyOf | src/sa_api/views.py:22-24 | the key of a request; see `KeysCollideExactly` and `SameKeySharesEntry` |
| ResponseCache.Rebuilt | src/sa_api/views.py:34-42 | specification of `respond_from_cache`; stated by `RespondFromCache` and `HeadersSetInOrder` |
| ResponseCache.CachePrefix | src/sa_api/views.py:12-14 | a declared prefix wins; otherwise the prefix is the class name lower-cased, character by character |
| ResponseCache.UndeclaredPrefixesShareKeys | src/sa_api/views.py:12-14 | two views without a declared prefix share their prefix, and every key, exactly when their class names agree up to case |
| ResponseCache.CacheKey | src/sa_api/views.py:22-24 | the key starts with the prefix and its length is the sum of the three parts (plain concatenation) |
| ResponseCache.Cache.Set | src/sa_api/views.py:49 | the store is the old store with the key set to the value |
| ResponseCache.SetHeader | src/sa_api/views.py:40 | after `response[name] = value`, that name (ignoring case) reads the value and every other name reads as before |
| ResponseCache.HeadersSetInOrder | src/sa_api/views.py:39-40 | setting the stored headers in order leaves each name with its last stored value; unset names keep their initial value |
| ResponseCache.LookupFindsOnly | src/sa_api/views.py:39-40 | a header name that occurs once is found with its value, both first and last |
| ResponseCache.LookupFindsNone | src/sa_api/views.py:39-40 | a name that does not occur is not found |
| ResponseCache.LastSetIsLookup | src/sa_api/views.py:39-40 | with distinct names, the last value set equals the first value found |
| ResponseCache.RespondFromCache | src/sa_api/views.py:34-42 | the built response is the stored content and status, with the stored headers set one by one on the initial headers |
| ResponseCache.CacheResponse | src/sa_api/views.py:44-54 | the new store and the failure flag are those of `CacheResponseEffect`: the triple first, then the key set read, extended and written; a triple in the key-set slot makes `add` raise |
| ResponseCache.CacheResponseBookkeeping | src/sa_api/views.py:44-54 | without collision, the key holds the triple, the key set is the old one plus the key, and every other slot is unchanged |
| ResponseCache.Dispatch | src/sa_api/views.py:16-32 | the result, whether the wrapped dispatch ran, and the new store are those of `DispatchEffect` |
| ResponseCache.NonGetBypassesCache | src/sa_api/views.py:18-19 | a method other than `get` (lower-cased) runs the wrapped dispatch and leaves the store unchanged |
| ResponseCache.MissingMetaRaises | src/sa_api/views.py:22-24 | a GET without `QUERY_STRING` or `HTTP_ACCEPT` in META raises before the store is touched |
| ResponseCache.HitServesStoredResponse | src/sa_api/views.py:25-28 | a hit returns the stored content and status without running the wrapped dispatch, and the store is unchanged |
| ResponseCache.MissComputesAndStores | src/sa_api/views.py:29-32 | a miss returns the wrapped response, stores its triple under the key and the key in the key set, and changes nothing else |
| ResponseCache.MissThenHit | src/sa_api/views.py:16-54 | repeating a missed request is a hit that serves the first response's content, status and header values |
| ResponseCache.SameKeySharesEntry | src/sa_api/views.py:19-32 | two GET requests with one key share an entry whatever their routes: after the first misses under its route's dispatch, the second is served that response without running its own |
| ResponseCache.KeysCollideExactly | src/sa_api/views.py:22-24 | two keys of one view are equal exactly when query string plus Accept header concatenate alike |
| ResponseCache.KeyAliasing | src/sa_api/views.py:22-24 | `a=1` with `json` and `a=1j` with `son` give the same key |
| ResponseCache.AliasedRequestsShareEntry | src/sa_api/views.py:22-28 | after the first of those is cached, the second is served it without running the wrapped dispatch |
| ResponseCache.KeysQueryCorruptsIndex | src/sa_api/views.py:22-24 | a GET with query `_keys` and an empty Accept header has the key-set key; on a miss it overwrites the key set and raises |
| ResponseCache.IndexKeyHitRaises | src/sa_api/views.py:22-36 | a GET whose key is the key-set key, while the key set is non-empty, is a hit on a set: unpacking raises, nothing is computed and the store is unchanged |
| ResponseCache.CorruptIndexFailsEveryMiss | src/sa_api/views.py:52-53 | once the key-set slot holds a triple, every later miss raises |
| ResponseCache.DeclaredPrefixesSeparateViews | src/sa_api/views.py:100-220 | the prefixes `dataset_collection`, `place_collection` and `activity`, declared at lines 100, 125 and 220, would keep those views' keys apart once the views derive from the mixin: they differ in their first letter |
| AbsoluteUrls.Absolutized | src/sa_api/views.py:65-81 | specification of `process_urls`; stated by `ProcessUrls`, `ShapeKept`, `UrlRewritten`, `OtherKeysWalked` and `AbsolutizedIdempotent` |
| AbsoluteUrls.AbsItems | src/sa_api/views.py:70-72 | the list keeps its length and each item is walked |
| AbsoluteUrls.AbsFields | src/sa_api/views.py:74-79 | the dict keeps its length and each entry is walked |
| AbsoluteUrls.ProcessUrls | src/sa_api/views.py:65-81 | the loops over list items and dict entries compute `Absolutized` of the input |
| AbsoluteUrls.AbsItemsAppend | src/sa_api/views.py:71-72 | walking one more item appends its walked value |
| AbsoluteUrls.AbsFieldsAppend | src/sa_api/views.py:78-79 | walking one more entry appends its walked entry |
| AbsoluteUrls.ShapeKept | src/sa_api/views.py:70-81 | lists stay lists of the same length, dicts keep their keys in order, and scalars come back unchanged |
| AbsoluteUrls.UrlRewritten | src/sa_api/views.py:75-76 | a non-None `url` becomes the absolute URI built from it; a None or missing `url` stays as it was |
| AbsoluteUrls.OtherKeysWalked | src/sa_api/views.py:78-79 | every other key keeps its place and holds its walked value |
| AbsoluteUrls.AbsolutizedIdempotent | src/sa_api/views.py:65-81 | when absolutizing an absolute URI gives it back, walking twice equals walking once |
| AbsoluteUrls.AbsItemsIdempotent | src/sa_api/views.py:70-72 | the same for a list |
| AbsoluteUrls.AbsFieldsIdempotent | src/sa_api/views.py:74-79 | the same for a dict |
| ActivityFeed.GetQueryset | src/sa_api/views.py:222-244 | specification of `get_queryset`; stated by `FilteredFacts`, `QuerysetOrdered`, `QuerysetWithinBounds`, `QuerysetComplete`, `ZeroBoundsIgnored`, `LimitKeepsMostRecent` and `NegativeLimitRaises` |
| ActivityFeed.OrderByIdDesc | src/sa_api/views.py:233 | `order_by('-id')`; stated by `OrderByIdDescSorts` |
| ActivityFeed.KeepAbove | src/sa_api/views.py:235-236 | `filter(id__gt=a)`; stated by `KeepAboveFilters` |
| ActivityFeed.KeepAtMost | src/sa_api/views.py:238-239 | `filter(id__lte=b)`; stated by `KeepAtMostFilters` |
| ActivityFeed.Take | src/sa_api/views.py:241-242 | the `[:limit]` slice; stated by `LimitKeepsMostRecent` |
| ActivityFeed.ConsOrdered | src/sa_api/views.py:233 | putting an id above all others in front keeps the order (strictly, for strictly above) |
| ActivityFeed.HeadBounds | src/sa_api/views.py:233 | the head of a descending sequence bounds the rest, which stays descending |
| ActivityFeed.InsertDescPermutes | src/sa_api/views.py:233 | inserting adds exactly that id (multiset and membership) |
| ActivityFeed.InsertDescSorts | src/sa_api/views.py:233 | inserting into a descending sequence keeps it descending, strictly for a new id |
| ActivityFeed.OrderByIdDescSorts | src/sa_api/views.py:233 | `order_by('-id')` is a permutation of the ids, descending, and strictly so for distinct ids |
| ActivityFeed.KeepAboveFilters | src/sa_api/views.py:235-236 | `filter(id__gt=a)` keeps exactly the ids above `a`, and their order |
| ActivityFeed.KeepAtMostFilters | src/sa_api/views.py:238-239 | `filter(id__lte=b)` keeps exactly the ids up to `b`, and their order |
| ActivityFeed.FilteredFacts | src/sa_api/views.py:233-239 | the unlimited queryset is descending (strictly for distinct ids) and holds exactly the ids within the bounds |
| ActivityFeed.QuerysetOrdered | src/sa_api/views.py:233-244 | every result is most recent first, strictly so for distinct ids |
| ActivityFeed.QuerysetWithinBounds | src/sa_api/views.py:235-244 | every returned id is an activity id within the bounds that are set |
| ActivityFeed.QuerysetComplete | src/sa_api/views.py:235-239 | without a limit, every activity id within the bounds is returned |
| ActivityFeed.ZeroBoundsIgnored | src/sa_api/views.py:235-239 | a bound of 0 acts as no bound, as `if earliest_id:` and `if latest_id:` do |
| ActivityFeed.LimitKeepsMostRecent | src/sa_api/views.py:241-242 | a limit `n` returns the first `n` of the unlimited result; every dropped id is below every kept one |
| ActivityFeed.NegativeLimitRaises | src/sa_api/views.py:241-242 | a negative limit is an error, as Django refuses negative slicing |
| ActivityFeed.SortedFive | src/sa_api/views.py:233 | worked example: `[3,1,5,2,4]` orders as `[5,4,3,2,1]` |
| ActivityFeed.SortedAscendingFive | src/sa_api/views.py:233 | worked example: `[1,2,3,4,5]` orders as `[5,4,3,2,1]` |
| ActivityFeed.FeedExamples | src/sa_api/views.py:229-244 | worked cases: before 4 and after 2 give `[4,3]`; limit 2 gives `[5,4]`; after 5 gives `[]`; no parameters give all ids |
| ActivityFeed.LimitedPollingSkips | src/sa_api/views.py:235-242 | after 2 with limit 1 returns `[5]`, skipping 3 and 4; after 5 with limit 1 returns `[]` |
| PagesConfig.InitPages | src/sa_web/views.py:36-73 | specification of `init_pages_config`; stated by `InitPagesConfig`, `InitPagesNormalizes` and the page lemmas below |
| PagesConfig.InitPage | src/sa_web/views.py:41-71 | specification of one pass of the loop body; stated by `RewritePage`, `InitPageNormalizes` and `InitPageFromOwn` |
| PagesConfig.OwnRewrite | src/sa_web/views.py:42-67 | specification of the loop body up to the sub-pages; stated by `RewriteOwn`, `OwnRewriteNormalizes`, `ExternalPageNotFetched`, `FetchedPageGetsContent`, `FailedPageGetsError` and `PageWithoutUrlNotFetched` |
| PagesConfig.RewriteOwn | src/sa_web/views.py:42-67 | the loop body up to the sub-pages computes `OwnRewrite`: pop `url` and `pages`, empty `sub_pages`, then either restore `url` for an external page or fetch and record content or error |
| PagesConfig.InitPagesConfig | src/sa_web/views.py:36-73 | the loop over the pages, recursing into sub-pages, computes `InitPages` (result, URIs fetched in order, or the iteration error) |
| PagesConfig.RewritePage | src/sa_web/views.py:41-71 | one pass of the loop body computes `InitPage` |
| PagesConfig.InitPageListStep | src/sa_web/views.py:41-71 | the walk over one more page is the walk so far followed by that page's rewrite |
| PagesConfig.InitPageListStopsAtError | src/sa_web/views.py:41 | an error on a prefix of the pages is the error of the whole walk |
| PagesConfig.InitPagesNormalizes | src/sa_web/views.py:36-73 | every page at any depth ends with a `sub_pages` list and no `pages`; a truthy list stays a list; a non-list is returned as is |
| PagesConfig.InitPageListNormalizes | src/sa_web/views.py:41-71 | every page of a rewritten list is normalized |
| PagesConfig.OwnRewriteNormalizes | src/sa_web/views.py:44-46 | a page's own rewrite drops `pages` and sets `sub_pages` to an empty list |
| PagesConfig.InitPageNormalizes | src/sa_web/views.py:41-71 | a rewritten page is normalized at every depth |
| PagesConfig.InitPageFromOwn | src/sa_web/views.py:41-71 | a rewritten page is its own rewrite with `sub_pages` filled in, and its own fetch comes before its sub-pages' fetches |
| PagesConfig.ExternalPageNotFetched | src/sa_web/views.py:42-50 | an external page gets `external = True` and its url back (None when it had none), and nothing is fetched |
| PagesConfig.FetchedPageGetsContent | src/sa_web/views.py:52-60 | a fetch with status 200 of the absolute URI gives `content` = its text, with no `url` |
| PagesConfig.FailedPageGetsError | src/sa_web/views.py:52-67 | a failed fetch gives the absolute `url`, the `status` and the `error` text |
| PagesConfig.PageWithoutUrlNotFetched | src/sa_web/views.py:44-52 | a non-external page without url is not fetched, and any `content`, `status` or `error` it had is kept |
| PagesConfig.OtherKeysKept | src/sa_web/views.py:41-71 | keys the walk does not touch keep their values |
| WebViews.MakeResourceUri | src/sa_web/views.py:16-21 | `make_resource_uri`; stated by `ResourceUriShape`, `ResourceUriPartsUnpadded`, `SlashesIgnored` and `RootSlashesIgnored` |
| WebViews.ResourceUriShape | src/sa_web/views.py:16-21 | the URI starts with the root without trailing slashes followed by `/datasets/`, and ends with a slash |
| WebViews.ResourceUriPartsUnpadded | src/sa_web/views.py:17-18 | the dataset and resource parts have no leading or trailing slash |
| WebViews.SlashesIgnored | src/sa_web/views.py:17-18 | leading and trailing slashes on the dataset and the resource do not change the URI |
| WebViews.RootSlashesIgnored | src/sa_web/views.py:19 | trailing slashes on the root do not change the URI |
| WebViews.ResourceUriPaddedExample | src/sa_web/views.py:16-21 | `("/a/", "/b/", root + "/")` gives the same URI as `("a", "b", root)` |
| WebViews.ValidatedPlaceType | src/sa_web/views.py:96-101 | the result is the requested type unchanged or the empty string |
| WebViews.PlaceTypeAccepted | src/sa_web/views.py:96-101 | the requested type is kept exactly when some configured type equals it ignoring case; otherwise the result is empty |
| WebViews.PlaceTypeCaseInsensitive | src/sa_web/views.py:96-98 | two requests equal ignoring case are both accepted or both rejected |
| WebViews.PlaceTypeExample | src/sa_web/views.py:96-101 | `Park` is accepted when `park` is configured; `pool` is rejected |
| ClientModels.SubmissionUrl | src/sa_web/static/sa/js/models.js:9-18 | `SubmissionCollection.url`, the thrown Error as `Err`; stated by `SubmissionUrlThrowsForUnsavedPlace` and `SubmissionUrlSegments` |
| ClientModels.SubmissionUrlThrowsForUnsavedPlace | src/sa_web/static/sa/js/models.js:9-18 | the URL is built exactly when the place id is truthy; it lies under `/api/places/` and ends with `/`; the thrown message ends with the submission type and a period |
| ClientModels.SubmissionUrlSegments | src/sa_web/static/sa/js/models.js:17 | for a saved numeric id and a slash-free type the URL is `/api/places/<id>/<type>/`, whose segments are `api`, `places`, the decimal id and the type |
| ClientModels.SubmissionPathJoin | src/sa_web/static/sa/js/models.js:17 | joining those segments with `/` gives the URL |
| ClientModels.Options.constructor | src/sa_web/static/sa/js/models.js:46 | a new options object holds the given properties |
| ClientModels.PlaceCollection.constructor | src/sa_web/static/sa/js/models.js:39-41 | the collection keeps the options it is initialized with |
| ClientModels.PlaceCollection.Add | src/sa_web/static/sa/js/models.js:43-50 | the given options (or a fresh object) get the collection's `responseType` and `supportType` and nothing else changes; without collection options the read throws |
| Csrf.CookieValue | src/sa_web/static/sa/js/models.js:80-94 | specification of `getCookie`; stated by `GetCookie`, `CookieAbsent`, `CookieAfterOther` and `TokenAfterOtherCookie` |
| Csrf.FirstCookie | src/sa_web/static/sa/js/models.js:84-91 | the loop over the pieces with its `break`; stated by `FirstCookieFound` and `FirstCookieMissing` |
| Csrf.SameOrigin | src/sa_web/static/sa/js/models.js:95-106 | `sameOrigin`; stated by `OwnOriginAccepted`, `OtherHostRejected` and `OriginPrefixSameHost` |
| Csrf.SafeMethod | src/sa_web/static/sa/js/models.js:107-109 | `safeMethod`; stated by `SafeMethodExamples` |
| Csrf.CsrfHeader | src/sa_web/static/sa/js/models.js:111-113 | the header the handler adds; stated by `OnAjaxSend`, `CsrfHeaderRule`, `NullTokenWithoutCookies` and `TokenNotSentAcrossOrigins` |
| Csrf.GetCookie | src/sa_web/static/sa/js/models.js:80-94 | the loop that stops at the first match computes `CookieValue` |
| Csrf.FirstCookieFound | src/sa_web/static/sa/js/models.js:84-90 | the first trimmed piece that starts with `name=` gives the decoded rest of that piece |
| Csrf.FirstCookieMissing | src/sa_web/static/sa/js/models.js:84-93 | no value is found exactly when no trimmed piece starts with `name=` |
| Csrf.CookieAbsent | src/sa_web/static/sa/js/models.js:81-93 | `getCookie` gives null exactly for an empty cookie string or when no piece carries the name |
| Csrf.NamedPieceTrimmed | src/sa_web/static/sa/js/models.js:85-88 | the piece ` name=value` trims to `name=value`, which names the cookie and whose rest is the value |
| Csrf.CookieAfterOther | src/sa_web/static/sa/js/models.js:80-94 | in `other; name=value`, with a first cookie of another name, the decoded value is found |
| Csrf.TokenAfterOtherCookie | src/sa_web/static/sa/js/models.js:80-94 | in `other; csrftoken=token` the token is found |
| Csrf.SafeMethodExamples | src/sa_web/static/sa/js/models.js:107-109 | `GET` and `TRACE` are safe; `get`, `POST`, `GETS` and the empty string are not |
| Csrf.LowerCaseMethodsUnsafe | src/sa_web/static/sa/js/models.js:107-109 | no lower-cased method name is safe, since the test is case-sensitive and accepts upper-case names only |
| Csrf.SlashFreeHeads | src/sa_web/static/sa/js/models.js:102-103 | two slash-free hosts each followed by `/` line up only when equal |
| Csrf.PrefixCancel | src/sa_web/static/sa/js/models.js:102 | a common prefix cancels from a prefix relation |
| Csrf.OriginPrefixSameHost | src/sa_web/static/sa/js/models.js:102 | an http(s) URL starting with the origin and `/` is on the page's host |
| Csrf.OriginNeverHasPath | src/sa_web/static/sa/js/models.js:102 | an http(s) URL with a path equals the origin only if the host holds a slash |
| Csrf.OtherHostRejected | src/sa_web/static/sa/js/models.js:95-106 | an absolute http(s) URL on another slash-free host is not same-origin, even when that host extends the page's host |
| Csrf.OwnOriginAccepted | src/sa_web/static/sa/js/models.js:95-106 | the origin, URLs under it, scheme-relative URLs under the host, and relative URLs are same-origin |
| Csrf.OnAjaxSend | src/sa_web/static/sa/js/models.js:111-113 | the handler adds the header computed by `CsrfHeader` |
| Csrf.CsrfHeaderRule | src/sa_web/static/sa/js/models.js:111-113 | the header is sent exactly for unsafe methods to the same origin; it holds the token when the cookie exists, and the text `"null"` when the cookie string is empty or no piece carries `csrftoken`, as `setRequestHeader` renders the null from `getCookie` |
| Csrf.NullTokenWithoutCookies | src/sa_web/static/sa/js/models.js:80-113 | a POST to the page's own origin from a page without cookies sends the header text `"null"` |
| Csrf.TokenNotSentAcrossOrigins | src/sa_web/static/sa/js/models.js:111-113 | a POST to another https host never carries the token |
| ApiRoutes.Table | src/sa_api/urls.py:4-47 | the ten patterns in order, each with its view and name; stated by `TableShape` and `TableClashes` |
| ApiRoutes.Resolve | src/sa_api/urls.py:4-47 | the first pattern that matches; stated by `ResolveNone`, `ResolveMatches`, `TableDisjoint` and `CapturesAreSegments` |
| ApiRoutes.SegmentsOfPath | src/sa_api/urls.py:4-47 | a path ending in `/` is the path of its segments, which are slash-free and at least one |
| ApiRoutes.UrlPathSegments | src/sa_api/urls.py:4-47 | the path of slash-free segments splits back into them |
| ApiRoutes.MatchPartsFacts | src/sa_api/urls.py:4-47 | a pattern matches exactly when every segment matches its part; every capture is bound to one segment of its name |
| ApiRoutes.LitClashExcludes | src/sa_api/urls.py:4-47 | patterns with different literals at one position never both match |
| ApiRoutes.ClashExcludes | src/sa_api/urls.py:4-47 | patterns of different lengths, or with a literal clash, never both match |
| ApiRoutes.RowClashesAll | src/sa_api/urls.py:4-47 | the row check gives a clash with every later entry |
| ApiRoutes.ClashesFromAll | src/sa_api/urls.py:4-47 | the table check gives a clash between every two entries |
| ApiRoutes.TableClashes | src/sa_api/urls.py:4-47 | any two entries differ in length or in a literal segment |
| ApiRoutes.TableDisjoint | src/sa_api/urls.py:4-47 | no path matches two entries, so the order of the table does not matter |
| ApiRoutes.FirstMatchOnly | src/sa_api/urls.py:4-47 | an entry that is the only match is the one chosen |
| ApiRoutes.FirstMatchNone | src/sa_api/urls.py:4-47 | nothing resolves exactly when no entry matches; otherwise one matching entry gives view, name and kwargs |
| ApiRoutes.ResolveMatches | src/sa_api/urls.py:4-47 | a path that an entry matches resolves to that entry's view, name and captured kwargs |
| ApiRoutes.ResolveNone | src/sa_api/urls.py:4-47 | a path resolves exactly when some entry matches it, and then to what one entry captured |
| ApiRoutes.ShapedFromAll | src/sa_api/urls.py:4-47 | the shape check holds for each later entry |
| ApiRoutes.TableShape | src/sa_api/urls.py:4-47 | every entry has one to four segments, starts with a literal, and captures `pk` and `place_id` only as digits |
| ApiRoutes.NoNumericWordsAt | src/sa_api/urls.py:21-40 | no `[^/]+` capture is named `pk` or `place_id` |
| ApiRoutes.CapturesAreSegments | src/sa_api/urls.py:4-47 | every captured value is one whole non-empty slash-free segment; `pk` and `place_id` are decimal digits |
| ApiRoutes.CapturesOfShapedEntry | src/sa_api/urls.py:4-47 | a pattern of the table's shape captures only whole non-empty slash-free segments, with digits for `pk` and `place_id` |
| ApiRoutes.PlacesByDatasetCaptures | src/sa_api/urls.py:9 | the places-by-dataset pattern captures owner and dataset short name |
| ApiRoutes.ActivityByDatasetCaptures | src/sa_api/urls.py:13 | the activity-by-dataset pattern captures owner and dataset short name under `data__dataset__` |
| ApiRoutes.DataSetByUserCaptures | src/sa_api/urls.py:17 | the dataset-by-user pattern captures `owner__username` and `short_name` |
| ApiRoutes.KeyCaptures | src/sa_api/urls.py:21 | a `literal/\d+/` pattern captures `pk` |
| ApiRoutes.SubmissionCollectionCaptures | src/sa_api/urls.py:35-36 | the submission collection pattern captures `place_id` and `submission_type` |
| ApiRoutes.SubmissionInstanceCaptures | src/sa_api/urls.py:39-40 | the submission instance pattern also captures `pk` |
| ApiRoutes.SingleLiteralResolves | src/sa_api/urls.py:5 | a one-literal path resolves to its one-literal entry with no kwargs |
| ApiRoutes.DataSetCollectionRoute | src/sa_api/urls.py:5-7 | `datasets/` resolves to the dataset collection |
| ApiRoutes.PlaceCollectionRoutes | src/sa_api/urls.py:9-11 | the place collection is reached under a dataset, with its filters, and at `places/` |
| ApiRoutes.ActivityRoutes | src/sa_api/urls.py:13-15 | the activity view is reached under a dataset, with its filters, and at `activity/` |
| ApiRoutes.DigitsSlashFree | src/sa_api/urls.py:21 | a `\d+` capture holds no slash |
| ApiRoutes.DataSetInstanceRoutes | src/sa_api/urls.py:17-23 | the dataset instance is reached by owner and short name or by numeric key, with different kwargs |
| ApiRoutes.PlaceAndSubmissionRoutes | src/sa_api/urls.py:31-42 | a place, its submissions of a type, and one submission resolve with their kwargs |
| ApiRoutes.DatasetScopedSubmissionUnrouted | src/sa_api/urls.py:4-47 | a six-segment submission path under a dataset resolves to nothing |
| ApiRoutes.FirstMatchSameBody | src/sa_api/urls.py:4-47 | paths with the same segments resolve alike |
| ApiRoutes.TrailingNewline | src/sa_api/urls.py:5 | one trailing newline resolves like none, as `$` allows; two make the path unresolvable |
| Text.StripLeftFacts | src/sa_web/views.py:17-18 | `lstrip` leaves a suffix that does not start with a stripped character, and every character it removed is one |
| Text.StripRightFacts | src/sa_web/views.py:19 | `rstrip` leaves a prefix that does not end with a stripped character, and every character it removed is one |
| Text.StripFacts | src/sa_web/views.py:17-18 | `strip` leaves a string that neither starts nor ends with a stripped character |
| Text.StripIgnoresPadding | src/sa_web/views.py:17-18 | padding on either side with stripped characters does not change the result of `strip` |
| Text.StripUnpadded | src/sa_web/views.py:17-18 | `strip` leaves a string alone that neither starts nor ends with a stripped character |
| Text.Split | src/sa_web/static/sa/js/models.js:83 | the parts are at least one, hold no separator, and join back to the input |
| Text.SplitJoin | src/sa_web/static/sa/js/models.js:83 | splitting a join of separator-free parts gives the parts back |
| Text.NatToDecimal | src/sa_web/static/sa/js/models.js:17 | the decimal text of a number is digits without a leading zero |
| Text.DecimalRoundTrip | src/sa_web/static/sa/js/models.js:17 | reading the decimal text back gives the number |
| JsonValue.Get | src/sa_api/views.py:75 | a key is found exactly when some field has it |
| JsonValue.Put | src/sa_web/views.py:46 | after the put the key reads the new value and every other key reads as before |
| JsonValue.Remove | src/sa_web/views.py:44-45 | after the pop the key is gone and every other key reads as before |

## Left out

- The Django cache backend's expiry, eviction and concurrent access are not modelled. The store is one map, written in program order.
- Cache invalidation on writes is not modelled. The core has none.
- `ResponseCache.Dispatch` is not wired to any view: the source mixes the cache into no view, so the model states the mixin's behaviour for a view that would derive from it.
- DRF resources, forms, the ORM, authentication and `super().dispatch` are not modelled. The wrapped dispatch is a function parameter.
- `ProcessUrls` works on values. The in-place update of the source, and aliasing between shared dicts or lists, are not captured.
- `InitPagesConfig` works on values. In-place mutation, and a partly mutated config left behind when an error is raised, are not captured. The error itself is modelled.
- YAML loading, `requests`, `ShareaboutsApi.get`, `proxy_view`, `now()`, the session token (md5 of time and IP) and user-agent parsing are I/O or foreign code. They are not part of this model.
- The rest of `index` (template context, JSON dumps of the configuration) is not modelled. It only assembles values.
- `Text.Lower` lower-cases ASCII letters only. Python's Unicode `lower()` is not modelled.
- `ApiRoutes.PartMatches`: `\d` matches ASCII digits only. Django compiles patterns with `re.UNICODE`, where `\d` also accepts other Unicode decimal digits.
- `ActivityFeed.GetQueryset`: ids and the `before`, `after` and `limit` parameters are integers. Their parsing from the query string is not modelled.
- `ClientModels.JsString`: numbers are integers. JavaScript floating-point formatting is not modelled.
- Backbone's own `add`, `PlaceModel.initialize` and the creation of `SubmissionCollection` objects are library wiring. They are not modelled; `Add` returns the options it passes on.
- `Csrf.GetCookie`: `decodeURIComponent` throwing on malformed input is not modelled. `decode` is a total function.
- `jQuery(document).ajaxSend` registration and `xhr` objects are not modelled. `OnAjaxSend` returns the header it would set.
- `scripts/import_stations.py` and `lib/rails_admin/actions/filter.rb` are not part of this model.
