# juis-router in Dafny

A model of the core of juis-router, a client-side router for single-page
applications. The router keeps a list of routes. Each route is a URL
pattern together with a way to get a component: a static instance, a
constructor, or a module the router loads lazily. It listens for NAVIGATE
events. For each one it finds the first route whose pattern matches the
part of the URL not yet consumed by the routers above it. It then
resolves that route's component, through the per-route cache of
components keyed by consumed URL, and swaps it into the page once the
component is ready. Overlapping navigations are arbitrated by a token:
only a resolution whose route is still the router's current route is
applied. The token is the route, not the navigation, so an older
navigation to the same route is applied as well.

The project has six files:

- `navigation_utils.dfy` (module `NavigationUtils`) holds the URL helpers
  of `NavigationUtils.js`. These are matching, consuming, concatenation,
  URL equality and parameter extraction. `getUrlParameters` is the
  method `GetUrlParameters`, whose loop is proved against the declarative
  `UrlParameters`.
- `navigation_utils_lemmas.dfy` (module `NavigationUtilsLemmas`) holds
  the properties of those helpers.
- `router_model.dfy` (module `RouterModel`) is the router's closure state
  as a `RouterState` value. Every handler and every asynchronous
  continuation of `Router.js` is a step function. The continuations are
  the settling of a module load, the settling of the component promise,
  the component's readiness and the deferred fallback request. Every step
  keeps the state invariant `ValidState`. Effects on the outside world go
  to the state's `log`: events sent, history updates and view swaps.
- `router.dfy` (module `Router`) has the class `Router`, whose fields are
  the closure variables of `Router.js`. Each method changes them in place
  and promises that the new state is the step function's result.
- `router_lemmas.dfy` (module `RouterLemmas`) holds the properties that
  relate several steps: the race token, the swap save/restore protocol,
  registration order, caching and the NAVIGATE handler's cases.
- `router_scenarios.dfy` (module `RouterScenarios`) is a client of the
  class. It drives two overlapping navigations whose asynchronous steps
  complete in a chosen order.

Asynchronous work is modelled as explicit pending entries. Each
navigation gets a ticket: `pending[t]` goes from `ModuleLoading` to
`Settled` to `ReadyWait`. The environment completes these entries in any
order, so every interleaving of promise callbacks is a sequence of step
calls.

Components are numbers. `destroyed[c]` is component `c`'s destroyed flag,
and 0, 1 and 2 are the loading, not-found and error pages. Routes are
numbered in registration order. A RegExp pattern is given by its matcher
function `exec`.

The JavaScript values the router inspects have their own datatype,
`Value`, with JavaScript truthiness. The values are route parameters,
captured groups and `urlParameterNames`.

Some behaviours of the code are easy to overlook, and the model keeps them:

- `concatenateUrls` strips a trailing `/` from a kept segment whenever its
  index among the kept segments differs from the number of arguments minus
  one. Once a falsy argument has been dropped, the last kept segment loses
  its trailing `/` too
  (`NavigationUtilsLemmas.ConcatenateDroppedArgumentStripsTrailingSlash`,
  `NavigationUtilsLemmas.ConcatenateOneSlashBetween`). Behind the empty
  base URL of a top-level router, the matched segment itself loses its
  trailing `/` (`NavigationUtilsLemmas.ConcatenateAfterEmptyBase`).
- `navigate` compares the consumed URL with `currentUrl` before it looks
  at `alwaysReload`. Navigating again to the URL already shown only
  re-sends NAVIGATE, even when the current route has `alwaysReload`
  (`RouterLemmas.SameUrlNavigationOnlyNotifies` has no `alwaysReload`
  condition).
- The `whenReady` callback does not compare the route with `currentRoute`.
  A component whose resolution was applied is shown when it becomes
  ready, even after a newer navigation
  (`RouterLemmas.StaleReadinessStillShows`).
- The `catch` of the component promise shows the error page whatever the
  current route.
- A kept segment that is just `/` and is not at the last argument's index
  loses that `/` and vanishes. A top-level router whose route consumes
  `/` therefore ends with `""` as its consumed URL
  (`NavigationUtilsLemmas.ConcatenateLoneSlashVanishes`).
- The race token is the route, not the navigation. An older navigation to
  the same route at another URL (a RegExp route, "/users/1" then
  "/users/2") is still applied
  (`RouterLemmas.SameRouteResolutionApplied`). Together with readiness
  skipping the token, the component that becomes ready last is shown,
  not the one whose navigation started last.
- The NAVIGATE handler's not-found branch clears `currentRoute` but leaves
  `currentUrl` as it was
  (`RouterLemmas.ReturningAfterNotFoundKeepsNotFoundPage`).

## Model

| member | source | states |
|---|---|---|
| NavigationUtils.Prefix | NavigationUtils.js:61 | `substring(0, n)`: length is n capped at the string's length, and the result is a prefix of the string |
| NavigationUtils.Suffix | Router.js:175 | `substring(n)`: prefix plus result is the string, and the result is empty once n passes the end |
| NavigationUtils.WithLeadingSlash | NavigationUtils.js:10-15 | the result starts with `/`, and is the input when it already did, else `/` + input |
| NavigationUtils.ToggleLeadingSlash | NavigationUtils.js:3-8 | removes a present leading `/` and adds a missing one |
| NavigationUtils.MatchUrl | NavigationUtils.js:38-46 | succeeds exactly when `isMatchingUrl` holds for the RegExp; the URL's own match wins, and otherwise the slash-toggled URL's match is used |
| NavigationUtils.ConsumeUrl | NavigationUtils.js:48-63 | the result is a prefix of the URL; it fails exactly for a RegExp that matches neither variant; a falsy pattern consumes `""`; a string pattern consumes min(URL length, pattern-with-slash length) characters |
| NavigationUtils.KeptSegments | NavigationUtils.js:67 | every kept segment is non-empty and is one of the arguments' values; none is dropped exactly when all arguments are truthy, and none is kept exactly when none is truthy |
| NavigationUtils.Trimmed | NavigationUtils.js:69-77 | one piece per kept segment: the segment at kept index i trimmed by `TrimSegment` with index i and the ORIGINAL argument count; what the pieces join to is stated by `NavigationUtilsLemmas.TrimmedKept` and `NavigationUtilsLemmas.ConcatenateOneSlashBetween` |
| NavigationUtils.TrimSegment | NavigationUtils.js:69-77 | at most one character goes from each end; the first kept segment keeps its start; the segment of a call with one argument is unchanged; off the last argument's index no trailing `/` survives, unless the segment is `/` or ended in two of them |
| NavigationUtils.Join | NavigationUtils.js:78 | `join`: empty for no pieces, the piece itself for one, and otherwise it begins with the first piece |
| NavigationUtils.ConcatenateUrls | NavigationUtils.js:65-79 | an argument list with no truthy argument gives `""`; the converse does not hold (`NavigationUtilsLemmas.ConcatenateLoneSlashVanishes`) |
| NavigationUtils.IsMatchingUrl | NavigationUtils.js:1-18 | an absent pattern matches nothing, and the empty string pattern and `/` match every URL |
| NavigationUtils.IsSameUrl | NavigationUtils.js:81-98 | only two strings can be the same URL, and a string is always the same URL as itself |
| NavigationUtils.SlashNormalised | NavigationUtils.js:85-96 | the normal form starts and ends with `/` |
| NavigationUtils.Captures | NavigationUtils.js:22-27 | a string pattern captures nothing |
| NavigationUtils.PropertyKey | NavigationUtils.js:30 | `String(name)`: a string is its own key, a number's key is a non-empty run of decimal digits, after a `-` exactly when the number is negative, and an empty array's key is empty |
| NavigationUtils.BoundNames | NavigationUtils.js:29-30 | the `forEach` result has the static keys and the names as keys, and a static key that is not a name keeps its value |
| NavigationUtils.UrlParameters | NavigationUtils.js:20-36 | with names declared `urlParameterNames` is gone, without them `urlParameters` is the capture array, and every other static key stays |
| NavigationUtils.BoundNamesStep | NavigationUtils.js:29-30 | one more `forEach` step sets the next name to the capture at its index, over what the earlier steps bound |
| NavigationUtils.IndexedCaptures | NavigationUtils.js:34 | the spread `{...urlParams}` has exactly the keys "0" … "n-1" |
| NavigationUtils.GetUrlParameters | NavigationUtils.js:20-36 | the loop computes exactly `UrlParameters`: named captures bound one by one and `urlParameterNames` deleted, or the spread form |
| NavigationUtilsLemmas.LiteralMatchIsPrefixMatch | NavigationUtils.js:9-16 | a string pattern matches exactly when the slash-prefixed URL extends the slash-prefixed pattern |
| NavigationUtilsLemmas.LiteralMatchExtends | NavigationUtils.js:16 | the match is a prefix match: anything appended to a matching URL still matches |
| NavigationUtilsLemmas.MatchIgnoresUrlSlash | NavigationUtils.js:1-18 | adding a missing leading `/` to the URL never changes the answer, for RegExp and string patterns alike |
| NavigationUtilsLemmas.MatchIgnoresPatternSlash | NavigationUtils.js:10-12 | adding a missing leading `/` to a string pattern never changes the answer |
| NavigationUtilsLemmas.MatchExamples | NavigationUtils.js:9-16 | "/users/42" matches "users", "users" matches "/users", and "/user" does not match "users" |
| NavigationUtilsLemmas.MatchingRouteConsumes | NavigationUtils.js:48-63 | a URL a pattern matches can be consumed by it without throwing |
| NavigationUtilsLemmas.ConsumedPlusRemainder | NavigationUtils.js:48-63 | the consumed part plus the remainder the next router sees is the URL |
| NavigationUtilsLemmas.LiteralConsumesItself | NavigationUtils.js:57-62 | on a rooted URL a matching string pattern consumes exactly itself with a leading `/`, which `isSameUrl` equates with the pattern |
| NavigationUtilsLemmas.UnrootedUrlConsumesOneMore | NavigationUtils.js:57-62 | on an unrooted URL a string pattern claims one character more than its text ("users/42" consumes "users/") |
| NavigationUtilsLemmas.RegexConsumesMatchLength | NavigationUtils.js:51-56 | a RegExp consumes as many characters as its full match, capped at the URL |
| NavigationUtilsLemmas.KeptSegmentsAppend | NavigationUtils.js:67 | the kept segments of two argument lists in a row are the first list's followed by the second's, so the truthy values are kept in order |
| NavigationUtilsLemmas.KeptSegmentsSingle | NavigationUtils.js:67 | one argument is kept, as its value, exactly when it is truthy |
| NavigationUtilsLemmas.CoreDressed | NavigationUtils.js:70-75 | a segment whose core is bare is that core between the segment's own leading and trailing `/` |
| NavigationUtilsLemmas.ConcatenateOneSlashBetween | NavigationUtils.js:65-79 | for truthy arguments with bare cores and falsy arguments anywhere among them, the result is the kept cores joined with one `/` between neighbours, after the first kept segment's leading `/`, and with the last one's trailing `/` only when no argument was dropped |
| NavigationUtilsLemmas.TrimmedKept | NavigationUtils.js:69-78 | kept segments with bare cores join, after trimming, to their joined cores between the first one's leading `/` and, when no argument was dropped, the last one's trailing `/` |
| NavigationUtilsLemmas.ConcatenateKept | NavigationUtils.js:65-79 | the concatenation of arguments whose kept segments have bare cores is the trimmed kept segments joined, between the first one's leading `/` and, when none was dropped, the last one's trailing `/` |
| NavigationUtilsLemmas.KeptCoresBare | NavigationUtils.js:67 | when every truthy argument has a bare core, so does every kept segment |
| NavigationUtilsLemmas.KeptBare | NavigationUtils.js:67 | the kept segment at an index is a truthy argument, so its core is bare |
| NavigationUtilsLemmas.TrimKept | NavigationUtils.js:69-77 | the kept segment at index j of m, out of n arguments, keeps its leading `/` only at index 0 and its trailing `/` only at index n-1 |
| NavigationUtilsLemmas.JoinWithEnds | NavigationUtils.js:78 | joining pieces that carry `head` on the first and `tail` on the last gives the joined cores between `head` and `tail` |
| NavigationUtilsLemmas.TrimDressed | NavigationUtils.js:69-77 | a bare core dressed with optional end slashes keeps its leading `/` only at index 0 and its trailing `/` only at the last argument's index |
| NavigationUtilsLemmas.ConcatenateExamples | NavigationUtils.js:65-79 | `("/a/", "/b")` gives "/a/b", and an argument list with no truthy argument gives "" |
| NavigationUtilsLemmas.ConcatenateLoneSlashVanishes | NavigationUtils.js:65-79 | a lone `/` off the last argument's index vanishes: `("/", null)` and `("", "/")` give `""`, while `("/")` gives `"/"` |
| NavigationUtilsLemmas.ConcatenateDroppedArgumentStripsTrailingSlash | NavigationUtils.js:73 | the trailing-slash test counts the original arguments: `("/a/", null)` gives "/a" but `("/a/")` gives "/a/" |
| NavigationUtilsLemmas.ConcatenateAfterEmptyBase | NavigationUtils.js:65-79 | behind an empty base URL a segment is kept as is except for losing a trailing `/` |
| NavigationUtilsLemmas.SameUrlReflexive | NavigationUtils.js:81-98 | every string is the same URL as itself |
| NavigationUtilsLemmas.SameUrlSymmetric | NavigationUtils.js:81-98 | `isSameUrl` is symmetric |
| NavigationUtilsLemmas.SameUrlTransitive | NavigationUtils.js:81-98 | `isSameUrl` is transitive |
| NavigationUtilsLemmas.SameUrlNeedsStrings | NavigationUtils.js:82-84 | a non-string argument is never the same URL as anything |
| NavigationUtilsLemmas.SameUrlIgnoresBoundarySlashes | NavigationUtils.js:85-96 | a leading or trailing `/`, present or not, makes no difference |
| NavigationUtilsLemmas.BareNormalised | NavigationUtils.js:85-96 | a bare core normalises to `/core/` |
| NavigationUtilsLemmas.SameUrlOfBareIsEquality | NavigationUtils.js:81-98 | between URLs without boundary slashes `isSameUrl` is exactly equality |
| NavigationUtilsLemmas.SameUrlExamples | NavigationUtils.js:81-98 | "users" equals "/users/", "users" differs from "/user", and "" equals "/" |
| NavigationUtilsLemmas.IndexedCaptureAt | NavigationUtils.js:34 | the spread puts the capture at position i under the key `String(i)` |
| NavigationUtilsLemmas.NatToStringInjective | NavigationUtils.js:34 | different indices have different keys `String(i)`, so no capture of the spread overwrites another |
| NavigationUtilsLemmas.DigitCharInjective | NavigationUtils.js:34 | different digits are written as different characters |
| NavigationUtilsLemmas.SpreadParameters | NavigationUtils.js:33-34 | without names, capture i is under "i", all captures are the array `urlParameters`, and other static parameters survive |
| NavigationUtilsLemmas.LiteralPatternParameters | NavigationUtils.js:33-34 | a string pattern's parameters are the static ones plus an empty `urlParameters` |
| NavigationUtilsLemmas.BoundNamesMeaning | NavigationUtils.js:29-30 | the `forEach` binds each name to the capture at its last position and keeps every other key |
| NavigationUtilsLemmas.NamedParameters | NavigationUtils.js:28-32 | with names, each name gets its capture (undefined past the end, the last position for a repeated name), other static keys are kept and `urlParameterNames` is gone |
| NavigationUtilsLemmas.LiteralPatternCapturesNothing | NavigationUtils.js:22-27 | with a string pattern every declared name is bound to undefined |
| RouterModel.FindMatchingRoute | Router.js:38-40 | the first route whose pattern matches: it matches, no earlier one does, and None exactly when none matches |
| RouterModel.FirstMatchFrom | Router.js:39 | the first matching route at or after a position, with the same three properties |
| RouterModel.NormaliseConsumedUrl | Router.js:172-174 | blank exactly for a missing, empty or "/" consumed URL, and otherwise the given one |
| RouterModel.StripSourceRoot | Router.js:61-64 | a `/src/` prefix is removed, and other paths are kept |
| RouterModel.ExportName | Router.js:84 | never empty: the route's component name, or "default" when it is empty |
| RouterModel.NavigationParameters | Router.js:133 | the keys are those of the dynamic and URL parameters, and a URL parameter wins over a dynamic one |
| RouterModel.Claims | Router.js:248 | with a base URL the router takes exactly the URLs that start with it; without one it takes a URL only when some route matches it, and takes it then |
| RouterModel.ResolveRequestUrl | Router.js:237-243 | a rooted URL is kept, and a relative one is appended to the pathname with exactly one `/` between |
| RouterModel.Init | Router.js:23-27 | no routes, nothing pending, nothing logged, the loading page shown, and no component destroyed |
| RouterModel.SetViewsBasePath | Router.js:141 | only the base view path changes |
| RouterModel.SetFallbackRoute | Router.js:41-43 | only the fallback URL changes |
| RouterModel.AddComponent | Router.js:150-160 | appends exactly one route with an empty cache; a string view becomes a lazy path under the base path with the given export name ("default" when omitted, and the export read is "default" for an empty one too), a node a static instance, anything else the given constructor; nothing else changes |
| RouterModel.ShowComponent | Router.js:28-36 | the new component is current; showing the current one changes nothing, and otherwise one swap is logged |
| RouterModel.CacheComponent | Router.js:54-56 | an `alwaysReload` route's cache is untouched, and otherwise the component is stored under the consumed URL |
| RouterModel.AddPending | Router.js:108 | the work is stored under a ticket not yet in use, and the next ticket moves on |
| RouterModel.GetComponentForRoute | Router.js:45-81 | in order: a live static instance, then a live cached one for exactly this URL, then a new constructed one (cached unless `alwaysReload`); otherwise the loading page with "Waiting" and a module load without `/src/`, or a rejection when there is no path; always under one new ticket |
| RouterModel.Construct | Router.js:51-57 | a constructed route gets one new live instance, cached under the consumed URL unless `alwaysReload`, and resolves with it under the next ticket; nothing else changes |
| RouterModel.RequestModule | Router.js:58-65 | the loading page is shown with "Waiting" and a module load for the path without `/src/` waits under the next ticket, or a rejection when there is no path; other pending work is kept |
| RouterModel.ReloadCurrent | Router.js:103-106 | an `alwaysReload` current route's component is destroyed and `currentUrl` cleared, and nothing else changes |
| RouterModel.Navigate | Router.js:97-128 | the same URL only re-sends NAVIGATE to the current component; otherwise reload, set the token, then resolve |
| RouterModel.OnNavigate | Router.js:170-199 | keeps the invariant; its three cases are stated by `RouterLemmas.OnNavigateCases` |
| RouterModel.NavigateToMatch | Router.js:192-198 | keeps the invariant; what it calls is stated by `RouterLemmas.NavigateToMatchCalls` |
| RouterModel.RunDeferredFallback | Router.js:181-183 | one replace-history REQUEST_NAVIGATE for the fallback URL as it is when the microtask runs |
| RouterModel.CompleteModuleLoad | Router.js:65-78 | an object export is used as it is and a constructor export is instantiated, each cached unless `alwaysReload`; a failed load or an unusable export resolves with the error page and asks for a version check |
| RouterModel.LoadedComponent | Router.js:65-70 | the loaded component is cached unless `alwaysReload` and the navigation at the ticket resolves with it, its call unchanged |
| RouterModel.CompleteResolution | Router.js:108-127 | a resolution for the current route sends BEFORE_NAVIGATION and NAVIGATE and waits for readiness; a stale one is dropped with nothing else changed; a rejection shows the error page |
| RouterModel.CompleteReady | Router.js:119-123 | the component is shown, `currentUrl` becomes the consumed URL and AFTER_NAVIGATION is logged |
| RouterModel.OnShowNotFound | Router.js:202-206 | remembers the current component and shows the not-found page |
| RouterModel.OnShowError | Router.js:207-216 | a NOT_FOUND error acts as SHOW_NOT_FOUND; any other shows the error page and leaves the remembered component as it was |
| RouterModel.OnShowLoading | Router.js:218-225 | remembers the current component, shows the loading page, and sets its text only for a truthy text |
| RouterModel.OnShowPage | Router.js:227-232 | brings back the remembered component and forgets it; with nothing remembered nothing changes |
| RouterModel.OnRequestNavigate | Router.js:234-264 | a claimed URL updates history (replace or push) and triggers NAVIGATE with the base URL as consumed URL; any other request is forwarded as it came; only the log changes |
| Router.Router.constructor | Router.js:23-27 | the object's state is the initial state |
| Router.Router.SetViewsBasePath | Router.js:141 | the new state is `SetViewsBasePath` of the old one |
| Router.Router.SetFallbackRoute | Router.js:41-43 | the new state is `SetFallbackRoute` of the old one |
| Router.Router.AddComponent | Router.js:150-160 | the new state is `AddComponent` of the old one |
| Router.Router.ShowComponent | Router.js:28-36 | the new state is `ShowComponent` of the old one |
| Router.Router.CacheComponent | Router.js:54-56 | the new state is `CacheComponent` of the old one |
| Router.Router.AddPending | Router.js:108 | the new state is `AddPending` of the old one |
| Router.Router.GetComponentForRoute | Router.js:45-81 | the new state is `GetComponentForRoute` of the old one |
| Router.Router.Navigate | Router.js:97-128 | the new state is `Navigate` of the old one; the NAVIGATE data is computed with the `GetUrlParameters` loop |
| Router.Router.OnNavigate | Router.js:170-199 | the new state is `OnNavigate` of the old one |
| Router.Router.NavigateToMatch | Router.js:192-198 | the new state is `NavigateToMatch` of the old one |
| Router.Router.RunDeferredFallback | Router.js:181-183 | the new state is `RunDeferredFallback` of the old one |
| Router.Router.CompleteModuleLoad | Router.js:65-78 | the new state is `CompleteModuleLoad` of the old one |
| Router.Router.CompleteResolution | Router.js:108-127 | the new state is `CompleteResolution` of the old one |
| Router.Router.CompleteReady | Router.js:119-123 | the new state is `CompleteReady` of the old one |
| Router.Router.OnShowNotFound | Router.js:202-206 | the new state is `OnShowNotFound` of the old one |
| Router.Router.OnShowError | Router.js:207-216 | the new state is `OnShowError` of the old one |
| Router.Router.OnShowLoading | Router.js:218-225 | the new state is `OnShowLoading` of the old one |
| Router.Router.OnShowPage | Router.js:227-232 | the new state is `OnShowPage` of the old one |
| Router.Router.OnRequestNavigate | Router.js:234-264 | the new state is `OnRequestNavigate` of the old one |
| RouterLemmas.AddComponentKeepsEarlierMatches | Router.js:38-40 | registering never changes a lookup an earlier route answered; a URL no route matched finds the new route exactly when its pattern matches |
| RouterLemmas.FindMatchingRouteAppend | Router.js:38-40 | a route appended to a list answers a lookup only when no earlier route does and its own pattern matches |
| RouterLemmas.FirstMatchIsFound | Router.js:38-40 | a route that matches, with no earlier one matching, is the one the lookup finds |
| RouterLemmas.ResolutionCachesOnlyWithoutAlwaysReload | Router.js:51-57 | a resolution writes a cache only for a constructed component of a route without `alwaysReload`, and only under the consumed URL |
| RouterLemmas.ModuleLoadCachesOnlyWithoutAlwaysReload | Router.js:65-72 | a module load writes a cache only without `alwaysReload` and only what it resolves with; a failed load caches nothing and resolves with the error page |
| RouterLemmas.SameUrlNavigationOnlyNotifies | Router.js:98-102 | the same URL, with or without `alwaysReload`, changes neither route, component, URL, caches nor pending work, and only re-sends NAVIGATE |
| RouterLemmas.NavigateSetsToken | Router.js:103-108 | a new URL makes the target the current route and starts exactly one resolution under a new ticket, keeping the others; an `alwaysReload` current route loses its component and URL first |
| RouterLemmas.CompletionsKeepToken | Router.js:65-123 | no asynchronous completion moves the token |
| RouterLemmas.ResolutionsCommute | Router.js:108-118 | with a stale and a current resolution in flight, either order drops the stale one, applies the current one, and ends in the same state |
| RouterLemmas.LastStartedNavigationWins | Router.js:107-123 | overlapping navigations to two routes whose components resolve without a module load (a live instance or cache entry, or a constructor): whichever resolution completes first, the second navigation's component is shown under its consumed URL |
| RouterLemmas.LazyNavigationsRace | Router.js:65-123 | overlapping navigations to two lazily loaded routes, the newer one current: whichever module load settles first and whatever it yields, the older resolution is then dropped changing nothing but the pending work, and the newer one waits for readiness and shows its component under its consumed URL |
| RouterLemmas.ModuleLoadSettles | Router.js:65-78 | a settled module load always resolves, for its own navigation, keeps every other pending navigation and the current route, and removes no component |
| RouterLemmas.SettledRaceEnds | Router.js:108-123 | once both resolutions of two overlapping navigations have settled, the newer one's route current, the older is dropped and the newer is applied and shown |
| RouterLemmas.StaleReadinessStillShows | Router.js:119-123 | readiness skips the token check: an overtaken navigation that was already applied still shows its component and sets its URL |
| RouterLemmas.SameRouteResolutionApplied | Router.js:107-123 | the token is the route: an older navigation to the current route, at whatever URL, is still applied and, once ready, shows its component under its own consumed URL, leaving the newer one pending |
| RouterLemmas.OnNavigateCases | Router.js:170-199 | no match with a fallback only defers the request and resolves the event; no match without one forgets the route (not the URL) and shows not-found; a match navigates with the merged parameters and the incoming consumed URL as base |
| RouterLemmas.NavigateToMatchCalls | Router.js:192-198 | a matched route is navigated to with the consumed URL extended by what the route consumes, and with the event's parameters merged over the retained ones |
| RouterLemmas.FallbackRequestedAfterwards | Router.js:178-186 | an unmatched URL with a fallback ends, once the microtask runs, in exactly one replace-history request for the fallback URL |
| RouterLemmas.ReturningAfterNotFoundKeepsNotFoundPage | Router.js:187-191 | after not-found, navigating back to the previous URL keeps the not-found page, because `currentUrl` was not cleared |
| RouterLemmas.ShowComponentIdempotent | Router.js:28-36 | showing a component twice is showing it once |
| RouterLemmas.SwapThenShowPageRestores | Router.js:202-232 | SHOW_NOT_FOUND, SHOW_LOADING or a NOT_FOUND SHOW_ERROR followed by SHOW_PAGE brings back the previous component and leaves nothing remembered |
| RouterLemmas.GenericErrorStays | Router.js:211-212 | after a generic SHOW_ERROR with nothing remembered, SHOW_PAGE keeps the error page |
| RouterLemmas.ClaimedRequestNavigatesFromBase | Router.js:248-260 | a claimed request triggers NAVIGATE from the router's base URL, and the claim means the URL starts with the base, or a route matches when there is no base |
| RouterScenarios.OverlappingNavigations | Router.js:107-123 | navigations to "/a" then "/b", resolved newest first: component 4 is shown under "/b" with nothing left pending |
| RouterScenarios.RegisteredTwoRoutes | Router.js:150-160 | two static registrations give routes "a" and "b" with new instances 3 and 4 |
| RouterScenarios.BothNavigationsWait | Router.js:170-198 | both navigations wait on their instances, and "b" is the current route |
| RouterScenarios.FirstNavigationWaits | Router.js:170-198 | NAVIGATE to "/a" makes "a" the current route and waits on instance 3 under ticket 0 |
| RouterScenarios.FirstNavigationMatches | Router.js:170-198 | at the top level, NAVIGATE to "/a" is the navigation of route "a" with "/a" as consumed URL |
| RouterScenarios.FirstNavigationStatic | Router.js:45-48 | that navigation waits on instance 3 under ticket 0 and makes "a" the current route |
| RouterScenarios.FirstRouteMatches | Router.js:38-40 | the lookup of "/a" finds route "a" |
| RouterScenarios.SecondNavigationWaits | Router.js:170-198 | NAVIGATE to "/b" before that completes makes "b" the current route and waits on instance 4 under ticket 1, keeping ticket 0 |
| RouterScenarios.SecondNavigationMatches | Router.js:170-198 | NAVIGATE to "/b" is the navigation of route "b" with "/b" as consumed URL |
| RouterScenarios.SecondNavigationStatic | Router.js:45-48 | that navigation waits on instance 4 under ticket 1, keeping ticket 0, and makes "b" the current route |
| RouterScenarios.SecondRouteMatches | Router.js:38-40 | route "a" does not match "/b", so the lookup of "/b" finds route "b" |
| RouterScenarios.NewerResolutionApplied | Router.js:108-118 | the current route's resolution goes on to wait for readiness |
| RouterScenarios.OlderResolutionDropped | Router.js:109-116 | the overtaken resolution is dropped |
| RouterScenarios.TopLevelLiteralNavigation | Router.js:172-197 | at the top level, NAVIGATE to "/p" for a literal route "p" navigates with "/p" as consumed URL and an empty base URL |
| RouterScenarios.MatchedLiteralNavigation | Router.js:192-197 | the matched-route step for a top-level literal route |
| RouterScenarios.TopLevelLiteralConsumed | NavigationUtils.js:57-79 | a top-level router consumes exactly "/p" of "/p" for the pattern "p" |
| RouterScenarios.StaticNavigation | Router.js:47-48 | a new navigation to a live static route waits, with its instance, under the next ticket, and nothing else changes |

## Left out

- RegExp semantics: a RegExp pattern is an arbitrary matcher function. Its global `lastIndex` state and `String.prototype.match` details beyond the full match and the groups are not modelled.
- The event bus (`juis-commons/Listenable.js` is not part of this model): `trigger`, `triggerOnce`, `stopPropagation`, `skipOrigin` and `nextListenable` are reduced to log entries. Listeners outside the router, and the propagation of events to them, are not modelled.
- The DOM: `hasParent`, `replaceSelf` and `window.scrollTo` are one `Swapped` log entry. It is logged whether or not the old component's node has a parent.
- Browser history and `document.location.pathname`: history updates are log entries, and the pathname is a parameter of `OnRequestNavigate`.
- `dynamicImport` is the `LoadOutcome` given to `CompleteModuleLoad`. A module is a map of exports classified as object, constructor or unusable.
- Promise scheduling: each callback is a step the environment may take in any order. The model has no event loop.
- Console output, the loading page's text content beyond the last text set, and the re-thrown errors at `Router.js:77` and `Router.js:126`, which end as unhandled rejections, are not modelled.
- `whenReady`, `getNode` and `destroy` of the router itself (`Router.js:130`, `Router.js:162-168`) are not modelled. They do not touch the navigation state.
- Constructors and component construction: a constructor is an opaque number, and calling it always yields a new component.
- Components are destroyed only by the router's own steps (the `alwaysReload` destroy in `navigate`). A component's `isDestroyed()` turning true from outside between steps is not modelled; the lemmas hold for any valid state, whichever flags are set.
- Strings are sequences of Unicode characters, while JavaScript's `length` and `substring` count UTF-16 code units. Lengths, and so `Prefix`, `Suffix`, `ConsumeUrl` and the consumed URL passed on, agree with the code only for text inside the Basic Multilingual Plane. A character outside it, such as an emoji, counts once here and twice in JavaScript, where `substring` can split it into a lone surrogate.
- `Value` has no `null`, no plain object and only integer numbers. `String(null)`, a `null` entry in `urlParameterNames` (written `""` inside an array), `"[object Object]"` and keys of non-integer numbers such as `1.5` are outside the model.
- JavaScript object-key quirks, such as inherited keys and key order, are not modelled. Maps are keyed by string.
- A `null` or `undefined` view passed to `addComponent`, which throws at `view.getNode`, is not modelled. So are non-string URL arguments, which have no counterpart in the model's string type.
- The NOT_FOUND constant from `juis-commons/Errors.js` is not part of this model. It is the `NotFoundError` case of `ShownError`.
- RouterModel.OnNavigate: its own contract is only the invariant. The cases of the handler are stated and proved in `RouterLemmas.OnNavigateCases`.
- RouterModel.NavigateToMatch: its own contract is only the invariant. What it calls is stated in `RouterLemmas.NavigateToMatchCalls`.
