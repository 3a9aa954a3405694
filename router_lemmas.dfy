/**
 * Properties of the router's state machine that relate several steps: the
 * race token, the save/restore protocol of the page swaps, what registration
 * keeps, and what the NAVIGATE handler does in each case.
 */
module RouterLemmas {
  import opened NavigationUtils
  import opened RouterModel

  // ---------------------------------------------------------------- registration and lookup

  /**
   * Registering a route never changes which route an earlier lookup found;
   * a URL no earlier route matched finds the new route exactly when its
   * pattern matches.
   */
  lemma AddComponentKeepsEarlierMatches(s: RouterState, pattern: Pattern, view: ViewArg,
                                        parameters: map<string, Value>, componentName: Option<string>, url: string)
    requires ValidState(s)
    requires view.NodeArg? && view.known.Some? ==> view.known.value < |s.destroyed|
    ensures var r := AddComponent(s, pattern, view, parameters, componentName);
            && (FindMatchingRoute(s.routes, url).Some? ==> FindMatchingRoute(r.routes, url) == FindMatchingRoute(s.routes, url))
            && (FindMatchingRoute(s.routes, url).None? ==>
                  FindMatchingRoute(r.routes, url) == if IsMatchingUrl(url, pattern) then Some(|s.routes|) else None)
  {
    var r := AddComponent(s, pattern, view, parameters, componentName);
    FindMatchingRouteAppend(s.routes, r.routes[|s.routes|], url);
  }

  /** Appending a route to a route list only answers lookups the list left unanswered. */
  lemma {:induction false} FindMatchingRouteAppend(routes: seq<Route>, route: Route, url: string)
    ensures var before := FindMatchingRoute(routes, url);
            && (before.Some? ==> FindMatchingRoute(routes + [route], url) == before)
            && (before.None? ==>
                  FindMatchingRoute(routes + [route], url) == if IsMatchingUrl(url, route.pattern) then Some(|routes|) else None)
  {
    var after := routes + [route];
    assert forall j :: 0 <= j < |routes| ==> after[j] == routes[j];
    assert after[|routes|] == route;
    var before := FindMatchingRoute(routes, url);
    if before.Some? {
      FirstMatchIsFound(after, url, before.value);
    } else if IsMatchingUrl(url, route.pattern) {
      FirstMatchIsFound(after, url, |routes|);
    }
  }

  /** A route that matches, with no earlier route matching, is the one the lookup finds. */
  lemma FirstMatchIsFound(routes: seq<Route>, url: string, k: nat)
    requires k < |routes| && IsMatchingUrl(url, routes[k].pattern)
    requires forall j :: 0 <= j < k ==> !IsMatchingUrl(url, routes[j].pattern)
    ensures FindMatchingRoute(routes, url) == Some(k)
  {
    var found := FindMatchingRoute(routes, url);
    assert found.Some?;
    var f := found.value;
    // Route f matches, so it is not before k; route k matches, so the lookup stops no later than k.
    assert IsMatchingUrl(url, routes[f].pattern);
    assert f >= k;
    assert IsMatchingUrl(url, routes[k].pattern);
    assert f <= k;
  }

  // ---------------------------------------------------------------- resolution

  /** A route's cache is written only by a resolution that creates a component and only when `alwaysReload` is unset. */
  lemma ResolutionCachesOnlyWithoutAlwaysReload(s: RouterState, call: NavigateCall)
    requires ValidState(s) && call.route < |s.routes|
    ensures var r := GetComponentForRoute(s, call);
            && (r.caches != s.caches ==> !AlwaysReload(s.routes[call.route]) && s.routes[call.route].view.ConstructedView?)
            && (r.caches != s.caches ==> r.caches == WithCached(s.caches, call.route, call.consumedUrl, |s.destroyed|))
  {
  }

  /** A module load caches what it resolves with only when `alwaysReload` is unset, and never the error page it stands in with. */
  lemma ModuleLoadCachesOnlyWithoutAlwaysReload(s: RouterState, ticket: nat, outcome: LoadOutcome)
    requires ValidState(s) && ticket in s.pending && s.pending[ticket].ModuleLoading?
    requires OutcomeValid(outcome, |s.destroyed|)
    ensures var r := CompleteModuleLoad(s, ticket, outcome);
            var call := s.pending[ticket].call;
            && (r.caches != s.caches ==> !AlwaysReload(s.routes[call.route]))
            && (r.caches != s.caches ==>
                  r.caches == WithCached(s.caches, call.route, call.consumedUrl, r.pending[ticket].settlement.component))
            && (outcome.LoadFailed? ==> r.caches == s.caches && r.pending[ticket].settlement == Resolved(ErrorPage))
  {
  }

  // ---------------------------------------------------------------- navigate and the token

  /** Navigating to the URL already shown changes nothing but sending NAVIGATE to the current component. */
  lemma SameUrlNavigationOnlyNotifies(s: RouterState, call: NavigateCall)
    requires ValidState(s) && call.route < |s.routes| && SameUrl(s, call.consumedUrl)
    ensures var r := Navigate(s, call);
            && r.currentRoute == s.currentRoute && r.currentComponent == s.currentComponent
            && r.currentUrl == s.currentUrl && r.caches == s.caches && r.destroyed == s.destroyed
            && r.pending == s.pending
            && r.log == s.log + [NavigateTo(s.currentComponent, NavigateEventData(s, call))]
  {
  }

  /**
   * Navigating to a new URL makes the target route the token, starts one
   * resolution for exactly this call under a new ticket and keeps the ones in
   * flight; an `alwaysReload` current route first loses its component and
   * its URL.
   */
  lemma NavigateSetsToken(s: RouterState, call: NavigateCall)
    requires ValidState(s) && call.route < |s.routes| && !SameUrl(s, call.consumedUrl)
    ensures var r := Navigate(s, call);
            && r.currentRoute == Some(call.route)
            && s.nextTicket !in s.pending && s.nextTicket in r.pending && r.pending[s.nextTicket].call == call
            && r.pending == s.pending[s.nextTicket := r.pending[s.nextTicket]]
            && r.nextTicket == s.nextTicket + 1
            && r.routerBaseUrl == s.routerBaseUrl && r.parameters == s.parameters && r.routes == s.routes
            && (ReloadsCurrent(s) ==> r.destroyed[s.currentComponent] && r.currentUrl.None?)
            && (!ReloadsCurrent(s) ==> r.currentUrl == s.currentUrl)
  {
    var reloaded := ReloadCurrent(s).(currentRoute := Some(call.route));
    assert reloaded.nextTicket == s.nextTicket && reloaded.pending == s.pending;
    var r := GetComponentForRoute(reloaded, call);
    if ReloadsCurrent(s) {
      assert |r.destroyed| >= |reloaded.destroyed| && r.destroyed[..|reloaded.destroyed|] == reloaded.destroyed;
      assert r.destroyed[s.currentComponent] == reloaded.destroyed[s.currentComponent];
    }
  }

  /** None of the steps that complete asynchronous work moves the token. */
  lemma CompletionsKeepToken(s: RouterState, ticket: nat, outcome: LoadOutcome)
    requires ValidState(s) && ticket in s.pending
    requires OutcomeValid(outcome, |s.destroyed|)
    ensures s.pending[ticket].ModuleLoading? ==> CompleteModuleLoad(s, ticket, outcome).currentRoute == s.currentRoute
    ensures s.pending[ticket].Settled? ==> CompleteResolution(s, ticket).currentRoute == s.currentRoute
    ensures s.pending[ticket].ReadyWait? ==> CompleteReady(s, ticket).currentRoute == s.currentRoute
    ensures s.deferredFallbacks > 0 ==> RunDeferredFallback(s).currentRoute == s.currentRoute
  {
  }

  /**
   * Two resolved navigations in flight, the older for a route that is no
   * longer current: whichever completes first, the older one is dropped and
   * the current one goes on to wait for its component, and the two orders
   * end in the same state.
   */
  lemma ResolutionsCommute(s: RouterState, stale: nat, current: nat)
    requires ValidState(s) && stale != current
    requires stale in s.pending && s.pending[stale].Settled? && s.pending[stale].settlement.Resolved?
    requires current in s.pending && s.pending[current].Settled? && s.pending[current].settlement.Resolved?
    requires s.currentRoute == Some(s.pending[current].call.route)
    requires s.pending[stale].call.route != s.pending[current].call.route
    ensures var a := CompleteResolution(s, stale);
            var b := CompleteResolution(s, current);
            && current in a.pending && a.pending[current] == s.pending[current]
            && stale in b.pending && b.pending[stale] == s.pending[stale]
            && CompleteResolution(a, current) == CompleteResolution(b, stale)
            && stale !in CompleteResolution(a, current).pending
            && CompleteResolution(a, current).pending[current] ==
                 ReadyWait(s.pending[current].call, s.pending[current].settlement.component,
                           NavigateEventData(s, s.pending[current].call))
            && CompleteResolution(a, current).currentComponent == s.currentComponent
  {
    var a := CompleteResolution(s, stale);
    var b := CompleteResolution(s, current);
    var call := s.pending[current].call;
    var w := ReadyWait(call, s.pending[current].settlement.component, NavigateEventData(s, call));
    assert a == s.(pending := s.pending - {stale});
    assert b.pending == s.pending[current := w];
    var ab := CompleteResolution(a, current);
    var ba := CompleteResolution(b, stale);
    assert ab.pending == (s.pending - {stale})[current := w];
    assert ba.pending == s.pending[current := w] - {stale};
    assert ab.pending == ba.pending;
  }

  /**
   * Overlapping navigations to distinct routes R1 then R2, both resolving
   * straight away: whichever resolution completes first, R1's is discarded,
   * and once R2's component is ready it is shown under R2's consumed URL.
   */
  lemma LastStartedNavigationWins(s: RouterState, first: NavigateCall, second: NavigateCall, s1: RouterState, s2: RouterState)
    requires ValidState(s) && first.route < |s.routes| && second.route < |s.routes|
    requires first.route != second.route
    requires !SameUrl(s, first.consumedUrl) && s1 == Navigate(s, first)
    requires !SameUrl(s1, second.consumedUrl) && s2 == Navigate(s1, second)
    requires s.nextTicket in s2.pending && s2.pending[s.nextTicket].Settled? && s2.pending[s.nextTicket].settlement.Resolved?
    requires s1.nextTicket in s2.pending && s2.pending[s1.nextTicket].Settled? && s2.pending[s1.nextTicket].settlement.Resolved?
    ensures s1.nextTicket == s.nextTicket + 1
    ensures var t1 := s.nextTicket;
            var t2 := s1.nextTicket;
            var a1 := CompleteResolution(s2, t1);
            var b1 := CompleteResolution(s2, t2);
            && t2 in a1.pending && a1.pending[t2] == s2.pending[t2]
            && t1 in b1.pending && b1.pending[t1] == s2.pending[t1]
            && var a := CompleteResolution(a1, t2);
            var b := CompleteResolution(b1, t1);
            && a == b
            && t1 !in a.pending && t2 in a.pending && a.pending[t2].ReadyWait?
            && var done := CompleteReady(a, t2);
               && done.currentComponent == s2.pending[t2].settlement.component
               && done.currentUrl == Some(second.consumedUrl)
               && done.currentRoute == Some(second.route)
  {
    NavigateSetsToken(s, first);
    NavigateSetsToken(s1, second);
    var t1 := s.nextTicket;
    var t2 := s1.nextTicket;
    assert s2.pending[t1] == s1.pending[t1];
    assert s2.pending[t1].call == first && s2.pending[t2].call == second;
    ResolutionsCommute(s2, t1, t2);
  }

  /**
   * After the module loads of two overlapping navigations have settled, in
   * whatever order: both wait as settled resolutions for the routes they
   * started with, the current route is still the newer one's, the older
   * resolution is dropped changing nothing but the pending work, and the
   * newer one waits for readiness and then shows its component under its
   * consumed URL.
   */
  ghost predicate LoadedRaceEnds(x: RouterState, s: RouterState, stale: nat, current: nat)
  {
    && ValidState(x) && stale != current && stale in s.pending && current in s.pending
    && stale in x.pending && x.pending[stale].Settled? && x.pending[stale].settlement.Resolved?
    && current in x.pending && x.pending[current].Settled? && x.pending[current].settlement.Resolved?
    && x.pending[stale].call == s.pending[stale].call && x.pending[current].call == s.pending[current].call
    && x.currentRoute == s.currentRoute
    && CompleteResolution(x, stale) == x.(pending := x.pending - {stale})
    && var call := x.pending[current].call;
       var c := x.pending[current].settlement.component;
       var y := CompleteResolution(CompleteResolution(x, stale), current);
       && current in y.pending && y.pending[current] == ReadyWait(call, c, NavigateEventData(x, call))
       && stale !in y.pending
       && CompleteReady(y, current).currentComponent == c
       && CompleteReady(y, current).currentUrl == Some(call.consumedUrl)
       && CompleteReady(y, current).currentRoute == Some(call.route)
  }

  /**
   * Overlapping navigations to two lazily loaded routes, the newer one's
   * route current and both module loads in flight: whichever load settles
   * first, and whatever each load yields, the race ends as `LoadedRaceEnds`
   * says.
   */
  lemma LazyNavigationsRace(s: RouterState, stale: nat, current: nat, staleLoad: LoadOutcome, currentLoad: LoadOutcome)
    requires ValidState(s) && stale != current
    requires stale in s.pending && s.pending[stale].ModuleLoading?
    requires current in s.pending && s.pending[current].ModuleLoading?
    requires s.currentRoute == Some(s.pending[current].call.route)
    requires s.pending[stale].call.route != s.pending[current].call.route
    requires OutcomeValid(staleLoad, |s.destroyed|) && OutcomeValid(currentLoad, |s.destroyed|)
    ensures var a := CompleteModuleLoad(s, stale, staleLoad);
            var b := CompleteModuleLoad(s, current, currentLoad);
            && current in a.pending && a.pending[current] == s.pending[current]
            && OutcomeValid(currentLoad, |a.destroyed|)
            && stale in b.pending && b.pending[stale] == s.pending[stale]
            && OutcomeValid(staleLoad, |b.destroyed|)
            && LoadedRaceEnds(CompleteModuleLoad(a, current, currentLoad), s, stale, current)
            && LoadedRaceEnds(CompleteModuleLoad(b, stale, staleLoad), s, stale, current)
  {
    var a := CompleteModuleLoad(s, stale, staleLoad);
    ModuleLoadSettles(s, stale, staleLoad);
    ModuleLoadSettles(a, current, currentLoad);
    SettledRaceEnds(s, CompleteModuleLoad(a, current, currentLoad), stale, current);
    var b := CompleteModuleLoad(s, current, currentLoad);
    ModuleLoadSettles(s, current, currentLoad);
    ModuleLoadSettles(b, stale, staleLoad);
    SettledRaceEnds(s, CompleteModuleLoad(b, stale, staleLoad), stale, current);
  }

  /** A settled module load resolves, keeps every other ticket and the current route, and never removes a component. */
  lemma ModuleLoadSettles(s: RouterState, ticket: nat, outcome: LoadOutcome)
    requires ValidState(s) && ticket in s.pending && s.pending[ticket].ModuleLoading?
    requires OutcomeValid(outcome, |s.destroyed|)
    ensures var r := CompleteModuleLoad(s, ticket, outcome);
            && |r.destroyed| >= |s.destroyed| && r.currentRoute == s.currentRoute
            && ticket in r.pending && r.pending[ticket].Settled? && r.pending[ticket].settlement.Resolved?
            && r.pending[ticket].call == s.pending[ticket].call
            && forall t :: t in s.pending && t != ticket ==> t in r.pending && r.pending[t] == s.pending[t]
  {
  }

  /** Both navigations' resolutions settled, the newer one's route current: the race ends as `LoadedRaceEnds` says. */
  lemma SettledRaceEnds(s: RouterState, x: RouterState, stale: nat, current: nat)
    requires ValidState(s) && stale != current && stale in s.pending && current in s.pending
    requires s.currentRoute == Some(s.pending[current].call.route)
    requires s.pending[stale].call.route != s.pending[current].call.route
    requires ValidState(x) && x.currentRoute == s.currentRoute
    requires stale in x.pending && x.pending[stale].Settled? && x.pending[stale].settlement.Resolved?
    requires current in x.pending && x.pending[current].Settled? && x.pending[current].settlement.Resolved?
    requires x.pending[stale].call == s.pending[stale].call && x.pending[current].call == s.pending[current].call
    ensures LoadedRaceEnds(x, s, stale, current)
  {
    ResolutionsCommute(x, stale, current);
  }

  /**
   * The token is the route, not the navigation: of two navigations to the
   * same route (a RegExp route navigated to "/users/1", then "/users/2"),
   * the older one's resolution is still applied, and once ready it shows its
   * component under its own consumed URL, the newer one left pending.
   */
  lemma SameRouteResolutionApplied(s: RouterState, older: nat, newer: nat)
    requires ValidState(s) && older != newer && older in s.pending && newer in s.pending
    requires s.pending[older].Settled? && s.pending[older].settlement.Resolved?
    requires s.pending[older].call.route == s.pending[newer].call.route
    requires s.currentRoute == Some(s.pending[newer].call.route)
    ensures var call := s.pending[older].call;
            var c := s.pending[older].settlement.component;
            var r := CompleteResolution(s, older);
            && newer in r.pending && r.pending[newer] == s.pending[newer]
            && older in r.pending && r.pending[older] == ReadyWait(call, c, NavigateEventData(s, call))
            && var done := CompleteReady(r, older);
               && done.currentComponent == c && done.currentUrl == Some(call.consumedUrl)
               && newer in done.pending && done.pending[newer] == s.pending[newer]
  {
  }

  /**
   * Readiness is not checked against the token: a navigation whose component
   * was already applied and is waiting to be ready, and which a navigation to
   * another route has overtaken, still shows its component and sets its URL
   * when it becomes ready — after the newer one, if that finished first.
   */
  lemma StaleReadinessStillShows(s: RouterState, older: nat, newer: NavigateCall)
    requires ValidState(s) && newer.route < |s.routes|
    requires older in s.pending && s.pending[older].ReadyWait? && s.pending[older].call.route != newer.route
    requires !SameUrl(s, newer.consumedUrl)
    requires var s1 := Navigate(s, newer);
             s1.pending[s.nextTicket].Settled? && s1.pending[s.nextTicket].settlement.Resolved?
    ensures var s1 := Navigate(s, newer);
            var t := s.nextTicket;
            && older in s1.pending && s1.pending[older] == s.pending[older]
            && var s2 := CompleteResolution(s1, t);
               && t in s2.pending && s2.pending[t].ReadyWait?
               && older in s2.pending && s2.pending[older] == s.pending[older]
               && var s3 := CompleteReady(s2, t);
                  && older in s3.pending && s3.pending[older] == s.pending[older]
                  && var s4 := CompleteReady(s3, older);
                     && s4.currentRoute == Some(newer.route)
                     && s4.currentComponent == s.pending[older].component
                     && s4.currentUrl == Some(s.pending[older].call.consumedUrl)
  {
    var s1 := Navigate(s, newer);
    NavigateSetsToken(s, newer);
    var t := s.nextTicket;
    assert older != t;
    assert s1.pending[older] == s.pending[older];
    assert s1.pending[t].call == newer;
    var s2 := CompleteResolution(s1, t);
    assert s2.pending[older] == s.pending[older];
    var s3 := CompleteReady(s2, t);
    assert s3.pending[older] == s.pending[older];
  }

  // ---------------------------------------------------------------- the NAVIGATE handler

  /**
   * The NAVIGATE handler in its three cases: no match with a fallback leaves
   * the state alone apart from the deferred request; no match without one
   * forgets the current route (but not the current URL) and shows the
   * not-found page; a match navigates with the consumed URL extended by what
   * the route claims and the parameters merged over the retained ones.
   */
  lemma OnNavigateCases(s: RouterState, url: string, consumedUrl: Option<string>, navParameters: map<string, Value>)
    requires ValidState(s)
    ensures var prev := NormaliseConsumedUrl(consumedUrl);
            var part := Suffix(url, |prev|);
            var found := FindMatchingRoute(s.routes, part);
            var r := OnNavigate(s, url, consumedUrl, navParameters);
            && (found.None? && s.fallbackUrl.Some? ==>
                  r == s.(deferredFallbacks := s.deferredFallbacks + 1, log := s.log + [NavigateEventResolved]))
            && (found.None? && s.fallbackUrl.None? ==>
                  && r.currentRoute.None? && r.currentComponent == NotFoundPage && r.currentUrl == s.currentUrl
                  && r.pending == s.pending && r.caches == s.caches && r.parameters == s.parameters)
            && (found.Some? ==>
                  && r == NavigateToMatch(s, url, prev, part, found.value, navParameters)
                  && r.parameters == s.parameters + navParameters
                  && r.routerBaseUrl == prev)
  {
    var prev := NormaliseConsumedUrl(consumedUrl);
    var part := Suffix(url, |prev|);
    var found := FindMatchingRoute(s.routes, part);
    var r := OnNavigate(s, url, consumedUrl, navParameters);
    if found.Some? {
      assert r == NavigateToMatch(s, url, prev, part, found.value, navParameters);
      NavigateToMatchCalls(s, url, prev, part, found.value, navParameters);
    } else if s.fallbackUrl.None? {
      assert r == ShowComponent(s.(currentRoute := None), NotFoundPage);
    }
  }

  /**
   * A matched route is navigated to with the consumed URL extended by what
   * the route claims of the rest of the URL, the event's parameters merged
   * over the retained ones and the incoming consumed URL as base URL.
   */
  lemma NavigateToMatchCalls(s: RouterState, url: string, prev: string, part: string, route: RouteId,
                             navParameters: map<string, Value>)
    requires ValidState(s) && route < |s.routes| && IsMatchingUrl(part, s.routes[route].pattern)
    ensures ConsumeUrl(part, s.routes[route].pattern).Success?
    ensures var newConsumed := ConcatenateUrls([Some(prev), Some(ConsumeUrl(part, s.routes[route].pattern).value)]);
            var merged := s.(parameters := s.parameters + navParameters, routerBaseUrl := prev);
            var r := NavigateToMatch(s, url, prev, part, route, navParameters);
            && r == Navigate(merged, NavigateCall(route, url, newConsumed, part, s.parameters + navParameters))
            && r.parameters == s.parameters + navParameters
            && r.routerBaseUrl == prev
  {
    var newConsumed := ConcatenateUrls([Some(prev), Some(ConsumeUrl(part, s.routes[route].pattern).value)]);
    var merged := s.(parameters := s.parameters + navParameters, routerBaseUrl := prev);
    var call := NavigateCall(route, url, newConsumed, part, merged.parameters);
    if !SameUrl(merged, call.consumedUrl) {
      NavigateSetsToken(merged, call);
    }
  }

  /** An unmatched URL with a fallback: once the deferred microtask runs, one replace-history request for the fallback URL has gone out. */
  lemma FallbackRequestedAfterwards(s: RouterState, url: string, consumedUrl: Option<string>, navParameters: map<string, Value>)
    requires ValidState(s) && s.fallbackUrl.Some?
    requires MatchedRoute(s, url, consumedUrl).None?
    ensures RunDeferredFallback(OnNavigate(s, url, consumedUrl, navParameters))
            == s.(log := s.log + [NavigateEventResolved, RequestNavigate(s.fallbackUrl.value, true)])
  {
    OnNavigateCases(s, url, consumedUrl, navParameters);
  }

  /**
   * The not-found page does not clear `currentUrl`: after an unmatched URL,
   * navigating back to the URL shown before only re-sends NAVIGATE, so the
   * not-found page stays.
   */
  lemma ReturningAfterNotFoundKeepsNotFoundPage(s: RouterState, url: string, consumedUrl: Option<string>,
                                                navParameters: map<string, Value>, back: NavigateCall)
    requires ValidState(s) && s.fallbackUrl.None? && back.route < |s.routes|
    requires MatchedRoute(s, url, consumedUrl).None?
    requires SameUrl(s, back.consumedUrl)
    ensures var r := Navigate(OnNavigate(s, url, consumedUrl, navParameters), back);
            && r.currentComponent == NotFoundPage && r.currentRoute.None? && r.currentUrl == s.currentUrl
  {
    OnNavigateCases(s, url, consumedUrl, navParameters);
  }

  // ---------------------------------------------------------------- swaps

  /** Showing the same component twice is showing it once. */
  lemma ShowComponentIdempotent(s: RouterState, c: ComponentId)
    requires ValidState(s) && c < |s.destroyed|
    ensures ShowComponent(ShowComponent(s, c), c) == ShowComponent(s, c)
  {
  }

  /**
   * SHOW_NOT_FOUND, SHOW_LOADING and a NOT_FOUND SHOW_ERROR followed by
   * SHOW_PAGE bring back the component shown before and leave nothing
   * remembered.
   */
  lemma SwapThenShowPageRestores(s: RouterState, text: Option<string>)
    requires ValidState(s)
    ensures var r := OnShowPage(OnShowNotFound(s));
            r.currentComponent == s.currentComponent && r.switchedComponent.None?
    ensures var r := OnShowPage(OnShowLoading(s, text));
            r.currentComponent == s.currentComponent && r.switchedComponent.None?
    ensures var r := OnShowPage(OnShowError(s, NotFoundError));
            r.currentComponent == s.currentComponent && r.switchedComponent.None?
  {
  }

  /** A generic SHOW_ERROR remembers nothing, so a SHOW_PAGE after it with nothing remembered before keeps the error page. */
  lemma GenericErrorStays(s: RouterState, error: ShownError)
    requires ValidState(s) && s.switchedComponent.None? && !error.NotFoundError?
    ensures OnShowPage(OnShowError(s, error)).currentComponent == ErrorPage
  {
  }

  // ---------------------------------------------------------------- REQUEST_NAVIGATE

  /** A claimed request makes the router navigate from its own base URL, to the URL resolved against the pathname. */
  lemma ClaimedRequestNavigatesFromBase(s: RouterState, request: NavigationRequest, pathname: string)
    requires ValidState(s) && Claims(s, ResolveRequestUrl(request.url, pathname))
    ensures var r := OnRequestNavigate(s, request, pathname);
            var url := ResolveRequestUrl(request.url, pathname);
            && |r.log| == |s.log| + 2
            && r.log[|s.log| + 1] == NavigateSelf(NavigationData(url, s.routerBaseUrl, s.routerBaseUrl, request.parameters))
            && (s.routerBaseUrl != "" ==> StartsWith(url, s.routerBaseUrl))
            && (s.routerBaseUrl == "" ==> MatchedRoute(s, url, Some(s.routerBaseUrl)).Some?)
  {
    var url := ResolveRequestUrl(request.url, pathname);
    if s.routerBaseUrl == "" {
      assert NormaliseConsumedUrl(Some(s.routerBaseUrl)) == "";
      assert Suffix(url, 0) == url;
    }
  }
}
