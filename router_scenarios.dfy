/**
 * Clients of the router object: concrete routes and navigations whose
 * asynchronous steps complete in a chosen order.
 */
module RouterScenarios {
  import opened NavigationUtils
  import opened NavigationUtilsLemmas
  import opened RouterModel
  import opened RouterLemmas
  import opened Router

  /**
   * Routes "a" and "b" with static components; NAVIGATE to "/a" and then
   * to "/b" before either resolution has completed. The resolution for "/b"
   * completes first, then the one for "/a", then "/b"'s component is ready:
   * "/b"'s component is shown under "/b", and "/a"'s result left no trace.
   */
  method OverlappingNavigations() returns (shown: ComponentId, url: Option<string>, waiting: set<nat>)
    ensures shown == 4 && url == Some("/b") && waiting == {}
  {
    var router := new Router();
    router.AddComponent(Literal("a"), NodeArg(None), map[], None);
    router.AddComponent(Literal("b"), NodeArg(None), map[], None);
    RegisteredTwoRoutes(router.State());
    ghost var s0 := router.State();
    router.OnNavigate("/a", None, map[]);
    router.OnNavigate("/b", None, map[]);
    BothNavigationsWait(s0, OnNavigate(s0, "/a", None, map[]), router.State());
    ghost var s2 := router.State();
    router.CompleteResolution(1);
    ghost var s3 := router.State();
    NewerResolutionApplied(s2, s3);
    router.CompleteResolution(0);
    ghost var s4 := router.State();
    OlderResolutionDropped(s3, s4);
    router.CompleteReady(1);
    shown, url, waiting := router.currentComponent, router.currentUrl, router.pending.Keys;
  }

  /** The router with routes "a" and "b" registered, their static instances 3 and 4, before any navigation. */
  function Registered(): RouterState
  {
    RouterState([Route(Literal("a"), StaticView(3), map[]), Route(Literal("b"), StaticView(4), map[])],
                [map[], map[]], [false, false, false, false, false], LoadingPage, None, None, "", None, map[],
                None, "", None, map[], 0, 0, [])
  }

  /** The navigation to "/a" is call 0, the one to "/b" call 1. */
  function CallTo(route: RouteId): NavigateCall
  {
    if route == 0 then NavigateCall(0, "/a", "/a", "/a", map[]) else NavigateCall(1, "/b", "/b", "/b", map[])
  }

  /** Both navigations waiting on their resolved instances; "b" is the current route. */
  function BothWaiting(): RouterState
  {
    Registered().(currentRoute := Some(1),
                  pending := map[0 := Settled(CallTo(0), Resolved(3)), 1 := Settled(CallTo(1), Resolved(4))],
                  nextTicket := 2)
  }

  lemma RegisteredTwoRoutes(s: RouterState)
    requires s == AddComponent(AddComponent(Init(), Literal("a"), NodeArg(None), map[], None),
                               Literal("b"), NodeArg(None), map[], None)
    ensures s == Registered()
  {
  }

  /** Neither NAVIGATE finds the router on its URL already, so each waits under its own ticket. */
  lemma BothNavigationsWait(s0: RouterState, s1: RouterState, s2: RouterState)
    requires s0 == Registered()
    requires s1 == OnNavigate(s0, "/a", None, map[])
    requires s2 == OnNavigate(s1, "/b", None, map[])
    ensures s2 == BothWaiting()
  {
    FirstNavigationWaits(s0, s1);
    SecondNavigationWaits(s1, s2);
  }

  /** Only the navigation to "/a" waiting; "a" is the current route. */
  function FirstWaiting(): RouterState
  {
    Registered().(routerBaseUrl := "", currentRoute := Some(0),
                  pending := map[0 := Settled(CallTo(0), Resolved(3))], nextTicket := 1)
  }

  lemma FirstNavigationWaits(s0: RouterState, s1: RouterState)
    requires s0 == Registered()
    requires s1 == OnNavigate(s0, "/a", None, map[])
    ensures s1 == FirstWaiting()
  {
    FirstNavigationMatches();
    FirstNavigationStatic();
  }

  /** Route "a" answers with its static instance 3, under the first ticket. */
  lemma FirstNavigationStatic()
    ensures Navigate(Registered(), CallTo(0)) == FirstWaiting()
  {
    var s0 := Registered();
    assert IsLive(s0.destroyed, 3);
    assert !ReloadsCurrent(s0) && !SameUrl(s0, "/a");
    StaticNavigation(s0, CallTo(0));
    assert s0.pending[0 := Settled(CallTo(0), Resolved(3))] == FirstWaiting().pending;
  }

  /** The NAVIGATE to "/a" is the navigation of route "a" to "/a", from the top level. */
  lemma FirstNavigationMatches()
    ensures ValidState(Registered())
    ensures OnNavigate(Registered(), "/a", None, map[]) == Navigate(Registered(), CallTo(0))
  {
    var s0 := Registered();
    FirstRouteMatches();
    assert s0.(routerBaseUrl := "") == s0 && NavigateCall(0, "/a", "/a", "/a", s0.parameters) == CallTo(0);
    TopLevelLiteralNavigation(s0, "/a", "a", 0);
  }

  /** "/a" is matched by route "a", the first one registered. */
  lemma FirstRouteMatches()
    ensures FindMatchingRoute(Registered().routes, "/a") == Some(0)
  {
    assert "/a"[..2][1] == 'a';
    assert IsMatchingUrl("/a", Literal("a"));
  }

  lemma SecondNavigationWaits(s1: RouterState, s2: RouterState)
    requires s1 == FirstWaiting()
    requires s2 == OnNavigate(s1, "/b", None, map[])
    ensures s2 == BothWaiting()
  {
    SecondNavigationMatches();
    SecondNavigationStatic();
  }

  /** The NAVIGATE to "/b" is the navigation of route "b" to "/b", from the top level. */
  lemma SecondNavigationMatches()
    ensures ValidState(FirstWaiting())
    ensures OnNavigate(FirstWaiting(), "/b", None, map[]) == Navigate(FirstWaiting(), CallTo(1))
  {
    var s1 := FirstWaiting();
    SecondRouteMatches();
    assert s1.routes == Registered().routes;
    assert s1.(routerBaseUrl := "") == s1 && NavigateCall(1, "/b", "/b", "/b", s1.parameters) == CallTo(1);
    TopLevelLiteralNavigation(s1, "/b", "b", 1);
  }

  /** Route "b" answers with its static instance 4, under the second ticket. */
  lemma SecondNavigationStatic()
    ensures Navigate(FirstWaiting(), CallTo(1)) == BothWaiting()
  {
    var s1 := FirstWaiting();
    assert IsLive(s1.destroyed, 4);
    assert !ReloadsCurrent(s1) && !SameUrl(s1, "/b");
    StaticNavigation(s1, CallTo(1));
    assert s1.pending[1 := Settled(CallTo(1), Resolved(4))] == BothWaiting().pending;
  }

  /** "/b" is not matched by route "a", so route "b" answers it. */
  lemma SecondRouteMatches()
    ensures FindMatchingRoute(Registered().routes, "/b") == Some(1)
  {
    assert "/b"[..2][1] == 'b';
    assert !IsMatchingUrl("/b", Literal("a"));
  }

  /** "b"'s resolution matches the current route: BEFORE_NAVIGATION and NAVIGATE go out and it waits for readiness. */
  lemma NewerResolutionApplied(s2: RouterState, s3: RouterState)
    requires s2 == BothWaiting()
    requires s3 == CompleteResolution(s2, 1)
    ensures s3.currentRoute == Some(1) && s3.pending.Keys == {0, 1}
    ensures s3.pending[0] == Settled(CallTo(0), Resolved(3))
    ensures s3.pending[1].ReadyWait? && s3.pending[1].component == 4 && s3.pending[1].call == CallTo(1)
  {
  }

  /** "a"'s resolution arrives after "b" became the current route: it is dropped. */
  lemma OlderResolutionDropped(s3: RouterState, s4: RouterState)
    requires ValidState(s3) && s3.currentRoute == Some(1) && s3.pending.Keys == {0, 1}
    requires s3.pending[0] == Settled(CallTo(0), Resolved(3))
    requires s4 == CompleteResolution(s3, 0)
    ensures s4.currentRoute == Some(1) && s4.pending.Keys == {1} && s4.pending[1] == s3.pending[1]
  {
  }

  /**
   * NAVIGATE of a top-level URL `/p` that the route `route`, with literal
   * pattern `p`, is the first to match: the router navigates there with
   * `/p` as consumed URL and matching part, and an empty base URL.
   */
  lemma TopLevelLiteralNavigation(s: RouterState, url: string, p: string, route: RouteId)
    requires ValidState(s) && url == "/" + p && p != "" && !StartsWithSlash(p) && !EndsWithSlash(p)
    requires FindMatchingRoute(s.routes, url) == Some(route) && s.routes[route].pattern == Literal(p)
    ensures OnNavigate(s, url, None, map[]) == Navigate(s.(routerBaseUrl := ""), NavigateCall(route, url, url, url, s.parameters))
  {
    assert Suffix(url, 0) == url;
    TopLevelLiteralConsumed(url, p);
    assert OnNavigate(s, url, None, map[]) == NavigateToMatch(s, url, "", url, route, map[]);
    MatchedLiteralNavigation(s, url, p, route);
  }

  lemma MatchedLiteralNavigation(s: RouterState, url: string, p: string, route: RouteId)
    requires ValidState(s) && route < |s.routes| && s.routes[route].pattern == Literal(p)
    requires IsMatchingUrl(url, Literal(p))
    requires ConcatenateUrls([Some(""), Some(ConsumeUrl(url, Literal(p)).value)]) == url
    ensures NavigateToMatch(s, url, "", url, route, map[]) == Navigate(s.(routerBaseUrl := ""), NavigateCall(route, url, url, url, s.parameters))
  {
    var merged := s.(parameters := s.parameters + map[], routerBaseUrl := "");
    assert merged == s.(routerBaseUrl := "");
  }

  /** A top-level router consumes exactly `/p` of the URL `/p` for the literal pattern `p`. */
  lemma TopLevelLiteralConsumed(url: string, p: string)
    requires url == "/" + p && p != "" && !StartsWithSlash(p) && !EndsWithSlash(p)
    ensures IsMatchingUrl(url, Literal(p))
    ensures ConcatenateUrls([Some(""), Some(ConsumeUrl(url, Literal(p)).value)]) == url
  {
    assert WithLeadingSlash(p) == url && WithLeadingSlash(url) == url;
    LiteralConsumesItself(url, p);
    ConcatenateAfterEmptyBase(url);
  }

  /** Navigating anew to a live static route: the navigation waits, with the instance, under the next ticket. */
  lemma StaticNavigation(s: RouterState, call: NavigateCall)
    requires ValidState(s) && call.route < |s.routes| && s.routes[call.route].view.StaticView?
    requires IsLive(s.destroyed, s.routes[call.route].view.instance)
    requires !SameUrl(s, call.consumedUrl) && !ReloadsCurrent(s)
    ensures Navigate(s, call)
            == s.(currentRoute := Some(call.route),
                  pending := s.pending[s.nextTicket := Settled(call, Resolved(s.routes[call.route].view.instance))],
                  nextTicket := s.nextTicket + 1)
  {
  }
}
