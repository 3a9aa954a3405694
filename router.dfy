/**
 * The router object: the closure variables of `Router.js` as fields updated
 * in place. Each method is one handler or one asynchronous continuation, and
 * its contract ties the new state to the step of module `RouterModel` that
 * describes it.
 */
module Router {
  import opened NavigationUtils
  import opened RouterModel

  class Router {
    var routes: seq<Route>
    /** `caches[r]` is `routes[r].components`: the components of route `r` by consumed URL. */
    var caches: seq<map<string, ComponentId>>
    var destroyed: seq<bool>
    var currentComponent: ComponentId
    var currentRoute: Option<RouteId>
    var currentUrl: Option<string>
    var routerBaseUrl: string
    var fallbackUrl: Option<string>
    var parameters: map<string, Value>
    var switchedComponent: Option<ComponentId>
    var baseViewPath: string
    /** The text last set on the loading page (`None` while it shows what it was built with). */
    var loadingText: Option<string>
    /** Navigations waiting for asynchronous work, by ticket. */
    var pending: map<nat, Pending>
    var nextTicket: nat
    /** Fallback requests deferred to the next microtask. */
    var deferredFallbacks: nat
    var log: seq<Effect>

    ghost function State(): RouterState
      reads this
    {
      RouterState(routes, caches, destroyed, currentComponent, currentRoute, currentUrl,
                  routerBaseUrl, fallbackUrl, parameters, switchedComponent, baseViewPath, loadingText,
                  pending, nextTicket, deferredFallbacks, log)
    }

    ghost predicate Valid()
      reads this
    {
      ValidState(State())
    }

    /** `new Router(dynamicImport, loadingPage, notFoundPage, errorPage)` */
    constructor ()
      ensures Valid() && State() == Init()
    {
      routes, caches, destroyed := [], [], [false, false, false];
      currentComponent, currentRoute, currentUrl := LoadingPage, None, None;
      routerBaseUrl, fallbackUrl, parameters := "", None, map[];
      switchedComponent, baseViewPath, loadingText := None, "", None;
      pending, nextTicket, deferredFallbacks, log := map[], 0, 0, [];
    }

    /** `setViewsBasePath(path)` */
    method SetViewsBasePath(path: string)
      requires Valid()
      modifies this
      ensures Valid() && State() == RouterModel.SetViewsBasePath(old(State()), path)
    {
      baseViewPath := path;
    }

    /** `setFallbackRoute(url)` */
    method SetFallbackRoute(url: string)
      requires Valid()
      modifies this
      ensures Valid() && State() == RouterModel.SetFallbackRoute(old(State()), url)
    {
      fallbackUrl := Some(url);
    }

    /** `addComponent(url, view, parameters, componentName)` */
    method AddComponent(url: Pattern, view: ViewArg, parameters: map<string, Value>, componentName: Option<string>)
      requires Valid()
      requires view.NodeArg? && view.known.Some? ==> view.known.value < |destroyed|
      modifies this
      ensures Valid() && State() == RouterModel.AddComponent(old(State()), url, view, parameters, componentName)
    {
      var routeView := ViewOf(view, baseViewPath, componentName, |destroyed|);
      if view.NodeArg? && view.known.None? {
        // A component the router has not seen before.
        destroyed := destroyed + [false];
      }
      routes := routes + [Route(url, routeView, parameters)];
      caches := caches + [map[]];
    }

    /** `showComponent(newComponent)` */
    method ShowComponent(c: ComponentId)
      requires Valid() && c < |destroyed|
      modifies this
      ensures Valid() && State() == RouterModel.ShowComponent(old(State()), c)
    {
      if currentComponent != c {
        log := log + [Swapped(currentComponent, c)];
        currentComponent := c;
      }
    }

    /** `route.components[consumedUrl] = component` unless the route has `alwaysReload`. */
    method CacheComponent(route: RouteId, url: string, c: ComponentId)
      requires Valid() && route < |routes| && c < |destroyed|
      modifies this
      ensures Valid() && State() == RouterModel.CacheComponent(old(State()), route, url, c)
    {
      if !AlwaysReload(routes[route]) {
        caches := WithCached(caches, route, url, c);
      }
    }

    /** Records that the navigation waits for `p`, under the next ticket. */
    method AddPending(p: Pending)
      requires Valid() && PendingValid(p, routes, |destroyed|)
      modifies this
      ensures Valid() && State() == RouterModel.AddPending(old(State()), p)
    {
      pending := pending[nextTicket := p];
      nextTicket := nextTicket + 1;
    }

    /** The synchronous part of `getComponentForRoute(route, consumedUrl)`. */
    method GetComponentForRoute(call: NavigateCall)
      requires Valid() && call.route < |routes|
      modifies this
      ensures Valid() && State() == RouterModel.GetComponentForRoute(old(State()), call)
    {
      var route := routes[call.route];
      var cache := caches[call.route];
      var url := call.consumedUrl;
      if route.view.StaticView? && IsLive(destroyed, route.view.instance) {
        AddPending(Settled(call, Resolved(route.view.instance)));
      } else if url in cache && IsLive(destroyed, cache[url]) {
        AddPending(Settled(call, Resolved(cache[url])));
      } else if route.view.ConstructedView? {
        var c := |destroyed|;
        destroyed := destroyed + [false];
        CacheComponent(call.route, url, c);
        AddPending(Settled(call, Resolved(c)));
      } else {
        loadingText := Some("Waiting");
        ShowComponent(LoadingPage);
        if route.view.LazyView? {
          AddPending(ModuleLoading(call, StripSourceRoot(route.view.path)));
        } else {
          // A destroyed static instance and no path: reading the path throws and the promise rejects.
          AddPending(Settled(call, Rejected));
        }
      }
    }

    /** `navigate(route, url, consumedUrl, matchingUrlPart, dynamicParameters)` */
    method Navigate(call: NavigateCall)
      requires Valid() && call.route < |routes|
      modifies this
      ensures Valid() && State() == RouterModel.Navigate(old(State()), call)
    {
      if IsSameUrl(currentUrl, Some(call.consumedUrl)) {
        // Nothing to resolve: only propagate the navigation to the current component.
        var p := GetUrlParameters(call.matchingUrlPart, routes[call.route].pattern, routes[call.route].parameters);
        var data := NavigationData(call.url, call.consumedUrl, routerBaseUrl, call.dynamicParameters + p);
        log := log + [NavigateTo(currentComponent, data)];
        return;
      }
      ghost var s := State();
      if currentRoute.Some? && currentRoute.value < |routes| && AlwaysReload(routes[currentRoute.value]) {
        destroyed := destroyed[currentComponent := true];
        currentUrl := None;
      }
      assert State() == RouterModel.ReloadCurrent(s);
      currentRoute := Some(call.route);
      assert State() == RouterModel.ReloadCurrent(s).(currentRoute := Some(call.route));
      GetComponentForRoute(call);
    }

    /** The NAVIGATE handler. */
    method OnNavigate(url: string, consumedUrl: Option<string>, navParameters: map<string, Value>)
      requires Valid()
      modifies this
      ensures Valid() && State() == RouterModel.OnNavigate(old(State()), url, consumedUrl, navParameters)
    {
      var prev := NormaliseConsumedUrl(consumedUrl);
      var part := Suffix(url, |prev|);
      var found := FindMatchingRoute(routes, part);
      if found.None? {
        if fallbackUrl.Some? {
          deferredFallbacks := deferredFallbacks + 1;
          log := log + [NavigateEventResolved];
        } else {
          currentRoute := None;
          ShowComponent(NotFoundPage);
        }
        return;
      }
      NavigateToMatch(url, prev, part, found.value, navParameters);
    }

    /** The NAVIGATE handler once a route matches. */
    method NavigateToMatch(url: string, prev: string, part: string, route: RouteId, navParameters: map<string, Value>)
      requires Valid() && route < |routes| && IsMatchingUrl(part, routes[route].pattern)
      modifies this
      ensures Valid() && State() == RouterModel.NavigateToMatch(old(State()), url, prev, part, route, navParameters)
    {
      var consumed := ConsumeUrl(part, routes[route].pattern);
      var newConsumed := ConcatenateUrls([Some(prev), Some(consumed.value)]);
      parameters := parameters + navParameters;
      routerBaseUrl := prev;
      Navigate(NavigateCall(route, url, newConsumed, part, parameters));
    }

    /** The deferred request for the fallback URL. */
    method RunDeferredFallback()
      requires Valid() && deferredFallbacks > 0
      modifies this
      ensures Valid() && State() == RouterModel.RunDeferredFallback(old(State()))
    {
      deferredFallbacks := deferredFallbacks - 1;
      log := log + [RequestNavigate(fallbackUrl.value, true)];
    }

    /** The module loader settles for the navigation waiting at `ticket`. */
    method CompleteModuleLoad(ticket: nat, outcome: LoadOutcome)
      requires Valid() && ticket in pending && pending[ticket].ModuleLoading?
      requires OutcomeValid(outcome, |destroyed|)
      modifies this
      ensures Valid() && State() == RouterModel.CompleteModuleLoad(old(State()), ticket, outcome)
    {
      var call := pending[ticket].call;
      var exported := Exported(outcome, ExportName(routes[call.route].view.componentName));
      var c: ComponentId;
      if exported.OtherExport? {
        pending := pending[ticket := Settled(call, Resolved(ErrorPage))];
        log := log + [CheckVersion];
        return;
      } else if exported.ObjectExport? && exported.known.Some? {
        c := exported.known.value;
      } else {
        c := |destroyed|;
        destroyed := destroyed + [false];
      }
      CacheComponent(call.route, call.consumedUrl, c);
      pending := pending[ticket := Settled(call, Resolved(c))];
    }

    /** The callback on the settled component promise. */
    method CompleteResolution(ticket: nat)
      requires Valid() && ticket in pending && pending[ticket].Settled?
      modifies this
      ensures Valid() && State() == RouterModel.CompleteResolution(old(State()), ticket)
    {
      var call := pending[ticket].call;
      var settlement := pending[ticket].settlement;
      if settlement.Rejected? {
        pending := pending - {ticket};
        ShowComponent(ErrorPage);
      } else if currentRoute != Some(call.route) {
        pending := pending - {ticket};
      } else {
        var p := GetUrlParameters(call.matchingUrlPart, routes[call.route].pattern, routes[call.route].parameters);
        var data := NavigationData(call.url, call.consumedUrl, routerBaseUrl, call.dynamicParameters + p);
        log := log + [BeforeNavigation(call.url, call.consumedUrl, routerBaseUrl), NavigateTo(settlement.component, data)];
        pending := pending[ticket := ReadyWait(call, settlement.component, data)];
      }
    }

    /** The component of the navigation waiting at `ticket` is ready. */
    method CompleteReady(ticket: nat)
      requires Valid() && ticket in pending && pending[ticket].ReadyWait?
      modifies this
      ensures Valid() && State() == RouterModel.CompleteReady(old(State()), ticket)
    {
      var w := pending[ticket];
      pending := pending - {ticket};
      ShowComponent(w.component);
      currentUrl := Some(w.call.consumedUrl);
      log := log + [AfterNavigation(w.data)];
    }

    /** The SHOW_NOT_FOUND handler. */
    method OnShowNotFound()
      requires Valid()
      modifies this
      ensures Valid() && State() == RouterModel.OnShowNotFound(old(State()))
    {
      switchedComponent := Some(currentComponent);
      ShowComponent(NotFoundPage);
    }

    /** The SHOW_ERROR handler. */
    method OnShowError(error: ShownError)
      requires Valid()
      modifies this
      ensures Valid() && State() == RouterModel.OnShowError(old(State()), error)
    {
      if error.NotFoundError? {
        switchedComponent := Some(currentComponent);
        ShowComponent(NotFoundPage);
      } else {
        ShowComponent(ErrorPage);
      }
    }

    /** The SHOW_LOADING handler. */
    method OnShowLoading(text: Option<string>)
      requires Valid()
      modifies this
      ensures Valid() && State() == RouterModel.OnShowLoading(old(State()), text)
    {
      switchedComponent := Some(currentComponent);
      if text.Some? && text.value != "" {
        loadingText := text;
      }
      ShowComponent(LoadingPage);
    }

    /** The SHOW_PAGE handler. */
    method OnShowPage()
      requires Valid()
      modifies this
      ensures Valid() && State() == RouterModel.OnShowPage(old(State()))
    {
      if switchedComponent.Some? {
        ShowComponent(switchedComponent.value);
        switchedComponent := None;
      }
    }

    /** The REQUEST_NAVIGATE handler; `pathname` is the document's current pathname. */
    method OnRequestNavigate(request: NavigationRequest, pathname: string)
      requires Valid()
      modifies this
      ensures Valid() && State() == RouterModel.OnRequestNavigate(old(State()), request, pathname)
    {
      var url := ResolveRequestUrl(request.url, pathname);
      if (routerBaseUrl != "" && StartsWith(url, routerBaseUrl))
         || (routerBaseUrl == "" && FindMatchingRoute(routes, url).Some?) {
        var history := if request.replaceHistory then HistoryReplace(url) else HistoryPush(url);
        log := log + [history, NavigateSelf(NavigationData(url, routerBaseUrl, routerBaseUrl, request.parameters))];
      } else {
        log := log + [ForwardRequest(request)];
      }
    }
  }
}
