/**
 * The router's navigation state machine as values. The closure state of
 * `Router.js` is a `RouterState`; every handler and every asynchronous
 * continuation of the source (the settling of a component promise, a module
 * load, a readiness signal, a deferred microtask) is a step function from one
 * state to the next. Events the router emits, history updates and view swaps
 * are appended to the state's `log`. The class in module `Router` implements
 * each step in place.
 */
module RouterModel {
  import opened NavigationUtils

  /** Components are identified by number: `destroyed[c]` is component `c`'s flag. */
  type ComponentId = nat
  /** Routes are identified by their position in registration order. */
  type RouteId = nat

  /** The three pages the router is built with. */
  const LoadingPage: ComponentId := 0
  const NotFoundPage: ComponentId := 1
  const ErrorPage: ComponentId := 2

  /** How a route obtains its component: the mutually exclusive optional fields of a route record. */
  datatype RouteView =
    | StaticView(instance: ComponentId)
    | ConstructedView(ctor: nat)
    | LazyView(path: string, componentName: string)

  datatype Route = Route(pattern: Pattern, view: RouteView, parameters: map<string, Value>)

  /**
   * The `view` argument of `addComponent`: a string, a value with `getNode`
   * (a component the router already knows, or one it has not seen), or
   * anything else, which is taken as a constructor.
   */
  datatype ViewArg =
    | PathArg(path: string)
    | NodeArg(known: Option<ComponentId>)
    | ConstructorArg(ctor: nat)

  /** What a loaded module holds under an export name. */
  datatype ModuleExport =
    | ObjectExport(known: Option<ComponentId>)  // a non-null object: used as the component itself
    | ConstructorExport                         // instantiated with `new`
    | OtherExport                               // instantiating or using it throws (undefined, null, a string, ...)

  /** How the module loader's promise settles. */
  datatype LoadOutcome = Loaded(exports: map<string, ModuleExport>) | LoadFailed

  /** The data of a NAVIGATE or AFTER_NAVIGATION event. */
  datatype NavigationData = NavigationData(url: string, consumedUrl: string, routerBaseUrl: string,
                                           parameters: map<string, Value>)

  /** A REQUEST_NAVIGATE event; absent parameters are the empty map. */
  datatype NavigationRequest = NavigationRequest(url: string, parameters: map<string, Value>, replaceHistory: bool)

  /** The error a SHOW_ERROR event carries: none, one whose message is NOT_FOUND, or any other. */
  datatype ShownError = NoError | NotFoundError | OtherError

  /** Everything the router does outside its own state. */
  datatype Effect =
    | Swapped(from: ComponentId, to: ComponentId)           // view replaced in the page, scrolled to the top
    | NavigateTo(component: ComponentId, data: NavigationData)
    | BeforeNavigation(url: string, consumedUrl: string, routerBaseUrl: string)
    | AfterNavigation(data: NavigationData)
    | NavigateEventResolved                                  // no further NAVIGATE listener sees the event
    | RequestNavigate(url: string, replaceHistory: bool)    // the deferred request for the fallback URL
    | CheckVersion
    | HistoryPush(url: string)
    | HistoryReplace(url: string)
    | NavigateSelf(data: NavigationData)                     // NAVIGATE triggered on the router itself
    | ForwardRequest(request: NavigationRequest)             // REQUEST_NAVIGATE re-emitted upward

  /** The arguments of one `navigate` call. */
  datatype NavigateCall = NavigateCall(route: RouteId, url: string, consumedUrl: string,
                                       matchingUrlPart: string, dynamicParameters: map<string, Value>)

  /** How the promise of `getComponentForRoute` settled. */
  datatype Settlement = Resolved(component: ComponentId) | Rejected

  /** The asynchronous work a navigation is waiting for. */
  datatype Pending =
    | ModuleLoading(call: NavigateCall, importPath: string)   // `dynamicImport(importPath)` in flight
    | Settled(call: NavigateCall, settlement: Settlement)      // its `then`/`catch` callback is queued
    | ReadyWait(call: NavigateCall, component: ComponentId, data: NavigationData)  // `whenReady()` in flight

  /** The closure state of one router. `caches[r]` is `routes[r].components`. */
  datatype RouterState = RouterState(
    routes: seq<Route>, caches: seq<map<string, ComponentId>>, destroyed: seq<bool>,
    currentComponent: ComponentId, currentRoute: Option<RouteId>, currentUrl: Option<string>,
    routerBaseUrl: string, fallbackUrl: Option<string>, parameters: map<string, Value>,
    switchedComponent: Option<ComponentId>, baseViewPath: string, loadingText: Option<string>,
    pending: map<nat, Pending>, nextTicket: nat, deferredFallbacks: nat, log: seq<Effect>)

  // ---------------------------------------------------------------- the invariant

  predicate RoutesValid(routes: seq<Route>, count: nat)
  {
    forall r :: 0 <= r < |routes| && routes[r].view.StaticView? ==> routes[r].view.instance < count
  }

  predicate CachesValid(caches: seq<map<string, ComponentId>>, count: nat)
  {
    forall r, u :: 0 <= r < |caches| && u in caches[r] ==> caches[r][u] < count
  }

  predicate PendingValid(p: Pending, routes: seq<Route>, count: nat)
  {
    && p.call.route < |routes|
    && match p
       case ModuleLoading(call, _) => routes[call.route].view.LazyView?
       case Settled(_, s) => s.Resolved? ==> s.component < count
       case ReadyWait(_, c, _) => c < count
  }

  predicate PendingsValid(pending: map<nat, Pending>, nextTicket: nat, routes: seq<Route>, count: nat)
  {
    forall t :: t in pending ==> t < nextTicket && PendingValid(pending[t], routes, count)
  }

  /**
   * Every component the state mentions exists, every route it mentions is
   * registered, every route has a cache, a module load belongs to a lazy
   * route, tickets still to be issued are not in use, and a deferred fallback
   * request has a fallback URL to ask for.
   */
  predicate ValidState(s: RouterState)
  {
    && |s.caches| == |s.routes|
    && |s.destroyed| >= 3
    && RoutesValid(s.routes, |s.destroyed|)
    && CachesValid(s.caches, |s.destroyed|)
    && s.currentComponent < |s.destroyed|
    && (s.currentRoute.Some? ==> s.currentRoute.value < |s.routes|)
    && (s.switchedComponent.Some? ==> s.switchedComponent.value < |s.destroyed|)
    && PendingsValid(s.pending, s.nextTicket, s.routes, |s.destroyed|)
    && (s.deferredFallbacks > 0 ==> s.fallbackUrl.Some?)
  }

  // ---------------------------------------------------------------- pure parts of the router

  /** `routes.find(route => isMatchingUrl(url, route.url))`: the first matching route in registration order. */
  function FindMatchingRoute(routes: seq<Route>, url: string): (r: Option<RouteId>)
    ensures r.Some? ==> r.value < |routes| && IsMatchingUrl(url, routes[r.value].pattern)
    ensures r.Some? ==> forall j :: 0 <= j < r.value ==> !IsMatchingUrl(url, routes[j].pattern)
    ensures r.None? <==> forall j :: 0 <= j < |routes| ==> !IsMatchingUrl(url, routes[j].pattern)
  {
    FirstMatchFrom(routes, url, 0)
  }

  function FirstMatchFrom(routes: seq<Route>, url: string, from: nat): (r: Option<RouteId>)
    requires from <= |routes|
    ensures r.Some? ==> from <= r.value < |routes| && IsMatchingUrl(url, routes[r.value].pattern)
    ensures r.Some? ==> forall j :: from <= j < r.value ==> !IsMatchingUrl(url, routes[j].pattern)
    ensures r.None? <==> forall j :: from <= j < |routes| ==> !IsMatchingUrl(url, routes[j].pattern)
    decreases |routes| - from
  {
    if from == |routes| then None
    else if IsMatchingUrl(url, routes[from].pattern) then Some(from)
    else FirstMatchFrom(routes, url, from + 1)
  }

  /** `route.parameters.alwaysReload`, as JavaScript tests it. */
  predicate AlwaysReload(route: Route)
  {
    "alwaysReload" in route.parameters && Truthy(route.parameters["alwaysReload"])
  }

  /** The incoming `consumedUrl` of a NAVIGATE event: missing, empty or `/` all mean nothing consumed. */
  function NormaliseConsumedUrl(consumedUrl: Option<string>): (r: string)
    ensures r == "" <==> consumedUrl in {None, Some(""), Some("/")}
    ensures r != "" ==> consumedUrl == Some(r)
  {
    match consumedUrl
    case None => ""
    case Some(c) => if c == "/" then "" else c
  }

  /** The module path handed to the loader: a leading `/src/` is removed. */
  function StripSourceRoot(path: string): (r: string)
    ensures StartsWith(path, "/src/") ==> path == "/src/" + r
    ensures !StartsWith(path, "/src/") ==> r == path
  {
    if StartsWith(path, "/src/") then path[|"/src/"|..] else path
  }

  /** `route.componentName || "default"` */
  function ExportName(componentName: string): (r: string)
    ensures r != ""
    ensures componentName != "" ==> r == componentName
    ensures componentName == "" ==> r == "default"
  {
    if componentName == "" then "default" else componentName
  }

  /** `module[name]`; a missing export is undefined. */
  function Exported(outcome: LoadOutcome, name: string): ModuleExport
  {
    if outcome.Loaded? && name in outcome.exports then outcome.exports[name] else OtherExport
  }

  /** The parameters of the NAVIGATE event a component receives: the URL's parameters win over the dynamic ones. */
  function NavigationParameters(call: NavigateCall, route: Route): (r: map<string, Value>)
    ensures var fromUrl := UrlParameters(call.matchingUrlPart, route.pattern, route.parameters);
            && (forall k :: k in r <==> k in call.dynamicParameters || k in fromUrl)
            && (forall k :: k in fromUrl ==> r[k] == fromUrl[k])
            && (forall k :: k in call.dynamicParameters && k !in fromUrl ==> r[k] == call.dynamicParameters[k])
  {
    call.dynamicParameters + UrlParameters(call.matchingUrlPart, route.pattern, route.parameters)
  }

  /** `triggerNewNavigateEvent`'s event data, with the base URL the router holds when it runs. */
  function NavigateEventData(s: RouterState, call: NavigateCall): NavigationData
    requires call.route < |s.routes|
  {
    NavigationData(call.url, call.consumedUrl, s.routerBaseUrl, NavigationParameters(call, s.routes[call.route]))
  }

  /** A relative URL requested for navigation, resolved against the current pathname with one `/` between. */
  function ResolveRequestUrl(url: string, pathname: string): (r: string)
    ensures StartsWithSlash(url) ==> r == url
    ensures !StartsWithSlash(url) ==> exists p :: (p == pathname || p == pathname + "/") && EndsWithSlash(p) && r == p + url
    ensures !StartsWithSlash(url) && EndsWithSlash(pathname) ==> r == pathname + url
  {
    if StartsWithSlash(url) then url
    else if EndsWithSlash(pathname) then pathname + url
    else pathname + "/" + url
  }

  /**
   * Whether a router takes a navigation request: its base URL is non-empty
   * and begins the URL, or it has no base URL and one of its routes matches.
   */
  predicate Claims(s: RouterState, url: string)
    ensures s.routerBaseUrl != "" ==> (Claims(s, url) <==> StartsWith(url, s.routerBaseUrl))
    ensures s.routerBaseUrl == "" ==>
              (Claims(s, url) <==> exists r :: 0 <= r < |s.routes| && IsMatchingUrl(url, s.routes[r].pattern))
  {
    (s.routerBaseUrl != "" && StartsWith(url, s.routerBaseUrl))
    || (s.routerBaseUrl == "" && FindMatchingRoute(s.routes, url).Some?)
  }

  predicate IsLive(destroyed: seq<bool>, c: ComponentId)
  {
    c < |destroyed| && !destroyed[c]
  }

  /** `caches` with component `c` stored for `url` in the cache of route `r`. */
  function WithCached(caches: seq<map<string, ComponentId>>, r: RouteId, url: string, c: ComponentId): seq<map<string, ComponentId>>
    requires r < |caches|
  {
    var cache: map<string, ComponentId> := caches[r][url := c];
    caches[r := cache]
  }

  // ---------------------------------------------------------------- steps

  /** `new Router(dynamicImport, loadingPage, notFoundPage, errorPage)`: no routes, the loading page current. */
  function Init(): (s: RouterState)
    ensures ValidState(s)
    ensures s.routes == [] && s.currentComponent == LoadingPage && s.pending == map[] && s.log == []
    ensures forall c :: 0 <= c < |s.destroyed| ==> !s.destroyed[c]
  {
    RouterState([], [], [false, false, false], LoadingPage, None, None, "", None, map[],
                None, "", None, map[], 0, 0, [])
  }

  /** `setViewsBasePath(path)`: only later registrations see the new base path. */
  function SetViewsBasePath(s: RouterState, path: string): (r: RouterState)
    requires ValidState(s)
    ensures ValidState(r)
    ensures r == s.(baseViewPath := path)
  {
    s.(baseViewPath := path)
  }

  /** `setFallbackRoute(url)`: only the URL of the fallback is ever used. */
  function SetFallbackRoute(s: RouterState, url: string): (r: RouterState)
    requires ValidState(s)
    ensures ValidState(r)
    ensures r == s.(fallbackUrl := Some(url))
  {
    s.(fallbackUrl := Some(url))
  }

  /** The route `addComponent` registers for a view argument. */
  function ViewOf(view: ViewArg, baseViewPath: string, componentName: Option<string>, newId: ComponentId): RouteView
  {
    match view
    case PathArg(p) => LazyView(baseViewPath + p, match componentName case Some(n) => n case None => "default")
    case NodeArg(known) => StaticView(match known case Some(c) => c case None => newId)
    case ConstructorArg(k) => ConstructedView(k)
  }

  /**
   * `addComponent(url, view, parameters, componentName)`: appends exactly one
   * route with an empty cache and changes nothing else. A string view is a
   * lazy module path under the views base path, a value with `getNode` a
   * static instance, anything else a constructor.
   */
  function AddComponent(s: RouterState, url: Pattern, view: ViewArg, parameters: map<string, Value>,
                        componentName: Option<string>): (r: RouterState)
    requires ValidState(s)
    requires view.NodeArg? && view.known.Some? ==> view.known.value < |s.destroyed|
    ensures ValidState(r)
    ensures |r.routes| == |s.routes| + 1
    ensures r.routes == s.routes + [Route(url, r.routes[|s.routes|].view, parameters)]
    ensures r.caches == s.caches + [map[]]
    ensures view.PathArg? <==> r.routes[|s.routes|].view.LazyView?
    ensures view.NodeArg? <==> r.routes[|s.routes|].view.StaticView?
    ensures view.ConstructorArg? <==> r.routes[|s.routes|].view.ConstructedView?
    ensures view.PathArg? ==> r.routes[|s.routes|].view.path == s.baseViewPath + view.path
    ensures view.PathArg? ==>
              r.routes[|s.routes|].view.componentName == (if componentName.Some? then componentName.value else "default")
    ensures view.PathArg? ==>
              ExportName(r.routes[|s.routes|].view.componentName)
              == (if componentName.Some? && componentName.value != "" then componentName.value else "default")
    ensures view.ConstructorArg? ==> r.routes[|s.routes|].view.ctor == view.ctor
    ensures view.NodeArg? && view.known.Some? ==> r.routes[|s.routes|].view.instance == view.known.value
    ensures view.NodeArg? && view.known.None? ==>
              r.routes[|s.routes|].view.instance == |s.destroyed| && r.destroyed == s.destroyed + [false]
    ensures !(view.NodeArg? && view.known.None?) ==> r.destroyed == s.destroyed
    ensures r == s.(routes := r.routes, caches := r.caches, destroyed := r.destroyed)
  {
    var destroyed := if view.NodeArg? && view.known.None? then s.destroyed + [false] else s.destroyed;
    var route := Route(url, ViewOf(view, s.baseViewPath, componentName, |s.destroyed|), parameters);
    s.(routes := s.routes + [route], caches := s.caches + [map[]], destroyed := destroyed)
  }

  /** `showComponent(newComponent)`: the view is swapped only when the component is a different one. */
  function ShowComponent(s: RouterState, c: ComponentId): (r: RouterState)
    requires ValidState(s) && c < |s.destroyed|
    ensures ValidState(r)
    ensures r.currentComponent == c
    ensures s.currentComponent == c ==> r == s
    ensures s.currentComponent != c ==> r.log == s.log + [Swapped(s.currentComponent, c)]
    ensures r == s.(currentComponent := c, log := r.log)
  {
    if s.currentComponent == c then s
    else s.(currentComponent := c, log := s.log + [Swapped(s.currentComponent, c)])
  }

  /** `route.components[consumedUrl] = component`, skipped when the route has `alwaysReload`. */
  function CacheComponent(s: RouterState, route: RouteId, url: string, c: ComponentId): (r: RouterState)
    requires ValidState(s) && route < |s.routes| && c < |s.destroyed|
    ensures ValidState(r)
    ensures AlwaysReload(s.routes[route]) ==> r == s
    ensures !AlwaysReload(s.routes[route]) ==>
              && |r.caches| == |s.caches|
              && r.caches[route] == s.caches[route][url := c]
              && forall q :: 0 <= q < |s.caches| && q != route ==> r.caches[q] == s.caches[q]
    ensures r == s.(caches := r.caches)
  {
    if AlwaysReload(s.routes[route]) then s else s.(caches := WithCached(s.caches, route, url, c))
  }

  /** Records that the navigation waits for `p`, under the next ticket. */
  function AddPending(s: RouterState, p: Pending): (r: RouterState)
    requires ValidState(s) && PendingValid(p, s.routes, |s.destroyed|)
    ensures ValidState(r)
    ensures s.nextTicket !in s.pending && r.pending == s.pending[s.nextTicket := p]
    ensures r == s.(pending := r.pending, nextTicket := s.nextTicket + 1)
  {
    s.(pending := s.pending[s.nextTicket := p], nextTicket := s.nextTicket + 1)
  }

  /**
   * The synchronous part of `getComponentForRoute(route, consumedUrl)`. The
   * first of these that applies wins: a live static instance; a live cache
   * entry for exactly `consumedUrl`; a freshly constructed instance, cached
   * unless the route has `alwaysReload`. Otherwise the loading page is shown
   * with "Waiting" and the module is requested without `/src/` — or, for a
   * static route whose instance is destroyed, which has no path, the promise
   * rejects. The navigation waits under the next ticket either way.
   */
  function GetComponentForRoute(s: RouterState, call: NavigateCall): (r: RouterState)
    requires ValidState(s) && call.route < |s.routes|
    ensures ValidState(r)
    ensures r.nextTicket == s.nextTicket + 1 && s.nextTicket !in s.pending
    ensures s.nextTicket in r.pending && r.pending == s.pending[s.nextTicket := r.pending[s.nextTicket]]
    ensures r.pending[s.nextTicket].call == call
    ensures var route := s.routes[call.route];
            var cache := s.caches[call.route];
            var url := call.consumedUrl;
            var waiting := s.(pending := r.pending, nextTicket := r.nextTicket);
            && (route.view.StaticView? && IsLive(s.destroyed, route.view.instance) ==>
                  r == waiting && r.pending[s.nextTicket] == Settled(call, Resolved(route.view.instance)))
            && (!(route.view.StaticView? && IsLive(s.destroyed, route.view.instance)) &&
                url in cache && IsLive(s.destroyed, cache[url]) ==>
                  r == waiting && r.pending[s.nextTicket] == Settled(call, Resolved(cache[url])))
            && (!(route.view.StaticView? && IsLive(s.destroyed, route.view.instance)) &&
                !(url in cache && IsLive(s.destroyed, cache[url])) && route.view.ConstructedView? ==>
                  && r.pending[s.nextTicket] == Settled(call, Resolved(|s.destroyed|))
                  && r.destroyed == s.destroyed + [false]
                  && r.caches == (if AlwaysReload(route) then s.caches else WithCached(s.caches, call.route, url, |s.destroyed|))
                  && r == waiting.(destroyed := r.destroyed, caches := r.caches))
            && (!(route.view.StaticView? && IsLive(s.destroyed, route.view.instance)) &&
                !(url in cache && IsLive(s.destroyed, cache[url])) && !route.view.ConstructedView? ==>
                  && r.loadingText == Some("Waiting")
                  && r.currentComponent == LoadingPage
                  && r == ShowComponent(s.(loadingText := Some("Waiting")), LoadingPage).(pending := r.pending, nextTicket := r.nextTicket)
                  && r.pending[s.nextTicket] == if route.view.LazyView? then ModuleLoading(call, StripSourceRoot(route.view.path))
                                                 else Settled(call, Rejected))
  {
    var route := s.routes[call.route];
    var cache := s.caches[call.route];
    var url := call.consumedUrl;
    if route.view.StaticView? && IsLive(s.destroyed, route.view.instance) then
      AddPending(s, Settled(call, Resolved(route.view.instance)))
    else if url in cache && IsLive(s.destroyed, cache[url]) then
      AddPending(s, Settled(call, Resolved(cache[url])))
    else if route.view.ConstructedView? then
      Construct(s, call)
    else
      RequestModule(s, call)
  }

  /** A constructed route's new instance, cached unless the route has `alwaysReload`, waiting under the next ticket. */
  function Construct(s: RouterState, call: NavigateCall): (r: RouterState)
    requires ValidState(s) && call.route < |s.routes|
    ensures ValidState(r)
    ensures var url := call.consumedUrl;
            var route := s.routes[call.route];
            && s.nextTicket !in s.pending
            && r.pending == s.pending[s.nextTicket := Settled(call, Resolved(|s.destroyed|))]
            && r.destroyed == s.destroyed + [false]
            && r.caches == (if AlwaysReload(route) then s.caches else WithCached(s.caches, call.route, url, |s.destroyed|))
            && r == s.(pending := r.pending, nextTicket := s.nextTicket + 1, destroyed := r.destroyed, caches := r.caches)
  {
    var c := |s.destroyed|;
    var created := s.(destroyed := s.destroyed + [false]);
    AddPending(CacheComponent(created, call.route, call.consumedUrl, c), Settled(call, Resolved(c)))
  }

  /** The loading page shown with "Waiting" while a lazy route's module is requested, or a rejection without a path. */
  function RequestModule(s: RouterState, call: NavigateCall): (r: RouterState)
    requires ValidState(s) && call.route < |s.routes|
    ensures ValidState(r)
    ensures var route := s.routes[call.route];
            && s.nextTicket !in s.pending
            && r.loadingText == Some("Waiting")
            && r.currentComponent == LoadingPage
            && s.nextTicket in r.pending && r.pending == s.pending[s.nextTicket := r.pending[s.nextTicket]]
            && r == ShowComponent(s.(loadingText := Some("Waiting")), LoadingPage).(pending := r.pending, nextTicket := s.nextTicket + 1)
            && r.pending[s.nextTicket] == if route.view.LazyView? then ModuleLoading(call, StripSourceRoot(route.view.path))
                                           else Settled(call, Rejected)
  {
    var route := s.routes[call.route];
    var shown := ShowComponent(s.(loadingText := Some("Waiting")), LoadingPage);
    if route.view.LazyView? then AddPending(shown, ModuleLoading(call, StripSourceRoot(route.view.path)))
    else AddPending(shown, Settled(call, Rejected))
  }

  /** Whether `navigate` for a consumed URL has nothing to resolve. */
  predicate SameUrl(s: RouterState, consumedUrl: string)
  {
    IsSameUrl(s.currentUrl, Some(consumedUrl))
  }

  /** Whether `navigate` destroys the component of an `alwaysReload` current route. */
  predicate ReloadsCurrent(s: RouterState)
  {
    s.currentRoute.Some? && s.currentRoute.value < |s.routes| && AlwaysReload(s.routes[s.currentRoute.value])
  }

  /** The first effect of `navigate` to a new URL: an `alwaysReload` current route's component is destroyed and `currentUrl` forgotten. */
  function ReloadCurrent(s: RouterState): (r: RouterState)
    requires ValidState(s)
    ensures ValidState(r)
    ensures ReloadsCurrent(s) ==>
              && |r.destroyed| == |s.destroyed| && r.destroyed[s.currentComponent]
              && (forall c :: 0 <= c < |s.destroyed| && c != s.currentComponent ==> r.destroyed[c] == s.destroyed[c])
              && r.currentUrl.None?
    ensures !ReloadsCurrent(s) ==> r == s
    ensures r == s.(destroyed := r.destroyed, currentUrl := r.currentUrl)
  {
    if ReloadsCurrent(s) then s.(destroyed := s.destroyed[s.currentComponent := true], currentUrl := None) else s
  }

  /**
   * `navigate(route, url, consumedUrl, matchingUrlPart, dynamicParameters)`.
   * The same URL as the current one only re-sends NAVIGATE to the current
   * component. Otherwise an `alwaysReload` current route has its component
   * destroyed and `currentUrl` cleared, `currentRoute` becomes the target —
   * the token later results are checked against — and resolution starts.
   */
  function Navigate(s: RouterState, call: NavigateCall): (r: RouterState)
    requires ValidState(s) && call.route < |s.routes|
    ensures ValidState(r)
    ensures SameUrl(s, call.consumedUrl) ==>
              r == s.(log := s.log + [NavigateTo(s.currentComponent, NavigateEventData(s, call))])
    ensures !SameUrl(s, call.consumedUrl) ==>
              r == GetComponentForRoute(ReloadCurrent(s).(currentRoute := Some(call.route)), call)
  {
    if SameUrl(s, call.consumedUrl) then
      s.(log := s.log + [NavigateTo(s.currentComponent, NavigateEventData(s, call))])
    else
      GetComponentForRoute(ReloadCurrent(s).(currentRoute := Some(call.route)), call)
  }

  /** The NAVIGATE handler's target route for an event, if any. */
  function MatchedRoute(s: RouterState, url: string, consumedUrl: Option<string>): Option<RouteId>
  {
    FindMatchingRoute(s.routes, Suffix(url, |NormaliseConsumedUrl(consumedUrl)|))
  }

  /**
   * The NAVIGATE handler. The part of `url` after the incoming consumed URL is
   * matched against the routes. With no match the router either defers a
   * replace-history request for the fallback URL and resolves the event,
   * leaving its state alone, or forgets its route and shows the not-found
   * page. With a match it extends the consumed URL by what the route claims,
   * merges the event's parameters over the retained ones, takes the incoming
   * consumed URL as its base URL and navigates.
   */
  function OnNavigate(s: RouterState, url: string, consumedUrl: Option<string>, navParameters: map<string, Value>): (r: RouterState)
    requires ValidState(s)
    ensures ValidState(r)
  {
    var prev := NormaliseConsumedUrl(consumedUrl);
    var part := Suffix(url, |prev|);
    match FindMatchingRoute(s.routes, part)
    case None =>
      if s.fallbackUrl.Some? then
        // The fallback request is made once the current event has been handled.
        s.(deferredFallbacks := s.deferredFallbacks + 1, log := s.log + [NavigateEventResolved])
      else
        ShowComponent(s.(currentRoute := None), NotFoundPage)
    case Some(route) =>
      NavigateToMatch(s, url, prev, part, route, navParameters)
  }

  /**
   * The NAVIGATE handler once route `route` matches `part`, what is left of
   * `url` after the incoming consumed URL `prev`: the consumed URL grows by
   * what the route claims, the event's parameters are merged over the
   * retained ones, `prev` becomes the base URL, and the router navigates.
   */
  function NavigateToMatch(s: RouterState, url: string, prev: string, part: string, route: RouteId,
                           navParameters: map<string, Value>): (r: RouterState)
    requires ValidState(s) && route < |s.routes| && IsMatchingUrl(part, s.routes[route].pattern)
    ensures ValidState(r)
  {
    var consumed := ConsumeUrl(part, s.routes[route].pattern);
    assert consumed.Success?;
    var newConsumed := ConcatenateUrls([Some(prev), Some(consumed.value)]);
    var merged := s.(parameters := s.parameters + navParameters, routerBaseUrl := prev);
    Navigate(merged, NavigateCall(route, url, newConsumed, part, merged.parameters))
  }

  /** The microtask deferred by OnNavigate: REQUEST_NAVIGATE for the fallback URL as it is now, replacing history. */
  function RunDeferredFallback(s: RouterState): (r: RouterState)
    requires ValidState(s) && s.deferredFallbacks > 0
    ensures ValidState(r)
    ensures r == s.(deferredFallbacks := s.deferredFallbacks - 1,
                    log := s.log + [RequestNavigate(s.fallbackUrl.value, true)])
  {
    s.(deferredFallbacks := s.deferredFallbacks - 1, log := s.log + [RequestNavigate(s.fallbackUrl.value, true)])
  }

  /** The components a loaded module may name exist. */
  predicate OutcomeValid(outcome: LoadOutcome, count: nat)
  {
    outcome.Loaded? ==>
      forall n :: n in outcome.exports && outcome.exports[n].ObjectExport? && outcome.exports[n].known.Some?
                  ==> outcome.exports[n].known.value < count
  }

  /**
   * The module loader settles for the navigation waiting at `ticket`. The
   * export the route names (by default "default") is used as it is when it is
   * an object and instantiated otherwise, and cached unless the route has
   * `alwaysReload`. A failed load, or an export that cannot be used, resolves
   * with the error page, caches nothing and asks for a version check. The
   * token is not consulted at this step.
   */
  function CompleteModuleLoad(s: RouterState, ticket: nat, outcome: LoadOutcome): (r: RouterState)
    requires ValidState(s) && ticket in s.pending && s.pending[ticket].ModuleLoading?
    requires OutcomeValid(outcome, |s.destroyed|)
    ensures ValidState(r)
    ensures r.currentRoute == s.currentRoute && r.currentComponent == s.currentComponent && r.currentUrl == s.currentUrl
    ensures ticket in r.pending && r.pending == s.pending[ticket := r.pending[ticket]]
    ensures var call := s.pending[ticket].call;
            var route := s.routes[call.route];
            var exported := Exported(outcome, ExportName(route.view.componentName));
            && r.pending[ticket].Settled? && r.pending[ticket].call == call
            && (exported.OtherExport? ==>
                  r == s.(pending := r.pending, log := s.log + [CheckVersion])
                  && r.pending[ticket].settlement == Resolved(ErrorPage))
            && (exported.ObjectExport? && exported.known.Some? ==>
                  r == CacheComponent(s, call.route, call.consumedUrl, exported.known.value).(pending := r.pending)
                  && r.pending[ticket].settlement == Resolved(exported.known.value))
            && (exported == ConstructorExport || exported == ObjectExport(None) ==>
                  && r.destroyed == s.destroyed + [false]
                  && r == CacheComponent(s.(destroyed := r.destroyed), call.route, call.consumedUrl, |s.destroyed|).(pending := r.pending)
                  && r.pending[ticket].settlement == Resolved(|s.destroyed|))
  {
    var call := s.pending[ticket].call;
    var route := s.routes[call.route];
    match Exported(outcome, ExportName(route.view.componentName))
    case OtherExport =>
      // The load failed, or using the export threw: the error page stands in for the component.
      s.(pending := s.pending[ticket := Settled(call, Resolved(ErrorPage))], log := s.log + [CheckVersion])
    case ObjectExport(Some(c)) =>
      LoadedComponent(s, ticket, c)
    case _ =>
      LoadedComponent(s.(destroyed := s.destroyed + [false]), ticket, |s.destroyed|)
  }

  /** The navigation at `ticket` resolves with the loaded component `c`, cached unless the route has `alwaysReload`. */
  function LoadedComponent(s: RouterState, ticket: nat, c: ComponentId): (r: RouterState)
    requires ValidState(s) && ticket in s.pending && s.pending[ticket].ModuleLoading? && c < |s.destroyed|
    ensures ValidState(r)
    ensures var call := s.pending[ticket].call;
            && r.pending == s.pending[ticket := Settled(call, Resolved(c))]
            && r.caches == (if AlwaysReload(s.routes[call.route]) then s.caches
                            else WithCached(s.caches, call.route, call.consumedUrl, c))
            && r == s.(pending := r.pending, caches := r.caches)
  {
    var call := s.pending[ticket].call;
    CacheComponent(s, call.route, call.consumedUrl, c).(pending := s.pending[ticket := Settled(call, Resolved(c))])
  }

  /**
   * The callback on the settled component promise. A component is applied
   * only while the navigation's route is still `currentRoute`: then
   * BEFORE_NAVIGATION and the component's NAVIGATE event go out and the router
   * waits for the component to be ready. A stale result is dropped and
   * changes nothing else. A rejected promise shows the error page, whatever
   * the current route.
   */
  function CompleteResolution(s: RouterState, ticket: nat): (r: RouterState)
    requires ValidState(s) && ticket in s.pending && s.pending[ticket].Settled?
    ensures ValidState(r)
    ensures r.currentRoute == s.currentRoute && r.currentUrl == s.currentUrl
    ensures var call := s.pending[ticket].call;
            var settlement := s.pending[ticket].settlement;
            && (settlement.Rejected? ==> r == ShowComponent(s.(pending := s.pending - {ticket}), ErrorPage))
            && (settlement.Resolved? && s.currentRoute != Some(call.route) ==> r == s.(pending := s.pending - {ticket}))
            && (settlement.Resolved? && s.currentRoute == Some(call.route) ==>
                  var data := NavigateEventData(s, call);
                  r == s.(pending := s.pending[ticket := ReadyWait(call, settlement.component, data)],
                          log := s.log + [BeforeNavigation(call.url, call.consumedUrl, s.routerBaseUrl),
                                          NavigateTo(settlement.component, data)]))
  {
    var call := s.pending[ticket].call;
    match s.pending[ticket].settlement
    case Rejected =>
      ShowComponent(s.(pending := s.pending - {ticket}), ErrorPage)
    case Resolved(c) =>
      if s.currentRoute != Some(call.route) then
        // A newer navigation changed the current route while this one was resolving.
        s.(pending := s.pending - {ticket})
      else
        var data := NavigateEventData(s, call);
        s.(pending := s.pending[ticket := ReadyWait(call, c, data)],
           log := s.log + [BeforeNavigation(call.url, call.consumedUrl, s.routerBaseUrl), NavigateTo(c, data)])
  }

  /**
   * The component signals it is ready: it is shown, `currentUrl` becomes the
   * navigation's consumed URL and AFTER_NAVIGATION goes out. The token is not
   * checked again at this step, so the component is shown even when the
   * current route has changed since its resolution was applied.
   */
  function CompleteReady(s: RouterState, ticket: nat): (r: RouterState)
    requires ValidState(s) && ticket in s.pending && s.pending[ticket].ReadyWait?
    ensures ValidState(r)
    ensures r.currentComponent == s.pending[ticket].component
    ensures r.currentUrl == Some(s.pending[ticket].call.consumedUrl)
    ensures r.currentRoute == s.currentRoute && r.pending == s.pending - {ticket}
    ensures r == ShowComponent(s.(pending := s.pending - {ticket}), s.pending[ticket].component)
                 .(currentUrl := r.currentUrl, log := r.log)
    ensures r.log == ShowComponent(s, s.pending[ticket].component).log + [AfterNavigation(s.pending[ticket].data)]
  {
    var w := s.pending[ticket];
    var shown := ShowComponent(s.(pending := s.pending - {ticket}), w.component);
    shown.(currentUrl := Some(w.call.consumedUrl), log := shown.log + [AfterNavigation(w.data)])
  }

  /** SHOW_NOT_FOUND: remembers the current component and shows the not-found page. */
  function OnShowNotFound(s: RouterState): (r: RouterState)
    requires ValidState(s)
    ensures ValidState(r)
    ensures r.switchedComponent == Some(s.currentComponent) && r.currentComponent == NotFoundPage
    ensures r == ShowComponent(s, NotFoundPage).(switchedComponent := Some(s.currentComponent))
  {
    ShowComponent(s.(switchedComponent := Some(s.currentComponent)), NotFoundPage)
  }

  /** SHOW_ERROR: a NOT_FOUND error acts as SHOW_NOT_FOUND; any other shows the error page and remembers nothing. */
  function OnShowError(s: RouterState, error: ShownError): (r: RouterState)
    requires ValidState(s)
    ensures ValidState(r)
    ensures error.NotFoundError? ==> r == OnShowNotFound(s)
    ensures !error.NotFoundError? ==> r == ShowComponent(s, ErrorPage) && r.switchedComponent == s.switchedComponent
  {
    if error.NotFoundError? then ShowComponent(s.(switchedComponent := Some(s.currentComponent)), NotFoundPage)
    else ShowComponent(s, ErrorPage)
  }

  /** SHOW_LOADING: remembers the current component, sets a non-empty text on the loading page and shows it. */
  function OnShowLoading(s: RouterState, text: Option<string>): (r: RouterState)
    requires ValidState(s)
    ensures ValidState(r)
    ensures r.switchedComponent == Some(s.currentComponent) && r.currentComponent == LoadingPage
    ensures r.loadingText == if text.Some? && text.value != "" then text else s.loadingText
    ensures r == ShowComponent(s, LoadingPage).(switchedComponent := r.switchedComponent, loadingText := r.loadingText)
  {
    var labelled := if text.Some? && text.value != "" then s.(loadingText := text) else s;
    ShowComponent(labelled.(switchedComponent := Some(s.currentComponent)), LoadingPage)
  }

  /** SHOW_PAGE: brings back the remembered component, if any, and forgets it. */
  function OnShowPage(s: RouterState): (r: RouterState)
    requires ValidState(s)
    ensures ValidState(r)
    ensures r.switchedComponent.None?
    ensures s.switchedComponent.None? ==> r == s
    ensures s.switchedComponent.Some? ==>
              r == ShowComponent(s, s.switchedComponent.value).(switchedComponent := None)
  {
    match s.switchedComponent
    case None => s
    case Some(c) => ShowComponent(s, c).(switchedComponent := None)
  }

  /**
   * REQUEST_NAVIGATE: a relative URL is resolved against the current
   * pathname. A claimed request updates history and triggers NAVIGATE on this
   * router with its base URL as the consumed URL; any other request is passed
   * upward as it came. Either way the state apart from the log is untouched.
   */
  function OnRequestNavigate(s: RouterState, request: NavigationRequest, pathname: string): (r: RouterState)
    requires ValidState(s)
    ensures ValidState(r)
    ensures r == s.(log := r.log)
    ensures var url := ResolveRequestUrl(request.url, pathname);
            && (Claims(s, url) ==>
                  r.log == s.log + [if request.replaceHistory then HistoryReplace(url) else HistoryPush(url),
                                    NavigateSelf(NavigationData(url, s.routerBaseUrl, s.routerBaseUrl, request.parameters))])
            && (!Claims(s, url) ==> r.log == s.log + [ForwardRequest(request)])
  {
    var url := ResolveRequestUrl(request.url, pathname);
    if Claims(s, url) then
      var history := if request.replaceHistory then HistoryReplace(url) else HistoryPush(url);
      s.(log := s.log + [history, NavigateSelf(NavigationData(url, s.routerBaseUrl, s.routerBaseUrl, request.parameters))])
    else
      s.(log := s.log + [ForwardRequest(request)])
  }
}
