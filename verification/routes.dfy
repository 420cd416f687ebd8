/** Route records, registration of one record, base-prefix projection, the
    per-route "match or delegate" adaptor and dispatch over a route list. */
module Routes {
  import opened Wrappers
  import opened Http
  import opened UrlPatterns
  import opened Paths
  import opened Middlewares

  /** What a matched handler is given besides the request: the full match and
      the named groups of its pathname. */
  datatype RouteContext = RouteContext(matchResult: MatchResult, params: map<string, string>)

  /** A route handler: a middleware that also receives the route context. */
  datatype Handler = Handler(call: (RouteContext, Request) -> Step)

  /** One registered route; an empty `methods` admits every method. */
  datatype Route = Route(methods: seq<string>, pattern: UrlPattern, handler: Handler)

  /** The first argument of a registration: a path, or the handler itself. */
  datatype Target = Path(path: string) | Bare(middleware: Handler)

  /** Why a registration throws. */
  datatype RegisterError =
    | InvalidPattern(pathname: string)  // the pattern constructor rejects the path
    | MissingHandler                    // a path was given without a handler

  /** The route record one registration builds, or the error it throws. A bare
      handler is registered under the wildcard pathname; a path is compiled
      before the handler is checked, so an invalid path wins over a missing
      handler. `parses` is the pattern constructor's acceptance of a pathname. */
  function NewRoute(target: Target, handler: Option<Handler>, verb: Option<string>, parses: string -> bool)
    : (r: Result<Route, RegisterError>)
    ensures r.Success? <==> target.Bare? || (parses(target.path) && handler.Some?)
    ensures target.Path? && !parses(target.path) ==> r == Failure(InvalidPattern(target.path))
    ensures target.Path? && parses(target.path) && handler.None? ==> r == Failure(MissingHandler)
    ensures r.Success? ==> r.value.methods == (if verb.Some? then [verb.value] else [])
    ensures r.Success? && target.Bare? ==> r.value.pattern == FromPathname(Wildcard) && r.value.handler == target.middleware
    ensures r.Success? && target.Path? ==> r.value.pattern == FromPathname(target.path) && Some(r.value.handler) == handler
  {
    var pathname := if target.Path? then target.path else Wildcard;
    if target.Path? && !parses(pathname) then Failure(InvalidPattern(pathname))
    else
      var middleware := if target.Path? then handler else Some(target.middleware);
      if middleware.None? then Failure(MissingHandler)
      else Success(Route(if verb.Some? then [verb.value] else [], FromPathname(pathname), middleware.value))
  }

  /** A registered route admits exactly the method it was registered for, or
      every method when it was registered without one. */
  lemma RegisteredMethodFilter(target: Target, handler: Option<Handler>, verb: Option<string>,
                               parses: string -> bool, token: string)
    requires NewRoute(target, handler, verb, parses).Success?
    ensures MatchMethod(NewRoute(target, handler, verb, parses).value.methods, token)
        <==> verb.None? || token == verb.value
  {
  }

  /** The route under a base prefix: only the pathname is rewritten. */
  function ConcatPrefix(route: Route, prefix: string): (r: Route)
    ensures r.methods == route.methods && r.handler == route.handler
    ensures r.pattern.pathname == ConcatPath(prefix, route.pattern.pathname)
    ensures r.pattern.(pathname := route.pattern.pathname) == route.pattern
  {
    route.(pattern := route.pattern.(pathname := ConcatPath(prefix, route.pattern.pathname)))
  }

  /** The prefix projection as router.ts writes it: the spread of a pattern
      object copies none of its components, so the new pattern is built from
      the joined pathname alone and every other component becomes the wildcard. */
  function ConcatPrefixAsWritten(route: Route, prefix: string): (r: Route)
    ensures r.methods == route.methods && r.handler == route.handler
    ensures r.pattern.pathname == ConcatPath(prefix, route.pattern.pathname)
    ensures OnlyPathname(r.pattern)
  {
    route.(pattern := FromPathname(ConcatPath(prefix, route.pattern.pathname)))
  }

  /** A route restricted to a host loses that restriction under the as-written projection. */
  lemma ConcatPrefixAsWrittenDropsHost(h: Handler)
    ensures var route := Route([], FromPathname("/users").(hostname := "example.com"), h);
      && ConcatPrefixAsWritten(route, "/api").pattern.hostname == Wildcard
      && ConcatPrefix(route, "/api").pattern.hostname == "example.com"
  {
  }

  /** The two projections agree on every route that registration builds. */
  lemma ConcatPrefixAgreesOnRegistered(route: Route, prefix: string)
    requires OnlyPathname(route.pattern)
    ensures ConcatPrefixAsWritten(route, prefix) == ConcatPrefix(route, prefix)
  {
  }

  /** Every route constrains only its pathname, as every route that
      registration builds does. */
  predicate PathnameOnly(routes: seq<Route>)
  {
    forall i :: 0 <= i < |routes| ==> OnlyPathname(routes[i].pattern)
  }

  /** On routes that constrain only their pathname, the corrected projection
      is the as-written one, and its result again constrains only pathnames. */
  lemma PrefixAllAsWritten(routes: seq<Route>, prefix: string)
    requires PathnameOnly(routes)
    ensures PathnameOnly(PrefixAll(routes, prefix))
    ensures forall i :: 0 <= i < |routes| ==> PrefixAll(routes, prefix)[i] == ConcatPrefixAsWritten(routes[i], prefix)
  {
  }

  /** Every route under a base prefix: same length and order, same methods and
      handlers, only the pathname joined onto the prefix. */
  function PrefixAll(routes: seq<Route>, prefix: string): (r: seq<Route>)
    ensures |r| == |routes|
    ensures forall i :: 0 <= i < |routes| ==>
      && r[i].methods == routes[i].methods
      && r[i].handler == routes[i].handler
      && r[i].pattern == routes[i].pattern.(pathname := ConcatPath(prefix, routes[i].pattern.pathname))
  {
    if routes == [] then [] else [ConcatPrefix(routes[0], prefix)] + PrefixAll(routes[1..], prefix)
  }

  /** Projection distributes over concatenation, so routes appended to the
      store appear, prefixed, at the end of the projected list. */
  lemma {:induction false} PrefixAllAppend(s: seq<Route>, t: seq<Route>, prefix: string)
    ensures PrefixAll(s + t, prefix) == PrefixAll(s, prefix) + PrefixAll(t, prefix)
  {
    if s == [] {
      assert s + t == t;
    } else {
      assert (s + t)[1..] == s[1..] + t;
      PrefixAllAppend(s[1..], t, prefix);
    }
  }

  /** Nested bases compose: routes of a child with base `b`, read through a
      parent with base `a`, sit under the joined base. */
  lemma {:induction false} NestedBasesCompose(routes: seq<Route>, a: string, b: string)
    ensures PrefixAll(PrefixAll(routes, b), a) == PrefixAll(routes, ConcatPath(a, b))
  {
    var lhs, rhs := PrefixAll(PrefixAll(routes, b), a), PrefixAll(routes, ConcatPath(a, b));
    forall i | 0 <= i < |routes| ensures lhs[i] == rhs[i] {
      ConcatPathAssociative(a, b, routes[i].pattern.pathname);
    }
  }

  /** A route admits a request when its method filter and its pattern both accept it. */
  predicate Admits(route: Route, exec: Exec, request: Request)
  {
    MatchMethod(route.methods, request.httpMethod) && exec(route.pattern, request.url).Some?
  }

  /** The decision of one route on one request: delegate unchanged on a method
      or pattern mismatch; otherwise run the handler with the match as context. */
  function RouteStep(route: Route, exec: Exec, request: Request): (s: Step)
    ensures !Admits(route, exec, request) ==> s == Next(request)
    ensures Admits(route, exec, request) ==>
      var m := exec(route.pattern, request.url).value;
      s == route.handler.call(RouteContext(m, m.pathname.groups), request)
  {
    if !MatchMethod(route.methods, request.httpMethod) then Next(request)
    else match exec(route.pattern, request.url)
      case None => Next(request)
      case Some(m) => route.handler.call(RouteContext(m, m.pathname.groups), request)
  }

  /** The route as a middleware: it passes on, unchanged, every request the
      route does not admit, and leaves every admitted one to the handler. */
  function ToMiddleware(route: Route, exec: Exec): (mw: Middleware)
    ensures forall q :: !Admits(route, exec, q) ==> mw.run(q) == Next(q)
    ensures forall q :: Admits(route, exec, q) ==>
      var m := exec(route.pattern, q.url).value;
      mw.run(q) == route.handler.call(RouteContext(m, m.pathname.groups), q)
  {
    Middleware(request => RouteStep(route, exec, request))
  }

  /** Every route as a middleware, in order. */
  function Adapt(routes: seq<Route>, exec: Exec): (ms: seq<Middleware>)
    ensures |ms| == |routes|
    ensures forall i :: 0 <= i < |routes| ==> ms[i] == ToMiddleware(routes[i], exec)
  {
    if routes == [] then [] else [ToMiddleware(routes[0], exec)] + Adapt(routes[1..], exec)
  }

  /** Dispatch of one request over a route list, starting from the 404 response;
      when every route passes the request on, the 404 response comes back. */
  function Dispatch(routes: seq<Route>, exec: Exec, request: Request): (r: Response)
    ensures Transparent(request, Adapt(routes, exec)) ==> r == NotFound
  {
    Chain(request, NotFound, Adapt(routes, exec))
  }

  /** Adapting a non-empty list adapts its head, then its tail. */
  lemma AdaptCons(route: Route, rest: seq<Route>, exec: Exec)
    ensures Adapt([route] + rest, exec) == [ToMiddleware(route, exec)] + Adapt(rest, exec)
  {
    assert ([route] + rest)[1..] == rest;
  }

  /** A route that does not admit the request passes it on unchanged without
      calling its handler, so dispatch is as if the route were not there. */
  lemma SkipUnadmitted(route: Route, rest: seq<Route>, exec: Exec, request: Request)
    requires !Admits(route, exec, request)
    ensures ToMiddleware(route, exec).run(request) == Next(request)
    ensures Dispatch([route] + rest, exec, request) == Dispatch(rest, exec, request)
  {
    AdaptCons(route, rest, exec);
  }

  /** A route that admits the request runs its handler with `params` set to the
      match's pathname groups; the handler's own answer is the result, and a
      handler that calls `next` gets what the remaining routes yield. */
  lemma AdmittedRunsHandler(route: Route, rest: seq<Route>, exec: Exec, request: Request)
    requires Admits(route, exec, request)
    ensures var m := exec(route.pattern, request.url).value;
      var s := route.handler.call(RouteContext(m, m.pathname.groups), request);
      && ToMiddleware(route, exec).run(request) == s
      && Dispatch([route] + rest, exec, request) ==
           match s
           case Respond(response) => response
           case Next(q) => Dispatch(rest, exec, q)
           case NextThen(q, after) => after(Dispatch(rest, exec, q))
  {
    AdaptCons(route, rest, exec);
  }

  /** Routes are tried in registration order: when none of the first `k`
      routes admits the request, dispatch is decided by the routes after them. */
  lemma {:induction false} SkipUnadmittedPrefix(routes: seq<Route>, k: nat, exec: Exec, request: Request)
    requires k <= |routes|
    requires forall i :: 0 <= i < k ==> !Admits(routes[i], exec, request)
    ensures Dispatch(routes, exec, request) == Dispatch(routes[k..], exec, request)
  {
    if k > 0 {
      assert routes == [routes[0]] + routes[1..];
      SkipUnadmitted(routes[0], routes[1..], exec, request);
      SkipUnadmittedPrefix(routes[1..], k - 1, exec, request);
      assert routes[1..][k - 1..] == routes[k..];
    }
  }

  /** The 404 comes back when no route admits the request. */
  lemma NothingAdmitsIsNotFound(routes: seq<Route>, exec: Exec, request: Request)
    requires forall i :: 0 <= i < |routes| ==> !Admits(routes[i], exec, request)
    ensures Dispatch(routes, exec, request) == NotFound
  {
    SkipUnadmittedPrefix(routes, |routes|, exec, request);
    assert routes[|routes|..] == [];
  }

  /** The 404 is consulted only if every route reached delegates: otherwise
      dispatch yields the same response whatever the initial one is. */
  lemma NotFoundOnlyWhenExhausted(routes: seq<Route>, exec: Exec, request: Request, init: Response)
    requires !Exhausted(request, Adapt(routes, exec))
    ensures Dispatch(routes, exec, request) == Chain(request, init, Adapt(routes, exec))
  {
    FallbackOnlyWhenExhausted(request, NotFound, init, Adapt(routes, exec));
  }

  /** A route whose handler answers the request directly shadows every route
      registered after it. */
  lemma {:induction false} AnswerShadowsLater(routes: seq<Route>, later: seq<Route>, exec: Exec, request: Request)
    requires !Exhausted(request, Adapt(routes, exec))
    ensures Dispatch(routes + later, exec, request) == Dispatch(routes, exec, request)
  {
    AdaptAppend(routes, later, exec);
    LaterNeverRun(request, NotFound, Adapt(routes, exec), Adapt(later, exec));
  }

  /** A `POST` route registered before a `GET` route is passed over for a
      `GET` request, whose answer then comes from the `GET` route. */
  lemma MethodMismatchFallsThrough(post: Handler, get: Handler, exec: Exec, url: string, ok: Response)
    requires exec(FromPathname(Wildcard), url).Some?
    requires forall c :: get.call(c, Request(GET, url)) == Respond(ok)
    ensures Dispatch([Route([POST], FromPathname(Wildcard), post), Route([GET], FromPathname(Wildcard), get)], exec, Request(GET, url)) == ok
  {
    var request := Request(GET, url);
    var first, second := Route([POST], FromPathname(Wildcard), post), Route([GET], FromPathname(Wildcard), get);
    assert !MatchMethod([POST], GET);
    SkipUnadmitted(first, [second], exec, request);
    AdmittedRunsHandler(second, [], exec, request);
  }

  /** A handler on `/:id` whose match for the URL has the groups `{id: "100"}`
      receives exactly those groups as `params`, beside the whole match. */
  lemma HandlerReceivesParams(h: Handler, exec: Exec, url: string, m: MatchResult)
    requires exec(FromPathname("/:id"), url) == Some(m)
    requires m.pathname.groups == map["id" := "100"]
    ensures ToMiddleware(Route([GET], FromPathname("/:id"), h), exec).run(Request(GET, url))
      == h.call(RouteContext(m, map["id" := "100"]), Request(GET, url))
  {
  }

  /** Adapting a concatenation adapts each part, keeping their order. */
  lemma {:induction false} AdaptAppend(s: seq<Route>, t: seq<Route>, exec: Exec)
    ensures Adapt(s + t, exec) == Adapt(s, exec) + Adapt(t, exec)
  {
    if s == [] {
      assert s + t == t;
    } else {
      assert (s + t)[1..] == s[1..] + t;
      AdaptAppend(s[1..], t, exec);
    }
  }
}
