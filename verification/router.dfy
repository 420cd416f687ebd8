/** The router builder: an ordered store of routes, an optional base path,
    registration per method, composition of other routers, and dispatch. */
module Routing {
  import opened Wrappers
  import opened Http
  import opened UrlPatterns
  import opened Paths
  import M = Middlewares
  import opened Routes

  /** The error outcome of a registration that builds `made`. */
  function OutcomeOf(made: Result<Route, RegisterError>): Outcome<RegisterError>
  {
    if made.Success? then Pass else Fail(made.error)
  }

  /** The routes a registration that builds `made` appends: one, or none when it throws. */
  function Appended(made: Result<Route, RegisterError>): seq<Route>
  {
    if made.Success? then [made.value] else []
  }

  class Router {
    /** The registered routes, in registration order, without the base applied. */
    var stored: seq<Route>
    /** The base path; None stands for the absent option. */
    const base: Option<string>

    /** Every stored route constrains only its pathname. */
    ghost predicate Valid()
      reads this
    {
      PathnameOnly(stored)
    }

    constructor (base: Option<string>)
      ensures Valid()
      ensures stored == [] && this.base == base
    {
      stored := [];
      this.base := base;
    }

    /** The resolved routes: the store itself without a base; with a base, the
        same routes in the same order with only their pathnames moved under it. */
    function Routes(): (r: seq<Route>)
      reads this
      ensures base.None? ==> r == stored
    {
      if base.None? then stored else PrefixAll(stored, base.value)
    }

    /** The resolved routes as middleware, one per route, in order. */
    function Middleware(exec: Exec): (ms: seq<M.Middleware>)
      reads this
      ensures |ms| == |Routes()|
      ensures forall i :: 0 <= i < |ms| ==> ms[i] == ToMiddleware(Routes()[i], exec)
    {
      Adapt(Routes(), exec)
    }

    /** Dispatch of one request through the chain of this router's middleware,
        starting from the 404 response: the dispatch of the resolved routes, so
        every lemma about `Dispatch` applies to it. */
    function Handle(request: Request, exec: Exec): (r: Response)
      reads this
      ensures r == Dispatch(Routes(), exec, request)
    {
      M.Chain(request, NotFound, Middleware(exec))
    }

    /** Appends the resolved routes of `routers`, in argument order, after the
        routes already stored; reading them back applies this router's base on top. */
    method Use(routers: seq<Router>)
      requires Valid() && forall r :: r in routers ==> r.Valid()
      modifies this
      ensures Valid()
      ensures stored == old(stored) + old(Gather(routers))
      ensures Routes() == old(Routes()) + (if base.Some? then PrefixAll(old(Gather(routers)), base.value) else old(Gather(routers)))
    {
      var added := Gather(routers);
      GatherPathnameOnly(routers);
      if base.Some? {
        PrefixAllAppend(stored, added, base.value);
      }
      stored := stored + added;
    }

    /** Registers one route: on success appends it after every earlier route;
        when the pattern or the handler is rejected, throws and stores nothing. */
    method Register(target: Target, handler: Option<Handler>, verb: Option<string>, parses: string -> bool)
      returns (outcome: Outcome<RegisterError>)
      requires Valid()
      modifies this
      ensures Valid()
      ensures outcome == OutcomeOf(NewRoute(target, handler, verb, parses))
      ensures stored == old(stored) + Appended(NewRoute(target, handler, verb, parses))
      ensures Routes() == old(Routes()) +
        (if base.Some? then PrefixAll(Appended(NewRoute(target, handler, verb, parses)), base.value)
         else Appended(NewRoute(target, handler, verb, parses)))
    {
      var made := NewRoute(target, handler, verb, parses);
      outcome := OutcomeOf(made);
      if base.Some? {
        PrefixAllAppend(stored, Appended(made), base.value);
      }
      if made.Success? {
        stored := stored + [made.value];
      }
    }

    /** Registers a route for every method. */
    method All(target: Target, handler: Option<Handler>, parses: string -> bool)
      returns (outcome: Outcome<RegisterError>)
      requires Valid()
      modifies this
      ensures Valid()
      ensures outcome == OutcomeOf(NewRoute(target, handler, None, parses))
      ensures stored == old(stored) + Appended(NewRoute(target, handler, None, parses))
    {
      outcome := Register(target, handler, None, parses);
    }

    /** Registers a route for `GET`. */
    method Get(target: Target, handler: Option<Handler>, parses: string -> bool)
      returns (outcome: Outcome<RegisterError>)
      requires Valid()
      modifies this
      ensures Valid()
      ensures outcome == OutcomeOf(NewRoute(target, handler, Some(GET), parses))
      ensures stored == old(stored) + Appended(NewRoute(target, handler, Some(GET), parses))
    {
      outcome := Register(target, handler, Some(GET), parses);
    }

    /** Registers a route for `HEAD`. */
    method Head(target: Target, handler: Option<Handler>, parses: string -> bool)
      returns (outcome: Outcome<RegisterError>)
      requires Valid()
      modifies this
      ensures Valid()
      ensures outcome == OutcomeOf(NewRoute(target, handler, Some(HEAD), parses))
      ensures stored == old(stored) + Appended(NewRoute(target, handler, Some(HEAD), parses))
    {
      outcome := Register(target, handler, Some(HEAD), parses);
    }

    /** Registers a route for `POST`. */
    method Post(target: Target, handler: Option<Handler>, parses: string -> bool)
      returns (outcome: Outcome<RegisterError>)
      requires Valid()
      modifies this
      ensures Valid()
      ensures outcome == OutcomeOf(NewRoute(target, handler, Some(POST), parses))
      ensures stored == old(stored) + Appended(NewRoute(target, handler, Some(POST), parses))
    {
      outcome := Register(target, handler, Some(POST), parses);
    }

    /** Registers a route for `PUT`. */
    method Put(target: Target, handler: Option<Handler>, parses: string -> bool)
      returns (outcome: Outcome<RegisterError>)
      requires Valid()
      modifies this
      ensures Valid()
      ensures outcome == OutcomeOf(NewRoute(target, handler, Some(PUT), parses))
      ensures stored == old(stored) + Appended(NewRoute(target, handler, Some(PUT), parses))
    {
      outcome := Register(target, handler, Some(PUT), parses);
    }

    /** Registers a route for `DELETE`. */
    method Delete(target: Target, handler: Option<Handler>, parses: string -> bool)
      returns (outcome: Outcome<RegisterError>)
      requires Valid()
      modifies this
      ensures Valid()
      ensures outcome == OutcomeOf(NewRoute(target, handler, Some(DELETE), parses))
      ensures stored == old(stored) + Appended(NewRoute(target, handler, Some(DELETE), parses))
    {
      outcome := Register(target, handler, Some(DELETE), parses);
    }

    /** Registers a route for `PATCH`. */
    method Patch(target: Target, handler: Option<Handler>, parses: string -> bool)
      returns (outcome: Outcome<RegisterError>)
      requires Valid()
      modifies this
      ensures Valid()
      ensures outcome == OutcomeOf(NewRoute(target, handler, Some(PATCH), parses))
      ensures stored == old(stored) + Appended(NewRoute(target, handler, Some(PATCH), parses))
    {
      outcome := Register(target, handler, Some(PATCH), parses);
    }

    /** Registers a route for `OPTIONS`. */
    method Options(target: Target, handler: Option<Handler>, parses: string -> bool)
      returns (outcome: Outcome<RegisterError>)
      requires Valid()
      modifies this
      ensures Valid()
      ensures outcome == OutcomeOf(NewRoute(target, handler, Some(OPTIONS), parses))
      ensures stored == old(stored) + Appended(NewRoute(target, handler, Some(OPTIONS), parses))
    {
      outcome := Register(target, handler, Some(OPTIONS), parses);
    }

    /** Registers a route for `TRACE`. */
    method Trace(target: Target, handler: Option<Handler>, parses: string -> bool)
      returns (outcome: Outcome<RegisterError>)
      requires Valid()
      modifies this
      ensures Valid()
      ensures outcome == OutcomeOf(NewRoute(target, handler, Some(TRACE), parses))
      ensures stored == old(stored) + Appended(NewRoute(target, handler, Some(TRACE), parses))
    {
      outcome := Register(target, handler, Some(TRACE), parses);
    }

    /** Registers a route for `CONNECT`. */
    method Connect(target: Target, handler: Option<Handler>, parses: string -> bool)
      returns (outcome: Outcome<RegisterError>)
      requires Valid()
      modifies this
      ensures Valid()
      ensures outcome == OutcomeOf(NewRoute(target, handler, Some(CONNECT), parses))
      ensures stored == old(stored) + Appended(NewRoute(target, handler, Some(CONNECT), parses))
    {
      outcome := Register(target, handler, Some(CONNECT), parses);
    }
  }

  /** What reading a router's routes yields: with a base, the stored routes in
      the same order, keeping methods, handler and every other pattern
      component, with only the pathname joined onto the base. */
  lemma ResolvedRoutes(router: Router)
    ensures router.base.None? ==> router.Routes() == router.stored
    ensures var r, s := router.Routes(), router.stored;
      && |r| == |s|
      && forall i :: 0 <= i < |s| ==>
        && r[i].methods == s[i].methods
        && r[i].handler == s[i].handler
        && r[i].pattern == s[i].pattern.(pathname := if router.base.Some? then ConcatPath(router.base.value, s[i].pattern.pathname) else s[i].pattern.pathname)
  {
  }

  /** The 404 comes back from a router none of whose resolved routes admits the request. */
  lemma HandleNotFound(router: Router, request: Request, exec: Exec)
    requires forall i :: 0 <= i < |router.Routes()| ==> !Admits(router.Routes()[i], exec, request)
    ensures router.Handle(request, exec) == NotFound
  {
    NothingAdmitsIsNotFound(router.Routes(), exec, request);
  }

  /** On a valid router, reading under a base is exactly the projection router.ts
      runs, which rebuilds each pattern from the joined pathname alone. */
  lemma RoutesAsWritten(router: Router)
    requires router.Valid()
    ensures router.base.Some? ==> forall i :: 0 <= i < |router.stored| ==>
      router.Routes()[i] == ConcatPrefixAsWritten(router.stored[i], router.base.value)
  {
    if router.base.Some? {
      PrefixAllAsWritten(router.stored, router.base.value);
    }
  }

  /** The resolved routes of several routers, one router after another. */
  function Gather(routers: seq<Router>): (r: seq<Route>)
    reads routers
    ensures |routers| == 1 ==> r == routers[0].Routes()
  {
    if routers == [] then [] else routers[0].Routes() + Gather(routers[1..])
  }

  /** A router with base `/users` holding `GET /` and, through `Use`, a
      base-less router holding `GET /:id`. */
  method UsersExample(h: Handler, parses: string -> bool) returns (users: Router)
    requires parses("/:id") && parses("/")
    ensures fresh(users) && users.base == Some("/users") && users.Valid()
    ensures users.stored == [Route([GET], FromPathname("/"), h), Route([GET], FromPathname("/:id"), h)]
  {
    var user := new Router(None);
    var o1 := user.Get(Path("/:id"), Some(h), parses);
    assert user.Routes() == [Route([GET], FromPathname("/:id"), h)];
    users := new Router(Some("/users"));
    var o2 := users.Get(Path("/"), Some(h), parses);
    assert users.stored == [Route([GET], FromPathname("/"), h)];
    assert forall r :: r in [user] ==> r.Valid();
    users.Use([user]);
  }

  /** Gathering several routers is gathering them in groups, in the same order. */
  lemma {:induction false} GatherAppend(a: seq<Router>, b: seq<Router>)
    ensures Gather(a + b) == Gather(a) + Gather(b)
  {
    if a == [] {
      assert a + b == b;
    } else {
      assert (a + b)[1..] == a[1..] + b;
      GatherAppend(a[1..], b);
    }
  }

  /** The routes gathered from valid routers constrain only their pathnames. */
  lemma {:induction false} GatherPathnameOnly(routers: seq<Router>)
    requires forall r :: r in routers ==> r.Valid()
    ensures PathnameOnly(Gather(routers))
  {
    if routers != [] {
      var first := routers[0];
      assert first in routers;
      assert forall r :: r in routers[1..] ==> r in routers;
      if first.base.Some? {
        PrefixAllAsWritten(first.stored, first.base.value);
      }
      GatherPathnameOnly(routers[1..]);
      var g: seq<Route>, h: seq<Route> := first.Routes(), Gather(routers[1..]);
      var all: seq<Route> := g + h;
      assert Gather(routers) == all;
      forall i | 0 <= i < |all| ensures OnlyPathname(all[i].pattern) {
        if i >= |g| { assert all[i] == h[i - |g|]; } else { assert all[i] == g[i]; }
      }
    }
  }

  /** A router with base `/api` holding a catch-all route and, through `Use`,
      the `/users` router. */
  method ApiExample(h: Handler, parses: string -> bool) returns (api: Router)
    requires parses("/:id") && parses("/")
    ensures fresh(api) && api.base == Some("/api") && api.Valid()
    ensures api.stored == [Route([], FromPathname("*"), h)]
      + PrefixAll([Route([GET], FromPathname("/"), h), Route([GET], FromPathname("/:id"), h)], "/users")
  {
    var users := UsersExample(h, parses);
    api := new Router(Some("/api"));
    var o3 := api.All(Bare(h), None, parses);
    assert api.stored == [Route([], FromPathname("*"), h)];
    assert forall r :: r in [users] ==> r.Valid();
    api.Use([users]);
  }

  /** Routes of a router nested in a router with a base, and again in one
      without: each child's base is applied first, then the parent's. */
  method NestedRoutesExample(h: Handler, parses: string -> bool) returns (routes: seq<Route>)
    requires parses("/:id") && parses("/")
    ensures routes == [
      Route([], FromPathname("*"), h),
      Route([], FromPathname("/api/*"), h),
      Route([GET], FromPathname("/api/users/"), h),
      Route([GET], FromPathname("/api/users/:id"), h)]
  {
    var api := ApiExample(h, parses);
    var root := new Router(None);
    var o4 := root.All(Bare(h), None, parses);
    assert root.stored == [Route([], FromPathname("*"), h)];
    assert forall r :: r in [api] ==> r.Valid();
    root.Use([api]);
    NestedRoutesResolve(h);
    routes := root.Routes();
  }

  /** The resolved list of the nested example, computed on the route values. */
  lemma NestedRoutesResolve(h: Handler)
    ensures var wild, slash, id := Route([], FromPathname("*"), h), Route([GET], FromPathname("/"), h), Route([GET], FromPathname("/:id"), h);
      [wild] + PrefixAll([wild] + PrefixAll([slash, id], "/users"), "/api") == [
        Route([], FromPathname("*"), h),
        Route([], FromPathname("/api/*"), h),
        Route([GET], FromPathname("/api/users/"), h),
        Route([GET], FromPathname("/api/users/:id"), h)]
  {
    ConcatPathExamples();
  }
}
