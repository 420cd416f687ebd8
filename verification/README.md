# http-router route registry and dispatch, in Dafny

This project models the core of the `Router` class of http-router (router.ts): how routes are
registered, how routers are composed, how a base path is applied, and how a request is dispatched.

- **Registry.** A `Router` object holds an ordered list of route records `{methods, pattern,
  handler}` and an optional base path. Each per-method registration (`get`, `post`, …, `connect`)
  appends one record for that method token. `all` appends one record with an empty method list,
  which admits every method. `use` appends the already-resolved routes of other routers.
- **Base prefix.** Reading `routes` leaves the stored records untouched. Under a base it
  returns copies whose pathname is joined onto the base. A child's base is therefore applied when
  the parent reads it, and the parent's base is applied on top of that.
- **Dispatch.** Every resolved route becomes a "match or delegate" middleware:
  - on a method mismatch or a pattern mismatch it calls `next` with the same request;
  - otherwise it runs the route's handler with a context `{match, params}`.
  The chain runs these in registration order, starting from a 404 response.

Modules, one per component:

| file | module | models |
|---|---|---|
| wrappers.dfy | `Wrappers` | `Option`, `Result`, `Outcome` |
| http.dfy | `Http` | requests, responses, method tokens, the method filter |
| url_pattern.dfy | `UrlPatterns` | URL patterns and match results as data; `Exec` is the matcher |
| paths.dfy | `Paths` | the path join applied under a base |
| chain.dfy | `Middlewares` | the middleware chain executor |
| routes.dfy | `Routes` | route records, registration of one record, base projection, the per-route adaptor, dispatch |
| router.dfy | `Routing` | the `Router` class |

Outside collaborators are parameters, not code:
- The URL-pattern primitive's matching is a function value `exec: Exec` (`pattern.exec(url)`).
- Its constructor's acceptance of a pathname is a function value `parses: string -> bool`.
- A handler is a function value from the route context and the request to a `Step`. A `Step`
  either answers (`Respond`) or calls `next` with a request, returning its result unchanged
  (`Next`) or transformed (`NextThen`).
- `concatPath` (deps.ts) is not part of this model. It is given a declared rule consistent with
  every join the router's tests show: drop one trailing `/` of the base, drop one leading `/` of
  the path, and put one `/` between them. A second slash on either side of the seam survives.
  For example, `/api` and `/users` give
  `/api/users`; `/api` and `*` give `/api/*`; `/api` and `/` give `/api/`.
- `matchMethod` (utils.ts) is not part of this model either. It is given the rule its tests
  show: an empty list admits every method, and otherwise the token must occur exactly, with case
  significant.

The routes' handler tests (router_test.ts:88-106) read `request.params` and `request.match`
inside an arrow function. router.ts:574-579 instead binds the context `{match, params}` as the
handler's `this`. The model follows router.ts:579 and passes the context as an explicit argument.

A base is applied whenever it is a string, the empty string included (`isString(base)`,
router.ts:517), so `Router.Routes` treats `Some("")` as a base (`ConcatPath("", "/users") ==
"/users"`, in `Paths.ConcatPathExamples`).

## Model

| member | source | states |
|---|---|---|
| `Http.MatchMethodExamples` | utils_test.ts:22-41 | the empty list admits `GET`; `["POST","GET"]` admits `GET` and rejects `ANY`; tokens are compared case-sensitively |
| `Http.MatchMethod` | router.ts:568 | the method filter: an empty list admits every token; a non-empty list admits a token exactly when some entry equals it, case included |
| `Paths.ConcatPath` | router.ts:589 | the join rule: a base not ending in `/` is kept whole and followed by a `/` |
| `Paths.ConcatPathExamples` | router_test.ts:170-213 | the joins the router's examples show: `/api`+`/users`, `/api`+`*`, `/api`+`/`, `/users`+`/:id`, `/api`+`/users/:id` |
| `Paths.ConcatPathSeam` | router.ts:589 | the join's shape: the base minus at most one trailing `/`, then one `/`, then the path minus at most one leading `/`; an unslashed base and a slashed path survive intact |
| `Paths.ConcatPathDoubledSlash` | router.ts:589 | only one slash is dropped from each side, so a doubled slash at the seam survives (`/api//`+`/users` and `/api`+`//users` give `/api//users`) |
| `Paths.ConcatPathAssociative` | router_test.ts:182-213 | joining a path under a child base and then a parent base equals joining it under the joined bases |
| `Middlewares.Chain` | router.ts:495-499 | when every middleware passes the request on unchanged, the chain yields the initial response |
| `Middlewares.Reached` | router.ts:498 | no more middleware run than the chain holds; a non-empty chain always runs the first one, on the incoming request |
| `Middlewares.ReachedOrder` | router.ts:498 | middleware run in order, each on the request its predecessor passed on; the chain stops at the first one that answers; the initial response is reached iff every middleware reached delegates |
| `Middlewares.FallbackOnlyWhenExhausted` | router.ts:495-499 | if some middleware answers, the result does not depend on the initial response |
| `Middlewares.LaterNeverRun` | router_test.ts:108-155 | after a middleware answers, appended middleware are never invoked and do not change the result |
| `Middlewares.PassThrough` | router_test.ts:58-72 | a prefix of pass-through middleware hands the rest of the chain the forwarded request and returns its result |
| `Routes.NewRoute` | router.ts:536-551 | the record one registration builds: `[M]` or `[]` as methods; pathname `*` for a bare handler or the given path; an invalid path throws `InvalidPattern` before a missing handler throws `MissingHandler` |
| `Routes.RegisteredMethodFilter` | router.ts:541-550 | a registered route admits a method token exactly when it was registered without a method or for that very token |
| `Routes.ConcatPrefix` | router.ts:585-593 | under a prefix only the pathname changes, to the joined path; methods, handler and the other pattern components stay |
| `Routes.ConcatPrefixAsWritten` | router.ts:585-593 | the projection as router.ts runs it: same methods and handler, the joined pathname, and a pattern that constrains nothing but that pathname |
| `Routes.ConcatPrefixAsWrittenDropsHost` | router.ts:590 | the projection as written loses a route's hostname restriction, which the corrected projection keeps |
| `Routes.ConcatPrefixAgreesOnRegistered` | router.ts:541-550 | on a pattern built from a pathname alone, which is every pattern registration builds, the as-written and corrected projections agree |
| `Routes.PrefixAllAsWritten` | router.ts:519 | on routes that constrain only their pathname, each projected route equals the as-written projection, and the projected routes again constrain only their pathname |
| `Routes.PrefixAll` | router.ts:519 | the projected list has the same length and order, the same methods and handlers, and only each pathname joined onto the prefix |
| `Routes.PrefixAllAppend` | router.ts:519 | projection distributes over concatenation, so appended routes appear, projected, at the end |
| `Routes.NestedBasesCompose` | router_test.ts:182-213 | routes under a child base read through a parent base sit under the joined base, e.g. `/api/users/:id` |
| `Routes.RouteStep` | router.ts:567-580 | one route's decision: pass the same request on when the route does not admit it; otherwise run the handler with `params` equal to the match's pathname groups |
| `Routes.ToMiddleware` | router.ts:564-583 | the route as a middleware: it passes on unchanged every request the route does not admit and hands every admitted one to the handler with the match as context |
| `Routes.Adapt` | router.ts:524 | one middleware per route, the i-th being the i-th route's middleware |
| `Routes.Dispatch` | router.ts:495-499 | the chain over the routes' middleware from the 404 response; when every route passes the request on, the 404 comes back |
| `Routes.SkipUnadmitted` | router.ts:568-572 | a route whose method filter or pattern rejects the request calls `next` with the same request, and dispatch is as if the route were absent |
| `Routes.AdmittedRunsHandler` | router.ts:570-579 | a route that admits the request runs its handler with `params` equal to the match's pathname groups; the handler's answer, or what the rest yields when it calls `next`, is the result |
| `Routes.SkipUnadmittedPrefix` | router.ts:495-499 | routes are tried in registration order: a leading run of routes that do not admit the request changes nothing |
| `Routes.NothingAdmitsIsNotFound` | router.ts:496 | when no route admits the request, dispatch yields the 404 response |
| `Routes.NotFoundOnlyWhenExhausted` | router.ts:495-499 | unless every route reached delegates, dispatch does not depend on the initial 404 response |
| `Routes.AnswerShadowsLater` | router.ts:495-499 | once a route answers, routes registered after it never change the result |
| `Routes.MethodMismatchFallsThrough` | router_test.ts:108-122 | a `POST` route before a `GET` route is passed over for a `GET` request, which the `GET` route answers |
| `Routes.HandlerReceivesParams` | router.ts:574-579 | the handler of `/:id` on a URL whose match groups are `{id: "100"}` receives those params and the whole match |
| `Routing.Router.constructor` | router.ts:62-67 | a new router stores no routes and keeps the given base |
| `Routing.Router.Routes` | router.ts:514-520 | without a base, the stored routes are returned as they are |
| `Routing.ResolvedRoutes` | router.ts:514-520 | with or without a base, reading keeps length, order, methods, handlers and every pattern component but the pathname, and joins the pathname onto the base |
| `Routing.Router.Middleware` | router.ts:523-525 | one middleware per resolved route, in order, the i-th being the i-th resolved route's middleware |
| `Routing.Router.Handle` | router.ts:495-499 | running the router's middleware chain from the 404 response is the dispatch of its resolved routes, so every `Routes` dispatch lemma applies to it |
| `Routing.HandleNotFound` | router.ts:496 | a router none of whose resolved routes admits the request answers with the 404 response |
| `Routing.RoutesAsWritten` | router.ts:514-520 | on a router whose invariant holds, reading under a base gives exactly what the as-written projection gives, route by route |
| `Routing.Router.Use` | router.ts:77-83 | the old routes, then each given router's resolved routes in argument order; read back, the router's own base applies on top |
| `Routing.Gather` | router.ts:79 | the routes gathered from a single router are that router's resolved routes |
| `Routing.GatherAppend` | router.ts:79 | gathering a list of routers equals gathering any split of it and concatenating, so argument order is kept |
| `Routing.GatherPathnameOnly` | router.ts:79 | the routes gathered from routers whose invariant holds constrain only their pathnames |
| `Routing.Router.Register` | router.ts:536-551 | on success exactly one route is appended and every earlier route is kept; on a throw nothing is stored; the read-back list grows by that route, projected; the invariant that every stored route constrains only its pathname is kept |
| `Routing.Router.All` | router.ts:118-125 | registers with an empty method list |
| `Routing.Router.Get` | router.ts:155-162 | registers with methods `["GET"]` |
| `Routing.Router.Head` | router.ts:192-200 | registers with methods `["HEAD"]` |
| `Routing.Router.Post` | router.ts:230-237 | registers with methods `["POST"]` |
| `Routing.Router.Put` | router.ts:267-274 | registers with methods `["PUT"]` |
| `Routing.Router.Delete` | router.ts:304-315 | registers with methods `["DELETE"]` |
| `Routing.Router.Patch` | router.ts:345-356 | registers with methods `["PATCH"]` |
| `Routing.Router.Options` | router.ts:386-397 | registers with methods `["OPTIONS"]` |
| `Routing.Router.Trace` | router.ts:427-438 | registers with methods `["TRACE"]` |
| `Routing.Router.Connect` | router.ts:468-479 | registers with methods `["CONNECT"]` |
| `Routing.UsersExample` | router_test.ts:184-189 | a `/users` router holding `GET /` and, through `use`, a router holding `GET /:id` stores both routes in that order |
| `Routing.ApiExample` | router_test.ts:191-193 | an `/api` router holding a catch-all route and, through `use`, the `/users` router stores the catch-all route followed by the `/users` routes, projected |
| `Routing.NestedRoutesExample` | router_test.ts:182-213 | building the four routers through the class's methods and reading the outer one yields `*`, `/api/*`, `/api/users/` and `/api/users/:id` |
| `Routing.NestedRoutesResolve` | router_test.ts:182-213 | the four routes of the nested-router example resolve to `*`, `/api/*`, `/api/users/` and `/api/users/:id` |

## Findings

| source | as written | input that shows it | evidently intended | confidence | as-written member | corrected member |
|---|---|---|---|---|---|---|
| router.ts:590 | `new URLPattern({ ...route.pattern, pathname })`. A URL pattern's components are accessor properties, so the spread copies none of them, and every component but the pathname is reset to `*` | a route whose pattern restricts the hostname to `example.com`, reached through `use` and read via a router with base `/api`: the projected route matches any host | rewrite only the pathname and keep the other components | medium (depends on how the runtime defines URL-pattern properties), not executed | `Routes.ConcatPrefixAsWrittenDropsHost` | `Routes.ConcatPrefix` |

Routes that registration builds constrain only the pathname. `Router.Valid()` states this of every
stored route, and the constructor, `Register`, `Use` and every per-method method keep it. On such a
router, `Routing.RoutesAsWritten` proves that the read-back equals the as-written projection, so
the correction changes nothing for a `Router`. The difference shows only for a route with a
host-restricted pattern that comes in through `use` from a router-like object other than a `Router`.

## Left out

- The experimental `x` method (router.ts:553-561). It is a registration with an empty path and no method filter.
- URL-pattern parsing and matching are not modelled. They are the parameters `parses` and `exec`.
- Pathname normalisation is not modelled: a pattern's pathname reads back exactly as given.
- The pattern copy at router.ts:565 is modelled as the identity.
- A possible throw when the joined pathname is compiled at router.ts:590 is not modelled.
- A bare handler's wildcard pathname `*` is taken to always compile.
- Without a base, router.ts:517 returns the private array itself. A later registration's `push` therefore shows through an earlier read, while a read under a base is a snapshot. The model's reads are sequence values, so this aliasing is not modelled.
- `Promise`s and asynchronous handlers are not modelled; dispatch is a pure function.
- A handler that calls `next` more than once is not modelled, and neither is one that throws; a `Step` calls `next` at most once.
- Request and response objects are reduced to a method token plus a URL, and a status plus a body.
- `this`-binding of the route context (router.ts:579) is modelled by passing the context as an explicit argument.
- Every builder method returns `this` for chaining. The model's methods return the registration outcome instead.
- `use` accepts any object exposing `routes`; the model accepts `Router`s.
- `assert(middleware)` rejects any falsy value. The model's only falsy handler is an absent one (`None`).
- TypeScript overloads and type-level parameter parsing have no run-time behaviour, so they are not modelled. mod.ts only re-exports names, so it is not modelled.
