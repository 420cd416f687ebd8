/** The middleware chain executor the router hands its routes to: each
    middleware gets the request and a continuation for the rest of the chain;
    the continuation of the last one yields the initial response. */
module Middlewares {
  import opened Http

  /** What one middleware does with a request: answer it itself, or call
      `next` with a (possibly different) request and return that result,
      either unchanged (`Next`) or transformed (`NextThen`). */
  datatype Step =
    | Respond(response: Response)
    | Next(request: Request)
    | NextThen(request: Request, after: Response -> Response)
  {
    /** True when the middleware calls its continuation. */
    predicate Delegates()
    {
      !Respond?
    }
  }

  /** A middleware: its decision for each request. */
  datatype Middleware = Middleware(run: Request -> Step)

  /** Runs `ms` in order on `request`; `init` is what the continuation of the
      last middleware resolves to. A chain in which every middleware just
      passes the request on yields `init`. */
  function Chain(request: Request, init: Response, ms: seq<Middleware>): (r: Response)
    ensures Transparent(request, ms) ==> r == init
    decreases |ms|
  {
    if ms == [] then init
    else match ms[0].run(request)
      case Respond(response) => response
      case Next(q) => Chain(q, init, ms[1..])
      case NextThen(q, after) => after(Chain(q, init, ms[1..]))
  }

  /** The requests with which the chain invokes each middleware it reaches, in
      order: the k-th middleware runs iff k < |Reached(request, ms)|. */
  function Reached(request: Request, ms: seq<Middleware>): (t: seq<Request>)
    ensures |t| <= |ms|
    ensures ms != [] ==> |t| >= 1 && t[0] == request
    decreases |ms|
  {
    if ms == [] then []
    else match ms[0].run(request)
      case Respond(_) => [request]
      case Next(q) => [request] + Reached(q, ms[1..])
      case NextThen(q, _) => [request] + Reached(q, ms[1..])
  }

  /** Every middleware the chain reaches calls its continuation, so the
      continuation of the last one, the initial response, is consulted. */
  predicate Exhausted(request: Request, ms: seq<Middleware>)
    decreases |ms|
  {
    ms == [] || (ms[0].run(request).Delegates() && Exhausted(ms[0].run(request).request, ms[1..]))
  }

  /** Every middleware passes the request on and returns the rest's result unchanged. */
  predicate Transparent(request: Request, ms: seq<Middleware>)
    decreases |ms|
  {
    ms == [] || (ms[0].run(request).Next? && Transparent(ms[0].run(request).request, ms[1..]))
  }

  /** The request an exhausted chain hands to its final continuation. */
  function Forwarded(request: Request, ms: seq<Middleware>): Request
    requires Exhausted(request, ms)
    decreases |ms|
  {
    if ms == [] then request else Forwarded(ms[0].run(request).request, ms[1..])
  }

  /** Middleware run strictly in order, each on the request its predecessor
      passed on; the chain stops at the first one that answers itself, and the
      initial response is consulted exactly when every reached one delegates. */
  lemma {:induction false} ReachedOrder(request: Request, ms: seq<Middleware>)
    ensures var t := Reached(request, ms);
      && (forall k :: 0 <= k < |t| - 1 ==> ms[k].run(t[k]).Delegates() && t[k + 1] == ms[k].run(t[k]).request)
      && (0 < |t| < |ms| ==> ms[|t| - 1].run(t[|t| - 1]).Respond?)
      && (Exhausted(request, ms) <==> |t| == |ms| && (ms == [] || ms[|t| - 1].run(t[|t| - 1]).Delegates()))
    decreases |ms|
  {
    if ms != [] {
      var s := ms[0].run(request);
      if s.Delegates() {
        var rest := ms[1..];
        var t', t := Reached(s.request, rest), Reached(request, ms);
        ReachedOrder(s.request, rest);
        assert t == [request] + t';
        forall k | 1 <= k < |t| - 1
          ensures ms[k].run(t[k]).Delegates() && t[k + 1] == ms[k].run(t[k]).request
        {
          assert ms[k] == rest[k - 1] && t[k] == t'[k - 1] && t[k + 1] == t'[k];
        }
        if 0 < |t| < |ms| {
          assert ms[|t| - 1] == rest[|t'| - 1] && t[|t| - 1] == t'[|t'| - 1];
        }
        if |t| == |ms| && |ms| > 1 {
          assert ms[|t| - 1] == rest[|t'| - 1] && t[|t| - 1] == t'[|t'| - 1];
        }
      }
    }
  }

  /** The initial response matters only when the chain is exhausted: otherwise
      some middleware answered and the result is the same whatever `init` is. */
  lemma {:induction false} FallbackOnlyWhenExhausted(request: Request, a: Response, b: Response, ms: seq<Middleware>)
    requires !Exhausted(request, ms)
    ensures Chain(request, a, ms) == Chain(request, b, ms)
    decreases |ms|
  {
    match ms[0].run(request)
    case Respond(_) =>
    case Next(q) => FallbackOnlyWhenExhausted(q, a, b, ms[1..]);
    case NextThen(q, _) => FallbackOnlyWhenExhausted(q, a, b, ms[1..]);
  }

  /** Once a middleware has answered, whatever is appended after it never runs
      and does not change the result. */
  lemma {:induction false} LaterNeverRun(request: Request, init: Response, ms: seq<Middleware>, rest: seq<Middleware>)
    requires !Exhausted(request, ms)
    ensures Chain(request, init, ms + rest) == Chain(request, init, ms)
    ensures Reached(request, ms + rest) == Reached(request, ms)
    decreases |ms|
  {
    assert (ms + rest)[0] == ms[0];
    assert (ms + rest)[1..] == ms[1..] + rest;
    match ms[0].run(request)
    case Respond(_) =>
    case Next(q) => LaterNeverRun(q, init, ms[1..], rest);
    case NextThen(q, _) => LaterNeverRun(q, init, ms[1..], rest);
  }

  /** A prefix whose middleware all pass the request on hands the remaining
      chain the forwarded request and returns its result unchanged. */
  lemma {:induction false} PassThrough(request: Request, init: Response, ms: seq<Middleware>, rest: seq<Middleware>)
    requires Transparent(request, ms)
    ensures Exhausted(request, ms)
    ensures Chain(request, init, ms + rest) == Chain(Forwarded(request, ms), init, rest)
    decreases |ms|
  {
    if ms == [] {
      assert ms + rest == rest;
    } else {
      assert (ms + rest)[0] == ms[0];
      assert (ms + rest)[1..] == ms[1..] + rest;
      PassThrough(ms[0].run(request).request, init, ms[1..], rest);
    }
  }
}
