/** Requests, responses and HTTP method tokens, as the router sees them. */
module Http {

  /** An incoming request: only its method token and its URL matter to the router. */
  datatype Request = Request(httpMethod: string, url: string)

  /** An abstract response: a status code and a body. */
  datatype Response = Response(status: nat, body: string)

  /** The response the dispatcher starts from: status 404 and no body (router.ts:496). */
  const NotFound: Response := Response(404, "")

  /** Canonical method tokens used by the per-method registrations. */
  const GET: string := "GET"
  const HEAD: string := "HEAD"
  const POST: string := "POST"
  const PUT: string := "PUT"
  const DELETE: string := "DELETE"
  const PATCH: string := "PATCH"
  const OPTIONS: string := "OPTIONS"
  const TRACE: string := "TRACE"
  const CONNECT: string := "CONNECT"

  /** Method filter of a route: an empty list admits every method, otherwise the
      request's token must equal an entry exactly (case-sensitive). */
  predicate MatchMethod(methods: seq<string>, token: string): (r: bool)
    ensures r <==> methods == [] || exists i :: 0 <= i < |methods| && methods[i] == token
  {
    |methods| == 0 || token in methods
  }

  /** The behaviour the method filter is pinned to. */
  lemma MatchMethodExamples()
    ensures MatchMethod([], "GET")
    ensures MatchMethod(["POST", "GET"], "GET")
    ensures !MatchMethod(["POST", "GET"], "ANY")
    ensures MatchMethod(["GET"], "GET")
    ensures !MatchMethod(["get"], "GET")
  {
  }
}
