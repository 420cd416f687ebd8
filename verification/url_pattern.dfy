/** The URL-pattern primitive the router relies on, reduced to data. Its
    parsing and its matching algorithm are supplied from outside as
    function values (see `Exec` and the `parses` parameters elsewhere). */
module UrlPatterns {
  import opened Wrappers

  /** A compiled pattern: one pattern string per URL component. */
  datatype UrlPattern = UrlPattern(
    protocol: string, username: string, password: string, hostname: string,
    port: string, pathname: string, search: string, hash: string)

  /** The wildcard a component takes when the constructor is not given it. */
  const Wildcard: string := "*"

  /** The pattern constructed from `{ pathname }` alone: every other component is the wildcard. */
  function FromPathname(pathname: string): UrlPattern
  {
    UrlPattern(Wildcard, Wildcard, Wildcard, Wildcard, Wildcard, pathname, Wildcard, Wildcard)
  }

  /** True of a pattern that constrains nothing but its pathname. */
  predicate OnlyPathname(p: UrlPattern)
  {
    p == FromPathname(p.pathname)
  }

  /** The outcome of matching one component: the input and its named groups. */
  datatype ComponentResult = ComponentResult(input: string, groups: map<string, string>)

  /** A successful match: the inputs and one result per component. */
  datatype MatchResult = MatchResult(
    inputs: seq<string>,
    protocol: ComponentResult, username: ComponentResult, password: ComponentResult,
    hostname: ComponentResult, port: ComponentResult, pathname: ComponentResult,
    search: ComponentResult, hash: ComponentResult)

  /** `pattern.exec(url)`: a match result, or None for no match. */
  type Exec = (UrlPattern, string) -> Option<MatchResult>
}
