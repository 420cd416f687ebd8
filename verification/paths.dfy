/** Joining a base path and a route pathname. */
module Paths {

  /** `s` without one trailing slash, if it has one. */
  function TrimTrailingSlash(s: string): string
  {
    if |s| > 0 && s[|s| - 1] == '/' then s[..|s| - 1] else s
  }

  /** `s` without one leading slash, if it has one. */
  function TrimLeadingSlash(s: string): string
  {
    if |s| > 0 && s[0] == '/' then s[1..] else s
  }

  /** Joins a prefix and a path: one slash ending the prefix and one slash
      starting the path are dropped, and a single slash is put between them.
      The seam thus holds exactly one slash unless an operand has a doubled
      slash there (see `ConcatPathDoubledSlash`). */
  function ConcatPath(prefix: string, path: string): (r: string)
    ensures prefix != [] && prefix[|prefix| - 1] != '/' ==> prefix + "/" <= r
  {
    TrimTrailingSlash(prefix) + "/" + TrimLeadingSlash(path)
  }

  /** The joins the router's behaviour is pinned to. */
  lemma ConcatPathExamples()
    ensures ConcatPath("/api", "/users") == "/api/users"
    ensures ConcatPath("/api", "*") == "/api/*"
    ensures ConcatPath("/api", "/") == "/api/"
    ensures ConcatPath("/users", "/") == "/users/"
    ensures ConcatPath("/users", "/:id") == "/users/:id"
    ensures ConcatPath("/api", "/users/") == "/api/users/"
    ensures ConcatPath("/api", "/users/:id") == "/api/users/:id"
    ensures ConcatPath("", "/users") == "/users"
  {
  }

  /** The shape of a join: the base's text with at most one trailing slash
      removed, then one slash, then the path's text with at most one leading
      slash removed. An unslashed base and a slashed path survive intact. */
  lemma {:induction false} ConcatPathSeam(prefix: string, path: string)
    ensures var r := ConcatPath(prefix, path);
      && |r| == |TrimTrailingSlash(prefix)| + 1 + |TrimLeadingSlash(path)|
      && r[|TrimTrailingSlash(prefix)|] == '/'
      && (prefix != [] && prefix[|prefix| - 1] != '/' ==> r[..|prefix|] == prefix)
      && (path != [] && path[0] == '/' ==> r[|r| - |path|..] == path)
  {
    var r := ConcatPath(prefix, path);
    var a, b := TrimTrailingSlash(prefix), TrimLeadingSlash(path);
    assert r == a + "/" + b;
    if path != [] && path[0] == '/' {
      assert path == "/" + b;
      assert r[|r| - |path|..] == "/" + b;
    }
  }

  /** Only one slash is dropped from each side, so a doubled slash at the seam survives. */
  lemma ConcatPathDoubledSlash()
    ensures ConcatPath("/api//", "/users") == "/api//users"
    ensures ConcatPath("/api", "//users") == "/api//users"
  {
  }

  /** Nesting bases is the same as joining them first: a route `p` under a child
      base `b` under a parent base `a` ends up at `(a joined with b) joined with p`. */
  lemma {:induction false} ConcatPathAssociative(a: string, b: string, p: string)
    ensures ConcatPath(a, ConcatPath(b, p)) == ConcatPath(ConcatPath(a, b), p)
  {
    var ta, tb, lb, lp := TrimTrailingSlash(a), TrimTrailingSlash(b), TrimLeadingSlash(b), TrimLeadingSlash(p);
    var inner := ConcatPath(b, p);
    var outer := ConcatPath(a, b);
    assert inner == tb + "/" + lp;
    assert outer == ta + "/" + lb;
    if tb == [] {
      assert lb == [];
      assert TrimLeadingSlash(inner) == lp by { assert inner == "/" + lp; }
      assert TrimTrailingSlash(outer) == ta by { assert outer == ta + "/"; }
    } else {
      assert lb != [];
      assert TrimTrailingSlash(lb) == TrimLeadingSlash(tb);
      assert TrimLeadingSlash(inner) == TrimLeadingSlash(tb) + "/" + lp by {
        assert inner[0] == tb[0];
        if tb[0] == '/' { assert inner[1..] == tb[1..] + "/" + lp; }
      }
      assert TrimTrailingSlash(outer) == ta + "/" + TrimTrailingSlash(lb) by {
        assert outer[|outer| - 1] == lb[|lb| - 1];
        if lb[|lb| - 1] == '/' { assert outer[..|outer| - 1] == ta + "/" + lb[..|lb| - 1]; }
      }
    }
  }
}
