/**
 * The navigation highlight of the page header (src/components/layout/Header.tsx):
 * a link is active on its own path and on every path below it.
 */
module Header {
  import opened Text

  /** `isActivePath(path)` for the current `location.pathname`: an active
      pathname always starts with the link's path. */
  predicate IsActivePath(pathname: string, path: string): (active: bool)
    ensures active ==> StartsWith(pathname, path)
  {
    pathname == path || StartsWith(pathname, path + "/")
  }

  /** Active means: the same path, or the path followed by a "/" and anything. */
  lemma ActiveIff(pathname: string, path: string)
    ensures IsActivePath(pathname, path) <==>
              pathname == path || (|pathname| > |path| && pathname[..|path|] == path && pathname[|path|] == '/')
  {
    if |pathname| > |path| && pathname[..|path|] == path && pathname[|path|] == '/' {
      assert pathname[..|path| + 1] == path + "/";
    }
    if StartsWith(pathname, path + "/") {
      assert pathname[..|path|] == (path + "/")[..|path|];
      assert pathname[|path|] == (path + "/")[|path|];
    }
  }

  /** Every page below a link's path highlights the link. */
  lemma BelowIsActive(path: string, rest: string)
    ensures IsActivePath(path + "/" + rest, path)
  {
    assert (path + "/" + rest)[..|path| + 1] == path + "/";
  }

  /** A path that merely starts with the link's path, with no "/" after it, does not. */
  lemma NoBoundaryNotActive(path: string, c: char, rest: string)
    requires c != '/'
    ensures !IsActivePath(path + [c] + rest, path)
  {
    var pathname := path + [c] + rest;
    ActiveIff(pathname, path);
    assert pathname[|path|] == c;
  }

  /** The example of the menu: "/strategiesX" does not highlight "/strategies". */
  lemma StrategiesX()
    ensures !IsActivePath("/strategiesX", "/strategies")
    ensures IsActivePath("/strategies/42", "/strategies")
  {
    NoBoundaryNotActive("/strategies", 'X', "");
    assert "/strategies" + ['X'] + "" == "/strategiesX";
    BelowIsActive("/strategies", "42");
    assert "/strategies" + "/" + "42" == "/strategies/42";
  }

  /** A pathname shorter than the link's path is never active. */
  lemma ShorterNeverActive(pathname: string, path: string)
    requires |pathname| < |path|
    ensures !IsActivePath(pathname, path)
  {
  }
}
