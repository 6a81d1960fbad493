/** The navigation bar's active-link rule. */
module Header {
  /** `location.pathname.startsWith(path)`. */
  predicate StartsWith(pathname: string, path: string) {
    |path| <= |pathname| && pathname[..|path|] == path
  }

  /** `isActive(path)`: the home link is active only on the home page; any
      other link is active on every pathname that begins with its path. */
  function IsActive(pathname: string, path: string): (active: bool)
    ensures path == "/" ==> (active <==> pathname == "/")
    ensures path != "/" ==> (active <==> path <= pathname)
  {
    if path == "/" && pathname == "/" then true
    else if path != "/" && StartsWith(pathname, path) then true
    else false
  }

  /** The paths the header links to (the mobile menu's list, which adds `/login`). */
  const NavPaths: seq<string> := ["/", "/about", "/services", "/pricing", "/how-it-works", "/blog", "/login"]

  /** A link is always active on its own page. */
  lemma ActiveOnOwnPage(path: string)
    ensures IsActive(path, path)
  {
  }

  /** A nested route keeps its section's link active. */
  lemma BlogActiveWhileEditing()
    ensures IsActive("/blog/edit/3", "/blog")
  {
    assert "/blog" <= "/blog/edit/3";
  }

  /** The prefix test has no segment boundary: `/blog` is active on `/blogroll`. */
  lemma BlogActiveOnBlogroll()
    ensures IsActive("/blogroll", "/blog")
  {
    assert "/blog" <= "/blogroll";
  }

  /** Two prefixes of the same string are prefixes of one another. */
  lemma PrefixesNest(p: string, q: string, x: string)
    requires p <= x && q <= x
    ensures p <= q || q <= p
  {
    if |p| <= |q| {
      assert q[..|p|] == x[..|p|];
    } else {
      assert p[..|q|] == x[..|q|];
    }
  }

  /** Every link but the home link has a path of two or more characters, and
      no two of them share their second character. */
  lemma NavPathsDistinctHeads()
    ensures NavPaths[0] == "/"
    ensures forall i :: 1 <= i < |NavPaths| ==> |NavPaths[i]| >= 2
    ensures forall i, j :: 1 <= i < j < |NavPaths| ==> NavPaths[i][1] != NavPaths[j][1]
  {
  }

  lemma SecondCharSeparates(p: string, q: string)
    requires |p| >= 2 && |q| >= 2 && p[1] != q[1]
    ensures !(p <= q)
  {
  }

  lemma NavPathsNotNested()
    ensures forall i, j :: 0 <= i < |NavPaths| && 0 <= j < |NavPaths| && i != j && NavPaths[i] != "/" ==>
      !(NavPaths[i] <= NavPaths[j])
  {
    NavPathsDistinctHeads();
    forall i, j | 0 <= i < |NavPaths| && 0 <= j < |NavPaths| && i != j && NavPaths[i] != "/"
      ensures !(NavPaths[i] <= NavPaths[j])
    {
      if j > 0 {
        SecondCharSeparates(NavPaths[i], NavPaths[j]);
      }
    }
  }

  /** On any page at most one header link is highlighted. */
  lemma AtMostOneActive(pathname: string, i: nat, j: nat)
    requires i < |NavPaths| && j < |NavPaths|
    requires IsActive(pathname, NavPaths[i]) && IsActive(pathname, NavPaths[j])
    ensures i == j
  {
    NavPathsNotNested();
    var p, q := NavPaths[i], NavPaths[j];
    if p == "/" || q == "/" {
      assert pathname == "/";
    } else {
      PrefixesNest(p, q, pathname);
    }
  }
}
