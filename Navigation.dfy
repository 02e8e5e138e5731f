/** The navigation bar: its items and which of them is highlighted for the current path. */
module Navigation {
  import opened Text

  datatype NavItem = NavItem(name: string, href: string)

  /** `navItems`, in display order */
  const NavItems: seq<NavItem> := [
    NavItem("Home", "/"),
    NavItem("Tutorials", "/tutorials"),
    NavItem("Prompts", "/prompts"),
    NavItem("Submit", "/submit"),
    NavItem("About", "/about")
  ]

  /** `isActive`: the root only on itself, every other path on any pathname it is a prefix of */
  predicate IsActive(pathname: string, path: string) {
    if path == "/" then pathname == "/" else StartsWith(pathname, path)
  }

  lemma RootActiveOnlyOnRoot(pathname: string)
    ensures IsActive(pathname, "/") <==> pathname == "/"
  {
  }

  /** Off the root, a path is active on itself and on every extension of it, and only there. */
  lemma PrefixActive(path: string, pathname: string)
    requires path != "/"
    ensures IsActive(pathname, path) <==> exists rest :: pathname == path + rest
  {
    if IsActive(pathname, path) {
      assert pathname == path + pathname[|path|..];
    }
  }

  lemma ActiveOnExtension(path: string, rest: string)
    requires path != "/"
    ensures IsActive(path + rest, path)
  {
    assert (path + rest)[..|path|] == path;
  }

  /** On the root only Home is highlighted. */
  lemma OnlyHomeOnRoot()
    ensures forall i :: 0 <= i < |NavItems| ==> (IsActive("/", NavItems[i].href) <==> i == 0)
  {
  }

  /** No pathname highlights two items: the hrefs other than "/" differ in their second character. */
  lemma AtMostOneActive(pathname: string)
    ensures forall i, j :: 0 <= i < j < |NavItems| ==>
      !(IsActive(pathname, NavItems[i].href) && IsActive(pathname, NavItems[j].href))
  {
    forall i, j | 0 <= i < j < |NavItems| && IsActive(pathname, NavItems[i].href)
      ensures !IsActive(pathname, NavItems[j].href)
    {
      var hi, hj := NavItems[i].href, NavItems[j].href;
      assert |hj| > 1 && hj[0] == '/';
      if i == 0 {
        assert pathname == "/";
      } else {
        assert pathname[1] == hi[1];
        assert hi[1] != hj[1];
      }
    }
  }

  /** Prefix matching is literal, not by path segment: "/tutorials" is not active on "/tutorial/1". */
  lemma SegmentsNotConsidered()
    ensures !IsActive("/tutorial/1", "/tutorials")
    ensures IsActive("/tutorialsX", "/tutorials")
  {
    assert "/tutorial/1"[9] != "/tutorials"[9];
    assert "/tutorialsX"[..10] == "/tutorials";
  }
}
