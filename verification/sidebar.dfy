/** The dashboard sidebar: its fixed navigation list and which entries are highlighted
    for the current path. */
module Sidebar {
  import opened Text

  datatype NavItem = NavItem(name: string, href: string)

  /** `navigation`, in display order. */
  const NAVIGATION: seq<NavItem> := [
    NavItem("Dashboard", "/dashboard"),
    NavItem("Usuarios", "/dashboard/usuarios"),
    NavItem("Tracking Rutas", "/dashboard/tracking"),
    NavItem("Cobros", "/dashboard/cobros"),
    NavItem("Arqueos", "/dashboard/encajes")
  ]

  /** `pathname === item.href || pathname.startsWith(item.href + '/')`. */
  predicate IsActive(pathname: string, href: string)
  {
    pathname == href || StartsWith(pathname, href + "/")
  }

  /** An entry is active on its own path and on every path below it, a path below it
      being its href followed by a slash; a path that merely extends the href's text
      is not below it. */
  lemma IsActiveSpec(pathname: string, href: string)
    ensures IsActive(pathname, href) <==>
      pathname == href
      || (|pathname| > |href| && pathname[..|href|] == href && pathname[|href|] == '/')
  {
    if |pathname| > |href| {
      assert (href + "/")[..|href|] == href;
      assert pathname[..|href| + 1][..|href|] == pathname[..|href|];
      if pathname[..|href|] == href && pathname[|href|] == '/' {
        assert pathname[..|href| + 1] == href + "/";
      }
    }
  }

  /** The list has five entries, the dashboard first and each section below it. */
  lemma NavigationShape()
    ensures |NAVIGATION| == 5
    ensures NAVIGATION[0].href == "/dashboard"
    ensures forall i :: 1 <= i < |NAVIGATION| ==> StartsWith(NAVIGATION[i].href, "/dashboard/")
  {
  }

  /** The dashboard entry is active on every section page, so on a section page two
      entries are highlighted at once; no page highlights two sections. */
  lemma ActiveEntries(pathname: string)
    ensures StartsWith(pathname, "/dashboard/") ==> IsActive(pathname, NAVIGATION[0].href)
    ensures forall i, j :: 1 <= i < j < |NAVIGATION| ==>
      !(IsActive(pathname, NAVIGATION[i].href) && IsActive(pathname, NAVIGATION[j].href))
  {
    forall i | 1 <= i < |NAVIGATION| && IsActive(pathname, NAVIGATION[i].href)
      ensures |pathname| > 11 && pathname[11] == NAVIGATION[i].href[11]
    {
      IsActiveSpec(pathname, NAVIGATION[i].href);
      assert |NAVIGATION[i].href| > 11;
      if pathname != NAVIGATION[i].href {
        assert pathname[..|NAVIGATION[i].href|][11] == pathname[11];
      }
    }
  }
}
