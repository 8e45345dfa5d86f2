/**
 * The desktop sidebar (components/layout/Sidebar.tsx): six fixed entries
 * under `/dashboard`, the first of which is highlighted only on
 * `/dashboard` itself.
 */
module Sidebar {
  import opened Common
  import opened Navigation

  const Root: string := "/dashboard"

  const MenuItems: seq<MenuItem> := [
    MenuItem("/dashboard", "لوحة التحكم"),
    MenuItem("/dashboard/projects", "المشاريع"),
    MenuItem("/dashboard/clients", "العملاء"),
    MenuItem("/dashboard/finance", "المالية"),
    MenuItem("/dashboard/hr", "الموارد البشرية"),
    MenuItem("/dashboard/settings", "الإعدادات")
  ]

  /** Which entries the sidebar highlights on `pathname`. */
  function Active(pathname: string): (r: seq<bool>)
    ensures |r| == 6
    ensures r[0] <==> pathname == "/dashboard"
    ensures forall i :: 1 <= i < 6 ==> (r[i] <==> StartsWith(pathname, MenuItems[i].href))
  {
    ActiveFlags(Root, MenuItems, pathname)
  }

  /** Apart from the root's, none of the six hrefs is a prefix of another. */
  lemma MenuPrefixFree()
    ensures PrefixFree(Root, MenuItems)
  {
    forall i, j | 0 <= i < 6 && 0 <= j < 6 && i != j
      ensures MenuItems[i].href != Root ==> !StartsWith(MenuItems[j].href, MenuItems[i].href)
    {
      var a, b := MenuItems[i].href, MenuItems[j].href;
      assert i == 0 || i == 1 || i == 2 || i == 3 || i == 4 || i == 5;
      assert j == 0 || j == 1 || j == 2 || j == 3 || j == 4 || j == 5;
      if a != Root && |a| <= |b| {
        assert b[..|a|][11] == b[11];
      }
    }
  }

  /** On any pathname at most one entry is highlighted. */
  lemma AtMostOneActive(pathname: string)
    ensures forall i, j :: 0 <= i < 6 && 0 <= j < 6 && i != j ==> !(Active(pathname)[i] && Active(pathname)[j])
  {
    MenuPrefixFree();
    Navigation.AtMostOneActive(Root, MenuItems, pathname);
  }

  /** A page under a section keeps that section highlighted, and the dashboard entry is not. */
  lemma SectionPageActivatesSection(i: nat, rest: string)
    requires 1 <= i < 6
    ensures Active(MenuItems[i].href + rest)[i]
    ensures !Active(MenuItems[i].href + rest)[0]
  {
    var p := MenuItems[i].href + rest;
    assert p[..|MenuItems[i].href|] == MenuItems[i].href;
    assert |p| > 10;
  }

  /** The prefix test ignores segment boundaries: `/dashboard/hrx` highlights the HR entry. */
  lemma HrLookalike()
    ensures Active("/dashboard/hrx") == [false, false, false, false, true, false]
  {
    var p := "/dashboard/hrx";
    assert p[..13] == "/dashboard/hr";
    AtMostOneActive(p);
  }
}
