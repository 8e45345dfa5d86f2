/**
 * The mobile drawer (components/layout/MobileSidebar.tsx): nothing at all
 * while closed; when open, seven fixed entries rooted at `/`, the first of
 * which is highlighted only on `/` itself.
 */
module MobileSidebar {
  import opened Common
  import opened Navigation

  const Root: string := "/"

  const MenuItems: seq<MenuItem> := [
    MenuItem("/", "لوحة التحكم"),
    MenuItem("/projects", "المشاريع"),
    MenuItem("/tasks", "المهام"),
    MenuItem("/clients", "العملاء"),
    MenuItem("/finance", "المالية"),
    MenuItem("/hr", "الموارد البشرية"),
    MenuItem("/settings", "الإعدادات")
  ]

  /** The drawer as rendered: None when closed, otherwise each entry's highlight flag. */
  function Render(isOpen: bool, pathname: string): (r: Option<seq<bool>>)
    ensures r.None? <==> !isOpen
    ensures r.Some? ==> |r.value| == 7
    ensures r.Some? ==> (r.value[0] <==> pathname == "/")
    ensures r.Some? ==> forall i :: 1 <= i < 7 ==> (r.value[i] <==> StartsWith(pathname, MenuItems[i].href))
  {
    if !isOpen then None else Some(ActiveFlags(Root, MenuItems, pathname))
  }

  /** Apart from the root's, none of the seven hrefs is a prefix of another. */
  lemma MenuPrefixFree()
    ensures PrefixFree(Root, MenuItems)
  {
    forall i, j | 0 <= i < 7 && 0 <= j < 7 && i != j
      ensures MenuItems[i].href != Root ==> !StartsWith(MenuItems[j].href, MenuItems[i].href)
    {
      var a, b := MenuItems[i].href, MenuItems[j].href;
      assert i == 0 || i == 1 || i == 2 || i == 3 || i == 4 || i == 5 || i == 6;
      assert j == 0 || j == 1 || j == 2 || j == 3 || j == 4 || j == 5 || j == 6;
      if a != Root && |a| <= |b| {
        assert b[..|a|][1] == b[1];
      }
    }
  }

  /** On any pathname the open drawer highlights at most one entry. */
  lemma AtMostOneActive(pathname: string)
    ensures forall i, j :: 0 <= i < 7 && 0 <= j < 7 && i != j ==>
      !(Render(true, pathname).value[i] && Render(true, pathname).value[j])
  {
    MenuPrefixFree();
    Navigation.AtMostOneActive(Root, MenuItems, pathname);
  }

  /** The root entry is not highlighted on any other page, although every path starts with `/`. */
  lemma RootOnlyOnRoot(pathname: string)
    requires pathname != "/"
    ensures !Render(true, pathname).value[0]
  {
  }

  /** Every page under `/tasks` highlights the tasks entry and nothing else. */
  lemma TasksPageActivatesOnlyTasks(rest: string)
    ensures Render(true, "/tasks" + rest) == Some([false, false, true, false, false, false, false])
  {
    var p := "/tasks" + rest;
    assert p[..6] == MenuItems[2].href;
    assert p != "/" by { assert |p| >= 6; }
    AtMostOneActive(p);
    var r := Render(true, p).value;
    assert r[2];
    assert forall i :: 0 <= i < 7 && i != 2 ==> !r[i];
    assert r == [r[0], r[1], r[2], r[3], r[4], r[5], r[6]];
  }
}
