/**
 * The highlighting rule both navigation menus share: the menu's root entry is
 * active only on its own path, every other entry on any path that starts with
 * its href, with no regard to segment boundaries.
 */
module Navigation {
  import opened Common

  /** An entry of a `menuItems` table; the icon is left out and `label` is the caption. */
  datatype MenuItem = MenuItem(href: string, caption: string)

  /** `item.href === root ? pathname === root : pathname.startsWith(item.href)`. */
  predicate IsActive(root: string, href: string, pathname: string)
  {
    if href == root then pathname == root else StartsWith(pathname, href)
  }

  /** The highlight flag of each entry, in menu order. */
  function ActiveFlags(root: string, items: seq<MenuItem>, pathname: string): (r: seq<bool>)
    ensures |r| == |items|
    ensures forall i :: 0 <= i < |items| ==> (r[i] <==> IsActive(root, items[i].href, pathname))
  {
    seq(|items|, i requires 0 <= i < |items| => IsActive(root, items[i].href, pathname))
  }

  /**
   * No href other than the root's is a prefix of another entry's href, and
   * the root appears once. The root's own href is a prefix of the others.
   */
  predicate PrefixFree(root: string, items: seq<MenuItem>)
  {
    forall i, j :: 0 <= i < |items| && 0 <= j < |items| && i != j ==>
      (items[i].href != root ==> !StartsWith(items[j].href, items[i].href))
      && !(items[i].href == root && items[j].href == root)
  }

  /**
   * In a prefix-free menu at most one entry is active on any pathname: two
   * active non-root entries would both be prefixes of the pathname, so the
   * shorter would be a prefix of the longer; an active root entry means the
   * pathname is the root's href, which no other entry's href is a prefix of.
   */
  lemma AtMostOneActive(root: string, items: seq<MenuItem>, pathname: string)
    requires PrefixFree(root, items)
    ensures forall i, j :: 0 <= i < |items| && 0 <= j < |items| && i != j ==>
      !(ActiveFlags(root, items, pathname)[i] && ActiveFlags(root, items, pathname)[j])
  {
    var flags := ActiveFlags(root, items, pathname);
    forall i, j | 0 <= i < |items| && 0 <= j < |items| && i != j
      ensures !(flags[i] && flags[j])
    {
      var a, b := items[i].href, items[j].href;
      if flags[i] && flags[j] && a != root && b != root {
        if |a| <= |b| {
          PrefixesComparable(pathname, a, b);
        } else {
          PrefixesComparable(pathname, b, a);
        }
      }
    }
  }
}
