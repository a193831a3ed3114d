/**
 * The navigation sidebar's highlighting: which of the five navigation items
 * is shown as the current page for a pathname, and when the separate
 * Settings link is.
 */
module Sidebar {
  import opened Text

  datatype NavItem = NavItem(name: string, href: string)

  /** The navigation items, top to bottom. */
  const NavItems: seq<NavItem> := [
    NavItem("Dashboard", "/"),
    NavItem("Clients", "/clients"),
    NavItem("People Discovery", "/people-discovery"),
    NavItem("Strategy", "/strategy"),
    NavItem("Workshops", "/workshops")
  ]

  /**
   * An item is active on its own path and, unless it is the root, on every
   * path that starts with its href (a plain string prefix, not a path
   * segment).
   */
  predicate IsActive(pathname: string, href: string)
  {
    pathname == href || (href != "/" && StartsWith(pathname, href))
  }

  /** The Settings link is highlighted on exactly one path. */
  predicate SettingsHighlighted(pathname: string)
  {
    pathname == "/settings"
  }

  /** The root item is active only on the root path. */
  lemma RootActiveIff(pathname: string)
    ensures IsActive(pathname, "/") <==> pathname == "/"
  {
  }

  /** Every item is active on its own href. */
  lemma ActiveOnOwnHref(item: NavItem)
    ensures IsActive(item.href, item.href)
  {
  }

  /** A non-root item is active on everything below or beside its href that shares the prefix. */
  lemma ActiveOnPrefix(pathname: string, href: string, rest: string)
    requires href != "/" && pathname == href + rest
    ensures IsActive(pathname, href)
  {
    assert pathname[..|href|] == href;
  }

  /** Because the test is a string prefix, "/clients-x" highlights Clients. */
  lemma PrefixIsNotSegmentAware()
    ensures IsActive("/clients-x", "/clients")
  {
    ActiveOnPrefix("/clients-x", "/clients", "-x");
  }

  /**
   * Which navigation item a pathname belongs to, read off its first one or
   * two letters after the slash; 5 for none.
   */
  function Section(pathname: string): nat
  {
    if pathname == "/" then 0
    else if |pathname| >= 2 && pathname[1] == 'c' then 1
    else if |pathname| >= 2 && pathname[1] == 'p' then 2
    else if |pathname| >= 3 && pathname[1] == 's' && pathname[2] == 't' then 3
    else if |pathname| >= 2 && pathname[1] == 'w' then 4
    else 5
  }

  /** An active item is the pathname's section. */
  lemma ActiveItemIsSection(pathname: string, k: nat)
    requires k < |NavItems|
    ensures IsActive(pathname, NavItems[k].href) ==> Section(pathname) == k
  {
    var h := NavItems[k].href;
    if IsActive(pathname, h) && h != "/" {
      assert pathname[..|h|] == h;
      assert pathname[1] == h[1] && pathname[2] == h[2];
    }
  }

  /** With this table, no pathname makes two navigation items active at once. */
  lemma AtMostOneActive(pathname: string, i: nat, j: nat)
    requires i < |NavItems| && j < |NavItems|
    requires IsActive(pathname, NavItems[i].href) && IsActive(pathname, NavItems[j].href)
    ensures i == j
  {
    ActiveItemIsSection(pathname, i);
    ActiveItemIsSection(pathname, j);
  }

  /** On the Settings path, Settings is highlighted and no navigation item is. */
  lemma SettingsExclusive(pathname: string)
    ensures SettingsHighlighted(pathname) ==> forall k :: 0 <= k < |NavItems| ==> !IsActive(pathname, NavItems[k].href)
  {
    forall k | 0 <= k < |NavItems| ensures SettingsHighlighted(pathname) ==> !IsActive(pathname, NavItems[k].href) {
      ActiveItemIsSection(pathname, k);
    }
  }
}
