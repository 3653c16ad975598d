/** The bottom navigation bar on small screens: four links for every user,
    a fifth to the admin dashboard for admins, none without a user, and the
    link whose path equals the current location drawn as active. */
module MobileNav {
  import opened Types

  datatype NavIcon = MapIcon | ReportIcon | CleanupIcon | RewardsIcon | AdminIcon

  datatype NavItem = NavItem(path: string, caption: string, icon: NavIcon)

  /** The items every signed-in user sees, in order. */
  const BaseItems: seq<NavItem> := [
    NavItem("/", "Map", MapIcon),
    NavItem("/report", "Report", ReportIcon),
    NavItem("/cleanup", "Cleanup", CleanupIcon),
    NavItem("/rewards", "Rewards", RewardsIcon)
  ]

  const AdminItem := NavItem("/admin", "Admin", AdminIcon)

  /** The bar's items: the four base items, then the admin item for an
      admin only; None when there is no user and nothing is drawn. */
  method NavItems(user: Option<User>) returns (items: Option<seq<NavItem>>)
    ensures items.None? <==> user.None?
    ensures user.Some? ==>
      && |items.value| == (if user.value.role == Admin then 5 else 4)
      && items.value[..4] == BaseItems
      && (AdminItem in items.value <==> user.value.role == Admin)
      && (user.value.role == Admin ==> items.value[4] == AdminItem)
  {
    if user.None? {
      return None;
    }
    var navItems := BaseItems;
    if user.value.role == Admin {
      navItems := navItems + [AdminItem];
    }
    assert AdminItem !in BaseItems;
    return Some(navItems);
  }

  /** An item is highlighted when its path equals the current location exactly. */
  predicate IsActive(pathname: string, path: string)
  {
    pathname == path
  }

  /** The paths of the items, which serve as the links' keys. */
  function Paths(items: seq<NavItem>): (ps: seq<string>)
    ensures |ps| == |items|
    ensures forall i :: 0 <= i < |items| ==> ps[i] == items[i].path
  {
    if items == [] then [] else [items[0].path] + Paths(items[1..])
  }

  predicate DistinctPaths(items: seq<NavItem>)
  {
    forall i, j :: 0 <= i < j < |items| ==> items[i].path != items[j].path
  }

  /** No two items share a path, for either role: every path but "/" has
      its own length, and "/" is the only one-character path. */
  lemma PathsDistinct(items: seq<NavItem>)
    requires items == BaseItems || items == BaseItems + [AdminItem]
    ensures DistinctPaths(items)
  {
    var all := BaseItems + [AdminItem];
    assert Paths(all) == ["/", "/report", "/cleanup", "/rewards", "/admin"];
    assert |all[0].path| == 1 && |all[1].path| == 7 && |all[2].path| == 8 && |all[4].path| == 6;
    assert all[3].path != all[1].path && all[3].path != all[2].path;
    assert DistinctPaths(all);
    assert items == all[..|items|];
  }

  /** With distinct paths at most one item is active at any location, and
      one is exactly when the location is one of the item paths. */
  lemma ActiveIsUnique(items: seq<NavItem>, pathname: string)
    requires DistinctPaths(items)
    ensures forall i, j ::
      0 <= i < |items| && 0 <= j < |items| && IsActive(pathname, items[i].path) && IsActive(pathname, items[j].path)
      ==> i == j
    ensures (exists i :: 0 <= i < |items| && IsActive(pathname, items[i].path)) <==> pathname in Paths(items)
  {
    if pathname in Paths(items) {
      var i :| 0 <= i < |items| && Paths(items)[i] == pathname;
      assert IsActive(pathname, items[i].path);
    }
  }
}
