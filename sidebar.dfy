/** The sidebar: which menu items a user sees, and which one is highlighted for the current path. */
module Sidebar {
  import opened Wrappers
  import opened Types
  import opened Text
  import opened Seqs
  import opened Menu

  /** The role check: a restricted item is hidden only from a present user whose role is not listed. */
  predicate RoleAllows(item: MenuItem, user: Option<AdminUser>) {
    !(item.roles.Some? && user.Some? && user.value.role !in item.roles.value)
  }

  /**
   * The feature check: a (non-empty) flag must be true in the settings. A flag the settings do
   * not carry finds the inherited member when it is an inherited property name, which is truthy.
   */
  predicate FlagAllows(item: MenuItem, features: map<string, bool>) {
    item.featureFlag.None? || item.featureFlag.value == ""
    || (item.featureFlag.value in features && features[item.featureFlag.value])
    || (item.featureFlag.value !in features && InheritedKey(item.featureFlag.value))
  }

  predicate Shown(item: MenuItem, user: Option<AdminUser>, features: map<string, bool>) {
    RoleAllows(item, user) && FlagAllows(item, features)
  }

  /** `filteredMenuItems` */
  function FilteredMenu(items: seq<MenuItem>, user: Option<AdminUser>, features: map<string, bool>): seq<MenuItem> {
    Filter(items, (item: MenuItem) => Shown(item, user, features))
  }

  /**
   * The menu keeps every occurrence of an item passing both checks and nothing else, in menu
   * order. An item with neither roles nor a flag always passes; with no user, roles hide nothing;
   * a flagged item is hidden exactly when its flag is off, or is neither a setting nor an
   * inherited property name.
   */
  lemma FilteredMenuExact(items: seq<MenuItem>, user: Option<AdminUser>, features: map<string, bool>, item: MenuItem)
    ensures multiset(FilteredMenu(items, user, features))[item]
      == if RoleAllows(item, user) && FlagAllows(item, features) then multiset(items)[item] else 0
    ensures item.roles.None? && item.featureFlag.None? ==> Shown(item, user, features)
    ensures user.None? ==> RoleAllows(item, user)
    ensures item.featureFlag.Some? && item.featureFlag.value != "" ==>
      (!FlagAllows(item, features) <==>
        if item.featureFlag.value in features then !features[item.featureFlag.value]
        else !InheritedKey(item.featureFlag.value))
  {
    FilterMultiset(items, (i: MenuItem) => Shown(i, user, features), item);
  }

  /** With the shipped settings, an unrestricted item flagged 'constructor' is shown: the lookup finds the inherited member. */
  lemma InheritedFlagShown(item: MenuItem, user: Option<AdminUser>)
    requires item.roles.None? && item.featureFlag == Some("constructor")
    ensures Shown(item, user, Features)
  {
    assert "constructor" !in Features;
  }

  /** Splitting the menu splits the filtered menu the same way: filtering keeps menu order. */
  lemma FilteredMenuOrder(front: seq<MenuItem>, back: seq<MenuItem>, user: Option<AdminUser>, features: map<string, bool>)
    ensures FilteredMenu(front + back, user, features) == FilteredMenu(front, user, features) + FilteredMenu(back, user, features)
  {
    FilterConcat(front, back, (i: MenuItem) => Shown(i, user, features));
  }

  /**
   * With the shipped menu and settings, a signed-in user sees the admin users entry exactly when
   * a super admin, and sees every other entry whatever the role.
   */
  lemma ShippedMenuByRole(u: AdminUser, k: int)
    requires 0 <= k < |MenuItems|
    ensures Shown(MenuItems[k], Some(u), Features) <==> (MenuItems[k].path != "/admin-users" || u.role == SuperAdmin)
  {
    assert "/admin-users" != "/" && "/admin-users" != "/products" && "/admin-users" != "/categories";
    assert "/admin-users" != "/orders" && "/admin-users" != "/customers" && "/admin-users" != "/banners";
    assert "/admin-users" != "/reviews" && "/admin-users" != "/legal-texts";
  }

  /** `isActive`: an exact match, or a prefix match for any item other than '/'. */
  predicate IsActive(pathname: string, path: string) {
    pathname == path || (path != "/" && StartsWith(pathname, path))
  }

  /** The root item is active only on the root itself. */
  lemma RootActiveOnlyOnRoot(pathname: string)
    ensures IsActive(pathname, "/") <==> pathname == "/"
  {
  }

  /** Any other item is active on every path it is a prefix of. */
  lemma ActiveOnPrefix(pathname: string, path: string, rest: string)
    requires path != "/"
    ensures IsActive(path + rest, path)
  {
    assert (path + rest)[..|path|] == path;
  }

  /** The prefix test does not stop at a path segment: '/orders' is active on '/orders-archive'. */
  lemma PrefixNotSegmentBounded()
    ensures IsActive("/orders-archive", "/orders")
  {
    ActiveOnPrefix("/orders-archive", "/orders", "-archive");
    assert "/orders" + "-archive" == "/orders-archive";
  }
}
