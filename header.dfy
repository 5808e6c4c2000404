/** The header: the page title taken from the menu, the alert bell, the search box and the two dropdowns. */
module Header {
  import opened Wrappers
  import opened Types
  import opened Text
  import opened Seqs
  import opened Menu
  import Sidebar

  /** The header's own match: '/' only on the root itself, any other item on every path it prefixes. */
  predicate Matches(item: MenuItem, pathname: string) {
    if item.path == "/" then pathname == "/" else StartsWith(pathname, item.path)
  }

  /** The header's match and the sidebar's highlight agree on every item and path. */
  lemma MatchesAgreesWithSidebar(item: MenuItem, pathname: string)
    ensures Matches(item, pathname) <==> Sidebar.IsActive(pathname, item.path)
  {
    if item.path != "/" && pathname == item.path {
      assert pathname[..|item.path|] == item.path;
    }
  }

  /** The position of the first matching item, or the length when none matches. */
  function ActiveIndex(items: seq<MenuItem>, pathname: string): (i: nat)
    ensures i <= |items|
    ensures i < |items| ==> Matches(items[i], pathname)
    ensures forall j :: 0 <= j < i ==> !Matches(items[j], pathname)
  {
    FindIndex(items, (item: MenuItem) => Matches(item, pathname))
  }

  /** `activeMenuItem`: the first item, in menu order, that matches the path. */
  function ActiveMenuItem(items: seq<MenuItem>, pathname: string): (r: Option<MenuItem>)
    ensures r.None? <==> forall j :: 0 <= j < |items| ==> !Matches(items[j], pathname)
    ensures r.Some? ==> r.value in items && Matches(r.value, pathname)
  {
    var i := ActiveIndex(items, pathname);
    if i < |items| then Some(items[i]) else None
  }

  /** `pageTitle`: the active item's label when there is one and it is not empty, else the default. */
  function PageTitle(items: seq<MenuItem>, pathname: string): (t: string)
    ensures t == DefaultPageTitle || (exists j :: 0 <= j < |items| && items[j].text == t && Matches(items[j], pathname))
    ensures ActiveMenuItem(items, pathname).None? ==> t == DefaultPageTitle
  {
    var item := ActiveMenuItem(items, pathname);
    if item.Some? && item.value.text != "" then item.value.text else DefaultPageTitle
  }

  /** Every prefix of the menu before the first match is skipped: the title comes from the first matching item. */
  lemma PageTitleFirstMatch(front: seq<MenuItem>, item: MenuItem, back: seq<MenuItem>, pathname: string)
    requires forall j :: 0 <= j < |front| ==> !Matches(front[j], pathname)
    requires Matches(item, pathname) && item.text != ""
    ensures PageTitle(front + [item] + back, pathname) == item.text
  {
    var items := front + [item] + back;
    var i := ActiveIndex(items, pathname);
    assert items[|front|] == item;
    assert forall j :: 0 <= j < |front| ==> items[j] == front[j];
    assert i == |front|;
  }

  /** The shipped menu: the root shows 'Dashboard', a product page 'Ürünler', a path outside the menu the default. */
  lemma ShippedTitles()
    ensures PageTitle(MenuItems, "/") == "Dashboard"
    ensures PageTitle(MenuItems, "/products/42") == "Ürünler"
    ensures PageTitle(MenuItems, "/settings") == DefaultPageTitle
  {
    RootTitle();
    ProductsTitle();
    SettingsMatchesNothing();
  }

  lemma RootTitle()
    ensures PageTitle(MenuItems, "/") == "Dashboard"
  {
    PageTitleFirstMatch([], MenuItems[0], MenuItems[1..], "/");
    assert [MenuItems[0]] + MenuItems[1..] == MenuItems;
  }

  lemma ProductsTitle()
    ensures PageTitle(MenuItems, "/products/42") == "Ürünler"
  {
    assert "/products/42"[..|"/products"|] == "/products";
    assert !Matches(MenuItems[0], "/products/42");
    PageTitleFirstMatch(MenuItems[..1], MenuItems[1], MenuItems[2..], "/products/42");
    assert MenuItems[..1] + [MenuItems[1]] + MenuItems[2..] == MenuItems;
  }

  /** A path that differs from `p` at a position of `p` does not start with `p`. */
  lemma DiffersAt(s: string, p: string, k: nat)
    requires k < |p| && k < |s| && s[k] != p[k]
    ensures !StartsWith(s, p)
  {
    if |p| <= |s| {
      assert s[..|p|][k] != p[k];
    }
  }

  /** No shipped menu item matches '/settings'. */
  lemma SettingsMatchesNothing()
    ensures forall j :: 0 <= j < |MenuItems| ==> !Matches(MenuItems[j], "/settings")
  {
    forall j | 1 <= j < |MenuItems|
      ensures !StartsWith("/settings", MenuItems[j].path)
    {
      var path := MenuItems[j].path;
      assert |path| >= 2 && path[1] != 's';
      DiffersAt("/settings", path, 1);
    }
  }

  predicate IsUrgent(a: SystemAlert) { a.kind == AlertError || a.kind == AlertWarning }
  predicate IsQuiet(a: SystemAlert) { a.kind == AlertInfo }
  predicate AnyAlert(a: SystemAlert) { true }

  /** `unreadAlerts`: the number of error and warning alerts. */
  function UnreadAlerts(alerts: seq<SystemAlert>): nat {
    Count(alerts, IsUrgent)
  }

  /** The unread count and the info alerts together account for every alert; the count is zero exactly without urgent alerts. */
  lemma {:induction false} UnreadAlertsSplit(alerts: seq<SystemAlert>)
    ensures UnreadAlerts(alerts) + Count(alerts, IsQuiet) == |alerts|
    ensures UnreadAlerts(alerts) == 0 <==> forall k :: 0 <= k < |alerts| ==> alerts[k].kind == AlertInfo
  {
    if alerts != [] {
      var tail := alerts[1..];
      UnreadAlertsSplit(tail);
      assert UnreadAlerts(alerts) == (if IsUrgent(alerts[0]) then 1 else 0) + UnreadAlerts(tail);
      assert Count(alerts, IsQuiet) == (if IsQuiet(alerts[0]) then 1 else 0) + Count(tail, IsQuiet);
      assert forall k :: 1 <= k < |alerts| ==> alerts[k] == tail[k - 1];
    }
  }

  const RedIcon := "🔴"
  const YellowIcon := "🟡"
  const BlueIcon := "🔵"

  /** `getAlertIcon`: red for 'error', yellow for 'warning', blue for any other type. */
  function AlertIcon(kind: string): (icon: string)
    ensures icon == RedIcon <==> kind == "error"
    ensures icon == YellowIcon <==> kind == "warning"
    ensures icon == BlueIcon <==> kind != "error" && kind != "warning"
  {
    if kind == "error" then RedIcon else if kind == "warning" then YellowIcon else BlueIcon
  }

  /** The dropdown lists the first five alerts. */
  function ListedAlerts(alerts: seq<SystemAlert>): (r: seq<SystemAlert>)
    ensures |r| <= 5 && |r| <= |alerts| && r == alerts[..|r|]
    ensures |alerts| >= 5 ==> |r| == 5
    ensures |alerts| < 5 ==> r == alerts
  {
    Take(alerts, 5)
  }

  class HeaderBar {
    var showNotifications: bool
    var showProfile: bool
    var searchQuery: string

    constructor ()
      ensures !showNotifications && !showProfile && searchQuery == ""
    {
      showNotifications := false;
      showProfile := false;
      searchQuery := "";
    }

    /** The clear button is shown only while there is a query. */
    predicate ShowsClear()
      reads this
    {
      searchQuery != ""
    }

    method Search(q: string)
      modifies this`searchQuery
      ensures searchQuery == q
    {
      searchQuery := q;
    }

    method ClearSearch()
      modifies this`searchQuery
      ensures searchQuery == "" && !ShowsClear()
    {
      searchQuery := "";
    }

    /** The bell toggles the notification dropdown and leaves the profile menu as it is. */
    method ToggleNotifications()
      modifies this`showNotifications
      ensures showNotifications == !old(showNotifications)
    {
      showNotifications := !showNotifications;
    }

    method ToggleProfile()
      modifies this`showProfile
      ensures showProfile == !old(showProfile)
    {
      showProfile := !showProfile;
    }

    /** A press outside a dropdown closes it; a press inside leaves it as it is. */
    method PressOutside(outsideNotifications: bool, outsideProfile: bool)
      modifies this`showNotifications, this`showProfile
      ensures showNotifications == (old(showNotifications) && !outsideNotifications)
      ensures showProfile == (old(showProfile) && !outsideProfile)
    {
      if outsideNotifications {
        showNotifications := false;
      }
      if outsideProfile {
        showProfile := false;
      }
    }
  }
}
