/**
 * The bottom tab bar: five tabs, each a path and a label (`name`, since `label` is a Dafny
 * keyword), and the rule that highlights the tab of the current location.
 */
module TabBar {
  import opened JsText

  datatype NavItem = NavItem(path: string, name: string)

  /** `navItems`, in display order. */
  const NavItems: seq<NavItem> := [
    NavItem("/", "Home"),
    NavItem("/markets", "Markets"),
    NavItem("/trading-interface", "Trade"),
    NavItem("/wallet-management", "Wallet"),
    NavItem("/earn-section", "Earn")
  ]

  /** `isActive`: the pathname is the tab's path, or the tab is Home and the pathname starts with "/#". */
  predicate IsActive(pathname: string, path: string)
  {
    pathname == path || (path == "/" && StartsWith(pathname, "/#"))
  }

  /** The indices of the tabs highlighted for a pathname, in display order. */
  function ActiveTabs(pathname: string): (r: seq<nat>)
    ensures forall k :: 0 <= k < |r| ==> r[k] < |NavItems| && IsActive(pathname, NavItems[r[k]].path)
    ensures forall i :: 0 <= i < |NavItems| && IsActive(pathname, NavItems[i].path) ==> i in r
  {
    ActiveFrom(pathname, 0)
  }

  /** The highlighted tabs among those from index `i` on. */
  function ActiveFrom(pathname: string, i: nat): (r: seq<nat>)
    requires i <= |NavItems|
    ensures forall k :: 0 <= k < |r| ==> i <= r[k] < |NavItems| && IsActive(pathname, NavItems[r[k]].path)
    ensures forall j :: i <= j < |NavItems| && IsActive(pathname, NavItems[j].path) ==> j in r
    decreases |NavItems| - i
  {
    if i == |NavItems| then []
    else if IsActive(pathname, NavItems[i].path) then [i] + ActiveFrom(pathname, i + 1)
    else ActiveFrom(pathname, i + 1)
  }

  /** No two tabs share a path. */
  lemma PathsDistinct()
    ensures forall i, j :: 0 <= i < j < |NavItems| ==> NavItems[i].path != NavItems[j].path
  {
  }

  /** A tab other than Home is active exactly on its own path. */
  lemma NonRootActiveIff(i: nat, pathname: string)
    requires 0 < i < |NavItems|
    ensures IsActive(pathname, NavItems[i].path) <==> pathname == NavItems[i].path
  {
  }

  /** Home is active on "/" and on every pathname that starts with "/#". */
  lemma HomeActive(pathname: string)
    requires pathname == "/" || StartsWith(pathname, "/#")
    ensures IsActive(pathname, NavItems[0].path)
  {
  }

  /** A pathname starting with "/#" activates Home and nothing else. */
  lemma HashPathOnlyHome(pathname: string)
    requires StartsWith(pathname, "/#")
    ensures ActiveTabs(pathname) == [0]
  {
    assert IsActive(pathname, NavItems[0].path);
    NoTabAfterHome(pathname, 1);
  }

  /** Past Home, no tab path has `#` as its second character. */
  lemma {:induction false} NoTabAfterHome(pathname: string, i: nat)
    requires 1 <= i <= |NavItems| && StartsWith(pathname, "/#")
    ensures ActiveFrom(pathname, i) == []
    decreases |NavItems| - i
  {
    if i < |NavItems| {
      var path := NavItems[i].path;
      assert |path| > 1 && path[1] != '#';
      assert pathname[1] == '#';
      NoTabAfterHome(pathname, i + 1);
    }
  }

  /** At most one tab is highlighted, whatever the pathname. */
  lemma AtMostOneActive(pathname: string)
    ensures |ActiveTabs(pathname)| <= 1
  {
    if StartsWith(pathname, "/#") {
      HashPathOnlyHome(pathname);
    } else {
      PathsDistinct();
      OnlyOnOwnPath(pathname, 0);
    }
  }

  /** Away from "/#…" the highlighted tabs from `i` on are at most the one whose path is the pathname. */
  lemma {:induction false} OnlyOnOwnPath(pathname: string, i: nat)
    requires i <= |NavItems| && !StartsWith(pathname, "/#")
    requires forall a, b :: 0 <= a < b < |NavItems| ==> NavItems[a].path != NavItems[b].path
    ensures |ActiveFrom(pathname, i)| <= 1
    ensures forall k :: 0 <= k < |ActiveFrom(pathname, i)| ==> NavItems[ActiveFrom(pathname, i)[k]].path == pathname
    decreases |NavItems| - i
  {
    if i < |NavItems| {
      OnlyOnOwnPath(pathname, i + 1);
    }
  }

  /** A pathname that is no tab's path and does not start with "/#" highlights nothing. */
  lemma UnknownPathNoTab(pathname: string)
    requires forall i :: 0 <= i < |NavItems| ==> NavItems[i].path != pathname
    requires !StartsWith(pathname, "/#")
    ensures ActiveTabs(pathname) == []
  {
  }
}
