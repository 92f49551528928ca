/**
 * The dashboard's side navigation: the links a role sees, in order, and
 * which link is highlighted for the current path.
 */
module Sidebar {
  import opened JsValues
  import Text

  datatype NavItem = NavItem(name: string, path: string)

  const DashboardPath: string := "/dashboard"

  const BaseItems: seq<NavItem> := [NavItem("Dashboard", "/dashboard")]
  const SharedItems: seq<NavItem> :=
    [NavItem("Manage Bookings", "/dashboard/bookings"), NavItem("View Events", "/dashboard/events")]
  const ManagerItems: seq<NavItem> := [NavItem("Create Events", "/dashboard/create-events")]
  const UserItems: seq<NavItem> :=
    [NavItem("Book Cafe", "/dashboard/book-cafe"), NavItem("Book Seats", "/dashboard/book-seats")]
  const ManagerOnlyItems: seq<NavItem> := [NavItem("Book Meeting Room", "/dashboard/book-meeting-room")]
  const NotificationsItem: seq<NavItem> := [NavItem("Notifications", "/dashboard/notifications")]

  /** `getNavItems()` for the fetched role; only the string "Manager" counts as a manager. */
  function NavItems(role: JsValue): (items: seq<NavItem>)
    ensures role == Str("Manager") ==>
      items == BaseItems + SharedItems + ManagerItems + UserItems + ManagerOnlyItems + NotificationsItem
    ensures role != Str("Manager") ==> items == BaseItems + SharedItems + UserItems + NotificationsItem
  {
    if role == Str("Manager") then
      BaseItems + SharedItems + ManagerItems + UserItems + ManagerOnlyItems + NotificationsItem
    else
      BaseItems + SharedItems + UserItems + NotificationsItem
  }

  /** `a` is `b` with some entries dropped, the rest in the same order. */
  predicate IsSubsequence<T(==)>(a: seq<T>, b: seq<T>)
    decreases |b|
  {
    if a == [] then true
    else if b == [] then false
    else if a[0] == b[0] then IsSubsequence(a[1..], b[1..])
    else IsSubsequence(a, b[1..])
  }

  /** The manager sees eight links and everyone else six, the manager-only pages missing. */
  lemma NavItemCounts(role: JsValue)
    ensures role == Str("Manager") ==> |NavItems(role)| == 8
    ensures role != Str("Manager") ==> |NavItems(role)| == 6
    ensures role != Str("Manager") ==>
      forall item :: item in NavItems(role) ==>
        item.path != "/dashboard/create-events" && item.path != "/dashboard/book-meeting-room"
  {
  }

  /** Everything a non-manager sees, the manager sees too, in the same order. */
  lemma NonManagerItemsAreSubsequence(role: JsValue)
    requires role != Str("Manager")
    ensures IsSubsequence(NavItems(role), NavItems(Str("Manager")))
  {
    var m := NavItems(Str("Manager"));
    var u := NavItems(role);
    assert u == [m[0], m[1], m[2], m[4], m[5], m[7]];
    assert IsSubsequence(u[5..], m[7..]);
    assert IsSubsequence(u[5..], m[6..]);
    assert IsSubsequence(u[4..], m[5..]);
    assert IsSubsequence(u[3..], m[4..]);
    assert IsSubsequence(u[3..], m[3..]);
    assert IsSubsequence(u[2..], m[2..]);
    assert IsSubsequence(u[1..], m[1..]);
  }

  /** Whatever the role, the list starts with the Dashboard and ends with Notifications. */
  lemma FirstAndLastItems(role: JsValue)
    ensures NavItems(role)[0] == NavItem("Dashboard", "/dashboard")
    ensures NavItems(role)[|NavItems(role)| - 1] == NavItem("Notifications", "/dashboard/notifications")
  {
  }

  /** Every path appears once in each list, as React keys must. */
  lemma PathsAreDistinct(role: JsValue)
    ensures forall i, j :: 0 <= i < j < |NavItems(role)| ==> NavItems(role)[i].path != NavItems(role)[j].path
  {
  }

  /** `isActive(path)` for the current `pathname`. */
  predicate IsActive(pathname: string, path: string): (b: bool)
    ensures path == DashboardPath ==> (b <==> pathname == DashboardPath)
    ensures path != DashboardPath ==> (b <==> |path| <= |pathname| && pathname[..|path|] == path)
  {
    if path == DashboardPath then pathname == DashboardPath else Text.StartsWith(pathname, path)
  }

  /** The Dashboard link is highlighted on its own page only, not on the pages below it. */
  lemma DashboardActiveOnlyThere(pathname: string)
    ensures IsActive(pathname, DashboardPath) <==> pathname == DashboardPath
  {
  }

  /** Any other link is highlighted on its page and on every path below it. */
  lemma ItemActiveBelowItsPath(path: string, rest: string)
    requires path != DashboardPath
    ensures IsActive(path + rest, path)
  {
    assert (path + rest)[..|path|] == path;
  }

  /** Two prefixes of one string: the shorter is a prefix of the longer. */
  lemma PrefixesNest(s: string, p: string, q: string)
    requires Text.StartsWith(s, p) && Text.StartsWith(s, q) && |p| <= |q|
    ensures Text.StartsWith(q, p)
  {
    assert q[..|p|] == s[..|q|][..|p|];
  }

  /** No path in the list, other than the Dashboard's, is a prefix of another. */
  predicate PrefixFree(items: seq<NavItem>) {
    forall i, j :: 0 <= i < |items| && 0 <= j < |items| && i != j && items[i].path != DashboardPath ==>
      !Text.StartsWith(items[j].path, items[i].path)
  }

  /** Characters 11, 15 and 16 of a path below the dashboard tell the pages apart. */
  function Tag(path: string): string {
    if |path| > 16 then [path[11], path[15], path[16]] else ""
  }

  /** A path that extends another, longer than 16 characters, carries its tag. */
  lemma ExtensionKeepsTag(p: string, q: string)
    requires |p| > 16
    ensures Text.StartsWith(q, p) ==> Tag(q) == Tag(p)
  {
    if Text.StartsWith(q, p) {
      assert q[..|p|] == p;
      assert q[11] == q[..|p|][11] && q[15] == q[..|p|][15] && q[16] == q[..|p|][16];
    }
  }

  /** The tags of a list's paths, in order. */
  function Tags(items: seq<NavItem>): (ts: seq<string>)
    ensures |ts| == |items| && forall i :: 0 <= i < |items| ==> ts[i] == Tag(items[i].path)
  {
    seq(|items|, i requires 0 <= i < |items| => Tag(items[i].path))
  }

  /** No two entries are equal. */
  predicate Distinct(ts: seq<string>) {
    forall i, j :: 0 <= i < j < |ts| ==> ts[i] != ts[j]
  }

  /**
   * A list that starts with the Dashboard and whose other paths carry
   * pairwise different, non-empty tags is prefix-free.
   */
  lemma DistinctTagsPrefixFree(items: seq<NavItem>)
    requires |items| > 0 && items[0].path == DashboardPath
    requires "" !in Tags(items)[1..]
    requires Distinct(Tags(items))
    ensures PrefixFree(items)
  {
    var ts := Tags(items);
    forall i, j | 0 <= i < |items| && 0 <= j < |items| && i != j && items[i].path != DashboardPath
      ensures !Text.StartsWith(items[j].path, items[i].path)
    {
      assert ts[i] == ts[1..][i - 1];
      ExtensionKeepsTag(items[i].path, items[j].path);
    }
  }

  lemma ManagerTags()
    ensures Tags(NavItems(Str("Manager"))) == ["", "bin", "ets", "cte", "b-c", "b-s", "b-m", "nfi"]
  {
    var items := NavItems(Str("Manager"));
    assert Tag(items[0].path) == "";
    assert Tag(items[1].path) == "bin";
    assert Tag(items[2].path) == "ets";
    assert Tag(items[3].path) == "cte";
    assert Tag(items[4].path) == "b-c";
    assert Tag(items[5].path) == "b-s";
    assert Tag(items[6].path) == "b-m";
    assert Tag(items[7].path) == "nfi";
  }

  lemma OtherTags(role: JsValue)
    requires role != Str("Manager")
    ensures Tags(NavItems(role)) == ["", "bin", "ets", "b-c", "b-s", "nfi"]
  {
    var items := NavItems(role);
    assert Tag(items[0].path) == "";
    assert Tag(items[1].path) == "bin";
    assert Tag(items[2].path) == "ets";
    assert Tag(items[3].path) == "b-c";
    assert Tag(items[4].path) == "b-s";
    assert Tag(items[5].path) == "nfi";
  }

  lemma ManagerTagsDistinct()
    ensures Distinct(["", "bin", "ets", "cte", "b-c", "b-s", "b-m", "nfi"])
  {
  }

  lemma OtherTagsDistinct()
    ensures Distinct(["", "bin", "ets", "b-c", "b-s", "nfi"])
  {
  }

  lemma NavItemsPrefixFree(role: JsValue)
    ensures PrefixFree(NavItems(role))
  {
    if role == Str("Manager") {
      ManagerTags();
      ManagerTagsDistinct();
    } else {
      OtherTags(role);
      OtherTagsDistinct();
    }
    DistinctTagsPrefixFree(NavItems(role));
  }

  /** On any page at most one link is highlighted. */
  lemma AtMostOneActive(role: JsValue, pathname: string)
    ensures forall i, j ::
      && 0 <= i < |NavItems(role)| && 0 <= j < |NavItems(role)|
      && IsActive(pathname, NavItems(role)[i].path) && IsActive(pathname, NavItems(role)[j].path)
      ==> i == j
  {
    var items := NavItems(role);
    NavItemsPrefixFree(role);
    PathsAreDistinct(role);
    forall i, j | 0 <= i < |items| && 0 <= j < |items|
      && IsActive(pathname, items[i].path) && IsActive(pathname, items[j].path)
      ensures i == j
    {
      var p, q := items[i].path, items[j].path;
      if i != j {
        if p == DashboardPath || q == DashboardPath {
          assert false;
        } else if |p| <= |q| {
          PrefixesNest(pathname, p, q);
          assert false;
        } else {
          PrefixesNest(pathname, q, p);
          assert false;
        }
      }
    }
  }
}
