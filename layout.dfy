/**
 * The application shell (components/Layout.tsx): the role's sidebar menu, the
 * unread-notification dot and the avatar URL. Rendering is not modelled.
 */
module Layout {
  import opened Types
  import opened Strings
  import Lists
  import Constants

  /** A sidebar entry; the icon is not modelled. */
  datatype MenuItem = MenuItem(id: string, title: string)

  /** The ids are distinct, as React requires of the keys they are used as. */
  predicate DistinctIds(items: seq<MenuItem>)
  {
    forall i, j :: 0 <= i < j < |items| ==> items[i].id != items[j].id
  }

  /** Some entry of `items` leads to view `id`. */
  predicate HasItem(items: seq<MenuItem>, id: string)
  {
    exists i :: 0 <= i < |items| && items[i].id == id
  }

  const CommonMenu: seq<MenuItem> := [MenuItem("dashboard", "Dashboard"), MenuItem("settings", "Settings")]

  const BuyerMenu: seq<MenuItem> := [
    MenuItem("dashboard", "Dashboard"),
    MenuItem("marketplace", "Marketplace"),
    MenuItem("active-deals", "Active Deals"),
    MenuItem("payments", "Payments"),
    MenuItem("settings", "Settings")
  ]

  const SellerMenu: seq<MenuItem> := [
    MenuItem("dashboard", "Dashboard"),
    MenuItem("my-mines", "My Mines"),
    MenuItem("offers", "Deal Requests"),
    MenuItem("settings", "Settings")
  ]

  const IntermediaryMenu: seq<MenuItem> := [
    MenuItem("dashboard", "Dashboard"),
    MenuItem("commissions", "Commissions"),
    MenuItem("network", "My Network"),
    MenuItem("settings", "Settings")
  ]

  const AdminMenu: seq<MenuItem> := [
    MenuItem("dashboard", "Overview"),
    MenuItem("verification", "Verification Queue"),
    MenuItem("all-deals", "Live Deals"),
    MenuItem("fraud-alerts", "Fraud Alerts"),
    MenuItem("settings", "Settings")
  ]

  /**
   * `getMenuItems`, a switch on the role's string value. Every menu starts at
   * the dashboard, ends at the settings and has distinct ids.
   */
  function GetMenuItems(role: string): (r: seq<MenuItem>)
    ensures 2 <= |r| && r[0].id == "dashboard" && r[|r| - 1].id == "settings"
    ensures DistinctIds(r)
  {
    if role == "BUYER" then BuyerMenu
    else if role == "SELLER" then SellerMenu
    else if role == "INTERMEDIARY" then IntermediaryMenu
    else if role == "ADMIN" then AdminMenu
    else CommonMenu
  }

  /** The menu a signed-in user sees. */
  function MenuFor(role: UserRole): seq<MenuItem>
  {
    GetMenuItems(role.Name())
  }

  /** A value outside the enum gets only the dashboard and the settings. */
  lemma DefaultMenuIsCommon(role: string)
    requires role != "BUYER" && role != "SELLER" && role != "INTERMEDIARY" && role != "ADMIN"
    ensures GetMenuItems(role) == CommonMenu
    ensures |GetMenuItems(role)| == 2 && GetMenuItems(role)[0].id == "dashboard" && GetMenuItems(role)[1].id == "settings"
  {
  }

  /** The four enum roles never reach the default branch, and their menus have 5, 4, 4 and 5 entries. */
  lemma MenuLengths()
    ensures |MenuFor(Buyer)| == 5 && |MenuFor(Seller)| == 4
    ensures |MenuFor(Intermediary)| == 4 && |MenuFor(Admin)| == 5
    ensures forall r: UserRole :: MenuFor(r) != CommonMenu
  {
  }

  /** Only the administrator's menu leads to the verification queue. */
  lemma OnlyAdminSeesVerification(role: string)
    ensures HasItem(GetMenuItems(role), "verification") <==> role == "ADMIN"
  {
    if role == "ADMIN" {
      assert AdminMenu[1].id == "verification";
    }
  }

  /** Only the buyer's menu leads to the marketplace. */
  lemma OnlyBuyerSeesMarketplace(role: string)
    ensures HasItem(GetMenuItems(role), "marketplace") <==> role == "BUYER"
  {
    if role == "BUYER" {
      assert BuyerMenu[1].id == "marketplace";
    }
  }

  /** The filter in `unreadCount`. */
  predicate IsUnread(n: Notification)
  {
    !n.read
  }

  /** `notifications.filter(n => !n.read).length`: the number of unread notifications. */
  function UnreadCount(ns: seq<Notification>): (n: nat)
    ensures n == |set i | 0 <= i < |ns| && !ns[i].read|
  {
    Lists.FilterLengthIsCount(ns, IsUnread);
    assert Lists.IndicesWhere(ns, IsUnread) == set i | 0 <= i < |ns| && !ns[i].read;
    |Lists.Filter(ns, IsUnread)|
  }

  /** The red dot on the bell is shown. */
  predicate ShowUnreadDot(ns: seq<Notification>)
  {
    UnreadCount(ns) > 0
  }

  /** The dot is shown exactly when some notification is unread. */
  lemma UnreadDotIffUnread(ns: seq<Notification>)
    ensures ShowUnreadDot(ns) <==> exists i :: 0 <= i < |ns| && !ns[i].read
  {
    Lists.FilterLengthIsCount(ns, IsUnread);
    Lists.FilterNonEmptyIff(ns, IsUnread);
  }

  /** The fixture notifications hold two unread ones, so the dot is shown. */
  lemma MockUnreadCount()
    ensures UnreadCount(Constants.MockNotifications) == 2
    ensures ShowUnreadDot(Constants.MockNotifications)
  {
    var ns := Constants.MockNotifications;
    assert (set i | 0 <= i < |ns| && !ns[i].read) == {0, 1};
  }

  /** `user.name.replace(' ', '+')`: the first space becomes '+', later ones stay. */
  function AvatarName(name: string): string
  {
    ReplaceFirst(name, ' ', '+')
  }

  const AvatarEndpoint: string := "https://ui-avatars.com/api/?name="
  const AvatarColours: string := "&background=10b981&color=fff"

  /** The avatar image URL. */
  function AvatarUrl(name: string): string
  {
    AvatarEndpoint + AvatarName(name) + AvatarColours
  }

  /** The URL is the endpoint, the name with its first space replaced, and the colours, with nothing escaped. */
  lemma AvatarUrlCarriesName(name: string)
    ensures var u := AvatarUrl(name);
            && |u| == |AvatarEndpoint| + |name| + |AvatarColours|
            && OccursAt(u, AvatarEndpoint, 0)
            && OccursAt(u, AvatarName(name), |AvatarEndpoint|)
            && OccursAt(u, AvatarColours, |AvatarEndpoint| + |name|)
  {
    var u := AvatarUrl(name);
    var n := AvatarName(name);
    assert |n| == |name|;
    assert u[..|AvatarEndpoint|] == AvatarEndpoint;
    assert u[|AvatarEndpoint|..|AvatarEndpoint| + |n|] == n;
    assert u[|AvatarEndpoint| + |n|..] == AvatarColours;
  }

  /** Only the first space of a name is replaced. */
  lemma AvatarNameKeepsLaterSpaces(name: string, i: nat, j: nat)
    requires i < j < |name| && name[i] == ' ' && name[j] == ' '
    ensures AvatarName(name)[j] == ' '
    ensures AvatarName(name)[i] == (if ' ' in name[..i] then ' ' else '+')
  {
    assert name[..j][i] == ' ';
  }
}
