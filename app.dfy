/**
 * The application shell (App.tsx): the signed-in user, the current view and
 * the open deal, the four handlers that change them, and the routing from a
 * view id to the screen shown inside the layout.
 */
module App {
  import opened Wrappers
  import opened Types
  import Constants
  import Layout
  import Auth

  /** What `renderContent` puts inside the layout. */
  datatype Screen =
    | AuthScreen
    | DashboardScreen(user: User, deals: seq<Deal>)
    | MineListScreen
    | DealListScreen(heading: string, deals: seq<Deal>)
    | DealRoomScreen(deal: Deal, user: User)
    | NoDealSelected
    | VerificationScreen
    | CommissionsScreen
    | SettingsScreen(displayName: string, email: string)
    | ViewNotFound(view: string)

  /** `renderContent`: signed out always shows the sign-in form; otherwise a switch on the view id. */
  function RenderContent(user: Option<User>, view: string, deal: Option<Deal>): Screen
  {
    if user.None? then AuthScreen
    else if view == "dashboard" then DashboardScreen(user.value, Constants.MockDeals)
    else if view == "marketplace" || view == "my-mines" then MineListScreen
    else if view == "active-deals" || view == "offers" || view == "all-deals" then
      DealListScreen(if view == "offers" then "Incoming Offers" else "Active Deals", Constants.MockDeals)
    else if view == "deal-room" then
      (if deal.None? then NoDealSelected else DealRoomScreen(deal.value, user.value))
    else if view == "verification" then VerificationScreen
    else if view == "commissions" then CommissionsScreen
    else if view == "settings" then SettingsScreen(user.value.name, user.value.email)
    else ViewNotFound(view)
  }

  /** The view ids the switch has a case for. */
  const RoutedViews: set<string> :=
    {"dashboard", "marketplace", "my-mines", "active-deals", "offers", "all-deals",
     "deal-room", "verification", "commissions", "settings"}

  /** Menu entries whose ids the switch has no case for. */
  const DeadEnds: set<string> := {"payments", "network", "fraud-alerts"}

  /** Nothing but the sign-in form is reachable while signed out. */
  lemma SignedOutShowsAuth(view: string, deal: Option<Deal>)
    ensures RenderContent(None, view, deal) == AuthScreen
  {
  }

  /** The switch falls through to "View not found" exactly for ids it has no case for. */
  lemma NotFoundIffUnrouted(user: User, view: string, deal: Option<Deal>)
    ensures RenderContent(Some(user), view, deal).ViewNotFound? <==> view !in RoutedViews
    ensures RenderContent(Some(user), view, deal).ViewNotFound? ==>
              RenderContent(Some(user), view, deal).view == view
  {
  }

  /** The grouped cases share a screen; only the offers heading differs. */
  lemma AliasesShareScreens(user: User, deal: Option<Deal>)
    ensures RenderContent(Some(user), "marketplace", deal) == RenderContent(Some(user), "my-mines", deal) == MineListScreen
    ensures RenderContent(Some(user), "active-deals", deal) == RenderContent(Some(user), "all-deals", deal)
              == DealListScreen("Active Deals", Constants.MockDeals)
    ensures RenderContent(Some(user), "offers", deal) == DealListScreen("Incoming Offers", Constants.MockDeals)
  {
  }

  /** The deal room shows the open deal to the signed-in user, or a placeholder when none is open. */
  lemma DealRoomNeedsDeal(user: User, deal: Option<Deal>)
    ensures RenderContent(Some(user), "deal-room", deal) ==
              if deal.None? then NoDealSelected else DealRoomScreen(deal.value, user)
  {
  }

  lemma DeadEndsAreUnrouted()
    ensures forall v :: v in DeadEnds ==> v !in RoutedViews
  {
  }

  /**
   * Of the ids the sidebar offers any role, exactly "payments", "network" and
   * "fraud-alerts" lead to "View not found".
   */
  lemma MenuDeadEnds(role: UserRole, i: nat, user: User, deal: Option<Deal>)
    requires i < |Layout.MenuFor(role)|
    ensures RenderContent(Some(user), Layout.MenuFor(role)[i].id, deal).ViewNotFound? <==>
              Layout.MenuFor(role)[i].id in DeadEnds
  {
    var id := Layout.MenuFor(role)[i].id;
    NotFoundIffUnrouted(user, id, deal);
    DeadEndsAreUnrouted();
    assert id in RoutedViews + DeadEnds;
  }

  /** The component's state. */
  class AppState {
    var currentUser: Option<User>
    var currentView: string
    var activeDeal: Option<Deal>

    /** An open deal is only kept while the deal room is the view, and only while signed in. */
    predicate Valid()
      reads this
    {
      (activeDeal.Some? ==> currentView == "deal-room") &&
      (currentUser.None? ==> activeDeal.None?)
    }

    constructor ()
      ensures currentUser == None && currentView == "dashboard" && activeDeal == None
      ensures Valid()
    {
      currentUser, currentView, activeDeal := None, "dashboard", None;
    }

    /** What the layout currently shows. */
    function Content(): Screen
      reads this
    {
      RenderContent(currentUser, currentView, activeDeal)
    }

    /**
     * `handleLogin`: the user and the dashboard; a deal left open is not
     * cleared. The form that calls it is only shown while signed out, where
     * Valid() means no deal is open.
     */
    method HandleLogin(user: User)
      modifies this
      ensures currentUser == Some(user) && currentView == "dashboard" && activeDeal == old(activeDeal)
      ensures old(Valid()) && old(currentUser).None? ==> Valid()
    {
      currentUser := Some(user);
      currentView := "dashboard";
    }

    /** `handleLogout`: everything back to the initial state. */
    method HandleLogout()
      modifies this
      ensures currentUser == None && currentView == "dashboard" && activeDeal == None
      ensures Valid() && Content() == AuthScreen
    {
      currentUser, currentView, activeDeal := None, "dashboard", None;
    }

    /** `handleNavigate`: any view other than the deal room closes the open deal. */
    method HandleNavigate(viewId: string)
      modifies this
      ensures currentUser == old(currentUser) && currentView == viewId
      ensures activeDeal == if viewId == "deal-room" then old(activeDeal) else None
      ensures old(Valid()) ==> Valid()
    {
      currentView := viewId;
      if viewId != "deal-room" {
        activeDeal := None;
      }
    }

    /**
     * `handleSelectDeal`: opens the deal room on `deal`. Its button is only
     * rendered for a signed-in user.
     */
    method HandleSelectDeal(deal: Deal)
      modifies this
      ensures currentUser == old(currentUser) && currentView == "deal-room" && activeDeal == Some(deal)
      ensures old(currentUser).Some? ==> Valid() && Content() == DealRoomScreen(deal, currentUser.value)
    {
      activeDeal := Some(deal);
      currentView := "deal-room";
    }
  }

  /**
   * A session: the administrator signs in through the demo button, opens the
   * verification queue, then the room of `deal`, then goes back to the list,
   * which closes the deal, and signs out.
   */
  method AdminSession(deal: Deal) returns (queue: Screen, room: Screen, list: Screen, after: Screen)
    ensures queue == VerificationScreen
    ensures room == DealRoomScreen(deal, Constants.MockUsers[3])
    ensures list == DealListScreen("Active Deals", Constants.MockDeals)
    ensures after == AuthScreen
  {
    var app := new AppState();
    AdminIsFourthFixture();
    var admin := Auth.DemoLogin(Constants.MockUsers, Admin);
    app.HandleLogin(admin.value);
    app.HandleNavigate("verification");
    SessionRoutes(admin.value, None);
    queue := app.Content();
    app.HandleSelectDeal(deal);
    room := app.Content();
    app.HandleNavigate("active-deals");
    list := app.Content();
    app.HandleLogout();
    after := app.Content();
  }

  /** The two routed views the session passes through. */
  lemma SessionRoutes(user: User, deal: Option<Deal>)
    ensures RenderContent(Some(user), "verification", deal) == VerificationScreen
    ensures RenderContent(Some(user), "active-deals", deal) == DealListScreen("Active Deals", Constants.MockDeals)
  {
  }

  /** The administrator's demo button signs in the fourth fixture user. */
  lemma AdminIsFourthFixture()
    ensures Auth.DemoLogin(Constants.MockUsers, Admin) == Some(Constants.MockUsers[3])
  {
    var r := Auth.DemoLogin(Constants.MockUsers, Admin);
    Auth.DemoLoginFindsFixture(Admin);
    assert r.value.role == Admin;
    assert r.value in Constants.MockUsers;
  }
}
