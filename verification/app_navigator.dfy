/**
 * The navigation shell (navigation/AppNavigator.tsx): the icon each tab
 * route shows, the screens each navigator registers, and the choice of the
 * root navigator from the authentication flag of the store.
 */
module AppNavigator {
  import opened Constants
  import AuthSlice

  const Ellipsis: string := "ellipsis-horizontal"

  /** `tabBarIcon`: the route's icon, solid when focused, its outline otherwise; anything else the ellipsis. */
  function TabBarIcon(route: string, focused: bool): (icon: string)
    ensures icon == Ellipsis <==> route !in TabScreens
    ensures route in TabScreens && !focused ==> |icon| > 8 && icon[|icon| - 8..] == "-outline"
  {
    if route == RouteDashboard then (if focused then "home" else "home-outline")
    else if route == RouteCustomers then (if focused then "people" else "people-outline")
    else if route == RouteInvoices then (if focused then "document-text" else "document-text-outline")
    else if route == RouteAppointments then (if focused then "calendar" else "calendar-outline")
    else if route == RouteDocuments then (if focused then "documents" else "documents-outline")
    else Ellipsis
  }

  /** For each tab route the unfocused icon is the focused one with "-outline" appended. */
  lemma OutlineOfFocused(route: string)
    requires route in TabScreens
    ensures TabBarIcon(route, false) == TabBarIcon(route, true) + "-outline"
  {
  }

  /** A route that is not a tab shows the ellipsis, focused or not. */
  lemma OtherRouteShowsEllipsis(route: string, focused: bool)
    requires route !in TabScreens
    ensures TabBarIcon(route, focused) == Ellipsis
  {
  }

  /** The screens each navigator registers, in order. */
  const AuthStack: seq<string> := [RouteLogin, RouteRegister]
  const TabNavigatorScreens: seq<string> :=
    [RouteDashboard, RouteCustomers, RouteInvoices, RouteAppointments, RouteDocuments]
  const TabsRoute: string := "Tabs"
  const MainStack: seq<string> := [
    TabsRoute, RouteCustomerDetails, RouteInvoiceCreate, RouteInvoiceDetails,
    RouteEstimateCreate, RouteEstimateDetails, RouteContractCreate, RouteContractDetails,
    RouteAppointmentCreate, RouteAppointmentDetails, RouteDocumentScan, RouteDocumentDetails,
    RouteSettings, RouteDesignSystem]

  /**
   * The tab navigator registers exactly the tab screens of the constants, in
   * their order, and none of them falls back to the ellipsis, focused or not.
   */
  lemma EveryTabHasItsIcon()
    ensures TabNavigatorScreens == TabScreens
    ensures forall i, focused: bool :: 0 <= i < |TabNavigatorScreens| ==> TabBarIcon(TabNavigatorScreens[i], focused) != Ellipsis
  {
    forall i, focused: bool | 0 <= i < |TabNavigatorScreens|
      ensures TabBarIcon(TabNavigatorScreens[i], focused) != Ellipsis
    {
      assert TabNavigatorScreens[i] in TabScreens;
    }
  }

  /** The five tabs show five different icons. */
  lemma TabIconsDistinct(a: string, b: string, focused: bool)
    requires a in TabScreens && b in TabScreens && a != b
    ensures TabBarIcon(a, focused) != TabBarIcon(b, focused)
  {
  }

  datatype Navigator = AuthNavigator | MainNavigator

  /** The root: the main navigator exactly when the store says the user is signed in. */
  function RootNavigator(isAuthenticated: bool): (n: Navigator)
    ensures n == MainNavigator <==> isAuthenticated
  {
    if isAuthenticated then MainNavigator else AuthNavigator
  }

  /** The screen names a navigator registers; the tab screens sit under "Tabs". */
  function Screens(n: Navigator): (r: seq<string>)
    ensures RouteLogin in r <==> n == AuthNavigator
    ensures RouteRegister in r <==> n == AuthNavigator
    ensures TabsRoute in r <==> n == MainNavigator
  {
    assert forall i :: 0 <= i < |MainStack| ==> |MainStack[i]| != |RouteLogin| || MainStack[i][0] != 'L';
    assert forall i :: 0 <= i < |MainStack| ==> |MainStack[i]| != |RouteRegister| || MainStack[i][0] != 'R';
    assert forall i :: 0 <= i < |AuthStack| ==> AuthStack[i][0] != 'T';
    match n
    case AuthNavigator => AuthStack
    case MainNavigator => MainStack
  }

  /** In any state the slice can reach, the main navigator shows exactly when a user is stored. */
  lemma RootFollowsUser(actions: seq<AuthSlice.Action>)
    ensures var s := AuthSlice.Run(AuthSlice.Initial, actions);
      RootNavigator(s.isAuthenticated) == MainNavigator <==> s.user.Some?
  {
    AuthSlice.ReachableIsConsistent(actions);
  }

  /** A completed sign-out always brings back the sign-in stack, whatever came before. */
  lemma SignOutShowsLogin(s: AuthSlice.AuthState, p: AuthSlice.Payload)
    ensures RootNavigator(AuthSlice.Reduce(s, AuthSlice.Fulfilled(AuthSlice.SignOut, p)).isAuthenticated) == AuthNavigator
    ensures RouteLogin in Screens(RootNavigator(AuthSlice.Reduce(s, AuthSlice.Fulfilled(AuthSlice.SignOut, p)).isAuthenticated))
  {
  }

  /** The sign-in screen is registered only while signed out. */
  lemma LoginOnlyWhenSignedOut(isAuthenticated: bool)
    ensures RouteLogin in Screens(RootNavigator(isAuthenticated)) <==> !isAuthenticated
  {
    if isAuthenticated {
      assert forall i :: 0 <= i < |MainStack| ==> |MainStack[i]| != |RouteLogin| || MainStack[i][0] != 'L';
    }
  }
}
