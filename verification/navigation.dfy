/** The navigation bar every signed-in screen shows
    (src/components/Navigation.js): four desktop buttons, a menu button that
    opens and closes the mobile menu, and four mobile buttons that act and
    then close the menu. */
module Navigation {

  import opened Pages
  import App

  /** The four actions the bar offers. */
  datatype NavAction = ToHome | ToAnalysis | ToTracking | LogOut

  /** The App handler each button calls. */
  function Effect(a: NavAction): (e: Action)
    ensures e == SignOut <==> a == LogOut
    ensures e != SignIn
    ensures e.GoTo? ==> e.target in AuthPages && e.target != PLAN
  {
    match a
    case ToHome => GoTo(HOME)
    case ToAnalysis => GoTo(ANALYSIS)
    case ToTracking => GoTo(TRACKING)
    case LogOut => SignOut
  }

  /** The desktop buttons, left to right: Home, Analyze, Journal, Logout. */
  const DesktopActions: seq<NavAction> := [ToHome, ToAnalysis, ToTracking, LogOut]

  /** The mobile buttons, top to bottom: Home, Analyze, Journal, Logout. */
  const MobileActions: seq<NavAction> := [ToHome, ToAnalysis, ToTracking, LogOut]

  /** Both bars offer the same four actions, all distinct, and none of them
      goes to the plan page or to the login or signup page by navigation. */
  lemma BarsOfferSameActions()
    ensures DesktopActions == MobileActions
    ensures forall a: NavAction :: a in DesktopActions
    ensures forall i, j :: 0 <= i < j < |DesktopActions| ==> Effect(DesktopActions[i]) != Effect(DesktopActions[j])
    ensures forall a :: a in DesktopActions ==> Effect(a) != GoTo(PLAN)
    ensures forall a :: a in DesktopActions && Effect(a).GoTo? ==> Effect(a).target in AuthPages
  {
    forall a: NavAction
      ensures a in DesktopActions
    {
      match a
      case ToHome => assert DesktopActions[0] == a;
      case ToAnalysis => assert DesktopActions[1] == a;
      case ToTracking => assert DesktopActions[2] == a;
      case LogOut => assert DesktopActions[3] == a;
    }
  }

  /** The Home button is highlighted on the home page only. */
  predicate HomeHighlighted(page: string): (on: bool)
    ensures on <==> ScreenFor(page) == HomeScreen
  {
    page == HOME
  }

  /** After any bar action, Home is highlighted exactly when that action was
      Home. */
  lemma HighlightAfterAction(s: NavState, a: NavAction)
    ensures HomeHighlighted(Apply(s, Effect(a)).page) <==> a == ToHome
  {
  }

  class NavigationBar {
    var showMobileMenu: bool

    /** The mobile menu starts closed. */
    constructor ()
      ensures !showMobileMenu
    {
      showMobileMenu := false;
    }

    /** The mobile buttons exist only while the menu is open. */
    predicate MobileItemsShown()
      reads this
    {
      showMobileMenu
    }

    /** The menu button flips the menu. */
    method ToggleMobileMenu()
      modifies this
      ensures showMobileMenu == !old(showMobileMenu)
      ensures MobileItemsShown() <==> !old(MobileItemsShown())
    {
      showMobileMenu := !showMobileMenu;
    }

    /** A desktop button: call its App handler; the menu is not touched. */
    method SelectDesktop(app: App.AppState, a: NavAction)
      modifies app
      ensures app.Nav() == Apply(old(app.Nav()), Effect(a))
      ensures app.Data() == old(app.Data())
      ensures old(app.Valid()) ==> app.Valid()
    {
      Perform(app, a);
    }

    /** A mobile button (only clickable while the menu is open): call its
        App handler, then close the menu. */
    method SelectMobile(app: App.AppState, a: NavAction)
      requires MobileItemsShown()
      modifies this, app
      ensures app.Nav() == Apply(old(app.Nav()), Effect(a))
      ensures app.Data() == old(app.Data())
      ensures old(app.Valid()) ==> app.Valid()
      ensures !showMobileMenu && !MobileItemsShown()
    {
      Perform(app, a);
      showMobileMenu := false;
    }
  }

  /** Call the App handler a bar button is wired to. */
  method Perform(app: App.AppState, a: NavAction)
    modifies app
    ensures app.Nav() == Apply(old(app.Nav()), Effect(a))
    ensures app.Data() == old(app.Data())
    ensures old(app.Valid()) ==> app.Valid()
  {
    match a
    case ToHome => app.NavigateToPage(HOME);
    case ToAnalysis => app.NavigateToPage(ANALYSIS);
    case ToTracking => app.NavigateToPage(TRACKING);
    case LogOut => app.HandleLogout();
  }
}
