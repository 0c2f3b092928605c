/** The page names of the top-level App component (src/App.js), the screen it
    renders for each, and the three handlers that move between pages:
    handleLogin, handleLogout and navigateToPage. These are the pure parts of
    App; the state that the handlers overwrite lives in module App. */
module Pages {

  const LOGIN := "login"
  const SIGNUP := "signup"
  const HOME := "home"
  const ANALYSIS := "analysis"
  const PLAN := "plan"
  const TRACKING := "tracking"

  /** The six page names App dispatches on. */
  const AllPages: set<string> := {LOGIN, SIGNUP, HOME, ANALYSIS, PLAN, TRACKING}

  /** The pages that show the navigation bar and are reached by logging in. */
  const AuthPages: set<string> := {HOME, ANALYSIS, PLAN, TRACKING}

  /** The component App renders; NoScreen stands for rendering `null`. */
  datatype Screen =
    | LoginScreen
    | SignupScreen
    | HomeScreen
    | AnalysisScreen
    | PlanScreen
    | TrackingScreen
    | NoScreen

  /** Page-to-screen dispatch: a chain of comparisons on the page name only. */
  function ScreenFor(page: string): (screen: Screen)
    ensures screen == NoScreen <==> page !in AllPages
  {
    if page == LOGIN then LoginScreen
    else if page == SIGNUP then SignupScreen
    else if page == HOME then HomeScreen
    else if page == ANALYSIS then AnalysisScreen
    else if page == PLAN then PlanScreen
    else if page == TRACKING then TrackingScreen
    else NoScreen
  }

  /** The page name that selects a screen (the inverse of ScreenFor). */
  function PageOf(screen: Screen): (page: string)
    requires screen != NoScreen
    ensures page in AllPages
    ensures ScreenFor(page) == screen
  {
    match screen
    case LoginScreen => LOGIN
    case SignupScreen => SIGNUP
    case HomeScreen => HOME
    case AnalysisScreen => ANALYSIS
    case PlanScreen => PLAN
    case TrackingScreen => TRACKING
  }

  /** Each of the six page names selects exactly one screen, and each screen
      is selected by exactly one page name. */
  lemma ScreenForRoundTrip(page: string, screen: Screen)
    ensures page in AllPages ==> ScreenFor(page) != NoScreen && PageOf(ScreenFor(page)) == page
    ensures screen != NoScreen ==> ScreenFor(PageOf(screen)) == screen
  {
  }

  /** The part of App's state that decides what is shown. */
  datatype NavState = NavState(page: string, authenticated: bool)

  /** App's first render: page 'login', not authenticated. */
  const Initial := NavState(LOGIN, false)

  /** What a user action asks of App: handleLogin (also passed to Signup as
      onSignup), handleLogout, or navigateToPage(target). */
  datatype Action = SignIn | SignOut | GoTo(target: string)

  /** The state after App runs the handler for an action. */
  function Apply(s: NavState, a: Action): (t: NavState)
    ensures t.authenticated && !s.authenticated ==> a == SignIn
    ensures !t.authenticated && s.authenticated ==> a == SignOut
    ensures a.GoTo? ==> t.page == a.target && t.authenticated == s.authenticated
    ensures !a.GoTo? ==> (t.authenticated <==> t.page == HOME)
  {
    match a
    case SignIn => NavState(HOME, true)
    case SignOut => NavState(LOGIN, false)
    case GoTo(p) => s.(page := p)
  }

  /** What App renders: it reads the page and never the auth flag. */
  function Render(s: NavState): (screen: Screen)
    ensures screen == NoScreen <==> s.page !in AllPages
    ensures screen != NoScreen ==> PageOf(screen) == s.page
  {
    ScreenFor(s.page)
  }

  lemma RenderIgnoresAuth(s: NavState, t: NavState)
    requires s.page == t.page
    ensures Render(s) == Render(t)
  {
  }

  /** handleLogin lands on home, authenticated, from whatever state. */
  lemma SignInLandsHome(s: NavState)
    ensures Apply(s, SignIn) == NavState(HOME, true)
    ensures Render(Apply(s, SignIn)) == HomeScreen
  {
  }

  /** handleLogout returns to the first render's state from whatever state. */
  lemma SignOutLandsLogin(s: NavState)
    ensures Apply(s, SignOut) == Initial
    ensures Render(Apply(s, SignOut)) == LoginScreen
  {
  }

  /** navigateToPage changes the page to its argument and nothing else. */
  lemma GoToKeepsAuth(s: NavState, p: string)
    ensures Apply(s, GoTo(p)).page == p
    ensures Apply(s, GoTo(p)).authenticated == s.authenticated
    ensures Render(Apply(s, GoTo(p))) == ScreenFor(p)
  {
  }

  /** Logging in and then out ends at (login, unauthenticated) from any state. */
  lemma SignInThenSignOut(s: NavState)
    ensures Apply(Apply(s, SignIn), SignOut) == Initial
  {
  }
}
