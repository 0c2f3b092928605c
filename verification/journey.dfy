/** The page/auth state machine as the user drives it: which App handler
    each screen's buttons call, runs of such clicks, and what those runs can
    and cannot reach. The buttons are spread over the screens
    (src/components/Login.js, Home.js, HairAnalysis.js, CarePlans.js,
    ProgressTracking.js and the navigation bar); the signup screen's source
    is not part of this model, so only its onSignup handler is an edge. */
module Journey {

  import opened Pages
  import Navigation

  /** What the navigation bar offers, as App actions. */
  const BarEffects: set<Action> := set a | a in Navigation.DesktopActions :: Navigation.Effect(a)

  /** The buttons of a screen other than its navigation bar. */
  predicate ScreenButton(page: string, a: Action): (offered: bool)
    ensures offered ==> page in AuthPages && a.GoTo? && a.target in AuthPages
    ensures offered ==> a.target != page
  {
    if page == HOME then a == GoTo(ANALYSIS) || a == GoTo(PLAN) || a == GoTo(TRACKING)
    else if page == ANALYSIS then a == GoTo(PLAN)
    else if page == PLAN then a == GoTo(TRACKING)
    else if page == TRACKING then a == GoTo(PLAN) || a == GoTo(ANALYSIS)
    else false
  }

  /** The actions a user can trigger on the screen of `page`. On the login
      screen submitting is an edge; whether the guard lets it through is
      module Login's concern. A page that renders nothing offers nothing. */
  predicate Offered(page: string, a: Action): (offered: bool)
    ensures offered ==> page in AllPages
    ensures offered && a == SignIn ==> page == LOGIN || page == SIGNUP
    ensures offered && a == SignOut ==> page in AuthPages
    ensures offered && a.GoTo? ==> a.target in AllPages
  {
    BarEffectsAre();
    if page == LOGIN then a == SignIn || a == GoTo(SIGNUP)
    else if page == SIGNUP then a == SignIn
    else if page in AuthPages then a in BarEffects || ScreenButton(page, a)
    else false
  }

  lemma BarEffectsAre()
    ensures BarEffects == {GoTo(HOME), GoTo(ANALYSIS), GoTo(TRACKING), SignOut}
  {
    var d := Navigation.DesktopActions;
    assert Navigation.Effect(d[0]) == GoTo(HOME);
    assert Navigation.Effect(d[1]) == GoTo(ANALYSIS);
    assert Navigation.Effect(d[2]) == GoTo(TRACKING);
    assert Navigation.Effect(d[3]) == SignOut;
  }

  /** A run of clicks each of which the current screen offers. */
  predicate ValidRun(s: NavState, run: seq<Action>)
    decreases |run|
  {
    run == [] || (Offered(s.page, run[0]) && ValidRun(Apply(s, run[0]), run[1..]))
  }

  /** The state after a run of clicks. */
  function Run(s: NavState, run: seq<Action>): NavState
    decreases |run|
  {
    if run == [] then s else Run(Apply(s, run[0]), run[1..])
  }

  /** The shape every state the user can reach has: one of the six pages,
      and signed in exactly on the four pages behind the login. */
  predicate Consistent(s: NavState)
  {
    s.page in AllPages && (s.authenticated <==> s.page in AuthPages)
  }

  lemma InitialConsistent()
    ensures Consistent(Initial)
  {
  }

  /** Every offered click keeps the shape. */
  lemma StepConsistent(s: NavState, a: Action)
    requires Consistent(s) && Offered(s.page, a)
    ensures Consistent(Apply(s, a))
  {
    BarEffectsAre();
  }

  /** Every run of offered clicks keeps the shape. */
  lemma {:induction false} RunConsistent(s: NavState, run: seq<Action>)
    requires Consistent(s) && ValidRun(s, run)
    ensures Consistent(Run(s, run))
    decreases |run|
  {
    if run != [] {
      StepConsistent(s, run[0]);
      RunConsistent(Apply(s, run[0]), run[1..]);
    }
  }

  /** From the first render, every reachable state renders a screen, and it
      is signed in exactly on the pages behind the login. */
  lemma ReachableRendersScreen(run: seq<Action>)
    requires ValidRun(Initial, run)
    ensures Render(Run(Initial, run)) != NoScreen
    ensures Run(Initial, run).authenticated <==> Run(Initial, run).page in AuthPages
  {
    InitialConsistent();
    RunConsistent(Initial, run);
  }

  /** Without a login or signup submit, a signed-out user stays signed out. */
  lemma {:induction false} NoSignInStaysSignedOut(s: NavState, run: seq<Action>)
    requires !s.authenticated && SignIn !in run
    ensures !Run(s, run).authenticated
    decreases |run|
  {
    if run != [] {
      NoSignInStaysSignedOut(Apply(s, run[0]), run[1..]);
    }
  }

  /** A run to each of the six pages from the first render. */
  function PathTo(page: string): seq<Action>
  {
    if page == LOGIN then []
    else if page == SIGNUP then [GoTo(SIGNUP)]
    else [SignIn, GoTo(page)]
  }

  /** Every page can be reached from the first render, and every signed-in
      page is reached signed in. */
  lemma EveryPageReachable(page: string)
    requires page in AllPages
    ensures ValidRun(Initial, PathTo(page))
    ensures Run(Initial, PathTo(page)).page == page
    ensures Run(Initial, PathTo(page)).authenticated <==> page in AuthPages
  {
    BarEffectsAre();
    var path := PathTo(page);
    if page != LOGIN && page != SIGNUP {
      var home := Apply(Initial, SignIn);
      assert path[1..] == [GoTo(page)];
      assert path[1..][1..] == [];
      assert Run(home, [GoTo(page)]) == Run(Apply(home, GoTo(page)), []);
      assert Run(Initial, path) == Run(home, [GoTo(page)]);
    } else if page == SIGNUP {
      assert path[1..] == [];
    }
  }

  /** The signed-in pages are connected: two clicks, via home, go from any
      signed-in state to any signed-in page. */
  lemma SignedInConnected(s: NavState, page: string)
    requires Consistent(s) && s.authenticated && page in AuthPages
    ensures ValidRun(s, [GoTo(HOME), GoTo(page)])
    ensures Run(s, [GoTo(HOME), GoTo(page)]) == NavState(page, true)
  {
    BarEffectsAre();
    var run := [GoTo(HOME), GoTo(page)];
    var home := Apply(s, GoTo(HOME));
    assert run[1..] == [GoTo(page)];
    assert run[1..][1..] == [];
    assert Run(home, [GoTo(page)]) == Run(Apply(home, GoTo(page)), []);
    assert Run(s, run) == Run(home, [GoTo(page)]);
  }

  /** From any signed-in state one Logout click gives back the first render's
      state; no state is terminal. */
  lemma LogoutFromAnywhere(s: NavState)
    requires Consistent(s) && s.authenticated
    ensures ValidRun(s, [SignOut])
    ensures Run(s, [SignOut]) == Initial
  {
    BarEffectsAre();
    assert [SignOut][1..] == [];
  }

  /** The plan page is reached only through a screen's own button (home,
      analysis or tracking), never from the navigation bar. */
  lemma PlanOnlyFromScreens(page: string)
    requires Offered(page, GoTo(PLAN))
    ensures page in {HOME, ANALYSIS, TRACKING}
  {
    BarEffectsAre();
  }
}
