# hAIrly client: page/auth state machine and client-local bookkeeping

This project models the deterministic core of the hAIrly web client, a React
app that walks a signed-in user through hair analysis, a care plan and
progress tracking. What the client actually decides on its own is small:

- which page is shown (`currentPage`) and whether the user is signed in
  (`isAuthenticated`), changed by `handleLogin`, `handleLogout` and
  `navigateToPage` in `src/App.js`, and the screen App renders for a page;
- the bookkeeping App holds for the screens: the set of completed plan
  steps (toggled on the care-plan screen), the reminder list (appended on
  the care-plan screen, filtered on the tracking screen), the journal
  (prepended on the tracking screen) and the progress percentage derived
  from the completed steps;
- the login form (two fields, a show-password flag, a guarded submit);
- the navigation bar (four actions, a mobile menu that opens, closes, and
  closes itself after each action).

Modules follow the source files: `Pages` (the pure part of `src/App.js`),
`App` (App's `useState` fields as the class `AppState`, with the handlers
App defines and the ones the screens run through App's setters), `CarePlans`,
`ProgressTracking`, `Login`, `Navigation`, and `Journey`, which collects the
buttons of all screens into one transition relation and proves what a user
can and cannot reach by clicking.

The clock is a parameter: the ids that the source takes from `Date.now()`
and the date it formats with `toLocaleDateString()` are arguments of
`AddReminder`, `SetStepReminder` and `AddJournalEntry`. Two clicks in the
same millisecond can produce equal ids, so no uniqueness is assumed. Where
it matters (`AddThenRemove`), distinctness is a precondition.

The client has no session identifier, image upload, plan fetching or
server-side progress log. The screens use a fixed mock plan and keep all
bookkeeping in client memory.

## Model

| member | source | states |
|---|---|---|
| `Pages.ScreenFor` | src/App.js:59-90 | the page renders nothing exactly when it is not one of the six page names |
| `Pages.PageOf` | src/App.js:59-90 | every screen is selected by one of the six page names, and dispatching that name gives the screen back |
| `Pages.Apply` | src/App.js:19-31 | only handleLogin sets the auth flag and only handleLogout clears it; navigateToPage sets the page to its argument and keeps the flag; after login or logout the user is signed in exactly on home |
| `Pages.Render` | src/App.js:59-90 | App renders nothing exactly for an unknown page; otherwise the screen is the one its page selects |
| `Pages.ScreenForRoundTrip` | src/App.js:59-90 | each of the six names selects exactly one screen and each screen exactly one name (dispatch and its inverse round-trip) |
| `Pages.RenderIgnoresAuth` | src/App.js:59-90 | the rendered screen depends on the page only, never on the auth flag |
| `Pages.SignInLandsHome` | src/App.js:19-22 | handleLogin gives (home, signed in) from any state and renders Home |
| `Pages.SignOutLandsLogin` | src/App.js:24-27 | handleLogout gives (login, signed out), the first render's page and auth flag, from any state |
| `Pages.GoToKeepsAuth` | src/App.js:29-31 | navigateToPage sets the page to its argument and keeps the auth flag |
| `Pages.SignInThenSignOut` | src/App.js:19-27 | logging in and then out from any state ends at (login, signed out) |
| `App.AppState.constructor` | src/App.js:11-16 | first render: page login, signed out, no image, no completed steps, empty journal and reminders |
| `App.AppState.HandleLogin` | src/App.js:19-22 | signed in on page home; image, steps, journal and reminders unchanged |
| `App.AppState.HandleLogout` | src/App.js:24-27 | signed out on page login; image, steps, journal and reminders unchanged |
| `App.AppState.NavigateToPage` | src/App.js:29-31 | the page becomes the argument; auth flag and all bookkeeping unchanged |
| `App.AppState.CurrentScreen` | src/App.js:59-90 | the screen is the dispatch of the current page, and is nothing exactly for an unknown page |
| `App.AppState.HandleStepComplete` | src/components/CarePlans.js:58-66 | the stored set is the old one with the id's membership flipped; a plan id keeps the set within the plan; nothing else changes |
| `App.AppState.AddReminder` | src/components/CarePlans.js:68-76 | the list gains one active reminder at its end, earlier reminders kept in order; nothing else changes |
| `App.AppState.SetStepReminder` | src/components/CarePlans.js:132 | a step's bell button appends an active reminder titled with the step, at "Daily at 9:00 AM" |
| `App.AppState.AddJournalEntry` | src/components/ProgressTracking.js:18-27 | the journal grows by one; the new first entry has empty notes, no photos, mood "good"; older entries follow in order |
| `App.AppState.RemoveReminder` | src/components/ProgressTracking.js:29-31 | the list becomes the filter without the id, and an absent id leaves it unchanged; nothing else changes |
| `App.AppState.Progress` | src/components/ProgressTracking.js:16 | with completed ids from the plan, the card shows 25 per completed step and at most 100 |
| `CarePlans.MockPlanShape` | src/components/CarePlans.js:15-56 | the plan has four steps with distinct ids 1, 2, 3, 4, each listing two products |
| `CarePlans.Toggled` | src/components/CarePlans.js:58-66 | the id is in the result iff it was not in the input; every other id keeps its membership |
| `CarePlans.ToggleTwice` | src/components/CarePlans.js:58-66 | toggling an id twice restores the original set |
| `CarePlans.ToggleSize` | src/components/CarePlans.js:58-66 | a toggle adds one element if the id was absent and removes one if present |
| `CarePlans.ToggleStaysInPlan` | src/components/CarePlans.js:58-66 | toggling plan step ids keeps the set within the plan's ids |
| `CarePlans.ToggleFlipsOnlyItsStep` | src/components/CarePlans.js:106-113 | clicking a step flips its own check mark and leaves every other step's check mark as it was |
| `CarePlans.ShownCompleted` | src/components/CarePlans.js:108-113 | a step shows its check mark exactly when a click on it would remove its id; a check mark implies a non-empty set |
| `CarePlans.NewReminder` | src/components/CarePlans.js:69-74 | the new reminder carries the given id, title and time and is active |
| `CarePlans.WithReminder` | src/components/CarePlans.js:75 | the appended list is one longer, starts with the old list and ends with the new reminder |
| `ProgressTracking.NewEntry` | src/components/ProgressTracking.js:19-25 | the new entry carries the given id and date, no photos, empty notes and mood "good" |
| `ProgressTracking.RemindersPanelShown` | src/components/ProgressTracking.js:70 | the reminder card is shown exactly for a non-empty list; when it is hidden, removing any id changes nothing |
| `ProgressTracking.EmptyJournalPromptShown` | src/components/ProgressTracking.js:111 | the empty-journal prompt is shown exactly for an empty journal; then a new entry is the only entry |
| `ProgressTracking.WithEntry` | src/components/ProgressTracking.js:26 | the prepended journal is one longer, starts with the new entry and continues with the old list |
| `ProgressTracking.WithoutReminder` | src/components/ProgressTracking.js:30 | no survivor has the id; exactly the reminders without the id survive; the list never grows |
| `ProgressTracking.WithoutAbsent` | src/components/ProgressTracking.js:30 | removing an id no reminder has leaves the list unchanged |
| `ProgressTracking.WithoutIdempotent` | src/components/ProgressTracking.js:30 | removing the same id twice equals removing it once |
| `ProgressTracking.WithoutConcat` | src/components/ProgressTracking.js:30 | the filter of a concatenation is the concatenation of the filters, so survivors keep their order |
| `ProgressTracking.WithoutCounts` | src/components/ProgressTracking.js:30 | every reminder without the id keeps its number of occurrences; reminders with the id all go |
| `ProgressTracking.AddThenRemove` | src/components/ProgressTracking.js:29-31 | removing the id of a reminder just appended, with no earlier reminder sharing it, restores the list |
| `ProgressTracking.RoundedPercent` | src/components/ProgressTracking.js:58 | Math.round(done/4*100), written as integer round-half-up, is exactly 25 per completed step |
| `ProgressTracking.ProgressPercent` | src/components/ProgressTracking.js:16 | the percentage is 25 per completed step, and at most 100 while the ids are the plan's |
| `ProgressTracking.ProgressFull` | src/components/ProgressTracking.js:58 | with plan ids only, the percentage is 100 exactly when all four steps are completed |
| `ProgressTracking.VisibilityAfterAdd` | src/components/ProgressTracking.js:70 | after an append the reminder card is shown; after a new entry the empty-journal prompt is gone |
| `ProgressTracking.RemoveLastHidesPanel` | src/components/ProgressTracking.js:111 | removing the only reminder's id empties the list, so the reminder card is hidden |
| `Login.WithField` | src/components/Login.js:8-13 | the named field takes the value and the other field keeps its own |
| `Login.CanSubmit` | src/components/Login.js:18 | the submit guard holds exactly when both fields are non-empty, so never for the empty form |
| `Login.CanSubmitIff` | src/components/Login.js:15-21 | submit is allowed iff both fields are non-empty; blanks count as content; the empty form cannot submit |
| `Login.FillBoth` | src/components/Login.js:8-21 | filling both fields from the empty form, in either order, gives the same form, which submits iff both values are non-empty |
| `Login.PasswordInputType` | src/components/Login.js:53 | the password input has type "text" iff the password is shown, else "password" |
| `Login.LoginForm.constructor` | src/components/Login.js:5-6 | the form starts with empty email and password and the password hidden |
| `Login.LoginForm.HandleInputChange` | src/components/Login.js:8-13 | only the named field changes; the show-password flag is kept |
| `Login.LoginForm.ToggleShowPassword` | src/components/Login.js:63 | the eye button flips showPassword and keeps the form data |
| `Login.LoginForm.HandleSubmit` | src/components/Login.js:15-21 | onLogin runs iff both fields are non-empty; then App is signed in on home with data kept; otherwise App is untouched |
| `Login.LoginForm.GoToSignup` | src/components/Login.js:83 | the sign-up link navigates to the signup page and changes nothing else |
| `Navigation.Effect` | src/components/Navigation.js:19-42 | only the Logout button calls handleLogout, no button logs in, and every navigating button targets a signed-in page other than the plan |
| `Navigation.HomeHighlighted` | src/components/Navigation.js:21 | the Home button is highlighted exactly when the page renders the Home screen |
| `Navigation.BarsOfferSameActions` | src/components/Navigation.js:19-84 | desktop and mobile bars offer the same four distinct actions (home, analysis, tracking, logout), none of them the plan page |
| `Navigation.HighlightAfterAction` | src/components/Navigation.js:21 | after any bar action, Home is highlighted exactly when the action was Home |
| `Navigation.NavigationBar.constructor` | src/components/Navigation.js:5 | the mobile menu starts closed |
| `Navigation.NavigationBar.ToggleMobileMenu` | src/components/Navigation.js:52-60 | the menu button flips the menu, and with it whether the mobile items are shown |
| `Navigation.NavigationBar.SelectDesktop` | src/components/Navigation.js:19-42 | a desktop button runs its App handler and keeps App's bookkeeping |
| `Navigation.NavigationBar.SelectMobile` | src/components/Navigation.js:60-89 | a mobile item, clickable only while shown, runs its App handler and then closes the menu |
| `Navigation.Perform` | src/components/Navigation.js:19-42 | each bar button calls navigateToPage for home, analysis or tracking, or handleLogout |
| `Journey.ScreenButton` | src/components/Home.js:27-63 | a screen's own buttons (Home.js:27,45,63; HairAnalysis.js:127; CarePlans.js:94; ProgressTracking.js:45,146) exist only on signed-in pages, only navigate, target a signed-in page and never the page they are on |
| `Journey.Offered` | src/components/Login.js:83 | the clicks each screen offers (submit and the sign-up link on login, onSignup on signup, bar and screen buttons on signed-in pages): only known pages offer anything, login is offered only on login or signup, logout only on signed-in pages, and navigation targets only known pages |
| `Journey.BarEffectsAre` | src/components/Navigation.js:19-42 | the bar's actions are exactly: go home, go to analysis, go to tracking, log out |
| `Journey.InitialConsistent` | src/App.js:11-12 | the first render is on a known page and signed out, matching its page |
| `Journey.StepConsistent` | src/App.js:19-31 | every click a screen offers keeps the page known and the auth flag matching the page |
| `Journey.RunConsistent` | src/App.js:19-31 | every run of offered clicks keeps the page known and the auth flag matching the page |
| `Journey.ReachableRendersScreen` | src/App.js:59-90 | from the first render, clicking never reaches a page that renders nothing, and the user is signed in exactly on home, analysis, plan and tracking |
| `Journey.NoSignInStaysSignedOut` | src/App.js:19-27 | without a login or signup submit, a signed-out user stays signed out |
| `Journey.EveryPageReachable` | src/App.js:59-90 | each of the six pages is reachable from the first render by an explicit run of offered clicks |
| `Journey.SignedInConnected` | src/components/Home.js:27-63 | from any signed-in page, two offered clicks via home reach any signed-in page |
| `Journey.LogoutFromAnywhere` | src/App.js:24-27 | from any signed-in page, one offered Logout click gives back the first render's page and auth flag |
| `Journey.PlanOnlyFromScreens` | src/components/Home.js:45 | only the home, analysis and tracking screens offer a direct way to the plan page |

## Left out

- `src/api.js` and the backend probe in App's `useEffect` (src/App.js:47-57): HTTP client setup and an asynchronous network call. The "Backend:" banner on the home page is not modelled.
- HairAnalysis.js: the file read, the three-second timer and the constant mock analysis are asynchronous I/O. Its `setCapturedImage` write is therefore not modelled. `capturedImage` is kept only to show that the other handlers leave it alone. Its "Get My Custom Plan" button (src/components/HairAnalysis.js:127-130) is an edge of `Journey`.
- Journey.Offered: offers analysis-to-plan on the analysis page unconditionally. The source renders that button only once a photo is captured and the analysis has finished (src/components/HairAnalysis.js:93-100), state the model does not track, so the click relation is an over-approximation there.
- Home.js is presentational. Its three buttons are edges of `Journey`.
- Signup.js is not part of this model. Only its `onSignup` handler is known, and it is handleLogin (src/App.js:64). Any other buttons on that screen are not edges.
- The clock: `Date.now()` ids and `toLocaleDateString()` dates are parameters, and their uniqueness is not claimed.
- JSX markup, CSS classes and icons. Rendering is modelled only as the page-to-screen dispatch and the visibility predicates.
- Browser form validation (`required`, `type="email"`) runs before handleSubmit in a real browser. It is not modelled. The model checks handleSubmit's own guard.
- React remounting: the navigation bar and the login form are new component instances after each page change, so their local state starts over. The model treats each bar and form as a separate object and does not model remounting.
- The journal textarea and the "Schedule Reminder" and "Watch Tutorial" buttons have no handlers in the source, so there is nothing to model.
- ProgressTracking.RoundedPercent: JavaScript floating-point division is modelled as exact arithmetic with the step count fixed at 4. Math.round is modelled as round-half-up on non-negative values.
- App.AppState.HandleStepComplete: the source copies the Set before changing it. Dafny sets are values, so "the incoming set is not mutated" holds by construction and is not stated separately.
