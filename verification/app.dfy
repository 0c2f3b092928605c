/** The state the top-level App component (src/App.js) holds in `useState`
    and the handlers that overwrite it. App passes the setters down to the
    screens, so the writes made by the care-plan and tracking screens are
    methods here too; what they compute is defined in modules CarePlans and
    ProgressTracking. */
module App {

  import opened Pages
  import opened CarePlans
  import opened ProgressTracking

  datatype Option<T> = None | Some(value: T)

  /** Everything App holds besides the page and the auth flag. */
  datatype Bookkeeping = Bookkeeping(
    capturedImage: Option<string>,
    completedSteps: set<int>,
    journalEntries: seq<JournalEntry>,
    activeReminders: seq<Reminder>)

  class AppState {
    var currentPage: string
    var isAuthenticated: bool
    var capturedImage: Option<string>
    var completedSteps: set<int>
    var journalEntries: seq<JournalEntry>
    var activeReminders: seq<Reminder>

    /** The page and the auth flag. */
    function Nav(): NavState
      reads this
    {
      NavState(currentPage, isAuthenticated)
    }

    /** The rest of the state. */
    function Data(): Bookkeeping
      reads this
    {
      Bookkeeping(capturedImage, completedSteps, journalEntries, activeReminders)
    }

    /** Completed steps are ids of the plan's steps. */
    predicate Valid()
      reads this
    {
      completedSteps <= PlanStepIds
    }

    /** The first render: the login page, signed out, nothing captured,
        nothing completed, no journal entries and no reminders. */
    constructor ()
      ensures Nav() == Initial
      ensures currentPage == LOGIN && !isAuthenticated
      ensures Data() == Bookkeeping(None, {}, [], [])
      ensures Valid()
    {
      currentPage := LOGIN;
      isAuthenticated := false;
      capturedImage := None;
      completedSteps := {};
      journalEntries := [];
      activeReminders := [];
    }

    /** handleLogin, also passed to the signup screen as onSignup. */
    method HandleLogin()
      modifies this
      ensures isAuthenticated && currentPage == HOME
      ensures Nav() == Apply(old(Nav()), SignIn)
      ensures Data() == old(Data())
      ensures old(Valid()) ==> Valid()
    {
      isAuthenticated := true;
      currentPage := HOME;
    }

    /** handleLogout: back to the login page, signed out; the captured image,
        completed steps, journal and reminders survive. */
    method HandleLogout()
      modifies this
      ensures !isAuthenticated && currentPage == LOGIN
      ensures Nav() == Apply(old(Nav()), SignOut)
      ensures Data() == old(Data())
      ensures old(Valid()) ==> Valid()
    {
      isAuthenticated := false;
      currentPage := LOGIN;
    }

    /** navigateToPage: any string becomes the page; nothing else changes. */
    method NavigateToPage(page: string)
      modifies this
      ensures currentPage == page && isAuthenticated == old(isAuthenticated)
      ensures Nav() == Apply(old(Nav()), GoTo(page))
      ensures Data() == old(Data())
      ensures old(Valid()) ==> Valid()
    {
      currentPage := page;
    }

    /** The screen App renders now. */
    function CurrentScreen(): (screen: Screen)
      reads this
      ensures screen == Render(Nav())
      ensures screen == NoScreen <==> currentPage !in AllPages
    {
      ScreenFor(currentPage)
    }

    /** handleStepComplete (care-plan screen): copy the set, flip the id's
        membership in the copy, store the copy. */
    method HandleStepComplete(stepId: int)
      modifies this
      ensures completedSteps == Toggled(old(completedSteps), stepId)
      ensures stepId in completedSteps <==> stepId !in old(completedSteps)
      ensures old(Valid()) && stepId in PlanStepIds ==> Valid()
      ensures Nav() == old(Nav())
      ensures capturedImage == old(capturedImage)
      ensures journalEntries == old(journalEntries) && activeReminders == old(activeReminders)
    {
      var newCompleted := completedSteps;
      if stepId in newCompleted {
        newCompleted := newCompleted - {stepId};
      } else {
        newCompleted := newCompleted + {stepId};
      }
      completedSteps := newCompleted;
      if old(Valid()) && stepId in PlanStepIds {
        ToggleStaysInPlan(old(completedSteps), stepId);
      }
    }

    /** addReminder (care-plan screen): append an active reminder; `id` is
        the clock's reading at the click. */
    method AddReminder(id: int, title: string, time: string)
      modifies this
      ensures activeReminders == WithReminder(old(activeReminders), NewReminder(id, title, time))
      ensures activeReminders[|activeReminders| - 1] == Reminder(id, title, time, true)
      ensures Nav() == old(Nav())
      ensures capturedImage == old(capturedImage)
      ensures completedSteps == old(completedSteps) && journalEntries == old(journalEntries)
      ensures old(Valid()) ==> Valid()
    {
      var reminder := Reminder(id, title, time, true);
      activeReminders := activeReminders + [reminder];
    }

    /** The bell button of a plan step: addReminder(step.title, "Daily at 9:00 AM"). */
    method SetStepReminder(step: PlanStep, id: int)
      modifies this
      ensures activeReminders == old(activeReminders) + [Reminder(id, step.title, REMINDER_TIME, true)]
      ensures Nav() == old(Nav())
      ensures capturedImage == old(capturedImage)
      ensures completedSteps == old(completedSteps) && journalEntries == old(journalEntries)
      ensures old(Valid()) ==> Valid()
    {
      AddReminder(id, step.title, REMINDER_TIME);
    }

    /** addJournalEntry (tracking screen): a blank entry goes first; `id`
        and `date` are the clock's reading and its formatted date. */
    method AddJournalEntry(id: int, date: string)
      modifies this
      ensures journalEntries == WithEntry(old(journalEntries), NewEntry(id, date))
      ensures |journalEntries| == |old(journalEntries)| + 1
      ensures journalEntries[0] == JournalEntry(id, date, [], "", "good")
      ensures Nav() == old(Nav())
      ensures capturedImage == old(capturedImage)
      ensures completedSteps == old(completedSteps) && activeReminders == old(activeReminders)
      ensures old(Valid()) ==> Valid()
    {
      var entry := JournalEntry(id, date, [], "", "good");
      journalEntries := [entry] + journalEntries;
    }

    /** removeReminder (tracking screen): keep the reminders whose id differs. */
    method RemoveReminder(id: int)
      modifies this
      ensures activeReminders == WithoutReminder(old(activeReminders), id)
      ensures (forall i :: 0 <= i < |old(activeReminders)| ==> old(activeReminders)[i].id != id)
        ==> activeReminders == old(activeReminders)
      ensures Nav() == old(Nav())
      ensures capturedImage == old(capturedImage)
      ensures completedSteps == old(completedSteps) && journalEntries == old(journalEntries)
      ensures old(Valid()) ==> Valid()
    {
      ghost var absent := forall i :: 0 <= i < |activeReminders| ==> activeReminders[i].id != id;
      if absent {
        WithoutAbsent(activeReminders, id);
      }
      activeReminders := WithoutReminder(activeReminders, id);
    }

    /** The Progress card's percentage for the current completed steps. */
    function Progress(): (pct: nat)
      reads this
      requires Valid()
      ensures pct <= 100
      ensures pct == 25 * |completedSteps|
    {
      ProgressPercent(completedSteps)
    }
  }
}
