/** The tracking screen (src/components/ProgressTracking.js): the journal
    entry the "New Entry" button prepends, the filter that removes a
    reminder, the progress percentage and the two parts of the screen that
    appear or disappear with the lists. */
module ProgressTracking {

  import opened CarePlans

  /** The step count the percentage divides by (a constant of the screen). */
  const TOTAL_STEPS := 4

  datatype JournalEntry = JournalEntry(
    id: int,
    date: string,
    photos: seq<string>,
    notes: string,
    mood: string)

  /** The record addJournalEntry builds; the clock's id and the formatted
      date are passed in. */
  function NewEntry(id: int, date: string): (e: JournalEntry)
    ensures e.id == id && e.date == date
    ensures e.photos == [] && e.notes == "" && e.mood == "good"
  {
    JournalEntry(id, date, [], "", "good")
  }

  /** The list addJournalEntry stores: the new entry first, then the earlier
      entries in their order. */
  function WithEntry(entries: seq<JournalEntry>, e: JournalEntry): (out: seq<JournalEntry>)
    ensures |out| == |entries| + 1
    ensures out[0] == e
    ensures out[1..] == entries
  {
    [e] + entries
  }

  /** The list removeReminder stores: `activeReminders.filter(r => r.id !== id)`. */
  function WithoutReminder(reminders: seq<Reminder>, id: int): (out: seq<Reminder>)
    ensures |out| <= |reminders|
    ensures forall i :: 0 <= i < |out| ==> out[i].id != id
    ensures forall r :: r in out <==> r in reminders && r.id != id
  {
    if reminders == [] then []
    else if reminders[0].id == id then WithoutReminder(reminders[1..], id)
    else [reminders[0]] + WithoutReminder(reminders[1..], id)
  }

  /** Removing an id that no reminder carries leaves the list unchanged. */
  lemma {:induction false} WithoutAbsent(reminders: seq<Reminder>, id: int)
    requires forall i :: 0 <= i < |reminders| ==> reminders[i].id != id
    ensures WithoutReminder(reminders, id) == reminders
  {
    if reminders != [] {
      WithoutAbsent(reminders[1..], id);
    }
  }

  /** Removing twice is removing once. */
  lemma WithoutIdempotent(reminders: seq<Reminder>, id: int)
    ensures WithoutReminder(WithoutReminder(reminders, id), id) == WithoutReminder(reminders, id)
  {
    WithoutAbsent(WithoutReminder(reminders, id), id);
  }

  /** The filter works piecewise: the kept reminders of a list are the kept
      reminders of its front followed by those of its back, so the survivors
      keep their original order. */
  lemma {:induction false} WithoutConcat(front: seq<Reminder>, back: seq<Reminder>, id: int)
    ensures WithoutReminder(front + back, id) == WithoutReminder(front, id) + WithoutReminder(back, id)
  {
    if front == [] {
      assert front + back == back;
    } else {
      assert (front + back)[1..] == front[1..] + back;
      WithoutConcat(front[1..], back, id);
    }
  }

  /** Each reminder without the id keeps its number of occurrences; those
      with the id all go. */
  lemma {:induction false} WithoutCounts(reminders: seq<Reminder>, id: int, r: Reminder)
    ensures multiset(WithoutReminder(reminders, id))[r] ==
      if r.id == id then 0 else multiset(reminders)[r]
  {
    if reminders != [] {
      var head, tail := reminders[0], reminders[1..];
      assert reminders == [head] + tail;
      WithoutCounts(tail, id, r);
      if head.id != id {
        assert WithoutReminder(reminders, id) == [head] + WithoutReminder(tail, id);
      }
    }
  }

  /** Removing the id of a reminder just appended, when no earlier reminder
      shares that id, gives back the list as it was before the append. */
  lemma AddThenRemove(reminders: seq<Reminder>, r: Reminder)
    requires forall i :: 0 <= i < |reminders| ==> reminders[i].id != r.id
    ensures WithoutReminder(WithReminder(reminders, r), r.id) == reminders
  {
    WithoutConcat(reminders, [r], r.id);
    WithoutAbsent(reminders, r.id);
    assert WithoutReminder([r], r.id) == [];
  }

  /** `Math.round(done / totalSteps * 100)` for a non-negative count: round
      half up is the floor of the value plus one half, here
      floor((200 * done + totalSteps) / (2 * totalSteps)). With four steps
      the rounding never has anything to round: each step is worth 25. */
  function RoundedPercent(done: nat): (pct: nat)
    ensures pct == 25 * done
  {
    (200 * done + TOTAL_STEPS) / (2 * TOTAL_STEPS)
  }

  /** The percentage in the Progress card: 25 per completed step, and
      never above 100 while the ids are the plan's. */
  function ProgressPercent(completed: set<int>): (pct: nat)
    ensures pct == 25 * |completed|
    ensures completed <= PlanStepIds ==> pct <= 100
  {
    SubsetSize(completed, PlanStepIds);
    RoundedPercent(|completed|)
  }

  /** A subset is no larger than its superset. */
  lemma SubsetSize(small: set<int>, big: set<int>)
    ensures small <= big ==> |small| <= |big|
  {
    if small <= big {
      var rest := big - small;
      assert big == small + rest;
      assert small * rest == {};
    }
  }

  /** The percentage is 100 exactly when every plan step is completed. */
  lemma ProgressFull(completed: set<int>)
    requires completed <= PlanStepIds
    ensures ProgressPercent(completed) == 100 <==> completed == PlanStepIds
  {
    if ProgressPercent(completed) == 100 && completed != PlanStepIds {
      var x :| x in PlanStepIds && x !in completed;
      SubsetSize(completed, PlanStepIds - {x});
    }
  }

  /** The Active Reminders card is drawn only for a non-empty list. */
  predicate RemindersPanelShown(reminders: seq<Reminder>): (shown: bool)
    ensures shown <==> reminders != []
    ensures !shown ==> forall id :: WithoutReminder(reminders, id) == reminders
  {
    |reminders| > 0
  }

  /** The "Start documenting" prompt is drawn only for an empty journal. */
  predicate EmptyJournalPromptShown(entries: seq<JournalEntry>): (shown: bool)
    ensures shown <==> entries == []
    ensures shown ==> forall e :: WithEntry(entries, e) == [e]
  {
    |entries| == 0
  }

  /** After an append the reminder card is shown; after a new journal entry
      the empty-journal prompt is gone. */
  lemma VisibilityAfterAdd(reminders: seq<Reminder>, r: Reminder, entries: seq<JournalEntry>, e: JournalEntry)
    ensures RemindersPanelShown(WithReminder(reminders, r))
    ensures !EmptyJournalPromptShown(WithEntry(entries, e))
  {
  }

  /** Removing the only reminder's id hides the reminder card. */
  lemma RemoveLastHidesPanel(r: Reminder)
    ensures !RemindersPanelShown(WithoutReminder([r], r.id))
  {
  }
}
