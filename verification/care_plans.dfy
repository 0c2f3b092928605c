/** The care-plan screen (src/components/CarePlans.js): the fixed mock plan,
    the completed-step toggle, the "completed" check mark and the reminder a
    step's bell button appends. The writes into App's state are methods of
    App.AppState; this module holds the values they compute. */
module CarePlans {

  datatype PlanStep = PlanStep(
    id: int,
    title: string,
    description: string,
    frequency: string,
    products: seq<string>)

  datatype Plan = Plan(title: string, duration: string, steps: seq<PlanStep>)

  /** The plan the screen shows; the video links and the per-step
      `completed: false` flags are never read and are not kept. */
  const MockPlan := Plan(
    "4B Coily Hair Revival Plan",
    "8 weeks",
    [ PlanStep(1, "Weekly Deep Conditioning",
               "Apply protein-free deep conditioner for 30-45 minutes", "2x per week",
               ["Shea Moisture Deep Treatment Mask", "Aussie 3 Minute Miracle"]),
      PlanStep(2, "Gentle Cleansing",
               "Use sulfate-free shampoo or co-wash", "1x per week",
               ["DevaCurl No-Poo", "As I Am Coconut CoWash"]),
      PlanStep(3, "Moisturize & Seal",
               "Apply leave-in conditioner followed by natural oil", "Daily",
               ["Cantu Leave-In", "Jojoba Oil"]),
      PlanStep(4, "Protective Styling",
               "Style hair in low-manipulation protective styles", "Change every 1-2 weeks",
               ["Silk/satin scrunchies", "Edge control"]) ])

  /** The ids of the mock plan's steps. */
  const PlanStepIds: set<int> := {1, 2, 3, 4}

  /** The time every bell button passes to addReminder. */
  const REMINDER_TIME := "Daily at 9:00 AM"

  /** The plan has four steps with ids 1..4 in order, each listing two products. */
  lemma MockPlanShape()
    ensures |MockPlan.steps| == 4
    ensures forall i :: 0 <= i < |MockPlan.steps| ==>
      MockPlan.steps[i].id == i + 1 && |MockPlan.steps[i].products| == 2
    ensures forall i, j :: 0 <= i < j < |MockPlan.steps| ==> MockPlan.steps[i].id != MockPlan.steps[j].id
    ensures (set i | 0 <= i < |MockPlan.steps| :: MockPlan.steps[i].id) == PlanStepIds
  {
    var ids := set i | 0 <= i < |MockPlan.steps| :: MockPlan.steps[i].id;
    assert MockPlan.steps[0].id == 1 && MockPlan.steps[1].id == 2;
    assert MockPlan.steps[2].id == 3 && MockPlan.steps[3].id == 4;
    assert ids == PlanStepIds;
  }

  /** The set handleStepComplete stores: the old set with the membership of
      `id` flipped. */
  function Toggled(completed: set<int>, id: int): (r: set<int>)
    ensures id in r <==> id !in completed
    ensures forall other :: other != id ==> (other in r <==> other in completed)
  {
    if id in completed then completed - {id} else completed + {id}
  }

  /** Toggling the same id twice restores the original set. */
  lemma ToggleTwice(completed: set<int>, id: int)
    ensures Toggled(Toggled(completed, id), id) == completed
  {
  }

  /** Toggling grows or shrinks the set by exactly one. */
  lemma ToggleSize(completed: set<int>, id: int)
    ensures id !in completed ==> |Toggled(completed, id)| == |completed| + 1
    ensures id in completed ==> |Toggled(completed, id)| + 1 == |completed|
  {
  }

  /** Toggling plan step ids keeps the set among the plan step ids. */
  lemma ToggleStaysInPlan(completed: set<int>, id: int)
    requires completed <= PlanStepIds && id in PlanStepIds
    ensures Toggled(completed, id) <= PlanStepIds
  {
  }

  /** A step is drawn with its check mark when its id is in the set. */
  predicate ShownCompleted(completed: set<int>, step: PlanStep): (shown: bool)
    ensures shown ==> completed != {}
    ensures shown <==> step.id !in Toggled(completed, step.id)
  {
    step.id in completed
  }

  /** Clicking a step's circle flips that step's check mark and keeps every
      other step's, because the plan's ids are distinct. */
  lemma ToggleFlipsOnlyItsStep(completed: set<int>, i: nat, j: nat)
    requires i < |MockPlan.steps| && j < |MockPlan.steps|
    ensures var after := Toggled(completed, MockPlan.steps[i].id);
      ShownCompleted(after, MockPlan.steps[i]) == !ShownCompleted(completed, MockPlan.steps[i]) &&
      (j != i ==> ShownCompleted(after, MockPlan.steps[j]) == ShownCompleted(completed, MockPlan.steps[j]))
  {
    MockPlanShape();
    if j != i {
      assert MockPlan.steps[j].id != MockPlan.steps[i].id by {
        if i < j { } else { }
      }
    }
  }

  /** A reminder: an id taken from the clock, a title, a time of day and an
      active flag. */
  datatype Reminder = Reminder(id: int, title: string, time: string, active: bool)

  /** The record addReminder builds; the clock's reading is passed in. */
  function NewReminder(id: int, title: string, time: string): (r: Reminder)
    ensures r.id == id && r.title == title && r.time == time
    ensures r.active
  {
    Reminder(id, title, time, true)
  }

  /** The list addReminder stores: one more reminder, at the end, after the
      earlier ones in their order. */
  function WithReminder(reminders: seq<Reminder>, r: Reminder): (out: seq<Reminder>)
    ensures |out| == |reminders| + 1
    ensures out[..|reminders|] == reminders
    ensures out[|reminders|] == r
  {
    reminders + [r]
  }
}
