/** The challenge lifecycle (components/ChallengeHub.tsx): building a
    challenge from a generated plan, toggling sub-tasks with the status
    recomputed each time, and deleting. The generated plan, the clock and the
    delete confirmation are parameters; rendering is left out. */
module Hub {
  import opened Wrappers
  import opened Types
  import opened Text
  import opened Storage

  const DayMillis: nat := 86400000
  /** Every new challenge runs for two weeks. */
  const ChallengeDays: nat := 14

  /** What the plan generator returns (services/aiService.ts is not part of
      this model). */
  datatype Plan = Plan(title: string, description: string, subTasks: seq<string>)

  // ---------------------------------------------------------------------
  // Status rule

  /** `subTasks.every(t => t.isCompleted)`; true of the empty list. */
  predicate AllDone(sts: seq<SubTask>) {
    forall i :: 0 <= i < |sts| ==> sts[i].isCompleted
  }

  /** The status a toggle assigns. */
  function DerivedStatus(sts: seq<SubTask>): (s: ChallengeStatus)
    ensures s != Pending
    ensures s == Completed <==> AllDone(sts)
  {
    if AllDone(sts) then Completed else Active
  }

  /** The data-model invariant: Completed exactly when every sub-task is done,
      and Active otherwise. */
  predicate StatusRuleHolds(c: Challenge) {
    c.status == DerivedStatus(c.subTasks)
  }

  // ---------------------------------------------------------------------
  // Toggling

  function FlipIf(t: SubTask, taskId: string): SubTask {
    if t.id == taskId then t.(isCompleted := !t.isCompleted) else t
  }

  /** `subTasks.map(t => t.id === taskId ? {...t, isCompleted: !t.isCompleted} : t)`:
      the sub-tasks carrying the id flip, nothing else moves. */
  function ToggleSubTasks(sts: seq<SubTask>, taskId: string): (r: seq<SubTask>)
    ensures |r| == |sts|
    ensures forall i :: 0 <= i < |sts| ==> r[i].id == sts[i].id && r[i].title == sts[i].title
    ensures forall i :: 0 <= i < |sts| && sts[i].id == taskId ==> r[i].isCompleted == !sts[i].isCompleted
    ensures forall i :: 0 <= i < |sts| && sts[i].id != taskId ==> r[i] == sts[i]
  {
    if sts == [] then []
    else [FlipIf(sts[0], taskId)] + ToggleSubTasks(sts[1..], taskId)
  }

  /** The challenge a toggle writes back: new sub-tasks, status recomputed,
      every other field kept. */
  function Toggled(c: Challenge, taskId: string): (r: Challenge)
    ensures StatusRuleHolds(r)
    ensures r == c.(subTasks := r.subTasks, status := r.status)
    ensures r.subTasks == ToggleSubTasks(c.subTasks, taskId)
  {
    var sts := ToggleSubTasks(c.subTasks, taskId);
    c.(subTasks := sts, status := DerivedStatus(sts))
  }

  /** Toggling the same sub-task twice gives the sub-tasks back. */
  lemma {:induction false} ToggleSubTasksTwice(sts: seq<SubTask>, taskId: string)
    ensures ToggleSubTasks(ToggleSubTasks(sts, taskId), taskId) == sts
  {
    if sts != [] {
      ToggleSubTasksTwice(sts[1..], taskId);
    }
  }

  /** Two toggles of one sub-task restore the challenge, with its status
      re-derived; a challenge that obeyed the status rule comes back unchanged. */
  lemma ToggleTwice(c: Challenge, taskId: string)
    ensures Toggled(Toggled(c, taskId), taskId) == c.(status := DerivedStatus(c.subTasks))
    ensures StatusRuleHolds(c) ==> Toggled(Toggled(c, taskId), taskId) == c
  {
    ToggleSubTasksTwice(c.subTasks, taskId);
  }

  /** An unknown sub-task id changes no sub-task but still re-derives the status. */
  lemma {:induction false} ToggleUnknownTask(c: Challenge, taskId: string)
    requires forall i :: 0 <= i < |c.subTasks| ==> c.subTasks[i].id != taskId
    ensures Toggled(c, taskId) == c.(status := DerivedStatus(c.subTasks))
  {
    var r := ToggleSubTasks(c.subTasks, taskId);
    assert r == c.subTasks by {
      assert |r| == |c.subTasks|;
      forall i | 0 <= i < |r| ensures r[i] == c.subTasks[i] {
      }
    }
  }

  /** A challenge without sub-tasks becomes Completed on any toggle. */
  lemma ToggleEmptyCompletes(c: Challenge, taskId: string)
    requires c.subTasks == []
    ensures Toggled(c, taskId).status == Completed
    ensures Toggled(c, taskId).subTasks == []
  {
  }

  // ---------------------------------------------------------------------
  // The in-memory list

  /** `challenges.find(c => c.id === id)`. */
  function FindChallenge(cs: seq<Challenge>, id: string): (r: Option<Challenge>)
    ensures r.None? <==> !HasId(cs, id)
    ensures r.Some? ==> exists i :: FirstWithId(cs, id, i) && r.value == cs[i]
  {
    var i := FindIndex(cs, id);
    if i == -1 then None else Some(cs[i])
  }

  /** `prev.map(c => c.id === id ? updated : c)`: every challenge with the id
      is replaced. */
  function ReplaceById(cs: seq<Challenge>, id: string, updated: Challenge): (r: seq<Challenge>)
    ensures |r| == |cs|
    ensures forall i :: 0 <= i < |cs| && cs[i].id == id ==> r[i] == updated
    ensures forall i :: 0 <= i < |cs| && cs[i].id != id ==> r[i] == cs[i]
  {
    seq(|cs|, i requires 0 <= i < |cs| => if cs[i].id == id then updated else cs[i])
  }

  /** The in-memory list after `toggleTask(challengeId, taskId)`. */
  function ToggleInList(cs: seq<Challenge>, challengeId: string, taskId: string): seq<Challenge> {
    match FindChallenge(cs, challengeId)
    case None => cs
    case Some(c) => ReplaceById(cs, challengeId, Toggled(c, taskId))
  }

  /** An unknown challenge id leaves the list alone; otherwise only the
      challenges with that id change, and each of them then obeys the status
      rule. */
  lemma ToggleInListEffect(cs: seq<Challenge>, challengeId: string, taskId: string)
    ensures !HasId(cs, challengeId) ==> ToggleInList(cs, challengeId, taskId) == cs
    ensures |ToggleInList(cs, challengeId, taskId)| == |cs|
    ensures forall i :: 0 <= i < |cs| && cs[i].id != challengeId ==>
      ToggleInList(cs, challengeId, taskId)[i] == cs[i]
    ensures forall i :: 0 <= i < |cs| && cs[i].id == challengeId ==>
      StatusRuleHolds(ToggleInList(cs, challengeId, taskId)[i])
  {
  }

  // ---------------------------------------------------------------------
  // Plans

  /** `st-<now>-<i>`. */
  function SubTaskId(now: nat, i: nat): string {
    "st-" + DecimalString(now) + "-" + DecimalString(i)
  }

  lemma SubTaskIdsDistinct(now: nat, i: nat, j: nat)
    requires i != j
    ensures SubTaskId(now, i) != SubTaskId(now, j)
  {
    if SubTaskId(now, i) == SubTaskId(now, j) {
      var p := "st-" + DecimalString(now) + "-";
      assert SubTaskId(now, i) == p + DecimalString(i);
      assert SubTaskId(now, j) == p + DecimalString(j);
      PrefixCancel(p, DecimalString(i), DecimalString(j));
      DecimalStringInjective(i, j);
    }
  }

  /** The challenge `handleGeneratePlan` builds from a plan at time `now`. */
  function BuildChallenge(plan: Plan, now: nat): (c: Challenge)
    ensures c.title == plan.title && c.description == plan.description
    ensures c.status == Active
    ensures c.startDate == now && c.endDate == now + ChallengeDays * DayMillis
    ensures |c.subTasks| == |plan.subTasks|
    ensures forall i :: 0 <= i < |c.subTasks| ==>
      c.subTasks[i].title == plan.subTasks[i] && !c.subTasks[i].isCompleted
  {
    Challenge(
      "ch-" + DecimalString(now),
      plan.title,
      plan.description,
      Active,
      now,
      now + ChallengeDays * DayMillis,
      seq(|plan.subTasks|, i requires 0 <= i < |plan.subTasks| =>
        SubTask(SubTaskId(now, i), plan.subTasks[i], false)))
  }

  /** The sub-tasks of a built challenge have pairwise distinct ids. */
  lemma BuiltSubTaskIdsDistinct(plan: Plan, now: nat)
    ensures var sts := BuildChallenge(plan, now).subTasks;
      forall i, j :: 0 <= i < j < |sts| ==> sts[i].id != sts[j].id
  {
    forall i, j | 0 <= i < j < |plan.subTasks|
      ensures SubTaskId(now, i) != SubTaskId(now, j)
    {
      SubTaskIdsDistinct(now, i, j);
    }
  }

  /** A plan with sub-tasks starts out obeying the status rule; a plan with
      none starts Active although its (empty) sub-task list is all done. */
  lemma BuiltStatusRule(plan: Plan, now: nat)
    ensures StatusRuleHolds(BuildChallenge(plan, now)) <==> plan.subTasks != []
  {
    var c := BuildChallenge(plan, now);
    if plan.subTasks != [] {
      assert !c.subTasks[0].isCompleted;
    }
  }

  /** Create a challenge from ["A", "B", "C"], then toggle A, B and C: after
      A it is Active with A done, after all three it is Completed. */
  lemma ThreeTaskScenario(title: string, description: string, now: nat)
    ensures var c0 := BuildChallenge(Plan(title, description, ["A", "B", "C"]), now);
      var c1 := Toggled(c0, SubTaskId(now, 0));
      var c3 := Toggled(Toggled(c1, SubTaskId(now, 1)), SubTaskId(now, 2));
      && c1.status == Active && c1.subTasks[0].isCompleted
      && c3.status == Completed
  {
    var c0 := BuildChallenge(Plan(title, description, ["A", "B", "C"]), now);
    BuiltSubTaskIdsDistinct(Plan(title, description, ["A", "B", "C"]), now);
    var c1 := Toggled(c0, SubTaskId(now, 0));
    assert !c1.subTasks[1].isCompleted;
    var c2 := Toggled(c1, SubTaskId(now, 1));
    var c3 := Toggled(c2, SubTaskId(now, 2));
    assert AllDone(c3.subTasks);
  }

  // ---------------------------------------------------------------------
  // The component

  /** The component's state: the loaded challenges and the creation form. */
  class ChallengeHub {
    const storage: StorageService
    var challenges: seq<Challenge>
    var showForm: bool
    var goalInput: string
    var generatedPlan: Option<Challenge>

    constructor (storage: StorageService)
      ensures this.storage == storage
      ensures challenges == [] && !showForm && goalInput == "" && generatedPlan == None
    {
      this.storage := storage;
      challenges := [];
      showForm := false;
      goalInput := "";
      generatedPlan := None;
    }

    method LoadChallenges()
      requires storage.Valid()
      modifies this
      ensures challenges == storage.Challenges()
      ensures showForm == old(showForm) && goalInput == old(goalInput) && generatedPlan == old(generatedPlan)
    {
      challenges := storage.GetChallenges();
    }

    /** `aiPlan` is what the generator returned, or None when it threw. */
    method HandleGeneratePlan(aiPlan: Option<Plan>, now: nat)
      modifies this
      ensures challenges == old(challenges) && showForm == old(showForm) && goalInput == old(goalInput)
      ensures Trim(goalInput) == "" || aiPlan.None? ==> generatedPlan == old(generatedPlan)
      ensures Trim(goalInput) != "" && aiPlan.Some? ==>
        generatedPlan == Some(BuildChallenge(aiPlan.value, now))
    {
      if Trim(goalInput) == "" {
        return;
      }
      if aiPlan.Some? {
        generatedPlan := Some(BuildChallenge(aiPlan.value, now));
      }
    }

    method HandleSaveChallenge()
      requires storage.Valid()
      modifies this, storage
      ensures storage.Valid() && storage.currentUserId == old(storage.currentUserId)
      ensures old(generatedPlan).None? ==>
        && storage.store == old(storage.store)
        && challenges == old(challenges) && generatedPlan == None
        && goalInput == old(goalInput) && showForm == old(showForm)
      ensures old(generatedPlan).Some? && !storage.SignedIn() ==> storage.store == old(storage.store)
      ensures old(generatedPlan).Some? && storage.SignedIn() ==>
        storage.store == old(storage.store)[ChallengeKey(storage.currentUserId) :=
          ChallengeSlot(old(storage.Challenges()) + [old(generatedPlan).value])]
      ensures old(generatedPlan).Some? ==>
        && challenges == storage.Challenges()
        && generatedPlan == None && goalInput == "" && !showForm
    {
      if generatedPlan.Some? {
        storage.SaveChallenge(generatedPlan.value);
        generatedPlan := None;
        goalInput := "";
        showForm := false;
        LoadChallenges();
      }
    }

    method ToggleTask(challengeId: string, taskId: string)
      requires storage.Valid()
      modifies this, storage
      ensures storage.Valid() && storage.currentUserId == old(storage.currentUserId)
      ensures challenges == ToggleInList(old(challenges), challengeId, taskId)
      ensures showForm == old(showForm) && goalInput == old(goalInput) && generatedPlan == old(generatedPlan)
      ensures FindChallenge(old(challenges), challengeId).None? ==> storage.store == old(storage.store)
      ensures FindChallenge(old(challenges), challengeId).Some? ==>
        var updated := Toggled(FindChallenge(old(challenges), challengeId).value, taskId);
        && (!storage.SignedIn() || !HasId(old(storage.Challenges()), challengeId) ==>
              storage.store == old(storage.store))
        && (storage.SignedIn() && HasId(old(storage.Challenges()), challengeId) ==>
              storage.store == old(storage.store)[ChallengeKey(storage.currentUserId) :=
                ChallengeSlot(ReplaceFirstById(old(storage.Challenges()), updated))])
    {
      var found := FindChallenge(challenges, challengeId);
      if found.None? {
        return;
      }
      var challenge := found.value;
      var updatedSubTasks := ToggleSubTasks(challenge.subTasks, taskId);
      var allDone := AllDone(updatedSubTasks);
      var newStatus := if allDone then Completed else Active;
      var updatedChallenge := challenge.(subTasks := updatedSubTasks, status := newStatus);
      challenges := ReplaceById(challenges, challengeId, updatedChallenge);
      storage.UpdateChallenge(updatedChallenge);
    }

    /** `confirmed` is the user's answer to the confirmation dialog. */
    method HandleDelete(id: string, confirmed: bool)
      requires storage.Valid()
      modifies this, storage
      ensures storage.Valid() && storage.currentUserId == old(storage.currentUserId)
      ensures showForm == old(showForm) && goalInput == old(goalInput) && generatedPlan == old(generatedPlan)
      ensures !confirmed ==> challenges == old(challenges) && storage.store == old(storage.store)
      ensures confirmed ==> challenges == RemoveById(old(challenges), id)
      ensures confirmed && !storage.SignedIn() ==> storage.store == old(storage.store)
      ensures confirmed && storage.SignedIn() ==>
        storage.store == old(storage.store)[ChallengeKey(storage.currentUserId) :=
          ChallengeSlot(RemoveById(old(storage.Challenges()), id))]
    {
      if confirmed {
        challenges := RemoveById(challenges, id);
        storage.DeleteChallenge(id);
      }
    }
  }
}
