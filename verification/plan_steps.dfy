/** A plan's ordered step list: positions, removal and reordering. */

module PlanSteps {
  import opened Wrappers
  import opened Seqs
  import opened Dicts
  import opened Data

  datatype StepMetadata = NoMetadata | ForGoal(goal: string, priority: int) | Supplied(entries: Attributes)

  datatype PlanStep = PlanStep(
    description: string,
    capability: string,
    id: nat,
    order: nat,
    optional: bool,
    metadata: StepMetadata)

  function StepId(): PlanStep -> nat {
    (s: PlanStep) => s.id
  }

  function Ids(steps: seq<PlanStep>): seq<nat> {
    Map(StepId(), steps)
  }

  function NotStep(id: nat): PlanStep -> bool {
    (s: PlanStep) => s.id != id
  }

  /** Each step with its position as its order. */
  function Renumber(steps: seq<PlanStep>): seq<PlanStep> {
    seq(|steps|, i requires 0 <= i < |steps| => steps[i].(order := i))
  }

  function RemoveStep(steps: seq<PlanStep>, id: nat): seq<PlanStep> {
    Renumber(Filter(NotStep(id), steps))
  }

  function ById(steps: seq<PlanStep>): Dict<nat, PlanStep> {
    FromValues(steps, StepId())
  }

  /** The check reorder_steps makes: right length, no repetition, same ids. */
  predicate Accepts(steps: seq<PlanStep>, ids: seq<nat>) {
    && |ids| == |ById(steps).keys|
    && |Elements(ids)| == |ids|
    && Elements(ids) == ById(steps).vals.Keys
  }

  function Reorder(steps: seq<PlanStep>, ids: seq<nat>): seq<PlanStep>
    requires Accepts(steps, ids)
  {
    seq(|ids|, i requires 0 <= i < |ids| =>
      assert ids[i] in Elements(ids); ById(steps).vals[ids[i]].(order := i))
  }

  /** Step i sits at order i and no two steps share an id. */
  ghost predicate WellOrdered(steps: seq<PlanStep>) {
    (forall i :: 0 <= i < |steps| ==> steps[i].order == i) && DistinctOn(StepId(), steps)
  }

  // ---- Looking steps up ---------------------------------------------------------------

  lemma LookupFinds(steps: seq<PlanStep>, i: nat)
    requires DistinctOn(StepId(), steps) && i < |steps|
    ensures steps[i].id in ById(steps).vals && ById(steps).vals[steps[i].id] == steps[i]
  {
    FromDistinctValues(steps, StepId());
    FromValuesKeys(steps, StepId());
    var d := ById(steps);
    hide FromValues;
    assert Values(d)[i] == steps[i] && d.keys[i] in d.keys;
  }

  lemma KeysAreIds(steps: seq<PlanStep>)
    requires DistinctOn(StepId(), steps)
    ensures ById(steps).keys == Ids(steps)
    ensures forall id :: id in ById(steps).vals <==> id in Ids(steps)
  {
    FromDistinctValues(steps, StepId());
    FromValuesKeys(steps, StepId());
    KeysFromValues(ById(steps), StepId());
  }

  lemma IdsAreDistinct(steps: seq<PlanStep>)
    requires DistinctOn(StepId(), steps)
    ensures NoDup(Ids(steps))
  {
  }

  // ---- When a reordering is accepted ------------------------------------------------------

  lemma {:induction false} NoDupMultiset(ids: seq<nat>, id: nat)
    requires NoDup(ids)
    ensures multiset(ids)[id] == if id in ids then 1 else 0
  {
    if ids != [] {
      var front, last := ids[..|ids| - 1], ids[|ids| - 1];
      assert ids == front + [last];
      NoDupMultiset(front, id);
    }
  }

  lemma RepetitionCounts(ids: seq<nat>, i: nat, j: nat)
    requires i < j < |ids| && ids[i] == ids[j]
    ensures multiset(ids)[ids[i]] >= 2
  {
    var before, after := ids[..j], ids[j..];
    assert before[i] == ids[i] && after[0] == ids[j];
    assert ids[i] in multiset(before) && ids[j] in multiset(after);
    assert ids == before + after;
    assert multiset(before + after) == multiset(before) + multiset(after);
  }

  lemma MultisetNoDup(ids: seq<nat>)
    requires forall id :: multiset(ids)[id] <= 1
    ensures NoDup(ids)
  {
    forall i, j | 0 <= i < j < |ids|
      ensures ids[i] != ids[j]
    {
      if ids[i] == ids[j] {
        RepetitionCounts(ids, i, j);
      }
    }
  }

  /** The same ids, none twice. */
  ghost predicate Rearranges(ids: seq<nat>, current: seq<nat>) {
    NoDup(ids) && forall id :: id in ids <==> id in current
  }

  lemma AcceptsRearrangements(steps: seq<PlanStep>, ids: seq<nat>)
    requires DistinctOn(StepId(), steps)
    ensures Accepts(steps, ids) <==> Rearranges(ids, Ids(steps))
  {
    KeysAreIds(steps);
    IdsAreDistinct(steps);
    SetSizeTellsRepetition(ids);
    var current := Ids(steps);
    hide ById, Ids, NoDup;
    if Accepts(steps, ids) {
      forall id
        ensures id in ids <==> id in current
      {
        assert id in ids <==> id in Elements(ids);
      }
    }
    if Rearranges(ids, current) {
      NoDupSameLength(ids, current);
      assert Elements(ids) == ById(steps).vals.Keys;
    }
  }

  lemma RearrangesMultiset(ids: seq<nat>, current: seq<nat>)
    requires NoDup(current)
    ensures Rearranges(ids, current) <==> multiset(ids) == multiset(current)
  {
    if Rearranges(ids, current) {
      forall id
        ensures multiset(ids)[id] == multiset(current)[id]
      {
        NoDupMultiset(ids, id);
        NoDupMultiset(current, id);
      }
    }
    if multiset(ids) == multiset(current) {
      forall id
        ensures multiset(ids)[id] <= 1 && (id in ids <==> id in current)
      {
        NoDupMultiset(current, id);
        assert id in ids <==> id in multiset(ids);
        assert id in current <==> id in multiset(current);
      }
      MultisetNoDup(ids);
    }
  }

  /** reorder_steps accepts exactly the permutations of the current ids. */
  lemma AcceptsExactlyPermutations(steps: seq<PlanStep>, ids: seq<nat>)
    requires DistinctOn(StepId(), steps)
    ensures Accepts(steps, ids) <==> multiset(ids) == multiset(Ids(steps))
  {
    hide Accepts, Rearranges;
    IdsAreDistinct(steps);
    AcceptsRearrangements(steps, ids);
    RearrangesMultiset(ids, Ids(steps));
  }

  // ---- The reorder algebra ------------------------------------------------------------------

  function Bare(): PlanStep -> PlanStep {
    (s: PlanStep) => s.(order := 0)
  }

  /** The step with this id, whatever its position. */
  function BareOf(steps: seq<PlanStep>): nat -> PlanStep {
    (id: nat) =>
      if id in ById(steps).vals then ById(steps).vals[id].(order := 0)
      else PlanStep("", "", id, 0, false, NoMetadata)
  }

  lemma BareOfFinds(steps: seq<PlanStep>, i: nat)
    requires DistinctOn(StepId(), steps) && i < |steps|
    ensures BareOf(steps)(steps[i].id) == Bare()(steps[i])
  {
    LookupFinds(steps, i);
    hide ById;
  }

  /** Numbering forgets whatever orders the steps had. */
  lemma RenumberForgets(steps: seq<PlanStep>)
    ensures Renumber(Map(Bare(), steps)) == Renumber(steps)
  {
  }

  lemma RenumberKeepsOrdered(steps: seq<PlanStep>)
    requires WellOrdered(steps)
    ensures Renumber(steps) == steps
  {
  }

  lemma RenumberIsWellOrdered(steps: seq<PlanStep>)
    requires DistinctOn(StepId(), steps)
    ensures WellOrdered(Renumber(steps)) && Ids(Renumber(steps)) == Ids(steps)
  {
  }

  /** A step list is determined by its ids and the steps they name. */
  lemma BareByIds(steps: seq<PlanStep>)
    requires DistinctOn(StepId(), steps)
    ensures Map(BareOf(steps), Ids(steps)) == Map(Bare(), steps)
  {
    forall i | 0 <= i < |steps|
      ensures BareOf(steps)(steps[i].id) == Bare()(steps[i])
    {
      BareOfFinds(steps, i);
    }
    hide BareOf;
  }

  lemma ReorderArranges(steps: seq<PlanStep>, ids: seq<nat>)
    requires Accepts(steps, ids)
    ensures Reorder(steps, ids) == Renumber(Map(BareOf(steps), ids))
  {
    hide ById;
    forall i | 0 <= i < |ids|
      ensures Reorder(steps, ids)[i] == Renumber(Map(BareOf(steps), ids))[i]
    {
      assert ids[i] in Elements(ids);
    }
  }

  lemma LookupIds(steps: seq<PlanStep>, id: nat)
    requires id in ById(steps).vals
    ensures BareOf(steps)(id).id == id
  {
    FromValuesKeys(steps, StepId());
    hide FromValues;
    assert StepId()(ById(steps).vals[id]) == id;
  }

  lemma NumberedBare(bare: seq<PlanStep>, ids: seq<nat>)
    requires NoDup(ids) && |bare| == |ids|
    requires forall i :: 0 <= i < |ids| ==> bare[i].id == ids[i] && bare[i].order == 0
    ensures WellOrdered(Renumber(bare)) && Ids(Renumber(bare)) == ids
    ensures Map(Bare(), Renumber(bare)) == bare
  {
    assert forall i :: 0 <= i < |ids| ==> bare[i].(order := i).(order := 0) == bare[i];
  }

  /** The reordered list has the ids asked for, in the order asked for, and the same steps. */
  lemma ReorderPlaces(steps: seq<PlanStep>, ids: seq<nat>)
    requires DistinctOn(StepId(), steps) && Accepts(steps, ids)
    ensures WellOrdered(Reorder(steps, ids)) && Ids(Reorder(steps, ids)) == ids
    ensures Map(Bare(), Reorder(steps, ids)) == Map(BareOf(steps), ids)
  {
    ReorderArranges(steps, ids);
    SetSizeTellsRepetition(ids);
    var bare := Map(BareOf(steps), ids);
    hide ById, WellOrdered, Renumber, Reorder, Ids;
    forall i | 0 <= i < |ids|
      ensures bare[i].id == ids[i] && bare[i].order == 0
    {
      assert ids[i] in Elements(ids);
      LookupIds(steps, ids[i]);
    }
    NumberedBare(bare, ids);
  }

  /** A reordered list looks up the same steps. */
  lemma ReorderKeepsSteps(steps: seq<PlanStep>, ids: seq<nat>, id: nat)
    requires DistinctOn(StepId(), steps) && Accepts(steps, ids) && id in ids
    ensures BareOf(Reorder(steps, ids))(id) == BareOf(steps)(id)
  {
    ReorderPlaces(steps, ids);
    var placed := Reorder(steps, ids);
    var i :| 0 <= i < |ids| && ids[i] == id;
    BareOfFinds(placed, i);
    hide BareOf, Accepts, Reorder;
    assert Map(Bare(), placed)[i] == BareOf(steps)(ids[i]);
    assert Ids(placed)[i] == placed[i].id;
  }

  /** Only the last of several reorderings matters. */
  lemma LastReorderWins(steps: seq<PlanStep>, first: seq<nat>, second: seq<nat>)
    requires DistinctOn(StepId(), steps) && Accepts(steps, first) && Accepts(steps, second)
    ensures Accepts(Reorder(steps, first), second)
    ensures Reorder(Reorder(steps, first), second) == Reorder(steps, second)
  {
    hide BareOf, Reorder, Accepts, Ids, NoDup;
    var placed := Reorder(steps, first);
    ReorderPlaces(steps, first);
    AcceptsRearrangements(steps, first);
    AcceptsRearrangements(steps, second);
    AcceptsRearrangements(placed, second);
    ReorderArranges(steps, second);
    ReorderArranges(placed, second);
    forall i | 0 <= i < |second|
      ensures BareOf(placed)(second[i]) == BareOf(steps)(second[i])
    {
      assert second[i] in second;
      ReorderKeepsSteps(steps, first, second[i]);
    }
    assert Map(BareOf(placed), second) == Map(BareOf(steps), second);
  }

  /** Asking for the current order changes nothing. */
  lemma ReorderToCurrent(steps: seq<PlanStep>)
    requires WellOrdered(steps)
    ensures Accepts(steps, Ids(steps)) && Reorder(steps, Ids(steps)) == steps
  {
    IdsAreDistinct(steps);
    AcceptsRearrangements(steps, Ids(steps));
    ReorderArranges(steps, Ids(steps));
    BareByIds(steps);
    RenumberForgets(steps);
    RenumberKeepsOrdered(steps);
    hide Accepts, Reorder, BareOf;
  }

  /** Reordering back to the original ids restores the original steps. */
  lemma ReorderBackRestores(steps: seq<PlanStep>, ids: seq<nat>)
    requires WellOrdered(steps) && Accepts(steps, ids)
    ensures Accepts(Reorder(steps, ids), Ids(steps))
    ensures Reorder(Reorder(steps, ids), Ids(steps)) == steps
  {
    hide Accepts, Reorder, Ids;
    ReorderToCurrent(steps);
    LastReorderWins(steps, ids, Ids(steps));
  }

  // ---- Removal ------------------------------------------------------------------------------

  lemma RemoveIsWellOrdered(steps: seq<PlanStep>, id: nat)
    requires DistinctOn(StepId(), steps)
    ensures WellOrdered(RemoveStep(steps, id))
    ensures Ids(RemoveStep(steps, id)) == Filter(Except(id), Ids(steps))
    ensures Map(Bare(), RemoveStep(steps, id)) == Filter(NotStep(id), Map(Bare(), steps))
  {
    var kept := Filter(NotStep(id), steps);
    FilterDistinct(StepId(), NotStep(id), steps);
    RenumberIsWellOrdered(kept);
    FilterMap(StepId(), NotStep(id), Except(id), steps);
    FilterMap(Bare(), NotStep(id), NotStep(id), steps);
    hide Filter;
    assert Map(Bare(), Renumber(kept)) == Map(Bare(), kept);
  }

  lemma RemoveKeepsSteps(steps: seq<PlanStep>, id: nat, other: nat)
    requires DistinctOn(StepId(), steps) && other in Ids(steps) && other != id
    ensures BareOf(RemoveStep(steps, id))(other) == BareOf(steps)(other)
  {
    var i :| 0 <= i < |steps| && steps[i].id == other;
    var kept, less := Filter(NotStep(id), steps), RemoveStep(steps, id);
    FilterMembers(NotStep(id), steps);
    assert steps[i] in steps && steps[i] in kept;
    var j :| 0 <= j < |kept| && kept[j] == steps[i];
    RemoveIsWellOrdered(steps, id);
    BareOfFinds(steps, i);
    BareOfFinds(less, j);
  }

  /** Removing a step from a reordered plan gives the same plan as removing it first and
      reordering to the ids that are left. */
  lemma ReorderAndRemoveCommute(steps: seq<PlanStep>, ids: seq<nat>, id: nat)
    requires WellOrdered(steps) && Accepts(steps, ids)
    ensures Accepts(RemoveStep(steps, id), Filter(Except(id), ids))
    ensures RemoveStep(Reorder(steps, ids), id) == Reorder(RemoveStep(steps, id), Filter(Except(id), ids))
  {
    RemovedIdsAccepted(steps, ids, id);
    var less, left := RemoveStep(steps, id), Filter(Except(id), ids);
    ReorderArranges(less, left);
    ArrangedWithout(steps, ids, id);
    hide Accepts, Reorder, BareOf, RemoveStep, Filter, Ids;
    FilterMembers(Except(id), ids);
    AcceptsRearrangements(steps, ids);
    forall i | 0 <= i < |left|
      ensures BareOf(less)(left[i]) == BareOf(steps)(left[i])
    {
      assert left[i] in left;
      RemoveKeepsSteps(steps, id, left[i]);
    }
    assert Map(BareOf(less), left) == Map(BareOf(steps), left);
  }

  lemma ArrangedWithout(steps: seq<PlanStep>, ids: seq<nat>, id: nat)
    requires WellOrdered(steps) && Accepts(steps, ids)
    ensures RemoveStep(Reorder(steps, ids), id) == Renumber(Map(BareOf(steps), Filter(Except(id), ids)))
  {
    var placed := Reorder(steps, ids);
    ReorderPlaces(steps, ids);
    hide Accepts, Reorder, Filter;
    FilterMap(Bare(), NotStep(id), NotStep(id), placed);
    RenumberForgets(Filter(NotStep(id), placed));
    forall x | x in ids
      ensures Except(id)(x) == NotStep(id)(BareOf(steps)(x))
    {
      BareOfHasId(steps, x);
    }
    FilterMap(BareOf(steps), Except(id), NotStep(id), ids);
  }

  lemma BareOfHasId(steps: seq<PlanStep>, id: nat)
    ensures BareOf(steps)(id).id == id
  {
    if id in ById(steps).vals {
      LookupIds(steps, id);
    }
    hide ById;
  }

  lemma RemovedIdsAccepted(steps: seq<PlanStep>, ids: seq<nat>, id: nat)
    requires WellOrdered(steps) && Accepts(steps, ids)
    ensures Accepts(RemoveStep(steps, id), Filter(Except(id), ids))
  {
    AcceptsRearrangements(steps, ids);
    RemoveIsWellOrdered(steps, id);
    AcceptsRearrangements(RemoveStep(steps, id), Filter(Except(id), ids));
    hide Accepts, Filter, RemoveStep, Ids, NoDup;
    FilterNoDup(Except(id), ids);
    FilterMembers(Except(id), ids);
    FilterMembers(Except(id), Ids(steps));
  }

  // ---- Adding -------------------------------------------------------------------------------

  lemma AppendIsWellOrdered(steps: seq<PlanStep>, step: PlanStep)
    requires WellOrdered(steps) && step.order == |steps| && step.id !in Ids(steps)
    ensures WellOrdered(steps + [step])
  {
    forall i | 0 <= i < |steps|
      ensures steps[i].id != step.id
    {
      assert Ids(steps)[i] == steps[i].id;
    }
  }

  /** Adding a step with a fresh id and removing it restores the steps. */
  lemma AddThenRemoveRestores(steps: seq<PlanStep>, step: PlanStep)
    requires WellOrdered(steps) && step.id !in Ids(steps)
    ensures RemoveStep(steps + [step], step.id) == steps
  {
    forall s | s in steps
      ensures NotStep(step.id)(s)
    {
      var i :| 0 <= i < |steps| && steps[i] == s;
      assert Ids(steps)[i] == s.id;
    }
    FilterAll(NotStep(step.id), steps);
    FilterSnoc(NotStep(step.id), steps, step);
    RenumberKeepsOrdered(steps);
    hide Filter;
  }
}
