/** Plans over whole runs, with the capability registry changing underneath. */
module PlanRuns {
  import opened Wrappers
  import opened Seqs
  import opened Dicts
  import opened PlanSteps
  import opened Plans
  import Capabilities

  datatype World = World(planner: Planner, registry: Capabilities.Registry)

  datatype Op =
    | Create(origin: Origin, tasks: seq<Task>)
    | Add(plan: nat, description: string, capability: string, optional: bool, metadata: StepMetadata)
    | Remove(plan: nat, step: nat)
    | Rearrange(plan: nat, ids: seq<nat>)
    | Validate(plan: nat)
    | Session(session: PlanningSession, at: Draw)
    | OnRegistry(change: Capabilities.Op)

  ghost function Step(w: World, op: Op): World {
    match op
    case Create(origin, tasks) => w.(planner := CreatePlan(w.planner, origin, tasks).0)
    case Add(plan, description, capability, optional, metadata) =>
      w.(planner := AddStep(w.planner, plan, description, capability, optional, metadata).0)
    case Remove(plan, step) => w.(planner := Plans.RemoveStep(w.planner, plan, step).0)
    case Rearrange(plan, ids) => w.(planner := ReorderSteps(w.planner, plan, ids).0)
    case Validate(plan) => w.(planner := ValidatePlan(w.planner, w.registry, plan).0)
    case Session(session, at) => w.(planner := PlanSession(w.planner, session, at).0)
    case OnRegistry(change) => w.(registry := Capabilities.Apply(w.registry, change))
  }

  ghost function Run(w: World, ops: seq<Op>): World {
    if ops == [] then w else Step(Run(w, ops[..|ops| - 1]), ops[|ops| - 1])
  }

  lemma StepKeepsGood(w: World, op: Op)
    requires Good(w.planner)
    ensures Good(Step(w, op).planner)
  {
    hide Good, CreatePlan, AddStep, Plans.RemoveStep, ReorderSteps, ValidatePlan;
    hide AddGoals, SessionOrigin, Capabilities.Apply;
    match op
    case Create(origin, tasks) => CreateKeepsGood(w.planner, origin, tasks);
    case Add(plan, description, capability, optional, metadata) =>
      AddKeepsGood(w.planner, plan, description, capability, optional, metadata);
    case Remove(plan, step) => RemoveKeepsGood(w.planner, plan, step);
    case Rearrange(plan, ids) => ReorderKeepsGood(w.planner, plan, ids);
    case Validate(plan) => ValidateKeepsGood(w.planner, w.registry, plan);
    case Session(session, at) =>
      var origin := SessionOrigin(session, at);
      CreateKeepsGood(w.planner, origin, session.tasks);
      var (q, a) := CreatePlan(w.planner, origin, session.tasks);
      if a.Ok? {
        AddGoalsKeepsGood(q, a.value.id, session.goals);
      }
    case OnRegistry(change) =>
  }

  /** Over every run, refused operations included, every stored plan stays well ordered, with
      distinct step ids and tasks, and is never READY or COMPLETED. */
  lemma {:induction false} RunKeepsGood(w: World, ops: seq<Op>)
    requires Good(w.planner)
    ensures Good(Run(w, ops).planner)
  {
    hide Good, Step;
    if ops != [] {
      RunKeepsGood(w, ops[..|ops| - 1]);
      StepKeepsGood(Run(w, ops[..|ops| - 1]), ops[|ops| - 1]);
    }
  }

  // ---- What VALIDATED means ----------------------------------------------------------------

  predicate AllRegistered(steps: seq<PlanStep>, registry: Capabilities.Registry) {
    forall i :: 0 <= i < |steps| && !steps[i].optional ==> steps[i].capability in registry.vals
  }

  /** Any plan that is VALIDATED was there before, exactly as it is now. */
  ghost predicate ValidatesNothing(p: Planner, q: Planner) {
    forall id :: id in q.plans.vals && q.plans.vals[id].status == Validated ==> Unchanged(p, q, id)
  }

  ghost predicate Unchanged(p: Planner, q: Planner, id: nat)
    requires id in q.plans.vals
  {
    id in p.plans.vals && q.plans.vals[id] == p.plans.vals[id]
  }

  lemma AddValidatesNothing(
    p: Planner, id: nat, description: string, capability: string, optional: bool, metadata: StepMetadata)
    ensures ValidatesNothing(p, AddStep(p, id, description, capability, optional, metadata).0)
  {
  }

  lemma {:induction false} AddGoalsValidatesNothing(p: Planner, id: nat, goals: seq<Goal>)
    ensures ValidatesNothing(p, AddGoals(p, id, goals).0)
  {
    hide AddStep;
    if goals != [] {
      AddGoalsValidatesNothing(p, id, goals[..|goals| - 1]);
      var q, goal := AddGoals(p, id, goals[..|goals| - 1]).0, goals[|goals| - 1];
      AddValidatesNothing(q, id, GoalDescription(goal), goal.name, false, ForGoal(goal.id, goal.priority));
    }
  }

  lemma SessionValidatesNothing(p: Planner, s: PlanningSession, at: Draw)
    ensures ValidatesNothing(p, PlanSession(p, s, at).0)
  {
    hide AddGoals, DistinctOn, SessionOrigin;
    var (q, a) := CreatePlan(p, SessionOrigin(s, at), s.tasks);
    if a.Ok? {
      AddGoalsValidatesNothing(q, a.value.id, s.goals);
    }
  }

  /** Validation succeeds exactly when every non-optional capability is registered; it changes
      that plan's status and nothing else. */
  lemma ValidationChecks(p: Planner, registry: Capabilities.Registry, id: nat)
    requires Good(p) && id in p.plans.vals
    ensures var (q, a) := ValidatePlan(p, registry, id); var plan := p.plans.vals[id];
      && (a.Ok? <==> AllRegistered(plan.steps, registry))
      && q.plans.keys == p.plans.keys
      && var status := if AllRegistered(plan.steps, registry) then Validated else Failed;
         q.plans.vals == p.plans.vals[id := plan.(status := status)]
  {
    var steps := p.plans.vals[id].steps;
    FilterMembers(Unsatisfied(registry), steps);
    assert forall i :: 0 <= i < |steps| ==> steps[i] in steps;
    var missing := Filter(Unsatisfied(registry), steps);
    hide Filter, GoodPlan;
    if missing != [] {
      assert missing[0] in missing;
    }
  }

  /** A plan is VALIDATED after a step only if it already was, as it stands, or the step
      validated it with every required capability registered. */
  lemma StepValidates(w: World, op: Op, id: nat)
    requires Good(w.planner)
    requires id in Step(w, op).planner.plans.vals && Step(w, op).planner.plans.vals[id].status == Validated
    ensures var after := Step(w, op);
      Unchanged(w.planner, after.planner, id)
      || (op == Validate(id) && id in w.planner.plans.vals
          && w.planner.plans.vals[id].steps == after.planner.plans.vals[id].steps
          && AllRegistered(after.planner.plans.vals[id].steps, w.registry))
  {
    hide GoodPlan, AllRegistered, DistinctOn, Reorder, Accepts, PlanSteps.RemoveStep, Ids, Capabilities.Apply;
    match op
    case Session(session, at) =>
      SessionValidatesNothing(w.planner, session, at);
      hide PlanSession;
    case Validate(plan) =>
      if plan in w.planner.plans.vals {
        ValidationChecks(w.planner, w.registry, plan);
        hide ValidatePlan;
      }
    case _ =>
  }

  /** After the first k operations the plan had the steps it has in the end, and every
      non-optional capability they require was registered. */
  ghost predicate CheckedAt(w: World, ops: seq<Op>, k: nat, plan: Plan)
    requires k <= |ops|
  {
    var moment := Run(w, ops[..k]);
    && plan.id in moment.planner.plans.vals
    && moment.planner.plans.vals[plan.id].steps == plan.steps
    && AllRegistered(plan.steps, moment.registry)
  }

  /** A plan is VALIDATED only if, before some operation of the run and with exactly these steps,
      every capability it requires was registered, whatever happened to the registry since. */
  lemma {:induction false} ValidatedWasChecked(w: World, ops: seq<Op>, id: nat)
    requires Good(w.planner)
    requires forall k :: k in w.planner.plans.vals ==> w.planner.plans.vals[k].status != Validated
    requires id in Run(w, ops).planner.plans.vals && Run(w, ops).planner.plans.vals[id].status == Validated
    ensures exists k :: 0 <= k < |ops| && CheckedAt(w, ops, k, Run(w, ops).planner.plans.vals[id])
  {
    hide Good, AllRegistered;
    if ops != [] {
      var front, op := ops[..|ops| - 1], ops[|ops| - 1];
      var plan := Run(w, ops).planner.plans.vals[id];
      RunKeepsGood(w, front);
      RunKeepsGood(w, ops);
      StepValidates(Run(w, front), op, id);
      hide Step;
      if Unchanged(Run(w, front).planner, Run(w, ops).planner, id) {
        ValidatedWasChecked(w, front, id);
        var k :| 0 <= k < |front| && CheckedAt(w, front, k, plan);
        assert front[..k] == ops[..k];
        assert CheckedAt(w, ops, k, plan);
      } else {
        assert ops[..|front|] == front;
        StoredUnderItsId(Run(w, ops).planner, id);
        assert CheckedAt(w, ops, |front|, plan);
      }
    }
  }
}
