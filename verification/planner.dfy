/** The planner: what each operation does to the stored plans. */

module Plans {
  import opened Wrappers
  import opened Seqs
  import opened Dicts
  import opened Data
  import opened Intents
  import opened PlanSteps
  import Capabilities

  /** Ready and Completed are declared by the source but produced by nothing in it. */
  datatype PlanStatus = Created | Validated | Ready | Failed | Completed

  datatype Task = Task(id: string, name: string, description: string)

  datatype Goal = Goal(name: string, id: string, description: string, priority: int)

  datatype Constraint = Constraint(name: string, id: string, description: string)

  datatype PlanningSession = PlanningSession(
    id: string,
    context: Option<string>,
    goals: seq<Goal>,
    constraints: seq<Constraint>,
    tasks: seq<Task>,
    extra: Dict<string, Value>)

  /** What a plan is told when it is created, and keeps. */
  datatype Origin = Origin(intent: Intent, metadata: Attributes, createdAt: int)

  datatype Plan = Plan(id: nat, origin: Origin, status: PlanStatus, steps: seq<PlanStep>, tasks: seq<Task>)

  datatype PlanError = InvalidPlan | PlanNotFound | StepNotFound | ValidationFailed(missing: seq<string>)

  datatype Notice =
    | PlanCreated(plan: nat)
    | StepAdded(plan: nat, step: nat)
    | StepRemoved(plan: nat, step: nat)
    | StepsReordered(plan: nat)
    | PlanValidated(plan: nat)

  type Answer = Result<Plan, PlanError>

  /** `drawn` counts the uuids drawn so far, for plans and steps alike. */
  datatype Planner = Planner(plans: Dict<nat, Plan>, drawn: nat, notices: seq<Notice>)

  function PlanId(): Plan -> nat {
    (p: Plan) => p.id
  }

  function TaskId(): Task -> string {
    (t: Task) => t.id
  }

  function Store(p: Planner, plan: Plan, notices: seq<Notice>): Planner {
    p.(plans := Put(p.plans, plan.id, plan), notices := p.notices + notices)
  }

  /** A structural change stores the new steps and withdraws any validation. */
  function Revise(p: Planner, plan: Plan, steps: seq<PlanStep>, n: Notice): (Planner, Answer) {
    var updated := plan.(steps := steps, status := Created);
    (Store(p, updated, [n]), Ok(updated))
  }

  ghost function CreatePlan(p: Planner, origin: Origin, tasks: seq<Task>): (Planner, Answer) {
    if !DistinctOn(TaskId(), tasks) then (p, Err(InvalidPlan))
    else
      var plan := Plan(p.drawn, origin, Created, [], tasks);
      (Store(p.(drawn := p.drawn + 1), plan, [PlanCreated(plan.id)]), Ok(plan))
  }

  function AddStep(p: Planner, id: nat, description: string, capability: string, optional: bool, metadata: StepMetadata)
    : (Planner, Answer)
  {
    if id !in p.plans.vals then (p, Err(PlanNotFound))
    else if description == "" || capability == "" then (p, Err(InvalidPlan))
    else
      var plan := p.plans.vals[id];
      var step := PlanStep(description, capability, p.drawn, |plan.steps|, optional, metadata);
      Revise(p.(drawn := p.drawn + 1), plan, plan.steps + [step], StepAdded(id, step.id))
  }

  function RemoveStep(p: Planner, id: nat, step: nat): (Planner, Answer) {
    if id !in p.plans.vals then (p, Err(PlanNotFound))
    else if step !in Ids(p.plans.vals[id].steps) then (p, Err(StepNotFound))
    else
      var plan := p.plans.vals[id];
      Revise(p, plan, PlanSteps.RemoveStep(plan.steps, step), StepRemoved(id, step))
  }

  function ReorderSteps(p: Planner, id: nat, ids: seq<nat>): (Planner, Answer) {
    if id !in p.plans.vals then (p, Err(PlanNotFound))
    else if !Accepts(p.plans.vals[id].steps, ids) then (p, Err(InvalidPlan))
    else
      var plan := p.plans.vals[id];
      Revise(p, plan, Reorder(plan.steps, ids), StepsReordered(id))
  }

  function Unsatisfied(registry: Capabilities.Registry): PlanStep -> bool {
    (s: PlanStep) => !s.optional && s.capability !in registry.vals
  }

  function NeededBy(): PlanStep -> string {
    (s: PlanStep) => s.capability
  }

  function ValidatePlan(p: Planner, registry: Capabilities.Registry, id: nat): (Planner, Answer) {
    if id !in p.plans.vals then (p, Err(PlanNotFound))
    else
      var plan := p.plans.vals[id];
      var missing := Filter(Unsatisfied(registry), plan.steps);
      if missing != [] then
        (Store(p, plan.(status := Failed), []), Err(ValidationFailed(Map(NeededBy(), missing))))
      else
        var validated := plan.(status := Validated);
        (Store(p, validated, [PlanValidated(id)]), Ok(validated))
  }

  // ---- plan_session --------------------------------------------------------------------

  function GoalDescription(goal: Goal): string {
    if goal.description != "" then goal.description else goal.name
  }

  function AddGoal(p: Planner, id: nat, goal: Goal): (Planner, Answer) {
    AddStep(p, id, GoalDescription(goal), goal.name, false, ForGoal(goal.id, goal.priority))
  }

  /** One step per goal, until an add_step is refused. */
  function AddGoals(p: Planner, id: nat, goals: seq<Goal>): (Planner, Answer) {
    if goals == [] then
      (p, if id in p.plans.vals then Ok(p.plans.vals[id]) else Err(PlanNotFound))
    else
      var (q, a) := AddGoals(p, id, goals[..|goals| - 1]);
      if a.Err? then (q, a) else AddGoal(q, id, goals[|goals| - 1])
  }

  /** The id and clock readings drawn while a session is planned. */
  datatype Draw = Draw(intentId: string, intentAt: int, createdAt: int)

  /** A session carries no intent, so one that claims nothing is made up, traceable to it. */
  function SessionIntent(s: PlanningSession, at: Draw): Intent {
    Intent(Unknown, 0.0, at.intentId, [],
           [(Text("planning_session_id"), Text(s.id))]
           + (if s.context.Some? then [(Text("cognitive_context_id"), Text(s.context.value))] else []),
           at.intentAt)
  }

  function Described(): Constraint -> Value {
    (c: Constraint) =>
      Mapping([(Text("constraint_id"), Text(c.id)), (Text("name"), Text(c.name)),
               (Text("description"), Text(c.description))])
  }

  function SessionMetadata(s: PlanningSession): Attributes {
    var traced := map["planning_session_id" := Text(s.id), "constraints" := Items(Map(Described(), s.constraints))];
    Attributes(if s.context.Some? then traced["cognitive_context_id" := Text(s.context.value)] else traced)
  }

  function SessionOrigin(s: PlanningSession, at: Draw): Origin {
    Origin(SessionIntent(s, at), SessionMetadata(s), at.createdAt)
  }

  ghost function PlanSession(p: Planner, s: PlanningSession, at: Draw): (Planner, Answer) {
    var (q, a) := CreatePlan(p, SessionOrigin(s, at), s.tasks);
    if a.Err? then (q, a) else AddGoals(q, a.value.id, s.goals)
  }

  /** How many goals come before the first without a name. */
  function Leading(goals: seq<Goal>): (k: nat)
    ensures k <= |goals|
    ensures forall i :: 0 <= i < k ==> goals[i].name != ""
    ensures k < |goals| ==> goals[k].name == ""
  {
    if goals == [] || goals[0].name == "" then 0
    else
      assert forall i :: 0 < i < |goals| ==> goals[i] == goals[1..][i - 1];
      1 + Leading(goals[1..])
  }

  /** The step the i-th goal of a session becomes; `first` is the first step id drawn. */
  function GoalStep(goals: seq<Goal>, first: nat, i: nat): PlanStep
    requires i < |goals|
  {
    PlanStep(GoalDescription(goals[i]), goals[i].name, first + i, i, false, ForGoal(goals[i].id, goals[i].priority))
  }

  function GoalSteps(goals: seq<Goal>, first: nat, k: nat): seq<PlanStep>
    requires k <= |goals|
  {
    seq(k, i requires 0 <= i < k => GoalStep(goals, first, i))
  }

  function StepNotices(id: nat, first: nat, k: nat): seq<Notice> {
    seq(k, i requires 0 <= i < k => StepAdded(id, first + i))
  }

  /** The plan once it has the steps of the first k goals. */
  function Planned(id: nat, origin: Origin, goals: seq<Goal>, tasks: seq<Task>, k: nat): Plan
    requires k <= |goals|
  {
    Plan(id, origin, Created, GoalSteps(goals, id + 1, k), tasks)
  }

  /** The planner once the new plan id has its first k steps. */
  function WithGoals(p: Planner, id: nat, origin: Origin, goals: seq<Goal>, tasks: seq<Task>, k: nat): Planner
    requires k <= |goals|
  {
    Planner(Put(p.plans, id, Planned(id, origin, goals, tasks, k)),
            id + 1 + k,
            p.notices + [PlanCreated(id)] + StepNotices(id, id + 1, k))
  }

  lemma GoalStepsSnoc(id: nat, goals: seq<Goal>, k: nat)
    requires k < |goals|
    ensures GoalSteps(goals, id + 1, k + 1) == GoalSteps(goals, id + 1, k) + [GoalStep(goals, id + 1, k)]
    ensures StepNotices(id, id + 1, k + 1) == StepNotices(id, id + 1, k) + [StepAdded(id, id + 1 + k)]
  {
  }

  lemma AddOneGoal(p: Planner, id: nat, origin: Origin, goals: seq<Goal>, tasks: seq<Task>, k: nat)
    requires k < |goals|
    ensures var (q, a) := AddGoal(WithGoals(p, id, origin, goals, tasks, k), id, goals[k]);
      if goals[k].name == "" then q == WithGoals(p, id, origin, goals, tasks, k) && a == Err(InvalidPlan)
      else q == WithGoals(p, id, origin, goals, tasks, k + 1) && a == Ok(Planned(id, origin, goals, tasks, k + 1))
  {
    GoalStepsSnoc(id, goals, k);
    PutTwice(p.plans, id, Planned(id, origin, goals, tasks, k), Planned(id, origin, goals, tasks, k + 1));
    assert |GoalSteps(goals, id + 1, k)| == k;
    hide GoalSteps, Put, StepNotices;
    assert p.notices + [PlanCreated(id)] + StepNotices(id, id + 1, k + 1)
        == p.notices + [PlanCreated(id)] + StepNotices(id, id + 1, k) + [StepAdded(id, id + 1 + k)];
  }

  lemma {:induction false} AddGoalsPrefix(
    p: Planner, id: nat, origin: Origin, goals: seq<Goal>, tasks: seq<Task>, n: nat)
    requires n <= |goals|
    ensures var (q, a) := AddGoals(WithGoals(p, id, origin, goals, tasks, 0), id, goals[..n]);
      if n <= Leading(goals)
      then q == WithGoals(p, id, origin, goals, tasks, n) && a == Ok(Planned(id, origin, goals, tasks, n))
      else q == WithGoals(p, id, origin, goals, tasks, Leading(goals)) && a == Err(InvalidPlan)
  {
    hide Leading, GoalSteps, AddGoal;
    if n == 0 {
    } else {
      assert goals[..n][..n - 1] == goals[..n - 1];
      AddGoalsPrefix(p, id, origin, goals, tasks, n - 1);
      hide WithGoals, Planned;
      if n - 1 <= Leading(goals) {
        AddOneGoal(p, id, origin, goals, tasks, n - 1);
      }
    }
  }

  lemma SessionRuns(p: Planner, s: PlanningSession, at: Draw)
    requires DistinctOn(TaskId(), s.tasks)
    ensures var (q, a) := PlanSession(p, s, at);
      && q == WithGoals(p, p.drawn, SessionOrigin(s, at), s.goals, s.tasks, Leading(s.goals))
      && a == if Leading(s.goals) == |s.goals|
              then Ok(Planned(p.drawn, SessionOrigin(s, at), s.goals, s.tasks, |s.goals|))
              else Err(InvalidPlan)
  {
    hide AddGoals, WithGoals, Planned, GoalSteps, DistinctOn, CreatePlan, Leading, SessionOrigin;
    StartsEmpty(p, SessionOrigin(s, at), s.goals, s.tasks);
    AddGoalsPrefix(p, p.drawn, SessionOrigin(s, at), s.goals, s.tasks, |s.goals|);
    assert s.goals[..|s.goals|] == s.goals;
  }

  /** plan_session succeeds exactly when the tasks repeat no id and every goal is named. It
      then gives one step per goal, in order, and the session's tasks; refused at goal k, it
      leaves a stored plan with exactly the first k steps; refused for its tasks, nothing. */
  lemma PlanSessionRefinesGoals(p: Planner, s: PlanningSession, at: Draw)
    ensures var (q, a) := PlanSession(p, s, at);
      && (a.Ok? <==> DistinctOn(TaskId(), s.tasks) && forall i :: 0 <= i < |s.goals| ==> s.goals[i].name != "")
      && (a.Ok? ==> a.value == Planned(p.drawn, SessionOrigin(s, at), s.goals, s.tasks, |s.goals|))
      && (a.Err? ==> a.error == InvalidPlan)
      && q == if DistinctOn(TaskId(), s.tasks)
              then WithGoals(p, p.drawn, SessionOrigin(s, at), s.goals, s.tasks, Leading(s.goals)) else p
  {
    hide AddGoals, WithGoals, Planned, GoalSteps, DistinctOn, Leading, SessionOrigin;
    if DistinctOn(TaskId(), s.tasks) {
      SessionRuns(p, s, at);
      hide PlanSession;
    }
  }

  lemma StartsEmpty(p: Planner, origin: Origin, goals: seq<Goal>, tasks: seq<Task>)
    requires DistinctOn(TaskId(), tasks)
    ensures CreatePlan(p, origin, tasks).0 == WithGoals(p, p.drawn, origin, goals, tasks, 0)
    ensures CreatePlan(p, origin, tasks).1.Ok? && CreatePlan(p, origin, tasks).1.value.id == p.drawn
  {
    assert GoalSteps(goals, p.drawn + 1, 0) == [];
    assert p.notices + [PlanCreated(p.drawn)] + [] == p.notices + [PlanCreated(p.drawn)];
    hide DistinctOn;
  }

  // ---- What every operation keeps -----------------------------------------------------------

  /** Step i at order i, ids distinct and already drawn, tasks without repetition; READY and
      COMPLETED never occur. */
  ghost predicate GoodPlan(plan: Plan, drawn: nat) {
    && plan.id < drawn
    && WellOrdered(plan.steps)
    && (forall s :: s in plan.steps ==> s.id < drawn)
    && DistinctOn(TaskId(), plan.tasks)
    && plan.status != Ready && plan.status != Completed
  }

  ghost predicate Good(p: Planner) {
    KeyedBy(p.plans, PlanId()) && forall id :: id in p.plans.vals ==> GoodPlan(p.plans.vals[id], p.drawn)
  }

  lemma StoredUnderItsId(p: Planner, id: nat)
    requires Good(p)
    ensures id in p.plans.vals ==> p.plans.vals[id].id == id
  {
    hide GoodPlan;
  }

  lemma GoodLater(plan: Plan, drawn: nat, later: nat)
    requires GoodPlan(plan, drawn) && drawn <= later
    ensures GoodPlan(plan, later)
  {
  }

  lemma StoreKeepsGood(p: Planner, q: Planner, plan: Plan)
    requires Good(p) && p.drawn <= q.drawn && q.plans == Put(p.plans, plan.id, plan) && GoodPlan(plan, q.drawn)
    ensures Good(q)
  {
    hide GoodPlan;
    forall id | id in q.plans.vals
      ensures GoodPlan(q.plans.vals[id], q.drawn)
    {
      if id != plan.id {
        GoodLater(p.plans.vals[id], p.drawn, q.drawn);
      }
    }
  }

  lemma NewStepIsGood(plan: Plan, step: PlanStep, drawn: nat)
    requires GoodPlan(plan, drawn) && step.order == |plan.steps| && step.id == drawn
    ensures GoodPlan(plan.(steps := plan.steps + [step], status := Created), drawn + 1)
  {
    IdsAreDrawn(plan, drawn);
    AppendIsWellOrdered(plan.steps, step);
  }

  lemma IdsAreDrawn(plan: Plan, drawn: nat)
    requires GoodPlan(plan, drawn)
    ensures forall id :: id in Ids(plan.steps) ==> id < drawn
  {
    forall i | 0 <= i < |plan.steps|
      ensures Ids(plan.steps)[i] < drawn
    {
      assert plan.steps[i] in plan.steps;
    }
  }

  lemma FewerStepsAreGood(plan: Plan, drawn: nat, steps: seq<PlanStep>)
    requires GoodPlan(plan, drawn) && WellOrdered(steps)
    requires forall id :: id in Ids(steps) ==> id in Ids(plan.steps)
    ensures GoodPlan(plan.(steps := steps, status := Created), drawn)
  {
    IdsAreDrawn(plan, drawn);
    forall s | s in steps
      ensures s.id < drawn
    {
      var i :| 0 <= i < |steps| && steps[i] == s;
      assert Ids(steps)[i] == s.id;
      assert s.id in Ids(steps);
    }
  }

  lemma CreateKeepsGood(p: Planner, origin: Origin, tasks: seq<Task>)
    requires Good(p)
    ensures Good(CreatePlan(p, origin, tasks).0)
  {
    if DistinctOn(TaskId(), tasks) {
      StoreKeepsGood(p, CreatePlan(p, origin, tasks).0, Plan(p.drawn, origin, Created, [], tasks));
    }
  }

  lemma AddKeepsGood(
    p: Planner, id: nat, description: string, capability: string, optional: bool, metadata: StepMetadata)
    requires Good(p)
    ensures Good(AddStep(p, id, description, capability, optional, metadata).0)
  {
    hide GoodPlan;
    var (q, a) := AddStep(p, id, description, capability, optional, metadata);
    if a.Ok? {
      var plan := p.plans.vals[id];
      NewStepIsGood(plan, PlanStep(description, capability, p.drawn, |plan.steps|, optional, metadata), p.drawn);
      StoreKeepsGood(p, q, a.value);
    }
  }

  lemma RemoveKeepsGood(p: Planner, id: nat, step: nat)
    requires Good(p)
    ensures Good(RemoveStep(p, id, step).0)
  {
    hide PlanSteps.RemoveStep, Ids;
    var (q, a) := RemoveStep(p, id, step);
    if a.Ok? {
      var plan := p.plans.vals[id];
      assert GoodPlan(plan, p.drawn);
      RemoveIsWellOrdered(plan.steps, step);
      FilterMembers(Except(step), Ids(plan.steps));
      FewerStepsAreGood(plan, p.drawn, a.value.steps);
      hide GoodPlan;
      StoreKeepsGood(p, q, a.value);
    }
  }

  lemma ReorderKeepsGood(p: Planner, id: nat, ids: seq<nat>)
    requires Good(p)
    ensures Good(ReorderSteps(p, id, ids).0)
  {
    hide Reorder, Ids, Accepts;
    var (q, a) := ReorderSteps(p, id, ids);
    if a.Ok? {
      var plan := p.plans.vals[id];
      assert GoodPlan(plan, p.drawn);
      ReorderPlaces(plan.steps, ids);
      AcceptsRearrangements(plan.steps, ids);
      FewerStepsAreGood(plan, p.drawn, a.value.steps);
      hide GoodPlan;
      StoreKeepsGood(p, q, a.value);
    }
  }

  lemma ValidateKeepsGood(p: Planner, registry: Capabilities.Registry, id: nat)
    requires Good(p)
    ensures Good(ValidatePlan(p, registry, id).0)
  {
    hide Filter;
    var q := ValidatePlan(p, registry, id).0;
    if id in p.plans.vals {
      var plan := p.plans.vals[id];
      assert GoodPlan(plan, p.drawn);
      assert GoodPlan(q.plans.vals[id], p.drawn);
      hide GoodPlan;
      StoreKeepsGood(p, q, q.plans.vals[id]);
    }
  }

  lemma {:induction false} AddGoalsKeepsGood(p: Planner, id: nat, goals: seq<Goal>)
    requires Good(p)
    ensures Good(AddGoals(p, id, goals).0)
  {
    hide Good, AddStep;
    if goals != [] {
      AddGoalsKeepsGood(p, id, goals[..|goals| - 1]);
      var q, goal := AddGoals(p, id, goals[..|goals| - 1]).0, goals[|goals| - 1];
      AddKeepsGood(q, id, GoalDescription(goal), goal.name, false, ForGoal(goal.id, goal.priority));
    }
  }
}

/** The planner itself. */
module Planners {
  import opened Wrappers
  import opened Seqs
  import opened Dicts
  import opened PlanSteps
  import opened Plans
  import CapabilityRegistries

  /** _validate_tasks: a pass with a set of the ids seen so far. */
  method ValidateTasks(tasks: Option<seq<Task>>) returns (r: Result<seq<Task>, PlanError>)
    ensures r == match tasks
      case None => Ok([])
      case Some(ts) => if DistinctOn(TaskId(), ts) then Ok(ts) else Err(InvalidPlan)
  {
    if tasks.None? {
      return Ok([]);
    }
    var seen: set<string>, validated: seq<Task> := {}, [];
    for i := 0 to |tasks.value|
      invariant validated == tasks.value[..i] && DistinctOn(TaskId(), validated)
      invariant forall id :: id in seen <==> exists j :: 0 <= j < i && tasks.value[j].id == id
    {
      var task := tasks.value[i];
      if task.id in seen {
        return Err(InvalidPlan);
      }
      seen := seen + {task.id};
      PrefixStep(tasks.value, i);
      validated := validated + [task];
    }
    assert tasks.value[..|tasks.value|] == tasks.value;
    return Ok(validated);
  }

  class Planner {
    const registry: CapabilityRegistries.CapabilityRegistry
    var plans: Dict<nat, Plan>
    var drawn: nat
    var notices: seq<Notice>

    ghost function State(): Plans.Planner
      reads this
    {
      Plans.Planner(plans, drawn, notices)
    }

    ghost predicate Valid()
      reads this
    {
      Good(State())
    }

    constructor (registry: CapabilityRegistries.CapabilityRegistry, drawn: nat)
      ensures this.registry == registry && Valid() && State() == Plans.Planner(Empty(), drawn, [])
    {
      this.registry := registry;
      plans, this.drawn, notices := Empty(), drawn, [];
    }

    method CreatePlan(origin: Origin, tasks: Option<seq<Task>>) returns (a: Answer)
      requires Valid()
      modifies this
      ensures Valid()
      ensures (State(), a) == Plans.CreatePlan(old(State()), origin, if tasks.Some? then tasks.value else [])
    {
      hide Good, DistinctOn;
      assert DistinctOn(TaskId(), []) by {
        NothingRepeats();
      }
      CreateKeepsGood(State(), origin, if tasks.Some? then tasks.value else []);
      var checked := ValidateTasks(tasks);
      if checked.Err? {
        return Err(InvalidPlan);
      }
      var plan := Plan(drawn, origin, Created, [], checked.value);
      drawn := drawn + 1;
      plans := Put(plans, plan.id, plan);
      notices := notices + [PlanCreated(plan.id)];
      return Ok(plan);
    }

    method AddStep(id: nat, description: string, capability: string, optional: bool, metadata: StepMetadata)
      returns (a: Answer)
      requires Valid()
      modifies this
      ensures Valid()
      ensures (State(), a) == Plans.AddStep(old(State()), id, description, capability, optional, metadata)
    {
      StoredUnderItsId(State(), id);
      hide Good;
      AddKeepsGood(State(), id, description, capability, optional, metadata);
      if id !in plans.vals {
        return Err(PlanNotFound);
      }
      if description == "" || capability == "" {
        return Err(InvalidPlan);
      }
      var plan := plans.vals[id];
      var step := PlanStep(description, capability, drawn, |plan.steps|, optional, metadata);
      drawn := drawn + 1;
      var updated := plan.(steps := plan.steps + [step], status := Created);
      plans := Put(plans, id, updated);
      notices := notices + [StepAdded(id, step.id)];
      return Ok(updated);
    }

    method RemoveStep(id: nat, step: nat) returns (a: Answer)
      requires Valid()
      modifies this
      ensures Valid()
      ensures (State(), a) == Plans.RemoveStep(old(State()), id, step)
    {
      StoredUnderItsId(State(), id);
      hide Good, PlanSteps.RemoveStep;
      RemoveKeepsGood(State(), id, step);
      if id !in plans.vals {
        return Err(PlanNotFound);
      }
      var plan := plans.vals[id];
      if step !in Ids(plan.steps) {
        return Err(StepNotFound);
      }
      var updated := plan.(steps := PlanSteps.RemoveStep(plan.steps, step), status := Created);
      plans := Put(plans, id, updated);
      notices := notices + [StepRemoved(id, step)];
      return Ok(updated);
    }

    method ReorderSteps(id: nat, ids: seq<nat>) returns (a: Answer)
      requires Valid()
      modifies this
      ensures Valid()
      ensures (State(), a) == Plans.ReorderSteps(old(State()), id, ids)
    {
      StoredUnderItsId(State(), id);
      hide Good, Reorder, Accepts;
      ReorderKeepsGood(State(), id, ids);
      if id !in plans.vals {
        return Err(PlanNotFound);
      }
      var plan := plans.vals[id];
      if !Accepts(plan.steps, ids) {
        return Err(InvalidPlan);
      }
      var updated := plan.(steps := Reorder(plan.steps, ids), status := Created);
      plans := Put(plans, id, updated);
      notices := notices + [StepsReordered(id)];
      return Ok(updated);
    }

    /** On failure the stored plan is marked FAILED and nothing is published. */
    method ValidatePlan(id: nat) returns (a: Answer)
      requires Valid()
      modifies this
      ensures Valid()
      ensures (State(), a) == Plans.ValidatePlan(old(State()), registry.capabilities, id)
    {
      StoredUnderItsId(State(), id);
      hide Good, Filter;
      ValidateKeepsGood(State(), registry.capabilities, id);
      if id !in plans.vals {
        return Err(PlanNotFound);
      }
      var plan := plans.vals[id];
      var missing := Filter(Unsatisfied(registry.capabilities), plan.steps);
      if missing != [] {
        plans := Put(plans, id, plan.(status := Failed));
        assert notices + [] == notices;
        return Err(ValidationFailed(Map(NeededBy(), missing)));
      }
      var validated := plan.(status := Validated);
      plans := Put(plans, id, validated);
      notices := notices + [PlanValidated(id)];
      return Ok(validated);
    }

    /** Creates a plan, then adds a step for each goal; an add_step that raises ends it there. */
    method PlanSession(s: PlanningSession, at: Draw) returns (a: Answer)
      requires Valid()
      modifies this
      ensures Valid()
      ensures (State(), a) == Plans.PlanSession(old(State()), s, at)
    {
      hide Good, Plans.CreatePlan, Plans.AddStep, SessionOrigin;
      var goals, origin := s.goals, SessionOrigin(s, at);
      CreatedIsStored(State(), origin, s.tasks);
      a := CreatePlan(origin, Some(s.tasks));
      if a.Err? {
        return;
      }
      var id := a.value.id;
      ghost var created := State();
      for i := 0 to |goals|
        invariant Valid() && a.Ok?
        invariant (State(), a) == AddGoals(created, id, goals[..i])
      {
        assert goals[..i + 1][..i] == goals[..i];
        a := AddStep(id, GoalDescription(goals[i]), goals[i].name, false, ForGoal(goals[i].id, goals[i].priority));
        if a.Err? {
          AddGoalsStops(created, id, goals, i + 1);
          return;
        }
      }
      assert goals[..|goals|] == goals;
    }
  }

  lemma NothingRepeats()
    ensures DistinctOn(TaskId(), [])
  {
  }

  lemma CreatedIsStored(p: Plans.Planner, origin: Origin, tasks: seq<Task>)
    ensures var (q, a) := Plans.CreatePlan(p, origin, tasks);
      a.Ok? ==> a.value.id in q.plans.vals && q.plans.vals[a.value.id] == a.value
  {
    hide DistinctOn;
  }

  /** Once a goal is refused the rest are never tried. */
  lemma {:induction false} AddGoalsStops(p: Plans.Planner, id: nat, goals: seq<Goal>, n: nat)
    requires n <= |goals| && AddGoals(p, id, goals[..n]).1.Err?
    ensures AddGoals(p, id, goals) == AddGoals(p, id, goals[..n])
    decreases |goals| - n
  {
    if n == |goals| {
      assert goals[..n] == goals;
    } else {
      assert goals[..n + 1][..n] == goals[..n];
      AddGoalsStops(p, id, goals, n + 1);
    }
  }
}
