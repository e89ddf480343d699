/** What each planner operation does to the stored plans, and the laws between operations. */
module PlannerEffects {
  import opened Wrappers
  import opened Seqs
  import opened Dicts
  import opened Data
  import opened Intents
  import opened PlanSteps
  import opened Plans
  import Capabilities

  /** The plan is stored under id, as it was but for its steps and status, and answered; no other
      plan is touched; a notice is published. */
  ghost predicate Revises(p: Planner, id: nat, status: PlanStatus, q: Planner, plan: Plan, notices: seq<Notice>) {
    && id in p.plans.vals
    && plan.id == id && plan.status == status
    && plan.origin == p.plans.vals[id].origin && plan.tasks == p.plans.vals[id].tasks
    && Binds(p.plans, q.plans, id, plan) && q.plans.keys == p.plans.keys
    && q.notices == p.notices + notices
  }

  /** Every step of the new list that an old one shares its id with is that step, renumbered. */
  ghost predicate KeepsEach(before: seq<PlanStep>, steps: seq<PlanStep>) {
    forall i, j :: 0 <= i < |steps| && 0 <= j < |before| && steps[i].id == before[j].id ==>
      steps[i] == before[j].(order := i)
  }

  // ---- Step lists -----------------------------------------------------------------------

  lemma SameBareAtItsPlace(step: PlanStep, other: PlanStep, i: nat)
    requires Bare()(step) == Bare()(other) && step.order == i
    ensures step == other.(order := i)
  {
    assert step == Bare()(step).(order := i);
  }

  lemma ReorderKeepsEach(steps: seq<PlanStep>, ids: seq<nat>)
    requires DistinctOn(StepId(), steps) && Accepts(steps, ids)
    ensures KeepsEach(steps, Reorder(steps, ids))
  {
    ReorderPlaces(steps, ids);
    var placed := Reorder(steps, ids);
    hide Accepts, Reorder, BareOf, Bare;
    forall i, j | 0 <= i < |placed| && 0 <= j < |steps| && placed[i].id == steps[j].id
      ensures placed[i] == steps[j].(order := i)
    {
      BareOfFinds(steps, j);
      assert Ids(placed)[i] == ids[i] == steps[j].id;
      assert Map(Bare(), placed)[i] == Map(BareOf(steps), ids)[i];
      SameBareAtItsPlace(placed[i], steps[j], i);
    }
  }

  lemma RemoveKeepsEach(steps: seq<PlanStep>, id: nat)
    requires DistinctOn(StepId(), steps)
    ensures KeepsEach(steps, PlanSteps.RemoveStep(steps, id))
  {
    RemoveIsWellOrdered(steps, id);
    var less := PlanSteps.RemoveStep(steps, id);
    FilterMembers(Except(id), Ids(steps));
    hide PlanSteps.RemoveStep, BareOf, Bare, Filter;
    forall i, j | 0 <= i < |less| && 0 <= j < |steps| && less[i].id == steps[j].id
      ensures less[i] == steps[j].(order := i)
    {
      assert Ids(less)[i] == steps[j].id == Ids(steps)[j];
      assert Ids(less)[i] in Ids(less);
      RemoveKeepsSteps(steps, id, steps[j].id);
      BareOfFinds(steps, j);
      BareOfFinds(less, i);
      SameBareAtItsPlace(less[i], steps[j], i);
    }
  }

  // ---- Each operation ---------------------------------------------------------------------

  lemma StepsOfGood(p: Planner, id: nat)
    requires Good(p) && id in p.plans.vals
    ensures var plan := p.plans.vals[id]; plan.id == id && WellOrdered(plan.steps) && p.drawn !in Ids(plan.steps)
  {
    var plan := p.plans.vals[id];
    assert GoodPlan(plan, p.drawn);
    IdsAreDrawn(plan, p.drawn);
    hide GoodPlan, WellOrdered, Ids;
  }

  /** create_plan: an empty plan under a new id, with the origin and tasks given; repeated tasks
      are refused. */
  lemma CreatePlanEffect(p: Planner, origin: Origin, tasks: seq<Task>)
    requires Good(p)
    ensures var (q, a) := CreatePlan(p, origin, tasks);
      match a
      case Err(e) => e == InvalidPlan && q == p && !DistinctOn(TaskId(), tasks)
      case Ok(plan) =>
        && DistinctOn(TaskId(), tasks) && plan.id !in p.plans.vals
        && plan.origin == origin && plan.status == Created && plan.steps == [] && plan.tasks == tasks
        && Binds(p.plans, q.plans, plan.id, plan) && q.plans.keys == p.plans.keys + [plan.id]
        && q.notices == p.notices + [PlanCreated(plan.id)] && plan.id < q.drawn && p.drawn <= q.drawn
  {
    assert p.drawn !in p.plans.vals by {
      assert p.drawn in p.plans.vals ==> GoodPlan(p.plans.vals[p.drawn], p.drawn);
    }
    hide Good, GoodPlan, DistinctOn;
  }

  /** add_step: a step goes last, with a new id and its position; any validation is withdrawn. A
      missing plan is refused first, then an empty description or capability. */
  lemma AddStepEffect(
    p: Planner, id: nat, description: string, capability: string, optional: bool, metadata: StepMetadata)
    requires Good(p)
    ensures var (q, a) := AddStep(p, id, description, capability, optional, metadata);
      match a
      case Err(e) =>
        && q == p && (id !in p.plans.vals || description == "" || capability == "")
        && e == if id !in p.plans.vals then PlanNotFound else InvalidPlan
      case Ok(plan) =>
        && description != "" && capability != "" && plan.steps != []
        && var before, step := plan.steps[..|plan.steps| - 1], plan.steps[|plan.steps| - 1];
           && Revises(p, id, Created, q, plan, [StepAdded(id, step.id)])
           && before == p.plans.vals[id].steps && step.id !in Ids(before) && step.order == |before|
           && step.description == description && step.capability == capability
           && step.optional == optional && step.metadata == metadata && step.id < q.drawn && p.drawn <= q.drawn
  {
    if id in p.plans.vals {
      StepsOfGood(p, id);
    }
    hide Good, Ids, WellOrdered;
    var a := AddStep(p, id, description, capability, optional, metadata).1;
    if a.Ok? {
      assert a.value.steps[..|a.value.steps| - 1] == p.plans.vals[id].steps;
    }
  }

  /** remove_step: the step goes, the others keep their order and are renumbered; any validation
      is withdrawn. A missing plan or step is refused. */
  lemma RemoveStepEffect(p: Planner, id: nat, step: nat)
    requires Good(p)
    ensures var (q, a) := Plans.RemoveStep(p, id, step);
      match a
      case Err(e) =>
        && q == p && (id in p.plans.vals ==> step !in Ids(p.plans.vals[id].steps))
        && e == if id !in p.plans.vals then PlanNotFound else StepNotFound
      case Ok(plan) =>
        && Revises(p, id, Created, q, plan, [StepRemoved(id, step)]) && q.drawn == p.drawn
        && step in Ids(p.plans.vals[id].steps)
        && Ids(plan.steps) == Filter(Except(step), Ids(p.plans.vals[id].steps))
        && KeepsEach(p.plans.vals[id].steps, plan.steps)
  {
    if id in p.plans.vals {
      StepsOfGood(p, id);
      RemoveIsWellOrdered(p.plans.vals[id].steps, step);
      RemoveKeepsEach(p.plans.vals[id].steps, step);
    }
    hide Good, PlanSteps.RemoveStep, Ids, Filter, WellOrdered, KeepsEach;
  }

  /** reorder_steps: exactly the permutations of the plan's step ids are accepted. The plan then
      has the ids asked for, in the order asked for, each step being what it was but for its
      order; any validation is withdrawn. */
  lemma ReorderStepsEffect(p: Planner, id: nat, ids: seq<nat>)
    requires Good(p)
    ensures var (q, a) := ReorderSteps(p, id, ids);
      match a
      case Err(e) =>
        && q == p && (id in p.plans.vals ==> multiset(ids) != multiset(Ids(p.plans.vals[id].steps)))
        && e == if id !in p.plans.vals then PlanNotFound else InvalidPlan
      case Ok(plan) =>
        && Revises(p, id, Created, q, plan, [StepsReordered(id)]) && q.drawn == p.drawn
        && multiset(ids) == multiset(Ids(p.plans.vals[id].steps))
        && Ids(plan.steps) == ids && KeepsEach(p.plans.vals[id].steps, plan.steps)
  {
    if id in p.plans.vals {
      StepsOfGood(p, id);
      var steps := p.plans.vals[id].steps;
      AcceptsExactlyPermutations(steps, ids);
      if Accepts(steps, ids) {
        ReorderPlaces(steps, ids);
        ReorderKeepsEach(steps, ids);
      }
    }
    hide Good, Accepts, Reorder, Ids, WellOrdered, KeepsEach;
  }

  /** The required steps whose capability is not registered, by position. */
  ghost predicate Missing(steps: seq<PlanStep>, registry: Capabilities.Registry, places: seq<int>) {
    && (forall i, j :: 0 <= i < j < |places| ==> places[i] < places[j])
    && forall n :: n in places <==> 0 <= n < |steps| && !steps[n].optional && steps[n].capability !in registry.vals
  }

  /** The capabilities named are those of the missing steps, in order. */
  ghost predicate Reports(steps: seq<PlanStep>, registry: Capabilities.Registry, places: seq<int>, named: seq<string>) {
    && Missing(steps, registry, places) && |named| == |places|
    && forall i :: 0 <= i < |places| ==> places[i] in places && named[i] == steps[places[i]].capability
  }

  lemma MissingAreReported(steps: seq<PlanStep>, registry: Capabilities.Registry) returns (places: seq<int>)
    ensures Reports(steps, registry, places, Map(NeededBy(), Filter(Unsatisfied(registry), steps)))
  {
    places := FilterPicks(Unsatisfied(registry), steps);
    hide Filter;
  }

  /** validate_plan: the plan becomes VALIDATED and that is published, or, when required
      capabilities are missing, it becomes FAILED, nothing is published and exactly they are
      named, in step order. Its steps stay. */
  lemma ValidatePlanEffect(p: Planner, registry: Capabilities.Registry, id: nat) returns (places: seq<int>)
    requires Good(p)
    ensures var (q, a) := ValidatePlan(p, registry, id);
      if id !in p.plans.vals then q == p && a == Err(PlanNotFound)
      else
        var plan := p.plans.vals[id];
        && q.drawn == p.drawn && Missing(plan.steps, registry, places)
        && if places == [] then
             Revises(p, id, Validated, q, plan.(status := Validated), [PlanValidated(id)])
             && a == Ok(plan.(status := Validated))
           else
             && Revises(p, id, Failed, q, plan.(status := Failed), [])
             && a.Err? && a.error.ValidationFailed? && Reports(plan.steps, registry, places, a.error.missing)
  {
    places := [];
    if id in p.plans.vals {
      StepsOfGood(p, id);
      places := MissingAreReported(p.plans.vals[id].steps, registry);
      assert p.notices + [] == p.notices;
    }
    hide Good, Filter, WellOrdered, Ids, Missing;
  }

  /** plan_session, when it succeeds: step i comes from goal i, described by the goal's
      description, or by its name if it has none, and requiring the goal's name as capability. */
  lemma SessionStepsEffect(p: Planner, s: PlanningSession, at: Draw, i: nat)
    requires PlanSession(p, s, at).1.Ok? && i < |s.goals|
    ensures var plan := PlanSession(p, s, at).1.value;
      && |plan.steps| == |s.goals| && plan.tasks == s.tasks && plan.status == Created
      && var step, goal := plan.steps[i], s.goals[i];
         && step.description == (if goal.description == "" then goal.name else goal.description)
         && step.capability == goal.name && step.order == i && !step.optional
         && step.metadata == ForGoal(goal.id, goal.priority)
  {
    PlanSessionRefinesGoals(p, s, at);
    hide PlanSession;
  }

  /** The plan made from a session carries an intent that claims nothing, traceable to the
      session; so does its metadata, which lists the constraints in order. */
  lemma SessionOriginEffect(p: Planner, s: PlanningSession, at: Draw)
    requires PlanSession(p, s, at).1.Ok?
    ensures var origin := PlanSession(p, s, at).1.value.origin;
      var entries := origin.metadata.entries;
      && origin.intent.name == Unknown && origin.intent.confidence == 0.0 && origin.intent.entities == []
      && origin.intent.id == at.intentId && origin.intent.timestamp == at.intentAt
      && origin.createdAt == at.createdAt
      && (Text("planning_session_id"), Text(s.id)) in origin.intent.parameters
      && (forall v :: (Text("cognitive_context_id"), v) in origin.intent.parameters <==> TracesContext(s, v))
      && "planning_session_id" in entries && entries["planning_session_id"] == Text(s.id)
      && (forall v :: (Text("cognitive_context_id"), v) in origin.intent.parameters
                      <==> "cognitive_context_id" in entries && entries["cognitive_context_id"] == v)
      && "constraints" in entries && entries["constraints"].Items?
      && ListsConstraints(s.constraints, entries["constraints"].elements)
  {
    PlanSessionRefinesGoals(p, s, at);
    hide PlanSession, Described;
    OriginTraces(s, at);
    ConstraintsAreListed(s.constraints);
    hide SessionOrigin, ListsConstraints;
  }

  predicate TracesContext(s: PlanningSession, v: Value) {
    s.context.Some? && v == Text(s.context.value)
  }

  ghost predicate ListsConstraints(constraints: seq<Constraint>, listed: seq<Value>) {
    && |listed| == |constraints|
    && forall i :: 0 <= i < |listed| ==>
         var c := constraints[i];
         listed[i] == Mapping([(Text("constraint_id"), Text(c.id)), (Text("name"), Text(c.name)),
                               (Text("description"), Text(c.description))])
  }

  lemma ConstraintsAreListed(constraints: seq<Constraint>)
    ensures ListsConstraints(constraints, Map(Described(), constraints))
  {
  }

  lemma OriginTraces(s: PlanningSession, at: Draw)
    ensures var origin := SessionOrigin(s, at);
      var entries := origin.metadata.entries;
      && origin.intent.name == Unknown && origin.intent.confidence == 0.0 && origin.intent.entities == []
      && origin.intent.id == at.intentId && origin.intent.timestamp == at.intentAt
      && origin.createdAt == at.createdAt
      && (Text("planning_session_id"), Text(s.id)) in origin.intent.parameters
      && (forall v :: (Text("cognitive_context_id"), v) in origin.intent.parameters <==> TracesContext(s, v))
      && "planning_session_id" in entries && entries["planning_session_id"] == Text(s.id)
      && (forall v :: TracesContext(s, v)
                      <==> "cognitive_context_id" in entries && entries["cognitive_context_id"] == v)
      && "constraints" in entries && entries["constraints"] == Items(Map(Described(), s.constraints))
  {
    hide Described;
    var traced := [(Text("planning_session_id"), Text(s.id))];
    assert (SessionIntent(s, at).parameters)[0] == traced[0];
    assert "planning_session_id" != "cognitive_context_id" by {
      assert "planning_session_id"[0] != "cognitive_context_id"[0];
    }
    assert |"constraints"| != |"cognitive_context_id"| && |"constraints"| != |"planning_session_id"|;
    if s.context.Some? {
      assert SessionIntent(s, at).parameters[1] == (Text("cognitive_context_id"), Text(s.context.value));
    }
  }

  // ---- Laws between operations ------------------------------------------------------------

  /** The plan is as it was at first, steps included, apart from a withdrawn validation, and every
      other plan is untouched. */
  ghost predicate Restored(p: Planner, q: Planner, id: nat) {
    && id in p.plans.vals && q.plans.keys == p.plans.keys
    && Binds(p.plans, q.plans, id, p.plans.vals[id].(status := Created))
  }

  /** Reordering a plan back to the ids it had restores it. */
  lemma ReorderBackRestoresPlan(p: Planner, id: nat, ids: seq<nat>)
    requires Good(p) && ReorderSteps(p, id, ids).1.Ok?
    ensures var (q, a) := ReorderSteps(ReorderSteps(p, id, ids).0, id, Ids(p.plans.vals[id].steps));
      a.Ok? && Restored(p, q, id)
  {
    StepsOfGood(p, id);
    ReorderBackRestores(p.plans.vals[id].steps, ids);
    hide Good, Accepts, Reorder, Ids, WellOrdered;
  }

  function WithSteps(plan: Plan, steps: seq<PlanStep>): Plan {
    plan.(steps := steps, status := Created)
  }

  lemma PutLooksUp(plans: Dict<nat, Plan>, id: nat, plan: Plan, other: Plan)
    ensures id in Put(plans, id, plan).vals && Put(plans, id, plan).vals[id] == plan
    ensures Put(Put(plans, id, plan), id, other) == Put(plans, id, other)
  {
    PutTwice(plans, id, plan, other);
  }

  lemma Reordered(p: Planner, id: nat, ids: seq<nat>)
    requires id in p.plans.vals && p.plans.vals[id].id == id
    ensures ReorderSteps(p, id, ids).1.Ok? <==> Accepts(p.plans.vals[id].steps, ids)
    ensures Accepts(p.plans.vals[id].steps, ids) ==>
      var plan := WithSteps(p.plans.vals[id], Reorder(p.plans.vals[id].steps, ids));
      ReorderSteps(p, id, ids).1 == Ok(plan) && ReorderSteps(p, id, ids).0.plans == Put(p.plans, id, plan)
  {
    hide Accepts, Reorder, Put;
  }

  lemma Removed(p: Planner, id: nat, step: nat)
    requires id in p.plans.vals && p.plans.vals[id].id == id && step in Ids(p.plans.vals[id].steps)
    ensures var plan := WithSteps(p.plans.vals[id], PlanSteps.RemoveStep(p.plans.vals[id].steps, step));
      Plans.RemoveStep(p, id, step).1 == Ok(plan) && Plans.RemoveStep(p, id, step).0.plans == Put(p.plans, id, plan)
  {
    hide PlanSteps.RemoveStep, Ids, Put;
  }

  /** Of two reorderings of a plan only the second matters. */
  lemma LastReorderOfPlanWins(p: Planner, id: nat, first: seq<nat>, second: seq<nat>)
    requires Good(p) && ReorderSteps(p, id, first).1.Ok? && ReorderSteps(p, id, second).1.Ok?
    ensures var (q, a) := ReorderSteps(ReorderSteps(p, id, first).0, id, second);
      a == ReorderSteps(p, id, second).1 && q.plans == ReorderSteps(p, id, second).0.plans
  {
    StepsOfGood(p, id);
    var plan := p.plans.vals[id];
    Reordered(p, id, first);
    Reordered(p, id, second);
    hide Good, Accepts, Reorder, Ids, ReorderSteps, Put;
    hide WellOrdered;
    LastReorderWins(plan.steps, first, second) by {
      OrderedAreDistinct(plan.steps);
    }
    PutLooksUp(p.plans, id, WithSteps(plan, Reorder(plan.steps, first)), WithSteps(plan, Reorder(plan.steps, second)));
    Reordered(ReorderSteps(p, id, first).0, id, second);
  }

  lemma OrderedAreDistinct(steps: seq<PlanStep>)
    requires WellOrdered(steps)
    ensures DistinctOn(StepId(), steps)
  {
  }

  /** Reordering a plan and removing a step comes to the same as removing the step and reordering
      to the ids that are left. */
  lemma ReorderAndRemoveCommuteInPlan(p: Planner, id: nat, ids: seq<nat>, step: nat)
    requires Good(p) && ReorderSteps(p, id, ids).1.Ok? && step in ids
    ensures var (q, a) := Plans.RemoveStep(ReorderSteps(p, id, ids).0, id, step);
      var (r, b) := ReorderSteps(Plans.RemoveStep(p, id, step).0, id, Filter(Except(step), ids));
      a.Ok? && a == b && q.plans == r.plans
  {
    StepsOfGood(p, id);
    var plan := p.plans.vals[id];
    var steps, left := plan.steps, Filter(Except(step), ids);
    Reordered(p, id, ids);
    hide Good, Reorder, WellOrdered, Put, PlanSteps.RemoveStep, Plans.RemoveStep, ReorderSteps, Filter, Accepts, Ids;
    SameIds(steps, ids, step);
    Removed(p, id, step);
    ReorderAndRemoveCommute(steps, ids, step);
    var placed, less := Reorder(steps, ids), PlanSteps.RemoveStep(steps, step);
    var done := WithSteps(plan, PlanSteps.RemoveStep(placed, step));
    PutLooksUp(p.plans, id, WithSteps(plan, placed), done);
    PutLooksUp(p.plans, id, WithSteps(plan, less), done);
    Removed(ReorderSteps(p, id, ids).0, id, step);
    Reordered(Plans.RemoveStep(p, id, step).0, id, left);
  }

  lemma SameIds(steps: seq<PlanStep>, ids: seq<nat>, id: nat)
    requires WellOrdered(steps) && Accepts(steps, ids) && id in ids
    ensures id in Ids(steps) && id in Ids(Reorder(steps, ids))
  {
    AcceptsRearrangements(steps, ids);
    ReorderPlaces(steps, ids);
    hide Accepts, Reorder, Ids, Bare, BareOf;
  }

  /** Adding a step to a plan and removing it restores the plan. */
  lemma AddThenRemoveRestoresPlan(
    p: Planner, id: nat, description: string, capability: string, optional: bool, metadata: StepMetadata)
    requires Good(p) && AddStep(p, id, description, capability, optional, metadata).1.Ok?
    ensures var (q, a) := AddStep(p, id, description, capability, optional, metadata);
      && a.value.steps != []
      && var (r, b) := Plans.RemoveStep(q, id, a.value.steps[|a.value.steps| - 1].id);
         b.Ok? && Restored(p, r, id)
  {
    StepsOfGood(p, id);
    var plan := p.plans.vals[id];
    var step := PlanStep(description, capability, p.drawn, |plan.steps|, optional, metadata);
    AddThenRemoveRestores(plan.steps, step);
    assert Ids(plan.steps + [step])[|plan.steps|] == step.id;
    hide Good, Ids, WellOrdered, PlanSteps.RemoveStep;
  }
}
