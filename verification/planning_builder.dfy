/** The fluent builder of planning sessions. */

module PlanningSessions {
  import opened Wrappers
  import opened Seqs
  import opened Dicts
  import opened Data
  import opened Plans

  // ---- The quadratic check and partial accumulation ------------------------------------

  /** with_task: refused if any task already added has this id. */
  predicate Taken(tasks: seq<Task>, id: string) {
    exists i :: 0 <= i < |tasks| && tasks[i].id == id
  }

  /** with_tasks: adds one task at a time until one is refused; what was added stays. */
  function AddTasks(tasks: seq<Task>, more: seq<Task>): (seq<Task>, bool)
    decreases |more|
  {
    if more == [] then (tasks, true)
    else if Taken(tasks, more[0].id) then (tasks, false)
    else AddTasks(tasks + [more[0]], more[1..])
  }

  lemma TakenBreaksDistinct(tasks: seq<Task>, task: Task)
    requires DistinctOn(TaskId(), tasks)
    ensures Taken(tasks, task.id) <==> !DistinctOn(TaskId(), tasks + [task])
  {
    var more := tasks + [task];
    if Taken(tasks, task.id) {
      var i :| 0 <= i < |tasks| && tasks[i].id == task.id;
      assert TaskId()(more[i]) == TaskId()(more[|tasks|]);
    }
  }

  lemma PrefixRepeats(tasks: seq<Task>, n: nat)
    requires n <= |tasks| && !DistinctOn(TaskId(), tasks[..n])
    ensures !DistinctOn(TaskId(), tasks)
  {
    var i, j :| 0 <= i < j < n && TaskId()(tasks[..n][i]) == TaskId()(tasks[..n][j]);
    assert TaskId()(tasks[i]) == TaskId()(tasks[j]);
  }

  /** The first k more tasks repeat nothing, and either they are all or the next one does. */
  ghost predicate LongestPrefix(tasks: seq<Task>, more: seq<Task>, k: nat) {
    && k <= |more|
    && DistinctOn(TaskId(), tasks + more[..k])
    && (k < |more| ==> !DistinctOn(TaskId(), tasks + more[..k + 1]))
  }

  lemma PrefixShift(tasks: seq<Task>, more: seq<Task>, k: nat)
    requires more != [] && LongestPrefix(tasks + [more[0]], more[1..], k)
    ensures LongestPrefix(tasks, more, k + 1)
    ensures tasks + [more[0]] + more[1..][..k] == tasks + more[..k + 1]
  {
    hide DistinctOn;
    assert tasks + [more[0]] + more[1..][..k] == tasks + more[..k + 1];
    if k < |more[1..]| {
      assert tasks + [more[0]] + more[1..][..k + 1] == tasks + more[..k + 2];
    }
  }

  /** A refused list leaves the longest prefix that repeats nothing. */
  lemma {:induction false} AddTasksKeepsLongestPrefix(tasks: seq<Task>, more: seq<Task>)
    requires DistinctOn(TaskId(), tasks)
    ensures DistinctOn(TaskId(), AddTasks(tasks, more).0)
    ensures exists k: nat :: LongestPrefix(tasks, more, k) && AddTasks(tasks, more) == (tasks + more[..k], k == |more|)
    decreases |more|
  {
    hide DistinctOn, Taken;
    if more == [] {
      assert tasks + more[..0] == tasks;
      assert LongestPrefix(tasks, more, 0);
    } else {
      TakenBreaksDistinct(tasks, more[0]);
      if Taken(tasks, more[0].id) {
        assert tasks + more[..0] == tasks && tasks + more[..1] == tasks + [more[0]];
        assert LongestPrefix(tasks, more, 0);
      } else {
        AddTasksKeepsLongestPrefix(tasks + [more[0]], more[1..]);
        var k: nat :| LongestPrefix(tasks + [more[0]], more[1..], k)
          && AddTasks(tasks + [more[0]], more[1..]) == (tasks + [more[0]] + more[1..][..k], k == |more[1..]|);
        PrefixShift(tasks, more, k);
      }
    }
  }

  /** The builder's quadratic check accepts exactly the lists without repetition. */
  lemma AddTasksAcceptsIff(tasks: seq<Task>, more: seq<Task>)
    requires DistinctOn(TaskId(), tasks)
    ensures AddTasks(tasks, more).1 <==> DistinctOn(TaskId(), tasks + more)
  {
    AddTasksKeepsLongestPrefix(tasks, more);
    var k: nat :| LongestPrefix(tasks, more, k) && AddTasks(tasks, more) == (tasks + more[..k], k == |more|);
    assert more[..|more|] == more;
    if k < |more| {
      assert (tasks + more)[..|tasks| + k + 1] == tasks + more[..k + 1];
      PrefixRepeats(tasks + more, |tasks| + k + 1);
    }
    hide DistinctOn;
  }

  /** Everything is added if nothing repeats; otherwise tasks are added up to one that does. */
  lemma AddTasksEffect(tasks: seq<Task>, more: seq<Task>)
    requires DistinctOn(TaskId(), tasks)
    ensures var (r, ok) := AddTasks(tasks, more);
      && (ok <==> DistinctOn(TaskId(), tasks + more))
      && tasks <= r <= tasks + more && (ok ==> r == tasks + more)
  {
    AddTasksAcceptsIff(tasks, more);
    AddTasksKeepsLongestPrefix(tasks, more);
    assert more[..|more|] == more;
    hide DistinctOn, AddTasks, LongestPrefix;
  }

  /** A builder given a list all at once accepts it exactly when the planner's set-based check
      does. */
  lemma ChecksAgree(p: Planner, origin: Origin, tasks: seq<Task>)
    ensures AddTasks([], tasks).1 <==> CreatePlan(p, origin, tasks).1.Ok?
    ensures AddTasks([], tasks).1 ==> AddTasks([], tasks).0 == CreatePlan(p, origin, tasks).1.value.tasks
  {
    hide AddTasks, LongestPrefix, Store;
    assert DistinctOn(TaskId(), []);
    hide DistinctOn;
    AddTasksAcceptsIff([], tasks);
    AddTasksKeepsLongestPrefix([], tasks);
    assert [] + tasks == tasks;
    assert tasks[..|tasks|] == tasks;
  }

  // ---- What a builder can build ----------------------------------------------------------

  datatype Op =
    | WithGoal(goal: Goal)
    | WithTask(task: Task)
    | WithTasks(tasks: seq<Task>)
    | ClearTasks

  datatype Draft = Draft(goals: seq<Goal>, tasks: seq<Task>)

  function Apply(d: Draft, op: Op): Draft {
    match op
    case WithGoal(goal) => d.(goals := d.goals + [goal])
    case WithTask(task) => d.(tasks := AddTasks(d.tasks, [task]).0)
    case WithTasks(tasks) => d.(tasks := AddTasks(d.tasks, tasks).0)
    case ClearTasks => d.(tasks := [])
  }

  function ApplyAll(d: Draft, ops: seq<Op>): Draft {
    if ops == [] then d else Apply(ApplyAll(d, ops[..|ops| - 1]), ops[|ops| - 1])
  }

  lemma {:induction false} DraftsNeverRepeat(ops: seq<Op>)
    ensures DistinctOn(TaskId(), ApplyAll(Draft([], []), ops).tasks)
  {
    if ops != [] {
      var front, op := ops[..|ops| - 1], ops[|ops| - 1];
      DraftsNeverRepeat(front);
      var tasks := ApplyAll(Draft([], []), front).tasks;
      hide AddTasks;
      match op
      case WithGoal(_) =>
      case WithTask(task) => AddTasksKeepsLongestPrefix(tasks, [task]);
      case WithTasks(more) => AddTasksKeepsLongestPrefix(tasks, more);
      case ClearTasks =>
    }
  }

  /** The planner accepts the tasks of every session a builder can build, whatever was added,
      refused or cleared on the way: planning it can only fail on a goal without a name. */
  lemma BuiltSessionsAreAccepted(p: Planner, ops: seq<Op>, s: PlanningSession, at: Draw)
    requires Draft(s.goals, s.tasks) == ApplyAll(Draft([], []), ops)
    ensures PlanSession(p, s, at).1.Ok? <==> forall i :: 0 <= i < |s.goals| ==> s.goals[i].name != ""
  {
    hide PlanSession;
    DraftsNeverRepeat(ops);
    PlanSessionRefinesGoals(p, s, at);
  }
}

/** The builder itself. */
module PlanningBuilders {
  import opened Wrappers
  import opened Seqs
  import opened Dicts
  import opened Data
  import opened Plans
  import opened PlanningSessions

  class PlanningSessionBuilder {
    var context: Option<string>
    var goals: seq<Goal>
    var constraints: seq<Constraint>
    var tasks: seq<Task>
    var extra: Dict<string, Value>

    ghost function Contents(): Draft
      reads this
    {
      Draft(goals, tasks)
    }

    ghost predicate Valid()
      reads this
    {
      DistinctOn(TaskId(), tasks)
    }

    constructor ()
      ensures Valid() && Contents() == Draft([], []) && constraints == [] && context == None && extra == Empty()
    {
      context, goals, constraints, tasks, extra := None, [], [], [], Empty();
    }

    method WithContext(id: string)
      requires Valid()
      modifies this`context
      ensures Valid() && context == Some(id)
    {
      context := Some(id);
    }

    method WithGoal(goal: Goal)
      requires Valid()
      modifies this`goals
      ensures Valid() && Contents() == Apply(old(Contents()), Op.WithGoal(goal))
      ensures goals == old(goals) + [goal]
    {
      goals := goals + [goal];
    }

    method WithConstraint(constraint: Constraint)
      requires Valid()
      modifies this`constraints
      ensures Valid() && constraints == old(constraints) + [constraint]
    {
      constraints := constraints + [constraint];
    }

    method WithTask(task: Task) returns (ok: bool)
      requires Valid()
      modifies this`tasks
      ensures Valid() && (tasks, ok) == AddTasks(old(tasks), [task])
      ensures ok <==> forall i :: 0 <= i < |old(tasks)| ==> old(tasks)[i].id != task.id
      ensures tasks == if ok then old(tasks) + [task] else old(tasks)
    {
      TakenBreaksDistinct(tasks, task);
      for i := 0 to |tasks|
        invariant forall j :: 0 <= j < i ==> tasks[j].id != task.id
      {
        if tasks[i].id == task.id {
          return false;
        }
      }
      tasks := tasks + [task];
      return true;
    }

    method WithTasks(more: seq<Task>) returns (ok: bool)
      requires Valid()
      modifies this`tasks
      ensures Valid() && (tasks, ok) == AddTasks(old(tasks), more)
      ensures ok <==> DistinctOn(TaskId(), old(tasks) + more)
      ensures old(tasks) <= tasks <= old(tasks) + more && (ok ==> tasks == old(tasks) + more)
    {
      AddTasksEffect(tasks, more);
      assert more[0..] == more;
      for i := 0 to |more|
        invariant Valid()
        invariant AddTasks(old(tasks), more) == AddTasks(tasks, more[i..])
      {
        assert more[i..][1..] == more[i + 1..];
        ok := WithTask(more[i]);
        if !ok {
          return;
        }
      }
      return true;
    }

    method ClearTasks()
      requires Valid()
      modifies this`tasks
      ensures Valid() && Contents() == Apply(old(Contents()), Op.ClearTasks)
      ensures tasks == []
    {
      tasks := [];
    }

    method WithMetadata(key: string, value: Value) returns (ok: bool)
      requires Valid()
      modifies this`extra
      ensures Valid() && ok == (key != "") && extra == if ok then Put(old(extra), key, value) else old(extra)
    {
      if key == "" {
        return false;
      }
      extra := Put(extra, key, value);
      return true;
    }

    /** A snapshot under a new id: later changes to the builder do not reach it. */
    method Build(id: string) returns (s: PlanningSession)
      requires Valid()
      ensures s == PlanningSession(id, context, goals, constraints, tasks, extra)
      ensures Draft(s.goals, s.tasks) == Contents() && DistinctOn(TaskId(), s.tasks)
    {
      s := PlanningSession(id, context, goals, constraints, tasks, extra);
    }
  }
}
