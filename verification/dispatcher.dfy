/** Dispatching an intent: the publications one dispatch makes and how it ends. */

module Dispatching {
  import opened Wrappers
  import opened Seqs
  import opened Dicts
  import opened Data
  import opened Intents
  import opened Capabilities

  datatype Stage = Resolving | Building | Executing

  datatype Notice =
    | IntentDispatched
    | ActionResolved(capability: string, kind: string)
    | WorkflowSelected(workflow: string)
    | DispatchStarted
    | DispatchCompleted
    | DispatchFailed(stage: Stage)
  {
    predicate Terminal() {
      DispatchCompleted? || DispatchFailed?
    }
  }

  datatype Publication = Publication(intent: string, notice: Notice)

  /** What the injected factory builds. `workflow` is the workflow a WorkflowAction runs;
      `outcome` is what execute returns, or None when it raises. */
  datatype Action = Action(kind: string, workflow: Option<string>, outcome: Option<Attributes>)

  /** Builds an action, or raises. */
  type ActionFactory = Capability -> Option<Action>

  datatype DispatchError = NotRunning | NoCapability | ActionExecution | SubscriberRaised

  type Answer = Result<Attributes, DispatchError>

  /** The notices of one dispatch, were no subscriber to raise. */
  function Course(registry: Registry, factory: ActionFactory, kind: IntentType): seq<Notice> {
    match Resolve(registry, kind)
    case None => [IntentDispatched, DispatchFailed(Resolving)]
    case Some(c) => BuildCourse(c, factory(c))
  }

  function BuildCourse(c: Capability, built: Option<Action>): seq<Notice> {
    match built
    case None => [IntentDispatched, DispatchFailed(Building)]
    case Some(a) =>
      [IntentDispatched, ActionResolved(c.id, a.kind)]
      + (if a.workflow.Some? then [WorkflowSelected(a.workflow.value)] else [])
      + [DispatchStarted, LastNotice(a)]
  }

  function LastNotice(a: Action): Notice {
    if a.outcome.Some? then DispatchCompleted else DispatchFailed(Executing)
  }

  /** What the caller gets when no subscriber raises. */
  function Ending(registry: Registry, factory: ActionFactory, kind: IntentType): Answer {
    match Resolve(registry, kind)
    case None => Err(NoCapability)
    case Some(c) => EndingOf(factory(c))
  }

  function EndingOf(built: Option<Action>): Answer {
    match built
    case None => Err(ActionExecution)
    case Some(a) => (match a.outcome case Some(v) => Ok(v) case None => Err(ActionExecution))
  }

  /** Publishes notices in order until a subscriber raises. */
  function Until(raises: Notice -> bool, notices: seq<Notice>): (t: seq<Notice>) {
    if notices == [] then []
    else if raises(notices[0]) then [notices[0]]
    else [notices[0]] + Until(raises, notices[1..])
  }

  predicate Quiet(raises: Notice -> bool, notices: seq<Notice>) {
    forall i :: 0 <= i < |notices| ==> !raises(notices[i])
  }

  /** One dispatch by a running dispatcher; `raises` says on which notices a subscriber raises. */
  function Dispatch(registry: Registry, factory: ActionFactory, kind: IntentType, raises: Notice -> bool)
    : (seq<Notice>, Answer)
  {
    var course := Course(registry, factory, kind);
    (Until(raises, course),
     if Quiet(raises, course) then Ending(registry, factory, kind) else Err(SubscriberRaised))
  }

  function ForIntent(id: string): Notice -> Publication {
    (n: Notice) => Publication(id, n)
  }

  // ---- Well-formed event sequences ----------------------------------------------------

  lemma {:induction false} UntilStops(raises: Notice -> bool, notices: seq<Notice>)
    ensures var t := Until(raises, notices);
      && t <= notices
      && (forall i :: 0 <= i < |t| - 1 ==> !raises(t[i]))
      && (t == notices || (t != [] && raises(t[|t| - 1])))
  {
    if notices != [] && !raises(notices[0]) {
      UntilStops(raises, notices[1..]);
      var t, rest := Until(raises, notices), Until(raises, notices[1..]);
      assert t == [notices[0]] + rest && notices == [notices[0]] + notices[1..];
      assert forall i :: 0 < i < |t| ==> t[i] == rest[i - 1];
    }
  }

  /** The first notice that raises is the last one published. */
  lemma {:induction false} UntilFirstRaise(raises: Notice -> bool, said: seq<Notice>, n: Notice, rest: seq<Notice>)
    requires Quiet(raises, said) && raises(n)
    ensures Until(raises, said + [n] + rest) == said + [n]
    ensures !Quiet(raises, said + [n] + rest)
  {
    var all := said + [n] + rest;
    assert all[|said|] == n;
    if said != [] {
      UntilFirstRaise(raises, said[1..], n, rest);
      assert all[1..] == said[1..] + [n] + rest && all[0] == said[0];
      assert [said[0]] + (said[1..] + [n]) == said + [n];
    } else {
      assert all[0] == n && [] + [n] == [n];
    }
  }

  lemma CourseEndsOnce(registry: Registry, factory: ActionFactory, kind: IntentType)
    ensures var course := Course(registry, factory, kind);
      && course != [] && course[0] == IntentDispatched && NoDup(course)
      && forall i :: 0 <= i < |course| ==> (course[i].Terminal() <==> i == |course| - 1)
  {
    hide Resolve;
  }

  /** No notice of a course but its last makes a subscriber raise. */
  predicate QuietUntilLast(raises: Notice -> bool, course: seq<Notice>) {
    forall i :: 0 <= i < |course| - 1 ==> !raises(course[i])
  }

  /** Every dispatch publishes IntentDispatched first, nothing twice, and a terminal notice
      only last; it publishes one exactly when no subscriber raises on an earlier notice of
      the course. */
  lemma DispatchIsWellFormed(registry: Registry, factory: ActionFactory, kind: IntentType, raises: Notice -> bool)
    ensures var t := Dispatch(registry, factory, kind, raises).0;
      && t != [] && t[0] == IntentDispatched && NoDup(t)
      && (forall i :: 0 <= i < |t| - 1 ==> !t[i].Terminal())
      && (t[|t| - 1].Terminal() <==> QuietUntilLast(raises, Course(registry, factory, kind)))
  {
    CourseEndsOnce(registry, factory, kind);
    UntilStops(raises, Course(registry, factory, kind));
    hide Course, Until;
    var t, course := Dispatch(registry, factory, kind, raises).0, Course(registry, factory, kind);
    if |t| < |course| {
      assert raises(course[|t| - 1]);
    }
  }

  /** A subscriber that raises on the first notice: whatever is registered, nothing terminal is
      published and the caller sees the subscriber's exception. */
  lemma RaisingOnTheFirstNotice(registry: Registry, factory: ActionFactory, kind: IntentType)
    ensures var (t, a) := Dispatch(registry, factory, kind, (n: Notice) => n.IntentDispatched?);
      t == [IntentDispatched] && a == Err(SubscriberRaised) && forall n :: n in t ==> !n.Terminal()
  {
    CourseEndsOnce(registry, factory, kind);
    hide Course;
    assert Course(registry, factory, kind)[0] == IntentDispatched;
  }

  /** A dispatch that reaches a terminal notice reports the stage that stopped it: no enabled
      capability for the type, no action built, execution raised, or nothing did. */
  lemma TerminalNoticeTellsTheStage(
    registry: Registry, factory: ActionFactory, kind: IntentType, raises: Notice -> bool)
    requires var t := Dispatch(registry, factory, kind, raises).0; t[|t| - 1].Terminal()
    ensures var t := Dispatch(registry, factory, kind, raises).0;
      match t[|t| - 1]
      case DispatchFailed(Resolving) =>
        forall i :: 0 <= i < |Values(registry)| ==> !Candidate(Values(registry)[i], kind)
      case DispatchFailed(Building) =>
        Resolve(registry, kind).Some? && factory(Resolve(registry, kind).value).None?
      case DispatchFailed(Executing) =>
        Resolve(registry, kind).Some? && factory(Resolve(registry, kind).value).Some?
        && factory(Resolve(registry, kind).value).value.outcome.None?
      case _ =>
        Resolve(registry, kind).Some? && factory(Resolve(registry, kind).value).Some?
        && factory(Resolve(registry, kind).value).value.outcome.Some?
  {
    CourseEndsOnce(registry, factory, kind);
    UntilStops(raises, Course(registry, factory, kind));
    ResolveIsFirstEnabledMatch(registry, kind);
    hide Resolve, Until, Values, NoDup;
  }

  /** The caller gets a value exactly when completion was published and nobody raised on it:
      the value the first enabled capability's action returned. */
  lemma AnswerMatchesTrace(registry: Registry, factory: ActionFactory, kind: IntentType, raises: Notice -> bool)
    ensures var (t, a) := Dispatch(registry, factory, kind, raises);
      && (a.Ok? <==> DispatchCompleted in t && !raises(DispatchCompleted))
      && (a == Err(SubscriberRaised) <==> exists i :: 0 <= i < |t| && raises(t[i]))
      && (a.Ok? ==> factory(Resolve(registry, kind).value).value.outcome == Some(a.value))
  {
    CourseEndsOnce(registry, factory, kind);
    UntilStops(raises, Course(registry, factory, kind));
    UntilOfQuiet(raises, Course(registry, factory, kind));
    EndingIsTheLastNotice(registry, factory, kind);
    hide Course, Until, Ending, NoDup;
  }

  lemma UntilOfQuiet(raises: Notice -> bool, notices: seq<Notice>)
    ensures Quiet(raises, Until(raises, notices)) <==> Quiet(raises, notices)
    ensures Quiet(raises, notices) ==> Until(raises, notices) == notices
  {
    UntilStops(raises, notices);
    hide Until;
  }

  lemma EndingIsTheLastNotice(registry: Registry, factory: ActionFactory, kind: IntentType)
    ensures var course := Course(registry, factory, kind);
      Ending(registry, factory, kind).Ok? <==> course[|course| - 1] == DispatchCompleted
    ensures Ending(registry, factory, kind).Ok? ==>
      && Resolve(registry, kind).Some? && factory(Resolve(registry, kind).value).Some?
      && factory(Resolve(registry, kind).value).value.outcome == Some(Ending(registry, factory, kind).value)
    ensures Ending(registry, factory, kind) != Err(SubscriberRaised)
  {
    hide Resolve;
  }
}

/** Which notices a dispatch publishes, and in which order. */
module DispatchEffects {
  import opened Wrappers
  import opened Seqs
  import opened Dicts
  import opened Data
  import opened Intents
  import opened Capabilities
  import opened Dispatching

  /** How far into a dispatch each notice comes. */
  function Rank(): Notice -> int {
    (n: Notice) =>
      match n
      case IntentDispatched => 0
      case ActionResolved(_, _) => 1
      case WorkflowSelected(_) => 2
      case DispatchStarted => 3
      case _ => 4
  }

  /** The first enabled capability of the type, and the action built for it. */
  ghost predicate Builds(registry: Registry, factory: ActionFactory, kind: IntentType, c: Capability, a: Action) {
    Resolve(registry, kind) == Some(c) && factory(c) == Some(a)
  }

  lemma CourseNotices(registry: Registry, factory: ActionFactory, kind: IntentType)
    ensures Ascending(Rank(), Course(registry, factory, kind))
    ensures forall id, k :: ActionResolved(id, k) in Course(registry, factory, kind) <==>
      exists c, a :: Builds(registry, factory, kind, c, a) && c.id == id && a.kind == k
    ensures forall w :: WorkflowSelected(w) in Course(registry, factory, kind) <==>
      exists c, a :: Builds(registry, factory, kind, c, a) && a.workflow == Some(w)
    ensures DispatchStarted in Course(registry, factory, kind) <==>
      exists c, a :: Builds(registry, factory, kind, c, a)
  {
    hide Resolve;
    match Resolve(registry, kind)
    case None =>
    case Some(c) =>
      if factory(c).Some? {
        var a := factory(c).value;
        assert Builds(registry, factory, kind, c, a);
        assert Course(registry, factory, kind)[1] == ActionResolved(c.id, a.kind);
        if a.workflow.Some? {
          assert Course(registry, factory, kind)[2] == WorkflowSelected(a.workflow.value);
        } else {
          assert Course(registry, factory, kind)[2] == DispatchStarted;
        }
      }
  }

  /** A notice of the course is published unless a subscriber raises on one before it. */
  ghost predicate Reached(raises: Notice -> bool, course: seq<Notice>, n: Notice) {
    n in course && forall m :: m in course && Rank()(m) < Rank()(n) ==> !raises(m)
  }

  lemma PublishedIffReached(raises: Notice -> bool, course: seq<Notice>, n: Notice)
    requires Ascending(Rank(), course)
    ensures n in Until(raises, course) <==> Reached(raises, course, n)
    ensures Ascending(Rank(), Until(raises, course))
  {
    UntilStops(raises, course);
    hide Until, Rank;
    var t := Until(raises, course);
    if n in t {
      var i :| 0 <= i < |t| && t[i] == n;
      assert course[i] == n;
      forall m | m in course && Rank()(m) < Rank()(n)
        ensures !raises(m)
      {
        var j :| 0 <= j < |course| && course[j] == m;
        assert j < i && t[j] == m;
      }
    }
    if Reached(raises, course, n) {
      var i :| 0 <= i < |course| && course[i] == n;
      assert forall j :: 0 <= j < i ==> course[j] in course && !raises(course[j]);
      assert i < |t| && t[i] == n;
    }
  }

  /** The notices of a dispatch come in the order of its stages. With the capability c resolved
      and the action a built, and only then, the action is announced; its workflow is announced
      if and only if it runs one, after that and before the start; and the start is announced.
      Each is published unless a subscriber raises on a notice before it. */
  lemma NoticesFollowTheStages(registry: Registry, factory: ActionFactory, kind: IntentType, raises: Notice -> bool)
    ensures var course, t := Course(registry, factory, kind), Dispatch(registry, factory, kind, raises).0;
      && Ascending(Rank(), course) && Ascending(Rank(), t)
      && (forall n :: n in t <==> Reached(raises, course, n))
      && (forall id, k :: ActionResolved(id, k) in course <==>
            exists c, a :: Builds(registry, factory, kind, c, a) && c.id == id && a.kind == k)
      && (forall w :: WorkflowSelected(w) in course <==>
            exists c, a :: Builds(registry, factory, kind, c, a) && a.workflow == Some(w))
      && (DispatchStarted in course <==> exists c, a :: Builds(registry, factory, kind, c, a))
  {
    CourseNotices(registry, factory, kind);
    hide Course, Until, Rank, Builds;
    forall n
      ensures n in Dispatch(registry, factory, kind, raises).0 <==> Reached(raises, Course(registry, factory, kind), n)
    {
      PublishedIffReached(raises, Course(registry, factory, kind), n);
    }
    PublishedIffReached(raises, Course(registry, factory, kind), IntentDispatched);
  }

  /** When no subscriber raises, the error the caller gets tells the stage that failed: nothing
      resolved, or an action that could not be built or executed. */
  lemma ErrorTellsTheStage(registry: Registry, factory: ActionFactory, kind: IntentType, raises: Notice -> bool)
    ensures var (t, a) := Dispatch(registry, factory, kind, raises);
      && (a == Err(NoCapability) <==> DispatchFailed(Resolving) in t && !raises(DispatchFailed(Resolving)))
      && (a == Err(ActionExecution) <==>
            || (DispatchFailed(Building) in t && !raises(DispatchFailed(Building)))
            || (DispatchFailed(Executing) in t && !raises(DispatchFailed(Executing))))
      && a != Err(NotRunning)
  {
    CourseEndsOnce(registry, factory, kind);
    UntilStops(raises, Course(registry, factory, kind));
    UntilOfQuiet(raises, Course(registry, factory, kind));
    EndingStage(registry, factory, kind);
    hide Course, Until, Ending, NoDup;
  }

  lemma EndingStage(registry: Registry, factory: ActionFactory, kind: IntentType)
    ensures var course, ending := Course(registry, factory, kind), Ending(registry, factory, kind);
      course != [] && match course[|course| - 1]
      case DispatchFailed(Resolving) => ending == Err(NoCapability)
      case DispatchFailed(_) => ending == Err(ActionExecution)
      case _ => ending.Ok?
  {
    hide Resolve;
  }
}

/** The dispatcher itself: each publication is made, and may raise, before the next step. */
module IntentDispatchers {
  import opened Wrappers
  import opened Seqs
  import opened Dicts
  import opened Data
  import opened Intents
  import opened Capabilities
  import CapabilityRegistries
  import opened Dispatching

  class IntentDispatcher {
    const registry: CapabilityRegistries.CapabilityRegistry
    const factory: ActionFactory
    var running: bool
    var published: seq<Publication>

    constructor (registry: CapabilityRegistries.CapabilityRegistry, factory: ActionFactory)
      ensures this.registry == registry && this.factory == factory && !running && published == []
    {
      this.registry, this.factory, running, published := registry, factory, false, [];
    }

    /** A pure lookup, whatever the dispatcher's lifecycle state. */
    method Resolve(kind: IntentType) returns (r: Result<Capability, DispatchError>)
      ensures r == match Capabilities.Resolve(registry.capabilities, kind)
        case Some(c) => Ok(c)
        case None => Err(NoCapability)
    {
      var candidates := registry.FindByIntentType(kind);
      assert candidates[0..] == candidates;
      for i := 0 to |candidates|
        invariant FirstWhere(Enabled(), candidates) == FirstWhere(Enabled(), candidates[i..])
      {
        assert candidates[i..][1..] == candidates[i + 1..];
        if candidates[i].enabled {
          return Ok(candidates[i]);
        }
      }
      return Err(NoCapability);
    }

    /** The notice is on the bus before any subscriber can raise. What this dispatch has said
        so far, and the rest of its course, are tracked in ghost parameters. */
    method Publish(id: string, notice: Notice, raises: Notice -> bool,
        ghost before: seq<Publication>, ghost said: seq<Notice>, ghost rest: seq<Notice>)
      returns (raised: bool)
      requires published == before + Map(ForIntent(id), said) && Quiet(raises, said)
      modifies this`published
      ensures published == before + Map(ForIntent(id), said + [notice])
      ensures raised == raises(notice)
      ensures raised ==>
        Until(raises, said + [notice] + rest) == said + [notice] && !Quiet(raises, said + [notice] + rest)
      ensures !raised ==> Quiet(raises, said + [notice])
    {
      published := published + [Publication(id, notice)];
      raised := raises(notice);
      if raised {
        UntilFirstRaise(raises, said, notice, rest);
      }
    }

    method Dispatch(intent: Intent, raises: Notice -> bool) returns (answer: Answer)
      modifies this`published
      ensures !old(running) ==> answer == Err(NotRunning) && published == old(published)
      ensures old(running) ==>
        var (t, a) := Dispatching.Dispatch(registry.capabilities, factory, intent.name, raises);
        answer == a && published == old(published) + Map(ForIntent(intent.id), t)
    {
      if !running {
        return Err(NotRunning);
      }
      ghost var before := published;
      ghost var course := Course(registry.capabilities, factory, intent.name);
      assert before == before + Map(ForIntent(intent.id), []);
      assert course == [] + [IntentDispatched] + course[1..] && [] + [IntentDispatched] == [IntentDispatched];
      hide Map, Until, Quiet, Capabilities.Resolve;
      var raised := Publish(intent.id, IntentDispatched, raises, before, [], course[1..]);
      if raised {
        return Err(SubscriberRaised);
      }
      var resolved := Resolve(intent.name);
      if resolved.Err? {
        raised := Publish(intent.id, DispatchFailed(Resolving), raises, before, [IntentDispatched], []);
        assert course == [IntentDispatched] + [DispatchFailed(Resolving)] + [];
        UntilOfQuiet(raises, course);
        return if raised then Err(SubscriberRaised) else Err(NoCapability);
      }
      answer := Execute(intent.id, resolved.value, raises, before);
    }

    /** A dispatch once its capability is resolved: build, announce, execute. */
    method Execute(id: string, capability: Capability, raises: Notice -> bool, ghost before: seq<Publication>)
      returns (answer: Answer)
      requires published == before + Map(ForIntent(id), [IntentDispatched]) && Quiet(raises, [IntentDispatched])
      modifies this`published
      ensures var course := BuildCourse(capability, factory(capability));
        && published == before + Map(ForIntent(id), Until(raises, course))
        && answer == if Quiet(raises, course) then EndingOf(factory(capability)) else Err(SubscriberRaised)
    {
      var built := factory(capability);
      ghost var course := BuildCourse(capability, built);
      ghost var said := [IntentDispatched];
      UntilOfQuiet(raises, course);
      hide Map, Until, Quiet;
      var raised;
      if built.None? {
        raised := Publish(id, DispatchFailed(Building), raises, before, said, []);
        assert course == said + [DispatchFailed(Building)] + [] == said + [DispatchFailed(Building)];
        return if raised then Err(SubscriberRaised) else Err(ActionExecution);
      }
      var action := built.value;
      raised := Publish(id, ActionResolved(capability.id, action.kind), raises, before, said, course[2..]);
      assert course == said + [ActionResolved(capability.id, action.kind)] + course[2..];
      if raised {
        return Err(SubscriberRaised);
      }
      said := said + [ActionResolved(capability.id, action.kind)];
      if action.workflow.Some? {
        raised := Publish(id, WorkflowSelected(action.workflow.value), raises, before, said, course[3..]);
        assert course == said + [WorkflowSelected(action.workflow.value)] + course[3..];
        if raised {
          return Err(SubscriberRaised);
        }
        said := said + [WorkflowSelected(action.workflow.value)];
      }
      answer := Finish(id, action, raises, before, said);
    }

    /** The started notice, the action, and the notice of how it ended. */
    method Finish(id: string, action: Action, raises: Notice -> bool,
        ghost before: seq<Publication>, ghost said: seq<Notice>)
      returns (answer: Answer)
      requires published == before + Map(ForIntent(id), said) && Quiet(raises, said)
      modifies this`published
      ensures var course := said + [DispatchStarted, LastNotice(action)];
        && published == before + Map(ForIntent(id), Until(raises, course))
        && answer == if Quiet(raises, course) then EndingOf(Some(action)) else Err(SubscriberRaised)
    {
      ghost var course := said + [DispatchStarted, LastNotice(action)];
      UntilOfQuiet(raises, course);
      hide Map, Until, Quiet;
      var raised := Publish(id, DispatchStarted, raises, before, said, [LastNotice(action)]);
      assert course == said + [DispatchStarted] + [LastNotice(action)];
      if raised {
        return Err(SubscriberRaised);
      }
      raised := Publish(id, LastNotice(action), raises, before, said + [DispatchStarted], []);
      assert course == said + [DispatchStarted] + [LastNotice(action)] + [];
      if raised {
        return Err(SubscriberRaised);
      }
      return match action.outcome case Some(v) => Ok(v) case None => Err(ActionExecution);
    }
  }
}
