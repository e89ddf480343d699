/** The synchronous event bus, with handlers that call back into it. */

module EventBus {
  import opened Wrappers
  import opened Seqs
  import opened Data

  datatype EventType = IntentParsed | IntentRouted | IntentFailed | Other(name: string)

  datatype Field =
    | IdField | NameField | ConfidenceField | EntitiesField | ParametersField | TimestampField
    | StageField | ErrorField | Extra(name: string)

  datatype Event = Event(kind: EventType, source: string, payload: map<Field, Value>)

  /** Handlers subscribed to each event type, in registration order. */
  type Subscribers<H> = map<EventType, seq<H>>

  /** What one invocation of a handler does. A publication lists what each handler it reaches
      does in turn; handlers beyond the list do nothing. Any terminating handler, however it
      chooses, performs some such script. */
  datatype Act<H> =
    | Subscribe(kind: EventType, handler: H)
    | Unsubscribe(kind: EventType, handler: H)
    | Publish(event: Event, scripts: seq<Script<H>>)
    | Raise
    | Try(body: seq<Act<H>>, recovery: seq<Act<H>>)

  datatype Script<H> = Script(acts: seq<Act<H>>)

  /** A dispatch as it happened: the registry it began with and the calls it made. */
  datatype Dispatched<H> = Dispatched(
    event: Event, before: Subscribers<H>, calls: seq<Called<H>>, raised: bool)

  /** One call of a handler: the registry it found, the dispatches it caused, how it ended. */
  datatype Called<H> = Called(handler: H, before: Subscribers<H>, inner: seq<Dispatched<H>>, raised: bool)

  datatype Outcome<H> = Outcome(after: Subscribers<H>, inner: seq<Dispatched<H>>, raised: bool)

  function Handlers<H>(subs: Subscribers<H>, kind: EventType): seq<H> {
    if kind in subs then subs[kind] else []
  }

  function RunScript<H(==,!new)>(subs: Subscribers<H>, acts: seq<Act<H>>): Outcome<H>
    decreases acts
  {
    if acts == [] then Outcome(subs, [], false)
    else
      var first := RunAct(subs, acts[0]);
      if first.raised then first
      else
        var rest := RunScript(first.after, acts[1..]);
        Outcome(rest.after, first.inner + rest.inner, rest.raised)
  }

  function RunAct<H(==,!new)>(subs: Subscribers<H>, act: Act<H>): Outcome<H>
    decreases act
  {
    match act
    case Subscribe(kind, h) =>
      if h in Handlers(subs, kind) then Outcome(subs, [], true)
      else Outcome(subs[kind := Handlers(subs, kind) + [h]], [], false)
    case Unsubscribe(kind, h) =>
      if h !in Handlers(subs, kind) then Outcome(subs, [], true)
      else Outcome(subs[kind := WithoutFirst(Handlers(subs, kind), h)], [], false)
    case Publish(event, scripts) =>
      if event.source == "" then Outcome(subs, [], true)
      else
        var o := Invoke(subs, Handlers(subs, event.kind), scripts, 0);
        Outcome(o.0, [Dispatched(event, subs, o.1, o.2)], o.2)
    case Raise => Outcome(subs, [], true)
    case Try(body, recovery) =>
      var tried := RunScript(subs, body);
      if !tried.raised then tried
      else
        var recovered := RunScript(tried.after, recovery);
        Outcome(recovered.after, tried.inner + recovered.inner, recovered.raised)
  }

  /** Calls handlers[i..] in order, stopping at the first that raises. */
  function Invoke<H(==,!new)>(subs: Subscribers<H>, handlers: seq<H>, scripts: seq<Script<H>>, i: nat)
    : (o: (Subscribers<H>, seq<Called<H>>, bool))
    requires i <= |handlers|
    decreases scripts, |handlers| - i
  {
    if i == |handlers| then (subs, [], false)
    else
      var o := if i < |scripts| then RunScript(subs, scripts[i].acts) else Outcome(subs, [], false);
      var call := Called(handlers[i], subs, o.inner, o.raised);
      if o.raised then (o.after, [call], true)
      else
        var rest := Invoke(o.after, handlers, scripts, i + 1);
        (rest.0, [call] + rest.1, rest.2)
  }

  /** After some calls the registry is subs: what is left of the dispatch is Invoke from i. */
  ghost predicate Continues<H(!new)>(
    before: Subscribers<H>, handlers: seq<H>, scripts: seq<Script<H>>, subs: Subscribers<H>, i: nat,
    calls: seq<Called<H>>)
    requires i <= |handlers|
  {
    var rest := Invoke(subs, handlers, scripts, i);
    Invoke(before, handlers, scripts, 0) == (rest.0, calls + rest.1, rest.2)
  }

  lemma ContinuesFromStart<H(!new)>(before: Subscribers<H>, handlers: seq<H>, scripts: seq<Script<H>>)
    ensures Continues(before, handlers, scripts, before, 0, [])
  {
    var rest := Invoke(before, handlers, scripts, 0);
    assert [] + rest.1 == rest.1;
  }

  lemma ContinuesWithCall<H(!new)>(
    before: Subscribers<H>, handlers: seq<H>, scripts: seq<Script<H>>, subs: Subscribers<H>, i: nat,
    calls: seq<Called<H>>, o: Outcome<H>)
    requires i < |handlers| && Continues(before, handlers, scripts, subs, i, calls)
    requires o == if i < |scripts| then RunScript(subs, scripts[i].acts) else Outcome(subs, [], false)
    ensures var call := Called(handlers[i], subs, o.inner, o.raised);
      if o.raised then Invoke(before, handlers, scripts, 0) == (o.after, calls + [call], true)
      else Continues(before, handlers, scripts, o.after, i + 1, calls + [call])
  {
    if !o.raised {
      var call, rest := Called(handlers[i], subs, o.inner, o.raised), Invoke(o.after, handlers, scripts, i + 1);
      assert calls + ([call] + rest.1) == (calls + [call]) + rest.1;
    }
  }

  // ---- No handler is ever subscribed twice ------------------------------------------

  ghost predicate Unique<H>(subs: Subscribers<H>) {
    forall kind :: kind in subs ==> NoDup(subs[kind])
  }

  lemma RemovalKeepsUnique<H(!new)>(handlers: seq<H>, h: H)
    requires NoDup(handlers) && h in handlers
    ensures NoDup(WithoutFirst(handlers, h))
    ensures h !in WithoutFirst(handlers, h)
  {
  }

  lemma {:induction false} ScriptKeepsUnique<H(!new)>(subs: Subscribers<H>, acts: seq<Act<H>>)
    requires Unique(subs)
    ensures Unique(RunScript(subs, acts).after)
    decreases acts
  {
    if acts != [] {
      ActKeepsUnique(subs, acts[0]);
      ScriptKeepsUnique(RunAct(subs, acts[0]).after, acts[1..]);
    }
  }

  lemma {:induction false} ActKeepsUnique<H(!new)>(subs: Subscribers<H>, act: Act<H>)
    requires Unique(subs)
    ensures Unique(RunAct(subs, act).after)
    decreases act
  {
    match act
    case Subscribe(kind, h) =>
    case Unsubscribe(kind, h) =>
      if h in Handlers(subs, kind) {
        RemovalKeepsUnique(Handlers(subs, kind), h);
      }
    case Publish(event, scripts) =>
      InvokeKeepsUnique(subs, Handlers(subs, event.kind), scripts, 0);
    case Raise =>
    case Try(body, recovery) =>
      ScriptKeepsUnique(subs, body);
      ScriptKeepsUnique(RunScript(subs, body).after, recovery);
  }

  lemma {:induction false} InvokeKeepsUnique<H(!new)>(
    subs: Subscribers<H>, handlers: seq<H>, scripts: seq<Script<H>>, i: nat)
    requires Unique(subs) && i <= |handlers|
    ensures Unique(Invoke(subs, handlers, scripts, i).0)
    decreases scripts, |handlers| - i
  {
    if i < |handlers| {
      if i < |scripts| {
        ScriptKeepsUnique(subs, scripts[i].acts);
        InvokeKeepsUnique(RunScript(subs, scripts[i].acts).after, handlers, scripts, i + 1);
      } else {
        InvokeKeepsUnique(subs, handlers, scripts, i + 1);
      }
    }
  }

  /** Each call made is what its script does on the registry the call found. */
  lemma {:induction false} CallRunsItsScript<H(!new)>(
    subs: Subscribers<H>, handlers: seq<H>, scripts: seq<Script<H>>, i: nat, j: nat)
    requires i <= |handlers| == |scripts| && j < |Invoke(subs, handlers, scripts, i).1|
    ensures i + j < |handlers|
    ensures var call := Invoke(subs, handlers, scripts, i).1[j];
      var o := RunScript(call.before, scripts[i + j].acts);
      call == Called(handlers[i + j], call.before, o.inner, o.raised)
    decreases |handlers| - i
  {
    var o := RunScript(subs, scripts[i].acts);
    if !o.raised && j > 0 {
      CallRunsItsScript(o.after, handlers, scripts, i + 1, j - 1);
    }
  }

  // ---- Every dispatch, at any depth, is exact --------------------------------------------

  /** The dispatch called the handlers subscribed when it began, once each, in registration
      order, up to and including the first that raised; and so did every dispatch inside it. */
  ghost predicate Exact<H>(d: Dispatched<H>) {
    var hs := Handlers(d.before, d.event.kind);
    && NoDup(hs)
    && |d.calls| <= |hs|
    && (forall i :: 0 <= i < |d.calls| ==> d.calls[i].handler == hs[i])
    && (forall i :: 0 <= i < |d.calls| - 1 ==> !d.calls[i].raised)
    && (d.raised <==> d.calls != [] && d.calls[|d.calls| - 1].raised)
    && (!d.raised ==> |d.calls| == |hs|)
    && (forall i :: 0 <= i < |d.calls| ==> AllExact(d.calls[i].inner))
  }

  ghost predicate AllExact<H>(ds: seq<Dispatched<H>>) {
    forall i :: 0 <= i < |ds| ==> Exact(ds[i])
  }

  /** The calls of a dispatch over a snapshot, from position i on. */
  ghost predicate ExactCalls<H>(handlers: seq<H>, i: nat, calls: seq<Called<H>>, raised: bool)
    requires i <= |handlers|
  {
    && i + |calls| <= |handlers|
    && (forall j :: 0 <= j < |calls| ==> calls[j].handler == handlers[i + j])
    && (forall j :: 0 <= j < |calls| - 1 ==> !calls[j].raised)
    && (raised <==> calls != [] && calls[|calls| - 1].raised)
    && (!raised ==> i + |calls| == |handlers|)
    && (forall j :: 0 <= j < |calls| ==> AllExact(calls[j].inner))
  }

  lemma {:induction false} ScriptIsExact<H(!new)>(subs: Subscribers<H>, acts: seq<Act<H>>)
    requires Unique(subs)
    ensures AllExact(RunScript(subs, acts).inner)
    decreases acts
  {
    if acts != [] {
      ActIsExact(subs, acts[0]);
      ActKeepsUnique(subs, acts[0]);
      ScriptIsExact(RunAct(subs, acts[0]).after, acts[1..]);
    }
  }

  /** Whatever handlers subscribe, unsubscribe, publish and raise while being called. */
  lemma {:induction false} ActIsExact<H(!new)>(subs: Subscribers<H>, act: Act<H>)
    requires Unique(subs)
    ensures AllExact(RunAct(subs, act).inner)
    decreases act
  {
    hide Exact, ExactCalls, Invoke, RunScript, Unique;
    match act
    case Publish(event, scripts) =>
      var hs := Handlers(subs, event.kind);
      var o := Invoke(subs, hs, scripts, 0);
      InvokeIsExact(subs, hs, scripts, 0);
      DispatchIsExact(event, subs, o.1, o.2);
    case Try(body, recovery) =>
      ScriptIsExact(subs, body);
      ScriptKeepsUnique(subs, body);
      ScriptIsExact(RunScript(subs, body).after, recovery);
    case _ =>
  }

  lemma DispatchIsExact<H(!new)>(event: Event, subs: Subscribers<H>, calls: seq<Called<H>>, raised: bool)
    requires Unique(subs) && ExactCalls(Handlers(subs, event.kind), 0, calls, raised)
    ensures Exact(Dispatched(event, subs, calls, raised))
  {
  }

  lemma {:induction false} InvokeIsExact<H(!new)>(
    subs: Subscribers<H>, handlers: seq<H>, scripts: seq<Script<H>>, i: nat)
    requires Unique(subs) && i <= |handlers|
    ensures ExactCalls(handlers, i, Invoke(subs, handlers, scripts, i).1, Invoke(subs, handlers, scripts, i).2)
    decreases scripts, |handlers| - i
  {
    if i < |handlers| {
      if i < |scripts| {
        ScriptIsExact(subs, scripts[i].acts);
        ScriptKeepsUnique(subs, scripts[i].acts);
        InvokeIsExact(RunScript(subs, scripts[i].acts).after, handlers, scripts, i + 1);
      } else {
        InvokeIsExact(subs, handlers, scripts, i + 1);
      }
    }
  }
}

/** What each thing a handler can do amounts to. */
module BusEffects {
  import opened Wrappers
  import opened Seqs
  import opened EventBus

  /** Only this kind's handlers differ, and they are now hs. */
  ghost predicate HandlersBecome<H(!new)>(subs: Subscribers<H>, after: Subscribers<H>, kind: EventType, hs: seq<H>) {
    forall k :: Handlers(after, k) == if k == kind then hs else Handlers(subs, k)
  }

  /** Subscribing appends a handler that is not there yet, and raises for one that is. */
  lemma SubscribeEffect<H(!new)>(subs: Subscribers<H>, kind: EventType, h: H)
    ensures var o := RunAct(subs, Subscribe(kind, h));
      && o.inner == []
      && if h in Handlers(subs, kind) then o.raised && o.after == subs
         else !o.raised && HandlersBecome(subs, o.after, kind, Handlers(subs, kind) + [h])
  {
  }

  /** Unsubscribing drops the handler, leaving the others in order; it raises if there is none. */
  lemma UnsubscribeEffect<H(!new)>(subs: Subscribers<H>, kind: EventType, h: H)
    requires Unique(subs)
    ensures var o := RunAct(subs, Unsubscribe(kind, h));
      && o.inner == []
      && if h !in Handlers(subs, kind) then o.raised && o.after == subs
         else !o.raised && h !in Handlers(o.after, kind)
              && HandlersBecome(subs, o.after, kind, Filter(Except(h), Handlers(subs, kind)))
  {
    if h in Handlers(subs, kind) {
      WithoutFirstIsFilter(Handlers(subs, kind), h);
      FilterMembers(Except(h), Handlers(subs, kind));
    }
    hide Filter, WithoutFirst;
  }

  /** Subscribing a new handler and unsubscribing it restores every kind's handlers. */
  lemma SubscribeThenUnsubscribe<H(!new)>(subs: Subscribers<H>, kind: EventType, h: H)
    requires Unique(subs) && h !in Handlers(subs, kind)
    ensures var o := RunScript(subs, [Subscribe(kind, h), Unsubscribe(kind, h)]);
      && !o.raised && o.inner == []
      && forall k :: Handlers(o.after, k) == Handlers(subs, k)
  {
    var hs := Handlers(subs, kind);
    var mid := RunAct(subs, Subscribe(kind, h)).after;
    SubscribeEffect(subs, kind, h);
    ActKeepsUnique(subs, Act<H>.Subscribe(kind, h));
    UnsubscribeEffect(mid, kind, h);
    FilterSnoc(Except(h), hs, h);
    FilterAll(Except(h), hs);
    RunTwo(subs, Subscribe(kind, h), Unsubscribe(kind, h));
    hide Filter, RunAct, RunScript, Unique;
    assert hs + [] == hs;
  }

  lemma RunTwo<H(!new)>(subs: Subscribers<H>, a: Act<H>, b: Act<H>)
    requires !RunAct(subs, a).raised
    ensures var first := RunAct(subs, a); var second := RunAct(first.after, b);
      RunScript(subs, [a, b]) == Outcome(second.after, first.inner + second.inner, second.raised)
  {
    assert [a, b][1..] == [b] && [b][1..] == [];
    RunSingle(RunAct(subs, a).after, b);
    hide RunAct;
  }

  lemma RunSingle<H(!new)>(subs: Subscribers<H>, act: Act<H>)
    ensures RunScript(subs, [act]) == RunAct(subs, act)
  {
    assert [act][1..] == [];
    hide RunAct;
    assert RunAct(subs, act).inner + [] == RunAct(subs, act).inner;
  }

  /** A script does one thing after the other and stops at the first that raises. */
  lemma {:induction false} ScriptEffect<H(!new)>(subs: Subscribers<H>, a: seq<Act<H>>, b: seq<Act<H>>)
    ensures RunScript(subs, []) == Outcome(subs, [], false)
    ensures var first := RunScript(subs, a);
      if first.raised then RunScript(subs, a + b) == first
      else
        var rest := RunScript(first.after, b);
        RunScript(subs, a + b) == Outcome(rest.after, first.inner + rest.inner, rest.raised)
    decreases |a|
  {
    hide RunAct;
    if a == [] {
      assert a + b == b;
      assert [] + RunScript(subs, b).inner == RunScript(subs, b).inner;
    } else {
      assert (a + b)[1..] == a[1..] + b;
      var first := RunAct(subs, a[0]);
      if !first.raised {
        ScriptEffect(first.after, a[1..], b);
        var mid := RunScript(first.after, a[1..]);
        if !mid.raised {
          var rest := RunScript(mid.after, b);
          assert first.inner + (mid.inner + rest.inner) == (first.inner + mid.inner) + rest.inner;
        }
      }
    }
  }

  /** A try block keeps what its body did; the recovery runs exactly when the body raised, and
      only a raising recovery lets an exception out. */
  lemma TryEffect<H(!new)>(subs: Subscribers<H>, body: seq<Act<H>>, recovery: seq<Act<H>>)
    ensures RunAct(subs, Act<H>.Raise) == Outcome(subs, [], true)
    ensures var o, tried := RunAct(subs, Try(body, recovery)), RunScript(subs, body);
      if !tried.raised then o == tried
      else
        var recovered := RunScript(tried.after, recovery);
        && o.after == recovered.after && o.raised == recovered.raised
        && tried.inner <= o.inner && o.inner[|tried.inner|..] == recovered.inner
  {
    hide RunScript;
  }

  /** The script of the j-th handler reached: beyond the list a handler does nothing. */
  function ScriptAt<H>(scripts: seq<Script<H>>, j: nat): seq<Act<H>> {
    if j < |scripts| then scripts[j].acts else []
  }

  /** Each call is what its script does to the registry the previous call left; the last leaves
      the dispatch's. */
  ghost predicate Chained<H(!new)>(
    subs: Subscribers<H>, calls: seq<Called<H>>, scripts: seq<Script<H>>, i: nat, after: Subscribers<H>)
    decreases |calls|
  {
    if calls == [] then after == subs
    else
      var o := RunScript(subs, ScriptAt(scripts, i));
      && calls[0].before == subs && calls[0].inner == o.inner && calls[0].raised == o.raised
      && Chained(o.after, calls[1..], scripts, i + 1, after)
  }

  lemma {:induction false} DispatchIsChained<H(!new)>(
    subs: Subscribers<H>, hs: seq<H>, scripts: seq<Script<H>>, i: nat)
    requires i <= |hs|
    ensures var o := Invoke(subs, hs, scripts, i); Chained(subs, o.1, scripts, i, o.0)
    decreases |hs| - i
  {
    if i < |hs| {
      var o := if i < |scripts| then RunScript(subs, scripts[i].acts) else Outcome(subs, [], false);
      assert o == RunScript(subs, ScriptAt(scripts, i));
      hide RunScript;
      if !o.raised {
        DispatchIsChained(o.after, hs, scripts, i + 1);
        var rest := Invoke(o.after, hs, scripts, i + 1);
        assert ([Called(hs[i], subs, o.inner, o.raised)] + rest.1)[1..] == rest.1;
      }
    }
  }

  /** The registry the j-th call leaves: the one the next call finds. */
  function LeftBy<H>(calls: seq<Called<H>>, j: nat, after: Subscribers<H>): Subscribers<H>
    requires j < |calls|
  {
    if j + 1 < |calls| then calls[j + 1].before else after
  }

  lemma {:induction false} ChainedAt<H(!new)>(
    subs: Subscribers<H>, calls: seq<Called<H>>, scripts: seq<Script<H>>, i: nat, after: Subscribers<H>, j: nat)
    requires Chained(subs, calls, scripts, i, after) && j < |calls|
    ensures j == 0 ==> calls[j].before == subs
    ensures RunScript(calls[j].before, ScriptAt(scripts, i + j))
         == Outcome(LeftBy(calls, j, after), calls[j].inner, calls[j].raised)
    decreases j
  {
    hide RunScript, ScriptAt;
    if j > 0 {
      ChainedAt(RunScript(subs, ScriptAt(scripts, i)).after, calls[1..], scripts, i + 1, after, j - 1);
    }
  }

  /** Publishing without a source raises and reaches nobody. Otherwise it is one dispatch, exact
      at every depth, which raises as the publication does and leaves what its calls leave. */
  lemma PublishEffect<H(!new)>(subs: Subscribers<H>, event: Event, scripts: seq<Script<H>>)
    requires Unique(subs)
    ensures var o := RunAct(subs, Publish(event, scripts));
      if event.source == "" then o == Outcome(subs, [], true)
      else
        && |o.inner| == 1 && o.inner[0].event == event && o.inner[0].before == subs
        && o.inner[0].raised == o.raised && Exact(o.inner[0])
        && Chained(subs, o.inner[0].calls, scripts, 0, o.after)
  {
    ActIsExact(subs, Act<H>.Publish(event, scripts));
    DispatchIsChained(subs, Handlers(subs, event.kind), scripts, 0);
    hide Invoke, Exact, Unique, Chained;
  }

  // ---- An unsubscribed handler is not called ---------------------------------------------

  /** The acts never subscribe h to this kind, at any depth. */
  predicate NeverSubscribes<H(==)>(acts: seq<Act<H>>, kind: EventType, h: H)
    decreases acts
  {
    forall i :: 0 <= i < |acts| ==> NeverSubscribesIn(acts[i], kind, h)
  }

  predicate NeverSubscribesIn<H(==)>(act: Act<H>, kind: EventType, h: H)
    decreases act
  {
    match act
    case Subscribe(k, x) => !(k == kind && x == h)
    case Publish(_, scripts) => forall i :: 0 <= i < |scripts| ==> NeverSubscribes(scripts[i].acts, kind, h)
    case Try(body, recovery) => NeverSubscribes(body, kind, h) && NeverSubscribes(recovery, kind, h)
    case _ => true
  }

  /** No dispatch of this kind, at any depth, calls h. */
  ghost predicate Spares<H>(ds: seq<Dispatched<H>>, kind: EventType, h: H) {
    forall i :: 0 <= i < |ds| ==> SparesIn(ds[i], kind, h)
  }

  ghost predicate SparesIn<H>(d: Dispatched<H>, kind: EventType, h: H) {
    && (d.event.kind == kind ==> forall j :: 0 <= j < |d.calls| ==> d.calls[j].handler != h)
    && forall j :: 0 <= j < |d.calls| ==> Spares(d.calls[j].inner, kind, h)
  }

  /** A handler that is not subscribed to a kind is called by no dispatch of that kind, at any
      depth, until it is subscribed again. */
  lemma {:induction false} UnsubscribedIsNotCalled<H(!new)>(
    subs: Subscribers<H>, acts: seq<Act<H>>, kind: EventType, h: H)
    requires h !in Handlers(subs, kind) && NeverSubscribes(acts, kind, h)
    ensures h !in Handlers(RunScript(subs, acts).after, kind)
    ensures Spares(RunScript(subs, acts).inner, kind, h)
    decreases acts
  {
    hide RunAct, NeverSubscribesIn, SparesIn;
    if acts != [] {
      ActSpares(subs, acts[0], kind, h);
      UnsubscribedIsNotCalled(RunAct(subs, acts[0]).after, acts[1..], kind, h);
    }
  }

  lemma {:induction false} ActSpares<H(!new)>(subs: Subscribers<H>, act: Act<H>, kind: EventType, h: H)
    requires h !in Handlers(subs, kind) && NeverSubscribesIn(act, kind, h)
    ensures h !in Handlers(RunAct(subs, act).after, kind)
    ensures Spares(RunAct(subs, act).inner, kind, h)
    decreases act
  {
    hide RunScript, Invoke, NeverSubscribes, WithoutFirst;
    match act
    case Subscribe(k, x) =>
    case Unsubscribe(k, x) =>
      if x in Handlers(subs, k) {
        RemovalAddsNothing(Handlers(subs, k), x);
      }
    case Publish(event, scripts) =>
      var hs := Handlers(subs, event.kind);
      CallsSpare(subs, hs, scripts, 0, kind, h);
      var o := Invoke(subs, hs, scripts, 0);
      if event.kind == kind {
        CallsAreHandlers(subs, hs, scripts, 0, h);
      }
    case Raise =>
    case Try(body, recovery) =>
      UnsubscribedIsNotCalled(subs, body, kind, h);
      UnsubscribedIsNotCalled(RunScript(subs, body).after, recovery, kind, h);
  }

  lemma RemovalAddsNothing<H(!new)>(hs: seq<H>, x: H)
    requires x in hs
    ensures forall y :: y in WithoutFirst(hs, x) ==> y in hs
  {
  }

  lemma {:induction false} CallsAreHandlers<H(!new)>(
    subs: Subscribers<H>, hs: seq<H>, scripts: seq<Script<H>>, i: nat, h: H)
    requires i <= |hs| && h !in hs
    ensures forall j :: 0 <= j < |Invoke(subs, hs, scripts, i).1| ==> Invoke(subs, hs, scripts, i).1[j].handler != h
    decreases |hs| - i
  {
    hide RunScript;
    if i < |hs| {
      var o := if i < |scripts| then RunScript(subs, scripts[i].acts) else Outcome(subs, [], false);
      if !o.raised {
        CallsAreHandlers(o.after, hs, scripts, i + 1, h);
      }
    }
  }

  lemma {:induction false} CallsSpare<H(!new)>(
    subs: Subscribers<H>, hs: seq<H>, scripts: seq<Script<H>>, i: nat, kind: EventType, h: H)
    requires i <= |hs| && h !in Handlers(subs, kind)
    requires forall j :: 0 <= j < |scripts| ==> NeverSubscribes(scripts[j].acts, kind, h)
    ensures var o := Invoke(subs, hs, scripts, i);
      && h !in Handlers(o.0, kind)
      && forall j :: 0 <= j < |o.1| ==> Spares(o.1[j].inner, kind, h)
    decreases scripts, |hs| - i
  {
    hide RunScript, NeverSubscribes, SparesIn;
    if i < |hs| {
      if i < |scripts| {
        UnsubscribedIsNotCalled(subs, scripts[i].acts, kind, h);
        CallsSpare(RunScript(subs, scripts[i].acts).after, hs, scripts, i + 1, kind, h);
      } else {
        CallsSpare(subs, hs, scripts, i + 1, kind, h);
      }
    }
  }

  /** From unsubscribing on, no dispatch of the kind calls the handler until it is subscribed
      again. */
  lemma {:induction false} AfterUnsubscribe<H(!new)>(
    subs: Subscribers<H>, kind: EventType, h: H, acts: seq<Act<H>>)
    requires Unique(subs) && h in Handlers(subs, kind) && NeverSubscribes(acts, kind, h)
    ensures var o := RunAct(subs, Unsubscribe(kind, h));
      !o.raised && Spares(RunScript(o.after, acts).inner, kind, h)
  {
    UnsubscribeEffect(subs, kind, h);
    hide RunAct, RunScript, NeverSubscribes, Unique;
    UnsubscribedIsNotCalled(RunAct(subs, Act<H>.Unsubscribe(kind, h)).after, acts, kind, h);
  }
}

/** The bus itself: the registry is updated in place while handlers run. */
module EventBuses {
  import opened Wrappers
  import opened Seqs
  import opened EventBus

  class InMemoryEventBus<H(==,!new)> {
    var subscribers: Subscribers<H>

    ghost predicate Valid()
      reads this
    {
      Unique(subscribers)
    }

    constructor ()
      ensures Valid() && subscribers == map[]
    {
      subscribers := map[];
    }

    method Subscribe(kind: EventType, handler: H) returns (raised: bool)
      requires Valid()
      modifies this
      ensures Valid()
      ensures Outcome(subscribers, [], raised) == RunAct(old(subscribers), Act.Subscribe(kind, handler))
    {
      var handlers := Handlers(subscribers, kind);
      if handler in handlers {
        return true;
      }
      subscribers := subscribers[kind := handlers + [handler]];
      return false;
    }

    method Unsubscribe(kind: EventType, handler: H) returns (raised: bool)
      requires Valid()
      modifies this
      ensures Valid()
      ensures Outcome(subscribers, [], raised) == RunAct(old(subscribers), Act.Unsubscribe(kind, handler))
    {
      var handlers := Handlers(subscribers, kind);
      if handler !in handlers {
        return true;
      }
      RemovalKeepsUnique(handlers, handler);
      subscribers := subscribers[kind := WithoutFirst(handlers, handler)];
      return false;
    }

    method Publish(event: Event, scripts: seq<Script<H>>) returns (dispatched: seq<Dispatched<H>>, raised: bool)
      requires Valid()
      modifies this
      ensures Valid()
      ensures Outcome(subscribers, dispatched, raised) == RunAct(old(subscribers), Act.Publish(event, scripts))
      decreases scripts, 1
    {
      if event.source == "" {
        return [], true;
      }
      var began := subscribers;
      var calls;
      calls, raised := Dispatch(event, scripts);
      dispatched := [Dispatched(event, began, calls, raised)];
    }

    /** Iterates over a copy of the handler list taken before the first call. */
    method Dispatch(event: Event, scripts: seq<Script<H>>) returns (calls: seq<Called<H>>, raised: bool)
      requires Valid()
      modifies this
      ensures Valid()
      ensures (subscribers, calls, raised)
           == Invoke(old(subscribers), Handlers(old(subscribers), event.kind), scripts, 0)
      decreases scripts, 0
    {
      var handlers := Handlers(subscribers, event.kind);
      calls, raised := [], false;
      ContinuesFromStart(subscribers, handlers, scripts);
      for i := 0 to |handlers|
        invariant Valid() && !raised
        invariant Continues(old(subscribers), handlers, scripts, subscribers, i, calls)
      {
        var found := subscribers;
        var inner := [];
        if i < |scripts| {
          inner, raised := Perform(scripts[i].acts);
        }
        ContinuesWithCall(old(subscribers), handlers, scripts, found, i, calls, Outcome(subscribers, inner, raised));
        calls := calls + [Called(handlers[i], found, inner, raised)];
        if raised {
          return;
        }
      }
      assert Invoke(subscribers, handlers, scripts, |handlers|).1 == [] && calls + [] == calls;
    }

    /** A handler at work, calling back into the bus. */
    method Perform(acts: seq<Act<H>>) returns (inner: seq<Dispatched<H>>, raised: bool)
      requires Valid()
      modifies this
      ensures Valid()
      ensures Outcome(subscribers, inner, raised) == RunScript(old(subscribers), acts)
      decreases acts
    {
      if acts == [] {
        return [], false;
      }
      inner, raised := PerformOne(acts[0]);
      if !raised {
        var more;
        more, raised := Perform(acts[1..]);
        inner := inner + more;
      }
    }

    method PerformOne(act: Act<H>) returns (inner: seq<Dispatched<H>>, raised: bool)
      requires Valid()
      modifies this
      ensures Valid()
      ensures Outcome(subscribers, inner, raised) == RunAct(old(subscribers), act)
      decreases act
    {
      inner, raised := [], false;
      match act
      case Subscribe(kind, handler) => raised := Subscribe(kind, handler);
      case Unsubscribe(kind, handler) => raised := Unsubscribe(kind, handler);
      case Publish(event, scripts) => inner, raised := Publish(event, scripts);
      case Raise => raised := true;
      case Try(body, recovery) =>
        inner, raised := Perform(body);
        if raised {
          var more;
          more, raised := Perform(recovery);
          inner := inner + more;
        }
    }
  }
}
