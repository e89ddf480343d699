/** Intents, their payloads, and routing over the event bus. */

module Intents {
  import opened Wrappers
  import opened Data
  import opened EventBus

  datatype IntentType = Question | Command | Memory | Schedule | Unknown

  datatype Intent = Intent(
    name: IntentType,
    confidence: real,
    id: string,
    entities: seq<(Value, Value)>,
    parameters: seq<(Value, Value)>,
    timestamp: int)

  function NameText(name: IntentType): string {
    match name
    case Question => "question"
    case Command => "command"
    case Memory => "memory"
    case Schedule => "schedule"
    case Unknown => "unknown"
  }

  /** IntentType(text), which raises on any other text. */
  function NameOf(text: string): Option<IntentType> {
    if text == "question" then Some(Question)
    else if text == "command" then Some(Command)
    else if text == "memory" then Some(Memory)
    else if text == "schedule" then Some(Schedule)
    else if text == "unknown" then Some(Unknown)
    else None
  }

  lemma NameRoundTrip(name: IntentType)
    ensures NameOf(NameText(name)) == Some(name)
  {
    assert NameText(name)[0] in {'q', 'c', 'm', 's', 'u'};
  }

  function ToPayload(intent: Intent): map<Field, Value> {
    map[
      IdField := Text(intent.id),
      NameField := Text(NameText(intent.name)),
      ConfidenceField := Real(intent.confidence),
      EntitiesField := Mapping(intent.entities),
      ParametersField := Mapping(intent.parameters),
      TimestampField := IsoText(intent.timestamp)
    ]
  }

  /** Rebuilds the intent; a missing or malformed field raises. */
  function FromPayload(payload: map<Field, Value>): Option<Intent> {
    if {IdField, NameField, ConfidenceField, EntitiesField, ParametersField, TimestampField} <= payload.Keys
       && payload[IdField].Text? && payload[NameField].Text? && payload[ConfidenceField].Real?
       && payload[EntitiesField].Mapping? && payload[ParametersField].Mapping? && payload[TimestampField].IsoText?
       && NameOf(payload[NameField].s).Some?
    then
      Some(Intent(NameOf(payload[NameField].s).value, payload[ConfidenceField].r, payload[IdField].s,
                  payload[EntitiesField].entries, payload[ParametersField].entries,
                  payload[TimestampField].instant))
    else None
  }

  /** A handler receives an intent equal to the one routed. */
  lemma PayloadRoundTrip(intent: Intent)
    ensures FromPayload(ToPayload(intent)) == Some(intent)
  {
    hide NameText, NameOf;
    NameRoundTrip(intent.name);
  }

  lemma NamesDiffer(a: IntentType, b: IntentType)
    requires NameText(a) == NameText(b)
    ensures a == b
  {
    hide NameText, NameOf;
    NameRoundTrip(a);
    NameRoundTrip(b);
  }
}

module Routing {
  import opened Wrappers
  import opened Seqs
  import opened Dicts
  import opened Data
  import opened EventBus
  import opened Intents

  /** A handler subscribed directly, or the closure register_handler wraps around one. A pair of
      name and handler is registered at most once, so the pair names its closure. */
  datatype Handler = Direct(id: nat) | Adapter(name: IntentType, user: nat)

  /** What a handler does when called and, should the router have to report its failure, what
      the INTENT_FAILED subscribers do. */
  datatype Response = Response(acts: seq<Act<Handler>>, onFailed: seq<Script<Handler>>)

  function RoutedEvent(intent: Intent): Event {
    Event(IntentRouted, "intent_router", ToPayload(intent))
  }

  function FailedEvent(stage: string): Event {
    Event(IntentFailed, "intent_router", map[StageField := Text(stage)])
  }

  predicate NameMatches(name: IntentType, event: Event) {
    NameField in event.payload && event.payload[NameField] == Text(NameText(name))
  }

  /** The wrapped handler runs inside a try; its failure is published, not propagated. */
  function AdapterActs(name: IntentType, event: Event, r: Response): seq<Act<Handler>> {
    if !NameMatches(name, event) then []
    else [Try(if FromPayload(event.payload).None? then [Raise] else r.acts, [ReportFailure(r)])]
  }

  function ReportFailure(r: Response): Act<Handler> {
    Act.Publish(FailedEvent("handler"), r.onFailed)
  }

  function ScriptFor(h: Handler, event: Event, r: Response): Script<Handler> {
    match h
    case Direct(_) => Script(r.acts)
    case Adapter(name, _) => Script(AdapterActs(name, event, r))
  }

  function ResponseOf(responses: seq<Response>, i: nat): Response {
    if i < |responses| then responses[i] else Response([], [])
  }

  function ScriptsFor(hs: seq<Handler>, event: Event, responses: seq<Response>): seq<Script<Handler>> {
    seq(|hs|, i requires 0 <= i < |hs| => ScriptFor(hs[i], event, ResponseOf(responses, i)))
  }

  function Route(subs: Subscribers<Handler>, intent: Intent, responses: seq<Response>): Outcome<Handler> {
    RunAct(subs, RoutingAct(subs, intent, responses))
  }

  /** route publishes the intent and nothing else; handlers respond through the bus. */
  function RoutingAct(subs: Subscribers<Handler>, intent: Intent, responses: seq<Response>): Act<Handler> {
    var event := RoutedEvent(intent);
    Act.Publish(event, ScriptsFor(Handlers(subs, IntentRouted), event, responses))
  }

  // ---- What one call amounts to -----------------------------------------------------------

  function IsFor(name: IntentType): Handler -> bool {
    (h: Handler) => h.Adapter? && h.name == name
  }

  /** A wrapped handler runs; if it raises, that is reported once, and only a raising report
      lets an exception out. */
  function WrappedOutcome(subs: Subscribers<Handler>, r: Response): Outcome<Handler> {
    var o := RunScript(subs, r.acts);
    if !o.raised then o
    else
      var report := RunAct(o.after, ReportFailure(r));
      Outcome(report.after, o.inner + report.inner, report.raised)
  }

  /** What calling h does to the registry it finds when `name` is routed. */
  function CallOutcome(subs: Subscribers<Handler>, h: Handler, r: Response, name: IntentType): Outcome<Handler> {
    if h.Direct? then RunScript(subs, r.acts)
    else if h.name == name then WrappedOutcome(subs, r)
    else Outcome(subs, [], false)
  }

  /** The call is the right one for its handler when `name` is routed. */
  ghost predicate ProperCall(call: Called<Handler>, name: IntentType, r: Response) {
    var o := CallOutcome(call.before, call.handler, r, name);
    call.inner == o.inner && call.raised == o.raised
  }

  lemma RunOne<H(!new)>(subs: Subscribers<H>, act: Act<H>)
    ensures RunScript(subs, [act]) == RunAct(subs, act)
  {
    var first := RunAct(subs, act);
    assert [act][1..] == [];
    assert first.inner + [] == first.inner;
  }

  lemma WrappedRuns(subs: Subscribers<Handler>, r: Response)
    ensures RunScript(subs, [Try(r.acts, [ReportFailure(r)])]) == WrappedOutcome(subs, r)
  {
    var o := RunScript(subs, r.acts);
    RunOne(subs, Try(r.acts, [ReportFailure(r)]));
    RunOne(o.after, ReportFailure(r));
    hide RunScript;
  }

  lemma MatchesIffNamed(name: IntentType, intent: Intent)
    ensures NameMatches(name, RoutedEvent(intent)) <==> name == intent.name
    ensures FromPayload(RoutedEvent(intent).payload) == Some(intent)
    ensures RoutedEvent(intent).source != "" && RoutedEvent(intent).kind == IntentRouted
  {
    hide NameText, FromPayload;
    PayloadRoundTrip(intent);
    if NameMatches(name, RoutedEvent(intent)) {
      NamesDiffer(name, intent.name);
    }
  }

  lemma OneCall(subs: Subscribers<Handler>, h: Handler, intent: Intent, r: Response)
    ensures RunScript(subs, ScriptFor(h, RoutedEvent(intent), r).acts) == CallOutcome(subs, h, r, intent.name)
  {
    hide RunScript, WrappedOutcome, RoutedEvent, FromPayload, NameMatches;
    if h.Adapter? {
      MatchesIffNamed(h.name, intent);
      if h.name == intent.name {
        WrappedRuns(subs, r);
      } else {
        EmptyScript(subs);
      }
    }
  }

  lemma EmptyScript(subs: Subscribers<Handler>)
    ensures RunScript(subs, []) == Outcome(subs, [], false)
  {
  }

  // ---- Routing is one dispatch -------------------------------------------------------------

  /** Routing is one dispatch of the routed event, over the handlers subscribed at its start,
      and every call in it is the right one, whatever handlers do to the bus meanwhile. */
  lemma RoutingIsOneExactDispatch(
    subs: Subscribers<Handler>, intent: Intent, responses: seq<Response>, d: Dispatched<Handler>)
    requires Unique(subs) && Route(subs, intent, responses).inner == [d]
    ensures d.event == RoutedEvent(intent) && d.before == subs && Exact(d)
    ensures Route(subs, intent, responses).raised == d.raised
    ensures forall i :: 0 <= i < |d.calls| ==>
      d.calls[i].handler == Handlers(subs, IntentRouted)[i]
      && ProperCall(d.calls[i], intent.name, ResponseOf(responses, i))
  {
    var event, hs := RoutedEvent(intent), Handlers(subs, IntentRouted);
    var scripts := ScriptsFor(hs, event, responses);
    ActIsExact(subs, Act.Publish(event, scripts));
    assert Route(subs, intent, responses).inner[0] == d;
    assert Exact(d);
    MatchesIffNamed(intent.name, intent);
    hide RoutedEvent, CallOutcome, RunScript, ScriptFor;
    forall i | 0 <= i < |d.calls|
      ensures d.calls[i].handler == hs[i] && ProperCall(d.calls[i], intent.name, ResponseOf(responses, i))
    {
      CallRunsItsScript(subs, hs, scripts, 0, i);
      OneCall(d.calls[i].before, hs[i], intent, ResponseOf(responses, i));
    }
  }

  // ---- Isolation -------------------------------------------------------------------------

  /** The position, from i on, of the first handler whose call lets an exception out; |hs| if
      there is none. */
  function FirstEscape(
    subs: Subscribers<Handler>, hs: seq<Handler>, responses: seq<Response>, name: IntentType, i: nat): (e: nat)
    requires i <= |hs|
    ensures i <= e <= |hs|
    decreases |hs| - i
  {
    if i == |hs| then i
    else
      var o := CallOutcome(subs, hs[i], ResponseOf(responses, i), name);
      if o.raised then i else FirstEscape(o.after, hs, responses, name, i + 1)
  }

  function HandlerOf(): Called<Handler> -> Handler {
    (c: Called<Handler>) => c.handler
  }

  /** How many handlers, from i on, a dispatch that escapes at e calls. */
  function CallsMade(e: nat, i: nat, n: nat): nat
    requires i <= e <= n
  {
    if e < n then e + 1 - i else n - i
  }

  /** The calls made from position i on are those up to the escape, and only it raises. */
  ghost predicate UpToEscape(hs: seq<Handler>, i: nat, e: nat, calls: seq<Called<Handler>>, raised: bool) {
    && i <= e <= |hs|
    && raised == (e < |hs|)
    && |calls| == CallsMade(e, i, |hs|)
    && Map(HandlerOf(), calls) == hs[i..i + |calls|]
  }

  lemma OneMoreUpToEscape(
    hs: seq<Handler>, i: nat, e: nat, call: Called<Handler>, rest: seq<Called<Handler>>, raised: bool)
    requires i < |hs| && call.handler == hs[i] && UpToEscape(hs, i + 1, e, rest, raised)
    ensures UpToEscape(hs, i, e, [call] + rest, raised)
  {
    assert Map(HandlerOf(), [call] + rest) == [hs[i]] + Map(HandlerOf(), rest);
    assert hs[i..i + 1 + |rest|] == [hs[i]] + hs[i + 1..i + 1 + |rest|];
  }

  lemma EscapesNow(hs: seq<Handler>, i: nat, call: Called<Handler>)
    requires i < |hs| && call.handler == hs[i]
    ensures UpToEscape(hs, i, i, [call], true)
  {
    assert Map(HandlerOf(), [call]) == [hs[i]] == hs[i..i + 1];
  }

  lemma {:induction false} InvokeEscapes(
    subs: Subscribers<Handler>, hs: seq<Handler>, intent: Intent, responses: seq<Response>, i: nat)
    requires i <= |hs|
    ensures var o := Invoke(subs, hs, ScriptsFor(hs, RoutedEvent(intent), responses), i);
      UpToEscape(hs, i, FirstEscape(subs, hs, responses, intent.name, i), o.1, o.2)
    decreases |hs| - i
  {
    var scripts := ScriptsFor(hs, RoutedEvent(intent), responses);
    if i == |hs| {
      assert Map(HandlerOf(), Invoke(subs, hs, scripts, i).1) == hs[i..i];
    } else {
      hide RunScript, CallOutcome, RoutedEvent, ScriptFor, UpToEscape;
      OneCall(subs, hs[i], intent, ResponseOf(responses, i));
      var o := CallOutcome(subs, hs[i], ResponseOf(responses, i), intent.name);
      var call := Called(hs[i], subs, o.inner, o.raised);
      if o.raised {
        EscapesNow(hs, i, call);
      } else {
        InvokeEscapes(o.after, hs, intent, responses, i + 1);
        var e, rest := FirstEscape(o.after, hs, responses, intent.name, i + 1), Invoke(o.after, hs, scripts, i + 1);
        OneMoreUpToEscape(hs, i, e, call, rest.1, rest.2);
      }
    }
  }

  /** The handlers routing an intent calls, in order. */
  function CalledBy(subs: Subscribers<Handler>, intent: Intent, responses: seq<Response>): seq<Handler> {
    var o := Route(subs, intent, responses);
    if o.inner == [] then [] else Map(HandlerOf(), o.inner[0].calls)
  }

  lemma CalledUpToEscape(subs: Subscribers<Handler>, intent: Intent, responses: seq<Response>)
    ensures var hs := Handlers(subs, IntentRouted);
      var e := FirstEscape(subs, hs, responses, intent.name, 0);
      && CalledBy(subs, intent, responses) == hs[..CallsMade(e, 0, |hs|)]
      && Route(subs, intent, responses).raised == (e < |hs|)
  {
    var hs := Handlers(subs, IntentRouted);
    MatchesIffNamed(intent.name, intent);
    InvokeEscapes(subs, hs, intent, responses, 0);
    hide Invoke, ScriptsFor, FirstEscape, RoutedEvent;
  }

  /** No handler of the name stands behind the first call that lets an exception out. */
  predicate NoneBehindEscape(hs: seq<Handler>, e: nat, name: IntentType) {
    forall j :: e < j < |hs| ==> !IsFor(name)(hs[j])
  }

  lemma FilterPrefixIff(keep: Handler -> bool, hs: seq<Handler>, n: nat)
    requires n <= |hs|
    ensures |Filter(keep, hs[..n])| <= |Filter(keep, hs)|
    ensures |Filter(keep, hs[..n])| == |Filter(keep, hs)| <==> forall j :: n <= j < |hs| ==> !keep(hs[j])
    ensures |Filter(keep, hs[..n])| == |Filter(keep, hs)| ==> Filter(keep, hs[..n]) == Filter(keep, hs)
  {
    assert hs == hs[..n] + hs[n..];
    FilterConcat(keep, hs[..n], hs[n..]);
    FilterMembers(keep, hs[n..]);
    hide Filter;
    if forall j :: n <= j < |hs| ==> !keep(hs[j]) {
      FilterNone(keep, hs[n..]);
    } else {
      var j :| n <= j < |hs| && keep(hs[j]);
      assert hs[n..][j - n] == hs[j];
      assert hs[j] in Filter(keep, hs[n..]);
    }
  }

  /** Routing calls every handler registered under the intent's name, once each, in
      registration order, exactly when none of them stands behind the first call that lets an
      exception out: a direct handler that raises, or a wrapped one of the name that raises
      and whose failure report raises too. */
  lemma IsolationIff(subs: Subscribers<Handler>, intent: Intent, responses: seq<Response>)
    ensures var hs := Handlers(subs, IntentRouted);
      Filter(IsFor(intent.name), CalledBy(subs, intent, responses)) == Filter(IsFor(intent.name), hs) <==>
      NoneBehindEscape(hs, FirstEscape(subs, hs, responses, intent.name, 0), intent.name)
  {
    var hs := Handlers(subs, IntentRouted);
    var e := FirstEscape(subs, hs, responses, intent.name, 0);
    CalledUpToEscape(subs, intent, responses);
    hide CalledBy, FirstEscape, Filter, IsFor;
    FilterPrefixIff(IsFor(intent.name), hs, CallsMade(e, 0, |hs|));
  }

  /** Route returns normally exactly when no call lets an exception out. */
  lemma RouteReturnsIff(subs: Subscribers<Handler>, intent: Intent, responses: seq<Response>)
    ensures var hs := Handlers(subs, IntentRouted);
      !Route(subs, intent, responses).raised <==> FirstEscape(subs, hs, responses, intent.name, 0) == |hs|
  {
    CalledUpToEscape(subs, intent, responses);
    hide FirstEscape, Route, CalledBy;
  }

  /** Whatever the registry, the script does not raise. */
  ghost predicate NeverRaises(acts: seq<Act<Handler>>) {
    forall subs: Subscribers<Handler> :: !RunScript(subs, acts).raised
  }

  /** Direct handlers do not raise, nor do the INTENT_FAILED subscribers of wrapped ones. Wrapped
      handlers may. */
  ghost predicate WellBehaved(hs: seq<Handler>, responses: seq<Response>) {
    forall i :: 0 <= i < |hs| ==> WellBehavedCall(hs[i], ResponseOf(responses, i))
  }

  ghost predicate WellBehavedCall(h: Handler, r: Response) {
    && (h.Direct? ==> NeverRaises(r.acts))
    && (h.Adapter? ==> forall j :: 0 <= j < |r.onFailed| ==> NeverRaises(r.onFailed[j].acts))
  }

  lemma {:induction false} QuietInvoke(
    subs: Subscribers<Handler>, hs: seq<Handler>, scripts: seq<Script<Handler>>, i: nat)
    requires i <= |hs| && forall j :: 0 <= j < |scripts| ==> NeverRaises(scripts[j].acts)
    ensures !Invoke(subs, hs, scripts, i).2
    decreases |hs| - i
  {
    if i < |hs| {
      if i < |scripts| {
        assert NeverRaises(scripts[i].acts);
        QuietInvoke(RunScript(subs, scripts[i].acts).after, hs, scripts, i + 1);
      } else {
        QuietInvoke(subs, hs, scripts, i + 1);
      }
    }
  }

  lemma QuietCall(subs: Subscribers<Handler>, h: Handler, r: Response, name: IntentType)
    requires WellBehavedCall(h, r)
    ensures !CallOutcome(subs, h, r, name).raised
  {
    var o := RunScript(subs, r.acts);
    if h.Adapter? {
      QuietInvoke(o.after, Handlers(o.after, IntentFailed), r.onFailed, 0);
    }
    hide Invoke, RunScript;
  }

  lemma {:induction false} NothingEscapes(
    subs: Subscribers<Handler>, hs: seq<Handler>, responses: seq<Response>, name: IntentType, i: nat)
    requires i <= |hs| && WellBehaved(hs, responses)
    ensures FirstEscape(subs, hs, responses, name, i) == |hs|
    decreases |hs| - i
  {
    hide CallOutcome, WellBehavedCall;
    if i < |hs| {
      QuietCall(subs, hs[i], ResponseOf(responses, i), name);
      NothingEscapes(CallOutcome(subs, hs[i], ResponseOf(responses, i), name).after, hs, responses, name, i + 1);
    }
  }

  /** If neither direct handlers nor INTENT_FAILED subscribers raise, routing calls every handler
      of the name, once each, in registration order, whichever of them raise, and returns
      normally. */
  lemma RoutingIsolatesFailures(subs: Subscribers<Handler>, intent: Intent, responses: seq<Response>)
    requires WellBehaved(Handlers(subs, IntentRouted), responses)
    ensures Filter(IsFor(intent.name), CalledBy(subs, intent, responses))
         == Filter(IsFor(intent.name), Handlers(subs, IntentRouted))
    ensures !Route(subs, intent, responses).raised
  {
    hide WellBehaved, FirstEscape, Route, CalledBy;
    NothingEscapes(subs, Handlers(subs, IntentRouted), responses, intent.name, 0);
    IsolationIff(subs, intent, responses);
    RouteReturnsIff(subs, intent, responses);
  }
}

/** What routing does, call by call. */
module RoutingEffects {
  import opened Wrappers
  import opened Seqs
  import opened Data
  import opened EventBus
  import opened BusEffects
  import opened Intents
  import opened Routing

  /** The routed event carries every field of the intent and nothing else. */
  lemma RoutedEventCarries(intent: Intent)
    ensures var e := RoutedEvent(intent);
      && e.kind == IntentRouted && e.source == "intent_router" && |e.payload.Keys| == 6
      && e.payload[IdField] == Text(intent.id)
      && e.payload[NameField] == Text(NameText(intent.name))
      && e.payload[ConfidenceField] == Real(intent.confidence)
      && e.payload[EntitiesField] == Mapping(intent.entities)
      && e.payload[ParametersField] == Mapping(intent.parameters)
      && e.payload[TimestampField] == IsoText(intent.timestamp)
  {
    hide NameText;
    assert RoutedEvent(intent).payload.Keys
        == {IdField, NameField, ConfidenceField, EntitiesField, ParametersField, TimestampField};
  }

  /** The event tells the INTENT_FAILED subscribers that a handler failed. */
  predicate TellsOfFailure(event: Event) {
    event.kind == IntentFailed && event.source == "intent_router" && event.payload == map[StageField := Text("handler")]
  }

  /** What a call of a wrapped handler comes to, given what its handler does: nothing for another
      name; for its own, what the handler does, followed, if and only if it raised, by one report,
      which alone decides whether the call raises. */
  ghost predicate RunsWrapped(
    call: Called<Handler>, left: Subscribers<Handler>, name: IntentType, r: Response, routed: IntentType)
  {
    var o := RunScript(call.before, r.acts);
    if name != routed then call.inner == [] && !call.raised && left == call.before
    else if !o.raised then call.inner == o.inner && !call.raised && left == o.after
    else
      && |call.inner| == |o.inner| + 1 && call.inner[..|o.inner|] == o.inner
      && var report := call.inner[|o.inner|];
         && TellsOfFailure(report.event) && report.before == o.after && Exact(report)
         && Chained(o.after, report.calls, r.onFailed, 0, left) && report.raised == call.raised
  }

  lemma WrappedCallRuns(subs: Subscribers<Handler>, user: nat, r: Response, name: IntentType, routed: IntentType)
    requires Unique(subs)
    ensures var o := CallOutcome(subs, Adapter(name, user), r, routed);
      RunsWrapped(Called(Adapter(name, user), subs, o.inner, o.raised), o.after, name, r, routed)
  {
    hide Exact, Chained, Unique, RunScript;
    var o := RunScript(subs, r.acts);
    ScriptKeepsUnique(subs, r.acts);
    PublishEffect(o.after, ReportFailure(r).event, r.onFailed);
    hide RunAct;
    assert FailedEvent("handler").source != "";
  }

  /** Every call in routing an intent: a direct handler does as it does; a wrapped one runs for
      its own name only, and each failure is reported exactly once. */
  lemma EachFailureIsReportedOnce(
    subs: Subscribers<Handler>, intent: Intent, responses: seq<Response>, d: Dispatched<Handler>, i: nat)
    requires Unique(subs) && Route(subs, intent, responses).inner == [d] && i < |d.calls|
    ensures i == 0 ==> d.calls[i].before == subs
    ensures var left := LeftBy(d.calls, i, Route(subs, intent, responses).after);
      match d.calls[i].handler
      case Direct(_) =>
        RunScript(d.calls[i].before, ResponseOf(responses, i).acts)
          == Outcome(left, d.calls[i].inner, d.calls[i].raised)
      case Adapter(name, _) => RunsWrapped(d.calls[i], left, name, ResponseOf(responses, i), intent.name)
  {
    CallIsItsOutcome(subs, intent, responses, d, i);
    hide CallOutcome, RunsWrapped, Route, RunScript;
    var h := d.calls[i].handler;
    if h.Adapter? {
      WrappedCallRuns(d.calls[i].before, h.user, ResponseOf(responses, i), h.name, intent.name);
    }
  }

  lemma RouteIsChained(
    subs: Subscribers<Handler>, intent: Intent, responses: seq<Response>, d: Dispatched<Handler>)
    requires Unique(subs) && Route(subs, intent, responses).inner == [d]
    ensures var hs := Handlers(subs, IntentRouted);
      && |d.calls| <= |hs| && (forall i :: 0 <= i < |d.calls| ==> d.calls[i].handler == hs[i])
      && Chained(subs, d.calls, ScriptsFor(hs, RoutedEvent(intent), responses), 0,
                 Route(subs, intent, responses).after)
  {
    var hs, event := Handlers(subs, IntentRouted), RoutedEvent(intent);
    MatchesIffNamed(intent.name, intent);
    PublishEffect(subs, event, ScriptsFor(hs, event, responses));
    hide RoutedEvent, RunAct, Chained, Unique, ScriptsFor;
    assert Route(subs, intent, responses).inner[0] == d;
  }

  lemma CallIsItsOutcome(
    subs: Subscribers<Handler>, intent: Intent, responses: seq<Response>, d: Dispatched<Handler>, i: nat)
    requires Unique(subs) && Route(subs, intent, responses).inner == [d] && i < |d.calls|
    ensures i == 0 ==> d.calls[i].before == subs
    ensures Unique(d.calls[i].before)
    ensures CallOutcome(d.calls[i].before, d.calls[i].handler, ResponseOf(responses, i), intent.name)
         == Outcome(LeftBy(d.calls, i, Route(subs, intent, responses).after), d.calls[i].inner, d.calls[i].raised)
    decreases i
  {
    hide Route, RoutedEvent, CallOutcome, RunScript, Chained, Unique, ScriptFor, ResponseOf;
    var hs := Handlers(subs, IntentRouted);
    var scripts := ScriptsFor(hs, RoutedEvent(intent), responses);
    var after := Route(subs, intent, responses).after;
    RouteIsChained(subs, intent, responses, d);
    ChainedAt(subs, d.calls, scripts, 0, after, i);
    OneCall(d.calls[i].before, hs[i], intent, ResponseOf(responses, i));
    if i > 0 {
      CallIsItsOutcome(subs, intent, responses, d, i - 1);
      ChainedAt(subs, d.calls, scripts, 0, after, i - 1);
      ScriptKeepsUnique(d.calls[i - 1].before, ScriptAt(scripts, i - 1));
    }
  }
}

/** Which handlers are registered: the router's table and the bus agree over every run, also
    when handlers register others while an intent is being routed. */
module RouterRegistry {
  import opened Wrappers
  import opened Seqs
  import opened Dicts
  import opened Data
  import opened EventBus
  import opened BusEffects
  import opened Intents
  import opened Routing

  /** The router's (name, handler) table, in registration order. */
  type Table = Dict<(IntentType, nat), Handler>

  datatype Router = Router(registered: Table, subs: Subscribers<Handler>)

  /** register_handler: a registered pair is refused; otherwise its closure is subscribed and
      recorded. */
  function Register(r: Router, name: IntentType, user: nat): (Router, bool) {
    if (name, user) in r.registered.vals then (r, true)
    else
      var adapter := Adapter(name, user);
      (Router(Record(r.registered, adapter),
              r.subs[IntentRouted := Handlers(r.subs, IntentRouted) + [adapter]]),
       false)
  }

  function Record(table: Table, adapter: Handler): Table
    requires adapter.Adapter?
  {
    Put(table, (adapter.name, adapter.user), adapter)
  }

  /** A handler at work calls register_handler by subscribing a closure to INTENT_ROUTED. */
  predicate Registers(act: Act<Handler>) {
    act.Subscribe? && act.kind.IntentRouted? && act.handler.Adapter?
  }

  function IsAdapter(): Handler -> bool {
    (h: Handler) => h.Adapter?
  }

  /** The wrapped handlers on the bus are exactly the table's, in registration order. */
  ghost predicate Consistent(r: Router) {
    && Unique(r.subs)
    && Adapters(r.subs) == Values(r.registered)
    && forall k :: k in r.registered.vals ==> r.registered.vals[k] == Adapter(k.0, k.1)
  }

  function Adapters(subs: Subscribers<Handler>): seq<Handler> {
    Filter(IsAdapter(), Handlers(subs, IntentRouted))
  }

  // ---- The table while handlers run --------------------------------------------------------

  /** The table after a script: each registration it makes, at any depth, is refused if the
      table has the pair and recorded otherwise. */
  function TableAfter(table: Table, subs: Subscribers<Handler>, acts: seq<Act<Handler>>): Table
    decreases acts
  {
    if acts == [] then table
    else
      var first := RunAct(subs, acts[0]);
      var noted := TableAfterAct(table, subs, acts[0]);
      if first.raised then noted else TableAfter(noted, first.after, acts[1..])
  }

  function TableAfterAct(table: Table, subs: Subscribers<Handler>, act: Act<Handler>): Table
    decreases act
  {
    match act
    case Subscribe(kind, h) =>
      if Registers(act) && (h.name, h.user) !in table.vals then Record(table, h) else table
    case Publish(event, scripts) =>
      if event.source == "" then table
      else TableAfterCalls(table, subs, Handlers(subs, event.kind), scripts, 0)
    case Try(body, recovery) =>
      var tried := RunScript(subs, body);
      var noted := TableAfter(table, subs, body);
      if !tried.raised then noted else TableAfter(noted, tried.after, recovery)
    case _ => table
  }

  function TableAfterCalls(
    table: Table, subs: Subscribers<Handler>, hs: seq<Handler>, scripts: seq<Script<Handler>>, i: nat): Table
    requires i <= |hs|
    decreases scripts, |hs| - i
  {
    if i == |hs| then table
    else if i < |scripts| then
      var o := RunScript(subs, scripts[i].acts);
      var noted := TableAfter(table, subs, scripts[i].acts);
      if o.raised then noted else TableAfterCalls(noted, o.after, hs, scripts, i + 1)
    else TableAfterCalls(table, subs, hs, scripts, i + 1)
  }

  /** The script holds no closure of the router: it subscribes one only by registering, and
      unsubscribes none. */
  predicate PrivateScript(acts: seq<Act<Handler>>)
    decreases acts
  {
    forall i :: 0 <= i < |acts| ==> PrivateAct(acts[i])
  }

  predicate PrivateAct(act: Act<Handler>)
    decreases act
  {
    match act
    case Subscribe(_, h) => h.Direct? || Registers(act)
    case Unsubscribe(_, h) => h.Direct?
    case Publish(_, scripts) => forall i :: 0 <= i < |scripts| ==> PrivateScript(scripts[i].acts)
    case Raise => true
    case Try(body, recovery) => PrivateScript(body) && PrivateScript(recovery)
  }

  lemma AddingDirect(hs: seq<Handler>, h: Handler)
    requires h.Direct?
    ensures Filter(IsAdapter(), hs + [h]) == Filter(IsAdapter(), hs)
  {
    FilterSnoc(IsAdapter(), hs, h);
  }

  lemma RemovingDirect(hs: seq<Handler>, h: Handler)
    requires h.Direct? && h in hs
    ensures Filter(IsAdapter(), WithoutFirst(hs, h)) == Filter(IsAdapter(), hs)
  {
    var i := IndexOf(hs, h);
    assert hs == (hs[..i] + [h]) + hs[i + 1..];
    FilterConcat(IsAdapter(), hs[..i] + [h], hs[i + 1..]);
    AddingDirect(hs[..i], h);
    FilterConcat(IsAdapter(), hs[..i], hs[i + 1..]);
  }

  /** Where table and bus agree, a pair is registered exactly when its closure is subscribed: so
      the bus refuses the closure exactly when the router refuses the pair. */
  lemma RegisteredIffSubscribed(r: Router, name: IntentType, user: nat)
    requires Consistent(r)
    ensures (name, user) in r.registered.vals <==> Adapter(name, user) in Handlers(r.subs, IntentRouted)
  {
    FilterMembers(IsAdapter(), Handlers(r.subs, IntentRouted));
    MemberOfValues(r.registered, Adapter(name, user));
    hide Filter, Values;
    if (name, user) in r.registered.vals {
      assert r.registered.vals[(name, user)] == Adapter(name, user);
    }
  }

  lemma RegisterIsConsistent(r: Router, name: IntentType, user: nat)
    requires Consistent(r)
    ensures Consistent(Register(r, name, user).0)
    ensures r.registered.keys <= Register(r, name, user).0.registered.keys
    ensures Outcome(Register(r, name, user).0.subs, [], Register(r, name, user).1)
         == RunAct(r.subs, Subscribe(IntentRouted, Adapter(name, user)))
  {
    var hs, adapter := Handlers(r.subs, IntentRouted), Adapter(name, user);
    hide Filter, Values;
    RegisteredIffSubscribed(r, name, user);
    if (name, user) !in r.registered.vals {
      FilterSnoc(IsAdapter(), hs, adapter);
      ValuesPutFresh(r.registered, (name, user), adapter);
    }
  }

  /** Registering a pair again raises and changes nothing. A new pair goes last in the table, and
      its closure last among the subscribers of INTENT_ROUTED; nothing else changes. */
  lemma RegisterEffect(r: Router, name: IntentType, user: nat)
    requires Consistent(r)
    ensures var (q, raised) := Register(r, name, user);
      var adapter := Adapter(name, user);
      && (raised <==> adapter in Handlers(r.subs, IntentRouted))
      && (raised ==> q == r)
      && (!raised ==>
            && q.registered.keys == r.registered.keys + [(name, user)]
            && Binds(r.registered, q.registered, (name, user), adapter)
            && HandlersBecome(r.subs, q.subs, IntentRouted, Handlers(r.subs, IntentRouted) + [adapter]))
  {
    RegisteredIffSubscribed(r, name, user);
    PutBinds(r.registered, (name, user), Adapter(name, user));
    hide Consistent;
  }

  lemma {:induction false} ScriptIsConsistent(table: Table, subs: Subscribers<Handler>, acts: seq<Act<Handler>>)
    requires Consistent(Router(table, subs)) && PrivateScript(acts)
    ensures Consistent(Router(TableAfter(table, subs, acts), RunScript(subs, acts).after))
    ensures table.keys <= TableAfter(table, subs, acts).keys
    decreases acts
  {
    hide Consistent, RunAct, TableAfterAct, PrivateAct;
    if acts != [] {
      ActIsConsistent(table, subs, acts[0]);
      ScriptIsConsistent(TableAfterAct(table, subs, acts[0]), RunAct(subs, acts[0]).after, acts[1..]);
    }
  }

  lemma {:induction false} ActIsConsistent(table: Table, subs: Subscribers<Handler>, act: Act<Handler>)
    requires Consistent(Router(table, subs)) && PrivateAct(act)
    ensures Consistent(Router(TableAfterAct(table, subs, act), RunAct(subs, act).after))
    ensures table.keys <= TableAfterAct(table, subs, act).keys
    decreases act
  {
    match act
    case Subscribe(kind, h) =>
      if Registers(act) {
        RegisterIsConsistent(Router(table, subs), h.name, h.user);
        hide Consistent;
      } else {
        DirectIsConsistent(table, subs, act);
      }
    case Unsubscribe(kind, h) => DirectIsConsistent(table, subs, act);
    case Publish(event, scripts) =>
      hide Consistent, PrivateScript, Invoke, TableAfterCalls;
      CallsAreConsistent(table, subs, Handlers(subs, event.kind), scripts, 0);
    case Raise =>
    case Try(body, recovery) =>
      hide Consistent, PrivateScript, RunScript, TableAfter;
      ScriptIsConsistent(table, subs, body);
      ScriptIsConsistent(TableAfter(table, subs, body), RunScript(subs, body).after, recovery);
  }

  /** Subscribing or unsubscribing something that is no closure of the router. */
  lemma DirectIsConsistent(table: Table, subs: Subscribers<Handler>, act: Act<Handler>)
    requires Consistent(Router(table, subs)) && ((act.Subscribe? || act.Unsubscribe?) && act.handler.Direct?)
    ensures Consistent(Router(table, RunAct(subs, act).after)) && TableAfterAct(table, subs, act) == table
  {
    hide Filter, RunScript, Invoke, WithoutFirst, Unique, Values;
    ActKeepsUnique(subs, act);
    if act.Subscribe? {
      AddingDirect(Handlers(subs, act.kind), act.handler);
    } else if act.handler in Handlers(subs, act.kind) {
      RemovingDirect(Handlers(subs, act.kind), act.handler);
    }
  }

  lemma {:induction false} CallsAreConsistent(
    table: Table, subs: Subscribers<Handler>, hs: seq<Handler>, scripts: seq<Script<Handler>>, i: nat)
    requires i <= |hs| && Consistent(Router(table, subs))
    requires forall j :: 0 <= j < |scripts| ==> PrivateScript(scripts[j].acts)
    ensures Consistent(Router(TableAfterCalls(table, subs, hs, scripts, i), Invoke(subs, hs, scripts, i).0))
    ensures table.keys <= TableAfterCalls(table, subs, hs, scripts, i).keys
    decreases scripts, |hs| - i
  {
    hide Consistent, RunScript, TableAfter, PrivateScript;
    if i < |hs| {
      if i < |scripts| {
        ScriptIsConsistent(table, subs, scripts[i].acts);
        CallsAreConsistent(TableAfter(table, subs, scripts[i].acts), RunScript(subs, scripts[i].acts).after,
                           hs, scripts, i + 1);
      } else {
        CallsAreConsistent(table, subs, hs, scripts, i + 1);
      }
    }
  }

  // ---- Runs -------------------------------------------------------------------------

  datatype Op =
    | RegisterHandler(name: IntentType, user: nat)
    | RouteIntent(intent: Intent, responses: seq<Response>)
    | Perform(acts: seq<Act<Handler>>)

  function Step(r: Router, op: Op): Router {
    match op
    case RegisterHandler(name, user) => Register(r, name, user).0
    case RouteIntent(intent, responses) => AfterRouting(r, intent, responses)
    case Perform(acts) => Router(TableAfter(r.registered, r.subs, acts), RunScript(r.subs, acts).after)
  }

  function AfterRouting(r: Router, intent: Intent, responses: seq<Response>): Router {
    Router(TableAfterAct(r.registered, r.subs, RoutingAct(r.subs, intent, responses)),
           Route(r.subs, intent, responses).after)
  }

  function Run(r: Router, ops: seq<Op>): Router {
    if ops == [] then r else Step(Run(r, ops[..|ops| - 1]), ops[|ops| - 1])
  }

  predicate PrivateResponse(r: Response) {
    PrivateScript(r.acts) && forall j :: 0 <= j < |r.onFailed| ==> PrivateScript(r.onFailed[j].acts)
  }

  predicate PrivateOp(op: Op) {
    match op
    case RegisterHandler(_, _) => true
    case RouteIntent(_, responses) => forall i :: 0 <= i < |responses| ==> PrivateResponse(responses[i])
    case Perform(acts) => PrivateScript(acts)
  }

  lemma ScriptForIsPrivate(h: Handler, event: Event, r: Response)
    requires PrivateResponse(r)
    ensures PrivateScript(ScriptFor(h, event, r).acts)
  {
    hide NameMatches, FromPayload;
    assert PrivateAct(Act<Handler>.Raise);
    if h.Adapter? && NameMatches(h.name, event) {
      var body := if FromPayload(event.payload).None? then [Act<Handler>.Raise] else r.acts;
      assert PrivateScript(body);
      assert PrivateAct(ReportFailure(r));
      assert PrivateScript([ReportFailure(r)]);
      assert PrivateAct(Try(body, [ReportFailure(r)]));
    }
  }

  lemma RoutingIsPrivate(subs: Subscribers<Handler>, intent: Intent, responses: seq<Response>)
    requires forall i :: 0 <= i < |responses| ==> PrivateResponse(responses[i])
    ensures PrivateAct(RoutingAct(subs, intent, responses))
  {
    hide RoutedEvent, PrivateScript, ScriptFor;
    var hs, event := Handlers(subs, IntentRouted), RoutedEvent(intent);
    forall i | 0 <= i < |hs|
      ensures PrivateScript(ScriptsFor(hs, event, responses)[i].acts)
    {
      assert PrivateResponse(ResponseOf(responses, i)) by {
        EmptyResponseIsPrivate();
      }
      ScriptForIsPrivate(hs[i], event, ResponseOf(responses, i));
    }
  }

  lemma EmptyResponseIsPrivate()
    ensures PrivateResponse(Response([], []))
  {
  }

  lemma StepIsConsistent(r: Router, op: Op)
    requires Consistent(r) && PrivateOp(op)
    ensures Consistent(Step(r, op)) && r.registered.keys <= Step(r, op).registered.keys
  {
    hide Consistent, PrivateScript, PrivateResponse, RunAct, RunScript, TableAfter, TableAfterAct, Register, RoutingAct;
    match op
    case RegisterHandler(name, user) => RegisterIsConsistent(r, name, user);
    case RouteIntent(intent, responses) =>
      RoutingIsPrivate(r.subs, intent, responses);
      ActIsConsistent(r.registered, r.subs, RoutingAct(r.subs, intent, responses));
    case Perform(acts) => ScriptIsConsistent(r.registered, r.subs, acts);
  }

  /** Over every run of registrations, routes and anything else on the bus, also where handlers
      register others while being called: the closures on the bus are the router's table, in
      registration order, and registrations are never lost. */
  lemma {:induction false} RunIsConsistent(r: Router, ops: seq<Op>)
    requires Consistent(r) && forall i :: 0 <= i < |ops| ==> PrivateOp(ops[i])
    ensures Consistent(Run(r, ops)) && r.registered.keys <= Run(r, ops).registered.keys
  {
    hide Consistent, PrivateOp, Step;
    if ops != [] {
      RunIsConsistent(r, ops[..|ops| - 1]);
      StepIsConsistent(Run(r, ops[..|ops| - 1]), ops[|ops| - 1]);
    }
  }

  function KeyFor(name: IntentType): ((IntentType, nat)) -> bool {
    (k: (IntentType, nat)) => k.0 == name
  }

  /** The registration a closure was made for. */
  function PairOf(): Handler -> (IntentType, nat) {
    (h: Handler) => if h.Adapter? then (h.name, h.user) else (Unknown, 0)
  }

  lemma SubscribedUnderName(r: Router, name: IntentType)
    requires Consistent(r)
    ensures Map(PairOf(), Filter(IsFor(name), Handlers(r.subs, IntentRouted)))
         == Filter(KeyFor(name), r.registered.keys)
  {
    var hs := Handlers(r.subs, IntentRouted);
    FilterTwice(IsAdapter(), IsFor(name), IsFor(name), hs);
    forall h | h in Values(r.registered)
      ensures h.Adapter?
    {
      MemberOfValues(r.registered, h);
    }
    FilterMap(PairOf(), IsFor(name), KeyFor(name), Values(r.registered));
    PairsAreKeys(r);
    hide Filter, Values;
  }

  lemma PairsAreKeys(r: Router)
    requires Consistent(r)
    ensures Map(PairOf(), Values(r.registered)) == r.registered.keys
  {
    hide Filter;
    forall i | 0 <= i < |r.registered.keys|
      ensures PairOf()(Values(r.registered)[i]) == r.registered.keys[i]
    {
      assert r.registered.keys[i] in r.registered.keys;
    }
  }

  /** Routing, from any state a run can reach: the handlers called under the intent's name are
      those the router has registered under it when the routing begins, once each, in
      registration order, exactly when none stands behind the first call that lets an exception
      out. Handlers registered meanwhile are not called. */
  lemma RouteReachesRegistered(r: Router, intent: Intent, responses: seq<Response>)
    requires Consistent(r)
    ensures var hs := Handlers(r.subs, IntentRouted);
      Map(PairOf(), Filter(IsFor(intent.name), CalledBy(r.subs, intent, responses)))
        == Filter(KeyFor(intent.name), r.registered.keys) <==>
      NoneBehindEscape(hs, FirstEscape(r.subs, hs, responses, intent.name, 0), intent.name)
  {
    var hs := Handlers(r.subs, IntentRouted);
    var e := FirstEscape(r.subs, hs, responses, intent.name, 0);
    CalledUpToEscape(r.subs, intent, responses);
    SubscribedUnderName(r, intent.name);
    hide CalledBy, FirstEscape, Filter, IsFor, PairOf, KeyFor, Consistent;
    FilterPrefixIff(IsFor(intent.name), hs, CallsMade(e, 0, |hs|));
    assert |Map(PairOf(), Filter(IsFor(intent.name), hs))| == |Filter(IsFor(intent.name), hs)|;
  }

  // ---- When isolation fails ------------------------------------------------------------

  /** Two handlers for questions and one INTENT_FAILED subscriber. */
  function FragileBus(): Subscribers<Handler> {
    map[IntentRouted := [Adapter(Question, 1), Adapter(Question, 2)], IntentFailed := [Direct(7)]]
  }

  /** The first handler raises, and so does the subscriber to which its failure is reported. */
  function FailingReport(): seq<Response> {
    [Response([Raise], [Script([Raise])])]
  }

  /** Something subscribed straight to INTENT_ROUTED, ahead of a handler for questions. */
  function BusWithDirectHandler(): Subscribers<Handler> {
    map[IntentRouted := [Direct(7), Adapter(Question, 1)]]
  }

  lemma RaiseRaises(subs: Subscribers<Handler>)
    ensures RunScript(subs, [Act<Handler>.Raise]) == Outcome(subs, [], true)
  {
    RunOne(subs, Act<Handler>.Raise);
    hide RunScript;
  }

  /** If the INTENT_FAILED subscriber raises, one failing handler does stop the next. */
  lemma FailingReportStopsTheNextHandler(intent: Intent)
    requires intent.name == Question
    ensures CalledBy(FragileBus(), intent, FailingReport()) == [Adapter(Question, 1)]
    ensures Route(FragileBus(), intent, FailingReport()).raised
  {
    var subs, hs, r := FragileBus(), Handlers(FragileBus(), IntentRouted), FailingReport()[0];
    RaiseRaises(subs);
    assert Invoke(subs, [Direct(7)], [Script([Act<Handler>.Raise])], 0).2;
    assert RunAct(subs, ReportFailure(r)).raised;
    assert FirstEscape(subs, hs, FailingReport(), Question, 0) == 0;
    hide Route, CalledBy, FirstEscape, RunScript, RunAct, Invoke;
    CalledUpToEscape(subs, intent, FailingReport());
    assert hs[..1] == [Adapter(Question, 1)];
  }

  /** A raising handler subscribed straight to INTENT_ROUTED stops every handler behind it. */
  lemma DirectHandlerStopsTheNext(intent: Intent)
    requires intent.name == Question
    ensures CalledBy(BusWithDirectHandler(), intent, [Response([Raise], [])]) == [Direct(7)]
    ensures Route(BusWithDirectHandler(), intent, [Response([Raise], [])]).raised
  {
    var subs, responses := BusWithDirectHandler(), [Response([Act<Handler>.Raise], [])];
    var hs := Handlers(subs, IntentRouted);
    RaiseRaises(subs);
    assert FirstEscape(subs, hs, responses, Question, 0) == 0;
    hide Route, CalledBy, FirstEscape, RunScript;
    CalledUpToEscape(subs, intent, responses);
    assert hs[..1] == [Direct(7)];
  }
}

/** The router itself. */
module IntentRouters {
  import opened Wrappers
  import opened Seqs
  import opened Dicts
  import opened EventBus
  import opened EventBuses
  import opened Intents
  import opened Routing
  import opened RouterRegistry

  class IntentRouter {
    const bus: InMemoryEventBus<Handler>
    var registered: Table

    ghost function State(): Router
      reads this, bus
    {
      Router(registered, bus.subscribers)
    }

    constructor (bus: InMemoryEventBus<Handler>)
      ensures this.bus == bus && State() == Router(Empty(), bus.subscribers)
    {
      this.bus := bus;
      registered := Empty();
    }

    /** Subscribes a closure around the handler, unless this pair is already registered. */
    method RegisterHandler(name: IntentType, user: nat) returns (raised: bool)
      requires bus.Valid() && Consistent(State())
      modifies this, bus
      ensures bus.Valid() && Consistent(State())
      ensures (State(), raised) == Register(old(State()), name, user)
    {
      RegisterIsConsistent(State(), name, user);
      if (name, user) in registered.vals {
        return true;
      }
      var adapter := Adapter(name, user);
      var refused := bus.Subscribe(IntentRouted, adapter);
      registered := Put(registered, (name, user), adapter);
      return false;
    }

    /** Publishes the intent. What the handlers called register meanwhile is in the table when
        the publication returns. */
    method Route(intent: Intent, responses: seq<Response>)
      returns (dispatched: seq<Dispatched<Handler>>, raised: bool)
      requires bus.Valid()
      modifies this`registered, bus
      ensures bus.Valid()
      ensures Outcome(bus.subscribers, dispatched, raised) == Routing.Route(old(bus.subscribers), intent, responses)
      ensures State() == AfterRouting(old(State()), intent, responses)
    {
      hide RunAct, RunScript, Invoke, ScriptsFor;
      var event := RoutedEvent(intent);
      var scripts := ScriptsFor(Handlers(bus.subscribers, IntentRouted), event, responses);
      registered := TableAfterAct(registered, bus.subscribers, Act.Publish(event, scripts));
      dispatched, raised := bus.Publish(event, scripts);
    }
  }
}
