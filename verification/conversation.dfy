/** The conversation manager: one open session at a time, whatever its delegates do. */

module Conversations {
  import opened Wrappers
  import opened Seqs
  import opened Dicts
  import opened Data
  import opened Intents

  datatype Role = User | Assistant

  datatype Message = Message(id: nat, role: Role, content: string, timestamp: int)

  datatype SessionState = New | Active | Waiting | Closed

  datatype Session = Session(
    id: nat,
    createdAt: int,
    updatedAt: int,
    state: SessionState,
    metadata: Attributes,
    messages: seq<Message>)

  datatype ConversationError = SessionExists | NoActiveSession | SessionNotFound | NotRunning | InvalidMessage

  datatype Notice =
    | ConversationStarted(session: nat)
    | ConversationEnded(session: nat)
    | MessageReceived(session: nat, message: nat)
    | IntentResolved(session: nat, message: nat, name: IntentType, confidence: real)
    | WorkflowExecuted(session: nat, message: nat, workflow: string)
    | ResponseGenerated(session: nat, message: nat)

  /** `drawn` counts the uuids drawn so far, for sessions and messages alike. */
  datatype Manager = Manager(
    sessions: Dict<nat, Session>,
    active: Option<nat>,
    running: bool,
    drawn: nat,
    notices: seq<Notice>)

  datatype WorkflowOutcome = Executed | WorkflowError | OtherException

  /** What the delegates do during one call: the intent parsed, unless parsing raises; the
      workflow engine; which publications have a subscriber that raises; and what the clock
      shows each time it is read. */
  datatype Delegates = Delegates(
    parsed: Option<Intent>,
    workflow: WorkflowOutcome,
    raises: Notice -> bool,
    clock: nat -> int)

  datatype Answer =
    | Done(session: Session)
    | Replied(message: Message)
    | Refused(error: ConversationError)
    | Raised
    | LifecycleChanged

  function ResponseTo(name: IntentType): string {
    match name
    case Question => "I heard your question, but I have no way to answer it yet."
    case Command => "Acknowledged: I will not execute that automatically."
    case Memory => "Noted."
    case Schedule => "Understood; nothing has been scheduled automatically."
    case Unknown => "I'm not sure how to help with that yet."
  }

  // ---- The steps of one call ---------------------------------------------------------

  function Announce(m: Manager, n: Notice): Manager {
    m.(notices := m.notices + [n])
  }

  function Store(m: Manager, s: Session): Manager {
    m.(sessions := Put(m.sessions, s.id, s))
  }

  function StartSession(m: Manager, metadata: Attributes, d: Delegates): (Manager, Answer) {
    if m.active.Some? then (m, Refused(SessionExists))
    else
      var s := Session(m.drawn, d.clock(0), d.clock(1), New, metadata, []);
      var n := ConversationStarted(s.id);
      (Announce(Store(m.(active := Some(s.id), drawn := m.drawn + 1), s), n),
       if d.raises(n) then Raised else Done(s))
  }

  function ActiveSession(m: Manager): Option<Session> {
    if m.active.Some? then Lookup(m.sessions, m.active.value) else None
  }

  function EndSession(m: Manager, d: Delegates): (Manager, Answer) {
    match ActiveSession(m)
    case None => (m, Refused(NoActiveSession))
    case Some(s) =>
      var closed, n := s.(state := Closed, updatedAt := d.clock(0)), ConversationEnded(s.id);
      (Announce(Store(m.(active := None), closed), n), if d.raises(n) then Raised else Done(closed))
  }

  function UserMessage(m: Manager, text: string, d: Delegates): Message {
    Message(m.drawn, User, text, d.clock(1))
  }

  /** The session once the user's message is in. */
  function Heard(m: Manager, s: Session, text: string, d: Delegates): Session {
    s.(state := Active, updatedAt := d.clock(2), messages := s.messages + [UserMessage(m, text, d)])
  }

  function Reply(m: Manager, intent: Intent, d: Delegates): Message {
    Message(m.drawn, Assistant, ResponseTo(intent.name), d.clock(3))
  }

  /** The session once the reply is in. */
  function Answered(m: Manager, s: Session, intent: Intent, d: Delegates): Session {
    s.(state := Waiting, updatedAt := d.clock(5), messages := s.messages + [Reply(m, intent, d)])
  }

  /** The user's message is stored and announced before anything is delegated. */
  function Receive(m: Manager, text: string, workflow: Option<string>, d: Delegates): (Manager, Answer) {
    if !m.running then (m, Refused(NotRunning))
    else if text == "" then (m, Refused(InvalidMessage))
    else
      match ActiveSession(m)
      case None => (m, Refused(NoActiveSession))
      case Some(s) =>
        var heard := Heard(m, s, text, d);
        var n := MessageReceived(s.id, m.drawn);
        var taken := Announce(Store(m.(drawn := m.drawn + 1), heard), n);
        if d.raises(n) || d.parsed.None? then (taken, Raised)
        else Delegate(taken, heard, m.drawn, d.parsed.value, workflow, d)
  }

  /** The intent is announced, then the workflow runs if one was asked for. Workflow errors
      are swallowed; any other exception leaves the session as it stands. */
  function Delegate(m: Manager, s: Session, user: nat, intent: Intent, workflow: Option<string>, d: Delegates)
    : (Manager, Answer)
  {
    var n := IntentResolved(s.id, user, intent.name, intent.confidence);
    var resolved := Announce(m, n);
    if d.raises(n) then (resolved, Raised)
    else if workflow.None? || d.workflow.WorkflowError? then Respond(resolved, s, intent, d)
    else if d.workflow.OtherException? then (resolved, Raised)
    else
      var w := WorkflowExecuted(s.id, user, workflow.value);
      if d.raises(w) then (Announce(resolved, w), Raised) else Respond(Announce(resolved, w), s, intent, d)
  }

  function Respond(m: Manager, s: Session, intent: Intent, d: Delegates): (Manager, Answer) {
    var n := ResponseGenerated(s.id, m.drawn);
    (Announce(Store(m.(drawn := m.drawn + 1), Answered(m, s, intent, d)), n),
     if d.raises(n) then Raised else Replied(Reply(m, intent, d)))
  }

  datatype Op = Start(metadata: Attributes) | End | Hear(text: string, workflow: Option<string>) | Run(running: bool)

  datatype Call = Call(op: Op, delegates: Delegates)

  function Step(m: Manager, c: Call): (Manager, Answer) {
    match c.op
    case Start(metadata) => StartSession(m, metadata, c.delegates)
    case End => EndSession(m, c.delegates)
    case Hear(text, workflow) => Receive(m, text, workflow, c.delegates)
    case Run(running) => (m.(running := running), LifecycleChanged)
  }

  // ---- What every call keeps -------------------------------------------------------------

  function SessionId(): Session -> nat {
    (s: Session) => s.id
  }

  /** Every assistant message directly follows a user message. */
  ghost predicate Alternates(messages: seq<Message>) {
    forall i :: 0 <= i < |messages| && messages[i].role.Assistant? ==> i > 0 && messages[i - 1].role.User?
  }

  /** What an open session's state says about its history. */
  ghost predicate StateTells(s: Session) {
    s.state != Closed ==>
      && (s.state == New <==> s.messages == [])
      && (s.state == Waiting <==> s.messages != [] && s.messages[|s.messages| - 1].role.Assistant?)
      && (s.state == Active <==> s.messages != [] && s.messages[|s.messages| - 1].role.User?)
  }

  /** At most one session is open and it is the active one. */
  ghost predicate Safe(m: Manager) {
    && KeyedBy(m.sessions, SessionId())
    && (m.active.Some? ==> m.active.value in m.sessions.vals)
    && forall id :: id in m.sessions.vals ==> SafeSession(m, id)
  }

  ghost predicate SafeSession(m: Manager, id: nat)
    requires id in m.sessions.vals
  {
    && id < m.drawn
    && (m.sessions.vals[id].state != Closed <==> m.active == Some(id))
    && StateTells(m.sessions.vals[id])
    && Alternates(m.sessions.vals[id].messages)
  }

  /** Sessions stay, in order; histories only grow; metadata and creation times stay; closed
      sessions never change. */
  ghost predicate Evolves(before: Manager, after: Manager) {
    && before.sessions.keys <= after.sessions.keys
    && forall id :: id in before.sessions.vals ==> Grows(before, after, id)
  }

  ghost predicate Grows(before: Manager, after: Manager, id: nat)
    requires id in before.sessions.vals
  {
    && id in after.sessions.vals
    && before.sessions.vals[id].messages <= after.sessions.vals[id].messages
    && before.sessions.vals[id].createdAt == after.sessions.vals[id].createdAt
    && before.sessions.vals[id].metadata == after.sessions.vals[id].metadata
    && (before.sessions.vals[id].state == Closed ==> after.sessions.vals[id] == before.sessions.vals[id])
  }

  lemma EvolvesTransitively(a: Manager, b: Manager, c: Manager)
    requires Evolves(a, b) && Evolves(b, c)
    ensures Evolves(a, c)
  {
    forall id | id in a.sessions.vals
      ensures Grows(a, c, id)
    {
      assert Grows(a, b, id) && Grows(b, c, id);
    }
  }

  /** Storing a newer version of the open session, or closing it. */
  lemma StoreIsSafe(m: Manager, after: Manager, s: Session)
    requires Safe(m) && m.active == Some(s.id)
    requires after.sessions == Put(m.sessions, s.id, s) && after.drawn >= m.drawn
    requires after.active == if s.state == Closed then None else m.active
    requires StateTells(s) && Alternates(s.messages) && m.sessions.vals[s.id].messages <= s.messages
    requires s.createdAt == m.sessions.vals[s.id].createdAt && s.metadata == m.sessions.vals[s.id].metadata
    ensures Safe(after) && Evolves(m, after)
  {
    hide StateTells, Alternates;
    assert SafeSession(m, s.id);
    forall id | id in after.sessions.vals
      ensures SafeSession(after, id)
    {
      if id != s.id {
        assert SafeSession(m, id);
      }
    }
  }

  lemma StartIsSafe(m: Manager, metadata: Attributes, d: Delegates)
    requires Safe(m)
    ensures Safe(StartSession(m, metadata, d).0) && Evolves(m, StartSession(m, metadata, d).0)
  {
    hide StateTells, Alternates;
    var after := StartSession(m, metadata, d).0;
    if m.active.None? {
      FreshSessionFits(Session(m.drawn, d.clock(0), d.clock(1), New, metadata, []));
      IdsAreDrawn(m);
      forall id | id in after.sessions.vals
        ensures SafeSession(after, id)
      {
        if id != m.drawn {
          assert SafeSession(m, id);
        }
      }
    }
  }

  lemma IdsAreDrawn(m: Manager)
    requires Safe(m)
    ensures m.drawn !in m.sessions.vals
  {
    forall id | id in m.sessions.vals
      ensures id < m.drawn
    {
      assert SafeSession(m, id);
    }
  }

  lemma FreshSessionFits(s: Session)
    requires s.state == New && s.messages == []
    ensures StateTells(s) && Alternates(s.messages)
  {
  }

  lemma EndIsSafe(m: Manager, d: Delegates)
    requires Safe(m)
    ensures Safe(EndSession(m, d).0) && Evolves(m, EndSession(m, d).0)
  {
    hide Safe, Evolves;
    match ActiveSession(m)
    case None => NothingChanges(m);
    case Some(s) =>
      ActiveIsOpen(m);
      assert StateTells(s.(state := Closed, updatedAt := d.clock(0)));
      StoreIsSafe(m, EndSession(m, d).0, s.(state := Closed, updatedAt := d.clock(0)));
  }

  lemma NothingChanges(m: Manager)
    ensures Evolves(m, m)
  {
  }

  lemma ActiveIsOpen(m: Manager)
    requires Safe(m) && m.active.Some?
    ensures var id := m.active.value;
      && id in m.sessions.vals && ActiveSession(m) == Some(m.sessions.vals[id]) && m.sessions.vals[id].id == id
      && m.sessions.vals[id].state != Closed
      && StateTells(m.sessions.vals[id]) && Alternates(m.sessions.vals[id].messages)
  {
    assert SafeSession(m, m.active.value);
  }

  /** The session is open, active and waiting for a reply to its last message. */
  ghost predicate Listening(m: Manager, s: Session) {
    && Safe(m) && m.active == Some(s.id) && s.id in m.sessions.vals && m.sessions.vals[s.id] == s
    && s.messages != [] && s.messages[|s.messages| - 1].role.User? && Alternates(s.messages)
  }

  lemma AnnounceIsSafe(m: Manager, n: Notice)
    requires Safe(m)
    ensures Safe(Announce(m, n)) && Evolves(m, Announce(m, n))
  {
    forall id | id in m.sessions.vals
      ensures SafeSession(Announce(m, n), id)
    {
      assert SafeSession(m, id);
    }
  }

  lemma RespondIsSafe(m: Manager, s: Session, intent: Intent, d: Delegates)
    requires Listening(m, s)
    ensures Safe(Respond(m, s, intent, d).0) && Evolves(m, Respond(m, s, intent, d).0)
  {
    hide Safe, Evolves, ResponseTo;
    StoreIsSafe(m, Respond(m, s, intent, d).0, Answered(m, s, intent, d));
  }

  lemma DelegateIsSafe(m: Manager, s: Session, user: nat, intent: Intent, workflow: Option<string>, d: Delegates)
    requires Listening(m, s)
    ensures Safe(Delegate(m, s, user, intent, workflow, d).0) && Evolves(m, Delegate(m, s, user, intent, workflow, d).0)
  {
    hide Safe, Evolves, Respond, Alternates;
    var n := IntentResolved(s.id, user, intent.name, intent.confidence);
    var resolved := Announce(m, n);
    AnnounceIsSafe(m, n);
    RespondIsSafe(resolved, s, intent, d);
    EvolvesTransitively(m, resolved, Respond(resolved, s, intent, d).0);
    if workflow.Some? {
      var w := WorkflowExecuted(s.id, user, workflow.value);
      AnnounceIsSafe(resolved, w);
      RespondIsSafe(Announce(resolved, w), s, intent, d);
      EvolvesTransitively(m, resolved, Announce(resolved, w));
      EvolvesTransitively(m, Announce(resolved, w), Respond(Announce(resolved, w), s, intent, d).0);
    }
  }

  lemma HearingIsSafe(m: Manager, s: Session, text: string, d: Delegates, taken: Manager)
    requires Safe(m) && ActiveSession(m) == Some(s)
    requires taken == Announce(Store(m.(drawn := m.drawn + 1), Heard(m, s, text, d)), MessageReceived(s.id, m.drawn))
    ensures Listening(taken, Heard(m, s, text, d)) && Evolves(m, taken)
  {
    ActiveIsOpen(m);
    StoreIsSafe(m, taken, Heard(m, s, text, d));
    hide Safe, Evolves;
  }

  lemma ReceiveIsSafe(m: Manager, text: string, workflow: Option<string>, d: Delegates)
    requires Safe(m)
    ensures Safe(Receive(m, text, workflow, d).0) && Evolves(m, Receive(m, text, workflow, d).0)
  {
    hide Safe, Evolves, Delegate, Alternates, Heard;
    NothingChanges(m);
    match ActiveSession(m)
    case None =>
    case Some(s) =>
      var heard := Heard(m, s, text, d);
      var taken := Announce(Store(m.(drawn := m.drawn + 1), heard), MessageReceived(s.id, m.drawn));
      HearingIsSafe(m, s, text, d, taken);
      if d.parsed.Some? {
        DelegateIsSafe(taken, heard, m.drawn, d.parsed.value, workflow, d);
        EvolvesTransitively(m, taken, Delegate(taken, heard, m.drawn, d.parsed.value, workflow, d).0);
      }
  }

  lemma StepIsSafe(m: Manager, c: Call)
    requires Safe(m)
    ensures Safe(Step(m, c).0) && Evolves(m, Step(m, c).0)
  {
    match c.op
    case Start(metadata) => StartIsSafe(m, metadata, c.delegates);
    case End => EndIsSafe(m, c.delegates);
    case Hear(text, workflow) => ReceiveIsSafe(m, text, workflow, c.delegates);
    case Run(running) =>
      forall id | id in m.sessions.vals
        ensures SafeSession(Step(m, c).0, id)
      {
        assert SafeSession(m, id);
      }
  }

  function RunAll(m: Manager, calls: seq<Call>): Manager {
    if calls == [] then m else Step(RunAll(m, calls[..|calls| - 1]), calls[|calls| - 1]).0
  }

  /** Over every run, wherever delegates and subscribers raise: the manager stays safe and,
      from any earlier moment on, histories only grow and closed sessions never change. */
  lemma {:induction false} RunIsSafe(m: Manager, calls: seq<Call>, earlier: nat)
    requires Safe(m) && earlier <= |calls|
    ensures Safe(RunAll(m, calls))
    ensures Safe(RunAll(m, calls[..earlier])) && Evolves(RunAll(m, calls[..earlier]), RunAll(m, calls))
  {
    hide Safe, Evolves, Step;
    if earlier == |calls| {
      assert calls[..earlier] == calls;
      NothingChanges(RunAll(m, calls));
      if calls != [] {
        RunIsSafe(m, calls[..|calls| - 1], |calls| - 1);
        StepIsSafe(RunAll(m, calls[..|calls| - 1]), calls[|calls| - 1]);
      }
    } else {
      var front := calls[..|calls| - 1];
      assert front[..earlier] == calls[..earlier];
      RunIsSafe(m, front, earlier);
      StepIsSafe(RunAll(m, front), calls[|calls| - 1]);
      EvolvesTransitively(RunAll(m, calls[..earlier]), RunAll(m, front), RunAll(m, calls));
    }
  }

  lemma AtMostOneOpen(m: Manager, a: nat, b: nat)
    requires Safe(m) && a in m.sessions.vals && b in m.sessions.vals
    requires m.sessions.vals[a].state != Closed && m.sessions.vals[b].state != Closed
    ensures a == b && m.active == Some(a)
  {
    assert SafeSession(m, a) && SafeSession(m, b);
  }

  // ---- What one receive leaves behind ---------------------------------------------------

  /** Nothing raises between the user's message and the reply. */
  predicate Smooth(s: Session, m: Manager, workflow: Option<string>, d: Delegates) {
    && !d.raises(MessageReceived(s.id, m.drawn))
    && d.parsed.Some?
    && SmoothDelegation(s, m.drawn, d.parsed.value, workflow, d)
  }

  predicate SmoothDelegation(s: Session, user: nat, intent: Intent, workflow: Option<string>, d: Delegates) {
    && !d.raises(IntentResolved(s.id, user, intent.name, intent.confidence))
    && (workflow.None? || d.workflow.WorkflowError?
        || (d.workflow.Executed? && !d.raises(WorkflowExecuted(s.id, user, workflow.value))))
  }

  lemma DelegateLeaves(m: Manager, s: Session, user: nat, intent: Intent, workflow: Option<string>, d: Delegates)
    ensures var after := Delegate(m, s, user, intent, workflow, d).0;
      && after.active == m.active
      && after.sessions ==
         if SmoothDelegation(s, user, intent, workflow, d)
         then Put(m.sessions, s.id, Answered(m, s, intent, d))
         else m.sessions
  {
    hide ResponseTo, Put;
  }

  /** The session after a receive. */
  function Conversed(m: Manager, s: Session, text: string, workflow: Option<string>, d: Delegates): Session {
    var heard := Heard(m, s, text, d);
    if Smooth(s, m, workflow, d) then Answered(m.(drawn := m.drawn + 1), heard, d.parsed.value, d) else heard
  }

  /** A receive that is not refused adds the user's message to the open session s, and then
      the reply for the parsed intent exactly when nothing raises in between; nothing else
      changes. */
  lemma ReceiveAppends(m: Manager, s: Session, text: string, workflow: Option<string>, d: Delegates)
    requires m.running && text != "" && ActiveSession(m) == Some(s)
    ensures var after := Receive(m, text, workflow, d).0;
      after.active == m.active && after.sessions == Put(m.sessions, s.id, Conversed(m, s, text, workflow, d))
  {
    hide ActiveSession, ResponseTo, Put, Delegate;
    var heard := Heard(m, s, text, d);
    var taken := Announce(Store(m.(drawn := m.drawn + 1), heard), MessageReceived(s.id, m.drawn));
    if d.parsed.Some? {
      DelegateLeaves(taken, heard, m.drawn, d.parsed.value, workflow, d);
      PutTwice(m.sessions, s.id, heard, Conversed(m, s, text, workflow, d));
    }
  }
}

/** What each call does to the sessions, field by field. */
module ConversationEffects {
  import opened Wrappers
  import opened Seqs
  import opened Dicts
  import opened Data
  import opened Intents
  import opened Conversations

  /** start_session: refused while a session is active; otherwise a new, empty session, which is
      now the active one. It is stored and announced even if a subscriber raises. */
  lemma StartEffect(m: Manager, metadata: Attributes, d: Delegates)
    requires Safe(m)
    ensures var (after, a) := StartSession(m, metadata, d);
      match m.active
      case Some(_) => after == m && a == Refused(SessionExists)
      case None =>
        && after.active.Some? && after.active.value in after.sessions.vals
        && var id, s := after.active.value, after.sessions.vals[after.active.value];
           && Binds(m.sessions, after.sessions, id, s) && after.sessions.keys == m.sessions.keys + [id]
           && s.id == id && s.state == New && s.messages == [] && s.metadata == metadata
           && s.createdAt == d.clock(0) && s.updatedAt == d.clock(1)
           && after.running == m.running && after.notices == m.notices + [ConversationStarted(id)]
           && a == if d.raises(ConversationStarted(id)) then Raised else Done(s)
  {
    IdsAreDrawn(m);
    hide Safe;
  }

  /** end_session: refused when none is active; otherwise the active session is closed, keeping
      its history, and none is active. */
  lemma EndEffect(m: Manager, d: Delegates)
    requires Safe(m)
    ensures var (after, a) := EndSession(m, d);
      match m.active
      case None => after == m && a == Refused(NoActiveSession)
      case Some(id) =>
        && id in m.sessions.vals && id in after.sessions.vals
        && var s, closed := m.sessions.vals[id], after.sessions.vals[id];
           && Binds(m.sessions, after.sessions, id, closed) && after.sessions.keys == m.sessions.keys
           && closed.id == id && closed.state == Closed && closed.messages == s.messages
           && closed.createdAt == s.createdAt && closed.updatedAt == d.clock(0) && closed.metadata == s.metadata
           && after.active == None && after.running == m.running
           && after.notices == m.notices + [ConversationEnded(id)]
           && a == if d.raises(ConversationEnded(id)) then Raised else Done(closed)
  {
    if m.active.Some? {
      ActiveIsOpen(m);
    }
    hide Safe;
  }

  /** The replies by intent. */
  lemma RepliesAreFixed()
    ensures ResponseTo(Question) == "I heard your question, but I have no way to answer it yet."
    ensures ResponseTo(Command) == "Acknowledged: I will not execute that automatically."
    ensures ResponseTo(IntentType.Memory) == "Noted."
    ensures ResponseTo(Schedule) == "Understood; nothing has been scheduled automatically."
    ensures ResponseTo(Unknown) == "I'm not sure how to help with that yet."
  {
  }

  /** Everything one receive would announce, were no subscriber to raise. */
  function Script(session: nat, user: nat, reply: nat, workflow: Option<string>, d: Delegates): seq<Notice> {
    [MessageReceived(session, user)]
    + if d.parsed.None? then [] else Delegated(session, user, reply, d.parsed.value, workflow, d)
  }

  function Delegated(session: nat, user: nat, reply: nat, intent: Intent, workflow: Option<string>, d: Delegates)
    : seq<Notice>
  {
    [IntentResolved(session, user, intent.name, intent.confidence)]
    + match workflow
      case Some(w) =>
        if d.workflow.OtherException? then []
        else if d.workflow.WorkflowError? then [ResponseGenerated(session, reply)]
        else [WorkflowExecuted(session, user, w), ResponseGenerated(session, reply)]
      case None => [ResponseGenerated(session, reply)]
  }

  /** The script up to the first notice on which a subscriber raises. */
  ghost predicate StopsAtRaise(said: seq<Notice>, script: seq<Notice>, raises: Notice -> bool) {
    && said != [] && said <= script
    && (forall i :: 0 <= i < |said| - 1 ==> !raises(said[i]))
    && (said == script || raises(said[|said| - 1]))
  }

  lemma DelegateSays(m: Manager, s: Session, user: nat, intent: Intent, workflow: Option<string>, d: Delegates)
    returns (said: seq<Notice>)
    ensures var (after, a) := Delegate(m, s, user, intent, workflow, d);
      && after.notices == m.notices + said && after.running == m.running
      && StopsAtRaise(said, Delegated(s.id, user, m.drawn, intent, workflow, d), d.raises)
      && (ResponseGenerated(s.id, m.drawn) in said <==> SmoothDelegation(s, user, intent, workflow, d))
      && a == if SmoothDelegation(s, user, intent, workflow, d) && !d.raises(ResponseGenerated(s.id, m.drawn))
              then Replied(Reply(m, intent, d)) else Raised
  {
    hide ResponseTo, Put, StopsAtRaise;
    var resolved := [IntentResolved(s.id, user, intent.name, intent.confidence)];
    var replied := [ResponseGenerated(s.id, m.drawn)];
    var run := if workflow.Some? then [WorkflowExecuted(s.id, user, workflow.value)] else [];
    said := if d.raises(resolved[0]) then resolved
            else if workflow.None? || d.workflow.WorkflowError? then resolved + replied
            else if d.workflow.OtherException? then resolved
            else if d.raises(run[0]) then resolved + run
            else resolved + run + replied;
    assert StopsAtRaise(said, Delegated(s.id, user, m.drawn, intent, workflow, d), d.raises) by {
      ScriptStops(said, Delegated(s.id, user, m.drawn, intent, workflow, d), d.raises);
    }
  }

  lemma ScriptStops(said: seq<Notice>, script: seq<Notice>, raises: Notice -> bool)
    requires said != [] && |said| <= |script| <= 3
    requires forall i :: 0 <= i < |said| ==> said[i] == script[i]
    requires |said| > 1 ==> !raises(said[0])
    requires |said| > 2 ==> !raises(said[1])
    requires |said| == |script| || raises(said[|said| - 1])
    ensures StopsAtRaise(said, script, raises)
  {
  }

  lemma StopsLater(first: Notice, said: seq<Notice>, script: seq<Notice>, raises: Notice -> bool)
    requires !raises(first) && StopsAtRaise(said, script, raises)
    ensures StopsAtRaise([first] + said, [first] + script, raises)
  {
    var all := [first] + said;
    assert forall i :: 0 < i < |all| ==> all[i] == said[i - 1];
  }

  /** A receive that is not refused: the session s is now u, and `said` has been announced. The
      user's message is always in; the reply is exactly when announcing it was reached, and is
      what the caller gets unless a subscriber raised on it. */
  ghost predicate Received(
    m: Manager, after: Manager, a: Answer, text: string, workflow: Option<string>, d: Delegates, said: seq<Notice>)
  {
    && m.active.Some? && m.active.value in m.sessions.vals && m.active.value in after.sessions.vals
    && var id := m.active.value;
       var s, u := m.sessions.vals[id], after.sessions.vals[id];
       && Binds(m.sessions, after.sessions, id, u) && after.sessions.keys == m.sessions.keys
       && after.active == m.active && after.running == m.running && after.notices == m.notices + said
       && StopsAtRaise(said, Script(id, m.drawn, m.drawn + 1, workflow, d), d.raises)
       && Converses(s, u, m.drawn, text, d, ResponseGenerated(id, m.drawn + 1) in said)
       && a == if ResponseGenerated(id, m.drawn + 1) in said && !d.raises(ResponseGenerated(id, m.drawn + 1))
               then Replied(u.messages[|u.messages| - 1]) else Raised
  }

  /** The messages a receive adds, the state it leaves and the clock readings it takes. */
  ghost predicate Converses(s: Session, u: Session, drawn: nat, text: string, d: Delegates, replied: bool) {
    && u.id == s.id && u.createdAt == s.createdAt && u.metadata == s.metadata && s.messages <= u.messages
    && |u.messages| == |s.messages| + (if replied then 2 else 1)
    && u.messages[|s.messages|] == Message(drawn, User, text, d.clock(1))
    && u.state == (if replied then Waiting else Active)
    && u.updatedAt == (if replied then d.clock(5) else d.clock(2))
    && (replied ==>
          && d.parsed.Some?
          && u.messages[|s.messages| + 1]
             == Message(drawn + 1, Assistant, ResponseTo(d.parsed.value.name), d.clock(3)))
  }

  lemma SessionConverses(m: Manager, s: Session, text: string, workflow: Option<string>, d: Delegates)
    ensures Converses(s, Conversed(m, s, text, workflow, d), m.drawn, text, d, Smooth(s, m, workflow, d))
    ensures Conversed(m, s, text, workflow, d).messages != []
  {
    hide ResponseTo;
  }

  /** receive: refused when not running, for an empty text, and when no session is active. */
  lemma ReceiveEffect(m: Manager, text: string, workflow: Option<string>, d: Delegates) returns (said: seq<Notice>)
    requires Safe(m)
    ensures var (after, a) := Receive(m, text, workflow, d);
      if !m.running then after == m && a == Refused(NotRunning)
      else if text == "" then after == m && a == Refused(InvalidMessage)
      else if m.active.None? then after == m && a == Refused(NoActiveSession)
      else Received(m, after, a, text, workflow, d, said)
  {
    said := [];
    hide ResponseTo, Safe;
    if m.running && text != "" && m.active.Some? {
      said := OpenReceives(m, text, workflow, d);
    }
    hide Received;
  }

  lemma ReceiveBinds(m: Manager, s: Session, text: string, workflow: Option<string>, d: Delegates)
    requires m.running && text != "" && ActiveSession(m) == Some(s) && m.active == Some(s.id)
    ensures var after, u := Receive(m, text, workflow, d).0, Conversed(m, s, text, workflow, d);
      && after.active == m.active && after.sessions.keys == m.sessions.keys
      && Binds(m.sessions, after.sessions, s.id, u)
      && s.id in after.sessions.vals && after.sessions.vals[s.id] == u
  {
    hide ResponseTo, Put, Receive, Conversed;
    ReceiveAppends(m, s, text, workflow, d);
    PutBinds(m.sessions, s.id, Conversed(m, s, text, workflow, d));
  }

  lemma OpenReceives(m: Manager, text: string, workflow: Option<string>, d: Delegates) returns (said: seq<Notice>)
    requires Safe(m) && m.running && text != "" && m.active.Some?
    ensures Received(m, Receive(m, text, workflow, d).0, Receive(m, text, workflow, d).1, text, workflow, d, said)
  {
    ActiveIsOpen(m);
    var s := m.sessions.vals[m.active.value];
    hide Safe, StateTells, Alternates, ResponseTo, Put, Converses, Receive, Conversed, StopsAtRaise, Smooth, Script;
    hide Binds, ActiveSession, Reply, Received;
    said := ReceiveSays(m, s, text, workflow, d);
    ReceiveBinds(m, s, text, workflow, d);
    SessionConverses(m, s, text, workflow, d);
    if Smooth(s, m, workflow, d) {
      ReplyIsLast(m, s, text, workflow, d);
    }
    var (after, a) := Receive(m, text, workflow, d);
    Assembled(m, after, a, text, workflow, d, said, s, Conversed(m, s, text, workflow, d));
  }

  lemma Assembled(
    m: Manager, after: Manager, a: Answer, text: string, workflow: Option<string>, d: Delegates, said: seq<Notice>,
    s: Session, u: Session)
    requires m.active == Some(s.id) && s.id in m.sessions.vals && m.sessions.vals[s.id] == s
    requires s.id in after.sessions.vals && after.sessions.vals[s.id] == u
    requires Binds(m.sessions, after.sessions, s.id, u) && after.sessions.keys == m.sessions.keys
    requires after.active == m.active && after.running == m.running && after.notices == m.notices + said
    requires StopsAtRaise(said, Script(s.id, m.drawn, m.drawn + 1, workflow, d), d.raises)
    requires Converses(s, u, m.drawn, text, d, ResponseGenerated(s.id, m.drawn + 1) in said)
    requires u.messages != []
    requires a == if ResponseGenerated(s.id, m.drawn + 1) in said && !d.raises(ResponseGenerated(s.id, m.drawn + 1))
                  then Replied(u.messages[|u.messages| - 1]) else Raised
    ensures Received(m, after, a, text, workflow, d, said)
  {
    hide Converses, Binds, StopsAtRaise, Script;
  }

  lemma ReplyIsLast(m: Manager, s: Session, text: string, workflow: Option<string>, d: Delegates)
    requires Smooth(s, m, workflow, d)
    ensures var u := Conversed(m, s, text, workflow, d);
      u.messages[|u.messages| - 1] == Reply(m.(drawn := m.drawn + 1), d.parsed.value, d)
  {
    hide ResponseTo;
  }

  lemma ReceiveSays(m: Manager, s: Session, text: string, workflow: Option<string>, d: Delegates)
    returns (said: seq<Notice>)
    requires m.running && text != "" && ActiveSession(m) == Some(s)
    ensures var (after, a) := Receive(m, text, workflow, d);
      && after.notices == m.notices + said && after.running == m.running
      && StopsAtRaise(said, Script(s.id, m.drawn, m.drawn + 1, workflow, d), d.raises)
      && (ResponseGenerated(s.id, m.drawn + 1) in said <==> Smooth(s, m, workflow, d))
      && a == if Smooth(s, m, workflow, d) && !d.raises(ResponseGenerated(s.id, m.drawn + 1))
              then Replied(Reply(m.(drawn := m.drawn + 1), d.parsed.value, d)) else Raised
  {
    hide ResponseTo, Put, Delegate, StopsAtRaise, SmoothDelegation, Delegated, ActiveSession, Heard;
    var n := MessageReceived(s.id, m.drawn);
    said := [n];
    if d.parsed.None? || d.raises(n) {
      StopsAtOnce(n, Script(s.id, m.drawn, m.drawn + 1, workflow, d), d.raises);
    } else {
      var heard := Heard(m, s, text, d);
      var taken := Announce(Store(m.(drawn := m.drawn + 1), heard), n);
      HeardIsTheSession(m, s, text, d);
      var more := DelegateSays(taken, heard, m.drawn, d.parsed.value, workflow, d);
      StopsLater(n, more, Delegated(s.id, m.drawn, m.drawn + 1, d.parsed.value, workflow, d), d.raises);
      SameSession(s, heard, m.drawn, d.parsed.value, workflow, d);
      said := [n] + more;
      assert m.notices + [n] + more == m.notices + ([n] + more);
    }
  }

  lemma HeardIsTheSession(m: Manager, s: Session, text: string, d: Delegates)
    ensures Heard(m, s, text, d).id == s.id
  {
  }

  lemma SameSession(s: Session, t: Session, user: nat, intent: Intent, workflow: Option<string>, d: Delegates)
    requires s.id == t.id
    ensures SmoothDelegation(s, user, intent, workflow, d) == SmoothDelegation(t, user, intent, workflow, d)
  {
  }

  lemma StopsAtOnce(n: Notice, script: seq<Notice>, raises: Notice -> bool)
    requires script != [] && script[0] == n && (raises(n) || |script| == 1)
    ensures StopsAtRaise([n], script, raises)
  {
  }
}

/** The manager itself: each stored snapshot is visible before the next delegate runs. */
module ConversationManagers {
  import opened Wrappers
  import opened Dicts
  import opened Data
  import opened Intents
  import opened Conversations

  class ConversationManager {
    var sessions: Dict<nat, Session>
    var active: Option<nat>
    var running: bool
    var drawn: nat
    var notices: seq<Notice>

    ghost function State(): Manager
      reads this
    {
      Manager(sessions, active, running, drawn, notices)
    }

    ghost predicate Valid()
      reads this
    {
      Safe(State())
    }

    constructor (drawn: nat)
      ensures Valid() && State() == Manager(Empty(), None, false, drawn, [])
    {
      sessions, active, running, this.drawn, notices := Empty(), None, false, drawn, [];
    }

    method Publish(n: Notice, d: Delegates) returns (raised: bool)
      modifies this`notices
      ensures notices == old(notices) + [n] && raised == d.raises(n)
    {
      notices := notices + [n];
      raised := d.raises(n);
    }

    method RequireActiveSession() returns (s: Option<Session>)
      requires Valid()
      ensures s == ActiveSession(State())
    {
      if active.None? {
        return None;
      }
      return Some(sessions.vals[active.value]);
    }

    method StartSession(metadata: Attributes, d: Delegates) returns (a: Answer)
      requires Valid()
      modifies this
      ensures Valid() && Evolves(old(State()), State())
      ensures (State(), a) == Conversations.StartSession(old(State()), metadata, d)
    {
      hide Safe, Evolves;
      StartIsSafe(State(), metadata, d);
      if active.Some? {
        return Refused(SessionExists);
      }
      var s := Session(drawn, d.clock(0), d.clock(1), New, metadata, []);
      drawn := drawn + 1;
      sessions := Put(sessions, s.id, s);
      active := Some(s.id);
      var raised := Publish(ConversationStarted(s.id), d);
      return if raised then Raised else Done(s);
    }

    method EndSession(d: Delegates) returns (a: Answer)
      requires Valid()
      modifies this
      ensures Valid() && Evolves(old(State()), State())
      ensures (State(), a) == Conversations.EndSession(old(State()), d)
    {
      hide Safe, Evolves;
      EndIsSafe(State(), d);
      var s := RequireActiveSession();
      if s.None? {
        return Refused(NoActiveSession);
      }
      var closed := s.value.(state := Closed, updatedAt := d.clock(0));
      sessions := Put(sessions, closed.id, closed);
      active := None;
      var raised := Publish(ConversationEnded(closed.id), d);
      return if raised then Raised else Done(closed);
    }

    method History(id: Option<nat>) returns (r: Result<seq<Message>, ConversationError>)
      requires Valid()
      ensures match id
        case Some(k) =>
          r == if k in sessions.vals then Ok(sessions.vals[k].messages) else Err(SessionNotFound)
        case None =>
          (r.Ok? <==> active.Some?) && (r.Err? ==> r == Err(NoActiveSession))
          && (r.Ok? ==> active.value in sessions.vals && sessions.vals[active.value].state != Closed
                        && r.value == sessions.vals[active.value].messages)
    {
      match id
      case Some(k) =>
        if k !in sessions.vals {
          return Err(SessionNotFound);
        }
        return Ok(sessions.vals[k].messages);
      case None =>
        var s := RequireActiveSession();
        if s.None? {
          return Err(NoActiveSession);
        }
        ActiveIsOpen(State());
        return Ok(s.value.messages);
    }

    method AppendMessage(s: Session, message: Message, now: int) returns (updated: Session)
      modifies this`sessions
      ensures updated == s.(messages := s.messages + [message], updatedAt := now)
      ensures sessions == Put(old(sessions), s.id, updated)
    {
      updated := s.(messages := s.messages + [message], updatedAt := now);
      sessions := Put(sessions, updated.id, updated);
    }

    method Transition(s: Session, state: SessionState, now: int) returns (updated: Session)
      modifies this`sessions
      ensures updated == s.(state := state, updatedAt := now) && sessions == Put(old(sessions), s.id, updated)
    {
      updated := s.(state := state, updatedAt := now);
      sessions := Put(sessions, updated.id, updated);
    }

    method Receive(text: string, workflow: Option<string>, d: Delegates) returns (a: Answer)
      requires Valid()
      modifies this
      ensures Valid() && Evolves(old(State()), State())
      ensures (State(), a) == Conversations.Receive(old(State()), text, workflow, d)
    {
      hide Safe, Evolves, ResponseTo, Conversations.Delegate, Put;
      ReceiveIsSafe(State(), text, workflow, d);
      if !running {
        return Refused(NotRunning);
      }
      if text == "" {
        return Refused(InvalidMessage);
      }
      var found := RequireActiveSession();
      if found.None? {
        return Refused(NoActiveSession);
      }
      var listening := Transition(found.value, Active, d.clock(0));
      var user := Message(drawn, User, text, d.clock(1));
      drawn := drawn + 1;
      var s := AppendMessage(listening, user, d.clock(2));
      PutTwice(old(sessions), s.id, listening, s);
      var raised := Publish(MessageReceived(s.id, user.id), d);
      if raised || d.parsed.None? {
        return Raised;
      }
      a := Delegate(s, user.id, d.parsed.value, workflow, d);
    }

    method Delegate(s: Session, user: nat, intent: Intent, workflow: Option<string>, d: Delegates) returns (a: Answer)
      modifies this
      ensures (State(), a) == Conversations.Delegate(old(State()), s, user, intent, workflow, d)
    {
      hide ResponseTo, Conversations.Respond;
      var raised := Publish(IntentResolved(s.id, user, intent.name, intent.confidence), d);
      if raised {
        return Raised;
      }
      if workflow.Some? {
        match d.workflow
        case WorkflowError =>
        case OtherException => return Raised;
        case Executed =>
          raised := Publish(WorkflowExecuted(s.id, user, workflow.value), d);
          if raised {
            return Raised;
          }
      }
      a := Respond(s, intent, d);
    }

    method Respond(s: Session, intent: Intent, d: Delegates) returns (a: Answer)
      modifies this
      ensures (State(), a) == Conversations.Respond(old(State()), s, intent, d)
    {
      hide ResponseTo;
      var reply := Message(drawn, Assistant, ResponseTo(intent.name), d.clock(3));
      drawn := drawn + 1;
      var appended := AppendMessage(s, reply, d.clock(4));
      var answered := Transition(appended, Waiting, d.clock(5));
      PutTwice(old(sessions), s.id, appended, answered);
      var raised := Publish(ResponseGenerated(s.id, reply.id), d);
      return if raised then Raised else Replied(reply);
    }
  }
}
