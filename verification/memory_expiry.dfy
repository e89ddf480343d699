/** Lazy expiry: what callers see is a dictionary that drops each record as it expires. */
module LazyExpiry {
  import opened Wrappers
  import opened Seqs
  import opened Dicts
  import opened Data
  import opened Memories

  /** The eager dictionary at an instant. */
  function Advance(e: Index, now: int): Index {
    Where(e, LiveAt(now))
  }

  function Saving(c: Call, index: Index, before: Index, answer: Answer): (Index, Answer) {
    (index, if c.saves then answer else Failed(SaveFailed))
  }

  /** The specification: an ordinary dictionary with no expiry test in any operation; it drops
      what has expired before each call. It has nothing to purge. */
  function EagerStep(was: Index, c: Call): (Index, Answer) {
    var e := Advance(was, c.now);
    match c.op
    case PutRecord(record) =>
      if record.key == "" then (e, Failed(EmptyKey))
      else if record.key in e.vals then (e, Failed(Duplicate))
      else Saving(c, Put(e, record.key, record), e, Done)
    case GetRecord(key) => (e, if key in e.vals then Found(e.vals[key]) else Failed(NotFound))
    case Exists(key) => (e, Present(key in e.vals))
    case ListRecords => (e, Records(Values(e)))
    case Search(query, lower) => (e, Records(Filter(Matches(query, lower), Values(e))))
    case DeleteKey(key) =>
      if key in e.vals then Saving(c, Del(e, key), e, Done) else (e, Failed(NotFound))
    case UpdateKey(key, value, stamp) =>
      if key in e.vals then
        var r := e.vals[key];
        var updated :=
          MemoryRecord(r.key, value, r.id, r.createdAt, stamp, r.expiresAt, r.version + 1);
        Saving(c, Put(e, key, updated), e, Found(updated))
      else (e, Failed(NotFound))
    case Purge => (e, Count(0))
  }

  /** A put of a key whose record has expired but has not been purged. */
  predicate Refused(m: Memory, c: Call) {
    && c.op.PutRecord? && c.op.record.key != ""
    && c.op.record.key in m.index.vals && m.index.vals[c.op.record.key].IsExpired(c.now)
  }

  /** What a purge reports is about the lazy representation; everything else is observable. */
  function Seen(c: Call, a: Answer): Answer {
    if c.op.Purge? then Done else a
  }

  /** At an instant the lazy index shows what the eager dictionary holds, order included. */
  ghost predicate Shows(m: Memory, e: Index, now: int) {
    Where(m.index, LiveAt(now)) == Where(e, LiveAt(now))
  }

  lemma LaterSubsumes(d: Index, now: int, later: int)
    requires now <= later
    ensures Where(Where(d, LiveAt(now)), LiveAt(later)) == Where(d, LiveAt(later))
  {
    WhereTwice(d, LiveAt(now), LiveAt(later), LiveAt(later));
  }

  lemma ShowsLater(m: Memory, e: Index, now: int, later: int)
    requires Shows(m, e, now) && now <= later
    ensures Shows(m, e, later)
  {
    LaterSubsumes(m.index, now, later);
    LaterSubsumes(e, now, later);
  }

  /** Where a dictionary shows another, their live lookups agree. */
  lemma SameLookups(m: Memory, e: Index, now: int, key: string)
    requires Shows(m, e, now)
    ensures LiveRecord(m.index, key, now) == Lookup(Advance(e, now), key)
    ensures LiveRecords(m.index, now) == Values(Advance(e, now))
  {
    assert key in Where(m.index, LiveAt(now)).vals <==> key in m.index.vals && LiveAt(now)(m.index.vals[key]);
    ValuesWhere(m.index, LiveAt(now));
  }

  lemma ShowsAdvanced(m: Memory, e: Index, now: int)
    requires Shows(m, e, now)
    ensures Shows(m, Advance(e, now), now)
  {
    LaterSubsumes(e, now, now);
  }

  lemma ShowsPurged(m: Memory, e: Index, now: int, m': Memory)
    requires Shows(m, e, now) && (m'.index == m.index || m'.index == Where(m.index, LiveAt(now)))
    ensures Shows(m', Advance(e, now), now)
  {
    LaterSubsumes(m.index, now, now);
    LaterSubsumes(e, now, now);
  }

  /** Mutating both sides alike keeps them alike. */
  lemma ShowsAfterDelete(m: Memory, e: Index, now: int, key: string, m': Memory)
    requires Shows(m, e, now) && m'.index == Del(m.index, key)
    ensures Shows(m', Del(Advance(e, now), key), now)
  {
    WhereDel(m.index, LiveAt(now), key);
    WhereDel(Advance(e, now), LiveAt(now), key);
    LaterSubsumes(e, now, now);
  }

  lemma ShowsAfterPut(m: Memory, e: Index, now: int, record: MemoryRecord, m': Memory)
    requires Shows(m, e, now) && record.key !in m.index.vals
    requires m'.index == Put(m.index, record.key, record)
    ensures record.key !in Advance(e, now).vals
    ensures Shows(m', Put(Advance(e, now), record.key, record), now)
  {
    SameLookups(m, e, now, record.key);
    WherePutFresh(m.index, LiveAt(now), record.key, record);
    WherePutFresh(Advance(e, now), LiveAt(now), record.key, record);
    LaterSubsumes(e, now, now);
  }

  lemma ShowsAfterUpdate(m: Memory, e: Index, now: int, key: string, updated: MemoryRecord, m': Memory)
    requires Shows(m, e, now) && LiveRecord(m.index, key, now).Some? && !updated.IsExpired(now)
    requires m'.index == Put(m.index, key, updated)
    ensures Shows(m', Put(Advance(e, now), key, updated), now)
  {
    SameLookups(m, e, now, key);
    LaterSubsumes(e, now, now);
    assert key in Advance(e, now).vals && LiveAt(now)(Advance(e, now).vals[key]);
    WherePutOver(m.index, LiveAt(now), key, updated);
    WherePutOver(Advance(e, now), LiveAt(now), key, updated);
  }

  /** One call: a refused put changes nothing and reports a duplicate; every other call
      answers as the eager dictionary does. */
  lemma StepRefines(m: Memory, e: Index, c: Call, m': Memory, a: Answer, e': Index, b: Answer)
    requires Shows(m, e, c.now)
    requires (m', a) == Step(m, c) && (e', b) == EagerStep(e, c)
    ensures Refused(m, c) ==> a == Failed(Duplicate) && m' == m
    ensures !Refused(m, c) ==> Seen(c, a) == Seen(c, b) && Shows(m', e', c.now)
  {
    hide Shows, Where, Dicts.Put, Del, Filter, Values, LiveRecords;
    ShowsAdvanced(m, e, c.now);
    match c.op
    case PutRecord(record) =>
      SameLookups(m, e, c.now, record.key);
      if record.key !in m.index.vals && record.key != "" {
        ShowsAfterPut(m, e, c.now, record, m');
      }
    case GetRecord(key) => SameLookups(m, e, c.now, key);
    case Exists(key) => SameLookups(m, e, c.now, key);
    case ListRecords => SameLookups(m, e, c.now, "");
    case Search(_, _) => SameLookups(m, e, c.now, "");
    case DeleteKey(key) =>
      SameLookups(m, e, c.now, key);
      if LiveRecord(m.index, key, c.now).Some? {
        ShowsAfterDelete(m, e, c.now, key, m');
      }
    case UpdateKey(key, value, stamp) =>
      SameLookups(m, e, c.now, key);
      if LiveRecord(m.index, key, c.now).Some? {
        ShowsAfterUpdate(m, e, c.now, key, Touch(m.index.vals[key], value, stamp), m');
      }
    case Purge => ShowsPurged(m, e, c.now, m');
  }

  // ---- Whole runs ------------------------------------------------------------------------

  ghost predicate Chronological(from: int, calls: seq<Call>) {
    && (forall i :: 0 <= i < |calls| ==> from <= calls[i].now)
    && (forall i, j :: 0 <= i < j < |calls| ==> calls[i].now <= calls[j].now)
  }

  /** The calls of a run that were not refused. */
  function Accepted(m: Memory, calls: seq<Call>): seq<Call>
    decreases |calls|
  {
    if calls == [] then []
    else (if Refused(m, calls[0]) then [] else [calls[0]]) + Accepted(Step(m, calls[0]).0, calls[1..])
  }

  /** What the lazy service answered to them. */
  function AcceptedAnswers(m: Memory, calls: seq<Call>): seq<Answer>
    decreases |calls|
  {
    if calls == [] then []
    else
      (if Refused(m, calls[0]) then [] else [Seen(calls[0], Step(m, calls[0]).1)])
      + AcceptedAnswers(Step(m, calls[0]).0, calls[1..])
  }

  function EagerAnswers(e: Index, calls: seq<Call>): seq<Answer>
    decreases |calls|
  {
    if calls == [] then []
    else [Seen(calls[0], EagerStep(e, calls[0]).1)] + EagerAnswers(EagerStep(e, calls[0]).0, calls[1..])
  }

  /** Over every run with a nondecreasing clock and any pattern of failing saves, the lazy
      service answers its accepted calls exactly as the eager dictionary answers them. */
  lemma {:induction false} LazyRefinesEager(m: Memory, e: Index, from: int, calls: seq<Call>)
    requires Shows(m, e, from) && Chronological(from, calls)
    ensures AcceptedAnswers(m, calls) == EagerAnswers(e, Accepted(m, calls))
    decreases |calls|
  {
    hide Shows, Step, EagerStep, Refused, Seen;
    if calls != [] {
      var c := calls[0];
      var (m', a) := Step(m, c);
      var (e', b) := EagerStep(e, c);
      ShowsLater(m, e, from, c.now);
      StepRefines(m, e, c, m', a, e', b);
      if Refused(m, c) {
        RefusedChangesNothing(m, c);
        LazyRefinesEager(m', e, c.now, calls[1..]);
        assert Accepted(m, calls) == Accepted(m', calls[1..]);
      } else {
        LazyRefinesEager(m', e', c.now, calls[1..]);
        var rest := Accepted(m', calls[1..]);
        assert ([c] + rest)[1..] == rest;
      }
    }
  }

  lemma RefusedChangesNothing(m: Memory, c: Call)
    requires Refused(m, c)
    ensures Step(m, c) == (m, Failed(Duplicate))
  {
  }

  /** A run with no refused put answers every call as the eager dictionary does, from the
      very index the service loaded. */
  lemma UnrefusedRunIsEager(m: Memory, from: int, calls: seq<Call>)
    requires Chronological(from, calls) && Accepted(m, calls) == calls
    ensures AcceptedAnswers(m, calls) == EagerAnswers(m.index, calls)
  {
    LazyRefinesEager(m, m.index, from, calls);
  }

  /** A put differs from the eager dictionary's exactly when the key's record has expired
      and has not been purged. */
  lemma PutDiffersIffStale(m: Memory, c: Call)
    requires c.op.PutRecord?
    ensures Step(m, c).1 != EagerStep(m.index, c).1 <==> Refused(m, c)
  {
    var key := c.op.record.key;
    assert key in Advance(m.index, c.now).vals <==> LiveRecord(m.index, key, c.now).Some?;
  }

  /** The call right after a purge: the same answer, unless it is a put of a key removed. */
  lemma PurgeThenOneCall(m: Memory, purge: Call, c: Call)
    requires purge.op.Purge? && purge.now <= c.now
    ensures !Refused(m, c) ==> Seen(c, Step(Step(m, purge).0, c).1) == Seen(c, Step(m, c).1)
    ensures Refused(Step(m, purge).0, c) ==> Refused(m, c) && !m.index.vals[c.op.record.key].IsExpired(purge.now)
  {
    var p, e := Step(m, purge).0, m.index;
    assert p.index == m.index || p.index == Where(m.index, LiveAt(purge.now));
    ShowsLater(m, e, purge.now, c.now);
    LaterSubsumes(m.index, purge.now, purge.now);
    assert Shows(p, e, purge.now);
    ShowsLater(p, e, purge.now, c.now);
    PurgedIndex(m, purge);
    BothRefine(m, p, e, c);
  }

  lemma PurgedIndex(m: Memory, purge: Call)
    requires purge.op.Purge?
    ensures forall k :: k in Step(m, purge).0.index.vals <==>
      k in m.index.vals && !m.index.vals[k].IsExpired(purge.now)
    ensures forall k :: k in Step(m, purge).0.index.vals ==> Step(m, purge).0.index.vals[k] == m.index.vals[k]
  {
    FilterMembers(ExpiredAt(purge.now), Values(m.index));
    forall k | k in m.index.vals
      ensures Step(m, purge).0 == m ==> !m.index.vals[k].IsExpired(purge.now)
    {
      MemberOfValues(m.index, m.index.vals[k]);
    }
  }

  lemma BothRefine(m: Memory, p: Memory, e: Index, c: Call)
    requires Shows(m, e, c.now) && Shows(p, e, c.now)
    requires forall k :: k in p.index.vals ==> k in m.index.vals && p.index.vals[k] == m.index.vals[k]
    ensures !Refused(m, c) ==> Seen(c, Step(p, c).1) == Seen(c, Step(m, c).1)
  {
    hide Step, EagerStep, Shows;
    var (m', a) := Step(m, c);
    var (p', b) := Step(p, c);
    var (e', d) := EagerStep(e, c);
    StepRefines(m, e, c, m', a, e', d);
    StepRefines(p, e, c, p', b, e', d);
  }

  // ---- Purging is invisible ------------------------------------------------------------------

  function Answers(m: Memory, calls: seq<Call>): seq<Answer>
    decreases |calls|
  {
    if calls == [] then [] else [Seen(calls[0], Step(m, calls[0]).1)] + Answers(Step(m, calls[0]).0, calls[1..])
  }

  /** The keys a purge removes. */
  function ExpiredKeys(index: Index, now: int): set<string> {
    set k | k in index.vals && index.vals[k].IsExpired(now)
  }

  predicate PutsOneOf(keys: set<string>, c: Call) {
    c.op.PutRecord? && c.op.record.key != "" && c.op.record.key in keys
  }

  /** Some call puts one of the keys before any call purges. */
  predicate PutBeforePurge(keys: set<string>, calls: seq<Call>)
    decreases |calls|
  {
    calls != [] && (PutsOneOf(keys, calls[0]) || (!calls[0].op.Purge? && PutBeforePurge(keys, calls[1..])))
  }

  /** p is m without the stale keys, which have all expired. */
  ghost predicate Without(m: Memory, p: Memory, stale: set<string>, now: int) {
    && Shows(m, p.index, now)
    && (forall k :: k in m.index.vals <==> k in p.index.vals || k in stale)
    && (forall k :: k in stale ==> k !in p.index.vals)
  }

  lemma PurgeLeavesLive(m: Memory, c: Call)
    requires c.op.Purge?
    ensures Step(m, c).0.index == Where(m.index, LiveAt(c.now))
  {
    hide Where, Filter, Values;
    if Filter(ExpiredAt(c.now), Values(m.index)) == [] {
      NothingExpired(m.index, c.now);
    }
  }

  lemma SameLive(m: Memory, p: Memory, now: int, key: string)
    requires Shows(m, p.index, now)
    ensures LiveRecord(m.index, key, now) == LiveRecord(p.index, key, now)
    ensures LiveRecords(m.index, now) == LiveRecords(p.index, now)
  {
    hide Where;
    SameLookups(m, p.index, now, key);
    SameLookups(p, p.index, now, key);
  }

  lemma StaleIsExpired(m: Memory, p: Memory, stale: set<string>, now: int, k: string)
    requires Without(m, p, stale, now) && k in stale
    ensures LiveRecord(m.index, k, now).None?
  {
    SameLive(m, p, now, k);
    hide Where;
  }

  lemma BothPut(m: Memory, p: Memory, stale: set<string>, now: int, r: MemoryRecord, m': Memory, p': Memory)
    requires Without(m, p, stale, now) && r.key !in m.index.vals
    requires m'.index == Put(m.index, r.key, r) && p'.index == Put(p.index, r.key, r)
    ensures Without(m', p', stale, now)
  {
    hide Where, Filter;
    WherePutFresh(m.index, LiveAt(now), r.key, r);
    WherePutFresh(p.index, LiveAt(now), r.key, r);
  }

  lemma BothDelete(m: Memory, p: Memory, stale: set<string>, now: int, key: string, m': Memory, p': Memory)
    requires Without(m, p, stale, now) && key !in stale
    requires m'.index == Del(m.index, key) && p'.index == Del(p.index, key)
    ensures Without(m', p', stale, now)
  {
    hide Where, Filter;
    WhereDel(m.index, LiveAt(now), key);
    WhereDel(p.index, LiveAt(now), key);
  }

  lemma BothUpdate(
    m: Memory, p: Memory, stale: set<string>, now: int, updated: MemoryRecord, key: string, m': Memory, p': Memory)
    requires Without(m, p, stale, now) && !updated.IsExpired(now)
    requires LiveRecord(m.index, key, now).Some? && LiveRecord(p.index, key, now).Some?
    requires m'.index == Put(m.index, key, updated) && p'.index == Put(p.index, key, updated)
    ensures Without(m', p', stale, now)
  {
    hide Where, Filter;
    WherePutOver(m.index, LiveAt(now), key, updated);
    WherePutOver(p.index, LiveAt(now), key, updated);
  }

  /** Any call but a purge or a put of a stale key: the same answer, and still the same but for
      the stale keys. */
  lemma StepWithout(m: Memory, p: Memory, stale: set<string>, c: Call)
    requires Without(m, p, stale, c.now) && !c.op.Purge? && !PutsOneOf(stale, c)
    ensures Step(m, c).1 == Step(p, c).1 && Without(Step(m, c).0, Step(p, c).0, stale, c.now)
  {
    hide Shows, Where, Dicts.Put, Del, Filter, Values, LiveRecords, LiveRecord;
    var (m', a) := Step(m, c);
    var (p', b) := Step(p, c);
    match c.op
    case PutRecord(record) =>
      if record.key !in m.index.vals && record.key != "" {
        BothPut(m, p, stale, c.now, record, m', p');
      }
    case GetRecord(key) => SameLive(m, p, c.now, key);
    case Exists(key) => SameLive(m, p, c.now, key);
    case ListRecords => SameLive(m, p, c.now, "");
    case Search(_, _) => SameLive(m, p, c.now, "");
    case DeleteKey(key) =>
      SameLive(m, p, c.now, key);
      if LiveRecord(m.index, key, c.now).Some? {
        if key in stale {
          StaleIsExpired(m, p, stale, c.now, key);
        }
        BothDelete(m, p, stale, c.now, key, m', p');
      }
    case UpdateKey(key, value, stamp) =>
      SameLive(m, p, c.now, key);
      if LiveRecord(m.index, key, c.now).Some? {
        var found := LiveRecord(m.index, key, c.now).value;
        LiveIsUnexpired(m.index, key, c.now);
        BothUpdate(m, p, stale, c.now, Touch(found, value, stamp), key, m', p');
      }
    case Purge =>
  }

  lemma LiveIsUnexpired(index: Index, key: string, now: int)
    requires LiveRecord(index, key, now).Some?
    ensures !LiveRecord(index, key, now).value.IsExpired(now)
  {
  }

  lemma {:induction false} SameIndexSameAnswers(m: Memory, p: Memory, calls: seq<Call>)
    requires m.index == p.index
    ensures Answers(m, calls) == Answers(p, calls)
    decreases |calls|
  {
    if calls != [] {
      StepReadsTheIndex(m, p, calls[0]);
      hide Step;
      SameIndexSameAnswers(Step(m, calls[0]).0, Step(p, calls[0]).0, calls[1..]);
    }
  }

  lemma StepReadsTheIndex(m: Memory, p: Memory, c: Call)
    requires m.index == p.index
    ensures Step(m, c).1 == Step(p, c).1 && Step(m, c).0.index == Step(p, c).0.index
  {
    hide Filter, Where, Values, Put, Del, LiveRecord, LiveRecords, Touch, Map;
  }

  lemma {:induction false} RunWithout(m: Memory, p: Memory, stale: set<string>, from: int, calls: seq<Call>)
    requires Without(m, p, stale, from) && Chronological(from, calls)
    ensures Answers(m, calls) == Answers(p, calls) <==> !PutBeforePurge(stale, calls)
    decreases |calls|
  {
    hide Step, Shows, Where, LiveRecord;
    if calls != [] {
      var c := calls[0];
      ShowsLater(m, p.index, from, c.now);
      var (m', a) := Step(m, c);
      var (p', b) := Step(p, c);
      if PutsOneOf(stale, c) {
        PutAnswersDiffer(m, p, c);
        assert Answers(m, calls)[0] != Answers(p, calls)[0];
      } else if c.op.Purge? {
        PurgeLeavesLive(m, c);
        PurgeLeavesLive(p, c);
        assert m'.index == p'.index by {
          SameWhenPurged(m, p, c.now);
        }
        SameIndexSameAnswers(m', p', calls[1..]);
      } else {
        StepWithout(m, p, stale, c);
        RunWithout(m', p', stale, c.now, calls[1..]);
        assert Answers(m, calls)[1..] == Answers(m', calls[1..]);
        assert Answers(p, calls)[1..] == Answers(p', calls[1..]);
      }
    }
  }

  lemma SameWhenPurged(m: Memory, p: Memory, now: int)
    requires Shows(m, p.index, now)
    ensures Where(m.index, LiveAt(now)) == Where(p.index, LiveAt(now))
  {
  }

  lemma PutAnswersDiffer(m: Memory, p: Memory, c: Call)
    requires c.op.PutRecord? && c.op.record.key != ""
    requires c.op.record.key in m.index.vals && c.op.record.key !in p.index.vals
    ensures Seen(c, Step(m, c).1) != Seen(c, Step(p, c).1)
  {
    hide Values, Put;
  }

  /** Over every later run with a nondecreasing clock, purging changes no answer at all, exactly
      unless some call puts a key the purge removed before the next purge would have removed it. */
  lemma PurgeIsInvisible(m: Memory, purge: Call, calls: seq<Call>)
    requires purge.op.Purge? && Chronological(purge.now, calls)
    ensures Answers(Step(m, purge).0, calls) == Answers(m, calls) <==>
      !PutBeforePurge(ExpiredKeys(m.index, purge.now), calls)
  {
    var p, stale := Step(m, purge).0, ExpiredKeys(m.index, purge.now);
    PurgeLeavesLive(m, purge);
    LaterSubsumes(m.index, purge.now, purge.now);
    assert Shows(m, p.index, purge.now);
    hide Step, Shows;
    assert Without(m, p, stale, purge.now);
    RunWithout(m, p, stale, purge.now, calls);
  }
}
