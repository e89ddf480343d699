/** Durability: storage holds the index as of the last save that succeeded. */
module Durability {
  import opened Wrappers
  import opened Seqs
  import opened Dicts
  import opened Data
  import opened Memories

  /** The call changes the index and hands it to storage. */
  predicate Writes(m: Memory, c: Call) {
    match c.op
    case PutRecord(record) => record.key != "" && record.key !in m.index.vals
    case DeleteKey(key) => LiveRecord(m.index, key, c.now).Some?
    case UpdateKey(key, _, _) => LiveRecord(m.index, key, c.now).Some?
    case Purge => exists k :: k in m.index.vals && m.index.vals[k].IsExpired(c.now)
    case _ => false
  }

  lemma StepIsDurable(m: Memory, c: Call)
    requires KeyedBy(m.index, RecordKey())
    ensures KeyedBy(Step(m, c).0.index, RecordKey())
    ensures Step(m, c).0.storage == if Writes(m, c) && c.saves then Values(Step(m, c).0.index) else m.storage
    ensures !Writes(m, c) ==> Step(m, c).0 == m
    ensures Writes(m, c) && !c.saves ==> Step(m, c).1 == Failed(SaveFailed) && Step(m, c).0.notices == m.notices
  {
    if c.op.Purge? {
      FilterMembers(ExpiredAt(c.now), Values(m.index));
      forall k | k in m.index.vals && m.index.vals[k].IsExpired(c.now)
        ensures m.index.vals[k] in Filter(ExpiredAt(c.now), Values(m.index))
      {
        MemberOfValues(m.index, m.index.vals[k]);
      }
      var expired := Filter(ExpiredAt(c.now), Values(m.index));
      if expired != [] {
        assert expired[0] in expired;
        MemberOfValues(m.index, expired[0]);
      }
    }
  }

  function RunAll(m: Memory, calls: seq<Call>): Memory
    decreases |calls|
  {
    if calls == [] then m else Step(RunAll(m, calls[..|calls| - 1]), calls[|calls| - 1]).0
  }

  /** The index right after the last call that wrote and saved; the first index if none did. */
  function LastSaved(m: Memory, calls: seq<Call>): Index
    decreases |calls|
  {
    if calls == [] then m.index
    else
      var front, c := calls[..|calls| - 1], calls[|calls| - 1];
      if Writes(RunAll(m, front), c) && c.saves then RunAll(m, calls).index else LastSaved(m, front)
  }

  /** Whatever the calls and whichever saves fail, a restarted service finds exactly the index
      of the last successful save, in the same order. */
  lemma {:induction false} RestartRebuildsLastSaved(m: Memory, calls: seq<Call>)
    requires KeyedBy(m.index, RecordKey()) && m.storage == Values(m.index)
    ensures KeyedBy(RunAll(m, calls).index, RecordKey()) && KeyedBy(LastSaved(m, calls), RecordKey())
    ensures RunAll(m, calls).storage == Values(LastSaved(m, calls))
    ensures Load(RunAll(m, calls).storage).index == LastSaved(m, calls)
    decreases |calls|
  {
    hide Step, Writes;
    if calls != [] {
      RestartRebuildsLastSaved(m, calls[..|calls| - 1]);
      StepIsDurable(RunAll(m, calls[..|calls| - 1]), calls[|calls| - 1]);
    }
    FromOwnValues(LastSaved(m, calls), RecordKey());
  }

  /** One successful save realigns storage with everything the index has gathered. */
  lemma OneSaveRealigns(m: Memory, calls: seq<Call>, c: Call)
    requires KeyedBy(m.index, RecordKey()) && m.storage == Values(m.index)
    requires c.saves && Writes(RunAll(m, calls), c)
    ensures var after := Step(RunAll(m, calls), c).0; Load(after.storage).index == after.index
  {
    RestartRebuildsLastSaved(m, calls);
    StepIsDurable(RunAll(m, calls), c);
    FromOwnValues(Step(RunAll(m, calls), c).0.index, RecordKey());
  }
}
