/** The expiry-aware memory service. */

module Memories {
  import opened Wrappers
  import opened Seqs
  import opened Dicts
  import opened Data

  type Index = Dict<string, MemoryRecord>

  datatype MemoryError = EmptyKey | Duplicate | NotFound | SaveFailed

  datatype Operation = Created | Updated | Deleted | Purged

  datatype Notice = MemoryUpdated(operation: Operation, key: string, version: int)

  /** The in-memory index, what storage last accepted, and what has been published. */
  datatype Memory = Memory(index: Index, storage: seq<MemoryRecord>, notices: seq<Notice>)

  function LiveAt(now: int): MemoryRecord -> bool {
    (r: MemoryRecord) => !r.IsExpired(now)
  }

  /** _live_record: an expired record reads as absent. */
  function LiveRecord(index: Index, key: string, now: int): Option<MemoryRecord> {
    if key in index.vals && !index.vals[key].IsExpired(now) then Some(index.vals[key]) else None
  }

  function LiveRecords(index: Index, now: int): seq<MemoryRecord> {
    Filter(LiveAt(now), Values(index))
  }

  predicate Contains(s: string, needle: string) {
    exists i :: 0 <= i <= |s| && needle <= s[i..]
  }

  /** `lower` is str.lower, whatever Unicode makes of it. */
  function Matches(query: string, lower: string -> string): MemoryRecord -> bool {
    (r: MemoryRecord) => Contains(lower(r.key), lower(query))
  }

  function Touch(r: MemoryRecord, value: Value, stamp: int): MemoryRecord {
    r.(value := value, updatedAt := stamp, version := r.version + 1)
  }

  function Notify(operation: Operation, r: MemoryRecord): Notice {
    MemoryUpdated(operation, r.key, r.version)
  }

  function PurgeNotice(): MemoryRecord -> Notice {
    (r: MemoryRecord) => Notify(Purged, r)
  }

  function ExpiredAt(now: int): MemoryRecord -> bool {
    (r: MemoryRecord) => r.IsExpired(now)
  }

  // ---- One call ------------------------------------------------------------------

  datatype Op =
    | PutRecord(record: MemoryRecord)
    | GetRecord(key: string)
    | Exists(key: string)
    | ListRecords
    | Search(query: string, lower: string -> string)
    | DeleteKey(key: string)
    | UpdateKey(key: string, value: Value, stamp: int)
    | Purge

  /** A call, the clock reading it works with, and whether storage would accept a save. */
  datatype Call = Call(op: Op, now: int, saves: bool)

  datatype Answer =
    | Done
    | Found(record: MemoryRecord)
    | Present(there: bool)
    | Records(records: seq<MemoryRecord>)
    | Count(n: nat)
    | Failed(error: MemoryError)

  /** The index changed and was handed to storage: on failure the index keeps the change but
      the caller sees the error and nothing is published. */
  function Persist(m: Memory, index: Index, saves: bool, notices: seq<Notice>, answer: Answer): (Memory, Answer) {
    if saves then (Memory(index, Values(index), m.notices + notices), answer)
    else (m.(index := index), Failed(SaveFailed))
  }

  function Step(m: Memory, c: Call): (Memory, Answer) {
    match c.op
    case PutRecord(record) =>
      if record.key == "" then (m, Failed(EmptyKey))
      else if record.key in m.index.vals then (m, Failed(Duplicate))
      else Persist(m, Put(m.index, record.key, record), c.saves, [Notify(Created, record)], Done)
    case GetRecord(key) =>
      (match LiveRecord(m.index, key, c.now)
       case None => (m, Failed(NotFound))
       case Some(r) => (m, Found(r)))
    case Exists(key) => (m, Present(LiveRecord(m.index, key, c.now).Some?))
    case ListRecords => (m, Records(LiveRecords(m.index, c.now)))
    case Search(query, lower) => (m, Records(Filter(Matches(query, lower), LiveRecords(m.index, c.now))))
    case DeleteKey(key) =>
      (match LiveRecord(m.index, key, c.now)
       case None => (m, Failed(NotFound))
       case Some(r) => Persist(m, Del(m.index, key), c.saves, [Notify(Deleted, r)], Done))
    case UpdateKey(key, value, stamp) =>
      (match LiveRecord(m.index, key, c.now)
       case None => (m, Failed(NotFound))
       case Some(r) =>
         var updated := Touch(r, value, stamp);
         Persist(m, Put(m.index, key, updated), c.saves, [Notify(Updated, updated)], Found(updated)))
    case Purge =>
      var expired := Filter(ExpiredAt(c.now), Values(m.index));
      if expired == [] then (m, Count(0))
      else Persist(m, Where(m.index, LiveAt(c.now)), c.saves, Map(PurgeNotice(), expired), Count(|expired|))
  }

  /** A service constructed over what storage holds. */
  function Load(storage: seq<MemoryRecord>): Memory {
    Memory(FromValues(storage, RecordKey()), storage, [])
  }

  lemma NothingExpired(d: Index, now: int)
    requires Filter(ExpiredAt(now), Values(d)) == []
    ensures Where(d, LiveAt(now)) == d
  {
    FilterMembers(ExpiredAt(now), Values(d));
    forall k | k in d.vals
      ensures LiveAt(now)(d.vals[k])
    {
      MemberOfValues(d, d.vals[k]);
    }
    OnlyAll(d, KeyPasses(d, LiveAt(now)));
  }
}

/** What each call does, lookup by lookup and field by field. */
module MemoryEffects {
  import opened Wrappers
  import opened Seqs
  import opened Dicts
  import opened Data
  import opened Memories

  /** A record is live strictly before the instant it expires at, if any. */
  predicate Outlives(r: MemoryRecord, now: int) {
    r.expiresAt.Some? ==> now < r.expiresAt.value
  }

  /** The record under a key, unless it has expired. */
  function LiveLookup(index: Index, key: string, now: int): Option<MemoryRecord> {
    match Lookup(index, key)
    case Some(r) => if Outlives(r, now) then Some(r) else None
    case None => None
  }

  /** An accepted save stores the whole index, in order, before anything is published; a failed
      one is reported, and leaves storage and what was published alone. */
  ghost predicate Saved(m: Memory, n: Memory, saves: bool, a: Answer, answer: Answer, notices: seq<Notice>) {
    if saves then a == answer && n.storage == Values(n.index) && n.notices == m.notices + notices
    else a == Failed(SaveFailed) && n.storage == m.storage && n.notices == m.notices
  }

  lemma PutEffect(m: Memory, record: MemoryRecord, now: int, saves: bool)
    ensures var (n, a) := Step(m, Call(PutRecord(record), now, saves));
      if record.key == "" then a == Failed(EmptyKey) && n == m
      else if Lookup(m.index, record.key).Some? then a == Failed(Duplicate) && n == m
      else
        && Binds(m.index, n.index, record.key, record) && n.index.keys == m.index.keys + [record.key]
        && Saved(m, n, saves, a, Done, [MemoryUpdated(Created, record.key, record.version)])
  {
    PutBinds(m.index, record.key, record);
    hide Put, Values;
  }

  lemma GetEffect(m: Memory, key: string, now: int, saves: bool)
    ensures Step(m, Call(GetRecord(key), now, saves)) ==
      (m, if LiveLookup(m.index, key, now).Some? then Found(LiveLookup(m.index, key, now).value) else Failed(NotFound))
    ensures Step(m, Call(Exists(key), now, saves)) == (m, Present(LiveLookup(m.index, key, now).Some?))
  {
  }

  lemma DeleteEffect(m: Memory, key: string, now: int, saves: bool)
    ensures var (n, a) := Step(m, Call(DeleteKey(key), now, saves));
      match LiveLookup(m.index, key, now)
      case None => a == Failed(NotFound) && n == m
      case Some(r) =>
        && Unbinds(m.index, n.index, key) && n.index.keys == Filter(Except(key), m.index.keys)
        && Saved(m, n, saves, a, Done, [MemoryUpdated(Deleted, r.key, r.version)])
  {
    DelUnbinds(m.index, key);
    hide Del, Values, Filter;
  }

  /** The record keeps every field but its value, its update time and its version, and its place
      in the order. */
  lemma UpdateEffect(m: Memory, key: string, value: Value, stamp: int, now: int, saves: bool)
    ensures var (n, a) := Step(m, Call(UpdateKey(key, value, stamp), now, saves));
      match LiveLookup(m.index, key, now)
      case None => a == Failed(NotFound) && n == m
      case Some(r) =>
        var u := MemoryRecord(r.key, value, r.id, r.createdAt, stamp, r.expiresAt, r.version + 1);
        && Binds(m.index, n.index, key, u) && n.index.keys == m.index.keys
        && Saved(m, n, saves, a, Found(u), [MemoryUpdated(Updated, r.key, r.version + 1)])
  {
    if key in m.index.vals {
      PutBinds(m.index, key, Touch(m.index.vals[key], value, stamp));
    }
    hide Put, Values;
  }

  /** A record's place in the index. */
  function StoredAt(index: Index): MemoryRecord -> int {
    (r: MemoryRecord) => if r.key in index.keys then IndexOf(index.keys, r.key) else |index.keys|
  }

  lemma ValuesInOrder(index: Index)
    requires KeyedBy(index, RecordKey())
    ensures Ascending(StoredAt(index), Values(index))
  {
    forall i | 0 <= i < |index.keys|
      ensures StoredAt(index)(Values(index)[i]) == i
    {
      assert index.keys[i] in index.keys;
    }
  }

  lemma ListMembers(index: Index, now: int, r: MemoryRecord)
    requires KeyedBy(index, RecordKey())
    ensures r in LiveRecords(index, now) <==> LiveLookup(index, r.key, now) == Some(r)
  {
    FilterMembers(LiveAt(now), Values(index));
    MemberOfValues(index, r);
    hide Filter, Values;
  }

  /** Listing gives exactly the live records, each once, in index order. */
  lemma ListEffect(m: Memory, now: int, saves: bool)
    requires KeyedBy(m.index, RecordKey())
    ensures var (n, a) := Step(m, Call(ListRecords, now, saves));
      && n == m && a.Records?
      && (forall r :: r in a.records <==> LiveLookup(m.index, r.key, now) == Some(r))
      && Ascending(StoredAt(m.index), a.records)
  {
    ValuesInOrder(m.index);
    FilterAscending(StoredAt(m.index), LiveAt(now), Values(m.index));
    hide Filter, Values, LiveRecords;
    forall r
      ensures r in LiveRecords(m.index, now) <==> LiveLookup(m.index, r.key, now) == Some(r)
    {
      ListMembers(m.index, now, r);
    }
    ListIsFilter(m.index, now);
  }

  lemma ListIsFilter(index: Index, now: int)
    ensures LiveRecords(index, now) == Filter(LiveAt(now), Values(index))
  {
  }

  /** The lower-cased query occurs somewhere in the lower-cased key. */
  ghost predicate Occurs(query: string, key: string, lower: string -> string) {
    exists before, after :: before + lower(query) + after == lower(key)
  }

  lemma OccursIffContains(query: string, r: MemoryRecord, lower: string -> string)
    ensures Matches(query, lower)(r) <==> Occurs(query, r.key, lower)
  {
    var s, needle := lower(r.key), lower(query);
    if Contains(s, needle) {
      var i :| 0 <= i <= |s| && needle <= s[i..];
      assert s[..i] + needle + s[i..][|needle|..] == s;
    }
    if Occurs(query, r.key, lower) {
      var before, after :| before + needle + after == s;
      assert s[|before|..] == needle + after;
    }
  }

  /** Searching gives exactly the live records whose key contains the query, in index order. */
  lemma SearchEffect(m: Memory, query: string, lower: string -> string, now: int, saves: bool)
    requires KeyedBy(m.index, RecordKey())
    ensures var (n, a) := Step(m, Call(Search(query, lower), now, saves));
      && n == m && a.Records?
      && (forall r :: r in a.records <==> LiveLookup(m.index, r.key, now) == Some(r) && Occurs(query, r.key, lower))
      && Ascending(StoredAt(m.index), a.records)
  {
    ListEffect(m, now, saves);
    var live := LiveRecords(m.index, now);
    FilterAscending(StoredAt(m.index), Matches(query, lower), live);
    FilterMembers(Matches(query, lower), live);
    hide Filter, Values, LiveRecords, Matches, Occurs, LiveLookup;
    forall r
      ensures Matches(query, lower)(r) <==> Occurs(query, r.key, lower)
    {
      OccursIffContains(query, r, lower);
    }
  }

  function Expired(now: int): MemoryRecord -> bool {
    (r: MemoryRecord) => !Outlives(r, now)
  }

  function PurgedNotice(): MemoryRecord -> Notice {
    (r: MemoryRecord) => MemoryUpdated(Purged, r.key, r.version)
  }

  lemma PurgedLookups(index: Index, now: int)
    ensures forall k :: Lookup(Where(index, LiveAt(now)), k) == LiveLookup(index, k, now)
    ensures Where(index, LiveAt(now)).keys == Filter(KeyPasses(index, LiveAt(now)), index.keys)
  {
    hide Filter;
  }

  lemma SameExpired(index: Index, now: int)
    ensures Filter(Expired(now), Values(index)) == Filter(ExpiredAt(now), Values(index))
  {
    FilterAgree(Expired(now), ExpiredAt(now), Values(index));
  }

  /** Purging drops exactly the expired records. If there are any, it saves, publishes one notice
      for each, in index order, and answers how many; if there are none, it does nothing. */
  lemma PurgeEffect(m: Memory, now: int, saves: bool)
    ensures var (n, a) := Step(m, Call(Purge, now, saves));
      var expired := Filter(Expired(now), Values(m.index));
      && (forall k :: Lookup(n.index, k) == LiveLookup(m.index, k, now))
      && n.index.keys == Filter(KeyPasses(m.index, LiveAt(now)), m.index.keys)
      && (if expired == [] then n == m && a == Count(0)
          else Saved(m, n, saves, a, Count(|expired|), Map(PurgedNotice(), expired)))
  {
    hide Filter, Values, Where, KeyPasses, LiveAt, ExpiredAt, Expired, LiveLookup;
    SameExpired(m.index, now);
    PurgedLookups(m.index, now);
    if Filter(ExpiredAt(now), Values(m.index)) == [] {
      NothingExpired(m.index, now);
    }
    SameNotices(Filter(Expired(now), Values(m.index)));
  }

  lemma SameNotices(rs: seq<MemoryRecord>)
    ensures Map(PurgedNotice(), rs) == Map(PurgeNotice(), rs)
  {
  }
}

/** The service itself: the index is updated in place, then saved, then published. */
module MemoryServices {
  import opened Wrappers
  import opened Seqs
  import opened Dicts
  import opened Data
  import opened Memories

  class MemoryService {
    var index: Index
    var storage: seq<MemoryRecord>
    var notices: seq<Notice>

    ghost function State(): Memory
      reads this
    {
      Memory(index, storage, notices)
    }

    constructor (stored: seq<MemoryRecord>)
      ensures State() == Load(stored)
    {
      var loaded: Index := Empty();
      for i := 0 to |stored|
        invariant loaded == FromValues(stored[..i], RecordKey())
      {
        PrefixStep(stored, i);
        assert stored[..i + 1][..i] == stored[..i];
        loaded := Put(loaded, stored[i].key, stored[i]);
      }
      assert stored[..|stored|] == stored;
      index, storage, notices := loaded, stored, [];
    }

    /** Hands the whole index to storage, which either takes all of it or nothing. */
    method Persist(saves: bool) returns (ok: bool)
      modifies this`storage
      ensures ok == saves
      ensures storage == if saves then Values(index) else old(storage)
    {
      if saves {
        storage := Values(index);
      }
      ok := saves;
    }

    method PutRecord(record: MemoryRecord, now: int, saves: bool) returns (a: Answer)
      modifies this
      ensures (State(), a) == Step(old(State()), Call(Op.PutRecord(record), now, saves))
    {
      if record.key == "" {
        return Failed(EmptyKey);
      }
      if record.key in index.vals {
        return Failed(Duplicate);
      }
      index := Put(index, record.key, record);
      var ok := Persist(saves);
      if !ok {
        return Failed(SaveFailed);
      }
      notices := notices + [Notify(Created, record)];
      return Done;
    }

    method Get(key: string, now: int) returns (a: Answer)
      ensures (State(), a) == Step(State(), Call(GetRecord(key), now, true))
    {
      var found := LiveRecord(index, key, now);
      match found
      case None => return Failed(NotFound);
      case Some(r) => return Found(r);
    }

    method Exists(key: string, now: int) returns (there: bool)
      ensures (State(), Present(there)) == Step(State(), Call(Op.Exists(key), now, true))
    {
      there := LiveRecord(index, key, now).Some?;
    }

    method Delete(key: string, now: int, saves: bool) returns (a: Answer)
      modifies this
      ensures (State(), a) == Step(old(State()), Call(DeleteKey(key), now, saves))
    {
      var found := LiveRecord(index, key, now);
      if found.None? {
        return Failed(NotFound);
      }
      index := Del(index, key);
      var ok := Persist(saves);
      if !ok {
        return Failed(SaveFailed);
      }
      notices := notices + [Notify(Deleted, found.value)];
      return Done;
    }

    method Update(key: string, value: Value, now: int, stamp: int, saves: bool) returns (a: Answer)
      modifies this
      ensures (State(), a) == Step(old(State()), Call(UpdateKey(key, value, stamp), now, saves))
    {
      var found := LiveRecord(index, key, now);
      if found.None? {
        return Failed(NotFound);
      }
      var updated := Touch(found.value, value, stamp);
      index := Put(index, key, updated);
      var ok := Persist(saves);
      if !ok {
        return Failed(SaveFailed);
      }
      notices := notices + [Notify(Updated, updated)];
      return Found(updated);
    }

    method List(now: int) returns (records: seq<MemoryRecord>)
      ensures (State(), Records(records)) == Step(State(), Call(ListRecords, now, true))
      ensures records == LiveRecords(index, now)
    {
      records := Filter(LiveAt(now), Values(index));
    }

    method Search(query: string, lower: string -> string, now: int) returns (records: seq<MemoryRecord>)
      ensures (State(), Records(records)) == Step(State(), Call(Op.Search(query, lower), now, true))
    {
      var live := List(now);
      records := Filter(Matches(query, lower), live);
    }

    /** Collects the expired keys and deletes them one by one. */
    method DropExpired(now: int)
      modifies this`index
      ensures index == Where(old(index), LiveAt(now))
    {
      var keys := Filter(KeyPasses(index, ExpiredAt(now)), index.keys);
      ghost var before := index;
      OnlyAll(before, NotAmong([]));
      for i := 0 to |keys|
        invariant index == Only(before, NotAmong(keys[..i]))
      {
        DropEach(before, keys, i);
        index := Del(index, keys[i]);
      }
      assert keys[..|keys|] == keys;
      KeysLeftAreLive(before, now);
    }

    /** One notice for each purged record. */
    method PublishPurged(records: seq<MemoryRecord>)
      modifies this`notices
      ensures notices == old(notices) + Map(PurgeNotice(), records)
    {
      for i := 0 to |records|
        invariant notices == old(notices) + Map(PurgeNotice(), records[..i])
      {
        PrefixStep(records, i);
        notices := notices + [Notify(Purged, records[i])];
      }
      assert records[..|records|] == records;
    }

    /** Nothing is saved or published unless something had expired. */
    method PurgeExpired(now: int, saves: bool) returns (a: Answer)
      modifies this
      ensures (State(), a) == Step(old(State()), Call(Purge, now, saves))
    {
      hide Filter, Where, Only, Values;
      var records := Filter(ExpiredAt(now), Values(index));
      ghost var before := index;
      DropExpired(now);
      if records == [] {
        NothingExpired(before, now);
        return Count(0);
      }
      var ok := Persist(saves);
      if !ok {
        return Failed(SaveFailed);
      }
      PublishPurged(records);
      return Count(|records|);
    }
  }

  lemma KeysLeftAreLive(d: Index, now: int)
    ensures Only(d, NotAmong(Filter(KeyPasses(d, ExpiredAt(now)), d.keys))) == Where(d, LiveAt(now))
  {
    FilterMembers(KeyPasses(d, ExpiredAt(now)), d.keys);
    OnlyAgree(d, NotAmong(Filter(KeyPasses(d, ExpiredAt(now)), d.keys)), KeyPasses(d, LiveAt(now)));
  }
}
