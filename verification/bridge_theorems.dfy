/** What the bridge guarantees over batches and over whole runs. */

module BridgeTheorems {
  import opened Wrappers
  import opened Seqs
  import opened Dicts
  import opened Data
  import opened Trace
  import opened Graphs
  import opened MemoryMapper
  import opened Memories
  import opened Bridges
  import opened Settling
  import opened SettlingLaws
  import opened BatchSync

  // ---- synchronize_all performs one batch ------------------------------------------

  /** The records of the listing that were still live when their turn came to be fetched. */
  function Fetched(listed: seq<MemoryRecord>, clock: nat -> int, n: nat): seq<MemoryRecord>
    requires n <= |listed|
  {
    if n == 0 then []
    else
      Fetched(listed, clock, n - 1) + Turn(listed[n - 1], clock(n))
  }

  function BatchOf(memory: Index, clock: nat -> int): seq<MemoryRecord> {
    var listed := LiveRecords(memory, clock(0));
    Fetched(listed, clock, |listed|)
  }

  /** Every listed record is the one stored under its key. */
  ghost predicate ListedIn(listed: seq<MemoryRecord>, memory: Index) {
    forall i :: 0 <= i < |listed| ==> listed[i].key in memory.vals && memory.vals[listed[i].key] == listed[i]
  }

  lemma {:induction false} FetchedKeys(listed: seq<MemoryRecord>, clock: nat -> int, n: nat)
    requires n <= |listed|
    requires DistinctOn(RecordKey(), listed)
    ensures forall i :: 0 <= i < |Fetched(listed, clock, n)| ==>
      Fetched(listed, clock, n)[i].key != "" && Fetched(listed, clock, n)[i] in listed[..n]
    ensures forall i, j :: 0 <= i < j < |Fetched(listed, clock, n)| ==>
      Fetched(listed, clock, n)[i].key != Fetched(listed, clock, n)[j].key
  {
    if n != 0 {
      FetchedKeys(listed, clock, n - 1);
      PrefixStep(listed, n - 1);
    }
  }

  ghost predicate HaveKeys(batch: seq<MemoryRecord>) {
    forall i :: 0 <= i < |batch| ==> batch[i].key != ""
  }

  function Turn(r: MemoryRecord, now: int): seq<MemoryRecord> {
    if r.key != "" && !r.IsExpired(now) then [r] else []
  }

  lemma ReconciledAllTurn(b: Bridge, before: seq<MemoryRecord>, r: MemoryRecord, now: int, mid: Bridge)
    requires mid == ReconciledAll(b, before)
    ensures ReconciledAll(b, before + Turn(r, now)) == if Turn(r, now) == [r] then Reconciled(mid, r) else mid
  {
    if Turn(r, now) == [r] {
      ReconciledAllSnoc(b, before, r);
    } else {
      assert before + [] == before;
    }
  }

  lemma SynchronizeFirstUnfold(
    b: Bridge, memory: Index, listed: seq<MemoryRecord>, clock: nat -> int, n: nat, mid: Bridge, keys: seq<string>)
    requires 0 < n <= |listed|
    requires SynchronizeFirst(b, memory, listed, clock, n - 1) == (mid, keys)
    requires Intact(mid.graph) && mid.running
    requires ListedIn(listed, memory)
    ensures SynchronizeFirst(b, memory, listed, clock, n) ==
      if Turn(listed[n - 1], clock(n)) == [listed[n - 1]]
      then (Reconciled(mid, listed[n - 1]), keys + [listed[n - 1].key]) else (mid, keys)
  {
    OneMoreFetched(mid, memory, listed[n - 1], clock(n));
  }

  lemma KeysOfTurn(before: seq<MemoryRecord>, r: MemoryRecord, now: int)
    ensures Map(RecordKey(), before + Turn(r, now))
         == if Turn(r, now) == [r] then Map(RecordKey(), before) + [r.key] else Map(RecordKey(), before)
  {
    assert before + [] == before;
  }

  lemma {:induction false} FetchedHaveKeys(listed: seq<MemoryRecord>, clock: nat -> int, n: nat)
    requires n <= |listed|
    ensures HaveKeys(Fetched(listed, clock, n))
  {
    if n != 0 {
      FetchedHaveKeys(listed, clock, n - 1);
    }
  }

  lemma BatchStaysIntact(b: Bridge, batch: seq<MemoryRecord>)
    requires Intact(b.graph) && Issued(b.graph, b.uuids) && HaveKeys(batch)
    ensures Intact(ReconciledAll(b, batch).graph) && ReconciledAll(b, batch).running == b.running
  {
    BatchPlacesAll(b, batch);
  }

  lemma NothingListedYet(b: Bridge, memory: Index, listed: seq<MemoryRecord>, clock: nat -> int)
    ensures SynchronizeFirst(b, memory, listed, clock, 0)
         == (ReconciledAll(b, Fetched(listed, clock, 0)), Map(RecordKey(), Fetched(listed, clock, 0)))
  {
    assert Map(RecordKey(), Fetched(listed, clock, 0)) == [];
  }

  lemma {:induction false} FirstIsBatch(b: Bridge, memory: Index, listed: seq<MemoryRecord>, clock: nat -> int, n: nat)
    requires Intact(b.graph) && Issued(b.graph, b.uuids) && b.running
    requires ListedIn(listed, memory) && n <= |listed|
    ensures SynchronizeFirst(b, memory, listed, clock, n)
         == (ReconciledAll(b, Fetched(listed, clock, n)), Map(RecordKey(), Fetched(listed, clock, n)))
  {
    hide SynchronizeFirst, ReconciledAll, Intact, Issued;
    if n != 0 {
      FirstIsBatch(b, memory, listed, clock, n - 1);
      var before := Fetched(listed, clock, n - 1);
      FetchedHaveKeys(listed, clock, n - 1);
      BatchStaysIntact(b, before);
      OneMoreTurn(b, memory, listed, clock, n, before, ReconciledAll(b, before));
    } else {
      NothingListedYet(b, memory, listed, clock);
    }
  }

  lemma OneMoreTurn(
    b: Bridge, memory: Index, listed: seq<MemoryRecord>, clock: nat -> int, n: nat,
    before: seq<MemoryRecord>, mid: Bridge)
    requires 0 < n <= |listed|
    requires mid == ReconciledAll(b, before)
    requires SynchronizeFirst(b, memory, listed, clock, n - 1) == (mid, Map(RecordKey(), before))
    requires Intact(mid.graph) && mid.running
    requires ListedIn(listed, memory)
    ensures SynchronizeFirst(b, memory, listed, clock, n)
         == (ReconciledAll(b, before + Turn(listed[n - 1], clock(n))),
             Map(RecordKey(), before + Turn(listed[n - 1], clock(n))))
  {
    SynchronizeFirstUnfold(b, memory, listed, clock, n, mid, Map(RecordKey(), before));
    ReconciledAllTurn(b, before, listed[n - 1], clock(n), mid);
    KeysOfTurn(before, listed[n - 1], clock(n));
  }

  lemma OneMoreFetched(mid: Bridge, memory: Index, r: MemoryRecord, now: int)
    requires Intact(mid.graph) && mid.running
    requires r.key in memory.vals && memory.vals[r.key] == r
    ensures SynchronizeMemory(mid, memory, r.key, now) ==
      if r.key != "" && !r.IsExpired(now) then (Reconciled(mid, r), Ok(EntityId(r.key)))
      else (mid, Err(InvalidRecord))
  {
    if r.key != "" {
      ReconcileSucceeds(mid, r);
    }
  }

  lemma ListingOf(memory: Index, now: int)
    requires KeyedBy(memory, RecordKey())
    ensures ListedIn(LiveRecords(memory, now), memory)
    ensures DistinctOn(RecordKey(), LiveRecords(memory, now))
  {
    var all, listed := Values(memory), LiveRecords(memory, now);
    FilterMembers(LiveAt(now), all);
    assert DistinctOn(RecordKey(), all) by {
      KeysFromValues(memory, RecordKey());
      assert forall i :: 0 <= i < |all| ==> RecordKey()(all[i]) == memory.keys[i];
    }
    FilterDistinct(RecordKey(), LiveAt(now), all);
    forall i | 0 <= i < |listed|
      ensures listed[i].key in memory.vals && memory.vals[listed[i].key] == listed[i]
    {
      assert listed[i] in all;
    }
  }

  /** synchronize_all reconciles exactly the batch, in listing order, and reports its keys. */
  lemma SynchronizeAllIsBatch(b: Bridge, memory: Index, clock: nat -> int)
    requires Intact(b.graph) && Issued(b.graph, b.uuids) && b.running
    requires KeyedBy(memory, RecordKey())
    ensures IsBatch(BatchOf(memory, clock))
    ensures SynchronizeAll(b, memory, clock)
         == (ReconciledAll(b, BatchOf(memory, clock)), Ok(Map(RecordKey(), BatchOf(memory, clock))))
  {
    var listed := LiveRecords(memory, clock(0));
    ListingOf(memory, clock(0));
    FetchedKeys(listed, clock, |listed|);
    FirstIsBatch(b, memory, listed, clock, |listed|);
  }

  /** The closed form of synchronize_all from any intact graph. */
  lemma SynchronizeAllClosedForm(b: Bridge, memory: Index, clock: nat -> int)
    requires Intact(b.graph) && Issued(b.graph, b.uuids) && b.running
    requires KeyedBy(memory, RecordKey())
    ensures TablesOf(SynchronizeAll(b, memory, clock).0.graph)
         == Settled(GraphEnds(), TablesOf(b.graph), ItemsOf(BatchOf(memory, clock), b.uuids))
    ensures SynchronizeAll(b, memory, clock).1 == Ok(Map(RecordKey(), BatchOf(memory, clock)))
    ensures Intact(SynchronizeAll(b, memory, clock).0.graph)
  {
    SynchronizeAllIsBatch(b, memory, clock);
    BatchClosedForm(b, BatchOf(memory, clock));
  }

  // ---- Idempotence ---------------------------------------------------------------------

  /** A relationship without its drawn id. */
  datatype Look = Look(source: string, target: string, kind: string, attributes: Attributes)

  function LookOf(): Relationship -> Look {
    (r: Relationship) => Look(r.source, r.target, r.kind, r.attributes)
  }

  function LookTarget(): Look -> string {
    (l: Look) => l.target
  }

  lemma ItemLooksTheSame(r: MemoryRecord, n: nat, m: nat)
    ensures SameItem(ItemOf()(r, n), ItemOf()(r, m), LookOf())
  {
    var a, b := ItemOf()(r, n), ItemOf()(r, m);
    assert a.node == b.node && a.entity == b.entity;
    assert Map(LookOf(), Relationships(r, n)) == Map(LookOf(), Relationships(r, m));
  }

  lemma ItemsLookTheSame(batch: seq<MemoryRecord>, first: nat, other: nat)
    ensures SameLook(ItemsOf(batch, first), ItemsOf(batch, other), LookOf())
  {
    forall r, n: nat, m: nat
      ensures SameItem(ItemOf()(r, n), ItemOf()(r, m), LookOf())
    {
      ItemLooksTheSame(r, n, m);
    }
    NumberedSameLook(ItemOf(), ReferenceCount(), LookOf(), batch, first, other);
  }

  /** Reconciling a batch again changes nothing in the graph but the ids of its edges. */
  lemma BatchIdempotent(b: Bridge, batch: seq<MemoryRecord>, once: Bridge, twice: Bridge)
    requires Intact(b.graph) && Issued(b.graph, b.uuids) && IsBatch(batch)
    requires once == ReconciledAll(b, batch) && twice == ReconciledAll(once, batch)
    ensures twice.graph.entities == once.graph.entities
    ensures Map(LookOf(), Values(twice.graph.edges)) == Map(LookOf(), Values(once.graph.edges))
  {
    BatchClosedForm(b, batch);
    BatchClosedForm(once, batch);
    ItemsAreProper(batch, b.uuids);
    ItemsLookTheSame(batch, b.uuids, once.uuids);
    SettledTwice(GraphEnds(), LookOf(), LookTarget(), TablesOf(b.graph),
                 ItemsOf(batch, b.uuids), ItemsOf(batch, once.uuids));
    SameValuesSameDict(twice.graph.entities, once.graph.entities, EntityKey());
  }

  // ---- Bookkeeping ------------------------------------------------------------------------

  /** Every tracked key maps to its own entity id. */
  ghost predicate Bookkept(b: Bridge) {
    && (forall k :: k in b.synchronized.vals ==> b.synchronized.vals[k] == EntityId(k))
    && b.failed == Empty()
  }

  /** Every tracked key's entity is in the graph. */
  ghost predicate Tracked(b: Bridge) {
    forall k :: k in b.synchronized.vals ==> EntityId(k) in b.graph.entities.vals
  }

  lemma PutSame<K(!new), V(!new)>(d: Dict<K, V>, k: K, v: V)
    requires k in d.vals && d.vals[k] == v
    ensures Put(d, k, v) == d
  {
    assert d.vals[k := v] == d.vals;
  }

  lemma DelFromEmpty<K(!new), V(!new)>(d: Dict<K, V>, k: K)
    requires d == Empty()
    ensures Del(d, k) == Empty()
  {
    assert Del(d, k).vals == map[];
  }

  /** c tracks, beyond what b tracked, exactly the batch's keys. */
  ghost predicate Books(b: Bridge, batch: seq<MemoryRecord>, c: Bridge) {
    && Bookkept(c)
    && forall k :: k in c.synchronized.vals <==> k in b.synchronized.vals || k in Map(RecordKey(), batch)
  }

  lemma BooksStep(b: Bridge, front: seq<MemoryRecord>, r: MemoryRecord, mid: Bridge, c: Bridge)
    requires Books(b, front, mid)
    requires c.synchronized == Put(mid.synchronized, r.key, EntityId(r.key)) && c.failed == Del(mid.failed, r.key)
    ensures Books(b, front + [r], c)
  {
    DelFromEmpty(mid.failed, r.key);
    assert Map(RecordKey(), front + [r]) == Map(RecordKey(), front) + [r.key];
  }

  lemma ReconciledTables(b: Bridge, r: MemoryRecord, c: Bridge)
    requires c == Reconciled(b, r)
    ensures c.synchronized == Put(b.synchronized, r.key, EntityId(r.key)) && c.failed == Del(b.failed, r.key)
  {
  }

  lemma BooksNothing(b: Bridge)
    requires Bookkept(b)
    ensures Books(b, [], b)
  {
  }

  lemma {:induction false} BatchBookkeeping(b: Bridge, batch: seq<MemoryRecord>, c: Bridge)
    requires Bookkept(b) && c == ReconciledAll(b, batch)
    ensures Books(b, batch, c)
  {
    hide Reconciled, EntityId, Books;
    if batch == [] {
      BooksNothing(b);
    } else {
      var front, r := batch[..|batch| - 1], batch[|batch| - 1];
      var mid := ReconciledAll(b, front);
      BatchBookkeeping(b, front, mid);
      ReconciledTables(mid, r, c);
      BooksStep(b, front, r, mid, c);
      assert batch == front + [r];
    }
  }

  lemma {:induction false} RebookingChangesNothing(b: Bridge, batch: seq<MemoryRecord>)
    requires Bookkept(b)
    requires forall i :: 0 <= i < |batch| ==> batch[i].key in b.synchronized.vals
    ensures ReconciledAll(b, batch).synchronized == b.synchronized
    ensures ReconciledAll(b, batch).failed == b.failed
  {
    if batch != [] {
      var front, r := batch[..|batch| - 1], batch[|batch| - 1];
      RebookingChangesNothing(b, front);
      PutSame(b.synchronized, r.key, EntityId(r.key));
      DelFromEmpty(b.failed, r.key);
    }
  }

  lemma {:induction false} AllTwice(b: Bridge, batch: seq<MemoryRecord>, once: Bridge, twice: Bridge)
    requires Intact(b.graph) && Issued(b.graph, b.uuids) && Bookkept(b) && IsBatch(batch)
    requires once == ReconciledAll(b, batch) && twice == ReconciledAll(once, batch)
    ensures SameButIds(once, twice)
  {
    hide ReconciledAll, Intact, Issued;
    BatchIdempotent(b, batch, once, twice);
    BatchBookkeeping(b, batch, once);
    forall i | 0 <= i < |batch|
      ensures batch[i].key in once.synchronized.vals
    {
      assert Map(RecordKey(), batch)[i] == batch[i].key;
    }
    RebookingChangesNothing(once, batch);
  }

  /** The same entities and bookkeeping and the same edges in the same order, ids aside. */
  ghost predicate SameButIds(once: Bridge, twice: Bridge) {
    && twice.graph.entities == once.graph.entities
    && Map(LookOf(), Values(twice.graph.edges)) == Map(LookOf(), Values(once.graph.edges))
    && twice.synchronized == once.synchronized && twice.failed == once.failed
  }

  /** synchronize_all is idempotent: while the live records are unchanged, a second run leaves
      everything but the ids of the batch's edges, and reports the same keys. */
  lemma {:induction false} SynchronizeAllIdempotent(
    b: Bridge, memory: Index, clock: nat -> int, later: Index, laterClock: nat -> int)
    requires Intact(b.graph) && Issued(b.graph, b.uuids) && b.running && Bookkept(b)
    requires KeyedBy(memory, RecordKey()) && KeyedBy(later, RecordKey())
    requires BatchOf(memory, clock) == BatchOf(later, laterClock)
    ensures var (once, reported) := SynchronizeAll(b, memory, clock);
      var (twice, again) := SynchronizeAll(once, later, laterClock);
      SameButIds(once, twice) && again == reported
  {
    hide SynchronizeAll, ReconciledAll, BatchOf, SameButIds, Intact, Issued;
    var batch := BatchOf(memory, clock);
    var once := ReconciledAll(b, batch);
    SynchronizeAllIsBatch(b, memory, clock);
    BatchPlacesAll(b, batch);
    SynchronizeAllIsBatch(once, later, laterClock);
    AllTwice(b, batch, once, ReconciledAll(once, batch));
  }

  lemma InTurn(b: Bridge, memory: Index, r: MemoryRecord, now: int, c: Bridge)
    requires Intact(b.graph) && Issued(b.graph, b.uuids) && b.running
    requires r.key in memory.vals && memory.vals[r.key] == r && r.key != "" && !r.IsExpired(now)
    requires c == SynchronizeMemory(b, memory, r.key, now).0
    ensures c == Reconciled(b, r)
  {
    OneMoreFetched(b, memory, r, now);
  }

  lemma StillSound(b: Bridge, r: MemoryRecord, c: Bridge)
    requires Intact(b.graph) && Issued(b.graph, b.uuids) && r.key != "" && c == Reconciled(b, r)
    ensures Intact(c.graph) && Issued(c.graph, c.uuids) && c.running == b.running
  {
    ReconciledPlaces(b, r);
  }

  lemma SynchronizeIfLive(b: Bridge, memory: Index, k: string, now: int)
    requires Intact(b.graph) && b.running && KeyedBy(memory, RecordKey())
    ensures SynchronizeMemory(b, memory, k, now).0 ==
      if k != "" && LiveRecord(memory, k, now).Some? then Reconciled(b, memory.vals[k]) else b
  {
    hide Reconciled, Reconcile;
    if k != "" && LiveRecord(memory, k, now).Some? {
      OneMoreFetched(b, memory, memory.vals[k], now);
    }
  }

  lemma OneTwice(b: Bridge, r: MemoryRecord)
    requires Intact(b.graph) && Issued(b.graph, b.uuids) && Bookkept(b) && r.key != ""
    ensures SameButIds(Reconciled(b, r), Reconciled(Reconciled(b, r), r))
  {
    hide Reconciled, Intact, Issued, SameButIds;
    var once, batch := Reconciled(b, r), [r];
    StillSound(b, r, once);
    ReconciledAllSnoc(b, [], r);
    ReconciledAllSnoc(once, [], r);
    assert [] + [r] == batch;
    AllTwice(b, batch, once, Reconciled(once, r));
  }

  /** synchronize_memory on one key is idempotent: while its record is unchanged, a later call
      leaves everything but the ids of its edges, whether or not either call finds it live. */
  lemma SynchronizeMemoryIdempotent(
    b: Bridge, memory: Index, later: Index, k: string, now: int, after: int)
    requires Intact(b.graph) && Issued(b.graph, b.uuids) && Bookkept(b)
    requires KeyedBy(memory, RecordKey()) && KeyedBy(later, RecordKey())
    requires Lookup(memory, k) == Lookup(later, k) && now <= after
    ensures var once := SynchronizeMemory(b, memory, k, now).0;
      SameButIds(once, SynchronizeMemory(once, later, k, after).0)
  {
    if b.running {
      SynchronizeIfLive(b, memory, k, now);
      if k != "" && LiveRecord(memory, k, now).Some? {
        StillSound(b, memory.vals[k], Reconciled(b, memory.vals[k]));
        OneTwice(b, memory.vals[k]);
        SynchronizeIfLive(Reconciled(b, memory.vals[k]), later, k, after);
      } else {
        SynchronizeIfLive(b, later, k, after);
      }
      hide Reconciled, SynchronizeMemory, Intact, Issued, Bookkept;
    }
  }

  // ---- What each operation of the bridge does ------------------------------------------------

  /** remove_memory forgets a tracked key: its entity, every edge touching it and both table
      entries go, and everything else stays. Otherwise it is refused and nothing changes. */
  lemma RemoveMemoryEffect(b: Bridge, key: string)
    requires Intact(b.graph)
    ensures var (c, r) := RemoveMemory(b, key);
      if !b.running then r == Err(NotRunning) && c == b
      else if key == "" then r == Err(InvalidRecord) && c == b
      else if Lookup(b.synchronized, key).None? then r == Err(NotSynchronized) && c == b
      else r == Ok(()) && Forgets(b, c, key)
  {
    hide RemoveEntity, Del, Intact, Unbinds, ClearedOf, Publish, Filter;
    if b.running && key != "" && key in b.synchronized.vals {
      RemovalClears(b.graph, EntityId(key), MemoryDesynchronized(key, EntityId(key)));
      DelUnbinds(b.synchronized, key);
      DelUnbinds(b.failed, key);
    }
  }

  /** The entity and the edges touching it are gone; everything else stays, in order. */
  ghost predicate ClearedOf(g: Graph, cleared: Graph, id: string) {
    && Unbinds(g.entities, cleared.entities, id) && cleared.entities.keys == Filter(Except(id), g.entities.keys)
    && (forall k :: Lookup(cleared.edges, k) == Surviving(g, k, id))
    && Values(cleared.edges) == Filter(ClearOf(id), Values(g.edges))
  }

  lemma RemovalClears(g: Graph, id: string, e: Event)
    requires Intact(g) && id != ""
    ensures var h := Publish(After(g, RemoveEntity(g, id)), e);
      && ClearedOf(g, h, id)
      && h.trace == g.trace + (if Lookup(g.entities, id).Some? then [EntityRemoved(id)] else []) + [e]
  {
    RemoveEntityEffect(g, id);
    if id !in g.entities.vals {
      NothingToRemove(g, id);
      assert g.trace + [] == g.trace;
    }
    hide RemoveEntity, Intact, Filter, Surviving, Values;
  }

  ghost predicate Forgets(b: Bridge, c: Bridge, key: string) {
    var id := "memory:" + key;
    && ClearedOf(b.graph, c.graph, id)
    && Unbinds(b.synchronized, c.synchronized, key) && c.synchronized.keys == Filter(Except(key), b.synchronized.keys)
    && Unbinds(b.failed, c.failed, key) && c.failed.keys == Filter(Except(key), b.failed.keys)
    && c.uuids == b.uuids && c.running == b.running
    && c.graph.trace == b.graph.trace + (if Lookup(b.graph.entities, id).Some? then [EntityRemoved(id)] else [])
                        + [MemoryDesynchronized(key, id)]
  }

  lemma NothingToRemove(g: Graph, id: string)
    requires Intact(g) && id !in g.entities.vals
    ensures forall k :: Lookup(g.edges, k) == Surviving(g, k, id)
    ensures Filter(Except(id), g.entities.keys) == g.entities.keys
    ensures Filter(ClearOf(id), Values(g.edges)) == Values(g.edges)
  {
    assert id !in g.entities.keys;
    FilterAll(Except(id), g.entities.keys);
    forall r | r in Values(g.edges)
      ensures ClearOf(id)(r)
    {
      MemberOfValues(g.edges, r);
    }
    FilterAll(ClearOf(id), Values(g.edges));
    hide Filter, Values;
  }

  /** synchronize_memory is refused exactly when the service is stopped, the key empty or its
      record not live; otherwise the key is tracked under its entity id and out of the failure
      table, one uuid is drawn per related key, and the events follow the steps: the old entity
      removed if there was one, the new one added, the key synchronized, and one report for
      each reference, in order. */
  lemma {:induction false} SynchronizeMemoryEffect(b: Bridge, memory: Index, key: string, now: int, keys: seq<string>)
    requires Intact(b.graph) && Issued(b.graph, b.uuids) && KeyedBy(memory, RecordKey())
    requires key in memory.vals ==> RelatedTo(memory.vals[key].value, keys)
    ensures var (c, r) := SynchronizeMemory(b, memory, key, now);
      if !b.running then r == Err(NotRunning) && c == b
      else if key == "" || LiveRecord(memory, key, now).None? then r == Err(InvalidRecord) && c == b
      else r == Ok("memory:" + key) && Follows(b, c, memory.vals[key], keys)
  {
    hide Intact, Issued, RelatedTo, RelatedKeys, Reconciled, Reconcile, Follows;
    if b.running && key != "" && LiveRecord(memory, key, now).Some? {
      OneMoreFetched(b, memory, memory.vals[key], now);
      RelatedKeysAreThoseKeys(memory.vals[key].value, keys);
      ReconciledFollows(b, memory.vals[key], keys);
    }
  }

  ghost predicate Follows(b: Bridge, c: Bridge, r: MemoryRecord, keys: seq<string>) {
    var id := "memory:" + r.key;
    var rs := Relationships(r, b.uuids);
    && Binds(b.synchronized, c.synchronized, r.key, id) && Unbinds(b.failed, c.failed, r.key)
    && c.uuids == b.uuids + |keys| && c.running == b.running
    && c.graph.trace ==
         b.graph.trace + (if Lookup(b.graph.entities, id).Some? then [EntityRemoved(id)] else [])
         + [EntityAdded(id)] + [MemorySynchronized(r.key, id)] + Map(Report(c.graph, r.key), rs)
  }

  lemma {:induction false} ReconciledFollows(b: Bridge, r: MemoryRecord, keys: seq<string>)
    requires Intact(b.graph) && Issued(b.graph, b.uuids) && r.key != "" && keys == RelatedKeys(r.value)
    ensures Follows(b, Reconciled(b, r), r, keys)
  {
    hide Intact, Issued, Installed, Link, Relationships, RelatedKeys;
    PutBinds(b.synchronized, r.key, EntityId(r.key));
    DelUnbinds(b.failed, r.key);
    hide Put, Del;
    LinkedPublishes(b, r);
    InstalledPublishes(b.graph, r);
  }

  lemma InstalledPublishes(g: Graph, r: MemoryRecord)
    ensures Installed(g, r).trace ==
      g.trace + (if Lookup(g.entities, "memory:" + r.key).Some? then [EntityRemoved("memory:" + r.key)] else [])
      + [EntityAdded("memory:" + r.key)] + [MemorySynchronized(r.key, "memory:" + r.key)]
  {
    hide Put, Del, Where, AttributesOf;
    assert g.trace + [] == g.trace;
  }

  lemma {:induction false} ReadyToLink(b: Bridge, r: MemoryRecord)
    requires Intact(b.graph) && Issued(b.graph, b.uuids) && r.key != ""
    ensures var g := Installed(b.graph, r);
      && Intact(g) && Issued(g, b.uuids) && EntityId(r.key) != "" && EntityId(r.key) in g.entities.vals
      && OutgoingInOrder(Relationships(r, b.uuids), EntityId(r.key), b.uuids)
  {
    hide Installed, Intact, Values, Filter;
    InstalledValues(b.graph, r);
    assert EntityId(r.key)[0] == 'm';
  }

  lemma {:induction false} LinkedPublishes(b: Bridge, r: MemoryRecord)
    requires Intact(b.graph) && Issued(b.graph, b.uuids) && r.key != ""
    ensures var g, rs := Installed(b.graph, r), Relationships(r, b.uuids);
      Link(g, r.key, rs).trace == g.trace + Map(Report(Link(g, r.key, rs), r.key), rs)
  {
    var g, rs := Installed(b.graph, r), Relationships(r, b.uuids);
    ReadyToLink(b, r);
    hide Installed, Link, Intact, Issued, OutgoingInOrder, Relationships;
    LinkPublishes(g, r.key, rs, EntityId(r.key), b.uuids);
    LinkAddsResolvable(g, r.key, rs, EntityId(r.key), b.uuids);
    SameReports(g, Link(g, r.key, rs), r.key, rs);
  }

  lemma SameReports(g: Graph, h: Graph, key: string, rs: seq<Relationship>)
    requires g.entities == h.entities
    ensures Map(Report(g, key), rs) == Map(Report(h, key), rs)
  {
  }

  // ---- Skipped records ----------------------------------------------------------------------

  lemma {:induction false} ReportedIffFetched(listed: seq<MemoryRecord>, clock: nat -> int, n: nat, i: nat)
    requires DistinctOn(RecordKey(), listed) && i < n <= |listed|
    ensures listed[i].key in Map(RecordKey(), Fetched(listed, clock, n)) <==>
      listed[i].key != "" && !listed[i].IsExpired(clock(i + 1))
  {
    KeysOfTurn(Fetched(listed, clock, n - 1), listed[n - 1], clock(n));
    if i < n - 1 {
      ReportedIffFetched(listed, clock, n - 1, i);
      assert RecordKey()(listed[i]) != RecordKey()(listed[n - 1]);
    } else {
      NotFetchedYet(listed, clock, i, i);
    }
  }

  lemma {:induction false} NotFetchedYet(listed: seq<MemoryRecord>, clock: nat -> int, n: nat, i: nat)
    requires DistinctOn(RecordKey(), listed) && n <= i < |listed|
    ensures listed[i].key !in Map(RecordKey(), Fetched(listed, clock, n))
  {
    if n != 0 {
      NotFetchedYet(listed, clock, n - 1, i);
      KeysOfTurn(Fetched(listed, clock, n - 1), listed[n - 1], clock(n));
      assert RecordKey()(listed[n - 1]) != RecordKey()(listed[i]);
    }
  }

  /** A listed record is reported exactly when its key is not empty and it is still live when
      it is fetched. Otherwise it is skipped, and nothing is recorded. */
  lemma {:induction false} SkippedWithoutTrace(b: Bridge, memory: Index, clock: nat -> int, i: nat)
    requires Intact(b.graph) && Issued(b.graph, b.uuids) && b.running && Bookkept(b)
    requires KeyedBy(memory, RecordKey()) && i < |LiveRecords(memory, clock(0))|
    ensures var listed := LiveRecords(memory, clock(0)); var (c, reported) := SynchronizeAll(b, memory, clock);
      && reported.Ok? && c.failed == Empty()
      && (listed[i].key in reported.value <==> listed[i].key != "" && !listed[i].IsExpired(clock(i + 1)))
  {
    hide SynchronizeAll, ReconciledAll, Intact, Issued, LiveRecords;
    var listed := LiveRecords(memory, clock(0));
    ListingOf(memory, clock(0));
    SynchronizeAllIsBatch(b, memory, clock);
    BatchBookkeeping(b, BatchOf(memory, clock), ReconciledAll(b, BatchOf(memory, clock)));
    ReportedIffFetched(listed, clock, |listed|, i);
  }

  /** Every listed record ends up reported or recorded as failed. */
  ghost predicate AllAccountedFor(listed: seq<MemoryRecord>, reported: seq<string>, failed: Dict<string, GraphError>) {
    forall i :: 0 <= i < |listed| ==> listed[i].key in reported || listed[i].key in failed.vals
  }

  /** Every listed record has a key and outlives the wait for its turn. */
  predicate AllOutlast(listed: seq<MemoryRecord>, clock: nat -> int) {
    forall i :: 0 <= i < |listed| ==> listed[i].key != "" && !listed[i].IsExpired(clock(i + 1))
  }

  lemma {:induction false} AccountedIffOutlasts(
    listed: seq<MemoryRecord>, clock: nat -> int, reported: seq<string>, failed: Dict<string, GraphError>)
    requires failed == Empty()
    requires forall i :: 0 <= i < |listed| ==>
      (listed[i].key in reported <==> listed[i].key != "" && !listed[i].IsExpired(clock(i + 1)))
    ensures AllAccountedFor(listed, reported, failed) <==> AllOutlast(listed, clock)
  {
  }

  /** synchronize_all accounts for every record it lists exactly when all of them have keys and
      none expires before its turn. */
  lemma {:induction false} AccountsForAllIff(b: Bridge, memory: Index, clock: nat -> int)
    requires Intact(b.graph) && Issued(b.graph, b.uuids) && b.running && Bookkept(b)
    requires KeyedBy(memory, RecordKey())
    ensures var (c, reported) := SynchronizeAll(b, memory, clock);
      && reported.Ok?
      && (AllAccountedFor(LiveRecords(memory, clock(0)), reported.value, c.failed) <==>
          AllOutlast(LiveRecords(memory, clock(0)), clock))
  {
    hide SynchronizeAll, ReconciledAll, BatchOf, Intact, Issued, LiveRecords, AllAccountedFor, AllOutlast, KeyedBy;
    var listed, batch := LiveRecords(memory, clock(0)), BatchOf(memory, clock);
    var (c, reported) := SynchronizeAll(b, memory, clock);
    SynchronizeAllIsBatch(b, memory, clock);
    BatchBookkeeping(b, batch, ReconciledAll(b, batch));
    assert c.failed == Empty();
    hide Bookkept;
    forall i | 0 <= i < |listed|
      ensures listed[i].key in reported.value <==> listed[i].key != "" && !listed[i].IsExpired(clock(i + 1))
    {
      SkippedWithoutTrace(b, memory, clock, i);
    }
    AccountedIffOutlasts(listed, clock, reported.value, c.failed);
  }

  /** A clock that advances by one at each reading. */
  function Ticking(start: int): nat -> int {
    (n: nat) => start + n
  }

  function OnlyRecord(r: MemoryRecord): (memory: Index)
    ensures KeyedBy(memory, RecordKey())
  {
    Dict([r.key], map[r.key := r])
  }

  lemma ListsIt(r: MemoryRecord, now: int)
    requires !r.IsExpired(now)
    ensures LiveRecords(OnlyRecord(r), now) == [r]
  {
    assert Values(OnlyRecord(r)) == [r];
    FilterSnoc(LiveAt(now), [], r);
    hide Values, OnlyRecord;
    assert [] + [r] == [r];
    assert Filter(LiveAt(now), []) == [];
  }

  lemma ExpiresBeforeItsTurn(r: MemoryRecord)
    requires r.expiresAt == Some(5)
    ensures BatchOf(OnlyRecord(r), Ticking(4)) == []
  {
    ListsIt(r, 4);
    hide LiveRecords, OnlyRecord;
    assert Turn(r, 5) == [];
    assert Fetched([r], Ticking(4), 0) == [];
  }

  /** One record, live when listed and expired when fetched, leaves no trace at all. */
  lemma ExpiringRecordLeavesNoTrace(b: Bridge, r: MemoryRecord)
    requires Intact(b.graph) && Issued(b.graph, b.uuids) && b.running && Bookkept(b)
    requires r.expiresAt == Some(5)
    ensures LiveRecords(OnlyRecord(r), Ticking(4)(0)) == [r]
    ensures var (c, reported) := SynchronizeAll(b, OnlyRecord(r), Ticking(4));
      reported == Ok([]) && c == b && c.failed == Empty()
  {
    hide SynchronizeAll, Intact, Issued, LiveRecords, BatchOf, OnlyRecord;
    ListsIt(r, 4);
    ExpiresBeforeItsTurn(r);
    SynchronizeAllIsBatch(b, OnlyRecord(r), Ticking(4));
    assert Map(RecordKey(), []) == [];
  }
}

/** What the order of a batch can change. */
module BridgeOrder {
  import opened Wrappers
  import opened Seqs
  import opened Dicts
  import opened Data
  import opened Graphs
  import opened MemoryMapper
  import opened Memories
  import opened Bridges
  import opened Settling
  import opened SettlingLaws
  import opened BatchSync
  import opened BridgeTheorems

  function Contribution(known: set<string>, inside: set<string>): MemoryRecord -> multiset<Look> {
    (r: MemoryRecord) => Outgoing(LookOf(), LookTarget(), known, inside)(ItemOf()(r, 0))
  }

  lemma ContributionIgnoresIds(known: set<string>, inside: set<string>)
    ensures forall r, n: nat ::
      Outgoing(LookOf(), LookTarget(), known, inside)(ItemOf()(r, n)) == Contribution(known, inside)(r)
  {
    forall r, n: nat
      ensures Outgoing(LookOf(), LookTarget(), known, inside)(ItemOf()(r, n)) == Contribution(known, inside)(r)
    {
      ItemLooksTheSame(r, n, 0);
    }
  }

  /** The multiset of edges, ids aside, that do not run from one record of the batch to another;
      self-loops are among them. */
  ghost function OtherEdges(g: Graph, inside: set<string>): multiset<Look> {
    multiset(Map(LookOf(), Filter(NotBetween(GraphEnds(), inside), Values(g.edges))))
  }

  lemma PermutedMembers<T>(a: seq<T>, b: seq<T>, x: T)
    requires multiset(a) == multiset(b)
    ensures x in a <==> x in b
  {
    assert x in a <==> x in multiset(a);
    assert x in b <==> x in multiset(b);
  }

  lemma PermutedNodes(a: seq<MemoryRecord>, b: seq<MemoryRecord>)
    requires multiset(a) == multiset(b)
    ensures (set x | x in Map(NodeOfKey(), a)) == (set x | x in Map(NodeOfKey(), b))
  {
    forall x
      ensures x in Map(NodeOfKey(), a) <==> x in Map(NodeOfKey(), b)
    {
      PermutedImage(NodeOfKey(), a, b, x);
      PermutedImage(NodeOfKey(), b, a, x);
    }
  }

  lemma PermutedImage<T, U>(f: T -> U, a: seq<T>, b: seq<T>, x: U)
    requires multiset(a) == multiset(b)
    ensures x in Map(f, a) ==> x in Map(f, b)
  {
    if x in Map(f, a) {
      var i :| 0 <= i < |a| && Map(f, a)[i] == x;
      PermutedMembers(a, b, a[i]);
      var j :| 0 <= j < |b| && b[j] == a[i];
      assert Map(f, b)[j] == x;
    }
  }

  /** Synchronising the same records in another order gives the same entity map and, ids
      aside, the same multiset of edges, except for edges from one record of the batch to another.
      Self-references are kept in every order. */
  lemma OrderOnlyMattersInside(
    b: Bridge, batch: seq<MemoryRecord>, other: seq<MemoryRecord>, c: Bridge, d: Bridge, inside: set<string>)
    requires Intact(b.graph) && Issued(b.graph, b.uuids)
    requires IsBatch(batch) && IsBatch(other) && multiset(batch) == multiset(other)
    requires c == ReconciledAll(b, batch) && d == ReconciledAll(b, other)
    requires inside == (set x | x in Map(NodeOfKey(), batch))
    ensures c.graph.entities.vals == d.graph.entities.vals
    ensures OtherEdges(c.graph, inside) == OtherEdges(d.graph, inside)
  {
    BatchClosedForm(b, batch);
    BatchClosedForm(b, other);
    PermutedNodes(batch, other);
    SameEntitiesInAnyOrder(b, batch, other, c, d);
    SameOtherEdgesInAnyOrder(b.graph, b.uuids, batch, other, inside);
  }

  lemma SameOtherEdgesInAnyOrder(
    g: Graph, first: nat, batch: seq<MemoryRecord>, other: seq<MemoryRecord>, inside: set<string>)
    requires multiset(batch) == multiset(other)
    requires inside == (set x | x in Map(NodeOfKey(), batch))
    ensures multiset(Map(LookOf(), Filter(NotBetween(GraphEnds(), inside),
              Settled(GraphEnds(), TablesOf(g), ItemsOf(batch, first)).edges)))
         == multiset(Map(LookOf(), Filter(NotBetween(GraphEnds(), inside),
              Settled(GraphEnds(), TablesOf(g), ItemsOf(other, first)).edges)))
  {
    PermutedNodes(batch, other);
    ItemsAreProper(batch, first);
    ItemsAreProper(other, first);
    ContributionIgnoresIds(g.entities.vals.Keys, inside);
    SettledInAnyOrder(GraphEnds(), LookOf(), LookTarget(), TablesOf(g), ItemOf(), ReferenceCount(),
                      Contribution(g.entities.vals.Keys, inside), batch, other, first, inside);
  }

  lemma SameValuesSameMap(a: Dict<string, Entity>, b: Dict<string, Entity>)
    requires KeyedBy(a, EntityKey()) && KeyedBy(b, EntityKey())
    requires forall e :: e in Values(a) <==> e in Values(b)
    ensures a.vals == b.vals
  {
    forall k
      ensures k in a.vals ==> k in b.vals && b.vals[k] == a.vals[k]
      ensures k in b.vals ==> k in a.vals
    {
      if k in a.vals {
        MemberOfValues(a, a.vals[k]);
        MemberOfValues(b, a.vals[k]);
      }
      if k in b.vals {
        MemberOfValues(a, b.vals[k]);
        MemberOfValues(b, b.vals[k]);
      }
    }
  }

  lemma SettledEntityMembers(g: Graph, batch: seq<MemoryRecord>, first: nat, e: Entity)
    ensures e in Settled(GraphEnds(), TablesOf(g), ItemsOf(batch, first)).entities <==>
      (e in Values(g.entities) && e.id !in Map(NodeOfKey(), batch)) || e in Map(EntityOf(), batch)
  {
    ItemsAreProper(batch, first);
    FilterMembers(Outside(GraphEnds(), Map(NodeOfKey(), batch)), Values(g.entities));
    NumberedEntities(batch, first);
  }

  lemma NumberedEntities(batch: seq<MemoryRecord>, first: nat)
    ensures Map(EntityIn(), ItemsOf(batch, first)) == Map(EntityOf(), batch)
  {
    NumberedLength(ItemOf(), ReferenceCount(), batch, first);
    forall i | 0 <= i < |batch|
      ensures ItemsOf(batch, first)[i].entity == EntityOf()(batch[i])
    {
      NumberedAt(ItemOf(), ReferenceCount(), batch, first, i);
    }
  }

  lemma SameEntitiesInAnyOrder(b: Bridge, batch: seq<MemoryRecord>, other: seq<MemoryRecord>, c: Bridge, d: Bridge)
    requires Intact(c.graph) && Intact(d.graph) && multiset(batch) == multiset(other)
    requires Values(c.graph.entities) == Settled(GraphEnds(), TablesOf(b.graph), ItemsOf(batch, b.uuids)).entities
    requires Values(d.graph.entities) == Settled(GraphEnds(), TablesOf(b.graph), ItemsOf(other, b.uuids)).entities
    ensures c.graph.entities.vals == d.graph.entities.vals
  {
    forall e
      ensures e in Values(c.graph.entities) <==> e in Values(d.graph.entities)
    {
      SettledEntityMembers(b.graph, batch, b.uuids, e);
      SettledEntityMembers(b.graph, other, b.uuids, e);
      PermutedImage(EntityOf(), batch, other, e);
      PermutedImage(EntityOf(), other, batch, e);
      PermutedImage(NodeOfKey(), batch, other, e.id);
      PermutedImage(NodeOfKey(), other, batch, e.id);
    }
    SameValuesSameMap(c.graph.entities, d.graph.entities);
  }

  /** When each of four fetches, at its own instant, finds the record live. */
  datatype Readings = Readings(kFirst: int, thenL: int, lFirst: int, thenK: int)

  /** Two records in either order: everything agrees but the edges from one to the other.
      Self-loops agree. */
  lemma SynchronizationsCommute(b: Bridge, memory: Index, k: string, l: string, at: Readings)
    requires Intact(b.graph) && Issued(b.graph, b.uuids) && b.running && KeyedBy(memory, RecordKey())
    requires k != l && k != "" && l != ""
    requires LiveRecord(memory, k, at.kFirst).Some? && LiveRecord(memory, l, at.thenL).Some?
    requires LiveRecord(memory, l, at.lFirst).Some? && LiveRecord(memory, k, at.thenK).Some?
    ensures var kl := SynchronizeMemory(SynchronizeMemory(b, memory, k, at.kFirst).0, memory, l, at.thenL).0;
      var lk := SynchronizeMemory(SynchronizeMemory(b, memory, l, at.lFirst).0, memory, k, at.thenK).0;
      && kl.graph.entities.vals == lk.graph.entities.vals
      && OtherEdges(kl.graph, {EntityId(k), EntityId(l)}) == OtherEdges(lk.graph, {EntityId(k), EntityId(l)})
  {
    var r, s := memory.vals[k], memory.vals[l];
    assert r.key == k && s.key == l;
    hide SynchronizeMemory, ReconciledAll, Intact, Issued, EntityId, OtherEdges;
    var first, second := SynchronizeMemory(b, memory, k, at.kFirst).0, SynchronizeMemory(b, memory, l, at.lFirst).0;
    var kl, lk := SynchronizeMemory(first, memory, l, at.thenL).0, SynchronizeMemory(second, memory, k, at.thenK).0;
    TwoInTurn(b, memory, r, s, at.kFirst, at.thenL, first, kl);
    TwoInTurn(b, memory, s, r, at.lFirst, at.thenK, second, lk);
    EitherOrder(b, r, s, kl, lk);
  }

  lemma EitherOrder(b: Bridge, r: MemoryRecord, s: MemoryRecord, rs: Bridge, sr: Bridge)
    requires Intact(b.graph) && Issued(b.graph, b.uuids)
    requires r.key != s.key && r.key != "" && s.key != ""
    requires rs == ReconciledAll(b, [r, s]) && sr == ReconciledAll(b, [s, r])
    ensures rs.graph.entities.vals == sr.graph.entities.vals
    ensures OtherEdges(rs.graph, {EntityId(r.key), EntityId(s.key)})
         == OtherEdges(sr.graph, {EntityId(r.key), EntityId(s.key)})
  {
    hide EntityId, ReconciledAll, OtherEdges;
    var inside := {EntityId(r.key), EntityId(s.key)};
    assert multiset([r, s]) == multiset([s, r]);
    assert Map(NodeOfKey(), [r, s]) == [EntityId(r.key), EntityId(s.key)];
    assert inside == (set x | x in Map(NodeOfKey(), [r, s]));
    OrderOnlyMattersInside(b, [r, s], [s, r], rs, sr, inside);
  }

  lemma ReconciledTwo(b: Bridge, r: MemoryRecord, s: MemoryRecord, mid: Bridge, c: Bridge)
    requires mid == Reconciled(b, r) && c == Reconciled(mid, s)
    ensures ReconciledAll(b, [r, s]) == c
  {
    ReconciledAllSnoc(b, [], r);
    ReconciledAllSnoc(b, [r], s);
    assert [] + [r] == [r] && [r] + [s] == [r, s];
  }

  lemma TwoInTurn(
    b: Bridge, memory: Index, r: MemoryRecord, s: MemoryRecord, now: int, later: int, mid: Bridge, c: Bridge)
    requires Intact(b.graph) && Issued(b.graph, b.uuids) && b.running
    requires r.key in memory.vals && memory.vals[r.key] == r && r.key != "" && !r.IsExpired(now)
    requires s.key in memory.vals && memory.vals[s.key] == s && s.key != "" && !s.IsExpired(later)
    requires mid == SynchronizeMemory(b, memory, r.key, now).0
    requires c == SynchronizeMemory(mid, memory, s.key, later).0
    ensures c == ReconciledAll(b, [r, s])
  {
    InTurn(b, memory, r, now, mid);
    StillSound(b, r, mid);
    InTurn(mid, memory, s, later, c);
    ReconciledTwo(b, r, s, mid, c);
  }
}

/** Which references a batch keeps. */
module BridgeReferences {
  import opened Wrappers
  import opened Seqs
  import opened Dicts
  import opened Data
  import opened Graphs
  import opened MemoryMapper
  import opened Memories
  import opened Bridges
  import opened Settling
  import opened SettlingLaws
  import opened BatchSync
  import opened BridgeTheorems

  ghost predicate HasEdge(g: Graph, source: string, target: string) {
    exists r :: r in Values(g.edges) && r.source == source && r.target == target
  }

  lemma ReferencesOf(r: MemoryRecord, first: nat, t: string)
    ensures t in RelatedKeys(r.value) <==>
      exists x :: x in Relationships(r, first) && x.target == EntityId(t)
  {
    var keys, rs := RelatedKeys(r.value), Relationships(r, first);
    if t in keys {
      var i :| 0 <= i < |keys| && keys[i] == t;
      assert rs[i] in rs && rs[i].target == EntityId(t);
    }
    if exists x :: x in rs && x.target == EntityId(t) {
      var i :| 0 <= i < |rs| && rs[i].target == EntityId(t);
      EntityIdInjective(keys[i], t);
    }
  }

  /** A reference of the i-th record to key t can live: t is the key of that record or an
      earlier one, or of no record of the batch while its entity was in the graph before. */
  ghost predicate CanLive(g: Graph, batch: seq<MemoryRecord>, i: nat, t: string)
    requires i < |batch|
  {
    || (exists j :: 0 <= j <= i && batch[j].key == t)
    || (EntityId(t) in g.entities.vals && forall j :: 0 <= j < |batch| ==> batch[j].key != t)
  }

  lemma SurvivesIffCanLive(g: Graph, batch: seq<MemoryRecord>, i: nat, r: Relationship, t: string)
    requires i < |batch| && r.target == EntityId(t)
    ensures Survives(GraphEnds(), g.entities.vals.Keys, Map(NodeOfKey(), batch), i)(r) <==> CanLive(g, batch, i, t)
  {
    var nodes := Map(NodeOfKey(), batch);
    forall j | 0 <= j < |batch|
      ensures nodes[j] == EntityId(t) <==> batch[j].key == t
    {
      if nodes[j] == EntityId(t) {
        EntityIdInjective(batch[j].key, t);
      }
    }
    assert EntityId(t) in nodes[..i + 1] <==> exists j :: 0 <= j <= i && nodes[j] == EntityId(t);
    assert EntityId(t) in nodes <==> exists j :: 0 <= j < |nodes| && nodes[j] == EntityId(t);
  }

  lemma {:induction false} EdgeOverRelatedKeys(b: Bridge, batch: seq<MemoryRecord>, i: nat, t: string)
    requires Intact(b.graph) && Issued(b.graph, b.uuids) && IsBatch(batch) && i < |batch|
    ensures HasEdge(ReconciledAll(b, batch).graph, EntityId(batch[i].key), EntityId(t)) <==>
      t in RelatedKeys(batch[i].value) && CanLive(b.graph, batch, i, t)
  {
    hide EntityId, ReconciledAll, Settled, ItemsOf, Relationships, CanLive, Intact, Issued;
    var n := b.uuids + Total(ReferenceCount(), batch[..i]);
    BatchClosedForm(b, batch);
    ReferencesOf(batch[i], n, t);
    forall r: Relationship | r.source == EntityId(batch[i].key) && r.target == EntityId(t)
      ensures r in Values(ReconciledAll(b, batch).graph.edges) <==>
        r in Relationships(batch[i], n) && CanLive(b.graph, batch, i, t)
    {
      EdgeOfRecord(b.graph, b.uuids, batch, i, r, t);
    }
    ReferencesLeave(batch[i], n);
  }

  /** After a batch, the i-th record's entity has an edge to key t exactly when its value names
      t as a related key and the reference can live. A forward reference never does. */
  lemma {:induction false} EdgeAfterBatchIff(b: Bridge, batch: seq<MemoryRecord>, i: nat, t: string)
    requires Intact(b.graph) && Issued(b.graph, b.uuids) && IsBatch(batch) && i < |batch|
    ensures HasEdge(ReconciledAll(b, batch).graph, EntityId(batch[i].key), EntityId(t)) <==>
      Names(batch[i].value, t) && CanLive(b.graph, batch, i, t)
  {
    hide HasEdge, ReconciledAll, CanLive, Intact, Issued, IsBatch, Names, RelatedKeys, EntityId;
    EdgeOverRelatedKeys(b, batch, i, t);
    NamesIff(batch[i].value, t);
  }

  lemma ReferencesLeave(r: MemoryRecord, n: nat)
    ensures forall x :: x in Relationships(r, n) ==> x.source == EntityId(r.key)
  {
  }

  lemma {:induction false} EdgeOfRecord(
    g: Graph, first: nat, batch: seq<MemoryRecord>, i: nat, r: Relationship, t: string)
    requires IsBatch(batch) && i < |batch|
    requires r.source == EntityId(batch[i].key) && r.target == EntityId(t)
    ensures r in Settled(GraphEnds(), TablesOf(g), ItemsOf(batch, first)).edges <==>
      r in Relationships(batch[i], first + Total(ReferenceCount(), batch[..i])) && CanLive(g, batch, i, t)
  {
    hide EntityId, Settled, CanLive, Survives, Relationships, Numbered, Filter, Proper;
    ItemsAreProper(batch, first);
    NodesAreDistinct(batch);
    NumberedAt(ItemOf(), ReferenceCount(), batch, first, i);
    EdgesOfBatchNode(GraphEnds(), TablesOf(g), ItemsOf(batch, first), i, r);
    SurvivesIffCanLive(g, batch, i, r, t);
  }

  // ---- Multiplicity and order -------------------------------------------------------------

  /** The keys a reference of the i-th record can live to. */
  ghost function Living(g: Graph, batch: seq<MemoryRecord>, i: nat): string -> bool
    requires i < |batch|
  {
    (t: string) => CanLive(g, batch, i, t)
  }

  function NodeOfRelated(): string -> string {
    (t: string) => EntityId(t)
  }

  lemma LivingTargets(g: Graph, batch: seq<MemoryRecord>, i: nat, first: nat, nodes: seq<string>)
    requires i < |batch| && nodes == Map(NodeOfKey(), batch)
    ensures Map(TargetOf(),
                Filter(Survives(GraphEnds(), g.entities.vals.Keys, nodes, i), Relationships(batch[i], first)))
         == Map(NodeOfRelated(), Filter(Living(g, batch, i), RelatedKeys(batch[i].value)))
  {
    hide CanLive, Filter, EntityId, RelatedKeys;
    var refs, keys := Relationships(batch[i], first), RelatedKeys(batch[i].value);
    var known := g.entities.vals.Keys;
    var survives, lives := Survives(GraphEnds(), known, nodes, i), Lives(known, nodes, i);
    FilterMap(TargetOf(), survives, lives, refs);
    assert Map(TargetOf(), refs) == Map(NodeOfRelated(), keys);
    forall t | t in keys
      ensures Living(g, batch, i)(t) == lives(NodeOfRelated()(t))
    {
      SurvivesIffCanLive(g, batch, i, Reference(batch[i].key, t, Drawn(0)), t);
    }
    FilterMap(NodeOfRelated(), Living(g, batch, i), lives, keys);
  }

  lemma {:induction false} EdgesOverRelatedKeys(b: Bridge, batch: seq<MemoryRecord>, i: nat)
    requires Intact(b.graph) && Issued(b.graph, b.uuids) && IsBatch(batch) && i < |batch|
    ensures var after := ReconciledAll(b, batch).graph;
      Map(TargetOf(), Filter(LeavesFrom(GraphEnds(), EntityId(batch[i].key)), Values(after.edges)))
      == Map(NodeOfRelated(), Filter(Living(b.graph, batch, i), RelatedKeys(batch[i].value)))
  {
    hide EntityId, ReconciledAll, Settled, Numbered, Relationships, RelatedKeys, CanLive;
    hide Intact, Issued, Filter, Survives, Proper;
    var items, tables := ItemsOf(batch, b.uuids), TablesOf(b.graph);
    BatchClosedForm(b, batch);
    ItemsAreProper(batch, b.uuids);
    NodesAreDistinct(batch);
    NumberedAt(ItemOf(), ReferenceCount(), batch, b.uuids, i);
    SettledEdgesFrom(GraphEnds(), tables, items, i);
    LivingTargets(b.graph, batch, i, b.uuids + Total(ReferenceCount(), batch[..i]), Map(NodeOfKey(), batch));
  }

  lemma {:induction false} OtherEdgesStay(b: Bridge, batch: seq<MemoryRecord>)
    requires Intact(b.graph) && Issued(b.graph, b.uuids) && IsBatch(batch)
    ensures Filter(AwayFromAll(GraphEnds(), Map(NodeOfKey(), batch)), Values(ReconciledAll(b, batch).graph.edges))
         == Filter(AwayFromAll(GraphEnds(), Map(NodeOfKey(), batch)), Values(b.graph.edges))
  {
    hide ReconciledAll, Settled, Numbered, Intact, Issued, Filter, Proper;
    BatchClosedForm(b, batch);
    ItemsAreProper(batch, b.uuids);
    SettledKeepsTheRest(GraphEnds(), TablesOf(b.graph), ItemsOf(batch, b.uuids));
  }

  /** After a batch, the edges leaving the i-th record's entity are one per occurrence of a
      related key that can live, in the order the record's value lists them; and the edges that
      touch no entity of the batch are exactly the ones there were, in their order. */
  lemma {:induction false} EdgesAfterBatch(b: Bridge, batch: seq<MemoryRecord>, i: nat, keys: seq<string>)
    requires Intact(b.graph) && Issued(b.graph, b.uuids) && IsBatch(batch) && i < |batch|
    requires RelatedTo(batch[i].value, keys)
    ensures var after := ReconciledAll(b, batch).graph;
      Map(TargetOf(), Filter(LeavesFrom(GraphEnds(), EntityId(batch[i].key)), Values(after.edges)))
      == Map(NodeOfRelated(), Filter(Living(b.graph, batch, i), keys))
    ensures var after := ReconciledAll(b, batch).graph;
      Filter(AwayFromAll(GraphEnds(), Map(NodeOfKey(), batch)), Values(after.edges))
      == Filter(AwayFromAll(GraphEnds(), Map(NodeOfKey(), batch)), Values(b.graph.edges))
  {
    hide ReconciledAll, CanLive, Intact, Issued, IsBatch, RelatedTo, RelatedKeys, EntityId, Filter, Living;
    RelatedKeysAreThoseKeys(batch[i].value, keys);
    EdgesOverRelatedKeys(b, batch, i);
    OtherEdgesStay(b, batch);
  }

  /** There are no other edges: those from outside into the batch are gone. */
  lemma {:induction false} NoOtherEdges(b: Bridge, batch: seq<MemoryRecord>, r: Relationship)
    requires Intact(b.graph) && Issued(b.graph, b.uuids) && IsBatch(batch)
    requires r in Values(ReconciledAll(b, batch).graph.edges)
    ensures AwayFromAll(GraphEnds(), Map(NodeOfKey(), batch))(r) || r.source in Map(NodeOfKey(), batch)
  {
    hide ReconciledAll, Settled, Numbered, Intact, Issued, Proper;
    BatchClosedForm(b, batch);
    ItemsAreProper(batch, b.uuids);
    SettledHasNothingElse(GraphEnds(), TablesOf(b.graph), ItemsOf(batch, b.uuids), r);
  }

  /** No record refers to a record listed after it. */
  ghost predicate DependencyOrdered(batch: seq<MemoryRecord>) {
    forall i, j :: 0 <= i < j < |batch| ==> !Names(batch[i].value, batch[j].key)
  }

  /** The graph has an edge for every reference from one batch record to another. */
  ghost predicate Complete(g: Graph, batch: seq<MemoryRecord>) {
    forall i, j :: 0 <= i < |batch| && 0 <= j < |batch| && Names(batch[i].value, batch[j].key) ==>
      HasEdge(g, EntityId(batch[i].key), EntityId(batch[j].key))
  }

  /** A batch captures all references among its records exactly when it is listed in
      dependency order. */
  lemma CompleteIffDependencyOrdered(b: Bridge, batch: seq<MemoryRecord>)
    requires Intact(b.graph) && Issued(b.graph, b.uuids) && IsBatch(batch)
    ensures Complete(ReconciledAll(b, batch).graph, batch) <==> DependencyOrdered(batch)
  {
    hide Names;
    forall i, j | 0 <= i < |batch| && 0 <= j < |batch| && Names(batch[i].value, batch[j].key)
      ensures HasEdge(ReconciledAll(b, batch).graph, EntityId(batch[i].key), EntityId(batch[j].key)) <==> j <= i
    {
      EdgeAfterBatchIff(b, batch, i, batch[j].key);
    }
  }
}
