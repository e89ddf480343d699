/** Safety of the graph and the bridge over every run of direct and bridge operations. */

module BridgeRuns {
  import opened Wrappers
  import opened Seqs
  import opened Dicts
  import opened Data
  import opened Graphs
  import opened MemoryMapper
  import opened Memories
  import opened Bridges
  import opened Settling
  import opened BatchSync
  import opened BridgeTheorems

  /** Anything that can happen to a graph shared by direct callers and the bridge. The memory
      a synchronisation reads may be any self-keyed index at all. */
  datatype Op =
    | DirectAddEntity(entity: Entity)
    | DirectRemoveEntity(id: string)
    | DirectAddRelationship(relationship: Relationship)
    | DirectRemoveRelationship(edge: Id)
    | Synchronize(memory: Index, key: string, now: int)
    | SynchronizeEvery(memory: Index, clock: nat -> int)
    | Forget(key: string)
    | ResetTables
    | DrawElsewhere
    | SetRunning(on: bool)

  function Step(b: Bridge, op: Op): Bridge {
    match op
    case DirectAddEntity(e) => b.(graph := After(b.graph, AddEntity(b.graph, e)))
    case DirectRemoveEntity(id) => b.(graph := After(b.graph, RemoveEntity(b.graph, id)))
    case DirectAddRelationship(r) => b.(graph := After(b.graph, AddRelationship(b.graph, r)))
    case DirectRemoveRelationship(id) => b.(graph := After(b.graph, RemoveRelationship(b.graph, id)))
    case Synchronize(memory, key, now) => SynchronizeMemory(b, memory, key, now).0
    case SynchronizeEvery(memory, clock) => SynchronizeAll(b, memory, clock).0
    case Forget(key) => RemoveMemory(b, key).0
    case ResetTables => Reset(b)
    case DrawElsewhere => b.(uuids := b.uuids + 1)
    case SetRunning(on) => b.(running := on)
  }

  function Run(b: Bridge, ops: seq<Op>): Bridge {
    if ops == [] then b else Step(Run(b, ops[..|ops| - 1]), ops[|ops| - 1])
  }

  /** A caller cannot hold a uuid4 that has not been drawn; memory indexes are self-keyed. */
  ghost predicate Plausible(b: Bridge, op: Op) {
    match op
    case DirectAddRelationship(r) => r.id.Drawn? ==> r.id.n < b.uuids
    case Synchronize(memory, _, _) => KeyedBy(memory, RecordKey())
    case SynchronizeEvery(memory, _) => KeyedBy(memory, RecordKey())
    case _ => true
  }

  /** The operation does not remove a tracked key's entity behind the bridge's back. */
  predicate Undisturbed(b: Bridge, op: Op) {
    op.DirectRemoveEntity? ==> forall k :: k in b.synchronized.vals ==> EntityId(k) != op.id
  }

  ghost predicate PlausibleRun(b: Bridge, ops: seq<Op>) {
    ops == [] ||
    (PlausibleRun(b, ops[..|ops| - 1]) && Plausible(Run(b, ops[..|ops| - 1]), ops[|ops| - 1]))
  }

  ghost predicate UndisturbedRun(b: Bridge, ops: seq<Op>) {
    ops == [] ||
    (UndisturbedRun(b, ops[..|ops| - 1]) && Undisturbed(Run(b, ops[..|ops| - 1]), ops[|ops| - 1]))
  }

  ghost predicate Sound(b: Bridge) {
    Intact(b.graph) && Issued(b.graph, b.uuids) && Bookkept(b)
  }

  lemma ReconcilingIsSound(b: Bridge, r: MemoryRecord, c: Bridge)
    requires Sound(b) && r.key != "" && c == Reconciled(b, r)
    ensures Sound(c)
    ensures Tracked(b) ==> Tracked(c)
  {
    hide Reconciled, Intact, Issued, EntityId, Rebuilt, Relinked, Values;
    ReconciledClosedForm(b, r);
    ReconciledTables(b, r, c);
    DelFromEmpty(b.failed, r.key);
  }

  lemma SynchronizeIsSound(b: Bridge, memory: Index, key: string, now: int, c: Bridge)
    requires Sound(b) && KeyedBy(memory, RecordKey())
    requires c == SynchronizeMemory(b, memory, key, now).0
    ensures Sound(c)
    ensures Tracked(b) ==> Tracked(c)
  {
    hide Sound, Tracked, Reconciled, Reconcile;
    if b.running && key != "" && LiveRecord(memory, key, now).Some? {
      SoundIsIntact(b);
      OneMoreFetched(b, memory, memory.vals[key], now);
      ReconcilingIsSound(b, memory.vals[key], c);
    }
  }

  lemma SoundIsIntact(b: Bridge)
    requires Sound(b)
    ensures Intact(b.graph) && Issued(b.graph, b.uuids) && Bookkept(b)
  {
  }

  lemma {:induction false} BatchIsSound(b: Bridge, batch: seq<MemoryRecord>, c: Bridge)
    requires Sound(b) && HaveKeys(batch) && c == ReconciledAll(b, batch)
    ensures Sound(c)
    ensures Tracked(b) ==> Tracked(c)
  {
    hide Sound, Tracked, Reconciled;
    if batch != [] {
      BatchIsSound(b, batch[..|batch| - 1], ReconciledAll(b, batch[..|batch| - 1]));
      ReconcilingIsSound(ReconciledAll(b, batch[..|batch| - 1]), batch[|batch| - 1], c);
    }
  }

  lemma SynchronizeAllIsSound(b: Bridge, memory: Index, clock: nat -> int, c: Bridge)
    requires Sound(b) && KeyedBy(memory, RecordKey())
    requires c == SynchronizeAll(b, memory, clock).0
    ensures Sound(c)
    ensures Tracked(b) ==> Tracked(c)
  {
    hide Sound, Tracked, SynchronizeFirst, ReconciledAll, Fetched, LiveRecords;
    if b.running {
      SoundIsIntact(b);
      SynchronizeAllIsBatch(b, memory, clock);
      BatchIsSound(b, BatchOf(memory, clock), c);
    }
  }

  lemma RemovingEntity(g: Graph, id: string, uuids: nat)
    requires Intact(g) && Issued(g, uuids)
    ensures Intact(After(g, RemoveEntity(g, id))) && Issued(After(g, RemoveEntity(g, id)), uuids)
    ensures id in g.entities.vals && id != "" ==>
      After(g, RemoveEntity(g, id)).entities.vals.Keys == g.entities.vals.Keys - {id}
    ensures After(g, RemoveEntity(g, id)).entities.vals.Keys >= g.entities.vals.Keys - {id}
  {
    RemoveEntityKeepsIntact(g, id);
  }

  lemma ForgetIsSound(b: Bridge, key: string, c: Bridge)
    requires Sound(b) && c == RemoveMemory(b, key).0
    ensures Sound(c)
    ensures Tracked(b) ==> Tracked(c)
  {
    RemovingEntity(b.graph, EntityId(key), b.uuids);
    DelFromEmpty(b.failed, key);
    hide RemoveEntity;
    forall k | k in Del(b.synchronized, key).vals
      ensures EntityId(k) != EntityId(key)
    {
      if EntityId(k) == EntityId(key) {
        EntityIdInjective(k, key);
      }
    }
  }

  lemma DirectNodeIsSound(b: Bridge, op: Op, c: Bridge)
    requires Sound(b) && c == Step(b, op) && (op.DirectAddEntity? || op.DirectRemoveEntity?)
    ensures Sound(c)
    ensures Tracked(b) && Undisturbed(b, op) ==> Tracked(c)
  {
    hide EntityId, Intact;
    match op
    case DirectAddEntity(e) => AddEntityKeepsIntact(b.graph, e);
    case DirectRemoveEntity(id) =>
      RemovingEntity(b.graph, id, b.uuids);
      hide RemoveEntity;
  }

  lemma DirectEdgeIsSound(b: Bridge, op: Op, c: Bridge)
    requires Sound(b) && Plausible(b, op) && c == Step(b, op)
    requires op.DirectAddRelationship? || op.DirectRemoveRelationship?
    ensures Sound(c)
    ensures Tracked(b) ==> Tracked(c)
  {
    hide EntityId, Intact, Filter;
    match op
    case DirectAddRelationship(r) => AddRelationshipKeepsIntact(b.graph, r);
    case DirectRemoveRelationship(id) => RemoveRelationshipKeepsIntact(b.graph, id);
  }

  lemma StepIsSound(b: Bridge, op: Op, c: Bridge)
    requires Sound(b) && Plausible(b, op) && c == Step(b, op)
    ensures Sound(c)
    ensures Tracked(b) && Undisturbed(b, op) ==> Tracked(c)
  {
    hide SynchronizeMemory, SynchronizeAll, RemoveMemory, AddEntity, RemoveEntity, AddRelationship, RemoveRelationship;
    match op
    case Synchronize(memory, key, now) => SynchronizeIsSound(b, memory, key, now, c);
    case SynchronizeEvery(memory, clock) => SynchronizeAllIsSound(b, memory, clock, c);
    case Forget(key) => ForgetIsSound(b, key, c);
    case ResetTables =>
    case DrawElsewhere =>
    case SetRunning(_) =>
    case DirectAddEntity(_) => DirectNodeIsSound(b, op, c);
    case DirectRemoveEntity(_) => DirectNodeIsSound(b, op, c);
    case _ => DirectEdgeIsSound(b, op, c);
  }

  /** Over every run the graph stays intact, drawn ids stay fresh, the failure table stays
      empty and every tracked key maps to its own entity id; and unless someone removes a
      tracked entity directly, every tracked key's entity stays in the graph. */
  lemma {:induction false} RunIsSound(b: Bridge, ops: seq<Op>)
    requires Sound(b) && PlausibleRun(b, ops)
    ensures Sound(Run(b, ops))
    ensures Tracked(b) && UndisturbedRun(b, ops) ==> Tracked(Run(b, ops))
  {
    hide Sound, Tracked, Step, Plausible, Undisturbed;
    if ops != [] {
      RunIsSound(b, ops[..|ops| - 1]);
      StepIsSound(Run(b, ops[..|ops| - 1]), ops[|ops| - 1], Run(b, ops));
    }
  }

  /** In every reachable graph `neighbors` resolves every id it collects. */
  lemma ReachableNeighborsResolve(b: Bridge, ops: seq<Op>, id: string, other: string)
    requires Sound(b) && PlausibleRun(b, ops)
    requires other in NeighborIds(Values(Run(b, ops).graph.edges), id)
    ensures other in Run(b, ops).graph.entities.vals && id in NeighborIds(Values(Run(b, ops).graph.edges), other)
  {
    RunIsSound(b, ops);
    NeighborsAreRegistered(Run(b, ops).graph, id);
    NeighborsSymmetric(Values(Run(b, ops).graph.edges), id, other);
  }

  /** A fresh graph and bridge satisfy everything the runs preserve. */
  lemma FreshBridgeIsSound(uuids: nat)
    ensures Sound(Bridge(Graph(Empty(), Empty(), []), Empty(), Empty(), uuids, false))
    ensures Tracked(Bridge(Graph(Empty(), Empty(), []), Empty(), Empty(), uuids, false))
  {
  }
}
