/** The bridge from memory records to the knowledge graph. */

module Bridges {
  import opened Wrappers
  import opened Seqs
  import opened Dicts
  import opened Data
  import opened Trace
  import opened Graphs
  import opened MemoryMapper
  import opened Memories

  datatype BridgeError = NotRunning | InvalidRecord | MappingFailed(cause: GraphError) | NotSynchronized

  /** The injected graph, the bridge's two tables, and the uuid4 supply. */
  datatype Bridge = Bridge(
    graph: Graph,
    synchronized: Dict<string, string>,
    failed: Dict<string, GraphError>,
    uuids: nat,
    running: bool)

  function Publish(g: Graph, e: Event): Graph {
    g.(trace := g.trace + [e])
  }

  /** Relationships are best-effort: a failed reference is published and skipped. */
  function Attempt(g: Graph, key: string, r: Relationship): Graph {
    match AddRelationship(g, r)
    case Ok(after) => after
    case Err(_) => Publish(g, ReferenceFailed(key, r.id, r.target))
  }

  function Link(g: Graph, key: string, rs: seq<Relationship>): Graph {
    if rs == [] then g
    else Attempt(Link(g, key, rs[..|rs| - 1]), key, rs[|rs| - 1])
  }

  /** Remove the old entity if there is one, add the current one, then its references. */
  function Reconcile(b: Bridge, key: string, record: MemoryRecord): (Bridge, Result<string, BridgeError>) {
    match MemoryToEntity(record)
    case Err(_) => (b, Err(InvalidRecord))
    case Ok(candidate) =>
      match RequireEntity(b.graph, candidate.id)
      case Err(_) => Install(b, b.graph, key, record, candidate)
      case Ok(existing) =>
        match UpdateEntity(existing, record)
        case Err(_) => (b, Err(InvalidRecord))
        case Ok(updated) =>
          Install(b, After(b.graph, RemoveEntity(b.graph, existing.id)), key, record, updated)
  }

  function Install(b: Bridge, cleared: Graph, key: string, record: MemoryRecord, entity: Entity)
    : (Bridge, Result<string, BridgeError>)
  {
    match AddEntity(cleared, entity)
    case Err(cause) =>
      (b.(graph := Publish(cleared, MemoryMappingFailed(key)),
          synchronized := Del(b.synchronized, key),
          failed := Put(b.failed, key, cause)),
       Err(MappingFailed(cause)))
    case Ok(added) =>
      (b.(graph := Link(Publish(added, MemorySynchronized(key, entity.id)), key, Relationships(record, b.uuids)),
          synchronized := Put(b.synchronized, key, entity.id),
          failed := Del(b.failed, key),
          uuids := b.uuids + |RelatedKeys(record.value)|),
       Ok(entity.id))
  }

  function SynchronizeMemory(b: Bridge, memory: Index, key: string, now: int)
    : (Bridge, Result<string, BridgeError>)
  {
    if !b.running then (b, Err(NotRunning))
    else if key == "" then (b, Err(InvalidRecord))
    else
      match LiveRecord(memory, key, now)
      case None => (b, Err(InvalidRecord))
      case Some(record) => Reconcile(b, key, record)
  }

  function RemoveMemory(b: Bridge, key: string): (Bridge, Result<(), BridgeError>) {
    if !b.running then (b, Err(NotRunning))
    else if key == "" then (b, Err(InvalidRecord))
    else if key !in b.synchronized.vals then (b, Err(NotSynchronized))
    else
      var cleared := After(b.graph, RemoveEntity(b.graph, EntityId(key)));
      (b.(graph := Publish(cleared, MemoryDesynchronized(key, EntityId(key))),
          synchronized := Del(b.synchronized, key),
          failed := Del(b.failed, key)),
       Ok(()))
  }

  /** The batch after its first n records; clock(n) is read while record n-1 is fetched. */
  function SynchronizeFirst(b: Bridge, memory: Index, listed: seq<MemoryRecord>, clock: nat -> int, n: nat)
    : (Bridge, seq<string>)
    requires n <= |listed|
  {
    if n == 0 then (b, [])
    else
      var (before, keys) := SynchronizeFirst(b, memory, listed, clock, n - 1);
      var (after, r) := SynchronizeMemory(before, memory, listed[n - 1].key, clock(n));
      (after, if r.Ok? then keys + [listed[n - 1].key] else keys)
  }

  function SynchronizeAll(b: Bridge, memory: Index, clock: nat -> int)
    : (Bridge, Result<seq<string>, BridgeError>)
  {
    if !b.running then (b, Err(NotRunning))
    else
      var listed := LiveRecords(memory, clock(0));
      var (after, keys) := SynchronizeFirst(b, memory, listed, clock, |listed|);
      (after, Ok(keys))
  }

  function Reset(b: Bridge): Bridge {
    b.(synchronized := Empty(), failed := Empty())
  }
}

/** The service: reconciles records into the injected graph, step by step. */
module MemoryIntegrations {
  import opened Wrappers
  import opened Seqs
  import opened Dicts
  import opened Data
  import opened Trace
  import opened Graphs
  import opened KnowledgeGraphs
  import opened MemoryMapper
  import opened Memories
  import opened MemoryServices
  import opened Bridges

  lemma InstallStartsFromCleared(b: Bridge, cleared: Graph, key: string, record: MemoryRecord, entity: Entity)
    ensures Install(b.(graph := cleared), cleared, key, record, entity) == Install(b, cleared, key, record, entity)
  {
  }

  lemma FirstNone(b: Bridge, memory: Index, listed: seq<MemoryRecord>, clock: nat -> int)
    ensures SynchronizeFirst(b, memory, listed, clock, 0) == (b, [])
  {
  }

  lemma FirstOneMore(b: Bridge, memory: Index, listed: seq<MemoryRecord>, clock: nat -> int, i: nat)
    requires i < |listed|
    ensures var (before, keys) := SynchronizeFirst(b, memory, listed, clock, i);
      var (after, r) := Bridges.SynchronizeMemory(before, memory, listed[i].key, clock(i + 1));
      SynchronizeFirst(b, memory, listed, clock, i + 1) == (after, if r.Ok? then keys + [listed[i].key] else keys)
  {
    hide Bridges.SynchronizeMemory;
  }

  class MemoryIntegration {
    const memory: MemoryService
    const graph: KnowledgeGraph
    var synchronized: Dict<string, string>
    var failed: Dict<string, GraphError>
    var uuids: nat  // how many uuid4s have been drawn so far
    var running: bool

    ghost function State(): Bridge
      reads this, graph, graph.log
    {
      Bridge(graph.State(), synchronized, failed, uuids, running)
    }

    constructor (memory: MemoryService, graph: KnowledgeGraph, uuids: nat)
      ensures this.memory == memory && this.graph == graph
      ensures State() == Bridge(graph.State(), Empty(), Empty(), uuids, false)
    {
      this.memory, this.graph := memory, graph;
      synchronized, failed := Empty(), Empty();
      this.uuids, running := uuids, false;
    }

    method SynchronizeMemory(key: string, now: int) returns (r: Result<string, BridgeError>)
      requires graph.Valid()
      modifies this, graph, graph.log
      ensures graph.Valid()
      ensures (State(), r) == Bridges.SynchronizeMemory(old(State()), memory.index, key, now)
    {
      if !running {
        return Err(NotRunning);
      }
      if key == "" {
        return Err(InvalidRecord);
      }
      var found := memory.Get(key, now);
      if found.Failed? {
        return Err(InvalidRecord);
      }
      r := Reconcile(key, found.record);
    }

    method Reconcile(key: string, record: MemoryRecord) returns (r: Result<string, BridgeError>)
      requires graph.Valid()
      modifies this, graph, graph.log
      ensures graph.Valid()
      ensures (State(), r) == Bridges.Reconcile(old(State()), key, record)
    {
      hide AttributesOf, EntityId, Bridges.Install, Graphs.RemoveEntity, RequireEntity, Intact;
      var candidate := MemoryToEntity(record);
      if candidate.Err? {
        return Err(InvalidRecord);
      }
      var existing := graph.GetEntity(candidate.value.id);
      var entity := candidate.value;
      if existing.Ok? {
        var updated := UpdateEntity(existing.value, record);
        if updated.Err? {
          return Err(InvalidRecord);
        }
        entity := updated.value;
        var _ := graph.RemoveEntity(existing.value.id);
      }
      InstallStartsFromCleared(old(State()), graph.State(), key, record, entity);
      r := Install(key, record, entity);
    }

    /** Adds the entity, then attempts each relationship on its own. */
    method Install(key: string, record: MemoryRecord, entity: Entity) returns (r: Result<string, BridgeError>)
      requires graph.Valid()
      modifies this, graph, graph.log
      ensures graph.Valid()
      ensures (State(), r) == Bridges.Install(old(State()), old(graph.State()), key, record, entity)
    {
      hide Graphs.AddEntity, Dicts.Put, Del, Link, Relationships, RelatedKeys;
      var added := graph.AddEntity(entity);
      if added.Err? {
        failed := Put(failed, key, added.error);
        synchronized := Del(synchronized, key);
        graph.log.Publish(MemoryMappingFailed(key));
        return Err(MappingFailed(added.error));
      }
      synchronized := Put(synchronized, key, entity.id);
      failed := Del(failed, key);
      graph.log.Publish(MemorySynchronized(key, entity.id));
      var relationships := Relationships(record, uuids);
      uuids := uuids + |relationships|;
      LinkAll(key, relationships);
      r := Ok(entity.id);
    }

    method LinkAll(key: string, relationships: seq<Relationship>)
      requires graph.Valid()
      modifies graph, graph.log
      ensures graph.Valid()
      ensures graph.State() == Link(old(graph.State()), key, relationships)
    {
      for i := 0 to |relationships|
        invariant graph.Valid()
        invariant graph.State() == Link(old(graph.State()), key, relationships[..i])
      {
        PrefixStep(relationships, i);
        assert relationships[..i + 1][..i] == relationships[..i];
        var relationship := relationships[i];
        var linked := graph.AddRelationship(relationship);
        if linked.Err? {
          graph.log.Publish(ReferenceFailed(key, relationship.id, relationship.target));
        }
      }
      assert relationships[..|relationships|] == relationships;
    }

    method RemoveMemory(key: string) returns (r: Result<(), BridgeError>)
      requires graph.Valid()
      modifies this, graph, graph.log
      ensures graph.Valid()
      ensures (State(), r) == Bridges.RemoveMemory(old(State()), key)
    {
      if !running {
        return Err(NotRunning);
      }
      var id := RemoveEntityId(key);
      if id.Err? {
        return Err(InvalidRecord);
      }
      if key !in synchronized.vals {
        return Err(NotSynchronized);
      }
      var _ := graph.RemoveEntity(id.value);  // already gone is fine: the bookkeeping still needs clearing
      synchronized := Del(synchronized, key);
      failed := Del(failed, key);
      graph.log.Publish(MemoryDesynchronized(key, id.value));
      r := Ok(());
    }

    /** clock(0) is read by the listing and clock(i + 1) by the i-th fetch. */
    method SynchronizeAll(clock: nat -> int) returns (r: Result<seq<string>, BridgeError>)
      requires graph.Valid()
      modifies this, graph, graph.log
      ensures graph.Valid()
      ensures (State(), r) == Bridges.SynchronizeAll(old(State()), memory.index, clock)
    {
      if !running {
        return Err(NotRunning);
      }
      hide Bridges.SynchronizeMemory, SynchronizeFirst, LiveRecords, Intact, Filter, Values;
      var listed := memory.List(clock(0));
      var keys: seq<string> := [];
      FirstNone(State(), memory.index, listed, clock);
      for i := 0 to |listed|
        invariant graph.Valid()
        invariant (State(), keys) == SynchronizeFirst(old(State()), memory.index, listed, clock, i)
      {
        FirstOneMore(old(State()), memory.index, listed, clock, i);
        var synced := SynchronizeMemory(listed[i].key, clock(i + 1));
        if synced.Ok? {
          keys := keys + [listed[i].key];
        }
      }
      r := Ok(keys);
    }

    /** The keys in each table, in the order they were first tracked. */
    method SynchronizationStatus() returns (tracked: seq<string>, failing: seq<string>)
      ensures tracked == synchronized.keys && failing == failed.keys
    {
      tracked, failing := synchronized.keys, failed.keys;
    }

    method Reset()
      modifies this
      ensures synchronized == Empty() && failed == Empty()
      ensures graph.State() == old(graph.State()) && uuids == old(uuids) && running == old(running)
      ensures State() == Bridges.Reset(old(State()))
    {
      synchronized, failed := Empty(), Empty();
    }
  }
}
