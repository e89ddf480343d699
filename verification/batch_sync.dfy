/** What a batch of synchronisations leaves in the graph: a closed form. */

module BatchSync {
  import opened Wrappers
  import opened Seqs
  import opened Dicts
  import opened Data
  import opened Trace
  import opened Graphs
  import opened MemoryMapper
  import opened Memories
  import opened Bridges
  import opened Settling
  import opened SettlingLaws

  /** No stored relationship carries an id the supply has yet to draw. */
  ghost predicate Issued(g: Graph, uuids: nat) {
    forall id :: id in g.edges.vals && id.Drawn? ==> id.n < uuids
  }

  function EntityOf(): MemoryRecord -> Entity {
    (r: MemoryRecord) => Entity(EntityId(r.key), "memory", r.key, AttributesOf(r))
  }

  function SourceOf(): Relationship -> string {
    (r: Relationship) => r.source
  }

  function TargetOf(): Relationship -> string {
    (r: Relationship) => r.target
  }

  /** How the settling algebra reads entities and relationships. */
  function GraphEnds(): Ends<Entity, Relationship> {
    Ends(EntityKey(), SourceOf(), TargetOf())
  }

  function TablesOf(g: Graph): Tables<Entity, Relationship> {
    Tables(g.entities.vals.Keys, Values(g.entities), Values(g.edges))
  }

  function TargetIn(nodes: set<string>): Relationship -> bool {
    (r: Relationship) => r.target in nodes
  }

  // ---- One record --------------------------------------------------------------

  lemma AttemptAddsIfResolvable(g: Graph, key: string, r: Relationship)
    requires Intact(g)
    requires r.id.Drawn? && r.id !in g.edges.vals && r.kind != "" && r.target != ""
    requires r.source != "" && r.source in g.entities.vals
    ensures Intact(Attempt(g, key, r))
    ensures Attempt(g, key, r).entities == g.entities
    ensures Attempt(g, key, r).edges.vals.Keys <= g.edges.vals.Keys + {r.id}
    ensures Values(Attempt(g, key, r).edges) ==
      Values(g.edges) + (if r.target in g.entities.vals then [r] else [])
  {
    AddRelationshipKeepsIntact(g, r);
    if r.target in g.entities.vals {
      ValuesPutFresh(g.edges, r.id, r);
    }
  }

  /** References leaving one registered node, under consecutive fresh ids. */
  ghost predicate OutgoingInOrder(rs: seq<Relationship>, source: string, first: nat) {
    forall i :: 0 <= i < |rs| ==>
      rs[i].id == Drawn(first + i) && rs[i].source == source && rs[i].kind != "" && rs[i].target != ""
  }

  /** Best-effort linking adds, in order, exactly the references whose target is registered. */
  lemma {:induction false} LinkAddsResolvable(g: Graph, key: string, rs: seq<Relationship>, source: string, first: nat)
    requires Intact(g) && Issued(g, first)
    requires source != "" && source in g.entities.vals
    requires OutgoingInOrder(rs, source, first)
    ensures Intact(Link(g, key, rs)) && Issued(Link(g, key, rs), first + |rs|)
    ensures Link(g, key, rs).entities == g.entities
    ensures Values(Link(g, key, rs).edges) == Values(g.edges) + Filter(TargetIn(g.entities.vals.Keys), rs)
  {
    if rs != [] {
      var front, r := rs[..|rs| - 1], rs[|rs| - 1];
      LinkAddsResolvable(g, key, front, source, first);
      var h := Link(g, key, front);
      AttemptAddsIfResolvable(h, key, r);
      assert Issued(Attempt(h, key, r), first + |rs|);
    }
  }

  /** What attempting a reference publishes: it was added, or its target is not registered. */
  ghost function Report(g: Graph, key: string): Relationship -> Event {
    (r: Relationship) =>
      if Lookup(g.entities, r.target).Some? then RelationshipAdded(r.id) else ReferenceFailed(key, r.id, r.target)
  }

  /** Linking publishes one event for each reference, in order. */
  lemma {:induction false} LinkPublishes(g: Graph, key: string, rs: seq<Relationship>, source: string, first: nat)
    requires Intact(g) && Issued(g, first)
    requires source != "" && source in g.entities.vals
    requires OutgoingInOrder(rs, source, first)
    ensures Link(g, key, rs).trace == g.trace + Map(Report(g, key), rs)
  {
    if rs == [] {
      assert Map(Report(g, key), rs) == [];
    } else {
      var front, r := rs[..|rs| - 1], rs[|rs| - 1];
      LinkPublishes(g, key, front, source, first);
      LinkAddsResolvable(g, key, front, source, first);
      var h := Link(g, key, front);
      AttemptPublishes(h, key, r);
      hide Link, Attempt, Intact, Issued;
      assert Map(Report(g, key), rs) == Map(Report(g, key), front) + [Report(g, key)(r)];
    }
  }

  lemma AttemptPublishes(h: Graph, key: string, r: Relationship)
    requires r.id.Drawn? && r.id !in h.edges.vals && r.kind != "" && r.target != ""
    requires r.source != "" && r.source in h.entities.vals
    ensures Attempt(h, key, r).trace == h.trace + [Report(h, key)(r)]
  {
  }

  lemma LinkRecord(g: Graph, record: MemoryRecord, first: nat)
    requires Intact(g) && Issued(g, first)
    requires record.key != "" && EntityId(record.key) in g.entities.vals
    ensures var h := Link(g, record.key, Relationships(record, first));
      && Intact(h) && Issued(h, first + |RelatedKeys(record.value)|)
      && h.entities == g.entities
      && Values(h.edges) == Values(g.edges) + Filter(TargetIn(g.entities.vals.Keys), Relationships(record, first))
  {
    assert OutgoingInOrder(Relationships(record, first), EntityId(record.key), first);
    LinkAddsResolvable(g, record.key, Relationships(record, first), EntityId(record.key), first);
  }

  /** The entities a reconciliation of the record leaves. */
  ghost function Rebuilt(g: Graph, record: MemoryRecord): seq<Entity> {
    Filter(NotId(EntityId(record.key)), Values(g.entities)) + [EntityOf()(record)]
  }

  ghost function Relinked(g: Graph, record: MemoryRecord, first: nat): seq<Relationship> {
    Filter(ClearOf(EntityId(record.key)), Values(g.edges))
    + Filter(TargetIn(g.entities.vals.Keys + {EntityId(record.key)}), Relationships(record, first))
  }

  /** The graph with the record's node removed, if it was there. */
  function Cleared(g: Graph, record: MemoryRecord): Graph {
    After(g, RemoveEntity(g, EntityId(record.key)))
  }

  lemma ClearedValues(g: Graph, record: MemoryRecord)
    requires Intact(g)
    ensures Intact(Cleared(g, record))
    ensures EntityId(record.key) !in Cleared(g, record).entities.vals
    ensures Cleared(g, record).entities.vals.Keys == g.entities.vals.Keys - {EntityId(record.key)}
    ensures Values(Cleared(g, record).entities) == Filter(NotId(EntityId(record.key)), Values(g.entities))
    ensures Values(Cleared(g, record).edges) == Filter(ClearOf(EntityId(record.key)), Values(g.edges))
    ensures Cleared(g, record).edges.vals.Keys <= g.edges.vals.Keys
  {
    var id := EntityId(record.key);
    RemoveEntityKeepsIntact(g, id);
    if id in g.entities.vals {
      RemovalIsExactCascade(g, id);
    } else {
      EntitiesAreRegistered(g);
      FilterAll(NotId(id), Values(g.entities));
      UnregisteredTouchesNothing(g, id);
    }
  }

  /** The graph with the record's current entity in place, before its references. */
  ghost function Installed(g: Graph, record: MemoryRecord): Graph {
    var cleared, e := Cleared(g, record), EntityOf()(record);
    Graph(Put(cleared.entities, e.id, e), cleared.edges,
          cleared.trace + [EntityAdded(e.id)] + [MemorySynchronized(record.key, e.id)])
  }

  /** The bridge after reconciling the record. */
  ghost function Reconciled(b: Bridge, record: MemoryRecord): Bridge {
    Bridge(Link(Installed(b.graph, record), record.key, Relationships(record, b.uuids)),
           Put(b.synchronized, record.key, EntityId(record.key)),
           Del(b.failed, record.key),
           b.uuids + |RelatedKeys(record.value)|,
           b.running)
  }

  lemma ReconcileInstalls(b: Bridge, record: MemoryRecord)
    requires Intact(b.graph) && record.key != ""
    ensures Reconcile(b, record.key, record)
         == Install(b, Cleared(b.graph, record), record.key, record, EntityOf()(record))
  {
    var id := EntityId(record.key);
    if id in b.graph.entities.vals {
      UpdateIsRebuild(b.graph.entities.vals[id], record);
    }
  }

  /** Reconciliation never fails on a live record: the entity table is cleared first. */
  lemma ReconcileSucceeds(b: Bridge, record: MemoryRecord)
    requires Intact(b.graph) && record.key != ""
    ensures Reconcile(b, record.key, record) == (Reconciled(b, record), Ok(EntityId(record.key)))
  {
    ReconcileInstalls(b, record);
    ClearedValues(b.graph, record);
    var cleared, e := Cleared(b.graph, record), EntityOf()(record);
    assert AddEntity(cleared, e) ==
      Ok(Graph(Put(cleared.entities, e.id, e), cleared.edges, cleared.trace + [EntityAdded(e.id)]));
  }

  lemma InstalledValues(g: Graph, record: MemoryRecord)
    requires Intact(g) && record.key != ""
    ensures Intact(Installed(g, record))
    ensures Values(Installed(g, record).entities) == Rebuilt(g, record)
    ensures Values(Installed(g, record).edges) == Filter(ClearOf(EntityId(record.key)), Values(g.edges))
    ensures Installed(g, record).entities.vals.Keys == g.entities.vals.Keys + {EntityId(record.key)}
    ensures Installed(g, record).edges.vals.Keys <= g.edges.vals.Keys
  {
    ClearedValues(g, record);
    var cleared, e := Cleared(g, record), EntityOf()(record);
    AddEntityKeepsIntact(cleared, e);
    ValuesPutFresh(cleared.entities, e.id, e);
  }

  /** One reconciliation: what the graph holds afterwards, edge ids and order included. */
  lemma ReconciledClosedForm(b: Bridge, record: MemoryRecord)
    requires Intact(b.graph) && Issued(b.graph, b.uuids) && record.key != ""
    ensures var c := Reconciled(b, record);
      && Intact(c.graph) && Issued(c.graph, c.uuids)
      && Values(c.graph.entities) == Rebuilt(b.graph, record)
      && Values(c.graph.edges) == Relinked(b.graph, record, b.uuids)
      && c.graph.entities.vals.Keys == b.graph.entities.vals.Keys + {EntityId(record.key)}
  {
    InstalledValues(b.graph, record);
    LinkRecord(Installed(b.graph, record), record, b.uuids);
  }

  // ---- A whole batch -------------------------------------------------------------

  /** What one record brings to the graph: its node, its entity and its references. */
  function ItemOf(): (MemoryRecord, nat) -> Item<Entity, Relationship> {
    (r: MemoryRecord, first: nat) => Item(EntityId(r.key), EntityOf()(r), Relationships(r, first))
  }

  function ReferenceCount(): MemoryRecord -> nat {
    (r: MemoryRecord) => |RelatedKeys(r.value)|
  }

  function NodeOfKey(): MemoryRecord -> string {
    (r: MemoryRecord) => EntityId(r.key)
  }

  function ItemsOf(batch: seq<MemoryRecord>, first: nat): seq<Item<Entity, Relationship>> {
    Numbered(ItemOf(), ReferenceCount(), batch, first)
  }

  ghost function ReconciledAll(b: Bridge, batch: seq<MemoryRecord>): Bridge {
    if batch == [] then b
    else Reconciled(ReconciledAll(b, batch[..|batch| - 1]), batch[|batch| - 1])
  }

  ghost predicate IsBatch(batch: seq<MemoryRecord>) {
    && (forall i :: 0 <= i < |batch| ==> batch[i].key != "")
    && (forall i, j :: 0 <= i < j < |batch| ==> batch[i].key != batch[j].key)
  }

  lemma PlacedTables(g: Graph, item: Item<Entity, Relationship>, c: Graph)
    requires c.entities.vals.Keys == g.entities.vals.Keys + {item.node}
    requires Values(c.entities) == Filter(NotId(item.node), Values(g.entities)) + [item.entity]
    requires Values(c.edges) ==
      Filter(ClearOf(item.node), Values(g.edges)) + Filter(TargetIn(g.entities.vals.Keys + {item.node}), item.refs)
    ensures TablesOf(c) == Place(GraphEnds(), TablesOf(g), item)
  {
    var ends := GraphEnds();
    FilterAgree(NotId(item.node), NotAt(ends, item.node), Values(g.entities));
    FilterAgree(ClearOf(item.node), Away(ends, item.node), Values(g.edges));
    var nodes := g.entities.vals.Keys + {item.node};
    FilterAgree(TargetIn(nodes), Into(ends, nodes), item.refs);
  }

  /** One reconciliation places one item. */
  lemma ReconciledPlaces(b: Bridge, record: MemoryRecord)
    requires Intact(b.graph) && Issued(b.graph, b.uuids) && record.key != ""
    ensures Intact(Reconciled(b, record).graph)
    ensures Issued(Reconciled(b, record).graph, Reconciled(b, record).uuids)
    ensures TablesOf(Reconciled(b, record).graph)
         == Place(GraphEnds(), TablesOf(b.graph), ItemOf()(record, b.uuids))
  {
    ReconciledClosedForm(b, record);
    PlacedTables(b.graph, ItemOf()(record, b.uuids), Reconciled(b, record).graph);
  }

  lemma ReconciledAllSnoc(b: Bridge, front: seq<MemoryRecord>, r: MemoryRecord)
    ensures ReconciledAll(b, front + [r]) == Reconciled(ReconciledAll(b, front), r)
  {
    assert (front + [r])[..|front|] == front;
  }

  lemma ReconciledCounters(b: Bridge, r: MemoryRecord)
    ensures Reconciled(b, r).uuids == b.uuids + ReferenceCount()(r) && Reconciled(b, r).running == b.running
  {
  }

  ghost predicate PlacesAll(b: Bridge, batch: seq<MemoryRecord>, c: Bridge) {
    && Intact(c.graph) && Issued(c.graph, c.uuids)
    && c.uuids == b.uuids + Total(ReferenceCount(), batch)
    && c.running == b.running
    && TablesOf(c.graph) == PlaceAll(GraphEnds(), TablesOf(b.graph), ItemsOf(batch, b.uuids))
  }

  lemma BatchPlacesOneMore(b: Bridge, front: seq<MemoryRecord>, r: MemoryRecord)
    requires r.key != "" && PlacesAll(b, front, ReconciledAll(b, front))
    ensures PlacesAll(b, front + [r], ReconciledAll(b, front + [r]))
  {
    hide Reconciled, ReconciledAll, Relationships, AttributesOf, EntityId, Intact, Issued;
    hide Place, PlaceAll, Numbered, TablesOf;
    var mid := ReconciledAll(b, front);
    ReconciledPlaces(mid, r);
    ReconciledCounters(mid, r);
    ReconciledAllSnoc(b, front, r);
    NumberedSnoc(ItemOf(), ReferenceCount(), front, r, b.uuids);
    PlaceAllSnoc(GraphEnds(), TablesOf(b.graph), ItemsOf(front, b.uuids), ItemOf()(r, mid.uuids));
  }

  lemma {:induction false} BatchPlacesAll(b: Bridge, batch: seq<MemoryRecord>)
    requires Intact(b.graph) && Issued(b.graph, b.uuids)
    requires forall i :: 0 <= i < |batch| ==> batch[i].key != ""
    ensures PlacesAll(b, batch, ReconciledAll(b, batch))
  {
    if batch != [] {
      var front, r := batch[..|batch| - 1], batch[|batch| - 1];
      assert batch == front + [r];
      BatchPlacesAll(b, front);
      BatchPlacesOneMore(b, front, r);
    }
  }

  lemma ItemIsProper(r: MemoryRecord, first: nat)
    ensures ProperItem(GraphEnds(), ItemOf()(r, first))
  {
    var item := ItemOf()(r, first);
    assert item == Item(EntityId(r.key), EntityOf()(r), Relationships(r, first));
    assert EntityKey()(item.entity) == item.node;
    forall j | 0 <= j < |item.refs|
      ensures SourceOf()(item.refs[j]) == item.node
    {
    }
  }

  lemma ItemsAreProper(batch: seq<MemoryRecord>, first: nat)
    ensures Proper(GraphEnds(), ItemsOf(batch, first))
    ensures Nodes(ItemsOf(batch, first)) == Map(NodeOfKey(), batch)
  {
    forall r, n: nat
      ensures ProperItem(GraphEnds(), ItemOf()(r, n))
    {
      ItemIsProper(r, n);
    }
    NumberedProper(GraphEnds(), ItemOf(), ReferenceCount(), batch, first);
    NumberedNodes(ItemOf(), ReferenceCount(), NodeOfKey(), batch, first);
  }

  lemma NodesAreDistinct(batch: seq<MemoryRecord>)
    requires IsBatch(batch)
    ensures NoDup(Map(NodeOfKey(), batch))
  {
    forall i, j | 0 <= i < j < |batch|
      ensures NodeOfKey()(batch[i]) != NodeOfKey()(batch[j])
    {
      if EntityId(batch[i].key) == EntityId(batch[j].key) {
        EntityIdInjective(batch[i].key, batch[j].key);
      }
    }
  }

  /** The closed form: the graph after a batch, whatever it held before. Entities and edges
      away from the batch keep their order; the batch's entities follow in batch order; then
      come exactly the surviving references, record by record. */
  lemma BatchClosedForm(b: Bridge, batch: seq<MemoryRecord>)
    requires Intact(b.graph) && Issued(b.graph, b.uuids) && IsBatch(batch)
    ensures Intact(ReconciledAll(b, batch).graph)
    ensures Issued(ReconciledAll(b, batch).graph, ReconciledAll(b, batch).uuids)
    ensures TablesOf(ReconciledAll(b, batch).graph)
         == Settled(GraphEnds(), TablesOf(b.graph), ItemsOf(batch, b.uuids))
  {
    BatchPlacesAll(b, batch);
    ItemsAreProper(batch, b.uuids);
    NodesAreDistinct(batch);
    PlaceAllIsSettled(GraphEnds(), TablesOf(b.graph), ItemsOf(batch, b.uuids));
  }
}
