/** The knowledge graph: entities, directed relationships, cascading removal. */

module Graphs {
  import opened Wrappers
  import opened Seqs
  import opened Dicts
  import opened Data
  import opened Trace

  datatype Entity = Entity(id: string, entityType: string, name: string, attributes: Attributes)

  datatype Relationship = Relationship(
    id: Id, source: string, target: string, kind: string, attributes: Attributes)
  {
    predicate Touches(entity: string) {
      source == entity || target == entity
    }
  }

  datatype GraphError =
    | InvalidEntity | DuplicateEntity | EntityNotFound
    | InvalidRelationship | DuplicateRelationship | RelationshipNotFound

  /** The two ordered dictionaries, and everything published so far. */
  datatype Graph = Graph(
    entities: Dict<string, Entity>,
    edges: Dict<Id, Relationship>,
    trace: seq<Event>)

  function EntityKey(): Entity -> string {
    (e: Entity) => e.id
  }

  function EdgeKey(): Relationship -> Id {
    (r: Relationship) => r.id
  }

  /** Keeps the relationships that do not touch the entity. */
  function ClearOf(entity: string): Relationship -> bool {
    (r: Relationship) => !r.Touches(entity)
  }

  /** Every stored object sits under its own id and every edge joins registered entities. */
  ghost predicate Intact(g: Graph) {
    && KeyedBy(g.entities, EntityKey())
    && KeyedBy(g.edges, EdgeKey())
    && (forall k :: k in g.edges.vals ==>
          g.edges.vals[k].source in g.entities.vals && g.edges.vals[k].target in g.entities.vals)
  }

  function RequireEntity(g: Graph, id: string): Result<Entity, GraphError> {
    if id == "" then Err(InvalidEntity)
    else if id in g.entities.vals then Ok(g.entities.vals[id])
    else Err(EntityNotFound)
  }

  function AddEntity(g: Graph, e: Entity): Result<Graph, GraphError> {
    if e.id == "" || e.entityType == "" || e.name == "" then Err(InvalidEntity)
    else if e.id in g.entities.vals then Err(DuplicateEntity)
    else Ok(g.(entities := Put(g.entities, e.id, e), trace := g.trace + [EntityAdded(e.id)]))
  }

  function RemoveEntity(g: Graph, id: string): Result<Graph, GraphError> {
    match RequireEntity(g, id)
    case Err(error) => Err(error)
    case Ok(_) =>
      Ok(Graph(Del(g.entities, id), Where(g.edges, ClearOf(id)), g.trace + [EntityRemoved(id)]))
  }

  function AddRelationship(g: Graph, r: Relationship): Result<Graph, GraphError> {
    if r.id == Named("") || r.kind == "" || r.source == "" || r.target == "" then Err(InvalidRelationship)
    else if r.id in g.edges.vals then Err(DuplicateRelationship)
    else if r.source !in g.entities.vals || r.target !in g.entities.vals then Err(EntityNotFound)
    else Ok(g.(edges := Put(g.edges, r.id, r), trace := g.trace + [RelationshipAdded(r.id)]))
  }

  function RemoveRelationship(g: Graph, id: Id): Result<Graph, GraphError> {
    if id == Named("") then Err(InvalidRelationship)
    else if id !in g.edges.vals then Err(RelationshipNotFound)
    else Ok(g.(edges := Del(g.edges, id), trace := g.trace + [RelationshipRemoved(id)]))
  }

  /** The state an operation leaves: its result, or the state it found if it raised. */
  function After<S, E>(before: S, r: Result<S, E>): S {
    if r.Ok? then r.value else before
  }

  function Verdict<S, E>(r: Result<S, E>): Result<(), E> {
    match r
    case Ok(_) => Ok(())
    case Err(error) => Err(error)
  }

  // ---- What each operation does --------------------------------------------------------

  /** An entity without an id, type or name is refused, then one whose id is taken; otherwise it
      is registered last, one event is published and nothing else changes. */
  lemma AddEntityEffect(g: Graph, e: Entity)
    ensures AddEntity(g, e) == Err(InvalidEntity) <==> e.id == "" || e.entityType == "" || e.name == ""
    ensures AddEntity(g, e) == Err(DuplicateEntity) <==>
      e.id != "" && e.entityType != "" && e.name != "" && Lookup(g.entities, e.id).Some?
    ensures match AddEntity(g, e)
      case Err(error) => error.InvalidEntity? || error.DuplicateEntity?
      case Ok(h) =>
        && Binds(g.entities, h.entities, e.id, e) && h.entities.keys == g.entities.keys + [e.id]
        && h.edges == g.edges && h.trace == g.trace + [EntityAdded(e.id)]
  {
    PutBinds(g.entities, e.id, e);
    hide Put;
  }

  /** The entity and every edge touching it go; every other lookup, and the order, stays; one
      event is published, whatever the cascade. */
  lemma RemoveEntityEffect(g: Graph, id: string)
    ensures RemoveEntity(g, id) == Err(InvalidEntity) <==> id == ""
    ensures RemoveEntity(g, id) == Err(EntityNotFound) <==> id != "" && Lookup(g.entities, id).None?
    ensures match RemoveEntity(g, id)
      case Err(error) => error.InvalidEntity? || error.EntityNotFound?
      case Ok(h) =>
        && Unbinds(g.entities, h.entities, id) && h.entities.keys == Filter(Except(id), g.entities.keys)
        && (forall k :: Lookup(h.edges, k) == Surviving(g, k, id))
        && Values(h.edges) == Filter(ClearOf(id), Values(g.edges))
        && h.trace == g.trace + [EntityRemoved(id)]
  {
    DelUnbinds(g.entities, id);
    ValuesWhere(g.edges, ClearOf(id));
    forall k
      ensures Lookup(Where(g.edges, ClearOf(id)), k) == Surviving(g, k, id)
    {
    }
    hide Filter, Values, Del, Where;
  }

  /** The edge with this id, unless one of its ends is the entity. */
  function Surviving(g: Graph, k: Id, entity: string): Option<Relationship> {
    match Lookup(g.edges, k)
    case Some(r) => if r.source == entity || r.target == entity then None else Some(r)
    case None => None
  }

  /** A malformed edge is refused, then one whose id is taken, then one without both ends
      registered; otherwise it is stored last, one event is published and nothing else changes. */
  lemma AddRelationshipEffect(g: Graph, r: Relationship)
    ensures AddRelationship(g, r) == Err(InvalidRelationship) <==>
      r.id == Named("") || r.kind == "" || r.source == "" || r.target == ""
    ensures AddRelationship(g, r) == Err(DuplicateRelationship) <==>
      r.id != Named("") && r.kind != "" && r.source != "" && r.target != "" && Lookup(g.edges, r.id).Some?
    ensures match AddRelationship(g, r)
      case Err(error) =>
        error.InvalidRelationship? || error.DuplicateRelationship?
        || (error.EntityNotFound? && (Lookup(g.entities, r.source).None? || Lookup(g.entities, r.target).None?))
      case Ok(h) =>
        && Lookup(g.entities, r.source).Some? && Lookup(g.entities, r.target).Some?
        && Binds(g.edges, h.edges, r.id, r) && h.edges.keys == g.edges.keys + [r.id]
        && h.entities == g.entities && h.trace == g.trace + [RelationshipAdded(r.id)]
  {
    PutBinds(g.edges, r.id, r);
    hide Put;
  }

  /** The edge goes; every other edge, and the order, stays. */
  lemma RemoveRelationshipEffect(g: Graph, id: Id)
    ensures RemoveRelationship(g, id) == Err(InvalidRelationship) <==> id == Named("")
    ensures RemoveRelationship(g, id) == Err(RelationshipNotFound) <==> id != Named("") && Lookup(g.edges, id).None?
    ensures match RemoveRelationship(g, id)
      case Err(error) => error.InvalidRelationship? || error.RelationshipNotFound?
      case Ok(h) =>
        && Unbinds(g.edges, h.edges, id) && h.edges.keys == Filter(Except(id), g.edges.keys)
        && h.entities == g.entities && h.trace == g.trace + [RelationshipRemoved(id)]
  {
    DelUnbinds(g.edges, id);
    hide Del, Filter;
  }

  // ---- Integrity ------------------------------------------------------------

  lemma AddEntityKeepsIntact(g: Graph, e: Entity)
    requires Intact(g)
    ensures Intact(After(g, AddEntity(g, e)))
  {
  }

  lemma RemoveEntityKeepsIntact(g: Graph, id: string)
    requires Intact(g)
    ensures Intact(After(g, RemoveEntity(g, id)))
  {
  }

  lemma AddRelationshipKeepsIntact(g: Graph, r: Relationship)
    requires Intact(g)
    ensures Intact(After(g, AddRelationship(g, r)))
  {
  }

  lemma RemoveRelationshipKeepsIntact(g: Graph, id: Id)
    requires Intact(g)
    ensures Intact(After(g, RemoveRelationship(g, id)))
  {
  }

  /** Removal leaves no trace of the entity and nothing else changes: the surviving
      entities and relationships keep their order. */
  lemma RemovalIsExactCascade(g: Graph, id: string)
    requires Intact(g) && id in g.entities.vals && id != ""
    ensures RemoveEntity(g, id).Ok?
    ensures Values(RemoveEntity(g, id).value.entities) == Filter(NotId(id), Values(g.entities))
    ensures Values(RemoveEntity(g, id).value.edges) == Filter(ClearOf(id), Values(g.edges))
  {
    ValuesWhere(g.edges, ClearOf(id));
    DelIsWhere(g, id);
    ValuesWhere(g.entities, NotId(id));
  }

  function NotId(id: string): Entity -> bool {
    (e: Entity) => e.id != id
  }

  lemma DelIsWhere(g: Graph, id: string)
    requires Intact(g)
    ensures Del(g.entities, id) == Where(g.entities, NotId(id))
  {
    OnlyAgree(g.entities, Except(id), KeyPasses(g.entities, NotId(id)));
  }

  lemma UnregisteredTouchesNothing(g: Graph, id: string)
    requires Intact(g) && id !in g.entities.vals
    ensures Filter(ClearOf(id), Values(g.edges)) == Values(g.edges)
  {
    EntitiesAreRegistered(g);
    FilterAll(ClearOf(id), Values(g.edges));
  }

  /** Adding an entity and removing it again restores both dictionaries, order included. */
  lemma AddThenRemove(g: Graph, e: Entity, mid: Graph, h: Graph)
    requires Intact(g) && AddEntity(g, e) == Ok(mid) && RemoveEntity(mid, e.id) == Ok(h)
    ensures h.entities == g.entities && h.edges == g.edges
  {
    AddEntityKeepsIntact(g, e);
    RemoveEntityKeepsIntact(mid, e.id);
    RemovalIsExactCascade(mid, e.id);
    assert Values(h.entities) == Values(g.entities) by {
      ValuesPutFresh(g.entities, e.id, e);
      FilterSnoc(NotId(e.id), Values(g.entities), e);
      EntitiesAreRegistered(g);
      FilterAll(NotId(e.id), Values(g.entities));
    }
    SameValuesSameDict(h.entities, g.entities, EntityKey());
    UnregisteredTouchesNothing(g, e.id);
    SameValuesSameDict(h.edges, g.edges, EdgeKey());
  }

  lemma EntitiesAreRegistered(g: Graph)
    requires Intact(g)
    ensures forall e :: e in Values(g.entities) ==> e.id in g.entities.vals && g.entities.vals[e.id] == e
    ensures forall r :: r in Values(g.edges) ==>
      r.source in g.entities.vals && r.target in g.entities.vals && r.id in g.edges.vals && g.edges.vals[r.id] == r
  {
  }

  // ---- Single-hop queries -----------------------------------------------------

  predicate Joins(r: Relationship, a: string, b: string) {
    (r.source == a && r.target == b) || (r.source == b && r.target == a)
  }

  ghost predicate Joined(edges: seq<Relationship>, a: string, b: string) {
    exists i :: 0 <= i < |edges| && Joins(edges[i], a, b)
  }

  function Opposite(r: Relationship, id: string): (other: string)
    requires r.Touches(id)
    ensures Joins(r, id, other)
  {
    if r.source == id then r.target else r.source
  }

  /** Opposite endpoints of the edges touching id, each at its first occurrence. */
  function NeighborIds(edges: seq<Relationship>, id: string): seq<string> {
    if edges == [] then []
    else
      var r, before := edges[|edges| - 1], NeighborIds(edges[..|edges| - 1], id);
      if r.Touches(id) && Opposite(r, id) !in before then before + [Opposite(r, id)] else before
  }

  lemma {:induction false} NeighborIffJoined(edges: seq<Relationship>, a: string, b: string)
    ensures b in NeighborIds(edges, a) <==> Joined(edges, a, b)
  {
    if edges != [] {
      var front, r := edges[..|edges| - 1], edges[|edges| - 1];
      NeighborIffJoined(front, a, b);
      if Joined(edges, a, b) {
        var i :| 0 <= i < |edges| && Joins(edges[i], a, b);
        assert i < |front| ==> front[i] == edges[i];
      }
    }
  }

  /** Being a neighbour is symmetric, self-loops included. */
  lemma NeighborsSymmetric(edges: seq<Relationship>, a: string, b: string)
    ensures b in NeighborIds(edges, a) <==> a in NeighborIds(edges, b)
  {
    NeighborIffJoined(edges, a, b);
    NeighborIffJoined(edges, b, a);
    assert forall r :: Joins(r, a, b) <==> Joins(r, b, a);
  }

  /** The position of the first edge joining two entities. */
  function FirstEdge(edges: seq<Relationship>, a: string, b: string): (i: nat)
    requires Joined(edges, a, b)
    ensures i < |edges| && Joins(edges[i], a, b)
    ensures forall j :: 0 <= j < i ==> !Joins(edges[j], a, b)
  {
    if Joins(edges[0], a, b) then 0
    else
      assert Joined(edges[1..], a, b) by {
        var i :| 0 <= i < |edges| && Joins(edges[i], a, b);
        assert edges[1..][i - 1] == edges[i];
      }
      1 + FirstEdge(edges[1..], a, b)
  }

  lemma FirstEdgeOfNew(front: seq<Relationship>, r: Relationship, a: string, b: string)
    requires !Joined(front, a, b) && Joins(r, a, b)
    ensures Joined(front + [r], a, b)
    ensures FirstEdge(front + [r], a, b) == |front|
  {
    assert (front + [r])[|front|] == r;
    assert forall j :: 0 <= j < |front| ==> !Joins((front + [r])[j], a, b);
  }

  lemma FirstEdgeOfOld(front: seq<Relationship>, r: Relationship, a: string, b: string)
    requires Joined(front, a, b)
    ensures Joined(front + [r], a, b)
    ensures FirstEdge(front + [r], a, b) == FirstEdge(front, a, b)
  {
    var i := FirstEdge(front, a, b);
    assert forall j :: 0 <= j < |front| ==> (front + [r])[j] == front[j];
    assert Joins((front + [r])[i], a, b);
  }

  /** Listed without repetition, in the order of each one's first edge. */
  ghost predicate InFirstEdgeOrder(edges: seq<Relationship>, a: string, ids: seq<string>) {
    && NoDup(ids)
    && (forall b :: b in ids ==> Joined(edges, a, b))
    && forall i, j :: 0 <= i < j < |ids| ==> FirstEdge(edges, a, ids[i]) < FirstEdge(edges, a, ids[j])
  }

  lemma OrderSurvivesEdge(front: seq<Relationship>, r: Relationship, a: string, ids: seq<string>)
    requires InFirstEdgeOrder(front, a, ids)
    ensures InFirstEdgeOrder(front + [r], a, ids)
    ensures forall b :: b in ids ==> FirstEdge(front + [r], a, b) < |front|
  {
    hide FirstEdge;
    forall b | b in ids
      ensures Joined(front + [r], a, b) && FirstEdge(front + [r], a, b) == FirstEdge(front, a, b)
    {
      FirstEdgeOfOld(front, r, a, b);
    }
  }

  lemma OrderTakesNew(front: seq<Relationship>, r: Relationship, a: string, ids: seq<string>, b: string)
    requires InFirstEdgeOrder(front, a, ids) && !Joined(front, a, b) && Joins(r, a, b)
    ensures InFirstEdgeOrder(front + [r], a, ids + [b])
  {
    hide FirstEdge;
    OrderSurvivesEdge(front, r, a, ids);
    FirstEdgeOfNew(front, r, a, b);
  }

  /** No neighbour is listed twice, and they come in the order of their first edge. */
  lemma {:induction false} NeighborsInFirstEdgeOrder(edges: seq<Relationship>, a: string)
    ensures InFirstEdgeOrder(edges, a, NeighborIds(edges, a))
  {
    hide InFirstEdgeOrder;
    if edges == [] {
      assert InFirstEdgeOrder(edges, a, []) by {
        NobodyInOrder(edges, a);
      }
    } else {
      var front, r := edges[..|edges| - 1], edges[|edges| - 1];
      NeighborsInFirstEdgeOrder(front, a);
      var before := NeighborIds(front, a);
      assert edges == front + [r];
      OrderSurvivesEdge(front, r, a, before);
      if NeighborIds(edges, a) != before {
        var b := Opposite(r, a);
        NeighborIffJoined(front, a, b);
        OrderTakesNew(front, r, a, before, b);
      }
    }
  }

  lemma NobodyInOrder(edges: seq<Relationship>, a: string)
    ensures InFirstEdgeOrder(edges, a, [])
  {
  }

  /** In an intact graph every neighbour is registered, so no lookup can miss. */
  lemma NeighborsAreRegistered(g: Graph, id: string)
    requires Intact(g)
    ensures forall b :: b in NeighborIds(Values(g.edges), id) ==> b in g.entities.vals
  {
    forall b | b in NeighborIds(Values(g.edges), id)
      ensures b in g.entities.vals
    {
      NeighborIffJoined(Values(g.edges), id, b);
      EntitiesAreRegistered(g);
    }
  }

  function OfType(entityType: string): Entity -> bool {
    (e: Entity) => e.entityType == entityType
  }

  /** When an entity was registered, relative to the others. */
  function RegisteredAt(entities: Dict<string, Entity>): Entity -> int {
    (e: Entity) => if e.id in entities.keys then IndexOf(entities.keys, e.id) else |entities.keys|
  }

  lemma ValuesInOrder(entities: Dict<string, Entity>)
    requires KeyedBy(entities, EntityKey())
    ensures Ascending(RegisteredAt(entities), Values(entities))
  {
    forall i | 0 <= i < |entities.keys|
      ensures RegisteredAt(entities)(Values(entities)[i]) == i
    {
      assert entities.keys[i] in entities.keys;
    }
  }

  lemma ByTypeMembers(entities: Dict<string, Entity>, entityType: string, e: Entity)
    requires KeyedBy(entities, EntityKey())
    ensures e in Filter(OfType(entityType), Values(entities)) <==>
      e.entityType == entityType && Lookup(entities, e.id) == Some(e)
  {
    FilterMembers(OfType(entityType), Values(entities));
    MemberOfValues(entities, e);
    hide Filter, Values;
  }
}

module KnowledgeGraphs {
  import opened Wrappers
  import opened Seqs
  import opened Dicts
  import opened Data
  import opened Trace
  import opened Graphs

  // ---- Dropping relationships one by one ------------------------------------

  function Stale(edges: Dict<Id, Relationship>, id: string): Id -> bool {
    (k: Id) => k in edges.vals && edges.vals[k].Touches(id)
  }

  function StaleKeys(edges: Dict<Id, Relationship>, id: string): seq<Id> {
    Filter(Stale(edges, id), edges.keys)
  }

  lemma DroppingStaleIsClearing(edges: Dict<Id, Relationship>, id: string)
    ensures Only(edges, NotAmong(StaleKeys(edges, id))) == Where(edges, ClearOf(id))
  {
    FilterMembers(Stale(edges, id), edges.keys);
    OnlyAgree(edges, NotAmong(StaleKeys(edges, id)), KeyPasses(edges, ClearOf(id)));
  }

  lemma NoNeighborsYet(edges: seq<Relationship>, id: string)
    ensures NeighborIds(edges[..0], id) == []
  {
  }

  lemma NeighborIdsStep(edges: seq<Relationship>, i: nat, id: string)
    requires i < |edges|
    ensures NeighborIds(edges[..i + 1], id) ==
      if edges[i].Touches(id) && Opposite(edges[i], id) !in NeighborIds(edges[..i], id)
      then NeighborIds(edges[..i], id) + [Opposite(edges[i], id)]
      else NeighborIds(edges[..i], id)
  {
    assert edges[..i + 1][..i] == edges[..i];
  }

  class KnowledgeGraph {
    const log: EventLog
    var entities: Dict<string, Entity>
    var relationships: Dict<Id, Relationship>

    ghost function State(): Graph
      reads this, log
    {
      Graph(entities, relationships, log.events)
    }

    ghost predicate Valid()
      reads this, log
    {
      Intact(State())
    }

    constructor (log: EventLog)
      ensures Valid() && this.log == log
      ensures State() == Graph(Empty(), Empty(), log.events)
    {
      this.log := log;
      entities := Empty();
      relationships := Empty();
    }

    method AddEntity(e: Entity) returns (r: Result<(), GraphError>)
      requires Valid()
      modifies this, log
      ensures Valid()
      ensures State() == After(old(State()), Graphs.AddEntity(old(State()), e))
      ensures r == Verdict(Graphs.AddEntity(old(State()), e))
    {
      AddEntityKeepsIntact(State(), e);
      if e.id == "" || e.entityType == "" || e.name == "" {
        return Err(InvalidEntity);
      }
      if e.id in entities.vals {
        return Err(DuplicateEntity);
      }
      entities := Put(entities, e.id, e);
      log.Publish(EntityAdded(e.id));
      return Ok(());
    }

    method RemoveEntity(id: string) returns (r: Result<(), GraphError>)
      requires Valid()
      modifies this, log
      ensures Valid()
      ensures State() == After(old(State()), Graphs.RemoveEntity(old(State()), id))
      ensures r == Verdict(Graphs.RemoveEntity(old(State()), id))
    {
      RemoveEntityKeepsIntact(State(), id);
      var found := GetEntity(id);
      if found.Err? {
        return Err(found.error);
      }
      DropTouching(id);
      entities := Del(entities, id);
      log.Publish(EntityRemoved(id));
      return Ok(());
    }

    /** The cascade: collect the ids of the touching relationships, then delete each. */
    method DropTouching(id: string)
      modifies this`relationships
      ensures relationships == Where(old(relationships), ClearOf(id))
    {
      var stale := StaleKeys(relationships, id);
      ghost var before := relationships;
      OnlyAll(before, NotAmong([]));
      for i := 0 to |stale|
        invariant relationships == Only(before, NotAmong(stale[..i]))
      {
        DropEach(before, stale, i);
        relationships := Del(relationships, stale[i]);
      }
      assert stale[..|stale|] == stale;
      DroppingStaleIsClearing(before, id);
    }

    method GetEntity(id: string) returns (r: Result<Entity, GraphError>)
      ensures r == RequireEntity(State(), id)
    {
      if id == "" {
        return Err(InvalidEntity);
      }
      if id in entities.vals {
        return Ok(entities.vals[id]);
      }
      return Err(EntityNotFound);
    }

    method AddRelationship(r: Relationship) returns (v: Result<(), GraphError>)
      requires Valid()
      modifies this, log
      ensures Valid()
      ensures State() == After(old(State()), Graphs.AddRelationship(old(State()), r))
      ensures v == Verdict(Graphs.AddRelationship(old(State()), r))
    {
      AddRelationshipKeepsIntact(State(), r);
      if r.id == Named("") || r.kind == "" || r.source == "" || r.target == "" {
        return Err(InvalidRelationship);
      }
      if r.id in relationships.vals {
        return Err(DuplicateRelationship);
      }
      var source := GetEntity(r.source);
      if source.Err? {
        return Err(source.error);
      }
      var target := GetEntity(r.target);
      if target.Err? {
        return Err(target.error);
      }
      relationships := Put(relationships, r.id, r);
      log.Publish(RelationshipAdded(r.id));
      return Ok(());
    }

    method RemoveRelationship(id: Id) returns (r: Result<(), GraphError>)
      requires Valid()
      modifies this, log
      ensures Valid()
      ensures State() == After(old(State()), Graphs.RemoveRelationship(old(State()), id))
      ensures r == Verdict(Graphs.RemoveRelationship(old(State()), id))
    {
      RemoveRelationshipKeepsIntact(State(), id);
      if id == Named("") {
        return Err(InvalidRelationship);
      }
      if id !in relationships.vals {
        return Err(RelationshipNotFound);
      }
      relationships := Del(relationships, id);
      log.Publish(RelationshipRemoved(id));
      return Ok(());
    }

    method Neighbors(id: string) returns (r: Result<seq<Entity>, GraphError>)
      requires Valid()
      ensures r.Err? <==> RequireEntity(State(), id).Err?
      ensures r.Err? ==> r.error == RequireEntity(State(), id).error
      ensures r.Ok? ==> Map(EntityKey(), r.value) == NeighborIds(Values(relationships), id)
      ensures r.Ok? ==> forall e :: e in r.value ==> e.id in entities.vals && entities.vals[e.id] == e
    {
      var found := GetEntity(id);
      if found.Err? {
        return Err(found.error);
      }
      NeighborsAreRegistered(State(), id);
      hide NeighborIds, Intact, Values;
      var edges := Values(relationships);
      var ids: seq<string> := [];
      NoNeighborsYet(edges, id);
      for i := 0 to |edges|
        invariant ids == NeighborIds(edges[..i], id)
      {
        NeighborIdsStep(edges, i, id);
        var other;
        if edges[i].source == id {
          other := edges[i].target;
        } else if edges[i].target == id {
          other := edges[i].source;
        } else {
          continue;
        }
        if other !in ids {
          ids := ids + [other];
        }
      }
      assert edges[..|edges|] == edges;
      var known := entities;
      r := Ok(seq(|ids|, i requires 0 <= i < |ids| => assert ids[i] in ids; known.vals[ids[i]]));
    }

    /** Every registered entity of the type and nothing else, each once, in registration order. */
    method FindByType(entityType: string) returns (r: seq<Entity>)
      requires Valid()
      ensures forall e :: e in r <==> e.entityType == entityType && Lookup(entities, e.id) == Some(e)
      ensures Ascending(RegisteredAt(entities), r)
    {
      hide Filter, Values;
      r := Filter(OfType(entityType), Values(entities));
      ValuesInOrder(entities);
      FilterAscending(RegisteredAt(entities), OfType(entityType), Values(entities));
      forall e
        ensures e in r <==> e.entityType == entityType && Lookup(entities, e.id) == Some(e)
      {
        ByTypeMembers(entities, entityType, e);
      }
    }
  }
}
