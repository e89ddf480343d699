/** Replacing nodes one at a time in a table of entities and a table of directed edges.

    Each item brings one node: whatever sat there goes, with every edge touching it; the
    item's entity is appended, then those of its edges whose target is registered. */
module Settling {
  import opened Seqs

  datatype Item<E, R> = Item(node: string, entity: E, refs: seq<R>)

  /** How to read an entity's id and an edge's two ends. */
  datatype Ends<!E, !R> = Ends(id: E -> string, source: R -> string, target: R -> string)

  datatype Tables<E, R> = Tables(nodes: set<string>, entities: seq<E>, edges: seq<R>)

  function NotAt<E, R>(ends: Ends<E, R>, node: string): E -> bool {
    (e: E) => ends.id(e) != node
  }

  function Outside<E, R>(ends: Ends<E, R>, nodes: seq<string>): E -> bool {
    (e: E) => ends.id(e) !in nodes
  }

  function Away<E, R>(ends: Ends<E, R>, node: string): R -> bool {
    (r: R) => ends.source(r) != node && ends.target(r) != node
  }

  function AwayFromAll<E, R>(ends: Ends<E, R>, nodes: seq<string>): R -> bool {
    (r: R) => ends.source(r) !in nodes && ends.target(r) !in nodes
  }

  function Into<E, R>(ends: Ends<E, R>, nodes: set<string>): R -> bool {
    (r: R) => ends.target(r) in nodes
  }

  /** Replace one node. */
  function Place<E(!new), R(!new)>(ends: Ends<E, R>, t: Tables<E, R>, item: Item<E, R>): Tables<E, R> {
    var nodes := t.nodes + {item.node};
    Tables(nodes,
           Filter(NotAt(ends, item.node), t.entities) + [item.entity],
           Filter(Away(ends, item.node), t.edges) + Filter(Into(ends, nodes), item.refs))
  }

  function PlaceAll<E(!new), R(!new)>(ends: Ends<E, R>, t: Tables<E, R>, items: seq<Item<E, R>>): Tables<E, R> {
    if items == [] then t
    else Place(ends, PlaceAll(ends, t, items[..|items| - 1]), items[|items| - 1])
  }

  lemma PlaceAllSnoc<E(!new), R(!new)>(ends: Ends<E, R>, t: Tables<E, R>, front: seq<Item<E, R>>, item: Item<E, R>)
    ensures PlaceAll(ends, t, front + [item]) == Place(ends, PlaceAll(ends, t, front), item)
  {
    assert (front + [item])[..|front|] == front;
  }

  // ---- The closed form ------------------------------------------------------------

  function NodeOf<E, R>(): Item<E, R> -> string {
    (i: Item<E, R>) => i.node
  }

  function Nodes<E, R>(items: seq<Item<E, R>>): seq<string> {
    Map(NodeOf(), items)
  }

  function EntityIn<E, R>(): Item<E, R> -> E {
    (i: Item<E, R>) => i.entity
  }

  /** A reference of item i outlives the batch when its target is item i's node or an earlier
      one, or lies outside the batch and was registered before. */
  function Survives<E, R>(ends: Ends<E, R>, known: set<string>, nodes: seq<string>, i: nat): R -> bool
    requires i < |nodes|
  {
    (r: R) => ends.target(r) in nodes[..i + 1] || (ends.target(r) !in nodes && ends.target(r) in known)
  }

  function NewEdges<E(!new), R(!new)>(
    ends: Ends<E, R>, known: set<string>, items: seq<Item<E, R>>, nodes: seq<string>, n: nat): seq<R>
    requires n <= |items| && |items| <= |nodes|
  {
    if n == 0 then []
    else
      NewEdges(ends, known, items, nodes, n - 1)
      + Filter(Survives(ends, known, nodes, n - 1), items[n - 1].refs)
  }

  function Settled<E(!new), R(!new)>(ends: Ends<E, R>, t: Tables<E, R>, items: seq<Item<E, R>>): Tables<E, R> {
    Tables(t.nodes + (set x | x in Nodes(items)),
           Filter(Outside(ends, Nodes(items)), t.entities) + Map(EntityIn(), items),
           Filter(AwayFromAll(ends, Nodes(items)), t.edges) + NewEdges(ends, t.nodes, items, Nodes(items), |items|))
  }

  /** Each item's entity sits on its node and its references leave from there. */
  ghost predicate Proper<E, R>(ends: Ends<E, R>, items: seq<Item<E, R>>) {
    forall i :: 0 <= i < |items| ==> ProperItem(ends, items[i])
  }

  ghost predicate ProperItem<E, R>(ends: Ends<E, R>, item: Item<E, R>) {
    && ends.id(item.entity) == item.node
    && (forall j :: 0 <= j < |item.refs| ==> ends.source(item.refs[j]) == item.node)
  }

  lemma NodesSnoc<E, R>(front: seq<Item<E, R>>, item: Item<E, R>)
    ensures Nodes(front + [item]) == Nodes(front) + [item.node]
  {
  }

  lemma OutsideStep<E(!new), R(!new)>(ends: Ends<E, R>, es: seq<E>, nodes: seq<string>, node: string)
    ensures Filter(NotAt(ends, node), Filter(Outside(ends, nodes), es)) == Filter(Outside(ends, nodes + [node]), es)
  {
    FilterTwice(Outside(ends, nodes), NotAt(ends, node), Outside(ends, nodes + [node]), es);
  }

  lemma AwayStep<E(!new), R(!new)>(ends: Ends<E, R>, rs: seq<R>, nodes: seq<string>, node: string)
    ensures Filter(Away(ends, node), Filter(AwayFromAll(ends, nodes), rs))
         == Filter(AwayFromAll(ends, nodes + [node]), rs)
  {
    FilterTwice(AwayFromAll(ends, nodes), Away(ends, node), AwayFromAll(ends, nodes + [node]), rs);
  }

  lemma OtherEntitiesStay<E(!new), R(!new)>(ends: Ends<E, R>, items: seq<Item<E, R>>, node: string)
    requires Proper(ends, items) && node !in Nodes(items)
    ensures Filter(NotAt(ends, node), Map(EntityIn(), items)) == Map(EntityIn(), items)
  {
    forall e | e in Map(EntityIn(), items)
      ensures ends.id(e) != node
    {
      var i :| 0 <= i < |items| && Map(EntityIn(), items)[i] == e;
      assert ProperItem(ends, items[i]) && Nodes(items)[i] == items[i].node;
    }
    FilterAll(NotAt(ends, node), Map(EntityIn(), items));
  }

  lemma EntitiesStep<E(!new), R(!new)>(
    ends: Ends<E, R>, es: seq<E>, front: seq<Item<E, R>>, item: Item<E, R>)
    requires Proper(ends, front) && item.node !in Nodes(front)
    ensures Filter(NotAt(ends, item.node), Filter(Outside(ends, Nodes(front)), es) + Map(EntityIn(), front))
            + [item.entity]
         == Filter(Outside(ends, Nodes(front + [item])), es) + Map(EntityIn(), front + [item])
  {
    NodesSnoc(front, item);
    FilterConcat(NotAt(ends, item.node), Filter(Outside(ends, Nodes(front)), es), Map(EntityIn(), front));
    OutsideStep(ends, es, Nodes(front), item.node);
    OtherEntitiesStay(ends, front, item.node);
    assert Map(EntityIn(), front + [item]) == Map(EntityIn(), front) + [item.entity];
  }

  /** Of item i's references, the next node's arrival drops exactly those to it. */
  lemma SurvivorsStep<E(!new), R(!new)>(
    ends: Ends<E, R>, known: set<string>, nodes: seq<string>, node: string, i: nat, refs: seq<R>)
    requires i < |nodes| && node !in nodes
    requires forall j :: 0 <= j < |refs| ==> ends.source(refs[j]) == nodes[i]
    ensures Filter(Away(ends, node), Filter(Survives(ends, known, nodes, i), refs))
         == Filter(Survives(ends, known, nodes + [node], i), refs)
  {
    assert (nodes + [node])[..i + 1] == nodes[..i + 1];
    FilterTwice(Survives(ends, known, nodes, i), Away(ends, node), Survives(ends, known, nodes + [node], i), refs);
  }

  /** Placing one more node drops exactly the earlier references to it. */
  lemma {:induction false} NewEdgesStep<E(!new), R(!new)>(
    ends: Ends<E, R>, known: set<string>, front: seq<Item<E, R>>, item: Item<E, R>, nodes: seq<string>, n: nat)
    requires Proper(ends, front) && nodes == Nodes(front) && item.node !in nodes && n <= |front|
    ensures Filter(Away(ends, item.node), NewEdges(ends, known, front, nodes, n))
         == NewEdges(ends, known, front + [item], nodes + [item.node], n)
  {
    if n != 0 {
      NewEdgesStep(ends, known, front, item, nodes, n - 1);
      var refs := front[n - 1].refs;
      FilterConcat(Away(ends, item.node), NewEdges(ends, known, front, nodes, n - 1),
                   Filter(Survives(ends, known, nodes, n - 1), refs));
      assert ProperItem(ends, front[n - 1]);
      SurvivorsStep(ends, known, nodes, item.node, n - 1, refs);
      assert (front + [item])[n - 1].refs == refs;
    }
  }

  lemma LastSurvivors<E(!new), R(!new)>(
    ends: Ends<E, R>, known: set<string>, nodes: seq<string>, node: string, now: set<string>, refs: seq<R>)
    requires now == known + (set x | x in nodes) + {node}
    ensures Filter(Into(ends, now), refs) == Filter(Survives(ends, known, nodes + [node], |nodes|), refs)
  {
    assert (nodes + [node])[..|nodes| + 1] == nodes + [node];
    FilterAgree(Into(ends, now), Survives(ends, known, nodes + [node], |nodes|), refs);
  }

  lemma EarlierEdgesStep<E(!new), R(!new)>(
    ends: Ends<E, R>, known: set<string>, rs: seq<R>, front: seq<Item<E, R>>, item: Item<E, R>, nodes: seq<string>)
    requires Proper(ends, front) && nodes == Nodes(front) && item.node !in nodes
    ensures Filter(Away(ends, item.node),
                   Filter(AwayFromAll(ends, nodes), rs) + NewEdges(ends, known, front, nodes, |front|))
         == Filter(AwayFromAll(ends, nodes + [item.node]), rs)
            + NewEdges(ends, known, front + [item], nodes + [item.node], |front|)
  {
    FilterConcat(Away(ends, item.node), Filter(AwayFromAll(ends, nodes), rs),
                 NewEdges(ends, known, front, nodes, |front|));
    AwayStep(ends, rs, nodes, item.node);
    NewEdgesStep(ends, known, front, item, nodes, |front|);
  }

  lemma NewEdgesUnfold<E(!new), R(!new)>(
    ends: Ends<E, R>, known: set<string>, front: seq<Item<E, R>>, item: Item<E, R>, nodes: seq<string>)
    requires |front| < |nodes|
    ensures NewEdges(ends, known, front + [item], nodes, |front| + 1)
         == NewEdges(ends, known, front + [item], nodes, |front|)
            + Filter(Survives(ends, known, nodes, |front|), item.refs)
  {
  }

  lemma EdgesStep<E(!new), R(!new)>(
    ends: Ends<E, R>, known: set<string>, rs: seq<R>, front: seq<Item<E, R>>, item: Item<E, R>, now: set<string>)
    requires Proper(ends, front) && item.node !in Nodes(front)
    requires now == known + (set x | x in Nodes(front)) + {item.node}
    ensures Filter(Away(ends, item.node),
                   Filter(AwayFromAll(ends, Nodes(front)), rs) + NewEdges(ends, known, front, Nodes(front), |front|))
            + Filter(Into(ends, now), item.refs)
         == Filter(AwayFromAll(ends, Nodes(front) + [item.node]), rs)
            + NewEdges(ends, known, front + [item], Nodes(front) + [item.node], |front| + 1)
  {
    hide Filter, NewEdges, Survives, Proper;
    EarlierEdgesStep(ends, known, rs, front, item, Nodes(front));
    LastSurvivors(ends, known, Nodes(front), item.node, now, item.refs);
    NewEdgesUnfold(ends, known, front, item, Nodes(front) + [item.node]);
  }

  lemma PlaceStep<E(!new), R(!new)>(ends: Ends<E, R>, t: Tables<E, R>, front: seq<Item<E, R>>, item: Item<E, R>)
    requires Proper(ends, front) && item.node !in Nodes(front)
    ensures Place(ends, Settled(ends, t, front), item) == Settled(ends, t, front + [item])
  {
    hide Filter, NewEdges, Proper;
    NodesSnoc(front, item);
    var now := t.nodes + (set x | x in Nodes(front)) + {item.node};
    EntitiesStep(ends, t.entities, front, item);
    EdgesStep(ends, t.nodes, t.edges, front, item, now);
    assert now == t.nodes + (set x | x in Nodes(front + [item]));
  }

  /** Placing the items one by one, for distinct nodes, gives the closed form. */
  lemma {:induction false} PlaceAllIsSettled<E(!new), R(!new)>(
    ends: Ends<E, R>, t: Tables<E, R>, items: seq<Item<E, R>>)
    requires Proper(ends, items) && NoDup(Nodes(items))
    ensures PlaceAll(ends, t, items) == Settled(ends, t, items)
  {
    if items == [] {
      FilterAll(Outside(ends, []), t.entities);
      FilterAll(AwayFromAll(ends, []), t.edges);
      assert Settled(ends, t, items).nodes == t.nodes;
    } else {
      var front, item := items[..|items| - 1], items[|items| - 1];
      assert items == front + [item];
      NodesSnoc(front, item);
      assert Nodes(front) == Nodes(items)[..|front|];
      assert forall i :: 0 <= i < |front| ==> Nodes(items)[i] != Nodes(items)[|front|];
      PlaceAllIsSettled(ends, t, front);
      PlaceStep(ends, t, front, item);
    }
  }

  // ---- Items made from records, each record drawing some fresh numbers -------------------

  function Total<T>(weigh: T -> nat, s: seq<T>): nat {
    if s == [] then 0 else Total(weigh, s[..|s| - 1]) + weigh(s[|s| - 1])
  }

  function Numbered<T, U>(make: (T, nat) -> U, weigh: T -> nat, s: seq<T>, first: nat): seq<U> {
    if s == [] then []
    else
      Numbered(make, weigh, s[..|s| - 1], first) + [make(s[|s| - 1], first + Total(weigh, s[..|s| - 1]))]
  }

  lemma NumberedSnoc<T, U>(make: (T, nat) -> U, weigh: T -> nat, front: seq<T>, x: T, first: nat)
    ensures Numbered(make, weigh, front + [x], first)
         == Numbered(make, weigh, front, first) + [make(x, first + Total(weigh, front))]
    ensures Total(weigh, front + [x]) == Total(weigh, front) + weigh(x)
  {
    assert (front + [x])[..|front|] == front;
  }

  lemma {:induction false} NumberedLength<T, U>(make: (T, nat) -> U, weigh: T -> nat, s: seq<T>, first: nat)
    ensures |Numbered(make, weigh, s, first)| == |s|
  {
    if s != [] {
      NumberedLength(make, weigh, s[..|s| - 1], first);
    }
  }

  lemma {:induction false} NumberedAt<T, U>(make: (T, nat) -> U, weigh: T -> nat, s: seq<T>, first: nat, i: nat)
    requires i < |s|
    ensures |Numbered(make, weigh, s, first)| == |s|
    ensures Numbered(make, weigh, s, first)[i] == make(s[i], first + Total(weigh, s[..i]))
  {
    NumberedLength(make, weigh, s, first);
    NumberedLength(make, weigh, s[..|s| - 1], first);
    if i < |s| - 1 {
      NumberedAt(make, weigh, s[..|s| - 1], first, i);
      assert s[..|s| - 1][..i] == s[..i];
    }
  }

  lemma NumberedNodes<T(!new), E(!new), R(!new)>(
    make: (T, nat) -> Item<E, R>, weigh: T -> nat, node: T -> string, s: seq<T>, first: nat)
    requires forall x, n: nat :: make(x, n).node == node(x)
    ensures Nodes(Numbered(make, weigh, s, first)) == Map(node, s)
  {
    NumberedLength(make, weigh, s, first);
    forall i | 0 <= i < |s|
      ensures Numbered(make, weigh, s, first)[i].node == node(s[i])
    {
      NumberedAt(make, weigh, s, first, i);
    }
  }

  lemma NumberedProper<T(!new), E(!new), R(!new)>(
    ends: Ends<E, R>, make: (T, nat) -> Item<E, R>, weigh: T -> nat, s: seq<T>, first: nat)
    requires forall x, n: nat :: ProperItem(ends, make(x, n))
    ensures Proper(ends, Numbered(make, weigh, s, first))
  {
    NumberedLength(make, weigh, s, first);
    forall i | 0 <= i < |s|
      ensures ProperItem(ends, Numbered(make, weigh, s, first)[i])
    {
      NumberedAt(make, weigh, s, first, i);
    }
  }
}
