/** Laws of the closed form: idempotence, what order can change, and which references live. */
module SettlingLaws {
  import opened Seqs
  import opened Settling

  /** The two batches bring the same nodes, entities and references up to the look of an edge. */
  ghost predicate SameLook<E, R, S>(a: seq<Item<E, R>>, b: seq<Item<E, R>>, look: R -> S) {
    && |a| == |b|
    && forall i :: 0 <= i < |a| ==> SameItem(a[i], b[i], look)
  }

  ghost predicate SameItem<E, R, S>(a: Item<E, R>, b: Item<E, R>, look: R -> S) {
    a.node == b.node && a.entity == b.entity && Map(look, a.refs) == Map(look, b.refs)
  }

  function TargetOfLook<S>(target: S -> string, keep: string -> bool): S -> bool {
    (s: S) => keep(target(s))
  }

  function Lives(known: set<string>, nodes: seq<string>, i: nat): string -> bool
    requires i < |nodes|
  {
    (t: string) => t in nodes[..i + 1] || (t !in nodes && t in known)
  }

  lemma SurvivorsLook<E(!new), R(!new), S(!new)>(
    ends: Ends<E, R>, look: R -> S, target: S -> string, known: set<string>, nodes: seq<string>, i: nat, refs: seq<R>)
    requires i < |nodes|
    requires forall r :: target(look(r)) == ends.target(r)
    ensures Map(look, Filter(Survives(ends, known, nodes, i), refs))
         == Filter(TargetOfLook(target, Lives(known, nodes, i)), Map(look, refs))
  {
    FilterMap(look, Survives(ends, known, nodes, i), TargetOfLook(target, Lives(known, nodes, i)), refs);
  }

  lemma MapConcat<T, U>(f: T -> U, a: seq<T>, b: seq<T>)
    ensures Map(f, a + b) == Map(f, a) + Map(f, b)
  {
  }

  /** Re-registering nodes that were part of the batch does not change which references live. */
  lemma {:induction false} NewEdgesLook<E(!new), R(!new), S(!new)>(
    ends: Ends<E, R>, look: R -> S, target: S -> string, known: set<string>, known': set<string>,
    a: seq<Item<E, R>>, b: seq<Item<E, R>>, nodes: seq<string>, n: nat)
    requires forall r :: target(look(r)) == ends.target(r)
    requires SameLook(a, b, look) && n <= |a| <= |nodes|
    requires forall t :: t !in nodes ==> (t in known <==> t in known')
    ensures Map(look, NewEdges(ends, known, a, nodes, n)) == Map(look, NewEdges(ends, known', b, nodes, n))
  {
    if n != 0 {
      var i := n - 1;
      NewEdgesLook(ends, look, target, known, known', a, b, nodes, i);
      assert SameItem(a[i], b[i], look);
      SurvivorsLook(ends, look, target, known, nodes, i, a[i].refs);
      SurvivorsLook(ends, look, target, known', nodes, i, b[i].refs);
      FilterAgree(TargetOfLook(target, Lives(known, nodes, i)), TargetOfLook(target, Lives(known', nodes, i)),
                  Map(look, b[i].refs));
      MapConcat(look, NewEdges(ends, known, a, nodes, i), Filter(Survives(ends, known, nodes, i), a[i].refs));
      MapConcat(look, NewEdges(ends, known', b, nodes, i), Filter(Survives(ends, known', nodes, i), b[i].refs));
    }
  }

  lemma SurvivorsTouchBatch<E(!new), R(!new)>(
    ends: Ends<E, R>, keep: R -> bool, items: seq<Item<E, R>>, nodes: seq<string>, i: nat)
    requires Proper(ends, items) && nodes == Nodes(items) && i < |items|
    ensures Filter(AwayFromAll(ends, nodes), Filter(keep, items[i].refs)) == []
  {
    FilterMembers(keep, items[i].refs);
    assert ProperItem(ends, items[i]) && nodes[i] == items[i].node;
    FilterNone(AwayFromAll(ends, nodes), Filter(keep, items[i].refs));
  }

  lemma {:induction false} NewEdgesTouchBatch<E(!new), R(!new)>(
    ends: Ends<E, R>, known: set<string>, items: seq<Item<E, R>>, nodes: seq<string>, n: nat)
    requires Proper(ends, items) && nodes == Nodes(items) && n <= |items|
    ensures Filter(AwayFromAll(ends, nodes), NewEdges(ends, known, items, nodes, n)) == []
  {
    if n != 0 {
      hide Filter, Proper, Nodes, AwayFromAll, Survives;
      var i := n - 1;
      var keep := Survives(ends, known, nodes, i);
      NewEdgesTouchBatch(ends, known, items, nodes, i);
      FilterConcat(AwayFromAll(ends, nodes), NewEdges(ends, known, items, nodes, i), Filter(keep, items[i].refs));
      SurvivorsTouchBatch(ends, keep, items, nodes, i);
    }
  }

  lemma BatchEntitiesAreInside<E(!new), R(!new)>(ends: Ends<E, R>, items: seq<Item<E, R>>)
    requires Proper(ends, items)
    ensures Filter(Outside(ends, Nodes(items)), Map(EntityIn(), items)) == []
  {
    forall e | e in Map(EntityIn(), items)
      ensures ends.id(e) in Nodes(items)
    {
      var i :| 0 <= i < |items| && Map(EntityIn(), items)[i] == e;
      assert ProperItem(ends, items[i]) && Nodes(items)[i] == items[i].node;
    }
    FilterNone(Outside(ends, Nodes(items)), Map(EntityIn(), items));
  }

  lemma SameNodes<E, R, S>(a: seq<Item<E, R>>, b: seq<Item<E, R>>, look: R -> S)
    requires SameLook(a, b, look)
    ensures Nodes(a) == Nodes(b) && Map(EntityIn(), a) == Map(EntityIn(), b)
  {
    assert forall i :: 0 <= i < |a| ==> SameItem(a[i], b[i], look);
  }

  lemma KeptTwice<T(!new)>(keep: T -> bool, s: seq<T>, added: seq<T>)
    requires Filter(keep, added) == []
    ensures Filter(keep, Filter(keep, s) + added) == Filter(keep, s)
  {
    FilterConcat(keep, Filter(keep, s), added);
    FilterTwice(keep, keep, keep, s);
  }

  /** Settling the same batch again changes nothing but the edges' identities. */
  lemma SettledTwice<E(!new), R(!new), S(!new)>(
    ends: Ends<E, R>, look: R -> S, target: S -> string, t: Tables<E, R>,
    items: seq<Item<E, R>>, again: seq<Item<E, R>>)
    requires forall r :: target(look(r)) == ends.target(r)
    requires Proper(ends, items) && SameLook(items, again, look)
    ensures Settled(ends, Settled(ends, t, items), again).nodes == Settled(ends, t, items).nodes
    ensures Settled(ends, Settled(ends, t, items), again).entities == Settled(ends, t, items).entities
    ensures Map(look, Settled(ends, Settled(ends, t, items), again).edges) == Map(look, Settled(ends, t, items).edges)
  {
    SameNodes(items, again, look);
    var nodes, once := Nodes(items), Settled(ends, t, items);
    BatchEntitiesAreInside(ends, items);
    KeptTwice(Outside(ends, nodes), t.entities, Map(EntityIn(), items));
    var added := NewEdges(ends, t.nodes, items, nodes, |items|);
    NewEdgesTouchBatch(ends, t.nodes, items, nodes, |items|);
    KeptTwice(AwayFromAll(ends, nodes), t.edges, added);
    NewEdgesLook(ends, look, target, t.nodes, once.nodes, items, again, nodes, |items|);
    MapConcat(look, Filter(AwayFromAll(ends, nodes), t.edges), added);
    MapConcat(look, Filter(AwayFromAll(ends, nodes), t.edges), NewEdges(ends, once.nodes, again, nodes, |items|));
  }

  // ---- Which references live --------------------------------------------------------

  lemma OwnReferences<E(!new), R(!new)>(
    ends: Ends<E, R>, items: seq<Item<E, R>>, nodes: seq<string>, i: nat, k: nat, r: R)
    requires Proper(ends, items) && nodes == Nodes(items) && NoDup(nodes)
    requires i < |items| && k < |items| && r in items[i].refs && r in items[k].refs
    ensures i == k
  {
    assert ProperItem(ends, items[i]) && ProperItem(ends, items[k]);
    assert nodes[i] == items[i].node && nodes[k] == items[k].node;
  }

  lemma {:induction false} NewEdgeMembers<E(!new), R(!new)>(
    ends: Ends<E, R>, known: set<string>, items: seq<Item<E, R>>, nodes: seq<string>, n: nat, i: nat, r: R)
    requires Proper(ends, items) && nodes == Nodes(items) && NoDup(nodes)
    requires n <= |items| && i < |items| && r in items[i].refs
    ensures r in NewEdges(ends, known, items, nodes, n) <==> i < n && Survives(ends, known, nodes, i)(r)
  {
    assert |nodes| == |items|;
    hide Filter, Proper, Survives, NoDup, Nodes;
    if n != 0 {
      var k := n - 1;
      NewEdgeMembers(ends, known, items, nodes, k, i, r);
      FilterMembers(Survives(ends, known, nodes, k), items[k].refs);
      if r in items[k].refs {
        OwnReferences(ends, items, nodes, i, k, r);
      }
    }
  }

  /** A batch record's reference is in the final table exactly when it points at a record
      that came no later, or outside the batch at a node that was registered. */
  lemma ReferenceLivesIff<E(!new), R(!new)>(
    ends: Ends<E, R>, t: Tables<E, R>, items: seq<Item<E, R>>, i: nat, r: R)
    requires Proper(ends, items) && NoDup(Nodes(items))
    requires i < |items| && r in items[i].refs
    ensures r in Settled(ends, t, items).edges <==> Survives(ends, t.nodes, Nodes(items), i)(r)
  {
    var nodes := Nodes(items);
    NewEdgeMembers(ends, t.nodes, items, nodes, |items|, i, r);
    FilterMembers(AwayFromAll(ends, nodes), t.edges);
    assert ProperItem(ends, items[i]) && nodes[i] == items[i].node;
  }

  lemma {:induction false} NewEdgeOrigin<E(!new), R(!new)>(
    ends: Ends<E, R>, known: set<string>, items: seq<Item<E, R>>, nodes: seq<string>, n: nat, r: R)
    requires n <= |items| <= |nodes| && r in NewEdges(ends, known, items, nodes, n)
    ensures exists i :: 0 <= i < n && r in items[i].refs
  {
    if n != 0 {
      FilterMembers(Survives(ends, known, nodes, n - 1), items[n - 1].refs);
      if r !in items[n - 1].refs {
        NewEdgeOrigin(ends, known, items, nodes, n - 1, r);
      }
    }
  }

  /** After the batch, the edges leaving a batch node are its own surviving references. */
  lemma EdgesOfBatchNode<E(!new), R(!new)>(
    ends: Ends<E, R>, t: Tables<E, R>, items: seq<Item<E, R>>, i: nat, r: R)
    requires Proper(ends, items) && NoDup(Nodes(items))
    requires i < |items| && ends.source(r) == items[i].node
    ensures r in Settled(ends, t, items).edges <==>
      r in items[i].refs && Survives(ends, t.nodes, Nodes(items), i)(r)
  {
    var nodes := Nodes(items);
    assert nodes[i] == items[i].node;
    forall j | 0 <= j < |items| && r in items[j].refs
      ensures j == i
    {
      assert ProperItem(ends, items[j]) && nodes[j] == items[j].node;
    }
    if r in items[i].refs {
      ReferenceLivesIff(ends, t, items, i, r);
    } else {
      FilterMembers(AwayFromAll(ends, nodes), t.edges);
      if r in NewEdges(ends, t.nodes, items, nodes, |items|) {
        NewEdgeOrigin(ends, t.nodes, items, nodes, |items|, r);
      }
    }
  }

  function LeavesFrom<E, R>(ends: Ends<E, R>, node: string): R -> bool {
    (r: R) => ends.source(r) == node
  }

  lemma OwnReferencesLeave<E(!new), R(!new)>(
    ends: Ends<E, R>, keep: R -> bool, items: seq<Item<E, R>>, nodes: seq<string>, i: nat, k: nat)
    requires Proper(ends, items) && nodes == Nodes(items) && NoDup(nodes) && i < |items| && k < |items|
    ensures Filter(LeavesFrom(ends, nodes[i]), Filter(keep, items[k].refs))
         == if i == k then Filter(keep, items[k].refs) else []
  {
    FilterMembers(keep, items[k].refs);
    assert ProperItem(ends, items[k]) && nodes[k] == items[k].node;
    if i == k {
      FilterAll(LeavesFrom(ends, nodes[i]), Filter(keep, items[k].refs));
    } else {
      FilterNone(LeavesFrom(ends, nodes[i]), Filter(keep, items[k].refs));
    }
  }

  /** The first n parts, one after the other. */
  function Joined<R>(part: nat -> seq<R>, n: nat): seq<R> {
    if n == 0 then [] else Joined(part, n - 1) + part(n - 1)
  }

  lemma {:induction false} FilterJoined<R(!new)>(leaves: R -> bool, part: nat -> seq<R>, n: nat, i: nat)
    requires forall k: nat :: Filter(leaves, part(k)) == if k == i then part(k) else []
    ensures Filter(leaves, Joined(part, n)) == if i < n then part(i) else []
  {
    hide Filter;
    if n == 0 {
      FilterNone(leaves, []);
    } else {
      FilterJoined(leaves, part, n - 1, i);
      FilterConcat(leaves, Joined(part, n - 1), part(n - 1));
      assert part(i) + [] == part(i) && [] + part(i) == part(i);
    }
  }

  /** What is left of each item's references. */
  function Kept<E(!new), R(!new)>(
    ends: Ends<E, R>, known: set<string>, items: seq<Item<E, R>>, nodes: seq<string>): nat -> seq<R>
    requires |items| == |nodes|
  {
    (k: nat) => if k < |items| then Filter(Survives(ends, known, nodes, k), items[k].refs) else []
  }

  lemma {:induction false} NewEdgesAreJoined<E(!new), R(!new)>(
    ends: Ends<E, R>, known: set<string>, items: seq<Item<E, R>>, nodes: seq<string>, n: nat)
    requires n <= |items| == |nodes|
    ensures NewEdges(ends, known, items, nodes, n) == Joined(Kept(ends, known, items, nodes), n)
  {
    hide Filter, Survives;
    if n != 0 {
      var part := Kept(ends, known, items, nodes);
      assert part(n - 1) == Filter(Survives(ends, known, nodes, n - 1), items[n - 1].refs);
      hide Kept;
      NewEdgesAreJoined(ends, known, items, nodes, n - 1);
      assert Joined(part, n) == Joined(part, n - 1) + part(n - 1);
    }
  }

  lemma NewEdgesFrom<E(!new), R(!new)>(
    ends: Ends<E, R>, known: set<string>, items: seq<Item<E, R>>, nodes: seq<string>, i: nat)
    requires Proper(ends, items) && nodes == Nodes(items) && NoDup(nodes) && i < |items| == |nodes|
    ensures Filter(LeavesFrom(ends, nodes[i]), NewEdges(ends, known, items, nodes, |items|))
         == Filter(Survives(ends, known, nodes, i), items[i].refs)
  {
    assert |nodes| == |items|;
    hide Proper, Nodes, NoDup, LeavesFrom, Survives, NewEdges, Joined;
    var part, leaves := Kept(ends, known, items, nodes), LeavesFrom(ends, nodes[i]);
    forall k: nat
      ensures Filter(leaves, part(k)) == if k == i then part(k) else []
    {
      if k < |items| {
        OwnReferencesLeave(ends, Survives(ends, known, nodes, k), items, nodes, i, k);
      } else {
        FilterNone(leaves, part(k));
      }
    }
    NewEdgesAreJoined(ends, known, items, nodes, |items|);
    FilterJoined(leaves, part, |items|, i);
  }

  /** After the batch, the edges leaving item i's node are its surviving references, each once
      and in their order. */
  lemma SettledEdgesFrom<E(!new), R(!new)>(ends: Ends<E, R>, t: Tables<E, R>, items: seq<Item<E, R>>, i: nat)
    requires Proper(ends, items) && NoDup(Nodes(items)) && i < |items|
    ensures Filter(LeavesFrom(ends, items[i].node), Settled(ends, t, items).edges)
         == Filter(Survives(ends, t.nodes, Nodes(items), i), items[i].refs)
  {
    var nodes := Nodes(items);
    assert nodes[i] == items[i].node && |nodes| == |items|;
    NothingOldLeaves(ends, t.edges, nodes, i);
    hide Filter, Survives, Nodes, Proper, NoDup, NewEdges, LeavesFrom;
    NewEdgesFrom(ends, t.nodes, items, nodes, i);
    var before, added := Filter(AwayFromAll(ends, nodes), t.edges), NewEdges(ends, t.nodes, items, nodes, |items|);
    FilterConcat(LeavesFrom(ends, nodes[i]), before, added);
    assert [] + Filter(LeavesFrom(ends, nodes[i]), added) == Filter(LeavesFrom(ends, nodes[i]), added);
  }

  lemma NothingOldLeaves<E(!new), R(!new)>(ends: Ends<E, R>, rs: seq<R>, nodes: seq<string>, i: nat)
    requires i < |nodes|
    ensures Filter(LeavesFrom(ends, nodes[i]), Filter(AwayFromAll(ends, nodes), rs)) == []
  {
    FilterMembers(AwayFromAll(ends, nodes), rs);
    assert nodes[i] in nodes;
    FilterNone(LeavesFrom(ends, nodes[i]), Filter(AwayFromAll(ends, nodes), rs));
  }

  /** Edges away from the batch are exactly the ones there were. */
  lemma SettledKeepsTheRest<E(!new), R(!new)>(ends: Ends<E, R>, t: Tables<E, R>, items: seq<Item<E, R>>)
    requires Proper(ends, items)
    ensures Filter(AwayFromAll(ends, Nodes(items)), Settled(ends, t, items).edges)
         == Filter(AwayFromAll(ends, Nodes(items)), t.edges)
  {
    hide Filter, Proper;
    NewEdgesTouchBatch(ends, t.nodes, items, Nodes(items), |items|);
    KeptTwice(AwayFromAll(ends, Nodes(items)), t.edges, NewEdges(ends, t.nodes, items, Nodes(items), |items|));
  }

  /** Every edge after the batch is one of these: edges into the batch from outside are gone. */
  lemma SettledHasNothingElse<E(!new), R(!new)>(ends: Ends<E, R>, t: Tables<E, R>, items: seq<Item<E, R>>, r: R)
    requires Proper(ends, items) && r in Settled(ends, t, items).edges
    ensures AwayFromAll(ends, Nodes(items))(r) || ends.source(r) in Nodes(items)
  {
    FilterMembers(AwayFromAll(ends, Nodes(items)), t.edges);
    if r in NewEdges(ends, t.nodes, items, Nodes(items), |items|) {
      NewEdgeOrigin(ends, t.nodes, items, Nodes(items), |items|, r);
      var i :| 0 <= i < |items| && r in items[i].refs;
      assert ProperItem(ends, items[i]) && Nodes(items)[i] == items[i].node;
    }
  }

  // ---- What the order of a batch can change -----------------------------------------------

  ghost function Sum<T, S>(f: T -> multiset<S>, s: seq<T>): multiset<S> {
    if s == [] then multiset{} else Sum(f, s[..|s| - 1]) + f(s[|s| - 1])
  }

  lemma {:induction false} SumConcat<T, S>(f: T -> multiset<S>, a: seq<T>, b: seq<T>)
    ensures Sum(f, a + b) == Sum(f, a) + Sum(f, b)
  {
    if b == [] {
      assert a + b == a;
    } else {
      SumConcat(f, a, b[..|b| - 1]);
      assert (a + b)[..|a + b| - 1] == a + b[..|b| - 1];
    }
  }

  lemma SumWithout<T, S>(f: T -> multiset<S>, before: seq<T>, x: T, after: seq<T>)
    ensures Sum(f, before + [x] + after) == Sum(f, before + after) + f(x)
  {
    SumConcat(f, before, after);
    SumConcat(f, before, [x]);
    SumConcat(f, before + [x], after);
    assert Sum(f, [x]) == f(x);
  }

  lemma MultisetWithout<T>(front: seq<T>, before: seq<T>, x: T, after: seq<T>)
    requires multiset(front + [x]) == multiset(before + [x] + after)
    ensures multiset(front) == multiset(before + after)
  {
    assert multiset(before + [x] + after) == multiset(before + after) + multiset{x};
    assert multiset(front) == multiset(front + [x]) - multiset{x};
  }

  /** A sum over a sequence does not depend on its order. */
  lemma {:induction false} SumOfPermutation<T, S>(f: T -> multiset<S>, a: seq<T>, b: seq<T>)
    requires multiset(a) == multiset(b)
    ensures Sum(f, a) == Sum(f, b)
    decreases |a|
  {
    if a == [] {
      assert |multiset(b)| == 0;
    } else {
      var front, last := a[..|a| - 1], a[|a| - 1];
      assert a == front + [last];
      assert last in multiset(b);
      var i :| 0 <= i < |b| && b[i] == last;
      var before, after := b[..i], b[i + 1..];
      assert b == before + [last] + after;
      MultisetWithout(front, before, last, after);
      SumOfPermutation(f, front, before + after);
      SumWithout(f, before, last, after);
    }
  }

  /** The targets an item at `home` keeps wherever it stands in the batch: itself, and nodes
      outside the batch that were registered. */
  function KeptAnywhere(known: set<string>, nodes: set<string>, home: string): string -> bool {
    (t: string) => t == home || (t !in nodes && t in known)
  }

  /** What an item contributes besides edges to other nodes of the batch, as a multiset of looks. */
  function Outgoing<E, R, S(==,!new)>(look: R -> S, target: S -> string, known: set<string>, nodes: set<string>)
    : Item<E, R> -> multiset<S>
  {
    (item: Item<E, R>) =>
      multiset(Filter(TargetOfLook(target, KeptAnywhere(known, nodes, item.node)), Map(look, item.refs)))
  }

  lemma OutgoingOf<E(!new), R(!new), S(!new)>(
    ends: Ends<E, R>, look: R -> S, target: S -> string, known: set<string>, nodes: seq<string>,
    inside: set<string>, i: nat, item: Item<E, R>)
    requires forall r :: target(look(r)) == ends.target(r)
    requires inside == (set x | x in nodes) && i < |nodes|
    requires ProperItem(ends, item) && nodes[i] == item.node
    ensures multiset(Map(look, Filter(NotBetween(ends, inside), Filter(Survives(ends, known, nodes, i), item.refs))))
         == Outgoing(look, target, known, inside)(item)
  {
    var both := (r: R) => Survives(ends, known, nodes, i)(r) && NotBetween(ends, inside)(r);
    FilterTwice(Survives(ends, known, nodes, i), NotBetween(ends, inside), both, item.refs);
    assert item.node in nodes[..i + 1] && item.node in inside;
    forall r | r in item.refs
      ensures both(r) == TargetOfLook(target, KeptAnywhere(known, inside, item.node))(look(r))
    {
      assert ends.source(r) == item.node;
      assert ends.target(r) in nodes[..i + 1] ==> ends.target(r) in inside;
    }
    FilterMap(look, both, TargetOfLook(target, KeptAnywhere(known, inside, item.node)), item.refs);
  }

  lemma {:induction false} NewEdgesNotBetween<E(!new), R(!new), S(!new)>(
    ends: Ends<E, R>, look: R -> S, target: S -> string, known: set<string>, items: seq<Item<E, R>>,
    nodes: seq<string>, inside: set<string>, n: nat)
    requires forall r :: target(look(r)) == ends.target(r)
    requires Proper(ends, items) && nodes == Nodes(items) && inside == (set x | x in nodes) && n <= |items|
    ensures multiset(Map(look, Filter(NotBetween(ends, inside), NewEdges(ends, known, items, nodes, n))))
         == Sum(Outgoing(look, target, known, inside), items[..n])
  {
    assert |nodes| == |items|;
    if n != 0 {
      var i := n - 1;
      assert ProperItem(ends, items[i]) && nodes[i] == items[i].node;
      hide Filter, Proper, Nodes, Survives, NotBetween;
      var kept := Filter(Survives(ends, known, nodes, i), items[i].refs);
      NewEdgesNotBetween(ends, look, target, known, items, nodes, inside, i);
      OutgoingOf(ends, look, target, known, nodes, inside, i, items[i]);
      FilterConcat(NotBetween(ends, inside), NewEdges(ends, known, items, nodes, i), kept);
      MapConcat(look, Filter(NotBetween(ends, inside), NewEdges(ends, known, items, nodes, i)),
                Filter(NotBetween(ends, inside), kept));
      assert items[..n][..i] == items[..i];
    }
  }

  /** Edges that do not run from one node of the batch to another. Self-loops do not. */
  function NotBetween<E, R>(ends: Ends<E, R>, inside: set<string>): R -> bool {
    (r: R) => ends.source(r) !in inside || ends.target(r) !in inside || ends.source(r) == ends.target(r)
  }

  lemma SettledNotBetween<E(!new), R(!new), S(!new)>(
    ends: Ends<E, R>, look: R -> S, target: S -> string, t: Tables<E, R>, items: seq<Item<E, R>>, inside: set<string>)
    requires forall r :: target(look(r)) == ends.target(r)
    requires Proper(ends, items) && inside == (set x | x in Nodes(items))
    ensures multiset(Map(look, Filter(NotBetween(ends, inside), Settled(ends, t, items).edges)))
         == multiset(Map(look, Filter(NotTouching(ends, inside), t.edges)))
            + Sum(Outgoing(look, target, t.nodes, inside), items)
  {
    var nodes := Nodes(items);
    var kept := Filter(AwayFromAll(ends, nodes), t.edges);
    var added := NewEdges(ends, t.nodes, items, nodes, |items|);
    FilterConcat(NotBetween(ends, inside), kept, added);
    FilterMembers(AwayFromAll(ends, nodes), t.edges);
    FilterAll(NotBetween(ends, inside), kept);
    FilterAgree(AwayFromAll(ends, nodes), NotTouching(ends, inside), t.edges);
    NewEdgesNotBetween(ends, look, target, t.nodes, items, nodes, inside, |items|);
    assert items[..|items|] == items;
    MapConcat(look, kept, Filter(NotBetween(ends, inside), added));
  }

  function NotTouching<E, R>(ends: Ends<E, R>, inside: set<string>): R -> bool {
    (r: R) => ends.source(r) !in inside && ends.target(r) !in inside
  }

  /** What items contribute depends only on the records they were made from. */
  lemma {:induction false} SumOfNumbered<T(!new), U(!new), S(!new)>(
    f: U -> multiset<S>, g: T -> multiset<S>, make: (T, nat) -> U, weigh: T -> nat, s: seq<T>, first: nat)
    requires forall x, n: nat :: f(make(x, n)) == g(x)
    ensures Sum(f, Numbered(make, weigh, s, first)) == Sum(g, s)
  {
    if s != [] {
      SumOfNumbered(f, g, make, weigh, s[..|s| - 1], first);
    }
  }

  /** Batches made from the same records in different orders settle the same edges, ids aside,
      except those from one record of the batch to another. */
  lemma SettledInAnyOrder<T(!new), E(!new), R(!new), S(!new)>(
    ends: Ends<E, R>, look: R -> S, target: S -> string, t: Tables<E, R>,
    make: (T, nat) -> Item<E, R>, weigh: T -> nat, g: T -> multiset<S>,
    a: seq<T>, b: seq<T>, first: nat, inside: set<string>)
    requires forall r :: target(look(r)) == ends.target(r)
    requires forall x, n: nat :: Outgoing(look, target, t.nodes, inside)(make(x, n)) == g(x)
    requires Proper(ends, Numbered(make, weigh, a, first)) && Proper(ends, Numbered(make, weigh, b, first))
    requires inside == (set x | x in Nodes(Numbered(make, weigh, a, first)))
    requires inside == (set x | x in Nodes(Numbered(make, weigh, b, first)))
    requires multiset(a) == multiset(b)
    ensures multiset(Map(look, Filter(NotBetween(ends, inside),
              Settled(ends, t, Numbered(make, weigh, a, first)).edges)))
         == multiset(Map(look, Filter(NotBetween(ends, inside),
              Settled(ends, t, Numbered(make, weigh, b, first)).edges)))
  {
    SettledNotBetween(ends, look, target, t, Numbered(make, weigh, a, first), inside);
    SettledNotBetween(ends, look, target, t, Numbered(make, weigh, b, first), inside);
    SumOfNumbered(Outgoing(look, target, t.nodes, inside), g, make, weigh, a, first);
    SumOfNumbered(Outgoing(look, target, t.nodes, inside), g, make, weigh, b, first);
    SumOfPermutation(g, a, b);
  }

  /** Items numbered from different starting points look the same. */
  lemma NumberedSameLook<T(!new), E(!new), R(!new), S>(
    make: (T, nat) -> Item<E, R>, weigh: T -> nat, look: R -> S, s: seq<T>, first: nat, other: nat)
    requires forall x, n: nat, m: nat :: SameItem(make(x, n), make(x, m), look)
    ensures SameLook(Numbered(make, weigh, s, first), Numbered(make, weigh, s, other), look)
  {
    NumberedLength(make, weigh, s, first);
    NumberedLength(make, weigh, s, other);
    forall i | 0 <= i < |s|
      ensures SameItem(Numbered(make, weigh, s, first)[i], Numbered(make, weigh, s, other)[i], look)
    {
      NumberedAt(make, weigh, s, first, i);
      NumberedAt(make, weigh, s, other, i);
    }
  }
}
