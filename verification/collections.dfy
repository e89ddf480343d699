/** Sequence algebra and insertion-ordered dictionaries. */

module Wrappers {
  datatype Option<+T> = None | Some(value: T)

  /** An operation's return value or the exception it raised. */
  datatype Result<+T, +E> = Ok(value: T) | Err(error: E)
}

module Seqs {
  ghost predicate NoDup<T>(s: seq<T>) {
    forall i, j :: 0 <= i < j < |s| ==> s[i] != s[j]
  }

  function Map<T, U>(f: T -> U, s: seq<T>): (r: seq<U>) {
    seq(|s|, i requires 0 <= i < |s| => f(s[i]))
  }

  function Filter<T(!new)>(keep: T -> bool, s: seq<T>): seq<T> {
    if s == [] then []
    else
      Filter(keep, s[..|s| - 1]) + (if keep(s[|s| - 1]) then [s[|s| - 1]] else [])
  }

  lemma {:induction false} FilterMembers<T(!new)>(keep: T -> bool, s: seq<T>)
    ensures |Filter(keep, s)| <= |s|
    ensures forall x :: x in Filter(keep, s) <==> x in s && keep(x)
  {
    if s != [] {
      assert s == s[..|s| - 1] + [s[|s| - 1]];
      FilterMembers(keep, s[..|s| - 1]);
    }
  }

  lemma FilterSnoc<T(!new)>(keep: T -> bool, s: seq<T>, x: T)
    ensures Filter(keep, s + [x]) == Filter(keep, s) + (if keep(x) then [x] else [])
  {
    assert (s + [x])[..|s|] == s;
  }

  lemma {:induction false} FilterConcat<T(!new)>(keep: T -> bool, a: seq<T>, b: seq<T>)
    ensures Filter(keep, a + b) == Filter(keep, a) + Filter(keep, b)
  {
    if b == [] {
      assert a + b == a;
    } else {
      var front, last := b[..|b| - 1], b[|b| - 1];
      assert a + b == (a + front) + [last] && b == front + [last];
      FilterSnoc(keep, a + front, last);
      FilterConcat(keep, a, front);
    }
  }

  lemma {:induction false} FilterAgree<T(!new)>(f: T -> bool, g: T -> bool, s: seq<T>)
    requires forall x :: x in s ==> f(x) == g(x)
    ensures Filter(f, s) == Filter(g, s)
  {
    if s != [] {
      FilterAgree(f, g, s[..|s| - 1]);
    }
  }

  lemma {:induction false} FilterAll<T(!new)>(f: T -> bool, s: seq<T>)
    requires forall x :: x in s ==> f(x)
    ensures Filter(f, s) == s
  {
    if s != [] {
      assert s == s[..|s| - 1] + [s[|s| - 1]];
      FilterAll(f, s[..|s| - 1]);
    }
  }

  lemma {:induction false} FilterNone<T(!new)>(f: T -> bool, s: seq<T>)
    requires forall x :: x in s ==> !f(x)
    ensures Filter(f, s) == []
  {
    if s != [] {
      FilterNone(f, s[..|s| - 1]);
    }
  }

  /** Filtering by f and then by g keeps what h keeps, when h is their conjunction on s. */
  lemma {:induction false} FilterTwice<T(!new)>(f: T -> bool, g: T -> bool, h: T -> bool, s: seq<T>)
    requires forall x :: x in s ==> h(x) == (f(x) && g(x))
    ensures Filter(g, Filter(f, s)) == Filter(h, s)
  {
    if s != [] {
      var front, last := s[..|s| - 1], s[|s| - 1];
      FilterTwice(f, g, h, front);
      if f(last) {
        FilterSnoc(g, Filter(f, front), last);
      } else {
        assert Filter(f, s) == Filter(f, front);
      }
    }
  }

  /** Filtering commutes with mapping. */
  lemma {:induction false} FilterMap<T(!new), U(!new)>(m: T -> U, onT: T -> bool, onU: U -> bool, s: seq<T>)
    requires forall x :: x in s ==> onT(x) == onU(m(x))
    ensures Filter(onU, Map(m, s)) == Map(m, Filter(onT, s))
  {
    if s != [] {
      var front, last := s[..|s| - 1], s[|s| - 1];
      FilterMap(m, onT, onU, front);
      assert Map(m, s) == Map(m, front) + [m(last)];
      FilterSnoc(onU, Map(m, front), m(last));
    }
  }

  lemma {:induction false} FilterNoDup<T(!new)>(f: T -> bool, s: seq<T>)
    requires NoDup(s)
    ensures NoDup(Filter(f, s))
  {
    if s != [] {
      FilterMembers(f, s[..|s| - 1]);
      FilterNoDup(f, s[..|s| - 1]);
    }
  }

  ghost predicate DistinctOn<T, K>(key: T -> K, s: seq<T>) {
    forall i, j :: 0 <= i < j < |s| ==> key(s[i]) != key(s[j])
  }

  lemma {:induction false} FilterDistinct<T(!new), K>(key: T -> K, keep: T -> bool, s: seq<T>)
    requires DistinctOn(key, s)
    ensures DistinctOn(key, Filter(keep, s))
  {
    if s != [] {
      var front, last := s[..|s| - 1], s[|s| - 1];
      var kept := Filter(keep, front);
      FilterDistinct(key, keep, front);
      FilterMembers(keep, front);
      forall i | 0 <= i < |kept|
        ensures key(kept[i]) != key(last)
      {
        assert kept[i] in front;
        var j :| 0 <= j < |front| && front[j] == kept[i];
        assert key(s[j]) != key(s[|s| - 1]);
      }
    }
  }

  ghost predicate Ascending<T>(position: T -> int, s: seq<T>) {
    forall i, j :: 0 <= i < j < |s| ==> position(s[i]) < position(s[j])
  }

  lemma {:induction false} FilterAscending<T(!new)>(position: T -> int, keep: T -> bool, s: seq<T>)
    requires Ascending(position, s)
    ensures Ascending(position, Filter(keep, s))
  {
    if s != [] {
      var front, last := s[..|s| - 1], s[|s| - 1];
      FilterAscending(position, keep, front);
      FilterMembers(keep, front);
      var kept := Filter(keep, front);
      forall i | 0 <= i < |kept|
        ensures position(kept[i]) < position(last)
      {
        assert kept[i] in front;
      }
    }
  }

  /** The positions, in order, of the elements that pass. */
  ghost predicate Places<T(!new)>(keep: T -> bool, s: seq<T>, places: seq<int>) {
    && (forall i, j :: 0 <= i < j < |places| ==> places[i] < places[j])
    && forall n :: n in places <==> 0 <= n < |s| && keep(s[n])
  }

  ghost predicate Picks<T(!new)>(s: seq<T>, places: seq<int>, picked: seq<T>) {
    |picked| == |places| && forall i :: 0 <= i < |places| ==> 0 <= places[i] < |s| && picked[i] == s[places[i]]
  }

  lemma PlacesSnoc<T(!new)>(keep: T -> bool, s: seq<T>, x: T, places: seq<int>)
    requires Places(keep, s, places)
    ensures Places(keep, s + [x], if keep(x) then places + [|s|] else places)
  {
    assert forall i :: 0 <= i < |places| ==> places[i] in places;
  }

  lemma PicksSnoc<T(!new)>(s: seq<T>, x: T, places: seq<int>, picked: seq<T>)
    requires Picks(s, places, picked)
    ensures Picks(s + [x], places, picked) && Picks(s + [x], places + [|s|], picked + [x])
  {
  }

  lemma {:induction false} FilterPicks<T(!new)>(keep: T -> bool, s: seq<T>) returns (places: seq<int>)
    ensures Places(keep, s, places) && Picks(s, places, Filter(keep, s))
  {
    if s == [] {
      return [];
    }
    hide Places, Picks;
    var front, last := s[..|s| - 1], s[|s| - 1];
    assert s == front + [last];
    places := FilterPicks(keep, front);
    PlacesSnoc(keep, front, last, places);
    PicksSnoc(front, last, places, Filter(keep, front));
    FilterSnoc(keep, front, last);
    hide Filter;
    if keep(last) {
      places := places + [|front|];
    } else {
      assert Filter(keep, front) + [] == Filter(keep, front);
    }
  }

  /** Every element but x, in order. */
  function Except<T(==,!new)>(x: T): T -> bool {
    y => y != x
  }

  function IndexOf<T(==,!new)>(s: seq<T>, x: T): (i: nat)
    requires x in s
    ensures i < |s| && s[i] == x
    ensures forall j :: 0 <= j < i ==> s[j] != x
  {
    if s[0] == x then 0 else 1 + IndexOf(s[1..], x)
  }

  /** list.remove(x): drops the first occurrence. */
  function WithoutFirst<T(==,!new)>(s: seq<T>, x: T): seq<T>
    requires x in s
  {
    var i := IndexOf(s, x);
    s[..i] + s[i + 1..]
  }

  lemma TailLacks<T(!new)>(s: seq<T>, i: nat)
    requires NoDup(s) && i < |s|
    ensures s[i] !in s[i + 1..]
  {
  }

  lemma FilterAround<T(!new)>(before: seq<T>, x: T, after: seq<T>)
    requires x !in before && x !in after
    ensures Filter(Except(x), before + [x] + after) == before + after
  {
    FilterConcat(Except(x), before + [x], after);
    FilterSnoc(Except(x), before, x);
    FilterAll(Except(x), before);
    FilterAll(Except(x), after);
    hide Filter;
    assert before + [] == before;
  }

  /** Without repetitions, dropping the first occurrence drops them all. */
  lemma WithoutFirstIsFilter<T(!new)>(s: seq<T>, x: T)
    requires NoDup(s) && x in s
    ensures WithoutFirst(s, x) == Filter(Except(x), s)
  {
    hide Filter;
    var i := IndexOf(s, x);
    TailLacks(s, i);
    FilterAround(s[..i], x, s[i + 1..]);
    assert s == s[..i] + [x] + s[i + 1..];
  }

  lemma PrefixStep<T(!new)>(s: seq<T>, i: nat)
    requires i < |s|
    ensures s[..i + 1] == s[..i] + [s[i]]
  {
  }

  /** set(s) */
  function Elements<T(==,!new)>(s: seq<T>): set<T> {
    set x | x in s
  }

  lemma ElementsSnoc<T(!new)>(s: seq<T>)
    requires s != []
    ensures Elements(s) == Elements(s[..|s| - 1]) + {s[|s| - 1]}
    ensures |Elements(s)| == |Elements(s[..|s| - 1])| + if s[|s| - 1] in s[..|s| - 1] then 0 else 1
  {
    var front, last := s[..|s| - 1], s[|s| - 1];
    assert s == front + [last];
    assert Elements(s) == Elements(front) + {last};
    if last in front {
      assert Elements(front) + {last} == Elements(front);
    }
  }

  lemma {:induction false} ElementsAtMost<T(!new)>(s: seq<T>)
    ensures |Elements(s)| <= |s|
  {
    if s != [] {
      ElementsSnoc(s);
      ElementsAtMost(s[..|s| - 1]);
    }
  }

  /** len(set(s)) == len(s) exactly when s repeats nothing. */
  lemma {:induction false} SetSizeTellsRepetition<T(!new)>(s: seq<T>)
    ensures |Elements(s)| == |s| <==> NoDup(s)
  {
    if s != [] {
      var front := s[..|s| - 1];
      ElementsSnoc(s);
      ElementsAtMost(front);
      SetSizeTellsRepetition(front);
      hide Elements;
      if NoDup(s) {
        assert NoDup(front) && s[|s| - 1] !in front;
      }
      if NoDup(front) && s[|s| - 1] !in front {
        assert NoDup(s);
      }
    }
  }

  lemma NoDupSameLength<T(!new)>(a: seq<T>, b: seq<T>)
    requires NoDup(a) && NoDup(b)
    requires forall x :: x in a <==> x in b
    ensures |a| == |b|
  {
    SetSizeTellsRepetition(a);
    SetSizeTellsRepetition(b);
    assert Elements(a) == Elements(b);
  }
}

/** Python's dict: keys in first-insertion order, each with its current value. */
module Dicts {
  import opened Wrappers
  import opened Seqs

  datatype RawDict<K(==,!new), V> = Dict(keys: seq<K>, vals: map<K, V>) {
    ghost predicate Valid() {
      NoDup(keys) && forall k :: k in keys <==> k in vals
    }
  }

  type Dict<K(==,!new), V> = d: RawDict<K, V> | d.Valid() witness Dict([], map[])

  function Empty<K(==,!new), V(!new)>(): Dict<K, V> {
    Dict([], map[])
  }

  /** d[k] = v */
  function Put<K(==,!new), V(!new)>(d: Dict<K, V>, k: K, v: V): Dict<K, V> {
    if k in d.vals then
      Dict(d.keys, d.vals[k := v])
    else
      Dict(d.keys + [k], d.vals[k := v])
  }

  lemma PutTwice<K(!new), V(!new)>(d: Dict<K, V>, k: K, v: V, w: V)
    ensures Put(Put(d, k, v), k, w) == Put(d, k, w)
  {
    assert d.vals[k := v][k := w] == d.vals[k := w];
  }

  /** The entries whose key passes, in order. */
  function Only<K(==,!new), V(!new)>(d: Dict<K, V>, keep: K -> bool): Dict<K, V> {
    FilterNoDup(keep, d.keys);
    FilterMembers(keep, d.keys);
    Dict(Filter(keep, d.keys), map k | k in d.vals && keep(k) :: d.vals[k])
  }

  lemma OnlyAgree<K(!new), V(!new)>(d: Dict<K, V>, p: K -> bool, q: K -> bool)
    requires forall k :: k in d.vals ==> p(k) == q(k)
    ensures Only(d, p) == Only(d, q)
  {
    FilterAgree(p, q, d.keys);
    assert Only(d, p).vals == Only(d, q).vals;
  }

  lemma OnlyAll<K(!new), V(!new)>(d: Dict<K, V>, p: K -> bool)
    requires forall k :: k in d.vals ==> p(k)
    ensures Only(d, p) == d
  {
    FilterAll(p, d.keys);
    assert Only(d, p).vals == d.vals;
  }

  lemma MapOnlyTwice<K(!new), V(!new)>(m: map<K, V>, p: K -> bool, q: K -> bool, both: K -> bool)
    requires forall k :: k in m ==> both(k) == (p(k) && q(k))
    ensures var once := map k | k in m && p(k) :: m[k];
      (map k | k in once && q(k) :: once[k]) == (map k | k in m && both(k) :: m[k])
  {
  }

  lemma OnlyTwice<K(!new), V(!new)>(d: Dict<K, V>, p: K -> bool, q: K -> bool, both: K -> bool)
    requires forall k :: k in d.vals ==> both(k) == (p(k) && q(k))
    ensures Only(Only(d, p), q) == Only(d, both)
  {
    FilterTwice(p, q, both, d.keys);
    MapOnlyTwice(d.vals, p, q, both);
  }

  /** d.pop(k, None) */
  function Del<K(==,!new), V(!new)>(d: Dict<K, V>, k: K): Dict<K, V> {
    Only(d, Except(k))
  }

  function NotAmong<K(==,!new)>(keys: seq<K>): K -> bool {
    (k: K) => k !in keys
  }

  /** Deleting listed keys one at a time. */
  lemma DropEach<K(!new), V(!new)>(d: Dict<K, V>, keys: seq<K>, i: nat)
    requires i < |keys|
    ensures Del(Only(d, NotAmong(keys[..i])), keys[i]) == Only(d, NotAmong(keys[..i + 1]))
  {
    PrefixStep(keys, i);
    OnlyTwice(d, NotAmong(keys[..i]), Except(keys[i]), NotAmong(keys[..i + 1]));
  }

  function Lookup<K(==,!new), V(!new)>(d: Dict<K, V>, k: K): Option<V> {
    if k in d.vals then Some(d.vals[k]) else None
  }

  function Values<K(==,!new), V(!new)>(d: Dict<K, V>): (vs: seq<V>)
    ensures |vs| == |d.keys|
    ensures forall i :: 0 <= i < |vs| ==> d.keys[i] in d.vals && vs[i] == d.vals[d.keys[i]]
  {
    seq(|d.keys|, i requires 0 <= i < |d.keys| =>
      assert d.keys[i] in d.keys; d.vals[d.keys[i]])
  }

  function KeyPasses<K(==,!new), V(!new)>(d: Dict<K, V>, keep: V -> bool): K -> bool {
    k => k in d.vals && keep(d.vals[k])
  }

  /** The entries whose value passes, in order. */
  function Where<K(==,!new), V(!new)>(d: Dict<K, V>, keep: V -> bool): Dict<K, V> {
    Only(d, KeyPasses(d, keep))
  }

  lemma ValuesPutFresh<K(!new), V(!new)>(d: Dict<K, V>, k: K, v: V)
    requires k !in d.vals
    ensures Values(Put(d, k, v)) == Values(d) + [v]
  {
    forall i | 0 <= i < |d.keys|
      ensures Values(Put(d, k, v))[i] == Values(d)[i]
    {
      assert d.keys[i] in d.keys;
    }
  }

  lemma ValuesPutExisting<K(!new), V(!new)>(d: Dict<K, V>, k: K, v: V)
    requires k in d.vals
    ensures k in d.keys
    ensures Values(Put(d, k, v)) == Values(d)[IndexOf(d.keys, k) := v]
  {
    assert k in d.keys;
  }

  ghost function ValuesUnder<K(!new), V(!new)>(d: Dict<K, V>, keys: seq<K>): seq<V>
    requires forall k :: k in keys ==> k in d.vals
  {
    seq(|keys|, i requires 0 <= i < |keys| => d.vals[keys[i]])
  }

  lemma {:induction false} FilterValuesUnder<K(!new), V(!new)>(d: Dict<K, V>, keys: seq<K>, keep: V -> bool)
    requires forall k :: k in keys ==> k in d.vals
    ensures forall k :: k in Filter(KeyPasses(d, keep), keys) ==> k in d.vals
    ensures Filter(keep, ValuesUnder(d, keys)) == ValuesUnder(d, Filter(KeyPasses(d, keep), keys))
  {
    FilterMembers(KeyPasses(d, keep), keys);
    if keys != [] {
      var front, last := keys[..|keys| - 1], keys[|keys| - 1];
      FilterValuesUnder(d, front, keep);
      FilterMembers(KeyPasses(d, keep), front);
      ValuesUnderSnoc(d, front, last);
      FilterSnoc(keep, ValuesUnder(d, front), d.vals[last]);
      assert keys == front + [last];
      if keep(d.vals[last]) {
        ValuesUnderSnoc(d, Filter(KeyPasses(d, keep), front), last);
      }
    }
  }

  lemma ValuesUnderSnoc<K(!new), V(!new)>(d: Dict<K, V>, front: seq<K>, last: K)
    requires last in d.vals && forall k :: k in front ==> k in d.vals
    ensures forall k :: k in front + [last] ==> k in d.vals
    ensures ValuesUnder(d, front + [last]) == ValuesUnder(d, front) + [d.vals[last]]
  {
    assert forall k :: k in front + [last] ==> k in front || k == last;
  }

  lemma ValuesWhere<K(!new), V(!new)>(d: Dict<K, V>, keep: V -> bool)
    ensures Values(Where(d, keep)) == Filter(keep, Values(d))
  {
    FilterValuesUnder(d, d.keys, keep);
    assert Values(d) == ValuesUnder(d, d.keys);
    var w := Where(d, keep);
    assert Values(w) == ValuesUnder(d, w.keys);
  }

  lemma MemberOfValues<K(!new), V(!new)>(d: Dict<K, V>, v: V)
    ensures v in Values(d) <==> exists k :: k in d.vals && d.vals[k] == v
  {
    if v in Values(d) {
      var i :| 0 <= i < |d.keys| && Values(d)[i] == v;
      assert d.keys[i] in d.vals;
    }
    if exists k :: k in d.vals && d.vals[k] == v {
      var k :| k in d.vals && d.vals[k] == v;
      assert k in d.keys;
      var i := IndexOf(d.keys, k);
      assert Values(d)[i] == v;
    }
  }

  /** Every entry is stored under the key its own value names. */
  ghost predicate KeyedBy<K(!new), V(!new)>(d: Dict<K, V>, keyOf: V -> K) {
    forall k :: k in d.vals ==> keyOf(d.vals[k]) == k
  }

  lemma KeysFromValues<K(!new), V(!new)>(d: Dict<K, V>, keyOf: V -> K)
    requires KeyedBy(d, keyOf)
    ensures d.keys == Map(keyOf, Values(d))
  {
    forall i | 0 <= i < |d.keys|
      ensures d.keys[i] == Map(keyOf, Values(d))[i]
    {
      assert d.keys[i] in d.keys;
    }
  }

  /** In a self-keyed dictionary the value sequence determines the dictionary. */
  lemma SameValuesSameDict<K(!new), V(!new)>(a: Dict<K, V>, b: Dict<K, V>, keyOf: V -> K)
    requires KeyedBy(a, keyOf) && KeyedBy(b, keyOf)
    requires Values(a) == Values(b)
    ensures a == b
  {
    KeysFromValues(a, keyOf);
    KeysFromValues(b, keyOf);
    forall k
      ensures k in a.vals <==> k in b.vals
      ensures k in a.vals ==> a.vals[k] == b.vals[k]
    {
      assert k in a.vals <==> k in a.keys;
      assert k in b.vals <==> k in b.keys;
      if k in a.vals {
        var i := IndexOf(a.keys, k);
        assert Values(a)[i] == Values(b)[i];
      }
    }
    assert a.vals == b.vals;
  }

  /** In self-keyed dictionaries the values, in any order, determine the mapping. */
  lemma SameMembersSameMapping<K(!new), V(!new)>(a: Dict<K, V>, b: Dict<K, V>, keyOf: V -> K)
    requires KeyedBy(a, keyOf) && KeyedBy(b, keyOf)
    requires forall v :: v in Values(a) <==> v in Values(b)
    ensures a.vals == b.vals
  {
    hide Values;
    forall k
      ensures k in a.vals <==> k in b.vals
      ensures k in a.vals ==> a.vals[k] == b.vals[k]
    {
      if k in a.vals {
        MemberOfValues(a, a.vals[k]);
        MemberOfValues(b, a.vals[k]);
      }
      if k in b.vals {
        MemberOfValues(b, b.vals[k]);
        MemberOfValues(a, b.vals[k]);
      }
    }
    assert a.vals == b.vals;
  }

  // ---- What an update does to every lookup -------------------------------------------

  /** e looks k up as v and everything else as d does. */
  ghost predicate Binds<K(!new), V(!new)>(d: Dict<K, V>, e: Dict<K, V>, k: K, v: V) {
    Lookup(e, k) == Some(v) && forall x :: x != k ==> Lookup(e, x) == Lookup(d, x)
  }

  /** e does not have k, and looks everything else up as d does. */
  ghost predicate Unbinds<K(!new), V(!new)>(d: Dict<K, V>, e: Dict<K, V>, k: K) {
    Lookup(e, k) == None && forall x :: x != k ==> Lookup(e, x) == Lookup(d, x)
  }

  /** A new key goes last; an old one keeps its place. */
  lemma PutBinds<K(!new), V(!new)>(d: Dict<K, V>, k: K, v: V)
    ensures Binds(d, Put(d, k, v), k, v)
    ensures Put(d, k, v).keys == if Lookup(d, k).Some? then d.keys else d.keys + [k]
  {
  }

  lemma DelUnbinds<K(!new), V(!new)>(d: Dict<K, V>, k: K)
    ensures Unbinds(d, Del(d, k), k) && Del(d, k).keys == Filter(Except(k), d.keys)
  {
    hide Filter;
  }

  // ---- Filtering and mutation -------------------------------------------------

  lemma WhereTwice<K(!new), V(!new)>(d: Dict<K, V>, p: V -> bool, q: V -> bool, both: V -> bool)
    requires forall v :: both(v) == (p(v) && q(v))
    ensures Where(Where(d, p), q) == Where(d, both)
  {
    OnlyTwice(d, KeyPasses(d, p), KeyPasses(Where(d, p), q), KeyPasses(d, both));
  }

  lemma WhereDel<K(!new), V(!new)>(d: Dict<K, V>, p: V -> bool, k: K)
    ensures Where(Del(d, k), p) == Del(Where(d, p), k)
  {
    var both := (x: K) => KeyPasses(d, p)(x) && Except(k)(x);
    OnlyTwice(d, Except(k), KeyPasses(Del(d, k), p), both);
    OnlyTwice(d, KeyPasses(d, p), Except(k), both);
  }

  lemma WherePutFreshKeys<K(!new), V(!new)>(d: Dict<K, V>, p: V -> bool, k: K, v: V)
    requires k !in d.vals
    ensures Where(Put(d, k, v), p).keys == Where(d, p).keys + (if p(v) then [k] else [])
  {
    var more := Put(d, k, v);
    FilterSnoc(KeyPasses(more, p), d.keys, k);
    FilterAgree(KeyPasses(more, p), KeyPasses(d, p), d.keys);
  }

  lemma WherePutFreshVals<K(!new), V(!new)>(d: Dict<K, V>, p: V -> bool, k: K, v: V)
    requires k !in d.vals
    ensures Where(Put(d, k, v), p).vals == if p(v) then Where(d, p).vals[k := v] else Where(d, p).vals
  {
    hide Filter;
  }

  lemma WherePutFresh<K(!new), V(!new)>(d: Dict<K, V>, p: V -> bool, k: K, v: V)
    requires k !in d.vals
    ensures Where(Put(d, k, v), p) == if p(v) then Put(Where(d, p), k, v) else Where(d, p)
  {
    WherePutFreshKeys(d, p, k, v);
    WherePutFreshVals(d, p, k, v);
    assert k !in Where(d, p).vals;
    hide Filter, Only, Where;
  }

  lemma WherePutOver<K(!new), V(!new)>(d: Dict<K, V>, p: V -> bool, k: K, v: V)
    requires k in d.vals && p(d.vals[k]) && p(v)
    ensures Where(Put(d, k, v), p) == Put(Where(d, p), k, v)
  {
    FilterAgree(KeyPasses(Put(d, k, v), p), KeyPasses(d, p), d.keys);
    assert Where(Put(d, k, v), p).vals == Where(d, p).vals[k := v];
  }

  // ---- Rebuilding a dictionary from its values -----------------------------------

  /** for v in vs: d[key(v)] = v */
  function FromValues<K(==,!new), V(!new)>(vs: seq<V>, keyOf: V -> K): Dict<K, V> {
    if vs == [] then Empty()
    else
      var last := vs[|vs| - 1];
      Put(FromValues(vs[..|vs| - 1], keyOf), keyOf(last), last)
  }

  lemma {:induction false} FromValuesKeys<K(!new), V(!new)>(vs: seq<V>, keyOf: V -> K)
    ensures KeyedBy(FromValues(vs, keyOf), keyOf)
    ensures forall k :: k in FromValues(vs, keyOf).vals <==> k in Map(keyOf, vs)
  {
    if vs != [] {
      FromValuesKeys(vs[..|vs| - 1], keyOf);
      assert Map(keyOf, vs) == Map(keyOf, vs[..|vs| - 1]) + [keyOf(vs[|vs| - 1])];
    }
  }

  /** The last value under a key is the one kept. */
  lemma {:induction false} FromValuesKeepsTheLast<K(!new), V(!new)>(vs: seq<V>, keyOf: V -> K, i: nat)
    requires i < |vs| && forall j :: i < j < |vs| ==> keyOf(vs[j]) != keyOf(vs[i])
    ensures Lookup(FromValues(vs, keyOf), keyOf(vs[i])) == Some(vs[i])
  {
    var front := vs[..|vs| - 1];
    if i < |vs| - 1 {
      assert forall j :: i < j < |front| ==> front[j] == vs[j];
      FromValuesKeepsTheLast(front, keyOf, i);
    }
  }

  lemma {:induction false} FromDistinctValues<K(!new), V(!new)>(vs: seq<V>, keyOf: V -> K)
    requires DistinctOn(keyOf, vs)
    ensures Values(FromValues(vs, keyOf)) == vs
  {
    if vs != [] {
      var front, last := vs[..|vs| - 1], vs[|vs| - 1];
      FromDistinctValues(front, keyOf);
      FromValuesKeys(front, keyOf);
      assert keyOf(last) !in Map(keyOf, front) by {
        forall i | 0 <= i < |front|
          ensures Map(keyOf, front)[i] != keyOf(last)
        {
          assert front[i] == vs[i];
        }
      }
      ValuesPutFresh(FromValues(front, keyOf), keyOf(last), last);
    }
  }

  /** Loading what a self-keyed dictionary saved rebuilds it, order included. */
  lemma FromOwnValues<K(!new), V(!new)>(d: Dict<K, V>, keyOf: V -> K)
    requires KeyedBy(d, keyOf)
    ensures FromValues(Values(d), keyOf) == d
  {
    ValuesAreDistinct(d, keyOf);
    FromValuesKeys(Values(d), keyOf);
    FromDistinctValues(Values(d), keyOf);
    SameValuesSameDict(FromValues(Values(d), keyOf), d, keyOf);
  }

  lemma ValuesAreDistinct<K(!new), V(!new)>(d: Dict<K, V>, keyOf: V -> K)
    requires KeyedBy(d, keyOf)
    ensures DistinctOn(keyOf, Values(d))
  {
    KeysFromValues(d, keyOf);
    assert forall i :: 0 <= i < |d.keys| ==> keyOf(Values(d)[i]) == d.keys[i];
  }
}
