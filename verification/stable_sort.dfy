/** Sorting by a priority, ties broken by a position. */

module StableSort {
  import opened Seqs

  predicate Before<T>(priority: T -> int, position: T -> int, x: T, y: T) {
    priority(x) < priority(y) || (priority(x) == priority(y) && position(x) < position(y))
  }

  ghost predicate Increasing<T>(priority: T -> int, position: T -> int, s: seq<T>) {
    forall i, j :: 0 <= i < j < |s| ==> Before(priority, position, s[i], s[j])
  }

  ghost predicate SameMembers<T(!new)>(a: seq<T>, b: seq<T>) {
    forall x :: x in a <==> x in b
  }

  function Insert<T>(priority: T -> int, position: T -> int, x: T, s: seq<T>): seq<T> {
    if s == [] then [x]
    else if Before(priority, position, x, s[|s| - 1]) then
      Insert(priority, position, x, s[..|s| - 1]) + [s[|s| - 1]]
    else s + [x]
  }

  /** sorted(s, key=(priority, position)) */
  function Sort<T>(priority: T -> int, position: T -> int, s: seq<T>): seq<T> {
    if s == [] then [] else Insert(priority, position, s[|s| - 1], Sort(priority, position, s[..|s| - 1]))
  }

  lemma {:induction false} InsertMembers<T(!new)>(priority: T -> int, position: T -> int, x: T, s: seq<T>)
    ensures forall y :: y in Insert(priority, position, x, s) <==> y == x || y in s
  {
    if s != [] {
      assert s == s[..|s| - 1] + [s[|s| - 1]];
      InsertMembers(priority, position, x, s[..|s| - 1]);
    }
  }

  lemma {:induction false} SortMembers<T(!new)>(priority: T -> int, position: T -> int, s: seq<T>)
    ensures SameMembers(Sort(priority, position, s), s)
  {
    if s != [] {
      var front := s[..|s| - 1];
      assert s == front + [s[|s| - 1]];
      SortMembers(priority, position, front);
      InsertMembers(priority, position, s[|s| - 1], Sort(priority, position, front));
    }
  }

  lemma {:induction false} InsertIncreases<T(!new)>(priority: T -> int, position: T -> int, x: T, s: seq<T>)
    requires Increasing(priority, position, s)
    requires forall y :: y in s ==> position(y) != position(x)
    ensures Increasing(priority, position, Insert(priority, position, x, s))
  {
    if s != [] && Before(priority, position, x, s[|s| - 1]) {
      var front, last := s[..|s| - 1], s[|s| - 1];
      InsertIncreases(priority, position, x, front);
      InsertMembers(priority, position, x, front);
      var inserted := Insert(priority, position, x, front);
      forall i | 0 <= i < |inserted|
        ensures Before(priority, position, inserted[i], last)
      {
        assert inserted[i] == x || inserted[i] in front;
      }
    } else if s != [] {
      forall i | 0 <= i < |s|
        ensures Before(priority, position, s[i], x)
      {
        assert s[i] in s && s[|s| - 1] in s;
        assert i < |s| - 1 ==> Before(priority, position, s[i], s[|s| - 1]);
      }
    }
  }

  lemma {:induction false} SortIncreases<T(!new)>(priority: T -> int, position: T -> int, s: seq<T>)
    requires DistinctOn(position, s)
    ensures Increasing(priority, position, Sort(priority, position, s))
  {
    if s != [] {
      var front, last := s[..|s| - 1], s[|s| - 1];
      SortIncreases(priority, position, front);
      SortMembers(priority, position, front);
      forall y | y in Sort(priority, position, front)
        ensures position(y) != position(last)
      {
        assert y in front;
        var i :| 0 <= i < |front| && front[i] == y;
        assert s[i] == y;
      }
      InsertIncreases(priority, position, last, Sort(priority, position, front));
    }
  }

  lemma FrontMembers<T(!new)>(priority: T -> int, position: T -> int, s: seq<T>, x: T)
    requires Increasing(priority, position, s) && s != []
    ensures x in s[..|s| - 1] <==> x in s && x != s[|s| - 1]
  {
    assert s == s[..|s| - 1] + [s[|s| - 1]];
  }

  lemma HasMember<T(!new)>(s: seq<T>)
    ensures s == [] || exists x :: x in s
  {
    if s != [] {
      assert s[0] in s;
    }
  }

  /** There is only one increasing arrangement of the same members. */
  lemma {:induction false} IncreasingIsUnique<T(!new)>(priority: T -> int, position: T -> int, a: seq<T>, b: seq<T>)
    requires Increasing(priority, position, a) && Increasing(priority, position, b) && SameMembers(a, b)
    ensures a == b
  {
    if a == [] {
      HasMember(b);
    } else {
      HasMember(a);
      var lastA, lastB := a[|a| - 1], b[|b| - 1];
      assert lastA in b && lastB in a;
      assert lastA == lastB;
      var frontA, frontB := a[..|a| - 1], b[..|b| - 1];
      forall x
        ensures x in frontA <==> x in frontB
      {
        FrontMembers(priority, position, a, x);
        FrontMembers(priority, position, b, x);
      }
      IncreasingIsUnique(priority, position, frontA, frontB);
      assert a == frontA + [lastA] && b == frontB + [lastB];
    }
  }

  lemma {:induction false} FilterIncreases<T(!new)>(priority: T -> int, position: T -> int, keep: T -> bool, s: seq<T>)
    requires Increasing(priority, position, s)
    ensures Increasing(priority, position, Filter(keep, s))
  {
    if s != [] {
      var front, last := s[..|s| - 1], s[|s| - 1];
      FilterIncreases(priority, position, keep, front);
      FilterMembers(keep, front);
      var kept := Filter(keep, front);
      forall i | 0 <= i < |kept|
        ensures Before(priority, position, kept[i], last)
      {
        assert kept[i] in front;
      }
    }
  }

  lemma JoinIncreases<T(!new)>(priority: T -> int, position: T -> int, a: seq<T>, x: T, b: seq<T>)
    requires Increasing(priority, position, a) && Increasing(priority, position, b)
    requires forall y :: y in a ==> Before(priority, position, y, x)
    requires forall y :: y in b ==> Before(priority, position, x, y)
    ensures Increasing(priority, position, a + [x] + b)
  {
    var all := a + [x] + b;
    forall i, j | 0 <= i < j < |all|
      ensures Before(priority, position, all[i], all[j])
    {
      if i < |a| && j > |a| {
        assert a[i] in a && b[j - |a| - 1] in b;
      } else if i < |a| && j == |a| {
        assert a[i] in a;
      } else if i == |a| {
        assert b[j - |a| - 1] in b;
      }
    }
  }
}
