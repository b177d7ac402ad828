/** Filtering, mapping and stable sorting of lists.

    `StableSort` stands for Python's `sorted`: it orders by a total preorder and keeps the input
    order of equivalent items, also for `reverse=True` (which is a sort by the reversed preorder).
  */
module Sequences {

  // ---------------------------------------------------------------- filtering and mapping

  function Filter<T>(s: seq<T>, p: T -> bool): seq<T> {
    if s == [] then []
    else if p(s[0]) then [s[0]] + Filter(s[1..], p)
    else Filter(s[1..], p)
  }

  lemma {:induction false} FilterMembers<T>(s: seq<T>, p: T -> bool)
    ensures forall x | x in Filter(s, p) :: x in s && p(x)
    ensures forall x | x in s && p(x) :: x in Filter(s, p)
    ensures |Filter(s, p)| <= |s|
  {
    if s != [] {
      FilterMembers(s[1..], p);
      assert s == [s[0]] + s[1..];
    }
  }

  lemma {:induction false} FilterConcat<T>(a: seq<T>, b: seq<T>, p: T -> bool)
    ensures Filter(a + b, p) == Filter(a, p) + Filter(b, p)
  {
    if a == [] {
      assert a + b == b;
    } else {
      assert (a + b)[0] == a[0] && (a + b)[1..] == a[1..] + b;
      FilterConcat(a[1..], b, p);
    }
  }

  lemma FilterAppend<T>(s: seq<T>, x: T, p: T -> bool)
    ensures Filter(s + [x], p) == Filter(s, p) + (if p(x) then [x] else [])
  {
    FilterConcat(s, [x], p);
  }

  lemma {:induction false} FilterAll<T>(s: seq<T>, p: T -> bool)
    requires forall x :: x in s ==> p(x)
    ensures Filter(s, p) == s
  {
    if s != [] {
      FilterAll(s[1..], p);
    }
  }

  lemma {:induction false} FilterNone<T>(s: seq<T>, p: T -> bool)
    requires forall x :: x in s ==> !p(x)
    ensures Filter(s, p) == []
  {
    if s != [] {
      FilterNone(s[1..], p);
    }
  }

  /** Two filters that agree on the list give the same list. */
  lemma {:induction false} FilterAgree<T>(s: seq<T>, p: T -> bool, q: T -> bool)
    requires forall x :: x in s ==> p(x) == q(x)
    ensures Filter(s, p) == Filter(s, q)
  {
    if s != [] {
      FilterAgree(s[1..], p, q);
    }
  }

  lemma {:induction false} FilterFilter<T>(s: seq<T>, p: T -> bool, q: T -> bool, both: T -> bool)
    requires forall x :: x in s ==> both(x) == (p(x) && q(x))
    ensures Filter(Filter(s, p), q) == Filter(s, both)
  {
    if s != [] {
      FilterFilter(s[1..], p, q, both);
    }
  }

  /** A filter drops something exactly when it shortens the list. */
  lemma {:induction false} FilterLength<T>(s: seq<T>, p: T -> bool)
    ensures |Filter(s, p)| == |s| <==> forall x :: x in s ==> p(x)
  {
    if s != [] {
      FilterLength(s[1..], p);
      FilterMembers(s[1..], p);
      assert s == [s[0]] + s[1..];
    }
  }

  /** Filtering keeps as many elements as there are indices where the predicate holds. */
  lemma {:induction false} FilterCount<T>(s: seq<T>, p: T -> bool, indices: set<nat>)
    requires forall i: nat :: i in indices <==> i < |s| && p(s[i])
    ensures |Filter(s, p)| == |indices|
    decreases |s|
  {
    if s == [] {
      assert indices == {};
    } else {
      var n := |s| - 1;
      assert s == s[..n] + [s[n]];
      FilterAppend(s[..n], s[n], p);
      if p(s[n]) {
        var before := indices - {n};
        FilterCount(s[..n], p, before);
        assert indices == before + {n};
      } else {
        FilterCount(s[..n], p, indices);
      }
    }
  }

  lemma {:induction false} FilterMultiset<T>(s: seq<T>, p: T -> bool)
    ensures forall x :: multiset(Filter(s, p))[x] == if p(x) then multiset(s)[x] else 0
  {
    if s != [] {
      FilterMultiset(s[1..], p);
      assert s == [s[0]] + s[1..];
    }
  }

  function Repeat<T>(x: T, n: nat): (r: seq<T>)
    ensures |r| == n
  {
    seq(n, _ => x)
  }

  function Map<T, U>(s: seq<T>, f: T -> U): (r: seq<U>)
    ensures |r| == |s|
    ensures forall i :: 0 <= i < |s| ==> r[i] == f(s[i])
  {
    if s == [] then [] else [f(s[0])] + Map(s[1..], f)
  }

  lemma MapConcat<T, U>(a: seq<T>, b: seq<T>, f: T -> U)
    ensures Map(a + b, f) == Map(a, f) + Map(b, f)
  {
  }

  lemma MapAppend<T, U>(s: seq<T>, x: T, f: T -> U)
    ensures Map(s + [x], f) == Map(s, f) + [f(x)]
  {
  }

  lemma SameMembers<T>(a: seq<T>, b: seq<T>)
    requires multiset(a) == multiset(b)
    ensures forall x | x in a :: x in b
    ensures forall x | x in b :: x in a
  {
    forall x | x in a ensures x in b { assert x in multiset(b); }
    forall x | x in b ensures x in a { assert x in multiset(a); }
  }

  lemma OccursOnce<T>(s: seq<T>, i: nat)
    requires i < |s| && forall j :: 0 <= j < |s| && j != i ==> s[j] != s[i]
    ensures multiset(s)[s[i]] == 1
  {
    assert s == s[..i] + [s[i]] + s[i + 1..];
    assert s[i] !in s[..i] && s[i] !in s[i + 1..];
    assert multiset(s) == multiset(s[..i]) + multiset{s[i]} + multiset(s[i + 1..]);
  }

  lemma DoubleOccurrence<T>(s: seq<T>, i: nat, j: nat)
    requires i < j < |s| && s[i] == s[j]
    ensures multiset(s)[s[i]] >= 2
  {
    assert s == s[..i] + [s[i]] + s[i + 1..j] + [s[j]] + s[j + 1..];
  }

  // ---------------------------------------------------------------- stable sorting

  ghost predicate TotalPreorder<T(!new)>(le: (T, T) -> bool) {
    && (forall a, b :: le(a, b) || le(b, a))
    && (forall a, b, c :: le(a, b) && le(b, c) ==> le(a, c))
  }

  ghost predicate Sorted<T>(s: seq<T>, le: (T, T) -> bool) {
    forall i, j :: 0 <= i < j < |s| ==> le(s[i], s[j])
  }

  function Insert<T>(x: T, s: seq<T>, le: (T, T) -> bool): (r: seq<T>)
    ensures |r| == |s| + 1
  {
    if s == [] || le(x, s[0]) then [x] + s else [s[0]] + Insert(x, s[1..], le)
  }

  function StableSort<T>(s: seq<T>, le: (T, T) -> bool): (r: seq<T>)
    ensures |r| == |s|
  {
    if s == [] then [] else Insert(s[0], StableSort(s[1..], le), le)
  }

  lemma {:induction false} InsertMultiset<T>(x: T, s: seq<T>, le: (T, T) -> bool)
    ensures multiset(Insert(x, s, le)) == multiset{x} + multiset(s)
  {
    if s == [] || le(x, s[0]) {
    } else {
      InsertMultiset(x, s[1..], le);
      assert s == [s[0]] + s[1..];
    }
  }

  /** Sorting is a permutation. */
  lemma {:induction false} SortMultiset<T>(s: seq<T>, le: (T, T) -> bool)
    ensures multiset(StableSort(s, le)) == multiset(s)
  {
    if s != [] {
      SortMultiset(s[1..], le);
      InsertMultiset(s[0], StableSort(s[1..], le), le);
      assert s == [s[0]] + s[1..];
    }
  }

  lemma SortMembers<T>(s: seq<T>, le: (T, T) -> bool)
    ensures forall x | x in StableSort(s, le) :: x in s
    ensures forall x | x in s :: x in StableSort(s, le)
  {
    SortMultiset(s, le);
    forall x | x in StableSort(s, le) ensures x in s {
      assert x in multiset(StableSort(s, le));
    }
    forall x | x in s ensures x in StableSort(s, le) {
      assert x in multiset(s);
    }
  }

  lemma {:induction false} InsertSorted<T(!new)>(x: T, s: seq<T>, le: (T, T) -> bool)
    requires TotalPreorder(le) && Sorted(s, le)
    ensures Sorted(Insert(x, s, le), le)
  {
    if s == [] {
    } else if le(x, s[0]) {
      var r := [x] + s;
      forall i, j | 0 <= i < j < |r| ensures le(r[i], r[j]) {
        if i == 0 && j > 1 {
          assert le(s[0], s[j - 1]);
        }
      }
    } else {
      InsertSorted(x, s[1..], le);
      var t := Insert(x, s[1..], le);
      InsertMultiset(x, s[1..], le);
      forall k | 0 <= k < |t| ensures le(s[0], t[k]) {
        assert t[k] in multiset(t);
        if t[k] != x {
          assert t[k] in s[1..];
        }
      }
    }
  }

  /** Sorting sorts. */
  lemma {:induction false} SortSorted<T(!new)>(s: seq<T>, le: (T, T) -> bool)
    requires TotalPreorder(le)
    ensures Sorted(StableSort(s, le), le)
  {
    if s != [] {
      SortSorted(s[1..], le);
      InsertSorted(s[0], StableSort(s[1..], le), le);
    }
  }

  lemma {:induction false} FilterSorted<T(!new)>(s: seq<T>, le: (T, T) -> bool, p: T -> bool)
    requires Sorted(s, le)
    ensures Sorted(Filter(s, p), le)
  {
    if s != [] {
      FilterSorted(s[1..], le, p);
      FilterMembers(s[1..], p);
      if p(s[0]) {
        var t := Filter(s[1..], p);
        forall k | 0 <= k < |t| ensures le(s[0], t[k]) {
          assert t[k] in s[1..];
        }
      }
    }
  }

  lemma {:induction false} InsertFilter<T(!new)>(x: T, s: seq<T>, le: (T, T) -> bool, p: T -> bool)
    requires TotalPreorder(le) && Sorted(s, le)
    ensures Filter(Insert(x, s, le), p) == if p(x) then Insert(x, Filter(s, p), le) else Filter(s, p)
  {
    if s == [] || le(x, s[0]) {
      FilterConcat([x], s, p);
      FilterMembers(s, p);
      var t := Filter(s, p);
      if p(x) && t != [] {
        assert t[0] in s;
        assert le(x, t[0]);
      }
    } else {
      InsertFilter(x, s[1..], le, p);
    }
  }

  /** Sorting and filtering commute: this is where stability is needed. */
  lemma {:induction false} SortFilter<T(!new)>(s: seq<T>, le: (T, T) -> bool, p: T -> bool)
    requires TotalPreorder(le)
    ensures Filter(StableSort(s, le), p) == StableSort(Filter(s, p), le)
  {
    if s != [] {
      SortFilter(s[1..], le, p);
      SortSorted(s[1..], le);
      InsertFilter(s[0], StableSort(s[1..], le), le, p);
    }
  }

  /** A sorted list is left alone. */
  lemma {:induction false} SortOfSorted<T(!new)>(s: seq<T>, le: (T, T) -> bool)
    requires Sorted(s, le)
    ensures StableSort(s, le) == s
  {
    if s != [] {
      SortOfSorted(s[1..], le);
    }
  }

  /** A map that does not change the order commutes with sorting. */
  lemma {:induction false} InsertMap<T, U>(x: T, s: seq<T>, f: T -> U, le: (T, T) -> bool, le': (U, U) -> bool)
    requires forall a, b :: a in [x] + s && b in [x] + s ==> le(a, b) == le'(f(a), f(b))
    ensures Map(Insert(x, s, le), f) == Insert(f(x), Map(s, f), le')
  {
    if s == [] || le(x, s[0]) {
      assert s != [] ==> Map(s, f)[0] == f(s[0]);
      assert Map([x] + s, f) == [f(x)] + Map(s, f);
    } else {
      InsertMap(x, s[1..], f, le, le');
      assert Map(s, f)[1..] == Map(s[1..], f);
    }
  }

  lemma {:induction false} SortMap<T, U>(s: seq<T>, f: T -> U, le: (T, T) -> bool, le': (U, U) -> bool)
    requires forall a, b :: a in s && b in s ==> le(a, b) == le'(f(a), f(b))
    ensures Map(StableSort(s, le), f) == StableSort(Map(s, f), le')
  {
    if s != [] {
      SortMap(s[1..], f, le, le');
      var t := StableSort(s[1..], le);
      SortMultiset(s[1..], le);
      forall x | x in [s[0]] + t ensures x in s {
        if x != s[0] {
          assert x in multiset(t);
        }
      }
      InsertMap(s[0], t, f, le, le');
      assert Map(s, f)[1..] == Map(s[1..], f);
    }
  }

  /** No two distinct positions hold equivalent items. */
  ghost predicate Strict<T>(s: seq<T>, le: (T, T) -> bool) {
    forall i, j :: 0 <= i < j < |s| ==> !(le(s[i], s[j]) && le(s[j], s[i]))
  }

  lemma SameHead<T(!new)>(a: seq<T>, b: seq<T>, le: (T, T) -> bool)
    requires a != [] && multiset(a) == multiset(b)
    requires Sorted(a, le) && Sorted(b, le) && Strict(a, le)
    ensures b != [] && a[0] == b[0]
  {
    assert a[0] in multiset(b);
    assert b[0] in multiset(a);
    var k :| 0 <= k < |a| && a[k] == b[0];
    var m :| 0 <= m < |b| && b[m] == a[0];
  }

  lemma TailMultiset<T>(a: seq<T>, b: seq<T>)
    requires a != [] && b != [] && a[0] == b[0] && multiset(a) == multiset(b)
    ensures multiset(a[1..]) == multiset(b[1..])
  {
    assert a == [a[0]] + a[1..] && b == [b[0]] + b[1..];
    assert multiset(a[1..]) == multiset(a) - multiset{a[0]};
    assert multiset(b[1..]) == multiset(b) - multiset{b[0]};
  }

  /** When no two positions are equivalent, the sorted list does not depend on arrival order. */
  lemma {:induction false} StrictSortUnique<T(!new)>(a: seq<T>, b: seq<T>, le: (T, T) -> bool)
    requires multiset(a) == multiset(b)
    requires Sorted(a, le) && Sorted(b, le) && Strict(a, le)
    ensures a == b
  {
    if a == [] {
      assert |b| == |multiset(b)| == 0;
    } else {
      SameHead(a, b, le);
      var a', b' := a[1..], b[1..];
      assert Strict(a', le) && Sorted(a', le) && Sorted(b', le);
      TailMultiset(a, b);
      hide Strict, Sorted;
      StrictSortUnique(a', b', le);
      assert a == [a[0]] + a' && b == [a[0]] + b';
    }
  }

  /** Two arrival orders of the same pairwise non-equivalent items sort to the same list. */
  lemma SortPermutation<T(!new)>(a: seq<T>, b: seq<T>, le: (T, T) -> bool)
    requires TotalPreorder(le)
    requires multiset(a) == multiset(b) && Strict(a, le)
    ensures StableSort(a, le) == StableSort(b, le)
  {
    SortMultiset(a, le);
    SortMultiset(b, le);
    SortSorted(a, le);
    SortSorted(b, le);
    SortStrict(a, le);
    StrictSortUnique(StableSort(a, le), StableSort(b, le), le);
  }

  lemma {:induction false} InsertStrict<T(!new)>(x: T, s: seq<T>, le: (T, T) -> bool)
    requires Strict(s, le)
    requires forall y | y in s :: !(le(x, y) && le(y, x))
    ensures Strict(Insert(x, s, le), le)
  {
    if s == [] || le(x, s[0]) {
    } else {
      InsertStrict(x, s[1..], le);
      var t := Insert(x, s[1..], le);
      InsertMultiset(x, s[1..], le);
      forall k | 0 <= k < |t| ensures !(le(s[0], t[k]) && le(t[k], s[0])) {
        assert t[k] in multiset(t);
        if t[k] != x {
          assert t[k] in s[1..];
        }
      }
    }
  }

  lemma {:induction false} SortStrict<T(!new)>(s: seq<T>, le: (T, T) -> bool)
    requires Strict(s, le)
    ensures Strict(StableSort(s, le), le)
  {
    if s != [] {
      SortStrict(s[1..], le);
      SortMembers(s[1..], le);
      InsertStrict(s[0], StableSort(s[1..], le), le);
    }
  }

  // ---------------------------------------------------------------- first and last in an order

  /** No element is smaller, and no earlier one as small. */
  ghost predicate FirstLeastAt<T>(s: seq<T>, le: (T, T) -> bool, i: nat)
    requires i < |s|
  {
    forall j :: 0 <= j < |s| ==> le(s[i], s[j]) && (j < i ==> !le(s[j], s[i]))
  }

  /** No element is greater, and no later one as great. */
  ghost predicate LastGreatestAt<T>(s: seq<T>, le: (T, T) -> bool, i: nat)
    requires i < |s|
  {
    forall j :: 0 <= j < |s| ==> le(s[j], s[i]) && (j > i ==> !le(s[i], s[j]))
  }

  /** The first of the least elements. */
  ghost predicate FirstLeast<T>(s: seq<T>, le: (T, T) -> bool, x: T) {
    exists i: nat :: i < |s| && s[i] == x && FirstLeastAt(s, le, i)
  }

  /** The last of the greatest elements. */
  ghost predicate LastGreatest<T>(s: seq<T>, le: (T, T) -> bool, x: T) {
    exists i: nat :: i < |s| && s[i] == x && LastGreatestAt(s, le, i)
  }

  lemma FirstLeastGrows<T(!new)>(x: T, t: seq<T>, le: (T, T) -> bool, i: nat)
    requires TotalPreorder(le) && i < |t| && FirstLeastAt(t, le, i)
    ensures var s := [x] + t; if le(x, t[i]) then FirstLeastAt(s, le, 0) else FirstLeastAt(s, le, i + 1)
  {
  }

  lemma LastGreatestGrows<T(!new)>(x: T, t: seq<T>, le: (T, T) -> bool, i: nat)
    requires TotalPreorder(le) && i < |t| && LastGreatestAt(t, le, i)
    ensures var s := [x] + t; if le(x, t[i]) then LastGreatestAt(s, le, i + 1) else LastGreatestAt(s, le, 0)
  {
  }

  lemma OneIsBoth<T(!new)>(x: T, le: (T, T) -> bool)
    requires TotalPreorder(le)
    ensures FirstLeastAt([x], le, 0) && LastGreatestAt([x], le, 0)
  {
  }

  lemma {:induction false} SortHead<T(!new)>(s: seq<T>, le: (T, T) -> bool)
    requires TotalPreorder(le) && s != []
    ensures FirstLeast(s, le, StableSort(s, le)[0])
  {
    hide FirstLeastAt, TotalPreorder;
    var t := s[1..];
    assert s == [s[0]] + t;
    if t == [] {
      OneIsBoth(s[0], le);
      assert s == [s[0]] && StableSort(t, le) == [] && StableSort(s, le) == [s[0]];
    } else {
      SortHead(t, le);
      var i: nat :| i < |t| && t[i] == StableSort(t, le)[0] && FirstLeastAt(t, le, i);
      FirstLeastGrows(s[0], t, le, i);
    }
  }

  lemma {:induction false} InsertLast<T(!new)>(x: T, r: seq<T>, le: (T, T) -> bool)
    requires TotalPreorder(le) && Sorted(r, le) && r != []
    ensures Insert(x, r, le)[|r|] == if le(x, r[|r| - 1]) then r[|r| - 1] else x
  {
    if le(x, r[0]) {
      assert |r| > 1 ==> le(r[0], r[|r| - 1]);
    } else if |r| > 1 {
      InsertLast(x, r[1..], le);
    } else {
      assert r[1..] == [];
    }
  }

  lemma {:induction false} SortTail<T(!new)>(s: seq<T>, le: (T, T) -> bool)
    requires TotalPreorder(le) && s != []
    ensures LastGreatest(s, le, StableSort(s, le)[|s| - 1])
  {
    hide LastGreatestAt, TotalPreorder, Sorted;
    var t := s[1..];
    assert s == [s[0]] + t;
    if t == [] {
      OneIsBoth(s[0], le);
      assert s == [s[0]] && StableSort(t, le) == [] && StableSort(s, le) == [s[0]];
    } else {
      var r := StableSort(t, le);
      SortTail(t, le);
      SortSorted(t, le);
      InsertLast(s[0], r, le);
      var i: nat :| i < |t| && t[i] == r[|r| - 1] && LastGreatestAt(t, le, i);
      LastGreatestGrows(s[0], t, le, i);
    }
  }
}
