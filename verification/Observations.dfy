/** Append-only observations of provider entities, and the two ways the service picks the latest
    observation of each entity: overwriting while walking forward in knowledge time, and keeping
    the first one met while walking backward from a cutoff.

    Instants are integers (microseconds since the epoch, UTC).
  */
module Observations {
  import opened Sequences
  import opened Wrappers

  /** One observation: which entity it describes, when the service learned it, when the provider
      says it happened, and what it says. */
  datatype Observed<+T> = Observed(entity: string, observedAt: int, createdAt: Option<int>, fact: T)

  predicate Earlier<T>(a: Observed<T>, b: Observed<T>) {
    a.observedAt <= b.observedAt
  }

  predicate Later<T>(a: Observed<T>, b: Observed<T>) {
    b.observedAt <= a.observedAt
  }

  /** Known at the cutoff. */
  function KnownAt<T>(asOf: int): Observed<T> -> bool {
    (o: Observed<T>) => o.observedAt <= asOf
  }

  /** Learned at or after the start of the window. */
  function LearnedSince<T>(windowStart: int): Observed<T> -> bool {
    (o: Observed<T>) => windowStart <= o.observedAt
  }

  predicate HasEntity<T>(s: seq<Observed<T>>, entity: string) {
    exists i :: 0 <= i < |s| && s[i].entity == entity
  }

  ghost predicate DistinctEntities<T>(s: seq<Observed<T>>) {
    forall i, j :: 0 <= i < j < |s| ==> s[i].entity != s[j].entity
  }

  lemma ObservationOrders<T(!new)>()
    ensures TotalPreorder<Observed<T>>(Earlier) && TotalPreorder<Observed<T>>(Later)
  {
  }

  // ---------------------------------------------------------------- forward, overwriting

  /** Assignment into an insertion-ordered dictionary keyed by entity: an existing key keeps its
      position and gets the new value, a new key goes last. */
  function Upsert<T>(d: seq<Observed<T>>, o: Observed<T>): seq<Observed<T>> {
    if d == [] then [o]
    else if d[0].entity == o.entity then [o] + d[1..]
    else [d[0]] + Upsert(d[1..], o)
  }

  function Overwrite<T>(s: seq<Observed<T>>): seq<Observed<T>> {
    if s == [] then [] else Upsert(Overwrite(s[..|s| - 1]), s[|s| - 1])
  }

  function LatestBy<T>(rows: seq<Observed<T>>): seq<Observed<T>> {
    Overwrite(StableSort(rows, Earlier))
  }

  // ---------------------------------------------------------------- backward, first one wins

  function FirstWins<T>(s: seq<Observed<T>>): seq<Observed<T>> {
    if s == [] then []
    else
      var kept := FirstWins(s[..|s| - 1]);
      if HasEntity(kept, s[|s| - 1].entity) then kept else kept + [s[|s| - 1]]
  }

  function LatestAsOf<T>(rows: seq<Observed<T>>, asOf: int): seq<Observed<T>> {
    StableSort(FirstWins(Filter(StableSort(rows, Later), KnownAt(asOf))), Earlier)
  }

  // ---------------------------------------------------------------- the loops themselves

  /** An insertion-ordered dictionary (key order, and the mapping) holds the association list `d`. */
  ghost predicate Holds<T>(order: seq<string>, latest: map<string, Observed<T>>, d: seq<Observed<T>>) {
    && |order| == |d|
    && DistinctEntities(d)
    && (forall k :: k in latest <==> k in order)
    && forall i :: 0 <= i < |d| ==> order[i] == d[i].entity && order[i] in latest && latest[order[i]] == d[i]
  }

  lemma {:induction false} UpsertLast<T>(d: seq<Observed<T>>, o: Observed<T>)
    requires forall i :: 0 <= i < |d| ==> d[i].entity != o.entity
    ensures Upsert(d, o) == d + [o]
  {
    if d != [] {
      UpsertLast(d[1..], o);
      assert [d[0]] + (d[1..] + [o]) == d + [o];
    }
  }

  lemma {:induction false} UpsertAt<T>(d: seq<Observed<T>>, i: nat, o: Observed<T>)
    requires i < |d| && d[i].entity == o.entity && forall k :: 0 <= k < i ==> d[k].entity != o.entity
    ensures Upsert(d, o) == d[i := o]
  {
    if i > 0 {
      UpsertAt(d[1..], i - 1, o);
      assert [d[0]] + d[1..][i - 1 := o] == d[i := o];
    }
  }

  /** Where the new value lands. */
  lemma UpsertPosition<T>(d: seq<Observed<T>>, o: Observed<T>)
    requires DistinctEntities(d)
    ensures !HasEntity(d, o.entity) ==> Upsert(d, o) == d + [o]
    ensures forall i | 0 <= i < |d| && d[i].entity == o.entity :: Upsert(d, o) == d[i := o]
  {
    hide Upsert;
    if !HasEntity(d, o.entity) {
      UpsertLast(d, o);
    }
    forall i | 0 <= i < |d| && d[i].entity == o.entity ensures Upsert(d, o) == d[i := o] {
      UpsertAt(d, i, o);
    }
  }

  lemma UpsertHolds<T>(order: seq<string>, latest: map<string, Observed<T>>,
                       d: seq<Observed<T>>, o: Observed<T>)
    requires Holds(order, latest, d)
    ensures Holds(if o.entity in latest then order else order + [o.entity], latest[o.entity := o], Upsert(d, o))
  {
    hide Upsert, Holds;
    HoldsDistinct(order, latest, d);
    UpsertPosition(d, o);
    if o.entity in latest {
      var i := HeldAt(order, latest, d, o.entity);
      HoldsReplaced(order, latest, d, o, i);
    } else {
      HoldsAppended(order, latest, d, o);
    }
  }

  lemma HoldsDistinct<T>(order: seq<string>, latest: map<string, Observed<T>>, d: seq<Observed<T>>)
    requires Holds(order, latest, d)
    ensures DistinctEntities(d)
  {
  }

  lemma HeldAt<T>(order: seq<string>, latest: map<string, Observed<T>>, d: seq<Observed<T>>, entity: string)
      returns (i: nat)
    requires Holds(order, latest, d) && entity in latest
    ensures i < |d| && d[i].entity == entity
  {
    i :| 0 <= i < |order| && order[i] == entity;
  }

  lemma HoldsReplaced<T>(order: seq<string>, latest: map<string, Observed<T>>, d: seq<Observed<T>>, o: Observed<T>,
                         i: nat)
    requires Holds(order, latest, d) && i < |d| && d[i].entity == o.entity
    ensures Holds(order, latest[o.entity := o], d[i := o])
  {
  }

  lemma HoldsAppended<T>(order: seq<string>, latest: map<string, Observed<T>>, d: seq<Observed<T>>, o: Observed<T>)
    requires Holds(order, latest, d) && o.entity !in latest
    ensures Holds(order + [o.entity], latest[o.entity := o], d + [o]) && !HasEntity(d, o.entity)
  {
    forall i | 0 <= i < |d| ensures d[i].entity != o.entity {
      assert order[i] in latest;
    }
  }

  lemma KeepHolds<T>(order: seq<string>, latest: map<string, Observed<T>>, s: seq<Observed<T>>, o: Observed<T>)
    requires Holds(order, latest, FirstWins(s))
    ensures o.entity in latest ==> FirstWins(s + [o]) == FirstWins(s)
    ensures o.entity !in latest ==>
              && FirstWins(s + [o]) == FirstWins(s) + [o]
              && Holds(order + [o.entity], latest[o.entity := o], FirstWins(s + [o]))
  {
    assert (s + [o])[..|s|] == s;
    var d := FirstWins(s);
    if o.entity in latest {
      var i :| 0 <= i < |order| && order[i] == o.entity;
      assert d[i].entity == o.entity;
    } else {
      forall i | 0 <= i < |d| ensures d[i].entity != o.entity {
        assert order[i] in latest;
      }
    }
  }

  lemma OverwriteStep<T>(t: seq<Observed<T>>, o: Observed<T>)
    ensures Overwrite(t + [o]) == Upsert(Overwrite(t), o)
  {
    assert (t + [o])[..|t|] == t;
  }

  method SelectLatestBy<T(!new)>(rows: seq<Observed<T>>) returns (latestRows: seq<Observed<T>>)
    ensures latestRows == LatestBy(rows)
  {
    hide Upsert, StableSort;
    var latest: map<string, Observed<T>> := map[];
    var order: seq<string> := [];
    var sorted := StableSort(rows, Earlier);
    for i := 0 to |sorted|
      invariant Holds(order, latest, Overwrite(sorted[..i]))
    {
      var row := sorted[i];
      assert sorted[..i + 1] == sorted[..i] + [row];
      OverwriteStep(sorted[..i], row);
      ghost var d := Overwrite(sorted[..i]);
      UpsertHolds(order, latest, d, row);
      assert Overwrite(sorted[..i + 1]) == Upsert(d, row);
      order := if row.entity in latest then order else order + [row.entity];
      latest := latest[row.entity := row];
    }
    assert sorted[..|sorted|] == sorted;
    latestRows := seq(|order|, i requires 0 <= i < |order| && order[i] in latest => latest[order[i]]);
  }

  method SelectLatestAsOf<T(!new)>(rows: seq<Observed<T>>, asOf: int) returns (latestRows: seq<Observed<T>>)
    ensures latestRows == LatestAsOf(rows, asOf)
  {
    var latest: map<string, Observed<T>> := map[];
    var order: seq<string> := [];
    var sorted := StableSort(rows, Later);
    for i := 0 to |sorted|
      invariant Holds(order, latest, FirstWins(Filter(sorted[..i], KnownAt(asOf))))
    {
      var item := sorted[i];
      ghost var known := Filter(sorted[..i], KnownAt(asOf));
      assert sorted[..i + 1] == sorted[..i] + [item];
      FilterAppend(sorted[..i], item, KnownAt(asOf));
      if item.observedAt > asOf {
        assert Filter(sorted[..i + 1], KnownAt(asOf)) == known;
        continue;
      }
      assert Filter(sorted[..i + 1], KnownAt(asOf)) == known + [item];
      KeepHolds(order, latest, known, item);
      if item.entity !in latest {
        latest := latest[item.entity := item];
        order := order + [item.entity];
      }
    }
    assert sorted[..|sorted|] == sorted;
    var values := seq(|order|, i requires 0 <= i < |order| && order[i] in latest => latest[order[i]]);
    assert values == FirstWins(Filter(sorted, KnownAt(asOf)));
    latestRows := StableSort(values, Earlier);
  }
}
