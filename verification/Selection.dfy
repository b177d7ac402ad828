/** What latest-per-entity selection guarantees: it is a selection of maxima, the two algorithms
    agree where knowledge times are distinct, the future cannot change it, and a knowledge-time
    filter can be pushed below it exactly when no selected row predates the window. */
module Selection {
  import opened Observations
  import opened Sequences

  /** `d` holds exactly one row per entity of `rows`, and it is one learned last. */
  ghost predicate Selects<T>(rows: seq<Observed<T>>, d: seq<Observed<T>>) {
    && DistinctEntities(d)
    && (forall r | r in d :: r in rows)
    && (forall r, o | r in d && o in rows && o.entity == r.entity :: o.observedAt <= r.observedAt)
    && forall o | o in rows :: HasEntity(d, o.entity)
  }

  /** Two rows about one entity are never learned at the same instant. */
  ghost predicate DistinctKnowledgeTimes<T>(rows: seq<Observed<T>>) {
    forall a, b | a in rows && b in rows && a.entity == b.entity && a.observedAt == b.observedAt :: a == b
  }

  function ByEntity<T>(d: seq<Observed<T>>): map<string, Observed<T>> {
    if d == [] then map[] else ByEntity(d[..|d| - 1])[d[|d| - 1].entity := d[|d| - 1]]
  }

  lemma HasEntityAppend<T>(d: seq<Observed<T>>, o: Observed<T>)
    ensures forall e :: HasEntity(d + [o], e) <==> HasEntity(d, e) || e == o.entity
  {
    var d' := d + [o];
    forall e ensures HasEntity(d', e) <==> HasEntity(d, e) || e == o.entity {
      if HasEntity(d, e) {
        var i :| 0 <= i < |d| && d[i].entity == e;
        assert d'[i].entity == e;
      }
      assert d'[|d|].entity == o.entity;
    }
  }

  /** The map view of a selection has its entities as keys and its rows as values. */
  lemma {:induction false} ByEntityOf<T>(d: seq<Observed<T>>)
    ensures forall e :: e in ByEntity(d) <==> HasEntity(d, e)
    ensures forall e :: e in ByEntity(d) ==> ByEntity(d)[e] in d && ByEntity(d)[e].entity == e
  {
    if d != [] {
      var t, o := d[..|d| - 1], d[|d| - 1];
      assert d == t + [o];
      ByEntityOf(t);
      HasEntityAppend(t, o);
    }
  }

  // ---------------------------------------------------------------- both algorithms select maxima

  lemma HasEntityReplaced<T>(d: seq<Observed<T>>, k: nat, o: Observed<T>)
    requires k < |d| && d[k].entity == o.entity
    ensures forall e :: HasEntity(d[k := o], e) <==> HasEntity(d, e)
  {
    var d' := d[k := o];
    forall e ensures HasEntity(d', e) <==> HasEntity(d, e) {
      if HasEntity(d, e) {
        var i :| 0 <= i < |d| && d[i].entity == e;
        assert d'[i].entity == e;
      }
      if HasEntity(d', e) {
        var i :| 0 <= i < |d| && d'[i].entity == e;
        assert d[i].entity == e;
      }
    }
  }

  lemma UpsertDistinct<T>(d: seq<Observed<T>>, o: Observed<T>)
    requires DistinctEntities(d)
    ensures DistinctEntities(Upsert(d, o))
    ensures forall e :: HasEntity(Upsert(d, o), e) <==> HasEntity(d, e) || e == o.entity
    ensures forall x | x in Upsert(d, o) :: x == o || (x in d && x.entity != o.entity)
  {
    UpsertPosition(d, o);
    hide Upsert;
    if HasEntity(d, o.entity) {
      var k :| 0 <= k < |d| && d[k].entity == o.entity;
      assert Upsert(d, o) == d[k := o];
      HasEntityReplaced(d, k, o);
    } else {
      HasEntityAppend(d, o);
    }
  }

  lemma {:induction false} OverwriteSelects<T(!new)>(s: seq<Observed<T>>)
    requires Sorted(s, Earlier)
    ensures Selects(s, Overwrite(s))
  {
    if s != [] {
      var t, o := s[..|s| - 1], s[|s| - 1];
      assert s == t + [o];
      OverwriteSelects(t);
      UpsertDistinct(Overwrite(t), o);
      forall x | x in s ensures x.observedAt <= o.observedAt {
        var i :| 0 <= i < |s| && s[i] == x;
        assert i < |s| - 1 ==> Earlier(s[i], s[|s| - 1]);
      }
    }
  }

  lemma FreshAppend<T>(d: seq<Observed<T>>, o: Observed<T>)
    requires DistinctEntities(d)
    ensures !HasEntity(d, o.entity) ==> DistinctEntities(d + [o])
  {
  }

  lemma FirstWinsStep<T>(t: seq<Observed<T>>, o: Observed<T>)
    ensures FirstWins(t + [o]) == if HasEntity(FirstWins(t), o.entity) then FirstWins(t) else FirstWins(t) + [o]
  {
    assert (t + [o])[..|t|] == t;
  }

  lemma SelectsStep<T>(t: seq<Observed<T>>, d: seq<Observed<T>>, o: Observed<T>)
    requires Selects(t, d)
    requires forall x | x in t :: o.observedAt <= x.observedAt
    ensures Selects(t + [o], if HasEntity(d, o.entity) then d else d + [o])
  {
    HasEntityAppend(d, o);
    FreshAppend(d, o);
    if HasEntity(d, o.entity) {
      var i :| 0 <= i < |d| && d[i].entity == o.entity;
    } else {
      forall x | x in d ensures x.entity != o.entity {
        var i :| 0 <= i < |d| && d[i] == x;
      }
      forall x | x in t ensures x.entity != o.entity {
        assert HasEntity(d, x.entity);
      }
    }
  }

  lemma {:induction false} FirstWinsSelects<T(!new)>(s: seq<Observed<T>>)
    requires Sorted(s, Later)
    ensures Selects(s, FirstWins(s))
  {
    if s != [] {
      var t, o := s[..|s| - 1], s[|s| - 1];
      assert s == t + [o];
      FirstWinsSelects(t);
      forall x | x in t ensures o.observedAt <= x.observedAt {
        var i :| 0 <= i < |t| && t[i] == x;
        assert Later(s[i], s[|s| - 1]);
      }
      FirstWinsStep(t, o);
      hide FirstWins, HasEntity, Selects;
      SelectsStep(t, FirstWins(t), o);
    }
  }

  lemma SelectsReordered<T>(rows: seq<Observed<T>>, rows': seq<Observed<T>>, d: seq<Observed<T>>, d': seq<Observed<T>>)
    requires Selects(rows, d)
    requires multiset(rows) == multiset(rows') && multiset(d) == multiset(d')
    ensures Selects(rows', d')
  {
    SameMembers(rows, rows');
    SameMembers(d, d');
    forall i, j | 0 <= i < j < |d'| ensures d'[i].entity != d'[j].entity {
      if d'[i].entity == d'[j].entity {
        assert d'[i] in d && d'[j] in d;
        var a :| 0 <= a < |d| && d[a] == d'[i];
        var b :| 0 <= b < |d| && d[b] == d'[j];
        assert a == b;
        OccursOnce(d, a);
        DoubleOccurrence(d', i, j);
      }
    }
    forall o | o in rows' ensures HasEntity(d', o.entity) {
      assert HasEntity(d, o.entity);
      var i :| 0 <= i < |d| && d[i].entity == o.entity;
      assert d[i] in d';
    }
  }

  /** Forward overwriting selects one maximal row per entity. */
  lemma LatestBySelects<T(!new)>(rows: seq<Observed<T>>)
    ensures Selects(rows, LatestBy(rows))
  {
    ObservationOrders<T>();
    SortSorted(rows, Earlier);
    SortMultiset(rows, Earlier);
    OverwriteSelects(StableSort(rows, Earlier));
    SelectsReordered(StableSort(rows, Earlier), rows, LatestBy(rows), LatestBy(rows));
  }

  /** Backward first-wins selects one maximal row per entity among those known at the cutoff. */
  lemma LatestAsOfSelects<T(!new)>(rows: seq<Observed<T>>, asOf: int)
    ensures Selects(Filter(rows, KnownAt(asOf)), LatestAsOf(rows, asOf))
  {
    ObservationOrders<T>();
    var known := Filter(rows, KnownAt(asOf));
    SortFilter(rows, Later, KnownAt(asOf));
    SortSorted(known, Later);
    SortMultiset(known, Later);
    var d := FirstWins(StableSort(known, Later));
    FirstWinsSelects(StableSort(known, Later));
    SortMultiset(d, Earlier);
    SelectsReordered(StableSort(known, Later), known, d, LatestAsOf(rows, asOf));
  }

  lemma SelectionsAgree<T>(rows: seq<Observed<T>>, d: seq<Observed<T>>, d': seq<Observed<T>>)
    requires Selects(rows, d) && Selects(rows, d') && DistinctKnowledgeTimes(rows)
    ensures ByEntity(d) == ByEntity(d')
  {
    ByEntityOf(d);
    ByEntityOf(d');
    hide ByEntity, HasEntity, DistinctEntities;
    assert forall o | o in d :: HasEntity(d', o.entity);
    assert forall o | o in d' :: HasEntity(d, o.entity);
    assert ByEntity(d).Keys == ByEntity(d').Keys;
    forall e | e in ByEntity(d) ensures ByEntity(d)[e] == ByEntity(d')[e] {
      var r, r' := ByEntity(d)[e], ByEntity(d')[e];
      assert r in rows && r' in rows;
    }
  }

  /** The live-feature selection and the timeline selection are the same map when no entity is
      observed twice at one instant. */
  lemma AlgorithmsAgree<T(!new)>(rows: seq<Observed<T>>, asOf: int)
    requires DistinctKnowledgeTimes(Filter(rows, KnownAt(asOf)))
    ensures ByEntity(LatestBy(Filter(rows, KnownAt(asOf)))) == ByEntity(LatestAsOf(rows, asOf))
  {
    LatestBySelects(Filter(rows, KnownAt(asOf)));
    LatestAsOfSelects(rows, asOf);
    SelectionsAgree(Filter(rows, KnownAt(asOf)), LatestBy(Filter(rows, KnownAt(asOf))), LatestAsOf(rows, asOf));
  }

  /** On a tie they differ: one keeps the last arrival, the other the first. */
  lemma TieBreaksDiffer<T(!new)>(a: Observed<T>, b: Observed<T>, asOf: int)
    requires a.entity == b.entity && a.observedAt == b.observedAt <= asOf
    ensures LatestBy([a, b]) == [b] && LatestAsOf([a, b], asOf) == [a]
  {
    SortOfSorted([a, b], Earlier);
    SortOfSorted([a, b], Later);
    FilterAll([a, b], KnownAt(asOf));
    OverwritePair(a, b);
    FirstWinsPair(a, b);
    SortOfSorted([a], Earlier);
  }

  lemma OverwritePair<T>(a: Observed<T>, b: Observed<T>)
    requires a.entity == b.entity
    ensures Overwrite([a, b]) == [b]
  {
    assert [a, b][..1] == [a] && [a][..0] == [];
    assert Overwrite([a]) == [a];
  }

  lemma FirstWinsPair<T>(a: Observed<T>, b: Observed<T>)
    requires a.entity == b.entity
    ensures FirstWins([a]) == [a] && FirstWins([a, b]) == [a]
  {
    assert [a, b][..1] == [a] && [a][..0] == [];
    assert FirstWins([a]) == [a];
    assert [a][0].entity == b.entity;
  }

  // ---------------------------------------------------------------- non-interference

  /** Rows learned after the cutoff never matter, wherever they stand in the list. */
  lemma FutureIrrelevant<T(!new)>(rows: seq<Observed<T>>, rows': seq<Observed<T>>, asOf: int)
    requires Filter(rows, KnownAt(asOf)) == Filter(rows', KnownAt(asOf))
    ensures LatestAsOf(rows, asOf) == LatestAsOf(rows', asOf)
  {
    ObservationOrders<T>();
    SortFilter(rows, Later, KnownAt(asOf));
    SortFilter(rows', Later, KnownAt(asOf));
  }

  /** The rows known at the cutoff are the same ones, in whatever order, and no two were learned at once. */
  ghost predicate Shuffled<T>(rows: seq<Observed<T>>, rows': seq<Observed<T>>, asOf: int) {
    var known := Filter(rows, KnownAt(asOf));
    && multiset(known) == multiset(Filter(rows', KnownAt(asOf)))
    && forall i, j :: 0 <= i < j < |known| ==> known[i].observedAt != known[j].observedAt
  }

  /** Then the arrival order does not matter either. */
  lemma ArrivalOrderIrrelevant<T(!new)>(rows: seq<Observed<T>>, rows': seq<Observed<T>>, asOf: int)
    requires Shuffled(rows, rows', asOf)
    ensures LatestAsOf(rows, asOf) == LatestAsOf(rows', asOf)
  {
    var known, known' := Filter(rows, KnownAt(asOf)), Filter(rows', KnownAt(asOf));
    KnownSuffices(rows, asOf);
    KnownSuffices(rows', asOf);
    ObservationOrders<T>();
    SortPermutation(known, known', Later);
  }

  lemma KnownSuffices<T(!new)>(rows: seq<Observed<T>>, asOf: int)
    ensures LatestAsOf(rows, asOf) == LatestAsOf(Filter(rows, KnownAt(asOf)), asOf)
  {
    FilterMembers(rows, KnownAt(asOf));
    FilterAll(Filter(rows, KnownAt(asOf)), KnownAt(asOf));
    FutureIrrelevant(rows, Filter(rows, KnownAt(asOf)), asOf);
  }

  // ---------------------------------------------------------------- event window and push-down

  /** The provider's event time is present and inside the window. */
  function InEventWindow<T>(windowStart: int, asOf: int): Observed<T> -> bool {
    (o: Observed<T>) => o.createdAt.Some? && windowStart <= o.createdAt.value <= asOf
  }

  /** What the database query keeps before any selection happens. */
  function LearnedInWindow<T>(windowStart: int, asOf: int): Observed<T> -> bool {
    (o: Observed<T>) => windowStart <= o.observedAt <= asOf
  }

  function Windowed<T>(rows: seq<Observed<T>>, windowStart: int, asOf: int): seq<Observed<T>> {
    Filter(LatestAsOf(rows, asOf), InEventWindow(windowStart, asOf))
  }

  lemma {:induction false} FirstWinsConcat<T(!new)>(hi: seq<Observed<T>>, lo: seq<Observed<T>>)
    ensures FirstWins(hi) <= FirstWins(hi + lo)
    ensures forall x | x in FirstWins(hi + lo)[|FirstWins(hi)|..] :: x in lo
  {
    if lo == [] {
      assert hi + lo == hi;
    } else {
      var n := |lo| - 1;
      assert (hi + lo)[..|hi + lo| - 1] == hi + lo[..n];
      assert (hi + lo)[|hi + lo| - 1] == lo[n];
      FirstWinsConcat(hi, lo[..n]);
      var d, d' := FirstWins(hi + lo[..n]), FirstWins(hi + lo);
      assert d' == d || d' == d + [lo[n]];
      forall x | x in d'[|FirstWins(hi)|..] ensures x in lo {
        assert x in d[|FirstWins(hi)|..] || x == lo[n];
        assert x in lo[..n] ==> x in lo;
      }
    }
  }

  /** A list sorted by descending knowledge time splits at any instant. */
  lemma {:induction false} SplitDescending<T(!new)>(s: seq<Observed<T>>, since: int) returns (k: nat)
    requires Sorted(s, Later)
    ensures k <= |s|
    ensures forall i :: 0 <= i < k ==> since <= s[i].observedAt
    ensures forall i :: k <= i < |s| ==> s[i].observedAt < since
  {
    k := 0;
    while k < |s| && since <= s[k].observedAt
      invariant k <= |s|
      invariant forall i :: 0 <= i < k ==> since <= s[i].observedAt
    {
      k := k + 1;
    }
    if k < |s| {
      forall i | k <= i < |s| ensures s[i].observedAt < since {
        assert k < i ==> Later(s[k], s[i]);
      }
    }
  }

  /** On rows sorted by descending knowledge time, selecting from the recent ones only gives the
      recent part of the selection. */
  lemma RecentFirstWins<T(!new)>(s: seq<Observed<T>>, windowStart: int)
    requires Sorted(s, Later)
    ensures FirstWins(Filter(s, LearnedSince(windowStart))) == Filter(FirstWins(s), LearnedSince(windowStart))
  {
    var since := LearnedSince<T>(windowStart);
    var k := SplitDescending(s, windowStart);
    var hi, lo := s[..k], s[k..];
    assert s == hi + lo;
    assert Filter(s, since) == hi by {
      FilterConcat(hi, lo, since);
      FilterAll(hi, since);
      FilterNone(lo, since);
    }
    FirstWinsConcat(hi, lo);
    var extra := FirstWins(s)[|FirstWins(hi)|..];
    assert FirstWins(s) == FirstWins(hi) + extra;
    assert Filter(FirstWins(hi), since) == FirstWins(hi) by {
      FirstWinsMembers(hi);
      FilterAll(FirstWins(hi), since);
    }
    assert Filter(extra, since) == [] by { FilterNone(extra, since); }
    FilterConcat(FirstWins(hi), extra, since);
  }

  /** Selecting from the recent rows only gives exactly the recent part of the full selection. */
  lemma RecentPart<T(!new)>(rows: seq<Observed<T>>, windowStart: int, asOf: int)
    ensures LatestAsOf(Filter(rows, LearnedInWindow(windowStart, asOf)), asOf)
         == Filter(LatestAsOf(rows, asOf), LearnedSince(windowStart))
  {
    var since, known, both := LearnedSince<T>(windowStart), KnownAt<T>(asOf), LearnedInWindow<T>(windowStart, asOf);
    var recent := Filter(rows, both);
    var s := Filter(StableSort(rows, Later), known);
    assert Filter(StableSort(recent, Later), known) == Filter(s, since) by {
      ObservationOrders<T>();
      FilterBothOrders(StableSort(rows, Later), both, known, since);
      SortFilter(rows, Later, both);
    }
    assert Sorted(s, Later) by {
      ObservationOrders<T>();
      SortSorted(rows, Later);
      FilterSorted(StableSort(rows, Later), Later, known);
    }
    RecentFirstWins(s, windowStart);
    ObservationOrders<T>();
    SortFilter(FirstWins(s), Earlier, since);
  }

  /** Filtering by a window and then by one of its two halves is filtering by both halves. */
  lemma FilterBothOrders<T>(s: seq<T>, both: T -> bool, first: T -> bool, second: T -> bool)
    requires forall x | x in s :: both(x) == (first(x) && second(x))
    ensures Filter(Filter(s, both), first) == Filter(Filter(s, first), second)
  {
    FilterFilter(s, first, second, both);
    FilterFilter(s, both, first, both);
  }

  lemma {:induction false} FirstWinsMembers<T>(s: seq<Observed<T>>)
    ensures forall x | x in FirstWins(s) :: x in s
  {
    if s != [] {
      FirstWinsMembers(s[..|s| - 1]);
    }
  }

  /** Push-down is exact precisely when no selected row inside the event window was learned before
      the window began. */
  lemma PushDownSelected<T(!new)>(rows: seq<Observed<T>>, windowStart: int, asOf: int)
    ensures Windowed(Filter(rows, LearnedInWindow(windowStart, asOf)), windowStart, asOf)
            == Windowed(rows, windowStart, asOf)
       <==> forall o | o in Windowed(rows, windowStart, asOf) :: windowStart <= o.observedAt
  {
    RecentPart(rows, windowStart, asOf);
    var inWindow, since := InEventWindow<T>(windowStart, asOf), LearnedSince<T>(windowStart);
    var full := LatestAsOf(rows, asOf);
    var both := (o: Observed<T>) => inWindow(o) && since(o);
    FilterFilter(full, inWindow, since, both);
    FilterFilter(full, since, inWindow, both);
    var shown := Filter(full, inWindow);
    assert Windowed(rows, windowStart, asOf) == shown;
    assert Windowed(Filter(rows, LearnedInWindow(windowStart, asOf)), windowStart, asOf) == Filter(shown, since);
    hide Windowed, LatestAsOf, StableSort, Filter;
    FilterLength(shown, since);
    if forall o | o in shown :: windowStart <= o.observedAt {
      FilterAll(shown, since);
    }
  }

  /** Another row of the same entity was learned later, and by the cutoff. */
  ghost predicate Superseded<T>(rows: seq<Observed<T>>, o: Observed<T>, asOf: int) {
    exists r | r in rows :: r.entity == o.entity && o.observedAt < r.observedAt <= asOf
  }

  /** The query misses this row although it counts: its event lies in the window, it was learned before
      the window and by the cutoff, and nothing known supersedes it. */
  ghost predicate Missed<T>(rows: seq<Observed<T>>, o: Observed<T>, windowStart: int, asOf: int) {
    InEventWindow(windowStart, asOf)(o) && o.observedAt < windowStart && o.observedAt <= asOf
        && !Superseded(rows, o, asOf)
  }

  ghost predicate NoneMissed<T>(rows: seq<Observed<T>>, windowStart: int, asOf: int) {
    forall o | o in rows :: !Missed(rows, o, windowStart, asOf)
  }

  /** Membership in the selection, read off the input rows. */
  lemma SelectedExactly<T(!new)>(rows: seq<Observed<T>>, o: Observed<T>, asOf: int)
    requires DistinctKnowledgeTimes(Filter(rows, KnownAt(asOf)))
    ensures o in LatestAsOf(rows, asOf) <==> o in rows && o.observedAt <= asOf && !Superseded(rows, o, asOf)
  {
    var known, latest := Filter(rows, KnownAt(asOf)), LatestAsOf(rows, asOf);
    LatestAsOfSelects(rows, asOf);
    FilterMembers(rows, KnownAt(asOf));
    hide LatestAsOf, Filter, DistinctEntities;
    assert forall r | r in rows && r.observedAt <= asOf :: r in known;
    if o in rows && o.observedAt <= asOf && !Superseded(rows, o, asOf) {
      assert o in known && HasEntity(latest, o.entity);
      var i :| 0 <= i < |latest| && latest[i].entity == o.entity;
      assert latest[i] in known && latest[i] in rows;
      assert latest[i].observedAt == o.observedAt;
    }
  }

  /** Over the input rows: push-down is exact precisely when the query misses no row, given that no two
      known rows of an entity were learned at the same instant. */
  lemma PushDownExact<T(!new)>(rows: seq<Observed<T>>, windowStart: int, asOf: int)
    requires DistinctKnowledgeTimes(Filter(rows, KnownAt(asOf)))
    ensures Windowed(Filter(rows, LearnedInWindow(windowStart, asOf)), windowStart, asOf)
            == Windowed(rows, windowStart, asOf)
       <==> NoneMissed(rows, windowStart, asOf)
  {
    PushDownSelected(rows, windowStart, asOf);
    var latest, inWindow := LatestAsOf(rows, asOf), InEventWindow<T>(windowStart, asOf);
    assert Windowed(rows, windowStart, asOf) == Filter(latest, inWindow);
    FilterMembers(latest, inWindow);
    hide Windowed, LatestAsOf, Filter, Superseded, DistinctKnowledgeTimes;
    forall o: Observed<T> { SelectedExactly(rows, o, asOf); }
  }

  /** Hence it is exact whenever no provider clock runs ahead of the service's. */
  lemma PushDownPreserves<T(!new)>(rows: seq<Observed<T>>, windowStart: int, asOf: int)
    requires forall o | o in rows :: o.createdAt.Some? ==> o.createdAt.value <= o.observedAt
    ensures Windowed(Filter(rows, LearnedInWindow(windowStart, asOf)), windowStart, asOf)
            == Windowed(rows, windowStart, asOf)
  {
    PushDownSelected(rows, windowStart, asOf);
    var latest, inWindow := LatestAsOf(rows, asOf), InEventWindow<T>(windowStart, asOf);
    assert Windowed(rows, windowStart, asOf) == Filter(latest, inWindow);
    LatestAsOfSelects(rows, asOf);
    hide Windowed, LatestAsOf, StableSort, Filter, HasEntity;
    forall o | o in Filter(latest, inWindow) ensures windowStart <= o.observedAt {
      FilterMembers(latest, inWindow);
      FilterMembers(rows, KnownAt(asOf));
      assert o in Filter(rows, KnownAt(asOf));
    }
  }

  /** A provider clock ahead of the service's loses a row: the query drops an observation whose
      event falls inside the window but which was learned just before the window starts. */
  lemma SkewedClockLosesRow<T(!new)>(o: Observed<T>, windowStart: int, asOf: int)
    requires o.createdAt.Some? && o.observedAt < windowStart <= o.createdAt.value <= asOf
    ensures Windowed([o], windowStart, asOf) == [o]
    ensures Windowed(Filter([o], LearnedInWindow(windowStart, asOf)), windowStart, asOf) == []
  {
    LatestOfOne(o, asOf);
    LatestOfNone<T>(asOf);
    assert Filter([o], InEventWindow(windowStart, asOf)) == [o];
    FilterNone([o], LearnedInWindow(windowStart, asOf));
    hide LatestAsOf;
  }

  lemma LatestOfOne<T(!new)>(o: Observed<T>, asOf: int)
    requires o.observedAt <= asOf
    ensures LatestAsOf([o], asOf) == [o]
  {
    FirstWinsPair(o, o);
    assert Filter([o], KnownAt(asOf)) == [o];
    hide FirstWins, Filter;
    SortOfSorted([o], Later);
    SortOfSorted([o], Earlier);
  }

  lemma LatestOfNone<T(!new)>(asOf: int)
    ensures LatestAsOf<T>([], asOf) == []
  {
  }

  /** Windowing by event time before or after selecting is the same when every observation of an
      entity carries the same event time. */
  lemma {:induction false} FirstWinsFilter<T(!new)>(s: seq<Observed<T>>, p: Observed<T> -> bool)
    requires forall a, b | a in s && b in s && a.entity == b.entity :: p(a) == p(b)
    ensures Filter(FirstWins(s), p) == FirstWins(Filter(s, p))
  {
    if s != [] {
      var t, o := s[..|s| - 1], s[|s| - 1];
      assert s == t + [o];
      assert forall a | a in t && a.entity == o.entity :: p(a) == p(o);
      FirstWinsFilter(t, p);
      FirstWinsFilterStep(t, o, p);
    }
  }

  lemma FirstWinsFilterStep<T(!new)>(t: seq<Observed<T>>, o: Observed<T>, p: Observed<T> -> bool)
    requires forall a | a in t && a.entity == o.entity :: p(a) == p(o)
    requires Filter(FirstWins(t), p) == FirstWins(Filter(t, p))
    ensures Filter(FirstWins(t + [o]), p) == FirstWins(Filter(t + [o], p))
  {
    var d, kept := FirstWins(t), Filter(t, p);
    FirstWinsStep(t, o);
    FilterAppend(t, o, p);
    FilterAppend(d, o, p);
    if p(o) {
      KeptEntity(t, o, p);
      FirstWinsStep(kept, o);
      assert Filter(t + [o], p) == kept + [o];
      if HasEntity(d, o.entity) {
        assert FirstWins(kept + [o]) == FirstWins(kept);
      } else {
        assert FirstWins(kept + [o]) == FirstWins(kept) + [o];
      }
    } else {
      assert Filter(t + [o], p) == kept;
    }
  }

  lemma KeptEntity<T(!new)>(t: seq<Observed<T>>, o: Observed<T>, p: Observed<T> -> bool)
    requires p(o)
    requires forall a | a in t && a.entity == o.entity :: p(a)
    ensures HasEntity(Filter(FirstWins(t), p), o.entity) <==> HasEntity(FirstWins(t), o.entity)
  {
    FirstWinsMembers(t);
    FilterMembers(FirstWins(t), p);
    var d, f := FirstWins(t), Filter(FirstWins(t), p);
    if HasEntity(d, o.entity) {
      var i :| 0 <= i < |d| && d[i].entity == o.entity;
      assert d[i] in f;
    }
    if HasEntity(f, o.entity) {
      var i :| 0 <= i < |f| && f[i].entity == o.entity;
      assert f[i] in d;
    }
  }

  ghost predicate StableEventTimes<T>(rows: seq<Observed<T>>) {
    forall a, b | a in rows && b in rows && a.entity == b.entity :: a.createdAt == b.createdAt
  }

  lemma WindowThenLatest<T(!new)>(rows: seq<Observed<T>>, windowStart: int, asOf: int)
    requires StableEventTimes(rows)
    ensures LatestAsOf(Filter(rows, InEventWindow(windowStart, asOf)), asOf) == Windowed(rows, windowStart, asOf)
  {
    ObservationOrders<T>();
    var p, known := InEventWindow<T>(windowStart, asOf), KnownAt<T>(asOf);
    var s := StableSort(rows, Later);
    var kept := Filter(s, known);
    assert Filter(Filter(s, p), known) == Filter(kept, p) by {
      var both := (o: Observed<T>) => p(o) && known(o);
      FilterFilter(s, p, known, both);
      FilterFilter(s, known, p, both);
    }
    assert forall a, b | a in kept && b in kept && a.entity == b.entity :: p(a) == p(b) by {
      FilterMembers(s, known);
      SortMembers(rows, Later);
    }
    SortFilter(rows, Later, p);
    FirstWinsFilter(kept, p);
    SortFilter(FirstWins(kept), Earlier, p);
  }

  /** So the two pipelines, window-then-overwrite and first-wins-then-window, select the same map. */
  lemma PipelinesAgree<T(!new)>(rows: seq<Observed<T>>, windowStart: int, asOf: int)
    requires StableEventTimes(rows)
    requires DistinctKnowledgeTimes(Filter(rows, KnownAt(asOf)))
    ensures ByEntity(LatestBy(Filter(Filter(rows, KnownAt(asOf)), InEventWindow(windowStart, asOf))))
         == ByEntity(Windowed(rows, windowStart, asOf))
  {
    var p, known := InEventWindow<T>(windowStart, asOf), KnownAt<T>(asOf);
    assert Filter(Filter(rows, known), p) == Filter(Filter(rows, p), known) by {
      var both := (o: Observed<T>) => p(o) && known(o);
      FilterFilter(rows, p, known, both);
      FilterFilter(rows, known, p, both);
    }
    assert DistinctKnowledgeTimes(Filter(Filter(rows, known), p)) by { FilterMembers(Filter(rows, known), p); }
    WindowThenLatest(rows, windowStart, asOf);
    AlgorithmsAgree(Filter(rows, p), asOf);
  }

  // ---------------------------------------------------------------- naturality

  /** Rewrites what rows say, not whom or when. */
  function Restate<T, U>(f: T -> U): Observed<T> -> Observed<U> {
    (o: Observed<T>) => Observed(o.entity, o.observedAt, o.createdAt, f(o.fact))
  }

  lemma {:induction false} UpsertRestate<T, U>(d: seq<Observed<T>>, o: Observed<T>, f: T -> U)
    ensures Map(Upsert(d, o), Restate(f)) == Upsert(Map(d, Restate(f)), Restate(f)(o))
  {
    if d != [] && d[0].entity != o.entity {
      UpsertRestate(d[1..], o, f);
      assert Map(d, Restate(f))[1..] == Map(d[1..], Restate(f));
    }
  }

  lemma {:induction false} OverwriteRestate<T, U>(s: seq<Observed<T>>, f: T -> U)
    ensures Map(Overwrite(s), Restate(f)) == Overwrite(Map(s, Restate(f)))
  {
    if s != [] {
      var t, o := s[..|s| - 1], s[|s| - 1];
      OverwriteRestate(t, f);
      UpsertRestate(Overwrite(t), o, f);
      assert Map(s, Restate(f))[..|s| - 1] == Map(t, Restate(f));
    }
  }

  /** Selection never looks at what a row says. */
  lemma LatestByRestate<T(!new), U>(rows: seq<Observed<T>>, f: T -> U)
    ensures Map(LatestBy(rows), Restate(f)) == LatestBy(Map(rows, Restate(f)))
  {
    SortMap(rows, Restate(f), Earlier, Earlier);
    OverwriteRestate(StableSort(rows, Earlier), f);
  }
}
