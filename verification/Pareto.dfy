/** The Pareto frontier of guard candidates and the recommendation drawn from it. */
module Pareto {
  import opened Sequences
  import opened Wrappers

  datatype Candidate = Candidate(alpha: real, rule: string, cost: real, falseRelease: real, diversion: real,
                                 rescue: real)

  predicate NoWorse(a: Candidate, b: Candidate) {
    a.cost <= b.cost && a.falseRelease <= b.falseRelease && a.diversion <= b.diversion && a.rescue >= b.rescue
  }

  predicate StrictlyBetter(a: Candidate, b: Candidate) {
    a.cost < b.cost || a.falseRelease < b.falseRelease || a.diversion < b.diversion || a.rescue > b.rescue
  }

  predicate Dominates(a: Candidate, b: Candidate) {
    NoWorse(a, b) && StrictlyBetter(a, b)
  }

  function Undominated(rows: seq<Candidate>): Candidate -> bool {
    (c: Candidate) => forall o <- rows :: !Dominates(o, c)
  }

  /** The order the frontier is listed in. */
  predicate ListedBefore(a: Candidate, b: Candidate) {
    a.cost < b.cost || (a.cost == b.cost
        && (a.diversion < b.diversion || (a.diversion == b.diversion && a.rescue >= b.rescue)))
  }

  function Frontier(rows: seq<Candidate>): seq<Candidate> {
    StableSort(Filter(rows, Undominated(rows)), ListedBefore)
  }

  method ParetoFrontier(rows: seq<Candidate>) returns (frontier: seq<Candidate>)
    ensures frontier == Frontier(rows)
  {
    frontier := [];
    for i := 0 to |rows|
      invariant frontier == Filter(rows[..i], Undominated(rows))
    {
      var candidate := rows[i];
      var dominated := false;
      for j := 0 to |rows|
        invariant !dominated
        invariant forall k :: 0 <= k < j ==> !Dominates(rows[k], candidate)
      {
        if j == i { continue; }
        var other := rows[j];
        if NoWorse(other, candidate) && StrictlyBetter(other, candidate) {
          dominated := true;
          assert other in rows && Dominates(other, candidate);
          break;
        }
      }
      assert Undominated(rows)(candidate) == !dominated;
      assert rows[..i + 1] == rows[..i] + [candidate];
      FilterAppend(rows[..i], candidate, Undominated(rows));
      if !dominated {
        frontier := frontier + [candidate];
      }
    }
    assert rows[..|rows|] == rows;
    frontier := StableSort(frontier, ListedBefore);
  }

  // ---------------------------------------------------------------- the recommendation key

  /** The recommendation key, compared lexicographically: cost, false releases, diversion, then rescue
      (more is better). */
  predicate Before(a: Candidate, b: Candidate) {
    a.cost < b.cost
    || (a.cost == b.cost
        && (a.falseRelease < b.falseRelease
            || (a.falseRelease == b.falseRelease
                && (a.diversion < b.diversion || (a.diversion == b.diversion && a.rescue > b.rescue)))))
  }

  predicate SameKey(a: Candidate, b: Candidate) {
    a.cost == b.cost && a.falseRelease == b.falseRelease && a.diversion == b.diversion && a.rescue == b.rescue
  }

  /** The first row with the least key. */
  function Least(rows: seq<Candidate>): Candidate
    requires rows != []
  {
    var n := |rows| - 1;
    if n == 0 then rows[0]
    else
      var best := Least(rows[..n]);
      if Before(rows[n], best) then rows[n] else best
  }

  method Recommend(rows: seq<Candidate>) returns (r: Option<Candidate>)
    ensures r.None? <==> rows == []
    ensures rows != [] ==> r == Some(Least(if Frontier(rows) != [] then Frontier(rows) else rows))
  {
    var frontier := ParetoFrontier(rows);
    var pool := if frontier != [] then frontier else rows;
    if pool == [] {
      return None;
    }
    var best := pool[0];
    assert pool[..1] == [pool[0]];
    for i := 1 to |pool|
      invariant best == Least(pool[..i])
    {
      assert pool[..i + 1][..i] == pool[..i];
      if Before(pool[i], best) {
        best := pool[i];
      }
    }
    assert pool[..|pool|] == pool;
    FrontierEmpty(rows);
    r := Some(best);
  }

  lemma FrontierEmpty(rows: seq<Candidate>)
    ensures rows == [] ==> Frontier(rows) == []
  {
  }

  lemma {:induction false} LeastMeaning(rows: seq<Candidate>)
    requires rows != []
    ensures Least(rows) in rows && forall r <- rows :: !Before(r, Least(rows))
  {
    var n := |rows| - 1;
    assert rows == rows[..n] + [rows[n]];
    if n > 0 {
      LeastMeaning(rows[..n]);
    }
  }

  // ---------------------------------------------------------------- soundness and completeness

  lemma FrontierMembers(rows: seq<Candidate>)
    ensures forall c :: c in Frontier(rows) <==> c in rows && Undominated(rows)(c)
  {
    var kept := Filter(rows, Undominated(rows));
    FilterMembers(rows, Undominated(rows));
    SortMembers(kept, ListedBefore);
  }

  /** Soundness: members are candidates that no candidate dominates. */
  lemma FrontierSound(rows: seq<Candidate>, c: Candidate, o: Candidate)
    requires c in Frontier(rows) && o in rows
    ensures c in rows && !Dominates(o, c)
  {
    FrontierMembers(rows);
    assert Undominated(rows)(c);
  }

  function Dominators(rows: seq<Candidate>, c: Candidate): seq<Candidate> {
    Filter(rows, (o: Candidate) => Dominates(o, c))
  }

  /** Domination is transitive and always lowers the key. */
  lemma DominationChains(a: Candidate, b: Candidate, c: Candidate)
    requires Dominates(b, c)
    ensures Dominates(a, b) ==> Dominates(a, c) && Before(a, b)
  {
  }

  /** Completeness: every candidate left out is dominated by one that was kept. */
  lemma DroppedAreDominated(rows: seq<Candidate>, c: Candidate)
    requires c in rows && c !in Frontier(rows)
    ensures exists better <- Frontier(rows) :: Dominates(better, c)
  {
    FrontierMembers(rows);
    assert !Undominated(rows)(c);
    FilterMembers(rows, (o: Candidate) => Dominates(o, c));
    var better := Least(Dominators(rows, c));
    LeastMeaning(Dominators(rows, c));
    forall o <- rows ensures !Dominates(o, better) {
      DominationChains(o, better, c);
    }
    assert Undominated(rows)(better);
  }

  /** The least key overall is on the frontier, so the frontier is never empty for want of candidates. */
  lemma LeastIsKept(rows: seq<Candidate>)
    requires rows != []
    ensures Least(rows) in Frontier(rows)
  {
    LeastMeaning(rows);
    FrontierMembers(rows);
    assert Undominated(rows)(Least(rows));
  }

  /** Choosing from the frontier loses nothing: its least key is the least key of all candidates. */
  lemma RecommendationLosesNothing(rows: seq<Candidate>)
    requires rows != []
    ensures Frontier(rows) != [] && SameKey(Least(Frontier(rows)), Least(rows))
    ensures forall r <- rows :: !Before(r, Least(Frontier(rows)))
  {
    LeastIsKept(rows);
    LeastMeaning(rows);
    LeastMeaning(Frontier(rows));
    FrontierMembers(rows);
  }

  /** The frontier is listed in order, each candidate as often as it was given. */
  lemma FrontierListed(rows: seq<Candidate>)
    ensures Sorted(Frontier(rows), ListedBefore)
    ensures forall c <- Frontier(rows) :: multiset(Frontier(rows))[c] == multiset(rows)[c]
  {
    var kept := Filter(rows, Undominated(rows));
    SortSorted(kept, ListedBefore);
    SortMultiset(kept, ListedBefore);
    FilterMultiset(rows, Undominated(rows));
    FrontierMembers(rows);
  }

  /** The frontier, metric by metric: a candidate is on it exactly when no candidate is at most as costly, as
      falsely releasing and as diverting and at least as rescuing as it, and better in one of the four; and it
      is listed by cost, then by diversion, then by rescue, most first. */
  lemma FrontierExactly(rows: seq<Candidate>, c: Candidate)
    ensures c in Frontier(rows) <==>
            && c in rows
            && forall o :: o in rows && o.cost <= c.cost && o.falseRelease <= c.falseRelease
                           && o.diversion <= c.diversion && c.rescue <= o.rescue ==>
                 && o.cost == c.cost && o.falseRelease == c.falseRelease && o.diversion == c.diversion
                 && o.rescue == c.rescue
    ensures forall i, j :: 0 <= i < j < |Frontier(rows)| ==>
              var a, b := Frontier(rows)[i], Frontier(rows)[j];
              && a.cost <= b.cost
              && (a.cost == b.cost ==> a.diversion <= b.diversion)
              && (a.cost == b.cost && a.diversion == b.diversion ==> a.rescue >= b.rescue)
  {
    FrontierMembers(rows);
    FrontierListed(rows);
    hide Frontier;
    forall i, j | 0 <= i < j < |Frontier(rows)| ensures ListedBefore(Frontier(rows)[i], Frontier(rows)[j]) {
    }
  }

  /** The recommendation has the least cost of all candidates; among those the fewest false releases, then
      the least diversion, then the most rescue. */
  lemma RecommendationExactly(rows: seq<Candidate>, o: Candidate)
    requires o in rows
    ensures Frontier(rows) != []
    ensures var r := Least(Frontier(rows));
            && r in rows && r.cost <= o.cost
            && (o.cost == r.cost ==> r.falseRelease <= o.falseRelease)
            && (o.cost == r.cost && o.falseRelease == r.falseRelease ==> r.diversion <= o.diversion)
            && (o.cost == r.cost && o.falseRelease == r.falseRelease && o.diversion == r.diversion ==>
                  r.rescue >= o.rescue)
  {
    RecommendationLosesNothing(rows);
    LeastMeaning(rows);
    LeastMeaning(Frontier(rows));
    FrontierMembers(rows);
    hide Frontier, Least;
  }
}
