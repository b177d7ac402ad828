/** The sliding-window limiter: a deque per client, pruned from the front, against the full history of
    admissions. The clock is monotonic, so calls come in non-decreasing time. */
module RateLimiter {
  import opened Sequences

  const WINDOW := 60.0

  /** Drops expired entries from the front, stopping at the first one still in the window. */
  function Prune(bucket: seq<real>, cutoff: real): seq<real> {
    if bucket != [] && bucket[0] <= cutoff then Prune(bucket[1..], cutoff) else bucket
  }

  type Buckets = map<string, seq<real>>

  function Bucket(requests: Buckets, client: string): seq<real> {
    if client in requests then requests[client] else []
  }

  function AllowStep(limit: int, requests: Buckets, client: string, now: real): (Buckets, bool) {
    var bucket := Prune(Bucket(requests, client), now - WINDOW);
    if |bucket| >= limit then (requests[client := bucket], false) else (requests[client := bucket + [now]], true)
  }

  class Limiter {
    const limit: int
    var requests: Buckets

    constructor (limit: int)
      ensures this.limit == limit && requests == map[]
    {
      this.limit := limit;
      requests := map[];
    }

    method Allow(client: string, now: real) returns (ok: bool)
      modifies this
      ensures (requests, ok) == AllowStep(limit, old(requests), client, now)
    {
      var cutoff := now - WINDOW;
      var bucket := if client in requests then requests[client] else [];
      while bucket != [] && bucket[0] <= cutoff
        invariant Prune(bucket, cutoff) == Prune(Bucket(old(requests), client), cutoff)
        decreases |bucket|
      {
        bucket := bucket[1..];
      }
      if |bucket| >= limit {
        requests := requests[client := bucket];
        return false;
      }
      requests := requests[client := bucket + [now]];
      ok := true;
    }
  }

  // ---------------------------------------------------------------- the history it stands for

  datatype Call = Call(client: string, at: real)

  function InWindow(client: string, t: real): Call -> bool {
    (c: Call) => c.client == client && t - WINDOW < c.at <= t
  }

  /** The limiter that keeps every admission for ever and counts those of the last minute. */
  function Admitted(limit: int, calls: seq<Call>): seq<Call> {
    if calls == [] then []
    else
      var n := |calls| - 1;
      var before := Admitted(limit, calls[..n]);
      if |Filter(before, InWindow(calls[n].client, calls[n].at))| < limit then before + [calls[n]] else before
  }

  function Served(limit: int, calls: seq<Call>): Buckets {
    if calls == [] then map[]
    else AllowStep(limit, Served(limit, calls[..|calls| - 1]), calls[|calls| - 1].client, calls[|calls| - 1].at).0
  }

  ghost predicate Monotonic(calls: seq<Call>) {
    forall i, j :: 0 <= i < j < |calls| ==> calls[i].at <= calls[j].at
  }

  // ---------------------------------------------------------------- pruning is filtering

  function After(cutoff: real): real -> bool { (t: real) => t > cutoff }

  function OwnAfter(client: string, cutoff: real): Call -> bool {
    (c: Call) => c.client == client && c.at > cutoff
  }

  function At(c: Call): real { c.at }

  ghost predicate Ascending(ts: seq<real>, last: real) {
    && (forall i, j :: 0 <= i < j < |ts| ==> ts[i] <= ts[j])
    && (forall i :: 0 <= i < |ts| ==> ts[i] <= last)
  }

  lemma {:induction false} PruneIsFilter(bucket: seq<real>, cutoff: real, last: real)
    requires Ascending(bucket, last)
    ensures Prune(bucket, cutoff) == Filter(bucket, After(cutoff))
    ensures Ascending(Prune(bucket, cutoff), last)
  {
    if bucket != [] {
      if bucket[0] <= cutoff {
        PruneIsFilter(bucket[1..], cutoff, last);
      } else {
        FilterAll(bucket, After(cutoff));
      }
    }
  }

  lemma FilterTwice(bucket: seq<real>, a: real, b: real)
    requires a <= b
    ensures Filter(Filter(bucket, After(a)), After(b)) == Filter(bucket, After(b))
  {
    FilterFilter(bucket, After(a), After(b), After(b));
  }

  /** A client's bucket holds, beyond any cutoff the clock can still reach, its admissions. */
  ghost predicate Agrees(bucket: seq<real>, admitted: seq<Call>, client: string, last: real) {
    && Ascending(bucket, last)
    && forall cutoff | cutoff >= last - WINDOW :: Filter(bucket, After(cutoff))
         == Map(Filter(admitted, OwnAfter(client, cutoff)), At)
  }

  /** The fast and the naive limiter agree after the calls, at any clock reading from then on. */
  ghost predicate AllAgree(limit: int, calls: seq<Call>, last: real) {
    && (forall c <- Admitted(limit, calls) :: c.at <= last)
    && forall client :: Agrees(Bucket(Served(limit, calls), client), Admitted(limit, calls), client, last)
  }

  lemma AgreesLater(bucket: seq<real>, admitted: seq<Call>, client: string, last: real, now: real)
    requires Agrees(bucket, admitted, client, last) && last <= now
    ensures Agrees(bucket, admitted, client, now)
  {
  }

  /** Up to the present, own admissions after the cutoff are those in the window. */
  lemma WindowIsAfter(admitted: seq<Call>, client: string, now: real)
    requires forall c <- admitted :: c.at <= now
    ensures Filter(admitted, InWindow(client, now)) == Filter(admitted, OwnAfter(client, now - WINDOW))
  {
    FilterAgree(admitted, InWindow(client, now), OwnAfter(client, now - WINDOW));
  }

  /** At a clock reading, the pruned bucket is exactly the client's admissions of the last minute. */
  lemma PrunedBucket(bucket: seq<real>, admitted: seq<Call>, client: string, now: real)
    requires Agrees(bucket, admitted, client, now) && forall c <- admitted :: c.at <= now
    ensures Prune(bucket, now - WINDOW) == Map(Filter(admitted, InWindow(client, now)), At)
  {
    PruneIsFilter(bucket, now - WINDOW, now);
    WindowIsAfter(admitted, client, now);
  }

  lemma PruneKeepsAgreement(bucket: seq<real>, admitted: seq<Call>, client: string, now: real)
    requires Agrees(bucket, admitted, client, now)
    ensures Agrees(Prune(bucket, now - WINDOW), admitted, client, now)
  {
    PruneIsFilter(bucket, now - WINDOW, now);
    forall cutoff | cutoff >= now - WINDOW
      ensures Filter(Prune(bucket, now - WINDOW), After(cutoff))
              == Map(Filter(admitted, OwnAfter(client, cutoff)), At) {
      FilterTwice(bucket, now - WINDOW, cutoff);
    }
  }

  lemma AdmitKeepsAgreement(bucket: seq<real>, admitted: seq<Call>, client: string, c: Call)
    requires Agrees(bucket, admitted, client, c.at)
    ensures Agrees(if c.client == client then bucket + [c.at] else bucket, admitted + [c], client, c.at)
  {
    var bucket' := if c.client == client then bucket + [c.at] else bucket;
    forall cutoff | cutoff >= c.at - WINDOW
      ensures Filter(bucket', After(cutoff)) == Map(Filter(admitted + [c], OwnAfter(client, cutoff)), At) {
      FilterAppend(bucket, c.at, After(cutoff));
      FilterAppend(admitted, c, OwnAfter(client, cutoff));
      MapAppend(Filter(admitted, OwnAfter(client, cutoff)), c, At);
      assert Filter(admitted, OwnAfter(client, cutoff)) + [] == Filter(admitted, OwnAfter(client, cutoff));
      assert Filter(bucket, After(cutoff)) + [] == Filter(bucket, After(cutoff));
    }
  }

  lemma NextState(limit: int, calls: seq<Call>, c: Call)
    ensures Admitted(limit, calls + [c])
         == if |Filter(Admitted(limit, calls), InWindow(c.client, c.at))| < limit then Admitted(limit, calls) + [c]
             else Admitted(limit, calls)
    ensures Served(limit, calls + [c]) == AllowStep(limit, Served(limit, calls), c.client, c.at).0
  {
    assert (calls + [c])[..|calls|] == calls;
  }

  lemma NextBucket(limit: int, requests: Buckets, c: Call, client: string)
    ensures var step := AllowStep(limit, requests, c.client, c.at);
            Bucket(step.0, client)
            == if client != c.client then Bucket(requests, client)
               else Prune(Bucket(requests, client), c.at - WINDOW) + if step.1 then [c.at] else []
  {
    hide Prune;
  }

  /** What one call does to one client's agreement. */
  lemma NextAgrees(bucket: seq<real>, admitted: seq<Call>, client: string, c: Call, admit: bool)
    requires Agrees(bucket, admitted, client, c.at)
    ensures Agrees(if client != c.client then bucket else Prune(bucket, c.at - WINDOW) + if admit then [c.at] else [],
                   if admit then admitted + [c] else admitted, client, c.at)
  {
    hide Agrees, Prune;
    var pruned := if client != c.client then bucket else Prune(bucket, c.at - WINDOW);
    PruneKeepsAgreement(bucket, admitted, client, c.at);
    if admit {
      AdmitKeepsAgreement(pruned, admitted, client, c);
    } else {
      assert Prune(bucket, c.at - WINDOW) + [] == Prune(bucket, c.at - WINDOW);
    }
  }

  /** The verdict on a call is the naive limiter's. */
  lemma SameVerdict(limit: int, calls: seq<Call>, c: Call, last: real)
    requires AllAgree(limit, calls, last) && last <= c.at
    ensures AllowStep(limit, Served(limit, calls), c.client, c.at).1
       <==> |Filter(Admitted(limit, calls), InWindow(c.client, c.at))| < limit
  {
    hide Agrees, Prune, Filter, Served, Admitted, InWindow;
    AgreesLater(Bucket(Served(limit, calls), c.client), Admitted(limit, calls), c.client, last, c.at);
    PrunedBucket(Bucket(Served(limit, calls), c.client), Admitted(limit, calls), c.client, c.at);
  }

  /** One call carries the agreement on. */
  lemma CallAgrees(limit: int, calls: seq<Call>, c: Call, last: real)
    requires AllAgree(limit, calls, last) && last <= c.at
    ensures AllAgree(limit, calls + [c], c.at)
  {
    hide Agrees, Prune, Filter, Served, Admitted, InWindow, Bucket, AllowStep;
    var admitted, served := Admitted(limit, calls), Served(limit, calls);
    NextState(limit, calls, c);
    SameVerdict(limit, calls, c, last);
    var admit := AllowStep(limit, served, c.client, c.at).1;
    forall client ensures Agrees(Bucket(Served(limit, calls + [c]), client), Admitted(limit, calls + [c]), client,
        c.at) {
      AgreesLater(Bucket(served, client), admitted, client, last, c.at);
      NextAgrees(Bucket(served, client), admitted, client, c, admit);
      NextBucket(limit, served, c, client);
    }
  }

  lemma EmptyAgrees(limit: int, last: real)
    ensures AllAgree(limit, [], last)
  {
  }

  /** For every interleaving of clients under a non-decreasing clock, the deques agree with the full
      admission history. */
  lemma {:induction false} RunAgrees(limit: int, calls: seq<Call>, now: real)
    requires Monotonic(calls) && (calls != [] ==> calls[|calls| - 1].at <= now)
    ensures AllAgree(limit, calls, now)
    decreases |calls|
  {
    hide Agrees, AllAgree;
    if calls == [] {
      EmptyAgrees(limit, now);
    } else {
      var n := |calls| - 1;
      assert calls == calls[..n] + [calls[n]];
      RunAgrees(limit, calls[..n], calls[n].at);
      CallAgrees(limit, calls[..n], calls[n], calls[n].at);
      LaterAgrees(limit, calls, calls[n].at, now);
    }
  }

  lemma LaterAgrees(limit: int, calls: seq<Call>, last: real, now: real)
    requires AllAgree(limit, calls, last) && last <= now
    ensures AllAgree(limit, calls, now)
  {
    hide Filter;
    forall client ensures Agrees(Bucket(Served(limit, calls), client), Admitted(limit, calls), client, now) {
      AgreesLater(Bucket(Served(limit, calls), client), Admitted(limit, calls), client, last, now);
    }
  }

  // ---------------------------------------------------------------- the theorems

  /** A call is refused exactly when the client's last minute already holds `limit` admissions. */
  lemma RefusedIffFull(limit: int, calls: seq<Call>, c: Call)
    requires Monotonic(calls + [c])
    ensures AllowStep(limit, Served(limit, calls), c.client, c.at).1
       <==> |Filter(Admitted(limit, calls), InWindow(c.client, c.at))| < limit
  {
    assert forall i :: 0 <= i < |calls| ==> (calls + [c])[i] == calls[i];
    if calls != [] {
      assert calls[|calls| - 1].at <= (calls + [c])[|calls|].at;
    }
    hide AllAgree, Filter;
    RunAgrees(limit, calls, c.at);
    SameVerdict(limit, calls, c, c.at);
  }

  /** Right after its own call, a client's bucket is exactly its admissions in the last minute. */
  lemma BucketIsWindow(limit: int, calls: seq<Call>, c: Call)
    requires Monotonic(calls + [c])
    ensures Bucket(Served(limit, calls + [c]), c.client)
            == Map(Filter(Admitted(limit, calls + [c]), InWindow(c.client, c.at)), At)
  {
    hide Filter, Agrees, Prune, Served, Admitted, Bucket, AllowStep, Map;
    assert forall i :: 0 <= i < |calls| ==> (calls + [c])[i] == calls[i];
    if calls != [] {
      assert calls[|calls| - 1].at <= (calls + [c])[|calls|].at;
    }
    RunAgrees(limit, calls, c.at);
    NextState(limit, calls, c);
    SameVerdict(limit, calls, c, c.at);
    NextBucket(limit, Served(limit, calls), c, c.client);
    var admitted := Admitted(limit, calls);
    PrunedBucket(Bucket(Served(limit, calls), c.client), admitted, c.client, c.at);
    FilterAppend(admitted, c, InWindow(c.client, c.at));
    MapAppend(Filter(admitted, InWindow(c.client, c.at)), c, At);
    assert Map(Filter(admitted, InWindow(c.client, c.at)), At) + []
        == Map(Filter(admitted, InWindow(c.client, c.at)), At);
  }

  /** No window of a minute, wherever it ends, holds more than `limit` admissions of one client. */
  lemma {:induction false} NoWindowOverLimit(limit: int, calls: seq<Call>, client: string, t: real)
    requires Monotonic(calls) && limit >= 0
    ensures |Filter(Admitted(limit, calls), InWindow(client, t))| <= limit
    decreases |calls|
  {
    if calls != [] {
      var n := |calls| - 1;
      var c := calls[n];
      var before := Admitted(limit, calls[..n]);
      NoWindowOverLimit(limit, calls[..n], client, t);
      FilterAppend(before, c, InWindow(client, t));
      if InWindow(client, t)(c) && |Filter(before, InWindow(c.client, c.at))| < limit {
        AdmittedBefore(limit, calls[..n], c.at);
        SmallerWindow(before, client, t, c.at);
      }
    }
  }

  lemma {:induction false} AdmittedBefore(limit: int, calls: seq<Call>, now: real)
    requires forall c <- calls :: c.at <= now
    ensures forall c <- Admitted(limit, calls) :: c.at <= now
    decreases |calls|
  {
    if calls != [] {
      AdmittedBefore(limit, calls[..|calls| - 1], now);
    }
  }

  /** Of calls made by `now`, a window ending at or after `now` holds no more than the one ending at `now`. */
  lemma {:induction false} SmallerWindow(calls: seq<Call>, client: string, t: real, now: real)
    requires now <= t && forall c <- calls :: c.at <= now
    ensures |Filter(calls, InWindow(client, t))| <= |Filter(calls, InWindow(client, now))|
  {
    if calls != [] {
      SmallerWindow(calls[1..], client, t, now);
    }
  }

  /** In numbers: a call is allowed exactly when fewer than `limit` of the client's calls of the sixty seconds
      before it were. */
  lemma AllowedExactly(limit: int, calls: seq<Call>, c: Call)
    requires Monotonic(calls + [c])
    ensures var admitted := Admitted(limit, calls);
            AllowStep(limit, Served(limit, calls), c.client, c.at).1 <==>
            |set i: nat | i < |admitted| && admitted[i].client == c.client
                          && c.at - 60.0 < admitted[i].at <= c.at| < limit
  {
    hide Served, Admitted, AllowStep, Filter;
    RefusedIffFull(limit, calls, c);
    var admitted := Admitted(limit, calls);
    FilterCount(admitted, InWindow(c.client, c.at),
                set i: nat | i < |admitted| && admitted[i].client == c.client && c.at - 60.0 < admitted[i].at <= c.at);
  }
}
