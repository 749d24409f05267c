/** The shared pool of workers. A worker is taken only when one is free and is
    given back when the customer it helps finishes, so at the end of every
    minute the free workers and the lanes that hold one add up to the number
    the run started with. */
module WorkerPool {
  import opened Customers
  import opened Lanes
  import opened Engine

  /** Whether a lane's head holds a worker. A lane is `settled` once the current
      minute's processing has run on it: then any issue head with a finite entry
      holds one. Before that (after the completion check) an entry of zero means
      a head that has not started yet, so only an entry above the tolerance counts. */
  predicate Holds(q: seq<Customer>, t: Time, settled: bool)
  {
    q != [] && q[0].hasIssue && t.Fin? && (settled || t.minutes > Tolerance)
  }

  function Bit(q: seq<Customer>, t: Time, settled: bool): nat
  {
    if Holds(q, t, settled) then 1 else 0
  }

  /** Number of lanes whose head holds a worker, each lane read in its own phase. */
  function HeldCount(lanes: seq<seq<Customer>>, rem: seq<Time>, settled: seq<bool>): nat
    requires |lanes| == |rem| == |settled|
  {
    if lanes == [] then 0
    else
      var n := |lanes| - 1;
      HeldCount(lanes[..n], rem[..n], settled[..n]) + Bit(lanes[n], rem[n], settled[n])
  }

  /** Lanes below `j` are in phase `low`, the others in the other phase. */
  function Phase(n: nat, j: nat, low: bool): (ph: seq<bool>)
    ensures |ph| == n
  {
    seq(n, k => if k < j then low else !low)
  }

  /** Lanes whose head holds a worker at the end of a minute: an issue head with
      a finite remaining time. */
  function Held(s: Store): nat
    requires |s.lanes| == |s.remaining|
  {
    HeldCount(s.lanes, s.remaining, Phase(|s.lanes|, 0, false))
  }

  lemma {:induction false} HeldCountUpdate(lanes: seq<seq<Customer>>, rem: seq<Time>, settled: seq<bool>,
                                           i: nat, q: seq<Customer>, t: Time, b: bool)
    requires |lanes| == |rem| == |settled| && i < |lanes|
    ensures HeldCount(lanes[i := q], rem[i := t], settled[i := b])
         == HeldCount(lanes, rem, settled) - Bit(lanes[i], rem[i], settled[i]) + Bit(q, t, b)
  {
    var n := |lanes| - 1;
    if i == n {
      assert lanes[i := q][..n] == lanes[..n];
      assert rem[i := t][..n] == rem[..n];
      assert settled[i := b][..n] == settled[..n];
    } else {
      assert lanes[i := q][..n] == lanes[..n][i := q];
      assert rem[i := t][..n] == rem[..n][i := t];
      assert settled[i := b][..n] == settled[..n][i := b];
      HeldCountUpdate(lanes[..n], rem[..n], settled[..n], i, q, t, b);
    }
  }

  lemma {:induction false} HeldCountPointwise(l1: seq<seq<Customer>>, r1: seq<Time>, s1: seq<bool>,
                                              l2: seq<seq<Customer>>, r2: seq<Time>, s2: seq<bool>)
    requires |l1| == |r1| == |s1| == |l2| == |r2| == |s2|
    requires forall k :: 0 <= k < |l1| ==> Bit(l1[k], r1[k], s1[k]) == Bit(l2[k], r2[k], s2[k])
    ensures HeldCount(l1, r1, s1) == HeldCount(l2, r2, s2)
  {
    if l1 != [] {
      var n := |l1| - 1;
      HeldCountPointwise(l1[..n], r1[..n], s1[..n], l2[..n], r2[..n], s2[..n]);
    }
  }

  /** An empty lane's entry is zero. */
  ghost predicate IdleWhenEmpty(s: Store)
    requires |s.lanes| == |s.remaining|
  {
    forall i :: 0 <= i < |s.lanes| ==> s.lanes[i] == [] ==> s.remaining[i] == Fin(0.0)
  }

  /** After the completion check a queued head either has not started (zero)
      or is not finished. */
  predicate ReadyToStart(q: seq<Customer>, t: Time)
  {
    q == [] || t == Fin(0.0) || !Done(t)
  }

  /** End-of-minute invariant: the pool is never negative, and the free workers
      plus the lanes holding one make `total`. */
  ghost predicate PoolBalanced(s: Store, total: int)
  {
    && Shaped(s)
    && IdleWhenEmpty(s)
    && 0 <= s.numWorkers
    && s.numWorkers + Held(s) == total
  }

  /** The completion check on lanes 0 .. j-1 hands back exactly the workers of
      the issue customers it serves and leaves those lanes ready to start. */
  lemma {:induction false} CompletionKeepsPool(s: Store, total: int, j: nat)
    requires PoolBalanced(s, total) && j <= |s.lanes|
    ensures var r := CompleteUpTo(s, j);
      && IdleWhenEmpty(r)
      && 0 <= r.numWorkers
      && r.numWorkers + HeldCount(r.lanes, r.remaining, Phase(|s.lanes|, j, false)) == total
      && (forall k :: 0 <= k < j ==> ReadyToStart(r.lanes[k], r.remaining[k]))
      && (forall k :: j <= k < |s.lanes| ==> r.lanes[k] == s.lanes[k] && r.remaining[k] == s.remaining[k])
  {
    var n := |s.lanes|;
    if j > 0 {
      var i := j - 1;
      CompletionKeepsPool(s, total, i);
      var r := CompleteUpTo(s, i);
      var r' := CompleteLane(r, i);
      var ph := Phase(n, i, false);
      assert Phase(n, j, false) == ph[i := false];
      CompleteLaneMovesOneWorker(r, i);
      HeldCountUpdate(r.lanes, r.remaining, ph, i, r'.lanes[i], r'.remaining[i], false);
    }
  }

  /** Completing one lane: the worker its head held, if any, goes back to the
      pool, and the lane is left ready to start its next head. */
  lemma CompleteLaneMovesOneWorker(s: Store, i: nat)
    requires Shaped(s) && i < |s.lanes|
    requires s.lanes[i] == [] ==> s.remaining[i] == Fin(0.0)
    ensures var r := CompleteLane(s, i);
      && r.lanes == s.lanes[i := r.lanes[i]]
      && r.remaining == s.remaining[i := r.remaining[i]]
      && s.numWorkers <= r.numWorkers
      && r.numWorkers + Bit(r.lanes[i], r.remaining[i], false) == s.numWorkers + Bit(s.lanes[i], s.remaining[i], true)
      && ReadyToStart(r.lanes[i], r.remaining[i])
      && (r.lanes[i] == [] ==> r.remaining[i] == Fin(0.0))
  {
    if !(s.lanes[i] != [] && Done(s.remaining[i])) {
      assert s.lanes[i := s.lanes[i]] == s.lanes;
      assert s.remaining[i := s.remaining[i]] == s.remaining;
    }
  }

  /** Arrivals only append to lanes, so no head changes and the count of lanes
      holding a worker stays the same. */
  lemma ArrivalKeepsPool(s: Store, total: int, arrivals: seq<Customer>)
    requires Shaped(s) && IdleWhenEmpty(s) && 0 <= s.numWorkers
    requires forall k :: 0 <= k < |s.lanes| ==> ReadyToStart(s.lanes[k], s.remaining[k])
    requires s.numWorkers + HeldCount(s.lanes, s.remaining, Phase(|s.lanes|, 0, true)) == total
    ensures var r := Arrive(s, arrivals);
      && IdleWhenEmpty(r)
      && 0 <= r.numWorkers
      && (forall k :: 0 <= k < |r.lanes| ==> ReadyToStart(r.lanes[k], r.remaining[k]))
      && r.numWorkers + HeldCount(r.lanes, r.remaining, Phase(|s.lanes|, 0, true)) == total
  {
    var r := Arrive(s, arrivals);
    RouteAppends(s.lanes, arrivals);
    var ph := Phase(|s.lanes|, 0, true);
    forall k | 0 <= k < |s.lanes|
      ensures Bit(r.lanes[k], r.remaining[k], ph[k]) == Bit(s.lanes[k], s.remaining[k], ph[k])
      ensures ReadyToStart(r.lanes[k], r.remaining[k])
    {
      if s.lanes[k] != [] {
        assert r.lanes[k][0] == s.lanes[k][0];
      }
    }
    HeldCountPointwise(r.lanes, r.remaining, ph, s.lanes, s.remaining, ph);
  }

  /** Processing lanes 0 .. j-1 takes a worker exactly for each issue head it
      starts, and never takes one when none is free. */
  lemma {:induction false} ProcessingKeepsPool(s: Store, total: int, j: nat)
    requires Shaped(s) && IdleWhenEmpty(s) && 0 <= s.numWorkers && j <= |s.lanes|
    requires forall k :: 0 <= k < |s.lanes| ==> ReadyToStart(s.lanes[k], s.remaining[k])
    requires s.numWorkers + HeldCount(s.lanes, s.remaining, Phase(|s.lanes|, 0, true)) == total
    ensures var r := ProcessUpTo(s, j);
      && IdleWhenEmpty(r)
      && 0 <= r.numWorkers
      && r.numWorkers + HeldCount(r.lanes, r.remaining, Phase(|s.lanes|, j, true)) == total
      && (forall k :: j <= k < |s.lanes| ==> r.remaining[k] == s.remaining[k])
  {
    var n := |s.lanes|;
    if j > 0 {
      var i := j - 1;
      ProcessingKeepsPool(s, total, i);
      var r := ProcessUpTo(s, i);
      var r' := ProcessLane(r, i);
      var ph := Phase(n, i, true);
      assert Phase(n, j, true) == ph[i := true];
      ProcessLaneMovesOneWorker(r, i);
      HeldCountUpdate(r.lanes, r.remaining, ph, i, r.lanes[i], r'.remaining[i], true);
      assert r.lanes[i := r.lanes[i]] == r.lanes;
    }
  }

  /** Processing one ready lane: whatever worker the pool loses, the lane now
      holds, and the pool stays non-negative. Only the lane's entry and the pool
      can change. */
  lemma ProcessLaneMovesOneWorker(s: Store, i: nat)
    requires Shaped(s) && i < |s.lanes| && 0 <= s.numWorkers
    requires ReadyToStart(s.lanes[i], s.remaining[i])
    ensures var r := ProcessLane(s, i);
      && r == s.(numWorkers := r.numWorkers, remaining := s.remaining[i := r.remaining[i]])
      && 0 <= r.numWorkers
      && r.numWorkers + Bit(s.lanes[i], r.remaining[i], true) == s.numWorkers + Bit(s.lanes[i], s.remaining[i], false)
      && (s.lanes[i] == [] ==> r.remaining[i] == s.remaining[i])
  {
    if s.lanes[i] != [] && s.remaining[i] == Fin(0.0) && !(s.lanes[i][0].hasIssue && s.numWorkers <= 0) {
      var c := s.lanes[i][0];
      var st := StartService(s, i);
      assert st.remaining[i].minutes >= InitTime + PaymentTime;
    }
  }

  /** A whole minute keeps the pool balanced against the same total. */
  lemma MinuteKeepsPool(s: Store, total: int, cs: seq<Candidate>, p: real)
    requires PoolBalanced(s, total)
    ensures PoolBalanced(Minute(s, cs, p), total)
  {
    var n := |s.lanes|;
    CompletionKeepsPool(s, total, n);
    var c := CompleteUpTo(s, n);
    assert Phase(n, n, false) == Phase(n, 0, true);
    ArrivalKeepsPool(c, total, Accepted(cs, p));
    var a := Arrive(c, Accepted(cs, p));
    ProcessingKeepsPool(a, total, n);
    assert Phase(n, n, true) == Phase(n, 0, false);
  }

  /** Every run keeps the pool balanced: never negative, never above `total`. */
  lemma {:induction false} RunKeepsPool(s: Store, total: int, minutes: seq<seq<Candidate>>, p: real)
    requires PoolBalanced(s, total)
    ensures PoolBalanced(Run(s, minutes, p), total)
    ensures 0 <= Run(s, minutes, p).numWorkers <= total
  {
    if minutes != [] {
      RunKeepsPool(s, total, minutes[..|minutes| - 1], p);
      MinuteKeepsPool(Run(s, minutes[..|minutes| - 1], p), total, minutes[|minutes| - 1], p);
    }
  }

  /** A run starts balanced: no lane holds a worker and every worker is free. */
  lemma OpeningBalanced(n: nat, workers: int)
    requires n > 0 && workers >= 0
    ensures PoolBalanced(Opening(n, workers), workers)
  {
    var s := Opening(n, workers);
    HeldCountPointwise(s.lanes, s.remaining, Phase(n, 0, false), s.lanes, s.remaining, Phase(n, 0, true));
    HeldZeroWhenIdle(s.lanes, s.remaining, Phase(n, 0, true));
  }

  lemma {:induction false} HeldZeroWhenIdle(lanes: seq<seq<Customer>>, rem: seq<Time>, settled: seq<bool>)
    requires |lanes| == |rem| == |settled|
    requires forall k :: 0 <= k < |lanes| ==> lanes[k] == []
    ensures HeldCount(lanes, rem, settled) == 0
  {
    if lanes != [] {
      var n := |lanes| - 1;
      HeldZeroWhenIdle(lanes[..n], rem[..n], settled[..n]);
    }
  }
}
