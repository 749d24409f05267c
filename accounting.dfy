/** Customer bookkeeping: every customer who has arrived is either still queued
    or has been served, so the served count never exceeds the arrivals. */
module Accounting {
  import opened Customers
  import opened Lanes
  import opened Engine

  ghost predicate Accounted(s: Store)
  {
    0 <= s.totalCustomersServed && s.totalCustomersServed + Queued(s.lanes) == s.totalCustomers
  }

  /** Completing lane `i` serves a customer exactly when the lane has a head
      whose time is up (within the 0.001 tolerance); otherwise nothing changes.
      The customer served is that head and nobody else leaves the queues: the
      served count, items and gross grow by that customer alone, its wait is
      charged the assisted service time (fix time included, issue or not), the
      lane's entry is reset to 0, the arrival count is untouched, and the pool
      gets a worker back exactly when the customer had an issue. */
  lemma CompletionServesHead(s: Store, i: nat)
    requires Shaped(s) && i < |s.lanes|
    ensures var r := CompleteLane(s, i);
      var fires := s.lanes[i] != [] && Done(s.remaining[i]);
      && (r == s <==> !fires)
      && (fires ==>
            var c := s.lanes[i][0];
            && Waiting(s.lanes) == Waiting(r.lanes) + multiset{c}
            && r.lanes[i] == s.lanes[i][1..]
            && r.remaining[i] == Fin(0.0)
            && r.totalCustomers == s.totalCustomers
            && r.totalCustomersServed == s.totalCustomersServed + 1
            && r.totalItems == s.totalItems + c.items
            && r.gross == s.gross + c.price
            && r.totalWaitTime == s.totalWaitTime + AssistedServiceTime(c)
            && r.numWorkers == s.numWorkers + (if c.hasIssue then 1 else 0))
  {
    var r := CompleteLane(s, i);
    if s.lanes[i] != [] && Done(s.remaining[i]) {
      var q := s.lanes[i];
      var c := q[0];
      assert |r.lanes[i]| < |q|;
      WaitingUpdate(s.lanes, i, q[1..]);
      assert q == [c] + q[1..];
      assert multiset(q) == multiset{c} + multiset(q[1..]);
      assert Waiting(s.lanes) == Waiting(r.lanes) + multiset{c} by {
        forall x ensures Waiting(s.lanes)[x] == (Waiting(r.lanes) + multiset{c})[x] {
          assert (Waiting(r.lanes) + multiset(q))[x] == (Waiting(s.lanes) + multiset(q[1..]))[x];
        }
      }
    }
  }

  lemma {:induction false} CompletionKeepsAccounts(s: Store, j: nat)
    requires Shaped(s) && Accounted(s) && j <= |s.lanes|
    ensures var r := CompleteUpTo(s, j);
      Accounted(r) && r.totalCustomers == s.totalCustomers && s.totalCustomersServed <= r.totalCustomersServed
  {
    if j > 0 {
      CompletionKeepsAccounts(s, j - 1);
      var r := CompleteUpTo(s, j - 1);
      if r.lanes[j - 1] != [] && Done(r.remaining[j - 1]) {
        QueuedUpdate(r.lanes, j - 1, r.lanes[j - 1][1..]);
      }
    }
  }

  /** One minute: arrivals add to both the queues and the arrival count, the
      arrival count grows by the accepted candidates only, and served customers
      leave the queues. */
  lemma MinuteKeepsAccounts(s: Store, cs: seq<Candidate>, p: real)
    requires Shaped(s) && Accounted(s)
    ensures var r := Minute(s, cs, p);
      && Accounted(r)
      && r.totalCustomers == s.totalCustomers + |Accepted(cs, p)| <= s.totalCustomers + |cs|
      && s.totalCustomersServed <= r.totalCustomersServed
  {
    var n := |s.lanes|;
    CompletionKeepsAccounts(s, n);
    var c := CompleteUpTo(s, n);
    RouteQueued(c.lanes, Accepted(cs, p));
  }

  /** Over a run the served count never exceeds the arrivals. */
  lemma {:induction false} RunKeepsAccounts(s: Store, minutes: seq<seq<Candidate>>, p: real)
    requires Shaped(s) && Accounted(s)
    ensures var r := Run(s, minutes, p);
      Accounted(r) && 0 <= r.totalCustomersServed <= r.totalCustomers
  {
    if minutes != [] {
      RunKeepsAccounts(s, minutes[..|minutes| - 1], p);
      MinuteKeepsAccounts(Run(s, minutes[..|minutes| - 1], p), minutes[|minutes| - 1], p);
    }
  }

  /** A run starts with nothing queued, arrived or served. */
  lemma OpeningAccounted(n: nat, workers: int)
    requires n > 0
    ensures Accounted(Opening(n, workers))
  {
    QueuedEmpty(Opening(n, workers).lanes);
  }

  /** With arrival probability 1 and draws below 1, every candidate comes in. */
  lemma {:induction false} AcceptAllWhenCertain(cs: seq<Candidate>, p: real)
    requires p >= 1.0
    requires forall k :: 0 <= k < |cs| ==> cs[k].draw < 1.0
    ensures |Accepted(cs, p)| == |cs|
  {
    if cs != [] {
      AcceptAllWhenCertain(cs[..|cs| - 1], p);
    }
  }

  /** Positions of the candidates whose draw is within the arrival probability. */
  ghost function AcceptedPositions(cs: seq<Candidate>, p: real): set<nat>
  {
    set k: nat | k < |cs| && cs[k].draw <= p
  }

  /** One more candidate adds its own position exactly when it is accepted. */
  lemma AcceptedPositionsStep(cs: seq<Candidate>, p: real)
    requires cs != []
    ensures var n := |cs| - 1;
      && n !in AcceptedPositions(cs[..n], p)
      && AcceptedPositions(cs, p)
         == AcceptedPositions(cs[..n], p) + (if cs[n].draw <= p then {n} else {})
  {
    var n := |cs| - 1;
    forall k: nat | k < n ensures cs[..n][k] == cs[k] {}
  }

  /** Exactly one customer arrives per candidate whose draw is within the
      arrival probability. */
  lemma {:induction false} AcceptedCount(cs: seq<Candidate>, p: real)
    ensures |Accepted(cs, p)| == |AcceptedPositions(cs, p)|
  {
    if cs == [] {
      assert AcceptedPositions(cs, p) == {};
    } else {
      AcceptedCount(cs[..|cs| - 1], p);
      AcceptedPositionsStep(cs, p);
    }
  }
}
