/** Concrete one-minute runs on a single lane with one arriving customer. */
module Scenarios {
  import opened Customers
  import opened Lanes
  import opened Engine
  import Stalls

  /** The first minute of a one-lane run in which customer `c` arrives with a
      draw of 0 and arrival probability 1. */
  function FirstMinute(workers: int, c: Customer): Store
  {
    Run(Opening(1, workers), [[Candidate(0.0, c)]], 1.0)
  }

  /** The store right after the arrival phase of that minute: the customer is
      queued at lane 0, its service has not started and nothing is served. */
  lemma FirstMinuteArrival(workers: int, c: Customer)
    ensures Arrive(CompleteUpTo(Opening(1, workers), 1), Accepted([Candidate(0.0, c)], 1.0))
         == Store([[c]], [Fin(0.0)], workers, 1, 0, 0.0, 0, 0.0)
  {
    var s := Opening(1, workers);
    assert s == Store([[]], [Fin(0.0)], workers, 0, 0, 0.0, 0, 0.0);
    assert CompleteUpTo(s, 0) == s;
    assert CompleteUpTo(s, 1) == s;
    var cs := [Candidate(0.0, c)];
    assert cs[..0] == [];
    assert Accepted(cs, 1.0) == [c];
    assert [c][..0] == [];
    assert Route(s.lanes, []) == [[]];
    assert FirstShortest([[]]) == 0;
    assert Join([[]], c) == [[c]];
    assert Route(s.lanes, [c]) == [[c]];
  }

  /** The whole first minute, given its store after arrivals. */
  lemma FirstMinuteSteps(workers: int, c: Customer)
    ensures var a := Store([[c]], [Fin(0.0)], workers, 1, 0, 0.0, 0, 0.0);
      FirstMinute(workers, c) == Accumulate(ProcessLane(a, 0))
  {
    FirstMinuteArrival(workers, c);
    var ms := [[Candidate(0.0, c)]];
    assert ms[..0] == [];
    var s := Opening(1, workers);
    assert Run(s, ms[..0], 1.0) == s;
    var a := Store([[c]], [Fin(0.0)], workers, 1, 0, 0.0, 0, 0.0);
    assert ProcessUpTo(a, 1) == ProcessLane(ProcessUpTo(a, 0), 0);
  }

  /** No issue: the customer is one minute into its service, nobody is served. */
  lemma PlainCustomerStartsService(workers: int, c: Customer)
    requires !c.hasIssue
    ensures var r := FirstMinute(workers, c);
      && r.lanes == [[c]]
      && r.remaining == [Fin(PlainServiceTime(c) - 1.0)]
      && r.numWorkers == workers
      && r.totalCustomers == 1 && r.totalCustomersServed == 0
      && r.totalWaitTime == 1.0
  {
    FirstMinuteSteps(workers, c);
    var a := Store([[c]], [Fin(0.0)], workers, 1, 0, 0.0, 0, 0.0);
    assert StartService(a, 0) == a.(remaining := [Fin(PlainServiceTime(c))]);
    assert ProcessLane(a, 0) == a.(remaining := [Fin(PlainServiceTime(c) - 1.0)]);
    assert Queued([[c]]) == 1 by { assert [[c]][..0] == []; }
  }

  /** An issue and one free worker: the worker is taken and the customer is one
      minute into the longer service. */
  lemma IssueCustomerTakesWorker(c: Customer)
    requires c.hasIssue
    ensures var r := FirstMinute(1, c);
      && r.lanes == [[c]]
      && r.remaining == [Fin(AssistedServiceTime(c) - 1.0)]
      && r.numWorkers == 0
      && r.totalCustomers == 1 && r.totalCustomersServed == 0
      && r.totalWaitTime == 1.0
  {
    FirstMinuteSteps(1, c);
    var a := Store([[c]], [Fin(0.0)], 1, 1, 0, 0.0, 0, 0.0);
    assert StartService(a, 0) == a.(numWorkers := 0, remaining := [Fin(AssistedServiceTime(c))]);
    assert ProcessLane(a, 0) == a.(numWorkers := 0, remaining := [Fin(AssistedServiceTime(c) - 1.0)]);
    assert Queued([[c]]) == 1 by { assert [[c]][..0] == []; }
  }

  /** An issue and no free worker: the lane stalls, and for every later
      sequence of minutes it stays stalled with the customer at its head. */
  lemma IssueCustomerStallsForever(c: Customer, later: seq<seq<Candidate>>)
    requires c.hasIssue
    ensures FirstMinute(0, c).remaining == [Inf]
    ensures var r := Run(FirstMinute(0, c), later, 1.0);
      r.remaining[0] == Inf && r.lanes[0] != [] && r.lanes[0][0] == c
  {
    FirstMinuteSteps(0, c);
    var a := Store([[c]], [Fin(0.0)], 0, 1, 0, 0.0, 0, 0.0);
    assert ProcessLane(a, 0) == a.(remaining := [Inf]);
    var s := FirstMinute(0, c);
    assert s.lanes == [[c]] && s.remaining == [Inf];
    Stalls.StallIsPermanent(s, later, 1.0, 0);
  }
}
