/** One simulated minute as a function on values. The simulator class proves
    that each of its state-changing step methods (arrivals, completion,
    processing, accrual, a minute, a run) changes its state exactly as these
    functions say;
    the lemmas in the other modules state what the functions keep invariant. */
module Engine {
  import opened Customers
  import opened Lanes

  /** What is left of the head customer's service, in minutes; `Inf` marks a
      lane stalled on an issue that no worker was free to fix. */
  datatype Time = Fin(minutes: real) | Inf

  /** A lane whose head has this much time left or less is finished. */
  const Tolerance: real := 0.001

  predicate Done(t: Time)
  {
    t.Fin? && t.minutes <= Tolerance
  }

  /** Everything the simulator updates while it runs: the lanes, the table of
      remaining service times, the pool of free workers and the running totals. */
  datatype Store = Store(
    lanes: seq<seq<Customer>>,
    remaining: seq<Time>,
    numWorkers: int,
    totalCustomers: int,
    totalCustomersServed: int,
    gross: real,
    totalItems: int,
    totalWaitTime: real)

  /** At least one lane, and one remaining-time entry per lane. */
  predicate Shaped(s: Store)
  {
    s.lanes != [] && |s.lanes| == |s.remaining|
  }

  /** The state a run starts from: empty lanes, all entries zero, every worker
      free and all totals zero. */
  function Opening(n: nat, workers: int): (s: Store)
    requires n > 0
    ensures Shaped(s) && |s.lanes| == n
  {
    Store(seq(n, _ => []), seq(n, _ => Fin(0.0)), workers, 0, 0, 0.0, 0, 0.0)
  }

  /** Completion check of lane `i`: a head whose time is up is served, credited
      to the totals (its wait is charged with the fix time whether or not it had
      an issue), dequeued, and gives a worker back if it had an issue. */
  function CompleteLane(s: Store, i: nat): (r: Store)
    requires Shaped(s) && i < |s.lanes|
    ensures Shaped(r) && |r.lanes| == |s.lanes|
  {
    if s.lanes[i] != [] && Done(s.remaining[i]) then
      var c := s.lanes[i][0];
      s.(lanes := s.lanes[i := s.lanes[i][1..]],
         remaining := s.remaining[i := Fin(0.0)],
         numWorkers := if c.hasIssue then s.numWorkers + 1 else s.numWorkers,
         totalCustomersServed := s.totalCustomersServed + 1,
         gross := s.gross + c.price,
         totalItems := s.totalItems + c.items,
         totalWaitTime := s.totalWaitTime + TotalTimeSpent(c, InitTime, TimePerItem, FixTime, PaymentTime))
    else s
  }

  /** The completion check run on lanes 0 .. n-1 in index order. */
  function CompleteUpTo(s: Store, n: nat): (r: Store)
    requires Shaped(s) && n <= |s.lanes|
    ensures Shaped(r) && |r.lanes| == |s.lanes|
  {
    if n == 0 then s else CompleteLane(CompleteUpTo(s, n - 1), n - 1)
  }

  /** An arrival candidate: the uniform draw that decides whether it comes in,
      and the customer it becomes if it does. */
  datatype Candidate = Candidate(draw: real, customer: Customer)

  /** The candidates whose draw is at most the arrival probability, in order. */
  function Accepted(cs: seq<Candidate>, p: real): (r: seq<Customer>)
    ensures |r| <= |cs|
    ensures forall c :: c in r ==> exists k :: 0 <= k < |cs| && cs[k].draw <= p && cs[k].customer == c
    ensures forall k :: 0 <= k < |cs| && cs[k].draw <= p ==> cs[k].customer in r
  {
    if cs == [] then []
    else
      var last := cs[|cs| - 1];
      var r := Accepted(cs[..|cs| - 1], p);
      assert forall k :: 0 <= k < |cs| - 1 ==> cs[..|cs| - 1][k] == cs[k];
      if last.draw <= p then r + [last.customer] else r
  }

  /** Arrivals of one minute: each joins the first shortest lane and is counted. */
  function Arrive(s: Store, arrivals: seq<Customer>): (r: Store)
    requires Shaped(s)
    ensures Shaped(r) && |r.lanes| == |s.lanes|
  {
    s.(lanes := Route(s.lanes, arrivals), totalCustomers := s.totalCustomers + |arrivals|)
  }

  /** Service start of lane `i`'s head when its entry is zero: an issue takes a
      worker and adds the fix time (the caller has checked that one is free). */
  function StartService(s: Store, i: nat): (r: Store)
    requires Shaped(s) && i < |s.lanes| && s.lanes[i] != []
    ensures r.lanes == s.lanes && |r.remaining| == |s.remaining|
    ensures r == s.(numWorkers := r.numWorkers, remaining := r.remaining)
  {
    var c := s.lanes[i][0];
    if c.hasIssue then
      s.(numWorkers := s.numWorkers - 1, remaining := s.remaining[i := Fin(AssistedServiceTime(c))])
    else
      s.(remaining := s.remaining[i := Fin(PlainServiceTime(c))])
  }

  /** One minute of progress for a lane in service: a finite positive entry
      loses one minute; zero, negative and infinite entries stay. */
  function CountDown(s: Store, i: nat): (r: Store)
    requires i < |s.remaining|
    ensures r.lanes == s.lanes && |r.remaining| == |s.remaining|
    ensures r == s.(remaining := r.remaining)
  {
    match s.remaining[i]
    case Fin(t) => if t > 0.0 then s.(remaining := s.remaining[i := Fin(t - 1.0)]) else s
    case Inf => s
  }

  /** Checkout processing of lane `i`: an empty lane is skipped; a head whose
      entry is zero either stalls (issue, no free worker: the entry becomes
      `Inf` and nothing else happens) or starts service; then a lane in service
      counts down. */
  function ProcessLane(s: Store, i: nat): (r: Store)
    requires Shaped(s) && i < |s.lanes|
    ensures r.lanes == s.lanes && |r.remaining| == |s.remaining|
    ensures r == s.(numWorkers := r.numWorkers, remaining := r.remaining)
  {
    if s.lanes[i] == [] then s
    else if s.remaining[i] == Fin(0.0) && s.lanes[i][0].hasIssue && s.numWorkers <= 0 then
      s.(remaining := s.remaining[i := Inf])
    else
      CountDown(if s.remaining[i] == Fin(0.0) then StartService(s, i) else s, i)
  }

  /** Checkout processing of lanes 0 .. n-1 in index order. */
  function ProcessUpTo(s: Store, n: nat): (r: Store)
    requires Shaped(s) && n <= |s.lanes|
    ensures r.lanes == s.lanes && |r.remaining| == |s.remaining|
    ensures r == s.(numWorkers := r.numWorkers, remaining := r.remaining)
  {
    if n == 0 then s else ProcessLane(ProcessUpTo(s, n - 1), n - 1)
  }

  /** Occupancy accrual: every queued customer adds one minute of waiting. */
  function Accumulate(s: Store): (r: Store)
    ensures r.totalWaitTime == s.totalWaitTime + Queued(s.lanes) as real
    ensures r.(totalWaitTime := s.totalWaitTime) == s
  {
    s.(totalWaitTime := s.totalWaitTime + Queued(s.lanes) as real)
  }

  /** One minute: completions, then arrivals, then processing, then accrual. */
  function Minute(s: Store, cs: seq<Candidate>, p: real): (r: Store)
    requires Shaped(s)
    ensures Shaped(r) && |r.lanes| == |s.lanes|
  {
    var n := |s.lanes|;
    Accumulate(ProcessUpTo(Arrive(CompleteUpTo(s, n), Accepted(cs, p)), n))
  }

  /** A run: one minute per element of `minutes`, in order. */
  function Run(s: Store, minutes: seq<seq<Candidate>>, p: real): (r: Store)
    requires Shaped(s)
    ensures Shaped(r) && |r.lanes| == |s.lanes|
  {
    if minutes == [] then s
    else Minute(Run(s, minutes[..|minutes| - 1], p), minutes[|minutes| - 1], p)
  }
}
