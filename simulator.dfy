/** The self-checkout simulator: an object holding the lanes, the remaining-time
    table, the worker pool and the running totals, updated in place one minute
    at a time. Each state-changing step method (arrivals, completion,
    processing, accrual, a minute, a run) is proved to change the state exactly
    as the matching function of module Engine says. */
module Simulator {
  import opened Customers
  import opened Lanes
  import opened Engine
  import opened Reports
  import WorkerPool
  import Accounting

  /** Largest value of the source's 32-bit `int`. The arrival count of a minute
      is drawn below `maxCustPerMin + 1`, a bound that wraps to a negative
      value, and makes the draw throw, when `maxCustPerMin` is this value. */
  const IntMax: int := 0x7fff_ffff

  /** Why a configuration is refused, one reason per argument checked. */
  datatype ConfigError = NoCheckouts | ArrivalProbOutOfRange | NegativeWorkers | NegativeDuration

  datatype Outcome<E> = Pass | Fail(error: E)

  datatype Result<T, E> = Success(value: T) | Failure(error: E)

  /** The argument checks of the constructor, in the order it makes them; the
      maximum number of arrivals per minute is not checked. */
  function CheckArguments(numberOfCheckouts: int, arrivalProb: real, numWorkers: int, duration: int)
    : (r: Outcome<ConfigError>)
    ensures r == Pass <==> numberOfCheckouts > 0 && 0.0 < arrivalProb <= 1.0 && numWorkers >= 0 && duration >= 0
    ensures r == Fail(NoCheckouts) <==> numberOfCheckouts <= 0
    ensures r == Fail(ArrivalProbOutOfRange) <==> numberOfCheckouts > 0 && !(0.0 < arrivalProb <= 1.0)
    ensures r == Fail(NegativeWorkers) <==> numberOfCheckouts > 0 && 0.0 < arrivalProb <= 1.0 && numWorkers < 0
    ensures r == Fail(NegativeDuration)
        <==> numberOfCheckouts > 0 && 0.0 < arrivalProb <= 1.0 && numWorkers >= 0 && duration < 0
  {
    if numberOfCheckouts <= 0 then Fail(NoCheckouts)
    else if arrivalProb <= 0.0 || arrivalProb > 1.0 then Fail(ArrivalProbOutOfRange)
    else if numWorkers < 0 then Fail(NegativeWorkers)
    else if duration < 0 then Fail(NegativeDuration)
    else Pass
  }

  /** What every run promises at its end: the pool stays within its bounds and
      is conserved, the served count stays within the arrivals, and the report's
      efficiency and item costs are in range. */
  lemma RunGuarantees(n: nat, workers: int, minutes: seq<seq<Candidate>>, p: real, draw: nat -> real)
    requires n > 0 && workers >= 0
    requires forall i: nat :: 0.0 <= draw(i) < 1.0
    ensures var s := Run(Opening(n, workers), minutes, p);
      var r := Summarize(s, workers, |minutes|, ItemCost(draw, s.totalItems));
      && 0 <= s.numWorkers <= workers
      && s.numWorkers + WorkerPool.Held(s) == workers
      && 0 <= s.totalCustomersServed <= s.totalCustomers
      && 0.0 <= r.efficiency <= 100.0
      && 0.0 <= r.itemCost
  {
    var start := Opening(n, workers);
    WorkerPool.OpeningBalanced(n, workers);
    WorkerPool.RunKeepsPool(start, workers, minutes, p);
    Accounting.OpeningAccounted(n, workers);
    Accounting.RunKeepsAccounts(start, minutes, p);
    var s := Run(start, minutes, p);
    EfficiencyIsPercentage(s.totalCustomersServed, s.totalCustomers);
    ItemCostBounds(draw, s.totalItems);
  }

  /** Running one more minute extends a run by that minute. */
  lemma RunStep(s: Store, minutes: seq<seq<Candidate>>, k: nat, p: real)
    requires Shaped(s) && k < |minutes|
    ensures Run(s, minutes[..k + 1], p) == Minute(Run(s, minutes[..k], p), minutes[k], p)
  {
    assert minutes[..k + 1][..k] == minutes[..k];
  }

  class StoreSimulator {
    const lanes: array<seq<Customer>>
    var remaining: array<Time>
    const arrivalProb: real
    const duration: int
    const maxCustPerMin: int

    var gross: real
    var profit: real
    var totalCustomers: int
    var totalCustomersServed: int
    var totalWaitTime: real
    var averageWaitTime: real
    var totalItems: int
    var numWorkers: int
    var totalNumWorkers: int
    var totalItemCost: real

    ghost predicate Valid()
      reads this
    {
      lanes.Length > 0 && remaining.Length == lanes.Length && 0.0 < arrivalProb <= 1.0 && duration >= 0
    }

    /** The simulator's state as a value. */
    ghost function State(): Store
      reads this, lanes, remaining
    {
      Store(lanes[..], remaining[..], numWorkers, totalCustomers, totalCustomersServed,
            gross, totalItems, totalWaitTime)
    }

    /** As constructed: every lane empty, nobody arrived, no waiting accrued. */
    ghost predicate Initial()
      reads this, lanes
    {
      && (forall i :: 0 <= i < lanes.Length ==> lanes[i] == [])
      && totalCustomers == 0
      && totalWaitTime == 0.0
      && numWorkers >= 0
    }

    /** Every running total and report field still at its initial zero. */
    predicate Zeroed()
      reads this
    {
      && gross == 0.0 && profit == 0.0 && totalWaitTime == 0.0 && averageWaitTime == 0.0 && totalItemCost == 0.0
      && totalCustomers == 0 && totalCustomersServed == 0 && totalItems == 0 && totalNumWorkers == 0
    }

    constructor (numberOfCheckouts: int, arrivalProb: real, numWorkers: int, duration: int, maxCustPerMin: int)
      requires CheckArguments(numberOfCheckouts, arrivalProb, numWorkers, duration) == Pass
      ensures Valid() && Initial() && fresh(lanes) && fresh(remaining)
      ensures lanes.Length == numberOfCheckouts
      ensures this.arrivalProb == arrivalProb && this.duration == duration && this.maxCustPerMin == maxCustPerMin
      ensures this.numWorkers == numWorkers
      ensures Zeroed()
    {
      lanes := new seq<Customer>[numberOfCheckouts](_ => []);
      remaining := new Time[numberOfCheckouts](_ => Fin(0.0));
      this.arrivalProb := arrivalProb;
      this.numWorkers := numWorkers;
      this.duration := duration;
      this.maxCustPerMin := maxCustPerMin;
      gross, profit, totalWaitTime, averageWaitTime, totalItemCost := 0.0, 0.0, 0.0, 0.0, 0.0;
      totalCustomers, totalCustomersServed, totalItems, totalNumWorkers := 0, 0, 0, 0;
    }

    /** Construction with its error path: a refused configuration yields the
        reason instead of a simulator. */
    static method Create(numberOfCheckouts: int, arrivalProb: real, numWorkers: int, duration: int, maxCustPerMin: int)
      returns (r: Result<StoreSimulator, ConfigError>)
      ensures r.Failure? <==> CheckArguments(numberOfCheckouts, arrivalProb, numWorkers, duration) != Pass
      ensures r.Failure? ==> CheckArguments(numberOfCheckouts, arrivalProb, numWorkers, duration) == Fail(r.error)
      ensures r.Success? ==>
        && fresh(r.value) && fresh(r.value.lanes)
        && r.value.Valid() && r.value.Initial()
        && r.value.lanes.Length == numberOfCheckouts
        && r.value.numWorkers == numWorkers
        && r.value.maxCustPerMin == maxCustPerMin
        && r.value.arrivalProb == arrivalProb && r.value.duration == duration
        && r.value.Zeroed()
    {
      var check := CheckArguments(numberOfCheckouts, arrivalProb, numWorkers, duration);
      if check.Fail? {
        return Failure(check.error);
      }
      var s := new StoreSimulator(numberOfCheckouts, arrivalProb, numWorkers, duration, maxCustPerMin);
      return Success(s);
    }

    /** The lane an arrival joins: the first of the shortest lanes. */
    method LeastBusy() returns (k: nat)
      requires Valid()
      ensures IsFirstShortest(lanes[..], k)
    {
      k := 0;
      for j := 0 to lanes.Length
        invariant k < lanes.Length && k <= j
        invariant forall m :: 0 <= m < j ==> |lanes[k]| <= |lanes[m]|
        invariant forall m :: 0 <= m < k ==> |lanes[k]| < |lanes[m]|
      {
        if |lanes[j]| < |lanes[k]| {
          k := j;
        }
      }
    }

    /** One minute's arrivals. The candidates are the minute's random draws: how
        many there are is the draw bounded by `maxCustPerMin`, and each comes in
        when its own draw is at most the arrival probability. */
    method SimulateArrivals(candidates: seq<Candidate>)
      requires Valid() && |candidates| <= maxCustPerMin < IntMax
      modifies this`totalCustomers, lanes
      ensures Valid()
      ensures State() == Arrive(old(State()), Accepted(candidates, arrivalProb))
    {
      for i := 0 to |candidates|
        invariant Valid()
        invariant State() == Arrive(old(State()), Accepted(candidates[..i], arrivalProb))
      {
        ghost var before := lanes[..];
        ghost var accepted := Accepted(candidates[..i], arrivalProb);
        assert candidates[..i + 1][..i] == candidates[..i];
        if candidates[i].draw <= arrivalProb {
          var c := candidates[i].customer;
          var k := LeastBusy();
          FirstShortestUnique(lanes[..], k);
          lanes[k] := lanes[k] + [c];
          totalCustomers := totalCustomers + 1;
          assert (accepted + [c])[..|accepted|] == accepted;
          assert lanes[..] == Join(before, c);
        }
      }
      assert candidates[..|candidates|] == candidates;
    }

    /** Completion check of lane `index`. */
    method HandleCompletedCustomers(index: nat)
      requires Valid() && index < lanes.Length
      modifies this`totalCustomersServed, this`gross, this`totalItems, this`totalWaitTime, this`numWorkers
      modifies lanes, remaining
      ensures Valid()
      ensures State() == CompleteLane(old(State()), index)
    {
      var queue := lanes[index];
      if queue != [] && Done(remaining[index]) {
        var current := queue[0];
        totalCustomersServed := totalCustomersServed + 1;
        gross := gross + current.price;
        totalItems := totalItems + current.items;
        // the fix time is charged whether or not the customer had an issue
        totalWaitTime := totalWaitTime + TotalTimeSpent(current, InitTime, TimePerItem, FixTime, PaymentTime);
        if current.hasIssue {
          numWorkers := numWorkers + 1;
        }
        remaining[index] := Fin(0.0);
        lanes[index] := queue[1..];
      }
    }

    /** A worker is assigned to a customer with an issue. */
    method HandleIssue(customer: Customer) returns (delay: real)
      modifies this`numWorkers
      ensures delay == FixTime
      ensures numWorkers == old(numWorkers) - 1
    {
      delay := FixTime;
      numWorkers := numWorkers - 1;
    }

    /** Checkout processing of lane `index`. */
    method ProcessCheckout(index: nat)
      requires Valid() && index < lanes.Length
      modifies this`numWorkers, remaining
      ensures Valid()
      ensures State() == ProcessLane(old(State()), index)
    {
      var queue := lanes[index];
      if queue != [] {
        var current := queue[0];
        if remaining[index] == Fin(0.0) {
          var delay := 0.0;
          if current.hasIssue {
            if numWorkers > 0 {
              delay := HandleIssue(current);
              remaining[index] := Fin(TotalTimeSpent(current, InitTime, TimePerItem, delay, PaymentTime));
              // this decrement is overwritten by the assignment after the branches
              remaining[index] := Fin(remaining[index].minutes - 1.0);
            } else {
              remaining[index] := Inf;
              return;
            }
          } else {
            remaining[index] := Fin(TotalTimeSpent(current, InitTime, TimePerItem, delay, PaymentTime));
          }
          remaining[index] := Fin(TotalTimeSpent(current, InitTime, TimePerItem, delay, PaymentTime));
        }
        if remaining[index].Fin? && remaining[index].minutes > 0.0 {
          remaining[index] := Fin(remaining[index].minutes - 1.0);
        }
      }
    }

    /** Occupancy accrual: one minute of waiting per queued customer. */
    method AccumulateTotalTime()
      requires Valid()
      modifies this`totalWaitTime
      ensures Valid()
      ensures State() == Accumulate(old(State()))
    {
      for i := 0 to lanes.Length
        invariant totalWaitTime == old(totalWaitTime) + Queued(lanes[..i]) as real
      {
        var queue := lanes[i];
        var waitThisMinute := 0.0;
        for k := 0 to |queue|
          invariant waitThisMinute == k as real
        {
          waitThisMinute := waitThisMinute + 1.0;
        }
        assert lanes[..i + 1][..i] == lanes[..i];
        totalWaitTime := totalWaitTime + waitThisMinute;
      }
      assert lanes[..lanes.Length] == lanes[..];
    }

    /** The end-of-run figures. `draw(i)` is the random draw in [0, 1) that
        prices the i-th item sold. */
    method DisplayResults(draw: nat -> real) returns (r: Report)
      modifies this`totalItemCost, this`profit, this`averageWaitTime
      ensures r == Summarize(State(), totalNumWorkers, duration, ItemCost(draw, totalItems))
      ensures totalItemCost == r.itemCost && profit == r.profit && averageWaitTime == r.averageWait
    {
      totalItemCost := 0.0;
      profit := 0.0;
      if totalCustomers > 0 {
        averageWaitTime := totalWaitTime / totalCustomers as real;
      } else {
        averageWaitTime := 0.0;
      }
      var i := 0;
      while i < totalItems
        invariant 0 <= i && (i <= totalItems || i == 0)
        invariant totalItemCost == ItemCost(draw, i)
        invariant averageWaitTime == AverageWait(totalWaitTime, totalCustomers)
      {
        totalItemCost := totalItemCost + draw(i) * 5.0;
        i := i + 1;
      }
      var overheadCost := gross * OverheadCostPercentage;
      // served / arrived as a percentage; 0 / 0 is reported as 0
      var efficiency := if totalCustomers == 0 then 0.0
                        else (totalCustomersServed as real / totalCustomers as real) * 100.0;
      var totalWaitTimeHours := totalWaitTime / 60.0;
      var workerCosts := (totalNumWorkers as real * WorkerWage) * (duration as real / 60.0);
      profit := gross - workerCosts - totalItemCost - overheadCost;
      r := Report(gross, workerCosts, totalItemCost, overheadCost, profit, totalItems, totalCustomers,
                  totalCustomersServed, efficiency, totalWaitTimeHours, averageWaitTime);
    }

    /** The body of the minute loop: completions on every lane, the minute's
        arrivals, processing of every lane, then occupancy accrual. */
    method SimulateMinute(candidates: seq<Candidate>)
      requires Valid() && |candidates| <= maxCustPerMin < IntMax
      modifies this`totalCustomersServed, this`gross, this`totalItems, this`totalWaitTime, this`numWorkers
      modifies this`totalCustomers, lanes, remaining
      ensures Valid()
      ensures State() == Minute(old(State()), candidates, arrivalProb)
    {
      for j := 0 to lanes.Length
        invariant Valid()
        invariant State() == CompleteUpTo(old(State()), j)
      {
        HandleCompletedCustomers(j);
      }
      SimulateArrivals(candidates);
      ghost var arrived := State();
      for j := 0 to lanes.Length
        invariant Valid()
        invariant State() == ProcessUpTo(arrived, j)
      {
        ProcessCheckout(j);
      }
      AccumulateTotalTime();
    }

    /** The minute loop: `minutes[i]` holds minute i+1's arrival candidates. */
    method SimulateMinutes(minutes: seq<seq<Candidate>>)
      requires Valid()
      requires forall m :: m in minutes ==> |m| <= maxCustPerMin
      requires minutes != [] ==> maxCustPerMin < IntMax
      modifies this`totalCustomersServed, this`gross, this`totalItems, this`totalWaitTime, this`numWorkers
      modifies this`totalCustomers, lanes, remaining
      ensures Valid()
      ensures State() == Run(old(State()), minutes, arrivalProb)
    {
      for i := 0 to |minutes|
        invariant Valid()
        invariant State() == Run(old(State()), minutes[..i], arrivalProb)
      {
        SimulateMinute(minutes[i]);
        RunStep(old(State()), minutes, i, arrivalProb);
      }
      assert minutes[..|minutes|] == minutes;
    }

    /** One run of `duration` minutes followed by the report. `minutes[i]` holds
        minute i+1's arrival candidates. */
    method Simulate(minutes: seq<seq<Candidate>>, draw: nat -> real) returns (report: Report)
      requires Valid() && Initial()
      requires |minutes| == duration
      requires forall m :: m in minutes ==> |m| <= maxCustPerMin
      requires duration > 0 ==> maxCustPerMin < IntMax
      requires forall i: nat :: 0.0 <= draw(i) < 1.0
      modifies this, lanes
      ensures Valid() && fresh(remaining)
      ensures totalNumWorkers == old(numWorkers)
      ensures State() == Run(Opening(lanes.Length, totalNumWorkers), minutes, arrivalProb)
      ensures 0 <= numWorkers <= totalNumWorkers
      ensures numWorkers + WorkerPool.Held(State()) == totalNumWorkers
      ensures 0 <= totalCustomersServed <= totalCustomers
      ensures report == Summarize(State(), totalNumWorkers, duration, ItemCost(draw, totalItems))
      ensures 0.0 <= report.efficiency <= 100.0
      ensures 0.0 <= report.itemCost
    {
      gross := 0.0;
      totalCustomersServed := 0;
      totalItems := 0;
      averageWaitTime := 0.0;
      totalNumWorkers := numWorkers;
      remaining := new Time[lanes.Length](_ => Fin(0.0));
      ghost var start := Opening(lanes.Length, totalNumWorkers);
      assert State() == start by {
        assert lanes[..] == start.lanes;
        assert remaining[..] == start.remaining;
      }

      SimulateMinutes(minutes);
      ghost var final := State();
      RunGuarantees(lanes.Length, totalNumWorkers, minutes, arrivalProb, draw);
      report := DisplayResults(draw);
      assert State() == final;
    }
  }
}
