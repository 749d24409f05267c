/** The end-of-run report: figures derived from the running totals only. */
module Reports {
  import opened Engine

  /** Hourly wage of a worker, and overhead as a share of gross. */
  const WorkerWage: real := 16.5
  const OverheadCostPercentage: real := 0.3

  datatype Report = Report(
    gross: real,
    workerCosts: real,
    itemCost: real,
    overheadCost: real,
    profit: real,
    itemsSold: int,
    customers: int,
    served: int,
    efficiency: real,
    waitHours: real,
    averageWait: real)

  /** Waiting minutes per arrived customer; zero when nobody arrived. */
  function AverageWait(totalWaitTime: real, totalCustomers: int): real
  {
    if totalCustomers > 0 then totalWaitTime / totalCustomers as real else 0.0
  }

  /** Percentage of arrived customers served; the undefined 0/0 is reported as 0. */
  function Efficiency(served: int, customers: int): real
  {
    if customers == 0 then 0.0 else (served as real / customers as real) * 100.0
  }

  /** Wages of every worker the run started with, for the whole duration. */
  function WorkerCosts(totalNumWorkers: int, duration: int): real
  {
    (totalNumWorkers as real * WorkerWage) * (duration as real / 60.0)
  }

  /** Wholesale cost of the items sold: each of the first `n` draws in [0, 1)
      scaled to a cost in [0, 5). */
  function ItemCost(draw: nat -> real, n: int): real
  {
    if n <= 0 then 0.0 else ItemCost(draw, n - 1) + draw(n - 1) * 5.0
  }

  function Summarize(s: Store, totalNumWorkers: int, duration: int, itemCost: real): Report
  {
    var overhead := s.gross * OverheadCostPercentage;
    var workers := WorkerCosts(totalNumWorkers, duration);
    Report(
      s.gross,
      workers,
      itemCost,
      overhead,
      s.gross - workers - itemCost - overhead,
      s.totalItems,
      s.totalCustomers,
      s.totalCustomersServed,
      Efficiency(s.totalCustomersServed, s.totalCustomers),
      s.totalWaitTime / 60.0,
      AverageWait(s.totalWaitTime, s.totalCustomers))
  }

  /** Efficiency is a percentage: 0 exactly when nobody was served (in
      particular when nobody arrived), 100 exactly when everyone who arrived
      was served. */
  lemma EfficiencyIsPercentage(served: int, customers: int)
    requires 0 <= served <= customers
    ensures 0.0 <= Efficiency(served, customers) <= 100.0
    ensures Efficiency(served, customers) == 0.0 <==> served == 0
    ensures Efficiency(served, customers) == 100.0 <==> 0 < served == customers
  {
    if customers > 0 {
      var q := served as real / customers as real;
      assert q * customers as real == served as real;
    }
  }

  /** Item costs lie in [0, 5) per item sold. */
  lemma {:induction false} ItemCostBounds(draw: nat -> real, n: int)
    requires forall i: nat :: 0.0 <= draw(i) < 1.0
    ensures 0.0 <= ItemCost(draw, n)
    ensures n > 0 ==> ItemCost(draw, n) < 5.0 * n as real
  {
    if n > 0 {
      ItemCostBounds(draw, n - 1);
    }
  }

  /** The report's ledger: profit is what gross leaves after wages, item costs
      and an overhead of 30% of gross; wages are paid for every worker the run
      started with, at 16.5 an hour. */
  lemma ReportLedger(s: Store, totalNumWorkers: int, duration: int, itemCost: real)
    ensures var r := Summarize(s, totalNumWorkers, duration, itemCost);
      && r.overheadCost == 0.3 * s.gross
      && r.workerCosts * 60.0 == 16.5 * totalNumWorkers as real * duration as real
      && r.profit + r.workerCosts + r.itemCost + r.overheadCost == s.gross
      && r.itemCost == itemCost
  {
  }

  /** Nobody arrived: average wait and efficiency are zero, not undefined. */
  lemma NoCustomersNoRatios(s: Store, totalNumWorkers: int, duration: int, itemCost: real)
    requires s.totalCustomers == 0
    ensures Summarize(s, totalNumWorkers, duration, itemCost).averageWait == 0.0
    ensures Summarize(s, totalNumWorkers, duration, itemCost).efficiency == 0.0
  {
  }

  /** A run of zero minutes reports zero for every figure. */
  lemma ZeroDurationReport(n: nat, workers: int, draw: nat -> real)
    requires n > 0
    ensures Summarize(Run(Opening(n, workers), [], 1.0), workers, 0, ItemCost(draw, 0))
         == Report(0.0, 0.0, 0.0, 0.0, 0.0, 0, 0, 0, 0.0, 0.0, 0.0)
  {
  }
}
