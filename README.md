# Store self-checkout simulator, modelled in Dafny

This project models the per-minute core of `StoreSimulator`, a discrete-time
simulation of a bank of self-checkout lanes.

Each minute of the simulation does four things in a fixed order:

1. every lane whose head customer has finished is emptied of that customer;
2. up to `maxCustPerMin` candidates arrive, and each one accepted by the
   arrival probability joins the first of the shortest lanes;
3. every lane makes one minute of progress, starting a service when its head
   has not started yet and taking a worker from the pool for a customer with
   an issue (or stalling the lane when no worker is free);
4. every queued customer adds one minute to the aggregate wait.

At the end, a report derives gross, costs, profit, efficiency and wait figures
from the running totals.

The model has two layers:

- **Specification functions** (module `Engine`). A `Store` value holds the lanes, the
  remaining-time table, the free-worker count and the running totals. There is
  one function per step: `CompleteLane`, `Arrive`, `ProcessLane`,
  `Accumulate`, `Minute` and `Run`. The lemmas in `Lanes`, `Accounting`,
  `WorkerPool`, `Stalls`, `Reports` and `Scenarios` state what these
  functions mean.
- **The simulator object** (class `Simulator.StoreSimulator`). It keeps the source's
  fields and an array of lanes, and updates them in place. Each
  state-changing step method (arrivals, completion, processing, accrual, a
  minute, a run) is proved to change the state exactly as the matching
  `Engine` function does (`State() == F(old(State()))`). `Simulate` thereby inherits every lemma
  proved about `Run`: worker conservation, served within arrived, and
  efficiency as a percentage.

Conventions:

- Times are exact `real` minutes, using the source's constants:
  - 0.5 to start a session;
  - 0.1 per item;
  - 2 to fix an issue;
  - 1 to pay;
  - a wage of 16.5 per hour;
  - 30 % overhead.
- A lane's remaining time is `Fin(t)` or `Inf`. `Inf` stands for the
  `Double.POSITIVE_INFINITY` that marks a stalled lane.
- Random choices are inputs:
  - each minute is a sequence of at most `maxCustPerMin` candidates, each a
    draw paired with the customer it would create. The source's draws lie
    in [0, 1), but the model does not restrict them: a candidate arrives
    exactly when its draw is at most the arrival probability, whatever the
    draw is;
  - the item-cost draws of the report are a function `nat -> real` with
    values in [0, 1).

Where the documentation and the code disagree, the model follows the code:

- **Stalls are permanent.** The comment on `processCheckout`
  (StoreSimulator.java:144-145) says progress halts *until a worker is free*.
  In the code, a lane whose remaining time is infinite never completes, since
  `Inf > 0.001`. It is also never started again, since `Inf != 0`. So the
  lane stays stalled even after other lanes return workers to the pool.
  `Stalls.StallIsPermanent` proves this, and `Scenarios.IssueCustomerStallsForever`
  shows it on a concrete run.
- **Occupancy counts every queued customer.** The wait accrued each minute
  counts every customer in every lane, not only the ones at a self-checkout
  (StoreSimulator.java:219-223).
- **Remaining time can end a minute below zero.** For example, with three
  items and no issue: 1.8 becomes 0.8, then −0.2. Completion uses
  `<= 0.001`, so such a customer still leaves on the next minute.
- **Completion always charges the fix time.** The wait total of a served
  customer is `totalTimeSpent(INIT, PER_ITEM, FIX_TIME, PAYMENT)` whether or not the
  customer had an issue (StoreSimulator.java:126-127).
- **The decrement at StoreSimulator.java:165 has no effect.** Line 177
  overwrites it, so a served customer with an issue is counted down once per
  minute, like any other.

## Model

| member | source | states |
|---|---|---|
| Customers.PlainServiceTime | StoreSimulator.java:173-178 | a customer without an issue needs at least the start and payment times |
| Customers.AssistedServiceTime | StoreSimulator.java:157-178 | a customer whose issue a worker fixes needs exactly the fix time more than the plain service time |
| Lanes.FirstShortest | StoreSimulator.java:93-99 | the lane chosen is a shortest lane and no earlier lane is as short (first minimum) |
| Lanes.FirstShortestUnique | StoreSimulator.java:93-99 | the first-shortest lane is unique, so the choice is fully determined |
| Lanes.JoinTargetsFirstShortest | StoreSimulator.java:93-101 | an arrival is appended to the first shortest lane and every other lane is unchanged |
| Lanes.RouteQueued | StoreSimulator.java:89-102 | routing k arrivals raises the number of queued customers by exactly k |
| Lanes.RouteAppends | StoreSimulator.java:89-101 | routing only appends: every lane's old queue is a prefix of its new queue |
| Lanes.RouteKeepsEven | StoreSimulator.java:93-101 | if lane lengths differ by at most one, they still do after routing |
| Lanes.JoinKeepsCustomers | StoreSimulator.java:93-101 | one arrival adds exactly that customer to the queued customers |
| Lanes.RouteKeepsCustomers | StoreSimulator.java:89-102 | routing loses and invents nobody: the customers queued afterwards are those queued before plus the arrivals (as multisets) |
| Lanes.QueuedIsWaitingSize | StoreSimulator.java:214-226 | the count accrued per minute is the number of customers queued in some lane |
| Engine.Accepted | StoreSimulator.java:87-91 | a candidate's customer arrives if and only if its draw is within the arrival probability, and at most one customer arrives per candidate |
| Accounting.AcceptedCount | StoreSimulator.java:89-102 | exactly as many customers arrive as there are candidates whose draw is within the arrival probability |
| Accounting.CompletionServesHead | StoreSimulator.java:119-137 | a completion serves a customer iff the lane has a head whose remaining time is at most 0.001 (negative times included), and otherwise changes nothing; the customer served is that head and nobody else leaves the queues; served, items and gross grow by that customer alone; its wait is charged the assisted time (fix time included, issue or not); the lane's entry is reset to 0; arrivals are untouched; and a worker returns iff the customer had an issue |
| Accounting.CompletionKeepsAccounts | StoreSimulator.java:308-310 | the completion pass keeps served + queued = arrived and never lowers the served count |
| Accounting.MinuteKeepsAccounts | StoreSimulator.java:305-321 | a minute keeps served + queued = arrived, adds the accepted arrivals (at most the candidates) to the total, and never lowers the served count |
| Accounting.RunKeepsAccounts | StoreSimulator.java:296-321 | over any run, served + queued = arrived and 0 <= served <= arrived |
| Accounting.OpeningAccounted | StoreSimulator.java:71-79 | a freshly built store satisfies the accounting invariant |
| Accounting.AcceptAllWhenCertain | StoreSimulator.java:89-90 | with arrival probability 1, every candidate with a draw below 1 arrives |
| Stalls.ProcessLaneCases | StoreSimulator.java:151-192 | one minute at a lane: a plain start runs plain time − 1; an issue with a free worker takes a worker and runs assisted time − 1; an issue with no worker stalls the lane; a positive finite time counts down by 1; a stalled lane or one with negative time is unchanged |
| Stalls.StallNeedsIssueAndEmptyPool | StoreSimulator.java:154-171 | a lane stalls only when its head has not started (time exactly 0), has an issue, and no worker is free |
| Stalls.StallSurvivesCompletion | StoreSimulator.java:119-122 | a stalled lane's head is never dequeued and its time stays infinite |
| Stalls.StallSurvivesProcessing | StoreSimulator.java:181-190 | processing leaves a stalled lane stalled |
| Stalls.StallIsPermanent | StoreSimulator.java:166-171 | once stalled, a lane stays stalled for every later minute and only grows at its tail |
| WorkerPool.CompleteLaneMovesOneWorker | StoreSimulator.java:129-133 | completing a lane returns exactly the worker its head held, and leaves an idle lane with time 0 |
| WorkerPool.CompletionKeepsPool | StoreSimulator.java:308-310 | during the completion pass, free workers plus workers held by lanes stay equal to the pool size |
| WorkerPool.ArrivalKeepsPool | StoreSimulator.java:86-108 | arrivals move no worker, and queued newcomers hold none |
| WorkerPool.ProcessLaneMovesOneWorker | StoreSimulator.java:154-178 | processing a lane takes exactly the worker its head now holds and never drives the free count below zero |
| WorkerPool.ProcessingKeepsPool | StoreSimulator.java:314-316 | during the processing pass, free plus held workers stay equal to the pool size |
| WorkerPool.MinuteKeepsPool | StoreSimulator.java:305-321 | a whole minute preserves the pool invariant |
| WorkerPool.RunKeepsPool | StoreSimulator.java:296-321 | over any run, free plus held workers equal the pool size and 0 <= free <= pool size |
| WorkerPool.OpeningBalanced | StoreSimulator.java:301-303 | at the start all workers are free and no lane holds one |
| Reports.EfficiencyIsPercentage | StoreSimulator.java:265-269 | efficiency lies in [0, 100]; it is 0 iff nobody was served and 100 iff everyone who arrived was served |
| Reports.ItemCostBounds | StoreSimulator.java:260-262 | item cost is non-negative and below 5 per item sold |
| Reports.ReportLedger | StoreSimulator.java:264-273 | overhead is 30 % of gross, wages are 16.5 per worker-hour, and profit + wages + item cost + overhead = gross |
| Reports.NoCustomersNoRatios | StoreSimulator.java:254-269 | with no arrivals, average wait and efficiency are 0 rather than undefined |
| Reports.ZeroDurationReport | StoreSimulator.java:296-322 | a run of zero minutes reports zero for every figure |
| Simulator.CheckArguments | StoreSimulator.java:55-69 | each configuration error is reported iff its check is the first to fail; the configuration passes iff all four checks hold |
| Simulator.RunGuarantees | StoreSimulator.java:296-322 | every run from a fresh store keeps 0 <= free <= pool, conserves workers, keeps served within arrived, and reports efficiency in [0, 100] and non-negative item cost |
| Simulator.StoreSimulator.constructor | StoreSimulator.java:52-80 | an accepted configuration yields the requested number of empty lanes, the given parameters, and every running total and report field at zero |
| Simulator.StoreSimulator.Create | StoreSimulator.java:52-80 | construction fails iff an argument check fails, and it reports that check's error; otherwise the simulator is fresh and valid, with the given parameters and every total at zero |
| Simulator.StoreSimulator.LeastBusy | StoreSimulator.java:93-99 | the loop finds the first shortest lane |
| Simulator.StoreSimulator.SimulateArrivals | StoreSimulator.java:86-108 | when the arrival bound does not overflow, the state afterwards is the arrival step applied to the accepted candidates |
| Simulator.StoreSimulator.HandleCompletedCustomers | StoreSimulator.java:119-138 | the state afterwards is the completion step for that lane |
| Simulator.StoreSimulator.HandleIssue | StoreSimulator.java:202-206 | takes one worker from the pool and yields the fix time as the delay |
| Simulator.StoreSimulator.ProcessCheckout | StoreSimulator.java:151-192 | the state afterwards is one minute of progress at that lane, including the overwritten decrement and the early return on a stall |
| Simulator.StoreSimulator.AccumulateTotalTime | StoreSimulator.java:214-226 | the nested loops add one minute per queued customer to the wait total and change nothing else |
| Simulator.StoreSimulator.DisplayResults | StoreSimulator.java:251-288 | the report and the profit, item-cost and average-wait fields are those the totals determine |
| Simulator.StoreSimulator.SimulateMinute | StoreSimulator.java:305-321 | one loop iteration applies exactly one minute step |
| Simulator.StoreSimulator.SimulateMinutes | StoreSimulator.java:305-321 | the loop applies the run of all the given minutes |
| Simulator.StoreSimulator.Simulate | StoreSimulator.java:296-323 | a run from the constructed state ends in the `Run` of the minutes, with workers conserved and within bounds, served within arrived, and a report whose efficiency is in [0, 100] |
| Scenarios.PlainCustomerStartsService | StoreSimulator.java:305-321 | one customer without an issue arriving in the first minute starts service at once and ends the minute with the plain time less one minute left; nobody is served yet, and one minute of wait accrues |
| Scenarios.IssueCustomerTakesWorker | StoreSimulator.java:154-165 | one customer with an issue and one free worker takes the worker and runs the assisted time less one minute |
| Scenarios.IssueCustomerStallsForever | StoreSimulator.java:166-171 | one customer with an issue and no worker stalls the lane, and it stays stalled with that customer at its head forever |

## Left out

- `main`, the `Scanner` dialogue, all console output, `checkoutStatus` and
  the `%.2f` formatting are not modelled. They only print.
- `java.util.Random` is not modelled. Its draws are inputs: per-minute
  candidates and the item-cost draw function. The number of candidates is
  bounded by `maxCustPerMin`, but its distribution is not modelled.
- Doubles are exact reals. IEEE rounding is not modelled. Neither is the
  effect of the 0.001 tolerance on rounded values: on exact values, it
  accepts the same reachable times as `<= 0`.
- The `Customer` and `Checkout` classes are not part of this model:
  - a customer is a value whose number, item count, price and issue flag come
    with the input;
  - `totalTimeSpent` is taken to be start + per-item × items + delay +
    payment;
  - a checkout is a sequence of customers with peek, enqueue and dequeue, and
    its null entries are not modelled.
- The `remainingTime` array is local to `simulate` in the source. Here it is
  the field `remaining`, freshly allocated by `Simulate`, so that contracts
  can name it.
- Simulator.StoreSimulator.Simulate models a single run on a freshly constructed simulator. The
  source does not reset `totalCustomers`, `totalWaitTime` or the worker
  count, so calling `simulate` twice is not modelled.
- Simulator.StoreSimulator.SimulateArrivals requires at most `maxCustPerMin` candidates and
  `maxCustPerMin < 2147483647`. The source throws from `nextInt` in both
  excluded cases: a negative `maxCustPerMin` gives a bound of zero or below,
  and `Integer.MAX_VALUE` makes `maxCustPerMin + 1` wrap to a negative bound
  (StoreSimulator.java:87). Neither exception is modelled. For the same
  reason, `SimulateMinute`, `SimulateMinutes` and `Simulate` require the bound
  whenever at least one minute is run.
- Simulator.StoreSimulator.Simulate returns a report for every `duration` the
  constructor accepts. In the source, with `duration == 2147483647`, the
  minute counter at StoreSimulator.java:305 wraps to a negative value after
  the last minute, so `i <= duration` stays true and the loop never ends. Such
  a run never reaches `displayResults`. This non-termination is not
  modelled.
- Simulator.CheckArguments takes the arrival probability as a real. The
  source's `double` can also be NaN, which both comparisons at
  StoreSimulator.java:59 let through. With NaN, the test at line 90 never
  holds, so nobody ever arrives. NaN is not modelled, so `Pass` is claimed
  only for probabilities in (0, 1].
- Accounting.RunKeepsAccounts, and the served-within-arrived guarantee of
  `Simulate`, hold for unbounded integers. The source's counters
  `totalCustomers`, `totalCustomersServed` and `totalItems` are 32-bit Java
  `int`s that wrap on a long enough run. The model does not capture that
  wrap-around, so these results hold only while the counters stay below
  2^31.
- The no-argument constructor is not modelled. It leaves the lane array null.
