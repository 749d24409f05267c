/** Checkout processing of a single lane, and what happens to a lane that
    stalls: its entry becomes infinite and no later step ever resets it. */
module Stalls {
  import opened Customers
  import opened Lanes
  import opened Engine

  /** Net effect of processing lane `i`: an empty lane is untouched; a head
      without an issue starts and ends the call one minute into its service; an
      issue head takes a worker when one is free and ends one minute into the
      longer service, and otherwise stalls; a head in service loses one minute;
      a stalled or finished head stays. */
  lemma ProcessLaneCases(s: Store, i: nat)
    requires Shaped(s) && i < |s.lanes|
    ensures var r := ProcessLane(s, i);
      var t := s.remaining[i];
      && (s.lanes[i] == [] ==> r == s)
      && (s.lanes[i] != [] && t == Fin(0.0) && !s.lanes[i][0].hasIssue ==>
            r == s.(remaining := s.remaining[i := Fin(PlainServiceTime(s.lanes[i][0]) - 1.0)]))
      && (s.lanes[i] != [] && t == Fin(0.0) && s.lanes[i][0].hasIssue && s.numWorkers > 0 ==>
            r == s.(numWorkers := s.numWorkers - 1,
                    remaining := s.remaining[i := Fin(AssistedServiceTime(s.lanes[i][0]) - 1.0)]))
      && (s.lanes[i] != [] && t == Fin(0.0) && s.lanes[i][0].hasIssue && s.numWorkers <= 0 ==>
            r == s.(remaining := s.remaining[i := Inf]))
      && (s.lanes[i] != [] && t.Fin? && t.minutes > 0.0 ==>
            r == s.(remaining := s.remaining[i := Fin(t.minutes - 1.0)]))
      && (s.lanes[i] != [] && (t == Inf || (t.Fin? && t.minutes < 0.0)) ==> r == s)
  {
    if s.lanes[i] != [] && s.remaining[i] == Fin(0.0) && !(s.lanes[i][0].hasIssue && s.numWorkers <= 0) {
      var st := StartService(s, i);
      assert st.remaining[i].minutes >= InitTime + PaymentTime;
    }
  }

  /** Lane `i` is stalled: a head waits on an infinite entry. */
  predicate Stalled(s: Store, i: nat)
    requires Shaped(s) && i < |s.lanes|
  {
    s.lanes[i] != [] && s.remaining[i] == Inf
  }

  lemma {:induction false} StallSurvivesCompletion(s: Store, j: nat, i: nat)
    requires Shaped(s) && j <= |s.lanes| && i < |s.lanes| && Stalled(s, i)
    ensures CompleteUpTo(s, j).lanes[i] == s.lanes[i] && CompleteUpTo(s, j).remaining[i] == Inf
  {
    if j > 0 {
      StallSurvivesCompletion(s, j - 1, i);
    }
  }

  lemma {:induction false} StallSurvivesProcessing(s: Store, j: nat, i: nat)
    requires Shaped(s) && j <= |s.lanes| && i < |s.lanes| && Stalled(s, i)
    ensures ProcessUpTo(s, j).remaining[i] == Inf
  {
    if j > 0 {
      StallSurvivesProcessing(s, j - 1, i);
    }
  }

  /** A stalled lane stays stalled for the rest of the run: its entry remains
      infinite and everyone queued in it, head first, is still there in order,
      so none of them is ever served. */
  lemma {:induction false} StallIsPermanent(s: Store, minutes: seq<seq<Candidate>>, p: real, i: nat)
    requires Shaped(s) && i < |s.lanes| && Stalled(s, i)
    ensures var r := Run(s, minutes, p);
      r.remaining[i] == Inf && s.lanes[i] <= r.lanes[i]
  {
    if minutes != [] {
      var m := minutes[..|minutes| - 1];
      StallIsPermanent(s, m, p, i);
      var prev := Run(s, m, p);
      var n := |s.lanes|;
      StallSurvivesCompletion(prev, n, i);
      var c := CompleteUpTo(prev, n);
      var acc := Accepted(minutes[|minutes| - 1], p);
      RouteAppends(c.lanes, acc);
      var a := Arrive(c, acc);
      StallSurvivesProcessing(a, n, i);
    }
  }

  /** Only an issue head whose service has not started ever stalls, and only
      when no worker is free. */
  lemma StallNeedsIssueAndEmptyPool(s: Store, i: nat)
    requires Shaped(s) && i < |s.lanes| && s.remaining[i] != Inf
    requires ProcessLane(s, i).remaining[i] == Inf
    ensures s.lanes[i] != [] && s.remaining[i] == Fin(0.0) && s.lanes[i][0].hasIssue && s.numWorkers <= 0
  {
    ProcessLaneCases(s, i);
  }
}
