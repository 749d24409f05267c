/** The array of checkout lanes seen as values: FIFO queues, how many customers
    they hold, and the least-busy routing rule that places each arrival. */
module Lanes {
  import opened Customers

  /** Number of customers queued across all lanes, in service or waiting. */
  function Queued(lanes: seq<seq<Customer>>): nat
  {
    if lanes == [] then 0 else Queued(lanes[..|lanes| - 1]) + |lanes[|lanes| - 1]|
  }

  /** Replacing one lane changes the total by the difference of the two lengths. */
  lemma {:induction false} QueuedUpdate(lanes: seq<seq<Customer>>, i: nat, q: seq<Customer>)
    requires i < |lanes|
    ensures Queued(lanes[i := q]) == Queued(lanes) - |lanes[i]| + |q|
  {
    var n := |lanes| - 1;
    var u := lanes[i := q];
    if i == n {
      assert u[..n] == lanes[..n];
    } else {
      assert u[..n] == lanes[..n][i := q];
      QueuedUpdate(lanes[..n], i, q);
    }
  }

  /** Lanes that are all empty hold nobody. */
  lemma {:induction false} QueuedEmpty(lanes: seq<seq<Customer>>)
    requires forall i :: 0 <= i < |lanes| ==> lanes[i] == []
    ensures Queued(lanes) == 0
  {
    if lanes != [] {
      QueuedEmpty(lanes[..|lanes| - 1]);
    }
  }

  /** Every customer queued in some lane, in service or waiting, counted with
      multiplicity. */
  ghost function Waiting(lanes: seq<seq<Customer>>): multiset<Customer>
  {
    if lanes == [] then multiset{} else Waiting(lanes[..|lanes| - 1]) + multiset(lanes[|lanes| - 1])
  }

  /** Replacing one lane swaps its customers for the new lane's, leaving every
      other lane's customers where they were. */
  lemma {:induction false} WaitingUpdate(lanes: seq<seq<Customer>>, i: nat, q: seq<Customer>)
    requires i < |lanes|
    ensures Waiting(lanes[i := q]) + multiset(lanes[i]) == Waiting(lanes) + multiset(q)
  {
    var n := |lanes| - 1;
    var u := lanes[i := q];
    if i == n {
      assert u[..n] == lanes[..n];
    } else {
      assert u[..n] == lanes[..n][i := q];
      assert lanes[..n][i] == lanes[i] && u[n] == lanes[n];
      WaitingUpdate(lanes[..n], i, q);
      assert Waiting(u) == Waiting(u[..n]) + multiset(lanes[n]);
      assert Waiting(lanes) == Waiting(lanes[..n]) + multiset(lanes[n]);
      forall x
        ensures (Waiting(u) + multiset(lanes[i]))[x] == (Waiting(lanes) + multiset(q))[x]
      {
        assert (Waiting(u[..n]) + multiset(lanes[i]))[x] == (Waiting(lanes[..n]) + multiset(q))[x];
      }
    }
  }

  /** A sequence has as many elements as its multiset. */
  lemma {:induction false} SizeOfMultiset(q: seq<Customer>)
    ensures |multiset(q)| == |q|
  {
    if q != [] {
      SizeOfMultiset(q[..|q| - 1]);
      assert q == q[..|q| - 1] + [q[|q| - 1]];
    }
  }

  /** The queued count is the number of customers queued in some lane. */
  lemma {:induction false} QueuedIsWaitingSize(lanes: seq<seq<Customer>>)
    ensures Queued(lanes) == |Waiting(lanes)|
  {
    if lanes != [] {
      var last := lanes[|lanes| - 1];
      QueuedIsWaitingSize(lanes[..|lanes| - 1]);
      SizeOfMultiset(last);
      assert Waiting(lanes) == Waiting(lanes[..|lanes| - 1]) + multiset(last);
      assert |Waiting(lanes)| == |Waiting(lanes[..|lanes| - 1])| + |multiset(last)|;
    }
  }

  /** `k` is the lowest-index lane among those of minimum size. */
  ghost predicate IsFirstShortest(lanes: seq<seq<Customer>>, k: nat)
  {
    && k < |lanes|
    && (forall j :: 0 <= j < |lanes| ==> |lanes[k]| <= |lanes[j]|)
    && (forall j :: 0 <= j < k ==> |lanes[k]| < |lanes[j]|)
  }

  /** The lane an arrival joins: scanning from lane 0, a lane replaces the
      current choice only when it is strictly shorter, so ties go to the
      lowest index. */
  function FirstShortest(lanes: seq<seq<Customer>>): (k: nat)
    requires lanes != []
    ensures IsFirstShortest(lanes, k)
  {
    if |lanes| == 1 then 0
    else
      var k := FirstShortest(lanes[..|lanes| - 1]);
      if |lanes[|lanes| - 1]| < |lanes[k]| then |lanes| - 1 else k
  }

  /** Only one lane can be the first shortest. */
  lemma FirstShortestUnique(lanes: seq<seq<Customer>>, k: nat)
    requires IsFirstShortest(lanes, k)
    ensures k == FirstShortest(lanes)
  {
  }

  /** One arrival: the customer is enqueued at the tail of the first shortest lane. */
  function Join(lanes: seq<seq<Customer>>, c: Customer): (r: seq<seq<Customer>>)
    requires lanes != []
    ensures |r| == |lanes|
  {
    var k := FirstShortest(lanes);
    lanes[k := lanes[k] + [c]]
  }

  /** A minute's accepted arrivals, routed one after the other in arrival order. */
  function Route(lanes: seq<seq<Customer>>, arrivals: seq<Customer>): (r: seq<seq<Customer>>)
    requires lanes != []
    ensures |r| == |lanes|
  {
    if arrivals == [] then lanes
    else Join(Route(lanes, arrivals[..|arrivals| - 1]), arrivals[|arrivals| - 1])
  }

  /** An arrival lengthens exactly the first shortest lane, by one customer at
      its tail, and leaves every other lane as it was. */
  lemma JoinTargetsFirstShortest(lanes: seq<seq<Customer>>, c: Customer, k: nat)
    requires IsFirstShortest(lanes, k)
    ensures Join(lanes, c)[k] == lanes[k] + [c]
    ensures forall j :: 0 <= j < |lanes| && j != k ==> Join(lanes, c)[j] == lanes[j]
  {
    FirstShortestUnique(lanes, k);
  }

  /** Routing adds exactly one queued customer per arrival. */
  lemma {:induction false} RouteQueued(lanes: seq<seq<Customer>>, arrivals: seq<Customer>)
    requires lanes != []
    ensures Queued(Route(lanes, arrivals)) == Queued(lanes) + |arrivals|
  {
    if arrivals != [] {
      var prev := Route(lanes, arrivals[..|arrivals| - 1]);
      RouteQueued(lanes, arrivals[..|arrivals| - 1]);
      var k := FirstShortest(prev);
      QueuedUpdate(prev, k, prev[k] + [arrivals[|arrivals| - 1]]);
    }
  }

  /** Joining adds the new customer to the queued customers and nobody else. */
  lemma JoinKeepsCustomers(lanes: seq<seq<Customer>>, c: Customer)
    requires lanes != []
    ensures Waiting(Join(lanes, c)) == Waiting(lanes) + multiset{c}
  {
    var k := FirstShortest(lanes);
    var next := lanes[k := lanes[k] + [c]];
    WaitingUpdate(lanes, k, lanes[k] + [c]);
    assert multiset(lanes[k] + [c]) == multiset(lanes[k]) + multiset{c};
    forall x ensures Waiting(next)[x] == (Waiting(lanes) + multiset{c})[x] {
      assert (Waiting(next) + multiset(lanes[k]))[x] == (Waiting(lanes) + multiset(lanes[k]) + multiset{c})[x];
    }
  }

  /** Routing loses nobody and invents nobody: the queued customers afterwards
      are those queued before plus the arrivals. */
  lemma {:induction false} RouteKeepsCustomers(lanes: seq<seq<Customer>>, arrivals: seq<Customer>)
    requires lanes != []
    ensures Waiting(Route(lanes, arrivals)) == Waiting(lanes) + multiset(arrivals)
  {
    if arrivals != [] {
      var init := arrivals[..|arrivals| - 1];
      var c := arrivals[|arrivals| - 1];
      RouteKeepsCustomers(lanes, init);
      JoinKeepsCustomers(Route(lanes, init), c);
      assert arrivals == init + [c];
      assert multiset(arrivals) == multiset(init) + multiset{c};
    }
  }

  /** Routing only appends: every lane keeps its old contents, in order, as a
      prefix, so no queued customer moves or is overtaken. */
  lemma {:induction false} RouteAppends(lanes: seq<seq<Customer>>, arrivals: seq<Customer>)
    requires lanes != []
    ensures forall j :: 0 <= j < |lanes| ==> lanes[j] <= Route(lanes, arrivals)[j]
  {
    if arrivals != [] {
      var prev := Route(lanes, arrivals[..|arrivals| - 1]);
      RouteAppends(lanes, arrivals[..|arrivals| - 1]);
      var k := FirstShortest(prev);
      forall j | 0 <= j < |lanes|
        ensures lanes[j] <= Route(lanes, arrivals)[j]
      {
        if j == k {
          assert prev[k] <= prev[k] + [arrivals[|arrivals| - 1]];
        }
      }
    }
  }

  /** No two lanes differ in length by more than one. */
  ghost predicate Even(lanes: seq<seq<Customer>>)
  {
    forall a, b :: 0 <= a < |lanes| && 0 <= b < |lanes| ==> |lanes[a]| <= |lanes[b]| + 1
  }

  /** Routing to the shortest lane keeps lanes that are even still even. */
  lemma {:induction false} RouteKeepsEven(lanes: seq<seq<Customer>>, arrivals: seq<Customer>)
    requires lanes != [] && Even(lanes)
    ensures Even(Route(lanes, arrivals))
  {
    if arrivals != [] {
      var prev := Route(lanes, arrivals[..|arrivals| - 1]);
      RouteKeepsEven(lanes, arrivals[..|arrivals| - 1]);
      var k := FirstShortest(prev);
      var r := Route(lanes, arrivals);
      forall a, b | 0 <= a < |r| && 0 <= b < |r|
        ensures |r[a]| <= |r[b]| + 1
      {
        assert |prev[k]| <= |prev[b]|;
      }
    }
  }
}
