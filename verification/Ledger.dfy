/** Accounting for work that moves between queues. The items held by a list of
    holders form a multiset (their bag); handing items over, in whatever order the
    goroutines run, moves them from one bag to another and loses none. */
module Ledger {

  function Bag<T>(holders: seq<seq<T>>): multiset<T> {
    if holders == [] then multiset{}
    else Bag(holders[..|holders| - 1]) + multiset(holders[|holders| - 1])
  }

  function Total(weights: seq<nat>): nat {
    if weights == [] then 0 else Total(weights[..|weights| - 1]) + weights[|weights| - 1]
  }

  lemma {:induction false} BagConcat<T>(a: seq<seq<T>>, b: seq<seq<T>>)
    ensures Bag(a + b) == Bag(a) + Bag(b)
  {
    if b == [] {
      assert a + b == a;
    } else {
      BagConcat(a, b[..|b| - 1]);
      assert (a + b)[..|a + b| - 1] == a + b[..|b| - 1];
    }
  }

  lemma BagEmpty<T>()
    ensures Bag<T>([]) == multiset{}
  {
  }

  lemma BagSingle<T>(x: seq<T>)
    ensures Bag([x]) == multiset(x)
  {
    assert [x][..0] == [];
  }

  lemma {:induction false} NothingHeld<T>(holders: seq<seq<T>>)
    requires forall j: nat :: j < |holders| ==> holders[j] == []
    ensures Bag(holders) == multiset{}
  {
    if holders != [] {
      NothingHeld(holders[..|holders| - 1]);
    }
  }

  /** Replacing what holder j has changes the bag by exactly that. */
  lemma {:induction false} BagUpdate<T>(holders: seq<seq<T>>, j: nat, x: seq<T>)
    requires j < |holders|
    ensures multiset(holders[j]) <= Bag(holders)
    ensures Bag(holders[j := x]) == Bag(holders) - multiset(holders[j]) + multiset(x)
  {
    var l, r := holders[..j], holders[j + 1..];
    assert holders == l + [holders[j]] + r;
    assert holders[j := x] == l + [x] + r;
    BagConcat(l, [holders[j]]);
    BagConcat(l + [holders[j]], r);
    BagConcat(l, [x]);
    BagConcat(l + [x], r);
    BagSingle(holders[j]);
    BagSingle(x);
  }

  lemma {:induction false} BagCong<T>(a: seq<seq<T>>, b: seq<seq<T>>)
    requires |a| == |b|
    requires forall j :: 0 <= j < |a| ==> multiset(a[j]) == multiset(b[j])
    ensures Bag(a) == Bag(b)
  {
    if a != [] {
      BagCong(a[..|a| - 1], b[..|b| - 1]);
    }
  }

  lemma {:induction false} TotalConcat(a: seq<nat>, b: seq<nat>)
    ensures Total(a + b) == Total(a) + Total(b)
  {
    if b == [] {
      assert a + b == a;
    } else {
      TotalConcat(a, b[..|b| - 1]);
      assert (a + b)[..|a + b| - 1] == a + b[..|b| - 1];
    }
  }

  lemma TotalUpdate(weights: seq<nat>, j: nat, w: nat)
    requires j < |weights|
    ensures Total(weights[j := w]) + weights[j] == Total(weights) + w
  {
    var l, r := weights[..j], weights[j + 1..];
    assert weights == l + [weights[j]] + r;
    assert weights[j := w] == l + [w] + r;
    TotalConcat(l, [weights[j]]);
    TotalConcat(l + [weights[j]], r);
    TotalConcat(l, [w]);
    TotalConcat(l + [w], r);
    assert [weights[j]][..0] == [] && [w][..0] == [];
  }

  /** Every item of `whole` is in exactly one place: already received, on the
      queue, or still owed by one of the senders. */
  ghost predicate Balanced<T>(received: seq<T>, queue: seq<seq<T>>, owed: seq<seq<T>>, whole: multiset<T>) {
    multiset(received) + Bag(queue) + Bag(owed) == whole
  }

  lemma Send<T>(received: seq<T>, queue: seq<seq<T>>, owed: seq<seq<T>>, whole: multiset<T>,
                j: nat, x: seq<T>, rest: seq<T>)
    requires Balanced(received, queue, owed, whole)
    requires j < |owed| && owed[j] == x + rest
    ensures Balanced(received, queue + [x], owed[j := rest], whole)
  {
    BagConcat(queue, [x]);
    BagSingle(x);
    BagUpdate(owed, j, rest);
    assert multiset(owed[j]) == multiset(x) + multiset(rest);
    assert Bag(owed[j := rest]) + multiset(x) == Bag(owed);
  }

  lemma Receive<T>(received: seq<T>, queue: seq<seq<T>>, owed: seq<seq<T>>, whole: multiset<T>)
    requires Balanced(received, queue, owed, whole)
    requires queue != []
    ensures Balanced(received + queue[0], queue[1..], owed, whole)
  {
    assert queue == [queue[0]] + queue[1..];
    BagConcat([queue[0]], queue[1..]);
    BagSingle(queue[0]);
    assert multiset(received + queue[0]) == multiset(received) + multiset(queue[0]);
  }

  lemma Reorder<T>(received: seq<T>, queue: seq<seq<T>>, owed: seq<seq<T>>, whole: multiset<T>,
                   j: nat, x: seq<T>)
    requires Balanced(received, queue, owed, whole)
    requires j < |owed| && multiset(owed[j]) == multiset(x)
    ensures Balanced(received, queue, owed[j := x], whole)
  {
    BagUpdate(owed, j, x);
    assert Bag(owed[j := x]) == Bag(owed);
  }

  /** The item at the front of holder j joins the received ones. */
  lemma Consume<T>(received: seq<T>, queue: seq<seq<T>>, holders: seq<seq<T>>, whole: multiset<T>, j: nat)
    requires Balanced(received, queue, holders, whole) && j < |holders| && holders[j] != []
    ensures Balanced(received + [holders[j][0]], queue, holders[j := holders[j][1..]], whole)
  {
    hide Bag;
    var first, rest := [holders[j][0]], holders[j][1..];
    assert holders[j] == first + rest;
    BagUpdate(holders, j, rest);
    assert Bag(holders[j := rest]) + multiset(first) == Bag(holders);
    assert multiset(received + first) == multiset(received) + multiset(first);
  }

  /** When as much has been received as there is, nothing is left anywhere else. */
  lemma AllReceived<T>(received: seq<T>, queue: seq<seq<T>>, owed: seq<seq<T>>, whole: multiset<T>)
    requires Balanced(received, queue, owed, whole)
    requires |received| == |whole|
    ensures multiset(received) == whole && Bag(queue) == multiset{}
    ensures forall j :: 0 <= j < |owed| ==> owed[j] == []
    ensures forall j :: 0 <= j < |queue| ==> queue[j] == []
  {
    assert |whole| == |multiset(received)| + |Bag(queue)| + |Bag(owed)|;
    forall j | 0 <= j < |owed| ensures owed[j] == [] {
      BagUpdate(owed, j, []);
      assert |multiset(owed[j])| == 0;
    }
    forall j | 0 <= j < |queue| ensures queue[j] == [] {
      BagUpdate(queue, j, []);
      assert |multiset(queue[j])| == 0;
    }
  }
}
