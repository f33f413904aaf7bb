/** The thetas of Train as slices on a heap that all goroutines share. In TrainSystem a
    theta that is sent is a value; here every variable and every channel slot holds the
    address of a slice, the coordinator and the aggregator allocate where they copy, and
    the aggregator writes its slice in place. The copies keep all of them apart, so that
    what each goroutine sees of the heap is what TrainSystem says. */
module TrainHeap {
  import opened Ledger
  import opened Descent
  import opened Gradient
  import opened TrainSystem
  import TrainRuns

  /** Addresses are positions in `heap`. `control` is everything but the thetas: the ones
      in it are never read, see Look. */
  datatype Heaped = Heaped(control: State, heap: seq<Vec>, coord: nat, params: seq<seq<nat>>,
                           workers: seq<nat>, results: seq<nat>, agg: nat)

  /** The addresses are of allocated slices, one for every theta there is. */
  ghost predicate Shaped(c: Config, h: Heaped) {
    && Shape(c, h.control)
    && |h.params| == c.workers && |h.workers| == c.workers && |h.results| == |h.control.results|
    && h.coord < |h.heap| && h.agg < |h.heap|
    && (forall j :: 0 <= j < c.workers ==> |h.params[j]| == |h.control.params[j]| && h.workers[j] < |h.heap|)
    && (forall j, k :: 0 <= j < c.workers && 0 <= k < |h.params[j]| ==> h.params[j][k] < |h.heap|)
    && (forall k :: 0 <= k < |h.results| ==> h.results[k] < |h.heap|)
  }

  // ---- what the goroutines see ----

  function LookAtParams(heap: seq<Vec>, sent: seq<Param>, at: seq<nat>): (out: seq<Param>)
    requires |at| == |sent| && forall k :: 0 <= k < |at| ==> at[k] < |heap|
    ensures |out| == |sent|
  {
    seq(|sent|, k requires 0 <= k < |sent| => Param(heap[at[k]], sent[k].epoch))
  }

  function LookAtWorker(heap: seq<Vec>, w: Worker, at: nat): Worker
    requires at < |heap|
  {
    if w.pc.Sending? then w.(pc := Sending(Param(heap[at], w.pc.param.epoch), w.pc.start)) else w
  }

  /** The state with every theta read from the heap. */
  ghost function Look(c: Config, h: Heaped): (s: State)
    requires Shaped(c, h)
    ensures Shape(c, s)
  {
    var s := h.control;
    State(s.coord.(theta := if h.coord == h.agg then Shared else Own(h.heap[h.coord])),
          seq(c.workers, j requires 0 <= j < c.workers => LookAtWorker(h.heap, s.workers[j], h.workers[j])),
          seq(c.workers, j requires 0 <= j < c.workers => LookAtParams(h.heap, s.params[j], h.params[j])),
          s.gradCh,
          seq(|h.results|, k requires 0 <= k < |h.results| => h.heap[h.results[k]]),
          s.agg.(theta := h.heap[h.agg]))
  }

  // ---- the steps on the heap ----

  function InitHeaped(c: Config): Heaped
    requires |c.parts| == c.workers
  {
    Heaped(Init(c), [Zeros(c.dim)], 0, seq(c.workers, j => []), seq(c.workers, j => 0), [], 0)
  }

  /** A goroutine decides by what it sees; addresses move, a copy is a new address, and
      AggUpdate overwrites a slice where it is. */
  ghost function StepHeaped(c: Config, h: Heaped, a: Action): Heaped
    requires Shaped(c, h) && Enabled(c, Look(c, h), a)
  {
    var next := h.(control := Step(c, Look(c, h), a));
    match a
    case CoordSend =>
      var i := h.control.coord.sent;
      next.(heap := h.heap + [h.heap[h.coord]], params := h.params[i := h.params[i] + [|h.heap|]])
    case CoordReceive => next.(coord := h.results[0], results := h.results[1..])
    case WorkerTake(j, _) =>
      next.(workers := h.workers[j := h.params[j][0]], params := h.params[j := h.params[j][1..]])
    case AggUpdate =>
      var p := h.control.agg.progress;
      next.(heap := h.heap[h.agg := Update(h.heap[h.agg], p.accum, p.totalN, c.lr)])
    case AggPublish => next.(heap := h.heap + [h.heap[h.agg]], results := h.results + [|h.heap|])
    case _ => next
  }

  // ---- who holds which address ----

  function WorkerHolds(w: Worker, at: nat): seq<nat> {
    if w.pc.Sending? then [at] else []
  }

  /** Holder 0 is the aggregator, 1 the coordinator once it has a slice of its own, 2
      epochResultCh; then come the workers' channels, then the workers. */
  ghost function Holder(c: Config, h: Heaped, i: nat): seq<nat>
    requires Shaped(c, h) && i < 3 + 2 * c.workers
  {
    if i == 0 then [h.agg]
    else if i == 1 then if h.coord == h.agg then [] else [h.coord]
    else if i == 2 then h.results
    else if i < 3 + c.workers then h.params[i - 3]
    else WorkerHolds(h.control.workers[i - 3 - c.workers], h.workers[i - 3 - c.workers])
  }

  ghost function Holders(c: Config, h: Heaped): (holders: seq<seq<nat>>)
    requires Shaped(c, h)
    ensures |holders| == 3 + 2 * c.workers
  {
    seq(3 + 2 * c.workers, i requires 0 <= i < 3 + 2 * c.workers => Holder(c, h, i))
  }

  /** All of them are below `size`, and no address occurs twice. */
  ghost predicate Apart(holders: seq<seq<nat>>, size: nat) {
    forall r: nat :: Bag(holders)[r] <= (if r < size then 1 else 0)
  }

  /** No two holders have the same slice, and none has it twice. */
  ghost predicate Separate(c: Config, h: Heaped) {
    Shaped(c, h) && Apart(Holders(c, h), |h.heap|)
  }

  lemma HeldOnce(holders: seq<seq<nat>>, i: nat, j: nat, r: nat)
    requires i < |holders| && j < |holders| && i != j && r in holders[i] && Bag(holders)[r] <= 1
    ensures r !in holders[j]
  {
    var nothing: seq<nat> := [];
    var without := holders[i := nothing];
    BagUpdate(holders, i, nothing);
    BagUpdate(without, j, nothing);
    assert r in multiset(holders[i]);
    assert multiset(without[j])[r] == 0;
  }

  /** Nobody else has the aggregator's slice, but the coordinator before the first
      result. */
  lemma AggregatorAlone(c: Config, h: Heaped)
    requires Separate(c, h)
    ensures h.agg !in h.results
    ensures forall j :: 0 <= j < c.workers ==> h.agg !in h.params[j]
    ensures forall j :: 0 <= j < c.workers && h.control.workers[j].pc.Sending? ==> h.workers[j] != h.agg
  {
    hide Bag;
    var holders := Holders(c, h);
    assert Bag(holders)[h.agg] <= 1 && h.agg in holders[0];
    HeldOnce(holders, 0, 2, h.agg);
    forall j: nat | j < c.workers
      ensures h.agg !in h.params[j] && (h.control.workers[j].pc.Sending? ==> h.workers[j] != h.agg)
    {
      HeldOnce(holders, 0, 3 + j, h.agg);
      HeldOnce(holders, 0, 3 + c.workers + j, h.agg);
    }
  }

  // ---- the heap shows what TrainSystem says ----

  lemma StepShaped(c: Config, h: Heaped, a: Action)
    requires Shaped(c, h) && Enabled(c, Look(c, h), a)
    ensures Shaped(c, StepHeaped(c, h, a))
  {
    hide Update, BatchMsg, Loss, Absorb;
  }

  lemma SameParams(c: Config, h: Heaped, a: Action, j: nat)
    requires Separate(c, h) && Enabled(c, Look(c, h), a) && j < c.workers && Shaped(c, StepHeaped(c, h, a))
    ensures Look(c, StepHeaped(c, h, a)).params[j] == Step(c, Look(c, h), a).params[j]
  {
    hide Bag, Update, BatchMsg, Loss, Absorb, Holders, LookAtWorker;
    AggregatorAlone(c, h);
    assert forall k :: 0 <= k < |h.params[j]| ==> h.params[j][k] in h.params[j];
  }

  lemma SameWorker(c: Config, h: Heaped, a: Action, j: nat)
    requires Separate(c, h) && Enabled(c, Look(c, h), a) && j < c.workers && Shaped(c, StepHeaped(c, h, a))
    ensures Look(c, StepHeaped(c, h, a)).workers[j] == Step(c, Look(c, h), a).workers[j]
  {
    hide Bag, Update, BatchMsg, Loss, Absorb, Holders;
    AggregatorAlone(c, h);
  }

  /** Whatever a goroutine does to the heap, what all of them see changes only as in
      TrainSystem, where thetas are values. */
  lemma LookStep(c: Config, h: Heaped, a: Action)
    requires Separate(c, h) && Enabled(c, Look(c, h), a)
    ensures Shaped(c, StepHeaped(c, h, a))
    ensures Look(c, StepHeaped(c, h, a)) == Step(c, Look(c, h), a)
  {
    hide Bag, Update, BatchMsg, Loss, Absorb, LookAtWorker, LookAtParams, Holders;
    StepShaped(c, h, a);
    AggregatorAlone(c, h);
    var see', s' := Look(c, StepHeaped(c, h, a)), Step(c, Look(c, h), a);
    forall j: nat | j < c.workers ensures see'.params[j] == s'.params[j] && see'.workers[j] == s'.workers[j] {
      SameParams(c, h, a, j);
      SameWorker(c, h, a, j);
    }
    assert see'.params == s'.params && see'.workers == s'.workers;
    assert see'.results == s'.results by {
      assert forall k :: 0 <= k < |h.results| ==> h.results[k] in h.results;
    }
  }

  // ---- the slices stay apart ----

  lemma Drop(holders: seq<seq<nat>>, j: nat, size: nat)
    requires j < |holders| && Apart(holders, size)
    ensures Apart(holders[j := []], size)
  {
    BagUpdate(holders, j, []);
    NoMoreHeld(holders, holders[j := []], size);
  }

  lemma HandOver(holders: seq<seq<nat>>, i: nat, j: nat, x: nat, size: nat)
    requires i < |holders| && j < |holders| && i != j && holders[i] != [] && holders[i][0] == x
    requires Apart(holders, size)
    ensures Apart(holders[i := holders[i][1..]][j := [x]], size)
  {
    hide Bag, Apart;
    var first, rest: seq<nat> := [x], holders[i][1..];
    assert holders[i] == first + rest;
    BagUpdate(holders, i, rest);
    BagUpdate(holders[i := rest], j, first);
    assert multiset(holders[i]) == multiset(first) + multiset(rest);
    NoMoreHeld(holders, holders[i := rest][j := first], size);
  }

  lemma NoMoreHeld(holders: seq<seq<nat>>, fewer: seq<seq<nat>>, size: nat)
    requires Apart(holders, size) && Bag(fewer) <= Bag(holders)
    ensures Apart(fewer, size)
  {
    hide Bag;
    forall r: nat ensures Bag(fewer)[r] <= (if r < size then 1 else 0) {
      assert Bag(fewer)[r] <= Bag(holders)[r];
    }
  }

  /** The address of a new slice, which nobody had. */
  lemma Allocate(holders: seq<seq<nat>>, j: nat, size: nat)
    requires j < |holders| && Apart(holders, size)
    ensures Apart(holders[j := holders[j] + [size]], size + 1)
  {
    hide Bag;
    var one: seq<nat> := [size];
    var more := holders[j := holders[j] + one];
    BagUpdate(holders, j, holders[j] + one);
    assert multiset(holders[j] + one) == multiset(holders[j]) + multiset{size};
    assert Bag(more) == Bag(holders) + multiset{size};
    forall r: nat ensures Bag(more)[r] <= (if r < size + 1 then 1 else 0) {
      assert Bag(holders)[r] <= (if r < size then 1 else 0);
    }
  }

  /** What an action needs, and whom it leaves at work on a theta. */
  lemma Effects(c: Config, h: Heaped, a: Action)
    requires Shaped(c, h) && Enabled(c, Look(c, h), a)
    ensures a.CoordSend? ==> h.control.coord.sent < c.workers
    ensures a.CoordReceive? ==> h.results != []
    ensures a.WorkerTake? ==> a.j < c.workers && h.params[a.j] != []
    ensures a.WorkerDone? ==> a.j < c.workers
    ensures var h' := StepHeaped(c, h, a);
            && Shaped(c, h')
            && forall j: nat :: j < c.workers ==>
                 h'.control.workers[j].pc.Sending?
                 == if a == WorkerDone(j) then false
                    else (a.WorkerTake? && a.j == j) || h.control.workers[j].pc.Sending?
  {
    hide Update, BatchMsg, Loss, Absorb;
    StepShaped(c, h, a);
  }

  lemma CoordStepSeparate(c: Config, h: Heaped, a: Action)
    requires Separate(c, h) && Enabled(c, Look(c, h), a) && (a.CoordSend? || a.CoordReceive?)
    ensures Separate(c, StepHeaped(c, h, a))
  {
    hide Bag, Apart, Enabled, Step, Look, Update, WorkerHolds;
    Effects(c, h, a);
    var h', holders := StepHeaped(c, h, a), Holders(c, h);
    var holders' := Holders(c, h');
    if a.CoordSend? {
      var i := h.control.coord.sent;
      Allocate(holders, 3 + i, |h.heap|);
      SameWorkers(c, h, h');
      assert holders' == holders[3 + i := holders[3 + i] + [|h.heap|]];
    } else {
      AggregatorAlone(c, h);
      HandOver(holders, 2, 1, h.results[0], |h.heap|);
      SameWorkers(c, h, h');
      assert holders' == holders[2 := h.results[1..]][1 := [h.results[0]]];
    }
  }

  /** While nobody starts or stops working, the workers hold what they held. */
  lemma SameWorkers(c: Config, h: Heaped, h': Heaped)
    requires Shaped(c, h) && Shaped(c, h') && h'.workers == h.workers
    requires forall j: nat :: j < c.workers ==>
               h'.control.workers[j].pc.Sending? == h.control.workers[j].pc.Sending?
    ensures forall i: nat :: 3 + c.workers <= i < 3 + 2 * c.workers ==> Holder(c, h', i) == Holder(c, h, i)
  {
  }

  lemma TakeSeparate(c: Config, h: Heaped, a: Action)
    requires Separate(c, h) && Enabled(c, Look(c, h), a) && a.WorkerTake?
    ensures Separate(c, StepHeaped(c, h, a))
  {
    hide Bag, Apart, Enabled, Step, Look;
    Effects(c, h, a);
    var h', holders, j, mine := StepHeaped(c, h, a), Holders(c, h), a.j, 3 + c.workers + a.j;
    HandOver(holders, 3 + j, mine, h.params[j][0], |h.heap|);
    var after := holders[3 + j := h.params[j][1..]][mine := [h.params[j][0]]];
    forall i | 0 <= i < |holders| ensures Holder(c, h', i) == after[i] {
    }
    assert Holders(c, h') == after;
  }

  lemma DoneSeparate(c: Config, h: Heaped, a: Action)
    requires Separate(c, h) && Enabled(c, Look(c, h), a) && a.WorkerDone?
    ensures Separate(c, StepHeaped(c, h, a))
  {
    hide Bag, Apart, Enabled, Step, Look;
    Effects(c, h, a);
    var h', holders, mine := StepHeaped(c, h, a), Holders(c, h), 3 + c.workers + a.j;
    Drop(holders, mine, |h.heap|);
    assert Holders(c, h') == holders[mine := []];
  }

  lemma OtherStepSeparate(c: Config, h: Heaped, a: Action)
    requires Separate(c, h) && Enabled(c, Look(c, h), a)
    requires !a.CoordSend? && !a.CoordReceive? && !a.WorkerTake? && !a.WorkerDone?
    ensures Separate(c, StepHeaped(c, h, a))
  {
    hide Bag, Apart, Enabled, Step, Look, Update, WorkerHolds;
    Effects(c, h, a);
    var h', holders := StepHeaped(c, h, a), Holders(c, h);
    SameWorkers(c, h, h');
    if a.AggPublish? {
      Allocate(holders, 2, |h.heap|);
      assert Holders(c, h') == holders[2 := h.results + [|h.heap|]];
    } else {
      assert Holders(c, h') == holders;
    }
  }

  /** The slices stay apart: a step hands one over, drops one, or allocates one. */
  lemma SeparateStep(c: Config, h: Heaped, a: Action)
    requires Separate(c, h) && Enabled(c, Look(c, h), a)
    ensures Separate(c, StepHeaped(c, h, a))
  {
    hide Separate, StepHeaped;
    match a
    case CoordSend => CoordStepSeparate(c, h, a);
    case CoordReceive => CoordStepSeparate(c, h, a);
    case WorkerTake(_, _) => TakeSeparate(c, h, a);
    case WorkerDone(_) => DoneSeparate(c, h, a);
    case _ => OtherStepSeparate(c, h, a);
  }

  lemma InitSeparate(c: Config)
    requires |c.parts| == c.workers
    ensures Separate(c, InitHeaped(c)) && Look(c, InitHeaped(c)) == Init(c)
  {
    hide Bag;
    var h := InitHeaped(c);
    var holders, one: seq<nat> := Holders(c, h), [0];
    var none := holders[0 := []];
    NothingHeld(none);
    BagUpdate(none, 0, one);
    assert holders == none[0 := one];
    assert Look(c, h).workers == Init(c).workers && Look(c, h).params == Init(c).params;
  }

  // ---- whole runs ----

  ghost predicate LegalHeaped(c: Config, h: Heaped, schedule: seq<Action>)
    decreases |schedule|
  {
    schedule == [] ||
    (&& Shaped(c, h) && Enabled(c, Look(c, h), schedule[0])
     && LegalHeaped(c, StepHeaped(c, h, schedule[0]), schedule[1..]))
  }

  ghost function ExecHeaped(c: Config, h: Heaped, schedule: seq<Action>): Heaped
    requires LegalHeaped(c, h, schedule)
    decreases |schedule|
  {
    if schedule == [] then h else ExecHeaped(c, StepHeaped(c, h, schedule[0]), schedule[1..])
  }

  lemma {:induction false} RunsAgree(c: Config, h: Heaped, schedule: seq<Action>)
    requires Separate(c, h)
    ensures LegalHeaped(c, h, schedule) <==> TrainRuns.Legal(c, Look(c, h), schedule)
    ensures LegalHeaped(c, h, schedule) ==>
              var h' := ExecHeaped(c, h, schedule);
              Separate(c, h') && Look(c, h') == TrainRuns.Exec(c, Look(c, h), schedule)
    decreases |schedule|
  {
    hide Bag, Step, StepHeaped, Holders, Look, Enabled;
    if schedule != [] && Enabled(c, Look(c, h), schedule[0]) {
      LookStep(c, h, schedule[0]);
      SeparateStep(c, h, schedule[0]);
      RunsAgree(c, StepHeaped(c, h, schedule[0]), schedule[1..]);
    }
  }

  /** Copies make sharing invisible. The same schedules are possible on the heap as with
      values, and after each of them every theta reads as its value says; every theta
      held by a worker, by the coordinator after its first result, or in a channel is in
      a slice of its own, which is never the one the aggregator writes. */
  lemma HeapRefinesValues(c: Config, schedule: seq<Action>)
    requires ValidConfig(c)
    ensures LegalHeaped(c, InitHeaped(c), schedule) <==> TrainRuns.Legal(c, Init(c), schedule)
    ensures LegalHeaped(c, InitHeaped(c), schedule) ==>
              var h := ExecHeaped(c, InitHeaped(c), schedule);
              Separate(c, h) && Look(c, h) == TrainRuns.Exec(c, Init(c), schedule)
  {
    InitSeparate(c);
    RunsAgree(c, InitHeaped(c), schedule);
  }

  /** The coordinator and the aggregator use one slice until the first result arrives, and
      while they do the aggregator cannot write it before the coordinator has read it for
      the last time. */
  lemma SharedUntilFirstResult(c: Config, schedule: seq<Action>)
    requires ValidConfig(c) && LegalHeaped(c, InitHeaped(c), schedule)
    ensures var h := ExecHeaped(c, InitHeaped(c), schedule);
            && Shaped(c, h) && (h.coord == h.agg <==> Look(c, h).coord.epoch == 1)
            && (Enabled(c, Look(c, h), AggUpdate) ==> !Enabled(c, Look(c, h), CoordSend))
  {
    hide Bag, Holders, LegalHeaped, ExecHeaped, Enabled, Step, TrainRuns.Legal, TrainRuns.Exec, TrainRuns.Measure, Init,
      GdRun, LossHistory, WorkersOk, ChannelOk, Ledgers, Apart;
    HeapRefinesValues(c, schedule);
    InitInv(c);
    TrainRuns.RunKeepsInv(c, Init(c), schedule);
    TrainRuns.ThetaHasOneWriter(c, schedule);
  }

  /** Pairwise: two different holders never have a slice in common, in any reachable
      state. */
  lemma NoSliceIsShared(c: Config, schedule: seq<Action>, i: nat, j: nat)
    requires ValidConfig(c) && LegalHeaped(c, InitHeaped(c), schedule)
    requires i < j < 3 + 2 * c.workers
    ensures var h := ExecHeaped(c, InitHeaped(c), schedule);
            Shaped(c, h) && forall r :: r in Holders(c, h)[i] ==> r !in Holders(c, h)[j]
  {
    hide Bag, Holders, LegalHeaped, ExecHeaped;
    HeapRefinesValues(c, schedule);
    var h := ExecHeaped(c, InitHeaped(c), schedule);
    forall r | r in Holders(c, h)[i] ensures r !in Holders(c, h)[j] {
      HeldOnce(Holders(c, h), i, j, r);
    }
  }
}
