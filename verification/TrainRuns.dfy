/** What holds of every schedule of Train: it computes sequential full-batch gradient
    descent, it never deadlocks and never runs for ever, and theta has one writer. */
module TrainRuns {
  import opened Sums
  import opened Ledger
  import opened Descent
  import opened Gradient
  import opened TrainSystem

  ghost predicate Legal(c: Config, s: State, schedule: seq<Action>)
    decreases |schedule|
  {
    schedule == [] ||
    (Shape(c, s) && Enabled(c, s, schedule[0]) && Legal(c, Step(c, s, schedule[0]), schedule[1..]))
  }

  ghost function Exec(c: Config, s: State, schedule: seq<Action>): State
    requires Legal(c, s, schedule)
    decreases |schedule|
  {
    if schedule == [] then s else Exec(c, Step(c, s, schedule[0]), schedule[1..])
  }

  /** Everybody has finished: all epochs done, every paramCh closed, every goroutine
      gone and every channel empty. */
  ghost predicate Final(c: Config, s: State) {
    && Shape(c, s)
    && s.coord.epoch == c.epochs + 1 && s.coord.closed == c.workers && s.agg.epoch == c.epochs + 1
    && s.gradCh == [] && s.results == []
    && forall j :: 0 <= j < c.workers ==> s.params[j] == [] && s.workers[j].pc.Exited?
  }

  // ---- deadlock freedom ----

  /** With nobody launched, everything of the epoch is still owed, so nothing can be
      on the channel. */
  lemma IdleChannel(c: Config, s: State)
    requires ValidConfig(c) && Inv(c, s)
    requires forall j: nat :: j < c.workers ==> !Launched(s, j)
    ensures s.gradCh == []
  {
    hide Bag;
    forall j: nat | j < c.workers ensures multiset(RowsOwed(s, j)) == multiset(c.parts[j]) {
      assert WorkerOk(c, s, j);
    }
    BagCong(AllRowsOwed(c, s), c.parts);
    EachAloneBag(c.workers);
    assert AllDonesOwed(c, s) == EachAlone(c.workers);
    if s.gradCh != [] {
      var t := s.gradCh[0];
      assert MsgOk(c, s.agg, t);
      BagUpdate(Batches(s.gradCh), 0, []);
      BagUpdate(Enders(s.gradCh), 0, []);
    }
  }

  /** With everybody launched and finished and nothing on the channel, all W Dones
      have been received. */
  lemma AllFinishedMeansAllDone(c: Config, s: State)
    requires Inv(c, s) && s.gradCh == []
    requires forall j: nat :: j < c.workers ==> !Unfinished(s, j)
    ensures s.agg.progress.doneCount == c.workers
  {
    hide Bag;
    NothingHeld(AllDonesOwed(c, s));
    BagEmpty<nat>();
    assert Enders(s.gradCh) == [];
    assert multiset(s.agg.past.doneBy) == multiset(Indices(c.workers));
    MultisetLength(s.agg.past.doneBy, Indices(c.workers));
  }

  /** Some goroutine can always move, until all have finished. */
  lemma NoDeadlock(c: Config, s: State) returns (a: Action)
    requires ValidConfig(c) && Inv(c, s) && !Final(c, s)
    ensures Enabled(c, s, a)
  {
    hide Bag, Balanced, GdRun, LossHistory;
    if s.agg.publishing {
      a := AggPublish;
    } else if s.agg.epoch <= c.epochs && s.agg.progress.doneCount >= c.workers {
      a := AggUpdate;
    } else if s.agg.epoch <= c.epochs && s.gradCh != [] {
      a := AggReceive;
    } else if j: nat :| j < c.workers && s.workers[j].pc.Sending? {
      assert WorkerOk(c, s, j);
      a := if s.workers[j].pc.start < |s.workers[j].order| then WorkerGrad(j) else WorkerDone(j);
    } else if j: nat :| j < c.workers && s.params[j] != [] {
      assert WorkerOk(c, s, j);
      a := WorkerTake(j, s.workers[j].order);
    } else if s.coord.epoch <= c.epochs {
      if s.coord.sent < c.workers {
        a := CoordSend;
      } else {
        if s.results == [] {
          AllFinishedMeansAllDone(c, s);
        }
        a := CoordReceive;
      }
    } else if s.coord.closed < c.workers {
      a := CoordClose;
    } else {
      IdleChannel(c, s);
      var j: nat :| j < c.workers && !s.workers[j].pc.Exited?;
      a := WorkerExit(j);
    }
  }

  // ---- termination ----

  function Left(goal: nat, done: nat): nat {
    if done < goal then goal - done else 0
  }

  /** An upper bound on the steps a theta costs once it has been sent to a worker. */
  function Cost(c: Config): nat {
    2 * |c.rows| + 4
  }

  function SendsLeft(c: Config, s: State): nat {
    if s.coord.epoch > c.epochs then 0
    else (c.epochs - s.coord.epoch) * c.workers + Left(c.workers, s.coord.sent)
  }

  function WorkerWeight(c: Config, w: Worker, pending: nat): nat {
    pending * (Cost(c) - 1)
    + match w.pc
      case Waiting => 1
      case Sending(_, start) => 3 + 2 * Left(|w.order|, start)
      case Exited => 0
  }

  function WorkerWeights(c: Config, s: State): (ws: seq<nat>)
    requires |s.workers| == |s.params|
    ensures |ws| == |s.workers|
  {
    seq(|s.workers|, j requires 0 <= j < |s.workers| => WorkerWeight(c, s.workers[j], |s.params[j]|))
  }

  function AggWeight(c: Config, a: Aggregator): nat {
    2 * Left(c.epochs + 1, a.epoch) + (if a.publishing then 0 else 1)
  }

  function Measure(c: Config, s: State): nat
    requires |s.workers| == |s.params|
  {
    SendsLeft(c, s) * Cost(c) + Left(c.epochs + 1, s.coord.epoch) + Left(c.workers, s.coord.closed)
    + Total(WorkerWeights(c, s)) + |s.gradCh| + AggWeight(c, s.agg)
  }

  lemma NextEpochSends(e: nat, epoch: nat, w: nat)
    requires epoch <= e
    ensures epoch < e ==> (e - epoch) * w == (e - (epoch + 1)) * w + w
    ensures epoch == e ==> (e - epoch) * w == 0
  {
  }

  lemma OneMore(a: nat, b: nat, cost: nat)
    requires a == b + 1
    ensures a * cost == b * cost + cost
  {
  }

  lemma OrderIsShort(c: Config, s: State, j: nat)
    requires ValidConfig(c) && WorkersOk(c, s) && j < c.workers
    ensures |s.workers[j].order| <= |c.rows|
  {
    hide Bag;
    assert WorkerOk(c, s, j);
    BagUpdate(c.parts, j, []);
    MultisetLength(s.workers[j].order, c.parts[j]);
    var rest := multiset(Indices(|c.rows|)) - multiset(c.parts[j]);
    assert multiset(Indices(|c.rows|)) == rest + multiset(c.parts[j]);
  }

  /** Only worker j's weight changes. */
  lemma OneWeight(c: Config, s: State, s': State, j: nat)
    requires Shape(c, s) && Shape(c, s') && j < c.workers
    requires s'.workers == s.workers[j := s'.workers[j]] && s'.params == s.params[j := s'.params[j]]
    ensures Total(WorkerWeights(c, s')) + WorkerWeight(c, s.workers[j], |s.params[j]|)
            == Total(WorkerWeights(c, s)) + WorkerWeight(c, s'.workers[j], |s'.params[j]|)
  {
    TotalUpdate(WorkerWeights(c, s), j, WorkerWeight(c, s'.workers[j], |s'.params[j]|));
    assert WorkerWeights(c, s') == WorkerWeights(c, s)[j := WorkerWeight(c, s'.workers[j], |s'.params[j]|)];
  }

  lemma CoordStepDecreases(c: Config, s: State, a: Action)
    requires ValidConfig(c) && Inv(c, s) && Enabled(c, s, a) && (a.CoordSend? || a.CoordReceive? || a.CoordClose?)
    ensures Measure(c, Step(c, s, a)) < Measure(c, s)
  {
    hide Bag, Balanced, GdRun, LossHistory, Total, BatchSum;
    var s' := Step(c, s, a);
    if a.CoordSend? {
      var i := s.coord.sent;
      OneWeight(c, s, s', i);
      OneMore(SendsLeft(c, s), SendsLeft(c, s'), Cost(c));
      assert |s'.params[i]| == 1 && |s.params[i]| == 0;
    } else {
      assert WorkerWeights(c, s') == WorkerWeights(c, s);
      if a.CoordReceive? {
        NextEpochSends(c.epochs, s.coord.epoch, c.workers);
      }
    }
  }

  lemma WorkerStepDecreases(c: Config, s: State, a: Action, j: nat)
    requires ValidConfig(c) && Inv(c, s) && Enabled(c, s, a)
    requires (a.WorkerTake? || a.WorkerGrad? || a.WorkerDone? || a.WorkerExit?) && a.j == j
    ensures Measure(c, Step(c, s, a)) < Measure(c, s)
  {
    hide Bag, Balanced, GdRun, LossHistory, Total, BatchSum;
    var s' := Step(c, s, a);
    assert WorkerOk(c, s, j);
    OrderIsShort(c, s, j);
    if a.WorkerTake? {
      MultisetLength(a.order, s.workers[j].order);
    }
    OneWeight(c, s, s', j);
  }

  lemma AggStepDecreases(c: Config, s: State, a: Action)
    requires ValidConfig(c) && Inv(c, s) && Enabled(c, s, a) && (a.AggReceive? || a.AggUpdate? || a.AggPublish?)
    ensures Measure(c, Step(c, s, a)) < Measure(c, s)
  {
    hide Bag, Balanced, GdRun, LossHistory, Total, BatchSum;
    assert WorkerWeights(c, Step(c, s, a)) == WorkerWeights(c, s);
  }

  lemma StepDecreases(c: Config, s: State, a: Action)
    requires ValidConfig(c) && Inv(c, s) && Enabled(c, s, a)
    ensures Measure(c, Step(c, s, a)) < Measure(c, s)
  {
    hide Bag, Balanced, Measure, Step;
    match a
    case CoordSend => CoordStepDecreases(c, s, a);
    case CoordReceive => CoordStepDecreases(c, s, a);
    case CoordClose => CoordStepDecreases(c, s, a);
    case WorkerTake(j, order) => WorkerStepDecreases(c, s, a, j);
    case WorkerGrad(j) => WorkerStepDecreases(c, s, a, j);
    case WorkerDone(j) => WorkerStepDecreases(c, s, a, j);
    case WorkerExit(j) => WorkerStepDecreases(c, s, a, j);
    case AggReceive => AggStepDecreases(c, s, a);
    case AggUpdate => AggStepDecreases(c, s, a);
    case AggPublish => AggStepDecreases(c, s, a);
  }

  // ---- whole runs ----

  lemma {:induction false} RunKeepsInv(c: Config, s: State, schedule: seq<Action>)
    requires ValidConfig(c) && Inv(c, s) && Legal(c, s, schedule)
    ensures Inv(c, Exec(c, s, schedule))
    ensures Measure(c, Exec(c, s, schedule)) + |schedule| <= Measure(c, s)
    decreases |schedule|
  {
    hide Inv, Measure, Step, Enabled;
    if schedule != [] {
      StepKeepsInv(c, s, schedule[0]);
      StepDecreases(c, s, schedule[0]);
      RunKeepsInv(c, Step(c, s, schedule[0]), schedule[1..]);
    }
  }

  /** No goroutine can move. */
  ghost predicate Stuck(c: Config, s: State)
    requires Shape(c, s)
  {
    forall a :: !Enabled(c, s, a)
  }

  lemma StuckMeansFinal(c: Config, s: State)
    requires ValidConfig(c) && Inv(c, s) && Stuck(c, s)
    ensures Final(c, s)
  {
    hide Final, Enabled, Ledgers, WorkersOk, ChannelOk, CoordOk, Sync, AggOk;
    if !Final(c, s) {
      var a := NoDeadlock(c, s);
    }
  }

  /** Train returns as soon as every paramCh is closed; others may still be running. */
  ghost predicate Returned(c: Config, s: State) {
    s.coord.closed == c.workers
  }

  /** What the coordinator holds: the weights and the losses of the epochs so far. */
  ghost predicate HoldsDescent(c: Config, s: State) {
    && 1 <= s.coord.epoch <= c.epochs + 1
    && (Returned(c, s) ==> s.coord.epoch == c.epochs + 1)
    && (1 < s.coord.epoch ==> s.coord.theta == Own(Theta(c, s.coord.epoch - 1)))
    && s.coord.history == LossHistory(c.rows, c.lr, c.dim, s.coord.epoch - 1)
  }

  lemma InvHoldsDescent(c: Config, s: State)
    requires ValidConfig(c) && Inv(c, s)
    ensures Shape(c, s) && HoldsDescent(c, s)
  {
    hide Ledgers, WorkersOk, ChannelOk, LossHistory, GdRun;
  }

  /** Schedule-independent refinement. Whatever the interleaving, the shuffles, the
      batch size and the number of workers: after each result the coordinator holds
      the weights of that many steps of sequential descent, with their losses; when it
      returns these are all epochs, and a run that can go no further has returned. */
  lemma TrainRefinesDescent(c: Config, schedule: seq<Action>)
    requires ValidConfig(c) && Legal(c, Init(c), schedule)
    ensures var s := Exec(c, Init(c), schedule);
            && Shape(c, s) && HoldsDescent(c, s)
            && (Stuck(c, s) ==> Final(c, s) && Returned(c, s))
  {
    hide Inv, Measure, Legal, Exec, Stuck, Init, Enabled;
    var s := Exec(c, Init(c), schedule);
    InitInv(c);
    RunKeepsInv(c, Init(c), schedule);
    InvHoldsDescent(c, s);
    if Stuck(c, s) {
      StuckMeansFinal(c, s);
    }
  }

  /** No schedule is longer than the initial measure. */
  lemma TrainTerminates(c: Config, schedule: seq<Action>)
    requires ValidConfig(c) && Legal(c, Init(c), schedule)
    ensures |schedule| <= Measure(c, Init(c))
  {
    hide Inv, Measure, Legal, Exec, Init;
    InitInv(c);
    RunKeepsInv(c, Init(c), schedule);
  }

  /** Every run can be carried on to the end. */
  lemma {:induction false} RunCompletes(c: Config, s: State) returns (schedule: seq<Action>)
    requires ValidConfig(c) && Inv(c, s)
    ensures Legal(c, s, schedule) && Final(c, Exec(c, s, schedule))
    decreases Measure(c, s)
  {
    hide Bag, Balanced, Measure, Step, Enabled;
    if Final(c, s) {
      schedule := [];
    } else {
      var a := NoDeadlock(c, s);
      StepKeepsInv(c, s, a);
      StepDecreases(c, s, a);
      var rest := RunCompletes(c, Step(c, s, a));
      schedule := [a] + rest;
      assert schedule[1..] == rest;
    }
  }

  lemma FirstTheta(c: Config)
    ensures Theta(c, 0) == Zeros(c.dim)
  {
  }

  /** The slice shared by coordinator and aggregator: while the coordinator may still
      read it, the aggregator cannot write it, in any reachable state. */
  lemma ThetaHasOneWriter(c: Config, schedule: seq<Action>)
    requires ValidConfig(c) && Legal(c, Init(c), schedule)
    ensures var s := Exec(c, Init(c), schedule);
            && Shape(c, s)
            && (Enabled(c, s, AggUpdate) ==> s.coord.sent == c.workers && !Enabled(c, s, CoordSend))
            && (Enabled(c, s, CoordSend) && s.coord.theta.Shared? ==>
                  s.agg.epoch == 1 && s.agg.theta == Zeros(c.dim))
  {
    hide Bag, Balanced, Ledgers, WorkersOk, ChannelOk, GdRun, LossHistory, Legal, Exec, Init, Measure;
    InitInv(c);
    RunKeepsInv(c, Init(c), schedule);
    var s := Exec(c, Init(c), schedule);
    FirstTheta(c);
    if s.agg.publishing || Enabled(c, s, AggUpdate) {
      Barrier(c, s);
    }
  }

  /** The epoch barrier, in every reachable state. Everything on gradCh belongs to the
      epoch being collected and was computed from the theta that epoch started with;
      and once W Dones are in, the channel is empty, every worker is back waiting, and
      the accumulators hold the gradient sum with each row counted exactly once. */
  lemma EpochBarrier(c: Config, schedule: seq<Action>)
    requires ValidConfig(c) && Legal(c, Init(c), schedule)
    ensures var s := Exec(c, Init(c), schedule);
            && 1 <= s.agg.epoch && s.agg.past.base == Theta(c, s.agg.epoch - 1)
            && forall k :: 0 <= k < |s.gradCh| ==>
                 s.gradCh[k].epoch == s.agg.epoch && MsgOk(c, s.agg, s.gradCh[k])
    ensures var s := Exec(c, Init(c), schedule);
            s.agg.progress.doneCount >= c.workers ==>
              && s.gradCh == [] && s.coord.epoch == s.agg.epoch && s.coord.sent == c.workers
              && Shape(c, s)
              && (forall j: nat :: j < c.workers ==> s.params[j] == [] && !s.workers[j].pc.Sending?)
              && multiset(s.agg.past.counted) == multiset(Indices(|c.rows|)) && s.agg.progress.totalN == |c.rows|
              && s.agg.progress.accum == GradSum(Theta(c, s.agg.epoch - 1), c.rows)
  {
    hide Bag, Ledgers, WorkersOk, GdRun, GradSum, LossHistory, Legal, Exec, Init, Measure;
    InitInv(c);
    RunKeepsInv(c, Init(c), schedule);
    var s := Exec(c, Init(c), schedule);
    if s.agg.progress.doneCount >= c.workers {
      Barrier(c, s);
    }
  }

  // ---- capacities ----

  ghost predicate WithinCapacity(c: Config, s: State) {
    && |s.gradCh| <= 4 * c.workers && |s.results| <= 1
    && forall j :: 0 <= j < |s.params| ==> |s.params[j]| <= 1
  }

  lemma StepKeepsCapacity(c: Config, s: State, a: Action)
    requires Shape(c, s) && WithinCapacity(c, s) && Enabled(c, s, a)
    ensures WithinCapacity(c, Step(c, s, a))
  {
    hide Update, BatchMsg, Absorb, Loss;
  }

  lemma {:induction false} RunKeepsCapacity(c: Config, s: State, schedule: seq<Action>)
    requires WithinCapacity(c, s) && Legal(c, s, schedule)
    ensures WithinCapacity(c, Exec(c, s, schedule))
    decreases |schedule|
  {
    hide Step, WithinCapacity, Enabled;
    if schedule != [] {
      StepKeepsCapacity(c, s, schedule[0]);
      RunKeepsCapacity(c, Step(c, s, schedule[0]), schedule[1..]);
    }
  }

  /** No channel ever holds more than its capacity, 4 W gradients and one theta, and
      whoever wants to send waits only while it is full. */
  lemma ChannelsHaveRoom(c: Config, schedule: seq<Action>, j: nat)
    requires ValidConfig(c) && Legal(c, Init(c), schedule) && j < c.workers
    ensures var s := Exec(c, Init(c), schedule);
            && Shape(c, s) && |s.gradCh| <= 4 * c.workers && |s.results| <= 1 && |s.params[j]| <= 1
            && (s.workers[j].pc.Sending? && |s.gradCh| != 4 * c.workers ==>
                  Enabled(c, s, WorkerGrad(j)) || Enabled(c, s, WorkerDone(j)))
            && (s.agg.publishing && |s.results| != 1 ==> Enabled(c, s, AggPublish))
  {
    hide Legal, Exec, Measure, Step, Ledgers, ChannelOk, GdRun, LossHistory;
    InitInv(c);
    RunKeepsInv(c, Init(c), schedule);
    RunKeepsCapacity(c, Init(c), schedule);
  }

  // ---- the loops behind the actions ----

  /** What worker w will still send in this epoch, by the loop of RunWorkerEpoch. */
  function StillToSend(c: Config, w: Worker): seq<Msg>
    requires 0 < c.batch
  {
    if w.pc.Sending? then EpochMessages(c.rows, w.pc.param.theta, w.order, w.pc.start, c.batch) else []
  }

  /** The worker actions put on the channel exactly the messages of that loop. */
  lemma WorkersFollowTheLoop(c: Config, s: State, a: Action)
    requires ValidConfig(c) && Inv(c, s) && Enabled(c, s, a) && (a.WorkerGrad? || a.WorkerDone?)
    ensures var s' := Step(c, s, a);
            && |s'.gradCh| == |s.gradCh| + 1
            && StillToSend(c, s.workers[a.j]) == [s'.gradCh[|s.gradCh|].msg] + StillToSend(c, s'.workers[a.j])
  {
    hide Bag, Balanced, GdRun, LossHistory, MeanGrad;
    assert WorkerOk(c, s, a.j);
    if a.WorkerGrad? {
      EpochFrom(c.rows, s.workers[a.j].pc.param.theta, s.workers[a.j].order, s.workers[a.j].pc.start, c.batch);
    }
  }

  /** The update applies what RunAggregatorEpoch computes from the messages received
      in this epoch, and that is one step of sequential descent. */
  lemma AggregatorFollowsTheLoop(c: Config, s: State)
    requires ValidConfig(c) && Inv(c, s) && Enabled(c, s, AggUpdate)
    ensures var p := AbsorbAll(Fresh(|s.agg.theta|), s.agg.past.seen);
            && p.doneCount == c.workers && |p.accum| == |s.agg.theta|
            && Step(c, s, AggUpdate).agg.theta == Update(s.agg.theta, p.accum, p.totalN, c.lr)
            && Step(c, s, AggUpdate).agg.theta == GdStep(c.rows, c.lr, s.agg.theta)
  {
    hide Bag, Balanced, LossHistory, GdRun, WorkersOk, ChannelOk, AbsorbAll, BatchSum, GradSum, Update, RowLedger,
      DoneLedger;
    Barrier(c, s);
  }
}
