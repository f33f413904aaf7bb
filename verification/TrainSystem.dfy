/** The goroutines of Train in internal/model/sgd.go as a transition system: a
    coordinator, W permanent workers and one aggregator joined by bounded FIFO
    channels. A schedule is any sequence of enabled actions. Slices sent over a
    channel are values here, because the program sends a fresh copy each time (TrainHeap
    proves that this is sound for the thetas); the one slice two goroutines share, the
    initial theta, is modelled as shared. */
module TrainSystem {
  import opened Wrappers
  import opened Sums
  import opened Ledger
  import opened Descent
  import opened Gradient

  datatype Config = Config(rows: seq<Row>, dim: nat, workers: nat, epochs: nat, lr: real, batch: nat,
                           parts: seq<seq<nat>>)

  /** What setDefaults leaves behind, and one share of the row numbers per worker. */
  ghost predicate ValidConfig(c: Config) {
    && 0 < c.workers && 0 < c.epochs && 0 < c.batch
    && |c.parts| == c.workers && Bag(c.parts) == multiset(Indices(|c.rows|))
  }

  /** The configuration Train builds: contiguous partitions from MakePartitions. */
  function TrainConfig(rows: seq<Row>, dim: nat, workers: nat, epochs: nat, lr: real, batch: nat): Config {
    Config(rows, dim, workers, epochs, lr, batch, PartIndices(|rows|, workers))
  }

  lemma TrainConfigValid(rows: seq<Row>, dim: nat, workers: nat, epochs: nat, lr: real, batch: nat)
    requires 0 < workers && 0 < epochs && 0 < batch
    ensures ValidConfig(TrainConfig(rows, dim, workers, epochs, lr, batch))
  {
    PartsCover(|rows|, workers);
  }

  /** A theta on its way to a worker; `epoch` is a history variable. */
  datatype Param = Param(theta: Vec, epoch: nat)

  /** A message on gradCh. Only `msg` is on the wire; the epoch it belongs to, the row
      numbers it speaks for and the worker whose end it announces are history. */
  datatype Tagged = Tagged(msg: Msg, epoch: nat, batch: seq<nat>, ender: seq<nat>)

  datatype Pc = Waiting | Sending(param: Param, start: nat) | Exited

  datatype Worker = Worker(order: seq<nat>, pc: Pc)

  /** The coordinator's theta: the slice it shares with the aggregator, or its own. */
  datatype Held = Shared | Own(v: Vec)

  datatype Coordinator = Coordinator(epoch: nat, sent: nat, closed: nat, theta: Held, history: seq<Option<real>>)

  /** History: theta when the epoch began, and what has been received since: the
      messages, the rows they spoke for and the workers that are done. */
  datatype History = History(base: Vec, seen: seq<Msg>, counted: seq<nat>, doneBy: seq<nat>)

  datatype Aggregator = Aggregator(epoch: nat, theta: Vec, progress: Progress, publishing: bool, past: History)

  datatype State = State(coord: Coordinator, workers: seq<Worker>, params: seq<seq<Param>>,
                         gradCh: seq<Tagged>, results: seq<Vec>, agg: Aggregator)

  datatype Action =
    | CoordSend | CoordReceive | CoordClose
    | WorkerTake(j: nat, order: seq<nat>) | WorkerGrad(j: nat) | WorkerDone(j: nat) | WorkerExit(j: nat)
    | AggReceive | AggUpdate | AggPublish

  function Init(c: Config): State
    requires |c.parts| == c.workers
  {
    State(Coordinator(1, 0, 0, Shared, []),
          seq(c.workers, j requires 0 <= j < c.workers => Worker(c.parts[j], Waiting)),
          seq(c.workers, j => []),
          [], [],
          Aggregator(1, Zeros(c.dim), Fresh(c.dim), false, History(Zeros(c.dim), [], [], [])))
  }

  ghost predicate Shape(c: Config, s: State) {
    && |s.workers| == c.workers && |s.params| == c.workers
    && s.coord.sent <= c.workers && s.coord.closed <= c.workers
  }

  /** An action is enabled when its goroutine is at that point and would not block. */
  ghost predicate Enabled(c: Config, s: State, a: Action)
    requires Shape(c, s)
  {
    match a
    case CoordSend =>
      s.coord.epoch <= c.epochs && s.coord.sent < c.workers && |s.params[s.coord.sent]| < 1
    case CoordReceive =>
      s.coord.epoch <= c.epochs && s.coord.sent == c.workers && s.results != []
    case CoordClose =>
      s.coord.epoch > c.epochs && s.coord.closed < c.workers
    case WorkerTake(j, order) =>
      j < c.workers && s.workers[j].pc.Waiting? && s.params[j] != [] && multiset(order) == multiset(s.workers[j].order)
    case WorkerGrad(j) =>
      j < c.workers && s.workers[j].pc.Sending? && s.workers[j].pc.start < |s.workers[j].order|
      && |s.gradCh| < 4 * c.workers && 0 < c.batch
    case WorkerDone(j) =>
      j < c.workers && s.workers[j].pc.Sending? && s.workers[j].pc.start >= |s.workers[j].order|
      && |s.gradCh| < 4 * c.workers
    case WorkerExit(j) =>
      j < c.workers && s.workers[j].pc.Waiting? && s.params[j] == [] && j < s.coord.closed
    case AggReceive =>
      s.agg.epoch <= c.epochs && !s.agg.publishing && s.agg.progress.doneCount < c.workers && s.gradCh != []
    case AggUpdate =>
      s.agg.epoch <= c.epochs && !s.agg.publishing && s.agg.progress.doneCount >= c.workers
      && |s.agg.progress.accum| == |s.agg.theta|
    case AggPublish =>
      s.agg.publishing && |s.results| < 1
  }

  /** What the coordinator reads when it copies theta. */
  function HeldValue(s: State): Vec {
    match s.coord.theta case Shared => s.agg.theta case Own(v) => v
  }

  function Received(h: History, t: Tagged): History {
    History(h.base, h.seen + [t.msg], h.counted + t.batch, h.doneBy + t.ender)
  }

  ghost function Step(c: Config, s: State, a: Action): State
    requires Shape(c, s) && Enabled(c, s, a)
  {
    match a
    case CoordSend =>
      var i := s.coord.sent;
      s.(params := s.params[i := s.params[i] + [Param(HeldValue(s), s.coord.epoch)]],
         coord := s.coord.(sent := i + 1))
    case CoordReceive =>
      var theta := s.results[0];
      s.(results := s.results[1..],
         coord := s.coord.(epoch := s.coord.epoch + 1, sent := 0, theta := Own(theta),
                           history := s.coord.history + [Loss(c.rows, theta)]))
    case CoordClose => s.(coord := s.coord.(closed := s.coord.closed + 1))
    case WorkerTake(j, order) =>
      s.(workers := s.workers[j := Worker(order, Sending(s.params[j][0], 0))],
         params := s.params[j := s.params[j][1..]])
    case WorkerGrad(j) =>
      var w := s.workers[j];
      var end := BatchEnd(w.pc.start, c.batch, |w.order|);
      var m := BatchMsg(c.rows, w.pc.param.theta, w.order, w.pc.start, c.batch);
      s.(gradCh := s.gradCh + [Tagged(m, w.pc.param.epoch, w.order[w.pc.start..end], [])],
         workers := s.workers[j := w.(pc := w.pc.(start := end))])
    case WorkerDone(j) =>
      s.(gradCh := s.gradCh + [Tagged(Done, s.workers[j].pc.param.epoch, [], [j])],
         workers := s.workers[j := s.workers[j].(pc := Waiting)])
    case WorkerExit(j) => s.(workers := s.workers[j := s.workers[j].(pc := Exited)])
    case AggReceive =>
      var t := s.gradCh[0];
      s.(gradCh := s.gradCh[1..],
         agg := s.agg.(progress := Absorb(s.agg.progress, t.msg),
                       past := Received(s.agg.past, t)))
    case AggUpdate =>
      s.(agg := s.agg.(theta := Update(s.agg.theta, s.agg.progress.accum, s.agg.progress.totalN, c.lr),
                       publishing := true))
    case AggPublish =>
      s.(results := s.results + [s.agg.theta],
         agg := Aggregator(s.agg.epoch + 1, s.agg.theta, Fresh(|s.agg.theta|), false, History(s.agg.theta, [], [], [])))
  }

  // ---- the invariant ----

  function Theta(c: Config, epochs: nat): Vec {
    GdRun(c.rows, c.lr, c.dim, epochs)
  }

  /** Worker j has been sent the theta of the epoch the aggregator is collecting. */
  ghost predicate Launched(s: State, j: nat) {
    s.coord.epoch == s.agg.epoch && j < s.coord.sent
  }

  /** Worker j has not yet sent its Done for that epoch. */
  ghost predicate Unfinished(s: State, j: nat)
    requires j < |s.workers| && j < |s.params|
  {
    !Launched(s, j) || s.params[j] != [] || s.workers[j].pc.Sending?
  }

  ghost function RowsOwed(s: State, j: nat): seq<nat>
    requires j < |s.workers| && j < |s.params|
  {
    var w := s.workers[j];
    if !Launched(s, j) || s.params[j] != [] then w.order
    else if w.pc.Sending? && w.pc.start <= |w.order| then w.order[w.pc.start..]
    else []
  }

  ghost function AllRowsOwed(c: Config, s: State): (owed: seq<seq<nat>>)
    requires Shape(c, s)
    ensures |owed| == c.workers
  {
    seq(c.workers, j requires 0 <= j < c.workers => RowsOwed(s, j))
  }

  ghost function AllDonesOwed(c: Config, s: State): (owed: seq<seq<nat>>)
    requires Shape(c, s)
    ensures |owed| == c.workers
  {
    seq(c.workers, j requires 0 <= j < c.workers => if Unfinished(s, j) then [j] else [])
  }

  function Batches(ch: seq<Tagged>): seq<seq<nat>> {
    seq(|ch|, k requires 0 <= k < |ch| => ch[k].batch)
  }

  function Enders(ch: seq<Tagged>): seq<seq<nat>> {
    seq(|ch|, k requires 0 <= k < |ch| => ch[k].ender)
  }

  ghost predicate CoordOk(c: Config, s: State) {
    && 1 <= s.coord.epoch <= c.epochs + 1
    && (s.coord.closed > 0 ==> s.coord.epoch == c.epochs + 1)
    && (s.coord.epoch == c.epochs + 1 ==> s.coord.sent == 0)
    && s.coord.theta == (if s.coord.epoch == 1 then Shared else Own(Theta(c, s.coord.epoch - 1)))
    && s.coord.history == LossHistory(c.rows, c.lr, c.dim, s.coord.epoch - 1)
  }

  /** The aggregator is in the coordinator's epoch, or exactly one ahead with the
      result of that epoch waiting in epochResultCh. */
  ghost predicate Sync(c: Config, s: State) {
    || (s.agg.epoch == s.coord.epoch && s.results == [])
    || (s.agg.epoch == s.coord.epoch + 1 && s.coord.sent == c.workers
        && s.results == [s.agg.theta] && !s.agg.publishing)
  }

  ghost predicate AggOk(c: Config, s: State) {
    var a := s.agg;
    && 1 <= a.epoch <= c.epochs + 1
    && a.past.base == Theta(c, a.epoch - 1)
    && a.theta == (if a.publishing then Theta(c, a.epoch) else a.past.base)
    && (a.publishing ==> a.epoch <= c.epochs && a.progress.doneCount == c.workers)
  }

  ghost predicate ProgressOk(c: Config, s: State) {
    var a := s.agg;
    && a.progress == AbsorbAll(Fresh(|a.past.base|), a.past.seen)
    && a.progress.doneCount == |a.past.doneBy| && a.progress.totalN == |a.past.counted|
    && a.progress.accum == BatchSum(c.rows, a.past.base, a.past.counted)
  }

  ghost predicate WorkerOk(c: Config, s: State, j: nat)
    requires Shape(c, s) && j < c.workers && |c.parts| == c.workers
  {
    var w, current := s.workers[j], Param(s.agg.past.base, s.agg.epoch);
    && multiset(w.order) == multiset(c.parts[j])
    && (w.pc.Exited? ==> j < s.coord.closed && s.params[j] == [])
    && (!Launched(s, j) ==> s.params[j] == [] && !w.pc.Sending?)
    && (s.params[j] != [] ==> w.pc.Waiting? && s.params[j] == [current])
    && (w.pc.Sending? ==> s.params[j] == [] && w.pc.param == current && w.pc.start <= |w.order|)
  }

  ghost predicate WorkersOk(c: Config, s: State) {
    && Shape(c, s) && |c.parts| == c.workers
    && forall j: nat :: j < c.workers ==> WorkerOk(c, s, j)
  }

  ghost predicate MsgOk(c: Config, agg: Aggregator, t: Tagged) {
    && t.epoch == agg.epoch
    && match t.msg
       case Grad(g, n) => t.ender == [] && t.batch != [] && n == |t.batch|
                          && g == MeanGrad(c.rows, agg.past.base, t.batch)
       case Done => t.batch == [] && |t.ender| == 1
  }

  /** Everything on the channel belongs to this epoch, and a gradient at its back
      has its sender still at work behind it. */
  ghost predicate ChannelOk(c: Config, s: State) {
    && (forall k :: 0 <= k < |s.gradCh| ==> MsgOk(c, s.agg, s.gradCh[k]))
    && (s.gradCh != [] && s.gradCh[|s.gradCh| - 1].msg.Grad? ==>
          exists j :: 0 <= j < |s.workers| && s.workers[j].pc.Sending?)
  }

  ghost predicate RowLedger(c: Config, s: State)
    requires Shape(c, s)
  {
    Balanced(s.agg.past.counted, Batches(s.gradCh), AllRowsOwed(c, s), multiset(Indices(|c.rows|)))
  }

  ghost predicate DoneLedger(c: Config, s: State)
    requires Shape(c, s)
  {
    Balanced(s.agg.past.doneBy, Enders(s.gradCh), AllDonesOwed(c, s), multiset(Indices(c.workers)))
  }

  ghost predicate Control(c: Config, s: State) {
    Shape(c, s) && CoordOk(c, s) && Sync(c, s) && AggOk(c, s)
  }

  ghost predicate Ledgers(c: Config, s: State) {
    Shape(c, s) && ProgressOk(c, s) && RowLedger(c, s) && DoneLedger(c, s)
  }

  ghost predicate Inv(c: Config, s: State) {
    Control(c, s) && WorkersOk(c, s) && ChannelOk(c, s) && Ledgers(c, s)
  }

  // ---- establishing and keeping it ----

  function EachAlone(w: nat): (holders: seq<seq<nat>>)
    ensures |holders| == w
  {
    seq(w, j requires 0 <= j => [j])
  }

  lemma {:induction false} EachAloneBag(w: nat)
    ensures Bag(EachAlone(w)) == multiset(Indices(w))
  {
    hide Bag;
    if w == 0 {
      BagEmpty<nat>();
      assert EachAlone(0) == [];
    } else {
      EachAloneBag(w - 1);
      var last: seq<nat> := [w - 1];
      BagConcat(EachAlone(w - 1), [last]);
      BagSingle(last);
      assert EachAlone(w) == EachAlone(w - 1) + [last];
      assert Indices(w) == Indices(w - 1) + last;
    }
  }

  /** Before anything of an epoch has happened, every row and every Done is owed. */
  lemma NewEpochLedgers(c: Config, s: State)
    requires ValidConfig(c) && Shape(c, s) && s.gradCh == []
    requires s.agg.past == History(s.agg.past.base, [], [], []) && s.agg.progress == Fresh(|s.agg.past.base|)
    requires forall j: nat :: j < c.workers ==> !Launched(s, j)
    requires forall j: nat :: j < c.workers ==> multiset(s.workers[j].order) == multiset(c.parts[j])
    ensures Ledgers(c, s)
  {
    hide Bag;
    BagEmpty<nat>();
    BagCong(AllRowsOwed(c, s), c.parts);
    EachAloneBag(c.workers);
    assert AllDonesOwed(c, s) == EachAlone(c.workers);
    assert Batches(s.gradCh) == [] && Enders(s.gradCh) == [];
    assert BatchSum(c.rows, s.agg.past.base, []) == s.agg.progress.accum;
    assert RowLedger(c, s);
    assert DoneLedger(c, s);
    assert ProgressOk(c, s);
  }

  lemma InitInv(c: Config)
    requires ValidConfig(c)
    ensures Inv(c, Init(c))
  {
    NewEpochLedgers(c, Init(c));
  }

  /** W Dones received means that no Done is anywhere else. */
  lemma AllDone(c: Config, s: State)
    requires Ledgers(c, s) && s.agg.progress.doneCount >= c.workers
    ensures s.agg.progress.doneCount == c.workers
    ensures forall j: nat :: j < c.workers ==> !Unfinished(s, j)
    ensures forall k :: 0 <= k < |s.gradCh| ==> s.gradCh[k].ender == []
  {
    hide Bag;
    var dones, whole := AllDonesOwed(c, s), multiset(Indices(c.workers));
    assert |whole| == c.workers;
    assert whole == multiset(s.agg.past.doneBy) + (Bag(Enders(s.gradCh)) + Bag(dones));
    AllReceived(s.agg.past.doneBy, Enders(s.gradCh), dones, whole);
    forall j: nat | j < c.workers ensures !Unfinished(s, j) {
      assert dones[j] == [];
    }
    forall k | 0 <= k < |s.gradCh| ensures s.gradCh[k].ender == [] {
      assert Enders(s.gradCh)[k] == [];
    }
  }

  /** The epoch barrier: once W Dones are in, the channel is empty, every worker is
      back waiting with nothing sent to it, and the accumulators hold the gradient
      sum over all rows, each counted exactly once. */
  lemma Barrier(c: Config, s: State)
    requires ValidConfig(c) && Inv(c, s) && s.agg.progress.doneCount >= c.workers
    ensures s.agg.progress.doneCount == c.workers
    ensures s.gradCh == [] && s.coord.epoch == s.agg.epoch && s.coord.sent == c.workers
    ensures forall j: nat :: j < c.workers ==> s.params[j] == [] && !s.workers[j].pc.Sending?
    ensures multiset(s.agg.past.counted) == multiset(Indices(|c.rows|)) && s.agg.progress.totalN == |c.rows|
    ensures s.agg.progress.accum == GradSum(Theta(c, s.agg.epoch - 1), c.rows)
  {
    hide Bag;
    AllDone(c, s);
    assert !Unfinished(s, c.workers - 1);
    forall j: nat | j < c.workers
      ensures s.params[j] == [] && !s.workers[j].pc.Sending? && AllRowsOwed(c, s)[j] == []
    {
      assert !Unfinished(s, j);
    }
    NothingHeld(AllRowsOwed(c, s));
    AllCounted(c, s);
  }

  lemma AllCounted(c: Config, s: State)
    requires Ledgers(c, s) && s.gradCh == [] && Bag(AllRowsOwed(c, s)) == multiset{}
    ensures multiset(s.agg.past.counted) == multiset(Indices(|c.rows|)) && s.agg.progress.totalN == |c.rows|
    ensures s.agg.progress.accum == GradSum(s.agg.past.base, c.rows)
  {
    hide Bag;
    var order := s.agg.past.counted;
    assert Batches(s.gradCh) == [];
    BagEmpty<nat>();
    assert multiset(order) == multiset(Indices(|c.rows|));
    MultisetLength(order, Indices(|c.rows|));
    forall j: nat | j < |s.agg.past.base| ensures s.agg.progress.accum[j] == GradAt(s.agg.past.base, c.rows, j) {
      GradientOfAnyOrder(c.rows, s.agg.past.base, j, order);
    }
  }

  /** Steps after which every worker owes what it owed, on an unchanged channel. */
  lemma SameLedgers(c: Config, s: State, s': State)
    requires Ledgers(c, s) && Shape(c, s') && s'.gradCh == s.gradCh
    requires s'.agg.past == s.agg.past && s'.agg.progress == s.agg.progress
    requires forall j: nat :: j < c.workers ==>
               RowsOwed(s', j) == RowsOwed(s, j) && Unfinished(s', j) == Unfinished(s, j)
    ensures Ledgers(c, s')
  {
    hide Bag, Balanced;
    assert AllRowsOwed(c, s') == AllRowsOwed(c, s) && AllDonesOwed(c, s') == AllDonesOwed(c, s);
  }

  lemma SameChannel(c: Config, s: State, s': State)
    requires ChannelOk(c, s) && s'.gradCh == s.gradCh && s'.workers == s.workers
    requires s'.agg.epoch == s.agg.epoch && s'.agg.past == s.agg.past
    ensures ChannelOk(c, s')
  {
  }

  lemma CoordSendKeeps(c: Config, s: State)
    requires ValidConfig(c) && Inv(c, s) && Enabled(c, s, CoordSend)
    ensures Inv(c, Step(c, s, CoordSend))
  {
    hide Bag, Balanced, Ledgers, ChannelOk, LossHistory, GdRun;
    var i, s' := s.coord.sent, Step(c, s, CoordSend);
    if s.agg.publishing {
      Barrier(c, s);
    }
    assert HeldValue(s) == s.agg.past.base;
    assert WorkerOk(c, s, i);
    forall j: nat | j < c.workers
      ensures WorkerOk(c, s', j) && RowsOwed(s', j) == RowsOwed(s, j) && Unfinished(s', j) == Unfinished(s, j)
    {
      assert WorkerOk(c, s, j);
    }
    SameChannel(c, s, s');
    SameLedgers(c, s, s');
  }

  lemma CoordReceiveKeeps(c: Config, s: State)
    requires ValidConfig(c) && Inv(c, s) && Enabled(c, s, CoordReceive)
    ensures Inv(c, Step(c, s, CoordReceive))
  {
    hide Bag, Balanced, Ledgers, ChannelOk, GdRun;
    var s' := Step(c, s, CoordReceive);
    forall j: nat | j < c.workers
      ensures WorkerOk(c, s', j) && RowsOwed(s', j) == RowsOwed(s, j) && Unfinished(s', j) == Unfinished(s, j)
    {
      assert WorkerOk(c, s, j);
    }
    SameChannel(c, s, s');
    SameLedgers(c, s, s');
    assert s'.coord.history == LossHistory(c.rows, c.lr, c.dim, s.coord.epoch);
  }

  lemma CoordCloseKeeps(c: Config, s: State)
    requires ValidConfig(c) && Inv(c, s) && Enabled(c, s, CoordClose)
    ensures Inv(c, Step(c, s, CoordClose))
  {
    hide Bag, Balanced, Ledgers, ChannelOk, LossHistory, GdRun;
    var s' := Step(c, s, CoordClose);
    forall j: nat | j < c.workers
      ensures WorkerOk(c, s', j) && RowsOwed(s', j) == RowsOwed(s, j) && Unfinished(s', j) == Unfinished(s, j)
    {
      assert WorkerOk(c, s, j);
    }
    SameChannel(c, s, s');
    SameLedgers(c, s, s');
  }

  /** A step of worker j leaves the others as they were. */
  lemma OthersKeep(c: Config, s: State, s': State, j: nat, owed: seq<nat>, done: seq<nat>)
    requires WorkersOk(c, s) && Shape(c, s') && j < c.workers
    requires s'.coord == s.coord && s'.agg == s.agg
    requires s'.workers == s.workers[j := s'.workers[j]] && s'.params == s.params[j := s'.params[j]]
    requires WorkerOk(c, s', j)
    requires RowsOwed(s', j) == owed && (if Unfinished(s', j) then [j] else []) == done
    ensures WorkersOk(c, s')
    ensures AllRowsOwed(c, s') == AllRowsOwed(c, s)[j := owed]
    ensures AllDonesOwed(c, s') == AllDonesOwed(c, s)[j := done]
  {
    hide Bag, Balanced;
    forall i: nat | i < c.workers && i != j
      ensures WorkerOk(c, s', i) && RowsOwed(s', i) == RowsOwed(s, i) && Unfinished(s', i) == Unfinished(s, i)
    {
      assert WorkerOk(c, s, i);
    }
  }

  lemma WorkerExitKeeps(c: Config, s: State, j: nat)
    requires ValidConfig(c) && Inv(c, s) && Enabled(c, s, WorkerExit(j))
    ensures Inv(c, Step(c, s, WorkerExit(j)))
  {
    hide Bag, Balanced, LossHistory, GdRun, AbsorbAll;
    var s' := Step(c, s, WorkerExit(j));
    assert WorkerOk(c, s, j);
    OthersKeep(c, s, s', j, RowsOwed(s, j), if Unfinished(s, j) then [j] else []);
    assert AllRowsOwed(c, s') == AllRowsOwed(c, s) && AllDonesOwed(c, s') == AllDonesOwed(c, s);
    assert forall i :: 0 <= i < c.workers && s.workers[i].pc.Sending? ==> s'.workers[i].pc.Sending?;
  }

  lemma WorkerTakeKeeps(c: Config, s: State, j: nat, order: seq<nat>)
    requires ValidConfig(c) && Inv(c, s) && Enabled(c, s, WorkerTake(j, order))
    ensures Inv(c, Step(c, s, WorkerTake(j, order)))
  {
    hide Bag, Balanced, LossHistory, GdRun, AbsorbAll;
    var s' := Step(c, s, WorkerTake(j, order));
    assert WorkerOk(c, s, j);
    OthersKeep(c, s, s', j, order, [j]);
    Reorder(s.agg.past.counted, Batches(s.gradCh), AllRowsOwed(c, s), multiset(Indices(|c.rows|)), j, order);
    assert AllDonesOwed(c, s') == AllDonesOwed(c, s);
    assert s'.workers[j].pc.Sending?;
  }

  /** Worker j puts t on the channel and owes that much less. */
  lemma PutKeepsLedgers(c: Config, s: State, s': State, j: nat, t: Tagged, owed: seq<nat>, done: seq<nat>)
    requires Ledgers(c, s) && Shape(c, s') && j < c.workers
    requires s'.agg == s.agg && s'.gradCh == s.gradCh + [t]
    requires RowsOwed(s, j) == t.batch + owed && (if Unfinished(s, j) then [j] else []) == t.ender + done
    requires AllRowsOwed(c, s') == AllRowsOwed(c, s)[j := owed]
    requires AllDonesOwed(c, s') == AllDonesOwed(c, s)[j := done]
    ensures Ledgers(c, s')
  {
    hide Bag, Balanced;
    Send(s.agg.past.counted, Batches(s.gradCh), AllRowsOwed(c, s), multiset(Indices(|c.rows|)), j, t.batch, owed);
    Send(s.agg.past.doneBy, Enders(s.gradCh), AllDonesOwed(c, s), multiset(Indices(c.workers)), j, t.ender, done);
    assert Batches(s'.gradCh) == Batches(s.gradCh) + [t.batch];
    assert Enders(s'.gradCh) == Enders(s.gradCh) + [t.ender];
  }

  /** A good channel stays good when a message joins it whose sender, unless it says
      Done, is still at work. */
  lemma PutKeepsChannel(c: Config, s: State, s': State, j: nat, t: Tagged)
    requires ChannelOk(c, s) && s'.gradCh == s.gradCh + [t] && s'.agg == s.agg && MsgOk(c, s.agg, t)
    requires t.msg.Done? || (j < |s'.workers| && s'.workers[j].pc.Sending?)
    ensures ChannelOk(c, s')
  {
  }

  /** What sending one batch does to the sender: the batch leaves its debts. */
  lemma GradLocal(c: Config, s: State, j: nat)
    requires WorkersOk(c, s) && Enabled(c, s, WorkerGrad(j))
    ensures var s', w := Step(c, s, WorkerGrad(j)), s.workers[j];
            var t, rest := s'.gradCh[|s.gradCh|], w.order[BatchEnd(w.pc.start, c.batch, |w.order|)..];
            && WorkerOk(c, s', j) && MsgOk(c, s.agg, t) && t.ender == []
            && RowsOwed(s, j) == t.batch + rest && RowsOwed(s', j) == rest
            && Unfinished(s, j) && Unfinished(s', j)
  {
    hide MeanGrad;
    var s', w := Step(c, s, WorkerGrad(j)), s.workers[j];
    var t, end := s'.gradCh[|s.gradCh|], BatchEnd(w.pc.start, c.batch, |w.order|);
    assert WorkerOk(c, s, j);
    assert w.order[w.pc.start..] == t.batch + w.order[end..];
  }

  lemma WorkerGradKeeps(c: Config, s: State, j: nat)
    requires ValidConfig(c) && Inv(c, s) && Enabled(c, s, WorkerGrad(j))
    ensures Inv(c, Step(c, s, WorkerGrad(j)))
  {
    hide Bag, Balanced, Ledgers, ChannelOk, MsgOk, MeanGrad, LossHistory, GdRun, RowsOwed, WorkerOk;
    var s', w := Step(c, s, WorkerGrad(j)), s.workers[j];
    var t, rest := s'.gradCh[|s.gradCh|], w.order[BatchEnd(w.pc.start, c.batch, |w.order|)..];
    var me: seq<nat> := [j];
    GradLocal(c, s, j);
    OthersKeep(c, s, s', j, rest, me);
    assert t.ender + me == me;
    PutKeepsLedgers(c, s, s', j, t, rest, me);
    PutKeepsChannel(c, s, s', j, t);
  }

  lemma DoneLocal(c: Config, s: State, j: nat)
    requires WorkersOk(c, s) && Enabled(c, s, WorkerDone(j))
    ensures var s' := Step(c, s, WorkerDone(j));
            && WorkerOk(c, s', j) && MsgOk(c, s.agg, s'.gradCh[|s.gradCh|])
            && RowsOwed(s, j) == [] && RowsOwed(s', j) == []
            && Unfinished(s, j) && !Unfinished(s', j)
  {
    assert WorkerOk(c, s, j);
  }

  lemma WorkerDoneKeeps(c: Config, s: State, j: nat)
    requires ValidConfig(c) && Inv(c, s) && Enabled(c, s, WorkerDone(j))
    ensures Inv(c, Step(c, s, WorkerDone(j)))
  {
    hide Bag, Balanced, Ledgers, ChannelOk, MsgOk, LossHistory, GdRun, RowsOwed, WorkerOk;
    var s' := Step(c, s, WorkerDone(j));
    var t := s'.gradCh[|s.gradCh|];
    var nothing: seq<nat> := [];
    DoneLocal(c, s, j);
    OthersKeep(c, s, s', j, nothing, nothing);
    assert t.batch + nothing == nothing && t.ender + nothing == t.ender;
    PutKeepsLedgers(c, s, s', j, t, nothing, nothing);
    PutKeepsChannel(c, s, s', j, t);
  }

  lemma TakeKeepsLedgers(c: Config, s: State, s': State)
    requires Ledgers(c, s) && Shape(c, s') && s.gradCh != [] && MsgOk(c, s.agg, s.gradCh[0])
    requires var t := s.gradCh[0];
             && s'.gradCh == s.gradCh[1..] && s'.agg.progress == Absorb(s.agg.progress, t.msg)
             && s'.agg.past == Received(s.agg.past, t)
    requires AllRowsOwed(c, s') == AllRowsOwed(c, s) && AllDonesOwed(c, s') == AllDonesOwed(c, s)
    ensures Ledgers(c, s')
  {
    hide Bag, Balanced;
    Receive(s.agg.past.counted, Batches(s.gradCh), AllRowsOwed(c, s), multiset(Indices(|c.rows|)));
    Receive(s.agg.past.doneBy, Enders(s.gradCh), AllDonesOwed(c, s), multiset(Indices(c.workers)));
    assert Batches(s'.gradCh) == Batches(s.gradCh)[1..] && Enders(s'.gradCh) == Enders(s.gradCh)[1..];
    AbsorbBatch(c.rows, s.agg.past.base, s.agg.progress, s.agg.past.counted, s.gradCh[0].msg, s.gradCh[0].batch);
  }

  lemma AggReceiveKeeps(c: Config, s: State)
    requires ValidConfig(c) && Inv(c, s) && Enabled(c, s, AggReceive)
    ensures Inv(c, Step(c, s, AggReceive))
  {
    hide Bag, Balanced, Ledgers, LossHistory, GdRun, MeanGrad;
    var s' := Step(c, s, AggReceive);
    forall j: nat | j < c.workers
      ensures WorkerOk(c, s', j) && RowsOwed(s', j) == RowsOwed(s, j) && Unfinished(s', j) == Unfinished(s, j)
    {
      assert WorkerOk(c, s, j);
    }
    TakeKeepsLedgers(c, s, s');
    if s'.gradCh != [] {
      assert s'.gradCh[|s'.gradCh| - 1] == s.gradCh[|s.gradCh| - 1];
    }
  }

  lemma AggUpdateKeeps(c: Config, s: State)
    requires ValidConfig(c) && Inv(c, s) && Enabled(c, s, AggUpdate)
    ensures Inv(c, Step(c, s, AggUpdate))
  {
    hide Bag, Balanced, Ledgers, LossHistory, ChannelOk, Update, GradSum;
    var s' := Step(c, s, AggUpdate);
    Barrier(c, s);
    forall j: nat | j < c.workers
      ensures WorkerOk(c, s', j) && RowsOwed(s', j) == RowsOwed(s, j) && Unfinished(s', j) == Unfinished(s, j)
    {
      assert WorkerOk(c, s, j);
    }
    SameChannel(c, s, s');
    SameLedgers(c, s, s');
  }

  lemma AggPublishKeeps(c: Config, s: State)
    requires ValidConfig(c) && Inv(c, s) && Enabled(c, s, AggPublish)
    ensures Inv(c, Step(c, s, AggPublish))
  {
    hide Bag, Balanced, Ledgers, LossHistory, GdRun;
    var s' := Step(c, s, AggPublish);
    Barrier(c, s);
    forall j: nat | j < c.workers
      ensures WorkerOk(c, s', j) && multiset(s'.workers[j].order) == multiset(c.parts[j])
    {
      assert WorkerOk(c, s, j);
    }
    NewEpochLedgers(c, s');
  }

  lemma StepKeepsInv(c: Config, s: State, a: Action)
    requires ValidConfig(c) && Inv(c, s) && Enabled(c, s, a)
    ensures Inv(c, Step(c, s, a))
  {
    match a
    case CoordSend => CoordSendKeeps(c, s);
    case CoordReceive => CoordReceiveKeeps(c, s);
    case CoordClose => CoordCloseKeeps(c, s);
    case WorkerTake(j, order) => WorkerTakeKeeps(c, s, j, order);
    case WorkerGrad(j) => WorkerGradKeeps(c, s, j);
    case WorkerDone(j) => WorkerDoneKeeps(c, s, j);
    case WorkerExit(j) => WorkerExitKeeps(c, s, j);
    case AggReceive => AggReceiveKeeps(c, s);
    case AggUpdate => AggUpdateKeeps(c, s);
    case AggPublish => AggPublishKeeps(c, s);
  }
}
