/** internal/cluster: a coordinator and N nodes, one pair of FIFO streams per node.
    Nodes and streams may fail at any moment; replies are folded in arrival order. */
module Cluster {
  import opened Wrappers
  import opened Sums
  import opened Ledger
  import opened Descent
  import opened Gradient

  /** A message with its payload; the two kinds of the protocol always travel together. */
  datatype Envelope =
    | DataInit(rows: seq<Row>)
    | Param(epoch: nat, theta: Vec)
    | Gradient(epoch: nat, grad: Vec, n: nat)
    | Stop
    | Ack

  datatype Node = Serving(rows: seq<Row>) | Gone

  /** What a node replies to one message, and what it is afterwards. */
  function Handle(rows: seq<Row>, env: Envelope): (Node, seq<Envelope>) {
    match env
    case DataInit(init) => (Serving(init), [Ack])
    case Param(epoch, theta) => (Serving(rows), [Gradient(epoch, GradSum(theta, rows), |rows|)])
    case Stop => (Gone, [])
    case Gradient(_, _, _) => (Gone, [])
    case Ack => (Gone, [])
  }

  /** handleConn, one turn of its receive loop: it overwrites the data it holds. */
  class NodeSession {
    var rows: seq<Row>
    var open: bool

    constructor ()
      ensures open && rows == []
    {
      rows, open := [], true;
    }

    function State(): Node
      reads this
    {
      if open then Serving(rows) else Gone
    }

    method Receive(env: Envelope) returns (reply: seq<Envelope>)
      requires open && (env.Param? ==> Fits(rows, |env.theta|))
      modifies this
      ensures (State(), reply) == Handle(old(rows), env)
      ensures env.DataInit? ==> open && rows == env.rows && reply == [Ack]
      ensures env.Param? ==> open && rows == old(rows) && reply == [Gradient(env.epoch, GradSum(env.theta, rows), |rows|)]
      ensures env.Stop? || env.Gradient? || env.Ack? ==> !open && reply == []
    {
      reply := [];
      match env {
        case DataInit(init) =>
          rows := init;
          reply := [Ack];
        case Param(epoch, theta) =>
          var th := new real[|theta|](i requires 0 <= i < |theta| => theta[i]);
          assert th[..] == theta;
          var gradSum, n := AccumulateGradient(rows, th);
          reply := [Gradient(epoch, gradSum[..], n)];
        case Stop =>
          open := false;
        case _ =>
          open := false;
      }
    }
  }

  /** What a goroutine reports; `from` is history. */
  datatype Result = Reply(from: nat, epoch: nat, grad: Vec, n: nat) | Failure(from: nat)

  /** The coordinator's accumulators within one epoch. */
  datatype Tally = Tally(gradTotal: Vec, totalN: nat, firstErr: bool)

  function EmptyTally(dim: nat): Tally {
    Tally(Zeros(dim), 0, false)
  }

  function Fold(t: Tally, r: Result): (u: Tally)
    ensures |u.gradTotal| == |t.gradTotal|
  {
    match r
    case Failure(_) => t.(firstErr := true)
    case Reply(_, _, g, n) =>
      Tally(seq(|t.gradTotal|, j requires 0 <= j < |t.gradTotal| => t.gradTotal[j] + At(g, j)), t.totalN + n, t.firstErr)
  }

  function FoldAll(t: Tally, results: seq<Result>): (u: Tally)
    ensures |u.gradTotal| == |t.gradTotal|
  {
    if results == [] then t else Fold(FoldAll(t, results[..|results| - 1]), results[|results| - 1])
  }

  datatype Outcome = Updated | NodeFailed | TimedOut

  /** How an epoch ends for these results in arrival order, and theta after it. The clock
      is read at each result: `inTime` is how many arrive before the deadline. */
  function Concluded(theta: Vec, results: seq<Result>, inTime: nat, lr: real): (Outcome, Vec) {
    var t := FoldAll(EmptyTally(|theta|), results);
    if inTime < |results| then (TimedOut, theta)
    else if t.firstErr then (NodeFailed, theta)
    else (Updated, Update(theta, t.gradTotal, t.totalN, lr))
  }

  /** The aggregation and update of one epoch. After a failure the rest is still
      drained, and theta is left alone. */
  method AggregateEpoch(results: seq<Result>, inTime: nat, theta: array<real>, lr: real) returns (outcome: Outcome)
    requires forall k :: 0 <= k < |results| && results[k].Reply? ==> |results[k].grad| == theta.Length
    modifies theta
    ensures (outcome, theta[..]) == Concluded(old(theta[..]), results, inTime, lr)
    ensures outcome.TimedOut? <==> inTime < |results|
    ensures outcome.Updated? <==> |results| <= inTime && forall k :: 0 <= k < |results| ==> results[k].Reply?
    ensures !outcome.Updated? ==> theta[..] == old(theta[..])
  {
    hide Update, FoldAll;
    OneFailureCounts(EmptyTally(theta.Length), results);
    var gradTotal := new real[theta.Length](i => 0.0);
    var totalN, firstErr := 0, false;
    FoldNone(EmptyTally(theta.Length), results);
    for k := 0 to |results|
      invariant theta[..] == old(theta[..]) && k <= inTime
      invariant FoldAll(EmptyTally(theta.Length), results[..k]) == Tally(gradTotal[..], totalN, firstErr)
    {
      if k >= inTime {
        return TimedOut;
      }
      FoldOneMore(EmptyTally(theta.Length), results, k);
      match results[k] {
        case Failure(_) =>
          firstErr := true;
        case Reply(_, _, g, n) =>
          ghost var before := gradTotal[..];
          AddTo(gradTotal, g);
          totalN := totalN + n;
          assert gradTotal[..] == Fold(Tally(before, 0, false), results[k]).gradTotal;
      }
    }
    if firstErr {
      return NodeFailed;
    }
    ApplyUpdate(theta, gradTotal, totalN, lr);
    return Updated;
  }

  lemma FoldNone(t: Tally, results: seq<Result>)
    ensures FoldAll(t, results[..0]) == t && results[..|results|] == results
  {
  }

  lemma {:induction false} OneFailureCounts(t: Tally, results: seq<Result>)
    ensures FoldAll(t, results).firstErr <==> t.firstErr || exists k :: 0 <= k < |results| && results[k].Failure?
  {
    if results != [] {
      OneFailureCounts(t, results[..|results| - 1]);
    }
  }

  lemma FoldOneMore(t: Tally, results: seq<Result>, k: nat)
    requires k < |results|
    ensures FoldAll(t, results[..k + 1]) == Fold(FoldAll(t, results[..k]), results[k])
  {
    assert results[..k + 1][..k] == results[..k];
  }

  method AddTo(total: array<real>, g: Vec)
    requires |g| == total.Length
    modifies total
    ensures forall j :: 0 <= j < total.Length ==> total[j] == old(total[j]) + g[j]
  {
    for j := 0 to total.Length
      invariant forall m :: 0 <= m < j ==> total[m] == old(total[m]) + g[m]
      invariant forall m :: j <= m < total.Length ==> total[m] == old(total[m])
    {
      total[j] := total[j] + g[j];
    }
  }

  // ---- the transition system ----

  datatype Config = Config(rows: seq<Row>, dim: nat, nodes: nat, epochs: nat, lr: real)

  ghost predicate ValidConfig(c: Config) {
    0 < c.nodes && 0 < c.epochs
  }

  datatype Phase = Dialling(i: nat, asked: bool) | Epoch(e: nat) | Stopping(i: nat) | Failed

  /** One goroutine per node and epoch. */
  datatype Fan = Idle | Awaiting | Replied | Broke

  /** History of this epoch: the results folded so far, and the nodes they came from. */
  datatype State = State(phase: Phase, theta: Vec, history: seq<Option<real>>,
                         nodes: seq<Node>, toNode: seq<seq<Envelope>>, fromNode: seq<seq<Envelope>>,
                         fans: seq<Fan>, resultCh: seq<Result>, tally: Tally, folded: seq<Result>, seen: seq<nat>)

  datatype Action =
    | SendInit | TakeAck | DialFault
    | FanSend(i: nat) | FanSendFault(i: nat) | FanReceive(i: nat) | FanReceiveFault(i: nat)
    | FoldNext | Timeout | EndEpoch | SendStop
    | NodeHandle(i: nat) | NodeFault(i: nat) | NodeReplyFault(i: nat)

  predicate IsFault(a: Action) {
    a.DialFault? || a.FanSendFault? || a.FanReceiveFault? || a.Timeout? || a.NodeFault? || a.NodeReplyFault?
  }

  function Init(c: Config): State {
    State(Dialling(0, false), Zeros(c.dim), [], seq(c.nodes, i => Serving([])), seq(c.nodes, i => []),
          seq(c.nodes, i => []), seq(c.nodes, i => Idle), [], EmptyTally(c.dim), [], [])
  }

  ghost predicate Shape(c: Config, s: State) {
    && |s.nodes| == c.nodes && |s.toNode| == c.nodes && |s.fromNode| == c.nodes && |s.fans| == c.nodes
    && |s.theta| == c.dim && |s.tally.gradTotal| == c.dim
  }

  ghost predicate Enabled(c: Config, s: State, a: Action)
    requires Shape(c, s)
  {
    match a
    case SendInit => s.phase.Dialling? && !s.phase.asked && s.phase.i < c.nodes
    case TakeAck => s.phase.Dialling? && s.phase.asked && s.phase.i < c.nodes && s.fromNode[s.phase.i] != []
    case DialFault => s.phase.Dialling?
    case FanSend(i) => s.phase.Epoch? && i < c.nodes && s.fans[i].Idle?
    case FanSendFault(i) => s.phase.Epoch? && i < c.nodes && s.fans[i].Idle?
    case FanReceive(i) => s.phase.Epoch? && i < c.nodes && s.fans[i].Awaiting? && s.fromNode[i] != []
    case FanReceiveFault(i) => s.phase.Epoch? && i < c.nodes && s.fans[i].Awaiting?
    case FoldNext => s.phase.Epoch? && s.resultCh != []
    case Timeout => s.phase.Epoch? && s.resultCh != []
    case EndEpoch =>
      s.phase.Epoch? && s.resultCh == [] && forall i :: 0 <= i < c.nodes ==> s.fans[i].Replied? || s.fans[i].Broke?
    case SendStop => s.phase.Stopping? && s.phase.i < c.nodes
    case NodeHandle(i) => i < c.nodes && s.nodes[i].Serving? && s.toNode[i] != []
    case NodeFault(i) => i < c.nodes && s.nodes[i].Serving?
    case NodeReplyFault(i) => i < c.nodes && s.nodes[i].Serving? && s.toNode[i] != []
  }

  /** What a goroutine makes of the next message from its node. */
  function Understand(i: nat, env: Envelope): Result {
    match env
    case Gradient(epoch, g, n) => Reply(i, epoch, g, n)
    case _ => Failure(i)
  }

  function AfterEpoch(c: Config, s: State): State
    requires s.phase.Epoch? && |s.tally.gradTotal| == |s.theta|
  {
    if s.tally.firstErr then s.(phase := Failed)
    else
      var theta := Update(s.theta, s.tally.gradTotal, s.tally.totalN, c.lr);
      s.(theta := theta, history := s.history + [Loss(c.rows, theta)],
         phase := if s.phase.e < c.epochs then Epoch(s.phase.e + 1) else Stopping(0),
         fans := seq(|s.fans|, i => Idle), tally := EmptyTally(|s.theta|), folded := [], seen := [])
  }

  ghost function Step(c: Config, s: State, a: Action): State
    requires Shape(c, s) && Enabled(c, s, a)
  {
    match a
    case SendInit =>
      var i := s.phase.i;
      s.(toNode := s.toNode[i := s.toNode[i] + [DataInit(PartRows(c.rows, c.nodes, i))]], phase := Dialling(i, true))
    case TakeAck =>
      var i := s.phase.i;
      s.(fromNode := s.fromNode[i := s.fromNode[i][1..]],
         phase := if !s.fromNode[i][0].Ack? then Failed
                  else if i + 1 < c.nodes then Dialling(i + 1, false) else Epoch(1))
    case DialFault => s.(phase := Failed)
    case FanSend(i) =>
      s.(toNode := s.toNode[i := s.toNode[i] + [Param(s.phase.e, s.theta)]], fans := s.fans[i := Awaiting])
    case FanSendFault(i) => s.(fans := s.fans[i := Broke], resultCh := s.resultCh + [Failure(i)])
    case FanReceive(i) =>
      var r := Understand(i, s.fromNode[i][0]);
      s.(fromNode := s.fromNode[i := s.fromNode[i][1..]],
         fans := s.fans[i := if r.Reply? then Replied else Broke], resultCh := s.resultCh + [r])
    case FanReceiveFault(i) => s.(fans := s.fans[i := Broke], resultCh := s.resultCh + [Failure(i)])
    case FoldNext =>
      var r := s.resultCh[0];
      s.(resultCh := s.resultCh[1..], tally := Fold(s.tally, r), folded := s.folded + [r], seen := s.seen + [r.from])
    case Timeout => s.(phase := Failed)
    case EndEpoch => AfterEpoch(c, s)
    case SendStop =>
      var i := s.phase.i;
      s.(toNode := s.toNode[i := s.toNode[i] + [Stop]], phase := Stopping(i + 1))
    case NodeHandle(i) =>
      var (node, reply) := Handle(s.nodes[i].rows, s.toNode[i][0]);
      s.(nodes := s.nodes[i := node], toNode := s.toNode[i := s.toNode[i][1..]],
         fromNode := s.fromNode[i := s.fromNode[i] + reply])
    case NodeFault(i) => s.(nodes := s.nodes[i := Gone])
    case NodeReplyFault(i) => s.(nodes := s.nodes[i := Gone], toNode := s.toNode[i := s.toNode[i][1..]])
  }

  // ---- the invariant ----

  function Theta(c: Config, epochs: nat): Vec {
    GdRun(c.rows, c.lr, c.dim, epochs)
  }

  ghost predicate Holds(node: Node, rows: seq<Row>) {
    node.Gone? || node == Serving(rows)
  }

  /** Node i while the nodes are being dialled one after the other. */
  ghost predicate DialOk(c: Config, s: State, i: nat)
    requires Shape(c, s) && s.phase.Dialling? && i < c.nodes
  {
    var part, to, from, node := PartRows(c.rows, c.nodes, i), s.toNode[i], s.fromNode[i], s.nodes[i];
    && s.fans[i].Idle?
    && if i < s.phase.i then to == [] && from == [] && Holds(node, part)
       else if i > s.phase.i || !s.phase.asked then to == [] && from == [] && Holds(node, [])
       else || (to == [DataInit(part)] && from == [] && Holds(node, []))
            || (to == [] && from == [Ack] && Holds(node, part))
            || (to == [] && from == [] && node.Gone?)
  }

  /** The one reply node i can give in this epoch. */
  function Expected(c: Config, e: nat, theta: Vec, i: nat): Envelope
    requires i < c.nodes
  {
    Gradient(e, GradSum(theta, PartRows(c.rows, c.nodes, i)), |PartRows(c.rows, c.nodes, i)|)
  }

  /** Node i and its streams within an epoch. Nothing is said once its goroutine has
      given up on it. */
  ghost predicate LinkOk(c: Config, s: State, i: nat)
    requires Shape(c, s) && s.phase.Epoch? && i < c.nodes
  {
    var to, from, node := s.toNode[i], s.fromNode[i], s.nodes[i];
    s.fans[i].Broke? ||
    (&& Holds(node, PartRows(c.rows, c.nodes, i))
     && if s.fans[i].Awaiting? then
          || (to == [Param(s.phase.e, s.theta)] && from == [])
          || (to == [] && from == [Expected(c, s.phase.e, s.theta, i)])
          || (to == [] && from == [] && node.Gone?)
        else to == [] && from == [])
  }

  /** A reply on resultCh was computed in this epoch, from this theta, on that node's
      own partition. */
  ghost predicate ResultOk(c: Config, s: State, r: Result)
    requires s.phase.Epoch?
  {
    && r.from < c.nodes
    && (r.Reply? ==> Gradient(r.epoch, r.grad, r.n) == Expected(c, s.phase.e, s.theta, r.from))
  }

  function Sources(ch: seq<Result>): seq<seq<nat>> {
    seq(|ch|, k requires 0 <= k < |ch| => [ch[k].from])
  }

  ghost function Pending(fans: seq<Fan>): (owed: seq<seq<nat>>)
    ensures |owed| == |fans|
  {
    seq(|fans|, i requires 0 <= i < |fans| => if fans[i].Idle? || fans[i].Awaiting? then [i] else [])
  }

  ghost predicate NodeLedger(c: Config, s: State) {
    Balanced(s.seen, Sources(s.resultCh), Pending(s.fans), multiset(Indices(c.nodes)))
  }

  /** The accumulators are those of the loop after the results folded so far. */
  ghost predicate FoldedOk(c: Config, s: State) {
    s.tally == FoldAll(EmptyTally(c.dim), s.folded)
  }

  ghost predicate TallyOk(c: Config, s: State) {
    !s.tally.firstErr ==>
      && s.tally.gradTotal == seq(c.dim, j requires 0 <= j => Sum(PieceGradient(c.rows, c.nodes, s.theta, j), s.seen))
      && s.tally.totalN as real == Sum(PieceSize(c.rows, c.nodes), s.seen)
  }

  /** A goroutine that gave up has said so, or the epoch already counts as failed. */
  ghost predicate FaultsRecorded(s: State) {
    forall i: nat :: i < |s.fans| && s.fans[i].Broke? ==> s.tally.firstErr || Failure(i) in s.resultCh
  }

  ghost predicate DialInv(c: Config, s: State) {
    && Shape(c, s) && s.phase.Dialling?
    && s.phase.i < c.nodes && s.history == [] && s.resultCh == [] && s.seen == [] && s.folded == []
    && s.tally == EmptyTally(c.dim)
    && forall i: nat :: i < c.nodes ==> DialOk(c, s, i)
  }

  ghost predicate LinksOk(c: Config, s: State) {
    && Shape(c, s) && s.phase.Epoch?
    && (forall i: nat :: i < c.nodes ==> LinkOk(c, s, i))
    && (forall k :: 0 <= k < |s.resultCh| ==> ResultOk(c, s, s.resultCh[k]))
  }

  ghost predicate EpochInv(c: Config, s: State) {
    && LinksOk(c, s)
    && 1 <= s.phase.e <= c.epochs && |s.history| == s.phase.e - 1
    && NodeLedger(c, s) && FoldedOk(c, s) && TallyOk(c, s) && FaultsRecorded(s)
  }

  /** After the last epoch: every stream is empty but for Stops on their way, and a node
      that has taken its Stop is gone. */
  ghost predicate StopInv(c: Config, s: State) {
    && Shape(c, s) && s.phase.Stopping? && s.phase.i <= c.nodes
    && forall i: nat :: i < c.nodes ==>
         && s.fromNode[i] == []
         && if i < s.phase.i then s.toNode[i] == [Stop] || (s.toNode[i] == [] && s.nodes[i].Gone?)
            else s.toNode[i] == []
  }

  /** Theta is always the descent of the epochs completed so far. */
  ghost predicate Inv(c: Config, s: State) {
    && Shape(c, s)
    && s.theta == Theta(c, |s.history|)
    && s.history == LossHistory(c.rows, c.lr, c.dim, |s.history|)
    && match s.phase
       case Dialling(_, _) => DialInv(c, s)
       case Epoch(_) => EpochInv(c, s)
       case Stopping(_) => |s.history| == c.epochs && StopInv(c, s)
       case Failed => true
  }

  lemma InitInv(c: Config)
    requires ValidConfig(c)
    ensures Inv(c, Init(c))
  {
    hide PartRows;
    assert DialInv(c, Init(c));
  }

  lemma PendingAll(n: nat, fans: seq<Fan>)
    requires |fans| == n && forall i: nat :: i < n ==> fans[i].Idle?
    ensures Bag(Pending(fans)) == multiset(Indices(n))
  {
    PendingPrefix(n, fans, n);
    assert Pending(fans)[..n] == Pending(fans);
    assert Indices(n)[..n] == Indices(n);
  }

  lemma {:induction false} PendingPrefix(n: nat, fans: seq<Fan>, k: nat)
    requires |fans| == n && k <= n && forall i: nat :: i < n ==> fans[i].Idle?
    ensures Bag(Pending(fans)[..k]) == multiset(Indices(n)[..k])
  {
    hide Bag;
    if k == 0 {
      BagEmpty<nat>();
    } else {
      var last: seq<nat> := [k - 1];
      PendingPrefix(n, fans, k - 1);
      assert Pending(fans)[..k] == Pending(fans)[..k - 1] + [last];
      assert Indices(n)[..k] == Indices(n)[..k - 1] + last;
      BagConcat(Pending(fans)[..k - 1], [last]);
      BagSingle(last);
    }
  }

  /** The start of an epoch: nothing folded, every node still to answer. */
  lemma FreshEpoch(c: Config, s: State)
    requires ValidConfig(c) && Shape(c, s) && s.phase.Epoch? && 1 <= s.phase.e <= c.epochs
    requires s.resultCh == [] && s.seen == [] && s.folded == [] && s.tally == EmptyTally(c.dim)
    requires |s.history| == s.phase.e - 1
    requires forall i: nat :: i < c.nodes ==> s.fans[i].Idle? && LinkOk(c, s, i)
    ensures EpochInv(c, s)
  {
    hide Bag, PartRows;
    PendingAll(c.nodes, s.fans);
    BagEmpty<nat>();
    assert Sources(s.resultCh) == [];
    assert TallyOk(c, s);
  }

  lemma DialStepKeeps(c: Config, s: State, a: Action)
    requires ValidConfig(c) && Inv(c, s) && Enabled(c, s, a) && s.phase.Dialling?
    ensures Inv(c, Step(c, s, a))
  {
    hide PartRows, GdRun, LossHistory, GradSum, EpochInv;
    var s' := Step(c, s, a);
    assert forall i: nat :: i < c.nodes ==> DialOk(c, s, i);
    if s'.phase.Epoch? {
      assert DialOk(c, s, s.phase.i);
      forall i: nat | i < c.nodes ensures s'.fans[i].Idle? && LinkOk(c, s', i) {
        assert DialOk(c, s, i);
      }
      FreshEpoch(c, s');
    } else if s'.phase.Dialling? {
      assert DialOk(c, s, s.phase.i);
      forall i: nat | i < c.nodes ensures DialOk(c, s', i) {
        assert DialOk(c, s, i);
      }
    }
  }

  // ---- steps within an epoch ----

  lemma FanReportsKeepsLedger(c: Config, s: State, s': State, i: nat, r: Result)
    requires NodeLedger(c, s) && |s.fans| == c.nodes && i < c.nodes
    requires s.fans[i].Idle? || s.fans[i].Awaiting?
    requires s'.seen == s.seen && s'.resultCh == s.resultCh + [r] && r.from == i
    requires |s'.fans| == c.nodes && s'.fans == s.fans[i := s'.fans[i]]
    requires s'.fans[i].Replied? || s'.fans[i].Broke?
    ensures NodeLedger(c, s')
  {
    hide Bag, Balanced;
    var me: seq<nat>, nothing: seq<nat> := [i], [];
    assert me + nothing == me;
    assert Pending(s.fans)[i] == me + nothing;
    Send(s.seen, Sources(s.resultCh), Pending(s.fans), multiset(Indices(c.nodes)), i, me, nothing);
    assert Sources(s'.resultCh) == Sources(s.resultCh) + [me];
    assert Pending(s'.fans) == Pending(s.fans)[i := nothing];
  }

  lemma FanStepKeeps(c: Config, s: State, a: Action)
    requires ValidConfig(c) && Inv(c, s) && Enabled(c, s, a) && s.phase.Epoch?
    requires a.FanSendFault? || a.FanReceive? || a.FanReceiveFault?
    ensures Inv(c, Step(c, s, a))
  {
    hide Bag, Balanced, NodeLedger, PartRows, GdRun, LossHistory, GradSum, Sum;
    var s', i := Step(c, s, a), a.i;
    assert LinkOk(c, s, i);
    FanReportsKeepsLedger(c, s, s', i, s'.resultCh[|s.resultCh|]);
    forall j: nat | j < c.nodes ensures LinkOk(c, s', j) {
      assert LinkOk(c, s, j);
    }
    forall j: nat | j < c.nodes && s'.fans[j].Broke? ensures s'.tally.firstErr || Failure(j) in s'.resultCh {
      assert j == i ==> s'.resultCh[|s.resultCh|] == Failure(i);
    }
  }

  lemma LinkStepKeeps(c: Config, s: State, a: Action)
    requires ValidConfig(c) && Inv(c, s) && Enabled(c, s, a) && s.phase.Epoch?
    requires a.FanSend? || a.NodeHandle? || a.NodeFault? || a.NodeReplyFault?
    ensures Inv(c, Step(c, s, a))
  {
    hide Bag, Balanced, PartRows, GdRun, LossHistory, GradSum, Sum;
    var s', i := Step(c, s, a), a.i;
    assert LinkOk(c, s, i);
    forall j: nat | j < c.nodes ensures LinkOk(c, s', j) {
      assert LinkOk(c, s, j);
    }
    assert Pending(s'.fans) == Pending(s.fans);
  }

  lemma FoldKeepsTally(c: Config, s: State, s': State, r: Result)
    requires Shape(c, s) && s.phase.Epoch? && TallyOk(c, s) && ResultOk(c, s, r)
    requires s'.tally == Fold(s.tally, r) && s'.seen == s.seen + [r.from] && s'.theta == s.theta
    ensures TallyOk(c, s')
  {
    hide PartRows;
    if !s'.tally.firstErr {
      var one: seq<nat> := [r.from];
      forall j: nat | j < c.dim
        ensures s'.tally.gradTotal[j] == Sum(PieceGradient(c.rows, c.nodes, s.theta, j), s'.seen)
      {
        SumConcat(PieceGradient(c.rows, c.nodes, s.theta, j), s.seen, one);
        SumOne(PieceGradient(c.rows, c.nodes, s.theta, j), r.from);
      }
      SumConcat(PieceSize(c.rows, c.nodes), s.seen, one);
      SumOne(PieceSize(c.rows, c.nodes), r.from);
    }
  }

  lemma FoldAppend(t: Tally, results: seq<Result>, r: Result)
    ensures FoldAll(t, results + [r]) == Fold(FoldAll(t, results), r)
  {
    assert (results + [r])[..|results|] == results;
  }

  lemma SumOne(f: nat -> real, x: nat)
    ensures Sum(f, [x]) == f(x)
  {
    assert [x][..0] == [];
  }

  lemma FoldStepKeeps(c: Config, s: State)
    requires ValidConfig(c) && Inv(c, s) && Enabled(c, s, FoldNext)
    ensures Inv(c, Step(c, s, FoldNext))
  {
    hide Bag, Balanced, PartRows, GdRun, LossHistory, GradSum, Sum, TallyOk;
    var s', r := Step(c, s, FoldNext), s.resultCh[0];
    assert ResultOk(c, s, r);
    FoldKeepsTally(c, s, s', r);
    FoldAppend(EmptyTally(c.dim), s.folded, r);
    Receive(s.seen, Sources(s.resultCh), Pending(s.fans), multiset(Indices(c.nodes)));
    assert Sources(s'.resultCh) == Sources(s.resultCh)[1..];
    forall j: nat | j < c.nodes ensures LinkOk(c, s', j) {
      assert LinkOk(c, s, j);
    }
    forall j: nat | j < c.nodes && s'.fans[j].Broke? ensures s'.tally.firstErr || Failure(j) in s'.resultCh {
      assert s.tally.firstErr || Failure(j) in s.resultCh;
      assert s.resultCh == [r] + s'.resultCh;
    }
  }

  /** When the channel has been drained after all goroutines ended and none failed,
      the accumulators hold the gradient sum over all rows. */
  lemma EpochIsComplete(c: Config, s: State)
    requires ValidConfig(c) && Inv(c, s) && Enabled(c, s, EndEpoch) && !s.tally.firstErr
    ensures s.tally.gradTotal == GradSum(s.theta, c.rows) && s.tally.totalN == |c.rows|
    ensures forall i: nat :: i < c.nodes ==> s.fans[i].Replied?
  {
    hide Bag, PartRows, GdRun, LossHistory;
    NothingHeld(Pending(s.fans));
    BagEmpty<nat>();
    assert Sources(s.resultCh) == [];
    assert multiset(s.seen) == multiset(Indices(c.nodes));
    forall j: nat | j < c.dim ensures s.tally.gradTotal[j] == GradAt(s.theta, c.rows, j) {
      PiecesAddUp(c.rows, c.nodes, s.theta, j, s.seen);
    }
    PiecesAddUp(c.rows, c.nodes, s.theta, 0, s.seen);
  }

  lemma EndEpochKeeps(c: Config, s: State)
    requires ValidConfig(c) && Inv(c, s) && Enabled(c, s, EndEpoch)
    ensures Inv(c, Step(c, s, EndEpoch))
  {
    hide Bag, Balanced, PartRows, Update, GradSum, Sum;
    var s' := Step(c, s, EndEpoch);
    if !s.tally.firstErr {
      EpochIsComplete(c, s);
      assert s'.theta == Theta(c, |s.history| + 1);
      assert s'.history == LossHistory(c.rows, c.lr, c.dim, |s.history| + 1);
      if s'.phase.Epoch? {
        forall i: nat | i < c.nodes ensures s'.fans[i].Idle? && LinkOk(c, s', i) {
          assert LinkOk(c, s, i);
        }
        FreshEpoch(c, s');
      } else {
        forall i: nat | i < c.nodes ensures s'.toNode[i] == [] && s'.fromNode[i] == [] {
          assert LinkOk(c, s, i);
        }
      }
    }
  }

  lemma StopStepKeeps(c: Config, s: State, a: Action)
    requires ValidConfig(c) && Inv(c, s) && Enabled(c, s, a) && s.phase.Stopping?
    ensures Inv(c, Step(c, s, a))
  {
    hide PartRows, GdRun, LossHistory, GradSum;
  }

  lemma StepKeepsInv(c: Config, s: State, a: Action)
    requires ValidConfig(c) && Inv(c, s) && Enabled(c, s, a)
    ensures Inv(c, Step(c, s, a))
  {
    hide DialInv, EpochInv, StopInv, GdRun, LossHistory, PartRows, GradSum;
    if s.phase.Dialling? {
      DialStepKeeps(c, s, a);
    } else if s.phase.Epoch? {
      match a
      case FoldNext => FoldStepKeeps(c, s);
      case EndEpoch => EndEpochKeeps(c, s);
      case Timeout =>
      case FanSend(_) => LinkStepKeeps(c, s, a);
      case NodeHandle(_) => LinkStepKeeps(c, s, a);
      case NodeFault(_) => LinkStepKeeps(c, s, a);
      case NodeReplyFault(_) => LinkStepKeeps(c, s, a);
      case _ => FanStepKeeps(c, s, a);
    } else if s.phase.Stopping? {
      StopStepKeeps(c, s, a);
    }
  }
}
