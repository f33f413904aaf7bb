/** What holds of every run of TrainDistributed, with and without failures. */
module ClusterRuns {
  import opened Sums
  import opened Ledger
  import opened Descent
  import opened Gradient
  import opened Cluster

  ghost predicate Legal(c: Config, s: State, schedule: seq<Action>)
    decreases |schedule|
  {
    schedule == [] ||
    (Shape(c, s) && Enabled(c, s, schedule[0]) && Legal(c, Step(c, s, schedule[0]), schedule[1..]))
  }

  ghost function Exec(c: Config, s: State, schedule: seq<Action>): State
    requires Legal(c, s, schedule)
    decreases |schedule|
  {
    if schedule == [] then s else Exec(c, Step(c, s, schedule[0]), schedule[1..])
  }

  /** A model is returned: all epochs are over and every node has been told to stop. */
  ghost predicate Succeeded(c: Config, s: State) {
    s.phase == Stopping(c.nodes)
  }

  // ---- termination ----

  function EpochWeight(c: Config, e: nat): nat {
    (if e <= c.epochs then (c.epochs + 1 - e) * (5 * c.nodes + 1) else 0) + 3 * c.nodes + 1
  }

  function PhaseWeight(c: Config, p: Phase): nat {
    match p
    case Dialling(i, asked) =>
      EpochWeight(c, 1) + (if i < c.nodes then 4 * (c.nodes - i) else 3) + (if asked then 0 else 3)
    case Epoch(e) => EpochWeight(c, e)
    case Stopping(i) => if i < c.nodes then 3 * (c.nodes - i) else 0
    case Failed => 0
  }

  function LinkWeight(fan: Fan, to: nat, from: nat, node: Node): nat {
    2 * to + from
    + (match fan case Idle => 5 case Awaiting => 2 case Replied => 0 case Broke => 0)
    + (if node.Serving? then 1 else 0)
  }

  ghost function LinkWeights(c: Config, s: State): (ws: seq<nat>)
    requires Shape(c, s)
    ensures |ws| == c.nodes
  {
    seq(c.nodes, i requires 0 <= i < c.nodes => LinkWeight(s.fans[i], |s.toNode[i]|, |s.fromNode[i]|, s.nodes[i]))
  }

  ghost function Measure(c: Config, s: State): nat
    requires Shape(c, s)
  {
    PhaseWeight(c, s.phase) + Total(LinkWeights(c, s)) + |s.resultCh|
  }

  lemma OneLink(c: Config, s: State, s': State, i: nat)
    requires Shape(c, s) && Shape(c, s') && i < c.nodes
    requires s'.fans == s.fans[i := s'.fans[i]] && s'.nodes == s.nodes[i := s'.nodes[i]]
    requires s'.toNode == s.toNode[i := s'.toNode[i]] && s'.fromNode == s.fromNode[i := s'.fromNode[i]]
    ensures Total(LinkWeights(c, s')) + LinkWeights(c, s)[i] == Total(LinkWeights(c, s)) + LinkWeights(c, s')[i]
  {
    hide Total, LinkWeight;
    TotalUpdate(LinkWeights(c, s), i, LinkWeights(c, s')[i]);
    assert LinkWeights(c, s') == LinkWeights(c, s)[i := LinkWeights(c, s')[i]];
  }

  /** A new epoch costs each link at most its five again. */
  lemma {:induction false} ResetLinks(a: seq<nat>, b: seq<nat>)
    requires |a| == |b| && forall i :: 0 <= i < |a| ==> b[i] <= a[i] + 5
    ensures Total(b) <= Total(a) + 5 * |a|
  {
    if a != [] {
      ResetLinks(a[..|a| - 1], b[..|b| - 1]);
    }
  }

  lemma EpochWeightStep(c: Config, e: nat)
    requires e <= c.epochs
    ensures EpochWeight(c, e) == EpochWeight(c, e + 1) + 5 * c.nodes + 1
  {
    var k, left := 5 * c.nodes + 1, c.epochs - e;
    assert (left + 1) * k == left * k + k;
  }

  /** A step of one link, or of the coordinator towards one node. */
  lemma LinkStepDecreases(c: Config, s: State, a: Action, i: nat)
    requires ValidConfig(c) && Inv(c, s) && Enabled(c, s, a) && Shape(c, Step(c, s, a))
    requires (a.FanSend? || a.FanSendFault? || a.FanReceive? || a.FanReceiveFault?
              || a.NodeHandle? || a.NodeFault? || a.NodeReplyFault?) && a.i == i
    ensures Measure(c, Step(c, s, a)) < Measure(c, s)
  {
    hide Total, PhaseWeight, LinkWeights, PartRows, GradSum, GdRun, LossHistory, EpochInv, DialInv, Update;
    var s' := Step(c, s, a);
    OneLink(c, s, s', i);
    OneLinkWeight(c, s, i);
    OneLinkWeight(c, s', i);
  }

  lemma OneLinkWeight(c: Config, s: State, i: nat)
    requires Shape(c, s) && i < c.nodes
    ensures LinkWeights(c, s)[i] == LinkWeight(s.fans[i], |s.toNode[i]|, |s.fromNode[i]|, s.nodes[i])
  {
  }

  lemma CallStepDecreases(c: Config, s: State, a: Action)
    requires ValidConfig(c) && Inv(c, s) && Enabled(c, s, a) && Shape(c, Step(c, s, a))
    requires a.SendInit? || a.TakeAck? || a.SendStop?
    ensures Measure(c, Step(c, s, a)) < Measure(c, s)
  {
    hide Total, EpochWeight, LinkWeights, PartRows, GradSum, GdRun, LossHistory, EpochInv, DialInv, Update;
    var s', i := Step(c, s, a), s.phase.i;
    OneLink(c, s, s', i);
    OneLinkWeight(c, s, i);
    OneLinkWeight(c, s', i);
  }

  /** Every step lowers the measure, so no run is endless. */
  lemma StepDecreases(c: Config, s: State, a: Action)
    requires ValidConfig(c) && Inv(c, s) && Enabled(c, s, a)
    ensures Inv(c, Step(c, s, a)) && Measure(c, Step(c, s, a)) < Measure(c, s)
  {
    hide Total, EpochWeight, LinkWeight, PartRows, GradSum, GdRun, LossHistory, EpochInv, DialInv, Update;
    var s' := Step(c, s, a);
    StepKeepsInv(c, s, a);
    match a
    case SendInit => CallStepDecreases(c, s, a);
    case TakeAck => CallStepDecreases(c, s, a);
    case SendStop => CallStepDecreases(c, s, a);
    case DialFault => assert LinkWeights(c, s') == LinkWeights(c, s); FailedIsLighter(c, s.phase);
    case Timeout => assert LinkWeights(c, s') == LinkWeights(c, s); FailedIsLighter(c, s.phase);
    case FoldNext => assert LinkWeights(c, s') == LinkWeights(c, s);
    case EndEpoch => EndEpochDecreases(c, s);
    case _ => LinkStepDecreases(c, s, a, a.i);
  }

  lemma FailedIsLighter(c: Config, p: Phase)
    requires p.Dialling? || p.Epoch?
    ensures 0 < PhaseWeight(c, p)
  {
  }

  lemma EndEpochDecreases(c: Config, s: State)
    requires ValidConfig(c) && Inv(c, s) && Enabled(c, s, EndEpoch)
    ensures Shape(c, Step(c, s, EndEpoch)) && Measure(c, Step(c, s, EndEpoch)) < Measure(c, s)
  {
    hide Total, PartRows, GradSum, GdRun, LossHistory, LinksOk, NodeLedger, TallyOk, FaultsRecorded;
    var s' := Step(c, s, EndEpoch);
    if s.tally.firstErr {
      assert LinkWeights(c, s') == LinkWeights(c, s);
    } else {
      ResetLinks(LinkWeights(c, s), LinkWeights(c, s'));
      EpochWeightStep(c, s.phase.e);
    }
  }

  // ---- safety over whole runs ----

  lemma {:induction false} RunKeepsInv(c: Config, s: State, schedule: seq<Action>)
    requires ValidConfig(c) && Inv(c, s) && Legal(c, s, schedule)
    ensures Inv(c, Exec(c, s, schedule))
    decreases |schedule|
  {
    hide Inv, Step, Enabled;
    if schedule != [] {
      StepKeepsInv(c, s, schedule[0]);
      RunKeepsInv(c, Step(c, s, schedule[0]), schedule[1..]);
    }
  }

  /** Distributed refinement. Whatever fails and in whatever order replies arrive, the
      coordinator's theta is sequential descent over all training rows for the epochs
      completed, with their losses; so a model that is returned has the weights of all
      epochs, and they do not depend on the number of nodes. */
  lemma DistributedRefinesDescent(c: Config, schedule: seq<Action>)
    requires ValidConfig(c) && Legal(c, Init(c), schedule)
    ensures var s := Exec(c, Init(c), schedule);
            && s.theta == GdRun(c.rows, c.lr, c.dim, |s.history|)
            && s.history == LossHistory(c.rows, c.lr, c.dim, |s.history|)
            && (Succeeded(c, s) ==> |s.history| == c.epochs)
  {
    hide GdRun, LossHistory, Legal, Exec, EpochInv, DialInv, Init;
    InitInv(c);
    RunKeepsInv(c, Init(c), schedule);
  }

  /** No stale or mixed replies: in every reachable state of epoch e, a reply waiting
      to be folded carries the epoch e and is the gradient of the current theta on the
      partition its node acknowledged, though nobody compares epochs. */
  lemma RepliesAreCurrent(c: Config, schedule: seq<Action>, k: nat)
    requires ValidConfig(c) && Legal(c, Init(c), schedule)
    requires Exec(c, Init(c), schedule).phase.Epoch? && k < |Exec(c, Init(c), schedule).resultCh|
    requires Exec(c, Init(c), schedule).resultCh[k].Reply?
    ensures var s := Exec(c, Init(c), schedule);
            var r := s.resultCh[k];
            && r.from < c.nodes && r.epoch == s.phase.e
            && r.epoch == |s.history| + 1
            && r.grad == GradSum(GdRun(c.rows, c.lr, c.dim, |s.history|), PartRows(c.rows, c.nodes, r.from))
            && r.n == |PartRows(c.rows, c.nodes, r.from)|
  {
    hide GdRun, LossHistory, Legal, Exec, DialInv, Init, NodeLedger, TallyOk, FaultsRecorded, PartRows, GradSum;
    InitInv(c);
    RunKeepsInv(c, Init(c), schedule);
    var s := Exec(c, Init(c), schedule);
    assert ResultOk(c, s, s.resultCh[k]);
  }

  lemma {:induction false} SourcesSize(ch: seq<Result>)
    ensures |Bag(Sources(ch))| == |ch|
  {
    if ch != [] {
      var front := ch[..|ch| - 1];
      SourcesSize(front);
      assert Sources(ch)[..|ch| - 1] == Sources(front);
    }
  }

  /** No goroutine ever blocks on resultCh: with the results already taken it never
      holds more than one result per node, which is its capacity. */
  lemma ResultChannelHasRoom(c: Config, s: State)
    requires ValidConfig(c) && Inv(c, s) && s.phase.Epoch?
    ensures |s.seen| + |s.resultCh| <= c.nodes
  {
    hide Bag, LinksOk, TallyOk, GdRun, LossHistory;
    SourcesSize(s.resultCh);
    var all := multiset(s.seen) + Bag(Sources(s.resultCh)) + Bag(Pending(s.fans));
    assert all == multiset(Indices(c.nodes)) && |multiset(Indices(c.nodes))| == c.nodes;
    assert |all| == |multiset(s.seen)| + |Bag(Sources(s.resultCh))| + |Bag(Pending(s.fans))|;
  }

  // ---- the loop behind the actions ----

  /** How an epoch ends here is how AggregateEpoch ends on the results folded: with all
      of them in time at EndEpoch, and with the one at hand late at Timeout. */
  lemma CoordinatorFollowsTheLoop(c: Config, s: State, a: Action)
    requires ValidConfig(c) && Inv(c, s) && Enabled(c, s, a) && (a.EndEpoch? || a.Timeout?)
    ensures var s' := Step(c, s, a);
            var results := if a.EndEpoch? then s.folded else s.folded + s.resultCh;
            var (outcome, theta) := Concluded(s.theta, results, |s.folded|, c.lr);
            && s'.theta == theta && (outcome.Updated? <==> !s'.phase.Failed?)
            && (a.Timeout? <==> outcome.TimedOut?)
            && (outcome.Updated? ==> s'.history == s.history + [Loss(c.rows, theta)])
  {
    hide Update, GdRun, LossHistory, LinksOk, NodeLedger, TallyOk, FaultsRecorded, FoldAll, Loss;
  }

  // ---- failures ----

  /** Some node has failed the coordinator in this epoch, or it has already given up. */
  ghost predicate Doomed(s: State) {
    s.phase.Failed? ||
    (s.phase.Epoch? && (s.tally.firstErr || exists i :: 0 <= i < |s.fans| && s.fans[i].Broke?))
  }

  lemma DoomedStays(c: Config, s: State, a: Action)
    requires ValidConfig(c) && Inv(c, s) && Enabled(c, s, a) && Doomed(s)
    ensures Doomed(Step(c, s, a)) && Step(c, s, a).theta == s.theta && Step(c, s, a).history == s.history
  {
    hide PartRows, GradSum, GdRun, LossHistory, NodeLedger, TallyOk, LinksOk, Update, DialInv;
    var s' := Step(c, s, a);
    if s.phase.Epoch? && !s.tally.firstErr {
      var i :| 0 <= i < |s.fans| && s.fans[i].Broke?;
      assert Failure(i) in s.resultCh;
      if s'.phase.Epoch? {
        assert s'.fans[i].Broke?;
      }
    }
  }

  /** If a node reports an error in an epoch, that epoch's update is never applied and
      no model is ever returned, whatever happens afterwards. */
  lemma {:induction false} FailureIsFinal(c: Config, s: State, schedule: seq<Action>)
    requires ValidConfig(c) && Inv(c, s) && Doomed(s) && Legal(c, s, schedule)
    ensures var s' := Exec(c, s, schedule);
            !Succeeded(c, s') && s'.theta == s.theta && s'.history == s.history
    decreases |schedule|
  {
    hide Inv, Step, Enabled;
    if schedule != [] {
      DoomedStays(c, s, schedule[0]);
      StepKeepsInv(c, s, schedule[0]);
      FailureIsFinal(c, Step(c, s, schedule[0]), schedule[1..]);
    }
  }

  // ---- progress without failures ----

  /** Nothing has failed so far; a node is there until it has taken its Stop. */
  ghost predicate Healthy(c: Config, s: State) {
    && Shape(c, s) && !s.phase.Failed?
    && if s.phase.Stopping? then
         forall i: nat :: i < c.nodes && (s.phase.i <= i || s.toNode[i] != []) ==> s.nodes[i].Serving?
       else
         && !s.tally.firstErr && (forall k :: 0 <= k < |s.resultCh| ==> s.resultCh[k].Reply?)
         && forall i :: 0 <= i < c.nodes ==> s.nodes[i].Serving? && !s.fans[i].Broke?
  }

  /** The job is over everywhere: the model is returned, every node has left its session,
      and the streams are empty. */
  ghost predicate Final(c: Config, s: State) {
    && Shape(c, s) && Succeeded(c, s)
    && forall i: nat :: i < c.nodes ==> s.nodes[i].Gone? && s.toNode[i] == [] && s.fromNode[i] == []
  }

  lemma HealthyStays(c: Config, s: State, a: Action)
    requires ValidConfig(c) && Inv(c, s) && Healthy(c, s) && Enabled(c, s, a) && !IsFault(a)
    ensures Healthy(c, Step(c, s, a))
  {
    hide PartRows, GradSum, GdRun, LossHistory, NodeLedger, TallyOk, FoldedOk;
    var s' := Step(c, s, a);
    match a
    case TakeAck =>
      assert DialOk(c, s, s.phase.i);
    case FanReceive(i) =>
      assert LinkOk(c, s, i);
    case NodeHandle(i) =>
      if s.phase.Dialling? {
        assert DialOk(c, s, i);
      } else if s.phase.Epoch? {
        assert LinkOk(c, s, i);
      }
    case _ =>
  }

  /** As long as nothing has failed, somebody can take a step that is no failure, until
      the job is over everywhere. */
  lemma HealthyMoves(c: Config, s: State) returns (a: Action)
    requires ValidConfig(c) && Inv(c, s) && Healthy(c, s) && !Final(c, s)
    ensures Enabled(c, s, a) && !IsFault(a)
  {
    hide PartRows, GradSum, GdRun, LossHistory, NodeLedger, TallyOk, FoldedOk;
    match s.phase
    case Dialling(i, asked) =>
      assert DialOk(c, s, i);
      a := if !asked then SendInit else if s.fromNode[i] != [] then TakeAck else NodeHandle(i);
    case Epoch(e) =>
      if s.resultCh != [] {
        a := FoldNext;
      } else if i: nat :| i < c.nodes && s.fans[i].Idle? {
        a := FanSend(i);
      } else if i: nat :| i < c.nodes && s.fans[i].Awaiting? {
        assert LinkOk(c, s, i);
        a := if s.fromNode[i] != [] then FanReceive(i) else NodeHandle(i);
      } else {
        a := EndEpoch;
      }
    case Stopping(i) =>
      if i < c.nodes {
        a := SendStop;
      } else {
        var k: nat :| k < c.nodes && !(s.nodes[k].Gone? && s.toNode[k] == [] && s.fromNode[k] == []);
        a := NodeHandle(k);
      }
    case Failed => assert false;
  }

  lemma {:induction false} RunStaysHealthy(c: Config, s: State, schedule: seq<Action>)
    requires ValidConfig(c) && Inv(c, s) && Healthy(c, s) && Legal(c, s, schedule)
    requires forall a :: a in schedule ==> !IsFault(a)
    ensures Healthy(c, Exec(c, s, schedule))
    decreases |schedule|
  {
    hide Inv, Step, Enabled, Healthy;
    if schedule != [] {
      var s' := Step(c, s, schedule[0]);
      HealthyStays(c, s, schedule[0]);
      StepKeepsInv(c, s, schedule[0]);
      assert forall a :: a in schedule[1..] ==> a in schedule;
      RunStaysHealthy(c, s', schedule[1..]);
    }
  }

  lemma InitHealthy(c: Config)
    ensures Healthy(c, Init(c))
  {
  }

  /** A run without failures that can only go on by failing has returned its model, and
      left every node out of its session, with nothing on the streams. */
  lemma FaultFreeRunsSucceed(c: Config, schedule: seq<Action>)
    requires ValidConfig(c) && Legal(c, Init(c), schedule)
    requires forall a :: a in schedule ==> !IsFault(a)
    requires var s := Exec(c, Init(c), schedule);
             Shape(c, s) && forall a :: Enabled(c, s, a) ==> IsFault(a)
    ensures Final(c, Exec(c, Init(c), schedule))
  {
    hide Inv, Step, Enabled, Legal, Exec, Shape, Final;
    var s := Exec(c, Init(c), schedule);
    InitInv(c);
    InitHealthy(c);
    RunKeepsInv(c, Init(c), schedule);
    RunStaysHealthy(c, Init(c), schedule);
    if !Final(c, s) {
      var a := HealthyMoves(c, s);
    }
  }

  /** After the end no step is left at all, not even a failure. */
  lemma FinalIsStuck(c: Config, s: State, a: Action)
    requires ValidConfig(c) && Final(c, s)
    ensures !Enabled(c, s, a)
  {
  }

  lemma {:induction false} RunIsBounded(c: Config, s: State, schedule: seq<Action>)
    requires ValidConfig(c) && Inv(c, s) && Legal(c, s, schedule)
    ensures |schedule| <= Measure(c, s)
    decreases |schedule|
  {
    hide Step, Enabled, Measure, EpochInv, DialInv, GdRun, LossHistory;
    if schedule != [] {
      StepDecreases(c, s, schedule[0]);
      RunIsBounded(c, Step(c, s, schedule[0]), schedule[1..]);
    }
  }
}
