/** What holds of every run of Load: it gives what a sequential loop over the lines
    would give, its channels are closed once and never used after, and it ends. */
module LoadRuns {
  import opened Ledger
  import opened Trips
  import opened Parser
  import opened LoadSystem

  ghost predicate Legal(c: Config, s: State, schedule: seq<Action>)
    decreases |schedule|
  {
    schedule == [] ||
    (Shape(c, s) && Enabled(c, s, schedule[0]) && Legal(c, Step(c, s, schedule[0]), schedule[1..]))
  }

  ghost function Exec(c: Config, s: State, schedule: seq<Action>): State
    requires Legal(c, s, schedule)
    decreases |schedule|
  {
    if schedule == [] then s else Exec(c, Step(c, s, schedule[0]), schedule[1..])
  }

  /** No goroutine can move. */
  ghost predicate Stuck(c: Config, s: State)
    requires Shape(c, s)
  {
    forall a :: !Enabled(c, s, a)
  }

  // ---- conservation and the channel protocol, in every reachable state ----

  /** Lines inside the pipeline: with the reader, in batchCh, or with a worker. */
  function LinesInside(s: State): nat {
    |Bag(s.batchCh)| + |Bag(Holders(s))|
  }

  function CountedDiscards(counts: seq<nat>): nat
    requires |counts| == 10
  {
    counts[1] + counts[2] + counts[3] + counts[4] + counts[5] + counts[6] + counts[7] + counts[8] + counts[9]
  }

  /** Every line counted in totalRead is still inside, or became a trip on its way to
      or with the collector, or was counted as a discard. */
  lemma LinesAreConserved(c: Config, s: State)
    requires Inv(c, s)
    ensures s.totalRead == LinesInside(s) + |s.outCh| + |s.trips| + CountedDiscards(s.counts)
  {
    hide Bag, Holders, Valids, Discarded, Parse, ReaderOk, ChannelsOk;
    var read := c.lines[..s.totalRead];
    assert |multiset(read)| == s.totalRead;
    assert |multiset(read)| == |multiset(s.parsed)| + |Bag(s.batchCh)| + |Bag(Holders(s))|;
    EveryLineIsAccounted(c, s.parsed);
    assert |s.trips + s.outCh| == |Valids(c, s.parsed)|;
  }

  // ---- deadlock freedom ----

  lemma NoDeadlock(c: Config, s: State) returns (a: Action)
    requires ValidConfig(c) && Inv(c, s) && !s.collectorDone
    ensures Enabled(c, s, a)
  {
    hide LineLedger, OutputOk, Parse;
    if s.outCh != [] {
      a := Collect;
    } else if j: nat :| j < c.workers && s.workers[j].Working? {
      a := if s.workers[j].rest != [] then ParseNext(j) else EndBatch(j);
    } else if s.reader.Reading? {
      a := if s.totalRead < |c.lines| && !LimitReached(c, s) then Scan else EndScan;
    } else if s.reader.Closing? {
      a := CloseBatches;
    } else if s.batchCh != [] {
      assert !s.workers[0].Gone?;
      a := Take(0);
    } else if !s.reader.Ended? {
      a := SendBatch;
    } else if j: nat :| j < c.workers && s.workers[j].Idle? {
      a := Exit(j);
    } else {
      a := if s.closerDone then EndCollect else CloseOut;
    }
  }

  // ---- termination ----

  function Sizes(holders: seq<seq<string>>): (ws: seq<nat>)
    ensures |ws| == |holders|
  {
    seq(|holders|, i requires 0 <= i < |holders| => |holders[i]|)
  }

  function WorkerWeight(w: Worker): nat {
    match w case Gone => 0 case Idle => 1 case Working(rest) => 2 + 2 * |rest|
  }

  function WorkerWeights(s: State): (ws: seq<nat>)
    ensures |ws| == |s.workers|
  {
    seq(|s.workers|, j requires 0 <= j < |s.workers| => WorkerWeight(s.workers[j]))
  }

  function ReaderWeight(r: Reader): nat {
    match r
    case Reading(b) => 3 + 5 * |b|
    case Full(b) => 3 + 5 * |b|
    case Flushing(b) => 2 + 5 * |b|
    case Closing => 1
    case Ended => 0
  }

  function Measure(c: Config, s: State): nat {
    (if s.totalRead < ToRead(c) then 6 * (ToRead(c) - s.totalRead) else 0)
    + ReaderWeight(s.reader) + 4 * Total(Sizes(s.batchCh)) + Total(WorkerWeights(s)) + |s.outCh|
    + (if s.closerDone then 0 else 1) + (if s.collectorDone then 0 else 1)
  }

  lemma OneWorker(s: State, s': State, j: nat)
    requires |s.workers| == |s'.workers| && j < |s.workers| && s'.workers == s.workers[j := s'.workers[j]]
    ensures Total(WorkerWeights(s')) + WorkerWeight(s.workers[j]) == Total(WorkerWeights(s)) + WorkerWeight(s'.workers[j])
  {
    hide Total, WorkerWeight;
    TotalUpdate(WorkerWeights(s), j, WorkerWeight(s'.workers[j]));
    assert WorkerWeights(s') == WorkerWeights(s)[j := WorkerWeight(s'.workers[j])];
  }

  lemma QueueEnds(q: seq<seq<string>>, b: seq<string>)
    ensures Total(Sizes(q + [b])) == Total(Sizes(q)) + |b|
    ensures q != [] ==> Total(Sizes(q)) == |q[0]| + Total(Sizes(q[1..]))
  {
    assert Sizes(q + [b])[..|q|] == Sizes(q);
    if q != [] {
      var front: seq<nat> := [|q[0]|];
      assert front[..0] == [];
      assert Sizes(q) == front + Sizes(q[1..]);
      TotalConcat(front, Sizes(q[1..]));
    }
  }

  lemma StepDecreases(c: Config, s: State, a: Action)
    requires ValidConfig(c) && Inv(c, s) && Enabled(c, s, a)
    ensures Measure(c, Step(c, s, a)) < Measure(c, s)
  {
    hide LineLedger, OutputOk, Parse, Total, Bag;
    var s' := Step(c, s, a);
    match a
    case SendBatch => QueueEnds(s.batchCh, s.reader.batch); assert WorkerWeights(s') == WorkerWeights(s);
    case Take(j) => QueueEnds(s.batchCh, []); OneWorker(s, s', j); assert s.batchCh[0] != [];
    case ParseNext(j) => OneWorker(s, s', j);
    case EndBatch(j) => OneWorker(s, s', j);
    case Exit(j) => OneWorker(s, s', j);
    case _ => assert WorkerWeights(s') == WorkerWeights(s);
  }

  // ---- whole runs ----

  lemma {:induction false} RunKeepsInv(c: Config, s: State, schedule: seq<Action>)
    requires ValidConfig(c) && Inv(c, s) && Legal(c, s, schedule)
    ensures Inv(c, Exec(c, s, schedule))
    ensures Measure(c, Exec(c, s, schedule)) + |schedule| <= Measure(c, s)
    decreases |schedule|
  {
    hide Inv, Measure, Step, Enabled;
    if schedule != [] {
      StepKeepsInv(c, s, schedule[0]);
      StepDecreases(c, s, schedule[0]);
      RunKeepsInv(c, Step(c, s, schedule[0]), schedule[1..]);
    }
  }

  /** The result of a load is that of one pass over the lines to be read. */
  ghost predicate IsSequentialResult(c: Config, s: State) {
    var lines := c.lines[..ToRead(c)];
    && |s.counts| == 10
    && multiset(s.trips) == multiset(Valids(c, lines))
    && (forall r: nat :: 1 <= r <= 9 ==> s.counts[r] == Discarded(c, lines, r))
    && s.totalRead == |lines| && s.totalRead == |s.trips| + CountedDiscards(s.counts)
  }

  lemma EverythingParsed(c: Config, s: State)
    requires ValidConfig(c) && Inv(c, s) && s.collectorDone
    ensures multiset(s.parsed) == multiset(c.lines[..ToRead(c)]) && s.totalRead == ToRead(c)
    ensures s.outCh == [] && LinesInside(s) == 0
  {
    hide Bag, OutputOk, Parse;
    assert s.workers[0].Gone?;
    NothingHeld(Holders(s));
    BagEmpty<string>();
  }

  lemma FinishedResult(c: Config, s: State)
    requires ValidConfig(c) && Inv(c, s) && s.collectorDone
    ensures IsSequentialResult(c, s)
  {
    hide Bag, Valids, Discarded, Parse, LineLedger, ReaderOk, ChannelsOk;
    var lines := c.lines[..ToRead(c)];
    EverythingParsed(c, s);
    LinesAreConserved(c, s);
    forall r: nat | 1 <= r <= 9 ensures s.counts[r] == Discarded(c, lines, r) {
      LinesInAnyOrder(c, s.parsed, lines, r);
    }
    LinesInAnyOrder(c, s.parsed, lines, 1);
    assert s.trips + s.outCh == s.trips;
  }

  /** The parallel loader refines a sequential one: for every schedule, worker count
      and batch size the run is bounded, no line is lost on the way, and when no
      goroutine can move the collector has finished with the sequential result. */
  lemma LoadRefinesSequential(c: Config, schedule: seq<Action>)
    requires ValidConfig(c) && Legal(c, Init(c), schedule)
    ensures |schedule| <= Measure(c, Init(c))
    ensures var s := Exec(c, Init(c), schedule);
            && Inv(c, s)
            && s.totalRead == LinesInside(s) + |s.outCh| + |s.trips| + CountedDiscards(s.counts)
            && (Stuck(c, s) ==> s.collectorDone)
            && (s.collectorDone ==> IsSequentialResult(c, s))
  {
    hide Measure, Legal, Exec, Init, Enabled, IsSequentialResult, LineLedger, OutputOk, ReaderOk, ChannelsOk;
    InitInv(c);
    RunKeepsInv(c, Init(c), schedule);
    var s := Exec(c, Init(c), schedule);
    LinesAreConserved(c, s);
    if s.collectorDone {
      FinishedResult(c, s);
    } else if Stuck(c, s) {
      var a := NoDeadlock(c, s);
    }
  }

  // ---- the loops behind the actions ----

  /** What the reader will still send, by the loop of ReadBatches. */
  function StillToSend(c: Config, s: State): seq<seq<string>>
    requires 0 < c.batch
  {
    match s.reader
    case Reading(b) => BatchesFrom(c, b, s.totalRead)
    case Full(b) => [b] + BatchesFrom(c, [], s.totalRead)
    case Flushing(b) => [b]
    case _ => []
  }

  /** The batches put on batchCh are, in order, exactly those of that loop. */
  lemma ReaderFollowsTheLoop(c: Config, s: State, a: Action)
    requires ValidConfig(c) && Inv(c, s) && Enabled(c, s, a)
    ensures var s' := Step(c, s, a);
            if a.SendBatch?
            then s'.batchCh == s.batchCh + [s.reader.batch]
                 && StillToSend(c, s) == [s.reader.batch] + StillToSend(c, s')
            else StillToSend(c, s') == StillToSend(c, s)
  {
    hide LineLedger, OutputOk, ParseLine, ChannelsOk;
  }

  /** What worker j holds turns into trips on outCh, in order, and into counts exactly
      as the loop of ParseBatch says of a batch: its contract holds of what is left. */
  lemma WorkersFollowTheLoop(c: Config, s: State, j: nat, r: nat)
    requires ValidConfig(c) && Inv(c, s) && Enabled(c, s, ParseNext(j)) && 1 <= r <= 9
    ensures var s', rest := Step(c, s, ParseNext(j)), s.workers[j].rest;
            && Shape(c, s') && s'.workers[j] == Working(rest[1..])
            && s'.outCh + Valids(c, rest[1..]) == s.outCh + Valids(c, rest)
            && s'.counts[r] + Discarded(c, rest[1..], r) == s.counts[r] + Discarded(c, rest, r)
  {
    hide LineLedger, OutputOk, Parse, ChannelsOk, ReaderOk, Valids, Discarded;
    var s', rest := Step(c, s, ParseNext(j)), s.workers[j].rest;
    var one: seq<string> := [rest[0]];
    assert rest == one + rest[1..];
    ConcatLines(c, one, rest[1..], r);
    OneLine(c, rest[0], r);
    assert s'.outCh == s.outCh + TripsOf(c, rest[0]);
  }

  lemma {:induction false} ValidsAreValid(c: Config, lines: seq<string>)
    ensures forall t :: t in Valids(c, lines) ==> ValidTrip(t)
  {
    hide ParseLine;
    if lines != [] {
      ValidsAreValid(c, lines[..|lines| - 1]);
    }
  }

  /** An action that uses a channel finds it open: it sends only before the close, each
      close is the first, and outCh closes after batchCh is closed and drained and
      every worker has left. */
  ghost predicate FindsOpen(c: Config, s: State, a: Action)
    requires Shape(c, s) && Enabled(c, s, a)
  {
    && (a.SendBatch? || a.CloseBatches? ==> s.batchCloses == 0)
    && (a.ParseNext? && Parse(c, s.workers[a.j].rest[0]).Accepted? ==> s.outCloses == 0)
    && (a.CloseOut? ==> s.outCloses == 0 && s.batchCloses == 1 && s.batchCh == []
                        && forall j :: 0 <= j < c.workers ==> s.workers[j].Gone?)
  }

  /** Everybody has finished, each channel was closed exactly once and is empty. */
  ghost predicate Finished(c: Config, s: State) {
    && Shape(c, s)
    && s.collectorDone && s.closerDone && s.reader.Ended?
    && (forall j :: 0 <= j < c.workers ==> s.workers[j].Gone?)
    && s.batchCloses == 1 && s.outCloses == 1 && s.batchCh == [] && s.outCh == []
  }

  /** The channel protocol, on every run: no channel is ever closed twice or used after
      its close, and a run whose collector has returned, or in which nobody can move,
      has closed both channels exactly once, with nothing left in them and nobody left. */
  lemma ChannelProtocol(c: Config, schedule: seq<Action>)
    requires ValidConfig(c) && Legal(c, Init(c), schedule)
    ensures var s := Exec(c, Init(c), schedule);
            && Shape(c, s) && s.batchCloses <= 1 && s.outCloses <= 1
            && (forall a :: Enabled(c, s, a) ==> FindsOpen(c, s, a))
            && (s.collectorDone || Stuck(c, s) ==> Finished(c, s))
  {
    hide LineLedger, OutputOk, Parse, Legal, Exec, Init, Measure, Stuck, IsSequentialResult, LinesInside;
    InitInv(c);
    RunKeepsInv(c, Init(c), schedule);
    LoadRefinesSequential(c, schedule);
    assert |Exec(c, Init(c), schedule).workers| > 0;
    assert Exec(c, Init(c), schedule).workers[0].Gone? ==> Exec(c, Init(c), schedule).reader.Ended?;
  }

  /** What a finished load returns, line by line, without the sequential functions: a trip
      occurs as often as lines among those read parse to it, Discards[r] is the number of
      lines rule r rejects first, and every trip is that of some line read. */
  lemma ResultIsOfLines(c: Config, schedule: seq<Action>, t: Trip, r: nat)
    requires ValidConfig(c) && Legal(c, Init(c), schedule) && Exec(c, Init(c), schedule).collectorDone
    requires 1 <= r <= 9
    ensures var s, lines := Exec(c, Init(c), schedule), c.lines[..ToRead(c)];
            && s.totalRead == |lines| && |s.counts| == 10
            && multiset(s.trips)[t] == |LinesWith(c, lines, Accepted(t))|
            && s.counts[r] == |LinesWith(c, lines, Rejected(r))|
            && (t in s.trips ==> exists i :: 0 <= i < |lines| && ParseLine(c.decode(lines[i])) == Accepted(t))
  {
    hide Legal, Exec, Init, ParseLine, Stuck, Measure, Inv, LinesInside, Valids, Discarded;
    LoadRefinesSequential(c, schedule);
    var s, lines := Exec(c, Init(c), schedule), c.lines[..ToRead(c)];
    OutcomesAreOfLines(c, lines, t, r);
    if t in s.trips {
      assert t in multiset(s.trips);
      assert |LinesWith(c, lines, Accepted(t))| > 0;
      var i :| i in LinesWith(c, lines, Accepted(t));
    }
  }

  /** The channels never hold more than their capacity, and whoever wants to send waits
      only while that many items are in the channel. */
  lemma ChannelsHaveRoom(c: Config, schedule: seq<Action>, j: nat)
    requires ValidConfig(c) && Legal(c, Init(c), schedule) && j < c.workers
    ensures var s := Exec(c, Init(c), schedule);
            && Shape(c, s) && |s.batchCh| <= 2 * c.workers && |s.outCh| <= 1024 * c.workers
            && (s.reader.Full? && |s.batchCh| != 2 * c.workers ==> Enabled(c, s, SendBatch))
            && (s.workers[j].Working? && s.workers[j].rest != [] && |s.outCh| != 1024 * c.workers ==>
                  Enabled(c, s, ParseNext(j)))
  {
    hide Inv, Step, Legal, Exec;
    InitInv(c);
    RunKeepsInv(c, Init(c), schedule);
    RunKeepsCapacity(c, Init(c), schedule);
    InvShape(c, Exec(c, Init(c), schedule));
  }

  lemma InvShape(c: Config, s: State)
    requires Inv(c, s)
    ensures Shape(c, s)
  {
  }

  lemma StepKeepsCapacity(c: Config, s: State, a: Action)
    requires |s.batchCh| <= 2 * c.workers && |s.outCh| <= 1024 * c.workers && Shape(c, s) && Enabled(c, s, a)
    ensures |Step(c, s, a).batchCh| <= 2 * c.workers && |Step(c, s, a).outCh| <= 1024 * c.workers
  {
    hide Parse;
  }

  lemma {:induction false} RunKeepsCapacity(c: Config, s: State, schedule: seq<Action>)
    requires |s.batchCh| <= 2 * c.workers && |s.outCh| <= 1024 * c.workers && Legal(c, s, schedule)
    ensures var s' := Exec(c, s, schedule); |s'.batchCh| <= 2 * c.workers && |s'.outCh| <= 1024 * c.workers
    decreases |schedule|
  {
    hide Step, Enabled;
    if schedule != [] {
      StepKeepsCapacity(c, s, schedule[0]);
      RunKeepsCapacity(c, Step(c, s, schedule[0]), schedule[1..]);
    }
  }

  /** At any moment, every trip with the collector has passed all nine rules. */
  lemma CollectedTripsAreValid(c: Config, s: State)
    requires Inv(c, s)
    ensures forall t :: t in s.trips ==> ValidTrip(t)
  {
    hide Valids, LineLedger, ReaderOk, ChannelsOk, ValidTrip;
    ValidsAreValid(c, s.parsed);
    assert forall t :: t in s.trips ==> t in s.trips + s.outCh;
  }
}
