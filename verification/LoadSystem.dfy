/** internal/loader/loader.go: the goroutines of Load as a transition system. One
    reader cuts the lines into batches, W workers parse them, a closer waits for the
    workers, and a collector gathers the trips. */
module LoadSystem {
  import opened Wrappers
  import opened Sums
  import opened Ledger
  import opened Trips
  import opened Parser

  /** `decode` splits a line and converts its fields. */
  datatype Config = Config(lines: seq<string>, decode: string -> Option<Fields>, workers: nat, batch: nat, limit: int)

  ghost predicate ValidConfig(c: Config) {
    0 < c.workers && 0 < c.batch
  }

  datatype LoadOptions = LoadOptions(workers: int, batchSize: int, limit: int)

  /** The system Load sets up: by default as many workers as processors, and batches
      of 10000 lines. */
  function Configure(o: LoadOptions, lines: seq<string>, decode: string -> Option<Fields>, processors: nat): (c: Config)
    requires 0 < processors
    ensures ValidConfig(c) && c.lines == lines && c.decode == decode && c.limit == o.limit
    ensures (0 < o.workers ==> c.workers == o.workers) && (o.workers <= 0 ==> c.workers == processors)
    ensures (0 < o.batchSize ==> c.batch == o.batchSize) && (o.batchSize <= 0 ==> c.batch == 10_000)
  {
    Config(lines, decode, if o.workers <= 0 then processors else o.workers,
           if o.batchSize <= 0 then 10_000 else o.batchSize, o.limit)
  }

  // ---- the sequential meaning of loading ----

  function Parse(c: Config, line: string): Parsed {
    ParseLine(c.decode(line))
  }

  /** The lines Load will take in. */
  function ToRead(c: Config): (n: nat)
    ensures n <= |c.lines| && (0 < c.limit ==> n <= c.limit)
    ensures n == |c.lines| || (0 < c.limit && n == c.limit)
  {
    if 0 < c.limit < |c.lines| then c.limit else |c.lines|
  }

  function TripsOf(c: Config, line: string): seq<Trip> {
    match Parse(c, line)
    case Accepted(t) => [t]
    case Rejected(_) => []
  }

  /** The trips of the valid lines, in order. */
  function Valids(c: Config, lines: seq<string>): seq<Trip> {
    if lines == [] then [] else Valids(c, lines[..|lines| - 1]) + TripsOf(c, lines[|lines| - 1])
  }

  /** How many lines are discarded by rule r. */
  function Discarded(c: Config, lines: seq<string>, r: nat): nat {
    if lines == [] then 0
    else Discarded(c, lines[..|lines| - 1], r) + if Parse(c, lines[|lines| - 1]) == Rejected(r) then 1 else 0
  }

  lemma {:induction false} ConcatLines(c: Config, a: seq<string>, b: seq<string>, r: nat)
    ensures Valids(c, a + b) == Valids(c, a) + Valids(c, b)
    ensures Discarded(c, a + b, r) == Discarded(c, a, r) + Discarded(c, b, r)
  {
    hide Parse, TripsOf;
    if b == [] {
      assert a + b == a;
    } else {
      ConcatLines(c, a, b[..|b| - 1], r);
      assert (a + b)[..|a + b| - 1] == a + b[..|b| - 1];
    }
  }

  lemma OneLine(c: Config, line: string, r: nat)
    ensures Valids(c, [line]) == TripsOf(c, line)
    ensures Discarded(c, [line], r) == if Parse(c, line) == Rejected(r) then 1 else 0
  {
    assert [line][..0] == [];
  }

  /** The outcome depends on the lines only as a bag. */
  lemma {:induction false} LinesInAnyOrder(c: Config, a: seq<string>, b: seq<string>, r: nat)
    requires multiset(a) == multiset(b)
    ensures multiset(Valids(c, a)) == multiset(Valids(c, b))
    ensures Discarded(c, a, r) == Discarded(c, b, r)
    decreases |a|
  {
    hide Valids, Discarded;
    if a == [] {
      MultisetLength(a, b);
    } else {
      var a', x := a[..|a| - 1], [a[|a| - 1]];
      var l, rest := RemoveLast(a, b);
      LinesInAnyOrder(c, a', l + rest, r);
      assert a == a' + x && b == l + x + rest;
      ConcatLines(c, a', x, r);
      ConcatLines(c, l, rest, r);
      ConcatLines(c, l, x, r);
      ConcatLines(c, l + x, rest, r);
      JoinReordered(Valids(c, a'), Valids(c, x), Valids(c, l), Valids(c, rest));
    }
  }

  function DiscardTotal(c: Config, lines: seq<string>): nat {
    Discarded(c, lines, 1) + Discarded(c, lines, 2) + Discarded(c, lines, 3) + Discarded(c, lines, 4)
    + Discarded(c, lines, 5) + Discarded(c, lines, 6) + Discarded(c, lines, 7) + Discarded(c, lines, 8)
    + Discarded(c, lines, 9)
  }

  /** Every line is either a trip or a discard of exactly one rule. */
  lemma {:induction false} EveryLineIsAccounted(c: Config, lines: seq<string>)
    ensures |lines| == |Valids(c, lines)| + DiscardTotal(c, lines)
  {
    hide ParseLine;
    if lines != [] {
      EveryLineIsAccounted(c, lines[..|lines| - 1]);
    }
  }

  /** Where the lines with this outcome stand. */
  function LinesWith(c: Config, lines: seq<string>, outcome: Parsed): set<int> {
    set i | 0 <= i < |lines| && ParseLine(c.decode(lines[i])) == outcome
  }

  lemma LinesWithOneMore(c: Config, lines: seq<string>, outcome: Parsed)
    requires lines != []
    ensures var front, last := lines[..|lines| - 1], lines[|lines| - 1];
            |LinesWith(c, lines, outcome)|
            == |LinesWith(c, front, outcome)| + if ParseLine(c.decode(last)) == outcome then 1 else 0
  {
    hide ParseLine;
    var front, n := lines[..|lines| - 1], |lines| - 1;
    var before, all := LinesWith(c, front, outcome), LinesWith(c, lines, outcome);
    assert n !in before && forall i :: i in all <==> i in before || (i == n && n in all);
    if n in all {
      assert all == before + {n};
    } else {
      assert all == before;
    }
  }

  /** Trips and discards, line by line: each trip occurs as often as lines parse to it, and
      the discards of a rule are the lines it rejects. */
  lemma {:induction false} OutcomesAreOfLines(c: Config, lines: seq<string>, t: Trip, r: nat)
    ensures multiset(Valids(c, lines))[t] == |LinesWith(c, lines, Accepted(t))|
    ensures Discarded(c, lines, r) == |LinesWith(c, lines, Rejected(r))|
  {
    hide ParseLine, LinesWith;
    if lines == [] {
      NoLines(c, Accepted(t));
      NoLines(c, Rejected(r));
    } else {
      OutcomesAreOfLines(c, lines[..|lines| - 1], t, r);
      LinesWithOneMore(c, lines, Accepted(t));
      LinesWithOneMore(c, lines, Rejected(r));
    }
  }

  lemma NoLines(c: Config, outcome: Parsed)
    ensures |LinesWith(c, [], outcome)| == 0
  {
    assert LinesWith(c, [], outcome) == {};
  }

  // ---- the counters shared by the workers ----

  /** discardCounters: index 0 is unused. */
  class DiscardCounters {
    var counts: array<nat>

    ghost predicate Valid()
      reads this
    {
      counts.Length == 10
    }

    constructor ()
      ensures Valid() && fresh(counts) && forall i :: 0 <= i < 10 ==> counts[i] == 0
    {
      counts := new nat[10](i => 0);
    }

    method Inc(rule: nat)
      requires Valid()
      modifies counts
      ensures counts[..] == Bump(old(counts[..]), rule)
    {
      if 1 <= rule <= 9 {
        counts[rule] := counts[rule] + 1;
      }
    }

    method Snapshot() returns (out: array<nat>)
      requires Valid()
      ensures fresh(out) && out.Length == 10 && out[0] == 0
      ensures forall i :: 1 <= i <= 9 ==> out[i] == counts[i]
    {
      out := new nat[10](i => 0);
      for i := 1 to 10
        invariant out[0] == 0
        invariant forall k :: 1 <= k < i ==> out[k] == counts[k]
      {
        out[i] := counts[i];
      }
    }
  }

  function Bump(counts: seq<nat>, rule: nat): (out: seq<nat>)
    ensures |out| == |counts|
  {
    if 1 <= rule <= 9 && rule < |counts| then counts[rule := counts[rule] + 1] else counts
  }

  // ---- the loops of the reader and of a worker ----

  function Joined(batches: seq<seq<string>>): seq<string> {
    if batches == [] then [] else Joined(batches[..|batches| - 1]) + batches[|batches| - 1]
  }

  lemma JoinOne(batches: seq<seq<string>>, b: seq<string>)
    ensures Joined(batches + [b]) == Joined(batches) + b
  {
    assert (batches + [b])[..|batches|] == batches;
  }

  /** What the reader's loop still sends when it holds `batch` and has read n lines. */
  function BatchesFrom(c: Config, batch: seq<string>, n: nat): seq<seq<string>>
    requires 0 < c.batch
    decreases |c.lines| - n
  {
    if n < |c.lines| && !(c.limit > 0 && n >= c.limit) then
      var more := batch + [c.lines[n]];
      if |more| == c.batch then [more] + BatchesFrom(c, [], n + 1) else BatchesFrom(c, more, n + 1)
    else if |batch| > 0 then [batch]
    else []
  }

  /** The reader's loop: full batches in order, the last one shorter, none empty, and
      together exactly the lines within the limit. */
  method ReadBatches(c: Config) returns (batches: seq<seq<string>>, totalRead: nat)
    requires ValidConfig(c)
    ensures batches == BatchesFrom(c, [], 0)
    ensures totalRead == ToRead(c) && Joined(batches) == c.lines[..totalRead]
    ensures forall k :: 0 <= k < |batches| ==>
              0 < |batches[k]| <= c.batch && (k < |batches| - 1 ==> |batches[k]| == c.batch)
  {
    hide Joined;
    var batch: seq<string> := [];
    batches, totalRead := [], 0;
    assert Joined([]) == [] by {
      NothingJoined();
    }
    while totalRead < |c.lines|
      invariant totalRead <= ToRead(c)
      invariant |batch| < c.batch && forall k :: 0 <= k < |batches| ==> |batches[k]| == c.batch
      invariant Joined(batches) + batch == c.lines[..totalRead]
      invariant batches + BatchesFrom(c, batch, totalRead) == BatchesFrom(c, [], 0)
    {
      if c.limit > 0 && totalRead >= c.limit {
        break;
      }
      batch := batch + [c.lines[totalRead]];
      totalRead := totalRead + 1;
      if |batch| == c.batch {
        JoinOne(batches, batch);
        batches := batches + [batch];
        batch := [];
      }
    }
    if |batch| > 0 {
      JoinOne(batches, batch);
      batches := batches + [batch];
    }
  }

  lemma NothingJoined()
    ensures Joined([]) == []
  {
  }

  /** A worker's loop over one batch: the valid trips go out in order, and the shared
      counters grow by the discards of each rule. */
  method ParseBatch(c: Config, batch: seq<string>, counters: DiscardCounters) returns (out: seq<Trip>)
    requires counters.Valid()
    modifies counters.counts
    ensures out == Valids(c, batch)
    ensures counters.Valid() && counters.counts[0] == old(counters.counts[0])
    ensures forall r: nat :: 1 <= r <= 9 ==> counters.counts[r] == old(counters.counts[r]) + Discarded(c, batch, r)
  {
    hide ParseLine;
    out := [];
    for i := 0 to |batch|
      invariant counters.Valid() && counters.counts[0] == old(counters.counts[0])
      invariant out == Valids(c, batch[..i])
      invariant forall r: nat :: 1 <= r <= 9 ==>
                  counters.counts[r] == old(counters.counts[r]) + Discarded(c, batch[..i], r)
    {
      assert batch[..i + 1][..i] == batch[..i];
      ghost var before := counters.counts[..];
      match Parse(c, batch[i]) {
        case Accepted(trip) => out := out + [trip];
        case Rejected(rule) =>
          counters.Inc(rule);
          assert forall r: nat :: 1 <= r <= 9 ==> counters.counts[..][r] == Bump(before, rule)[r];
      }
    }
    assert batch[..|batch|] == batch;
  }

  // ---- the transition system ----

  /** The reader: filling a batch, about to send a full one, about to send the last
      one, about to close batchCh, gone. */
  datatype Reader = Reading(batch: seq<string>) | Full(batch: seq<string>) | Flushing(batch: seq<string>)
                  | Closing | Ended

  datatype Worker = Idle | Working(rest: seq<string>) | Gone

  /** `closes` fields count calls of close; `parsed` is history: the lines parsed. */
  datatype State = State(reader: Reader, totalRead: nat, batchCh: seq<seq<string>>, batchCloses: nat,
                         workers: seq<Worker>, counts: seq<nat>, outCh: seq<Trip>, outCloses: nat,
                         closerDone: bool, trips: seq<Trip>, collectorDone: bool, parsed: seq<string>)

  datatype Action =
    | Scan | EndScan | SendBatch | CloseBatches
    | Take(j: nat) | ParseNext(j: nat) | EndBatch(j: nat) | Exit(j: nat)
    | CloseOut | Collect | EndCollect

  function Init(c: Config): State {
    State(Reading([]), 0, [], 0, seq(c.workers, j => Idle), seq(10, r => 0), [], 0, false, [], false, [])
  }

  ghost predicate Shape(c: Config, s: State) {
    |s.workers| == c.workers && |s.counts| == 10
  }

  predicate LimitReached(c: Config, s: State) {
    c.limit > 0 && s.totalRead >= c.limit
  }

  ghost predicate Enabled(c: Config, s: State, a: Action)
    requires Shape(c, s)
  {
    match a
    case Scan => s.reader.Reading? && s.totalRead < |c.lines| && !LimitReached(c, s)
    case EndScan => s.reader.Reading? && (s.totalRead >= |c.lines| || LimitReached(c, s))
    case SendBatch => (s.reader.Full? || s.reader.Flushing?) && |s.batchCh| < 2 * c.workers
    case CloseBatches => s.reader.Closing?
    case Take(j) => j < c.workers && s.workers[j].Idle? && s.batchCh != []
    case ParseNext(j) =>
      j < c.workers && s.workers[j].Working? && s.workers[j].rest != []
      && (Parse(c, s.workers[j].rest[0]).Accepted? ==> |s.outCh| < 1024 * c.workers)
    case EndBatch(j) => j < c.workers && s.workers[j].Working? && s.workers[j].rest == []
    case Exit(j) => j < c.workers && s.workers[j].Idle? && s.batchCh == [] && s.batchCloses > 0
    case CloseOut => !s.closerDone && forall j :: 0 <= j < c.workers ==> s.workers[j].Gone?
    case Collect => !s.collectorDone && s.outCh != []
    case EndCollect => !s.collectorDone && s.outCh == [] && s.outCloses > 0
  }

  function AfterScan(c: Config, batch: seq<string>): Reader {
    if |batch| == c.batch then Full(batch) else Reading(batch)
  }

  function Parsing(c: Config, s: State, line: string): State
    requires |s.counts| == 10
  {
    var t := s.(parsed := s.parsed + [line]);
    match Parse(c, line)
    case Accepted(trip) => t.(outCh := s.outCh + [trip])
    case Rejected(rule) => t.(counts := Bump(s.counts, rule))
  }

  ghost function Step(c: Config, s: State, a: Action): State
    requires Shape(c, s) && Enabled(c, s, a)
  {
    match a
    case Scan =>
      s.(totalRead := s.totalRead + 1, reader := AfterScan(c, s.reader.batch + [c.lines[s.totalRead]]))
    case EndScan => s.(reader := if |s.reader.batch| > 0 then Flushing(s.reader.batch) else Closing)
    case SendBatch =>
      s.(batchCh := s.batchCh + [s.reader.batch], reader := if s.reader.Full? then Reading([]) else Closing)
    case CloseBatches => s.(batchCloses := s.batchCloses + 1, reader := Ended)
    case Take(j) => s.(workers := s.workers[j := Working(s.batchCh[0])], batchCh := s.batchCh[1..])
    case ParseNext(j) =>
      Parsing(c, s, s.workers[j].rest[0]).(workers := s.workers[j := Working(s.workers[j].rest[1..])])
    case EndBatch(j) => s.(workers := s.workers[j := Idle])
    case Exit(j) => s.(workers := s.workers[j := Gone])
    case CloseOut => s.(outCloses := s.outCloses + 1, closerDone := true)
    case Collect => s.(trips := s.trips + [s.outCh[0]], outCh := s.outCh[1..])
    case EndCollect => s.(collectorDone := true)
  }

  // ---- the invariant ----

  function InReader(s: State): seq<string> {
    match s.reader
    case Reading(b) => b
    case Full(b) => b
    case Flushing(b) => b
    case _ => []
  }

  function InWorker(w: Worker): seq<string> {
    if w.Working? then w.rest else []
  }

  /** Who holds lines outside batchCh: the reader first, then the workers. */
  function Holders(s: State): (h: seq<seq<string>>)
    ensures |h| == |s.workers| + 1
  {
    [InReader(s)] + seq(|s.workers|, j requires 0 <= j < |s.workers| => InWorker(s.workers[j]))
  }

  /** Conservation: every line read is parsed, in batchCh, or held by somebody. */
  ghost predicate LineLedger(c: Config, s: State) {
    s.totalRead <= |c.lines| && Balanced(s.parsed, s.batchCh, Holders(s), multiset(c.lines[..s.totalRead]))
  }

  /** What has come out is exactly what the parsed lines give, in that order. */
  ghost predicate OutputOk(c: Config, s: State) {
    && s.trips + s.outCh == Valids(c, s.parsed)
    && |s.counts| == 10 && s.counts[0] == 0
    && forall r: nat :: 1 <= r <= 9 ==> s.counts[r] == Discarded(c, s.parsed, r)
  }

  ghost predicate ReaderOk(c: Config, s: State) {
    && s.totalRead <= ToRead(c)
    && (s.reader.Reading? ==> |s.reader.batch| < c.batch)
    && (s.reader.Full? ==> |s.reader.batch| == c.batch)
    && (s.reader.Flushing? ==> 0 < |s.reader.batch| < c.batch)
    && (s.reader.Flushing? || s.reader.Closing? || s.reader.Ended? ==> s.totalRead == ToRead(c))
    && forall k :: 0 <= k < |s.batchCh| ==> s.batchCh[k] != []
  }

  /** Each channel is closed at most once, and in order: batchCh when the reader ends,
      a worker leaves after batchCh is closed and drained, outCh after all of them. */
  ghost predicate ChannelsOk(c: Config, s: State)
    requires Shape(c, s)
  {
    && s.batchCloses == (if s.reader.Ended? then 1 else 0)
    && s.outCloses == (if s.closerDone then 1 else 0)
    && (forall j :: 0 <= j < c.workers && s.workers[j].Gone? ==> s.reader.Ended? && s.batchCh == [])
    && (s.closerDone ==> forall j :: 0 <= j < c.workers ==> s.workers[j].Gone?)
    && (s.collectorDone ==> s.closerDone && s.outCh == [])
  }

  ghost predicate Inv(c: Config, s: State) {
    Shape(c, s) && LineLedger(c, s) && OutputOk(c, s) && ReaderOk(c, s) && ChannelsOk(c, s)
  }

  lemma InitInv(c: Config)
    requires ValidConfig(c)
    ensures Inv(c, Init(c))
  {
    hide Bag;
    var s := Init(c);
    NothingHeld(Holders(s));
    BagEmpty<string>();
  }

  /** Steps after which everybody holds the same lines. */
  lemma SameLines(c: Config, s: State, s': State)
    requires LineLedger(c, s) && |s'.workers| == |s.workers|
    requires s'.totalRead == s.totalRead && s'.parsed == s.parsed && s'.batchCh == s.batchCh
    requires InReader(s') == InReader(s)
    requires forall j: nat :: j < |s.workers| ==> InWorker(s'.workers[j]) == InWorker(s.workers[j])
    ensures LineLedger(c, s')
  {
    assert Holders(s') == Holders(s);
  }

  lemma ScanKeeps(c: Config, s: State)
    requires ValidConfig(c) && Inv(c, s) && Enabled(c, s, Scan)
    ensures Inv(c, Step(c, s, Scan))
  {
    hide LineLedger, OutputOk, Parse;
    var s' := Step(c, s, Scan);
    ScanKeepsLedger(c, s, s', c.lines[s.totalRead]);
    SameOutput(c, s, s');
  }

  lemma ScanKeepsLedger(c: Config, s: State, s': State, line: string)
    requires LineLedger(c, s) && s.totalRead < |c.lines| && line == c.lines[s.totalRead]
    requires s'.totalRead == s.totalRead + 1 && s'.parsed == s.parsed && s'.batchCh == s.batchCh
    requires s'.workers == s.workers && InReader(s') == InReader(s) + [line]
    ensures LineLedger(c, s')
  {
    hide Bag;
    var more := InReader(s) + [line];
    BagUpdate(Holders(s), 0, more);
    assert Holders(s') == Holders(s)[0 := more];
    assert c.lines[..s'.totalRead] == c.lines[..s.totalRead] + [line];
    assert multiset(more) == multiset(InReader(s)) + multiset{line};
  }

  lemma SameOutput(c: Config, s: State, s': State)
    requires OutputOk(c, s) && s'.trips + s'.outCh == s.trips + s.outCh && s'.parsed == s.parsed && s'.counts == s.counts
    ensures OutputOk(c, s')
  {
  }

  lemma SendBatchKeeps(c: Config, s: State)
    requires ValidConfig(c) && Inv(c, s) && Enabled(c, s, SendBatch)
    ensures Inv(c, Step(c, s, SendBatch))
  {
    hide Bag, Balanced, OutputOk, Parse;
    var s' := Step(c, s, SendBatch);
    var batch, nothing: seq<string> := s.reader.batch, [];
    assert Holders(s)[0] == batch + nothing;
    Send(s.parsed, s.batchCh, Holders(s), multiset(c.lines[..s.totalRead]), 0, batch, nothing);
    assert Holders(s') == Holders(s)[0 := nothing];
    SameOutput(c, s, s');
  }

  lemma TakeKeeps(c: Config, s: State, j: nat)
    requires ValidConfig(c) && Inv(c, s) && Enabled(c, s, Take(j))
    ensures Inv(c, Step(c, s, Take(j)))
  {
    hide Bag, OutputOk, Parse;
    var s' := Step(c, s, Take(j));
    var first, rest := s.batchCh[0], s.batchCh[1..];
    assert s.batchCh == [first] + rest;
    BagConcat([first], rest);
    BagSingle(first);
    assert Holders(s)[j + 1] == [];
    BagUpdate(Holders(s), j + 1, first);
    assert Holders(s') == Holders(s)[j + 1 := first];
    SameOutput(c, s, s');
  }

  /** Parsing moves one line from its worker to the parsed ones. */
  lemma ParseKeepsLedger(c: Config, s: State, j: nat)
    requires Shape(c, s) && LineLedger(c, s) && Enabled(c, s, ParseNext(j))
    ensures LineLedger(c, Step(c, s, ParseNext(j)))
  {
    hide Bag, Balanced, Parse;
    var s', held := Step(c, s, ParseNext(j)), s.workers[j].rest;
    assert Holders(s)[j + 1] == held;
    Consume(s.parsed, s.batchCh, Holders(s), multiset(c.lines[..s.totalRead]), j + 1);
    assert Holders(s') == Holders(s)[j + 1 := held[1..]];
  }

  lemma ParseKeepsOutput(c: Config, s: State, line: string)
    requires OutputOk(c, s)
    ensures OutputOk(c, Parsing(c, s, line))
  {
    hide Parse, Valids, Discarded;
    var s', one := Parsing(c, s, line), [line];
    ConcatLines(c, s.parsed, one, 1);
    OneLine(c, line, 1);
    assert s'.trips + s'.outCh == s.trips + s.outCh + TripsOf(c, line);
    forall r: nat | 1 <= r <= 9 ensures s'.counts[r] == Discarded(c, s'.parsed, r) {
      ConcatLines(c, s.parsed, one, r);
      OneLine(c, line, r);
    }
  }

  lemma ParseNextKeeps(c: Config, s: State, j: nat)
    requires ValidConfig(c) && Inv(c, s) && Enabled(c, s, ParseNext(j))
    ensures Inv(c, Step(c, s, ParseNext(j)))
  {
    hide LineLedger, OutputOk, ParseLine;
    var t := Parsing(c, s, s.workers[j].rest[0]);
    ParseKeepsLedger(c, s, j);
    ParseKeepsOutput(c, s, s.workers[j].rest[0]);
    SameOutput(c, t, Step(c, s, ParseNext(j)));
  }

  lemma QuietKeeps(c: Config, s: State, a: Action)
    requires ValidConfig(c) && Inv(c, s) && Enabled(c, s, a)
    requires a.EndScan? || a.CloseBatches? || a.EndBatch? || a.Exit? || a.CloseOut? || a.Collect? || a.EndCollect?
    ensures Inv(c, Step(c, s, a))
  {
    hide LineLedger, OutputOk, Parse;
    var s' := Step(c, s, a);
    SameLines(c, s, s');
    SameOutput(c, s, s');
  }

  lemma StepKeepsInv(c: Config, s: State, a: Action)
    requires ValidConfig(c) && Inv(c, s) && Enabled(c, s, a)
    ensures Inv(c, Step(c, s, a))
  {
    hide Parse, LineLedger, OutputOk, ReaderOk, ChannelsOk;
    match a
    case Scan => ScanKeeps(c, s);
    case SendBatch => SendBatchKeeps(c, s);
    case Take(j) => TakeKeeps(c, s, j);
    case ParseNext(j) => ParseNextKeeps(c, s, j);
    case _ => QuietKeeps(c, s, a);
  }
}
