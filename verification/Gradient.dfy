/** Gradient arithmetic of internal/model/sgd.go: the loops over slices, each proved
    against the sums of Descent, and the two sides of the gradient channel. */
module Gradient {
  import opened Sums
  import opened Ledger
  import opened Descent

  // ---- row numbers, batches and partitions ----

  datatype Partition = Partition(start: nat, end: nat)

  function Range(lo: nat, hi: nat): (s: seq<nat>)
    requires lo <= hi
    ensures |s| == hi - lo
    ensures forall k :: 0 <= k < hi - lo ==> s[k] == lo + k
  {
    seq(hi - lo, k requires 0 <= k => lo + k)
  }

  lemma RangesJoin(lo: nat, mid: nat, hi: nat)
    requires lo <= mid <= hi
    ensures Range(lo, hi) == Range(lo, mid) + Range(mid, hi)
    ensures Indices(hi) == Range(0, hi)
  {
  }

  function PartStart(n: nat, w: nat, i: nat): nat
    requires 0 < w
  {
    if i < w then i * (n / w) else n
  }

  lemma PartStartOrder(n: nat, w: nat, i: nat)
    requires 0 < w && i < w
    ensures PartStart(n, w, i) <= PartStart(n, w, i + 1) <= n
  {
    var size := n / w;
    assert (w - i) * size >= size by { ProductOrder(1, w - i, size); }
    assert i * size + (w - i) * size == w * size <= n;
    assert (i + 1) * size == i * size + size;
  }

  lemma ProductOrder(a: nat, b: nat, c: nat)
    requires a <= b
    ensures a * c <= b * c
  {
  }

  function PartOf(n: nat, w: nat, i: nat): (p: Partition)
    requires i < w
    ensures p.start <= p.end <= n
  {
    PartStartOrder(n, w, i);
    Partition(PartStart(n, w, i), PartStart(n, w, i + 1))
  }

  function Partitions(n: nat, w: nat): seq<Partition> {
    seq(w, i requires 0 <= i < w => PartOf(n, w, i))
  }

  /** Every slot is written as i*size .. (i+1)*size, and then the last one is
      stretched to n, so it absorbs the remainder. */
  method MakePartitions(n: nat, W: nat) returns (parts: array<Partition>)
    requires 0 < W
    ensures fresh(parts) && parts[..] == Partitions(n, W)
    ensures parts.Length == W
    ensures forall i :: 0 <= i < W - 1 ==> parts[i].start == i * (n / W) && parts[i].end == (i + 1) * (n / W)
    ensures parts[W - 1].start == (W - 1) * (n / W) && parts[W - 1].end == n
  {
    parts := new Partition[W](i => Partition(0, 0));
    var size: nat := n / W;
    for i := 0 to W
      invariant forall k: nat :: k < i ==> parts[k] == Partition(k * size, (k + 1) * size)
    {
      parts[i] := Partition(i * size, (i + 1) * size);
    }
    parts[W - 1] := Partition(parts[W - 1].start, n);
  }

  function PartIndices(n: nat, w: nat): (s: seq<seq<nat>>)
    ensures |s| == w
  {
    seq(w, i requires 0 <= i < w => Range(PartOf(n, w, i).start, PartOf(n, w, i).end))
  }

  lemma {:induction false} PartsCoverPrefix(n: nat, w: nat, k: nat)
    requires 0 < w && k <= w
    ensures Bag(PartIndices(n, w)[..k]) == multiset(Range(0, PartStart(n, w, k)))
  {
    if k > 0 {
      PartsCoverPrefix(n, w, k - 1);
      PartStartOrder(n, w, k - 1);
      BagOfRanges(PartIndices(n, w), k, PartStart(n, w, k - 1), PartStart(n, w, k));
    } else {
      assert PartIndices(n, w)[..0] == [];
      assert Range(0, 0 * (n / w)) == [];
    }
  }

  lemma BagOfRanges(ranges: seq<seq<nat>>, k: nat, lo: nat, hi: nat)
    requires 0 < k <= |ranges| && lo <= hi
    requires Bag(ranges[..k - 1]) == multiset(Range(0, lo)) && ranges[k - 1] == Range(lo, hi)
    ensures Bag(ranges[..k]) == multiset(Range(0, hi))
  {
    assert ranges[..k][..k - 1] == ranges[..k - 1];
    RangesJoin(0, lo, hi);
  }

  /** The pieces hold each row number exactly once, also when there are more
      pieces than rows. */
  lemma PartsCover(n: nat, w: nat)
    requires 0 < w
    ensures Bag(PartIndices(n, w)) == multiset(Indices(n))
  {
    PartsCoverPrefix(n, w, w);
    assert PartIndices(n, w)[..w] == PartIndices(n, w);
    RangesJoin(0, 0, n);
  }

  function PartRows(rows: seq<Row>, w: nat, i: nat): seq<Row>
    requires i < w
  {
    var p := PartOf(|rows|, w, i);
    rows[p.start..p.end]
  }

  /** The pieces are even: n / w rows each, and the last one takes the fewer than w rows
      that remain as well. It is what a worker shuffles and what a node is sent. */
  lemma PiecesAreEven(rows: seq<Row>, w: nat, i: nat)
    requires i < w
    ensures |PartIndices(|rows|, w)[i]| == |PartRows(rows, w, i)|
    ensures forall k :: 0 <= k < |PartRows(rows, w, i)| ==>
              && PartIndices(|rows|, w)[i][k] == i * (|rows| / w) + k
              && i * (|rows| / w) + k < |rows| && PartRows(rows, w, i)[k] == rows[i * (|rows| / w) + k]
    ensures if i < w - 1 then |PartRows(rows, w, i)| == |rows| / w
            else |rows| / w <= |PartRows(rows, w, i)| < |rows| / w + w
  {
    var size := |rows| / w;
    assert (i + 1) * size == i * size + size;
    assert i == w - 1 ==> i * size + size == w * size;
    assert |rows| == w * size + |rows| % w;
  }

  /** The gradient of piece i, and its number of rows, as summands over the pieces. */
  function PieceGradient(rows: seq<Row>, w: nat, theta: Vec, j: nat): nat -> real {
    (i: nat) => if i < w then GradAt(theta, PartRows(rows, w, i), j) else 0.0
  }

  function PieceSize(rows: seq<Row>, w: nat): nat -> real {
    (i: nat) => if i < w then |PartRows(rows, w, i)| as real else 0.0
  }

  lemma {:induction false} PiecePrefix(rows: seq<Row>, w: nat, theta: Vec, j: nat, k: nat)
    requires 0 < w && k <= w
    ensures PartStart(|rows|, w, k) <= |rows|
    ensures Sum(PieceGradient(rows, w, theta, j), Indices(k))
            == GradAt(theta, rows[..PartStart(|rows|, w, k)], j)
    ensures Sum(PieceSize(rows, w), Indices(k)) == PartStart(|rows|, w, k) as real
  {
    if k > 0 {
      PiecePrefix(rows, w, theta, j, k - 1);
      PartStartOrder(|rows|, w, k - 1);
      PieceStep(PieceGradient(rows, w, theta, j), PieceSize(rows, w), k,
                rows, theta, j, PartStart(|rows|, w, k - 1), PartStart(|rows|, w, k));
    } else {
      assert 0 * (|rows| / w) == 0;
    }
  }

  lemma PieceStep(gradient: nat -> real, size: nat -> real, k: nat,
                  rows: seq<Row>, theta: Vec, j: nat, lo: nat, hi: nat)
    requires 0 < k && lo <= hi <= |rows|
    requires Sum(gradient, Indices(k - 1)) == GradAt(theta, rows[..lo], j)
    requires Sum(size, Indices(k - 1)) == lo as real
    requires gradient(k - 1) == GradAt(theta, rows[lo..hi], j) && size(k - 1) == (hi - lo) as real
    ensures Sum(gradient, Indices(k)) == GradAt(theta, rows[..hi], j)
    ensures Sum(size, Indices(k)) == hi as real
  {
    assert Indices(k)[..k - 1] == Indices(k - 1);
    assert rows[..hi] == rows[..lo] + rows[lo..hi];
    SumConcat(GradTerm(theta, j), rows[..lo], rows[lo..hi]);
  }

  /** The gradients of the pieces, taken in any order, add up to the whole gradient
      and their sizes to the number of rows. */
  lemma PiecesAddUp(rows: seq<Row>, w: nat, theta: Vec, j: nat, order: seq<nat>)
    requires 0 < w && multiset(order) == multiset(Indices(w))
    ensures Sum(PieceGradient(rows, w, theta, j), order) == GradAt(theta, rows, j)
    ensures Sum(PieceSize(rows, w), order) == |rows| as real
  {
    PiecePrefix(rows, w, theta, j, w);
    assert rows[..|rows|] == rows;
    SumPermutation(PieceGradient(rows, w, theta, j), order, Indices(w));
    SumPermutation(PieceSize(rows, w), order, Indices(w));
  }

  // ---- the arithmetic loops ----

  ghost predicate Fits(rows: seq<Row>, dim: nat) {
    forall i :: 0 <= i < |rows| ==> |rows[i].x| == dim
  }

  method DotProduct(a: Vec, b: Vec) returns (sum: real)
    requires |a| <= |b|
    ensures sum == Dot(a, b)
  {
    sum := 0.0;
    assert Indices(|a|)[..0] == [];
    for i := 0 to |a|
      invariant sum == Sum(Products(a, b), Indices(|a|)[..i])
    {
      SumStep(Products(a, b), Indices(|a|), i);
      sum := sum + a[i] * b[i];
    }
    assert Indices(|a|)[..|a|] == Indices(|a|);
  }

  function BatchSum(rows: seq<Row>, theta: Vec, batch: seq<nat>): Vec {
    seq(|theta|, j requires 0 <= j => Sum(IndexTerm(rows, theta, j), batch))
  }

  function MeanGrad(rows: seq<Row>, theta: Vec, batch: seq<nat>): (g: Vec)
    requires batch != []
    ensures |g| == |theta|
  {
    seq(|theta|, j requires 0 <= j => Sum(IndexTerm(rows, theta, j), batch) / |batch| as real)
  }

  /** The mean gradient of one batch, in a newly allocated slice. */
  method ComputeGrad(rows: seq<Row>, theta: array<real>, batchIdx: seq<nat>) returns (grad: array<real>)
    requires Fits(rows, theta.Length)
    requires batchIdx != [] && forall k :: 0 <= k < |batchIdx| ==> batchIdx[k] < |rows|
    ensures fresh(grad)
    ensures grad[..] == MeanGrad(rows, theta[..], batchIdx)
  {
    hide Sum, Dot;
    ghost var th := theta[..];
    grad := new real[theta.Length](i => 0.0);
    forall j: nat | j < grad.Length ensures Sum(IndexTerm(rows, th, j), batchIdx[..0]) == 0.0 {
      SumEmpty(IndexTerm(rows, th, j), batchIdx);
    }
    for k := 0 to |batchIdx|
      invariant theta[..] == th
      invariant forall j: nat :: j < grad.Length ==> grad[j] == Sum(IndexTerm(rows, th, j), batchIdx[..k])
    {
      var i := batchIdx[k];
      var pred := DotProduct(rows[i].x, theta[..]);
      var err := pred - rows[i].y;
      forall j: nat | j < grad.Length
        ensures Sum(IndexTerm(rows, th, j), batchIdx[..k + 1])
                == Sum(IndexTerm(rows, th, j), batchIdx[..k]) + err * rows[i].x[j]
      {
        SumStep(IndexTerm(rows, th, j), batchIdx, k);
        assert IndexTerm(rows, th, j)(i) == GradTerm(th, j)(rows[i]);
      }
      AddScaled(grad, rows[i].x, err);
    }
    assert batchIdx[..|batchIdx|] == batchIdx;
    DivideAll(grad, |batchIdx| as real);
  }

  method AddScaled(grad: array<real>, x: Vec, err: real)
    requires |x| == grad.Length
    modifies grad
    ensures forall j :: 0 <= j < grad.Length ==> grad[j] == old(grad[j]) + err * x[j]
  {
    for j := 0 to grad.Length
      invariant forall m :: 0 <= m < j ==> grad[m] == old(grad[m]) + err * x[m]
      invariant forall m :: j <= m < grad.Length ==> grad[m] == old(grad[m])
    {
      grad[j] := grad[j] + err * x[j];
    }
  }

  method DivideAll(grad: array<real>, n: real)
    requires n != 0.0
    modifies grad
    ensures forall j :: 0 <= j < grad.Length ==> grad[j] == old(grad[j]) / n
  {
    for j := 0 to grad.Length
      invariant forall m :: 0 <= m < j ==> grad[m] == old(grad[m]) / n
      invariant forall m :: j <= m < grad.Length ==> grad[m] == old(grad[m])
    {
      grad[j] := grad[j] / n;
    }
  }

  method ComputeMSE(rows: seq<Row>, theta: Vec) returns (mse: real)
    requires rows != [] && Fits(rows, |theta|)
    ensures mse == Mse(rows, theta)
  {
    var sum := 0.0;
    for i := 0 to |rows|
      invariant sum == Sum(SquaredError(theta), rows[..i])
    {
      var pred := DotProduct(rows[i].x, theta);
      var d := pred - rows[i].y;
      SumStep(SquaredError(theta), rows, i);
      sum := sum + d * d;
    }
    assert rows[..|rows|] == rows;
    return sum / |rows| as real;
  }

  lemma MeanTimesCount(s: real, n: nat)
    requires 0 < n
    ensures s / n as real * n as real == s
  {
  }

  method AddWeighted(accumGrad: array<real>, g: Vec, n: nat)
    requires |g| == accumGrad.Length
    modifies accumGrad
    ensures forall j :: 0 <= j < accumGrad.Length ==> accumGrad[j] == old(accumGrad[j]) + g[j] * n as real
  {
    for j := 0 to accumGrad.Length
      invariant forall m :: 0 <= m < j ==> accumGrad[m] == old(accumGrad[m]) + g[m] * n as real
      invariant forall m :: j <= m < accumGrad.Length ==> accumGrad[m] == old(accumGrad[m])
    {
      accumGrad[j] := accumGrad[j] + g[j] * n as real;
    }
  }

  /** What a node computes: batches of 1024, each a mean weighted by its length. */
  method AccumulateGradient(rows: seq<Row>, theta: array<real>) returns (gradSum: array<real>, n: nat)
    requires Fits(rows, theta.Length)
    ensures fresh(gradSum)
    ensures gradSum[..] == GradSum(theta[..], rows)
    ensures n == |rows|
  {
    n := |rows|;
    gradSum := new real[theta.Length](i => 0.0);
    if n == 0 {
      return;
    }
    var batchSz := 1024;
    var start := 0;
    while start < n
      invariant gradSum[..] == BatchSum(rows, theta[..], Indices(if start < n then start else n))
    {
      var end := if start + batchSz > n then n else start + batchSz;
      var batchIdx := Range(start, end);
      var batchGrad := ComputeGrad(rows, theta, batchIdx);
      ghost var before := gradSum[..];
      AddWeighted(gradSum, batchGrad[..], end - start);
      AddBatch(rows, theta[..], start, end, before, gradSum[..]);
      start := start + batchSz;
    }
    forall j: nat | j < theta.Length ensures gradSum[j] == GradAt(theta[..], rows, j) {
      GradientOfAnyOrder(rows, theta[..], j, Indices(n));
    }
  }

  lemma AddMean(f: nat -> real, counted: seq<nat>, batch: seq<nat>)
    ensures batch != [] ==>
              Sum(f, counted) + Sum(f, batch) / |batch| as real * |batch| as real == Sum(f, counted + batch)
    ensures batch == [] ==> Sum(f, counted) == Sum(f, counted + batch)
  {
    SumConcat(f, counted, batch);
    if batch != [] {
      MeanTimesCount(Sum(f, batch), |batch|);
    }
  }

  lemma AddBatch(rows: seq<Row>, theta: Vec, start: nat, end: nat, before: Vec, after: Vec)
    requires start < end && before == BatchSum(rows, theta, Indices(start)) && |after| == |before|
    requires forall j :: 0 <= j < |theta| ==>
               after[j] == before[j] + MeanGrad(rows, theta, Range(start, end))[j] * (end - start) as real
    ensures after == BatchSum(rows, theta, Indices(end))
  {
    hide Sum, IndexTerm;
    RangesJoin(0, start, end);
    RangesJoin(0, 0, start);
    forall j: nat | j < |theta| ensures after[j] == Sum(IndexTerm(rows, theta, j), Indices(end)) {
      AddMean(IndexTerm(rows, theta, j), Indices(start), Range(start, end));
    }
  }

  // ---- the gradient channel: what workers put in, what the aggregator takes out ----

  datatype Msg = Grad(grad: Vec, n: nat) | Done

  function BatchEnd(start: nat, size: nat, len: nat): nat {
    if start + size > len then len else start + size
  }

  function BatchMsg(rows: seq<Row>, theta: Vec, order: seq<nat>, start: nat, size: nat): Msg
    requires 0 < size && start < |order|
  {
    var batch := order[start..BatchEnd(start, size, |order|)];
    Grad(MeanGrad(rows, theta, batch), |batch|)
  }

  /** Everything one worker sends in one epoch: its batches, then one Done. */
  function EpochMessages(rows: seq<Row>, theta: Vec, order: seq<nat>, start: nat, size: nat): seq<Msg>
    requires 0 < size
    decreases |order| - start
  {
    if start < |order|
    then [BatchMsg(rows, theta, order, start, size)] + EpochMessages(rows, theta, order, start + size, size)
    else [Done]
  }

  /** One pass of the worker's loop body; `localIdx` is already shuffled. */
  method RunWorkerEpoch(rows: seq<Row>, theta: array<real>, localIdx: array<nat>, batchSize: nat)
    returns (sent: seq<Msg>)
    requires 0 < batchSize && Fits(rows, theta.Length)
    requires forall k :: 0 <= k < localIdx.Length ==> localIdx[k] < |rows|
    ensures sent == EpochMessages(rows, theta[..], localIdx[..], 0, batchSize)
  {
    hide MeanGrad;
    ghost var th, order := theta[..], localIdx[..];
    sent := [];
    var start := 0;
    while start < localIdx.Length
      invariant theta[..] == th && localIdx[..] == order
      invariant sent + EpochMessages(rows, th, order, start, batchSize)
                == EpochMessages(rows, th, order, 0, batchSize)
    {
      var end := start + batchSize;
      if end > localIdx.Length {
        end := localIdx.Length;
      }
      var batch := localIdx[start..end];
      assert batch == order[start..BatchEnd(start, batchSize, |order|)];
      var grad := ComputeGrad(rows, theta, batch);
      ghost var m, rest := BatchMsg(rows, th, order, start, batchSize),
                           EpochMessages(rows, th, order, start + batchSize, batchSize);
      assert sent + [m] + rest == sent + ([m] + rest);
      sent := sent + [Grad(grad[..], |batch|)];
      start := start + batchSize;
    }
    sent := sent + [Done];
  }

  /** The aggregator's accumulators within one epoch. */
  datatype Progress = Progress(accum: Vec, totalN: nat, doneCount: nat)

  function Fresh(dim: nat): Progress {
    Progress(Zeros(dim), 0, 0)
  }

  function Absorb(p: Progress, m: Msg): (q: Progress)
    ensures |q.accum| == |p.accum|
  {
    match m
    case Grad(g, n) =>
      Progress(seq(|p.accum|, j requires 0 <= j < |p.accum| => p.accum[j] + At(g, j) * n as real),
               p.totalN + n, p.doneCount)
    case Done => p.(doneCount := p.doneCount + 1)
  }

  function AbsorbAll(p: Progress, msgs: seq<Msg>): (q: Progress)
    ensures |q.accum| == |p.accum|
  {
    if msgs == [] then p else Absorb(AbsorbAll(p, msgs[..|msgs| - 1]), msgs[|msgs| - 1])
  }

  method ApplyUpdate(theta: array<real>, accumGrad: array<real>, totalN: nat, lr: real)
    requires theta != accumGrad && theta.Length == accumGrad.Length
    modifies theta
    ensures theta[..] == Update(old(theta[..]), accumGrad[..], totalN, lr)
    ensures totalN == 0 ==> theta[..] == old(theta[..])
    ensures totalN > 0 ==> forall j :: 0 <= j < theta.Length ==>
              theta[j] == old(theta[j]) - lr * accumGrad[j] / totalN as real
  {
    ghost var updated := Update(theta[..], accumGrad[..], totalN, lr);
    if totalN > 0 {
      for j := 0 to theta.Length
        invariant theta[..j] == updated[..j] && theta[j..] == old(theta[j..])
      {
        assert theta[j] == theta[j..][0];
        theta[j] := theta[j] - lr * accumGrad[j] / totalN as real;
        assert theta[j] == updated[j];
      }
      assert theta[..] == theta[..theta.Length];
    }
  }

  method CopyOf(v: array<real>) returns (copy: array<real>)
    ensures fresh(copy) && copy[..] == v[..]
  {
    copy := new real[v.Length](i requires 0 <= i < v.Length reads v => v[i]);
  }

  /** The coordinator's broadcast: a copy for each worker, no two the same slice. */
  method Broadcast(theta: array<real>, workers: nat) returns (copies: seq<array<real>>)
    ensures |copies| == workers
    ensures forall i :: 0 <= i < workers ==> fresh(copies[i]) && copies[i][..] == theta[..]
    ensures forall i, j :: 0 <= i < j < workers ==> copies[i] != copies[j]
  {
    copies := [];
    for i := 0 to workers
      invariant |copies| == i
      invariant forall k :: 0 <= k < i ==> fresh(copies[k]) && copies[k][..] == theta[..]
      invariant forall k, m :: 0 <= k < m < i ==> copies[k] != copies[m]
    {
      var thetaCopy := CopyOf(theta);
      copies := copies + [thetaCopy];
    }
  }

  lemma AbsorbNone(p: Progress, msgs: seq<Msg>)
    ensures AbsorbAll(p, msgs[..0]) == p && msgs[..|msgs|] == msgs
  {
  }

  lemma AbsorbNext(p: Progress, msgs: seq<Msg>, k: nat)
    requires k < |msgs|
    ensures AbsorbAll(p, msgs[..k + 1]) == Absorb(AbsorbAll(p, msgs[..k]), msgs[k])
  {
    assert msgs[..k + 1][..k] == msgs[..k];
  }

  /** One epoch of the aggregator: it reads until it has seen one Done per worker,
      writes theta in place, and hands out a copy. The channel is the sequence of
      messages in the order they come out of it. */
  method RunAggregatorEpoch(gradCh: seq<Msg>, theta: array<real>, lr: real, workers: nat)
    returns (used: nat, thetaCopy: array<real>)
    requires workers <= AbsorbAll(Fresh(theta.Length), gradCh).doneCount
    requires forall k :: 0 <= k < |gradCh| && gradCh[k].Grad? ==> |gradCh[k].grad| == theta.Length
    modifies theta
    ensures used <= |gradCh| && (used == 0 || gradCh[used - 1].Done?)
    ensures var p := AbsorbAll(Fresh(theta.Length), gradCh[..used]);
            p.doneCount == workers && theta[..] == Update(old(theta[..]), p.accum, p.totalN, lr)
    ensures fresh(thetaCopy) && thetaCopy[..] == theta[..]
  {
    hide Update, AbsorbAll;
    var accumGrad := new real[theta.Length](i => 0.0);
    var totalN, doneCount := 0, 0;
    used := 0;
    AbsorbNone(Fresh(theta.Length), gradCh);
    while doneCount < workers
      invariant used <= |gradCh| && doneCount <= workers
      invariant used == 0 || gradCh[used - 1].Done? || doneCount < workers
      invariant theta[..] == old(theta[..])
      invariant AbsorbAll(Fresh(theta.Length), gradCh[..used]) == Progress(accumGrad[..], totalN, doneCount)
      decreases |gradCh| - used
    {
      var msg := gradCh[used];
      AbsorbNext(Fresh(theta.Length), gradCh, used);
      ghost var before := Progress(accumGrad[..], totalN, doneCount);
      match msg {
        case Grad(g, n) =>
          AddWeighted(accumGrad, g, n);
          totalN := totalN + n;
          assert forall j :: 0 <= j < theta.Length ==> accumGrad[..][j] == Absorb(before, msg).accum[j];
        case Done =>
          doneCount := doneCount + 1;
      }
      used := used + 1;
    }
    ApplyUpdate(theta, accumGrad, totalN, lr);
    thetaCopy := CopyOf(theta);
  }

  /** A batch mean weighted by the batch length adds that batch's gradient. */
  lemma AbsorbBatch(rows: seq<Row>, theta: Vec, p: Progress, counted: seq<nat>, m: Msg, batch: seq<nat>)
    requires p.accum == BatchSum(rows, theta, counted)
    requires m.Grad? ==> batch != [] && m.n == |batch| && m.grad == MeanGrad(rows, theta, batch)
    requires m.Done? ==> batch == []
    ensures Absorb(p, m).accum == BatchSum(rows, theta, counted + batch)
  {
    forall j: nat | j < |theta|
      ensures Absorb(p, m).accum[j] == Sum(IndexTerm(rows, theta, j), counted + batch)
    {
      AddMean(IndexTerm(rows, theta, j), counted, batch);
    }
  }

  /** Chunking preserves the gradient: whatever order a worker uses and however
      long its batches are, absorbing its messages adds exactly its rows' gradient. */
  lemma {:induction false} ChunkingPreservesGradient(rows: seq<Row>, theta: Vec, order: seq<nat>,
                                                     start: nat, size: nat, p: Progress, counted: seq<nat>)
    requires 0 < size && start <= |order| && p.accum == BatchSum(rows, theta, counted)
    ensures AbsorbAll(p, EpochMessages(rows, theta, order, start, size))
            == Progress(BatchSum(rows, theta, counted + order[start..]), p.totalN + |order| - start, p.doneCount + 1)
    decreases |order| - start
  {
    hide BatchSum, MeanGrad;
    if start < |order| {
      var end := BatchEnd(start, size, |order|);
      var batch, m := order[start..end], BatchMsg(rows, theta, order, start, size);
      EpochFrom(rows, theta, order, start, size);
      AbsorbBatch(rows, theta, p, counted, m, batch);
      ChunkingPreservesGradient(rows, theta, order, end, size, Absorb(p, m), counted + batch);
      AbsorbFirst(p, m, EpochMessages(rows, theta, order, end, size));
      assert counted + order[start..] == counted + batch + order[end..];
    } else {
      AbsorbFirst(p, Done, []);
      assert [Done] + [] == [Done];
      assert counted + order[start..] == counted;
    }
  }

  lemma EpochFrom(rows: seq<Row>, theta: Vec, order: seq<nat>, start: nat, size: nat)
    requires 0 < size && start < |order|
    ensures EpochMessages(rows, theta, order, start + size, size)
            == EpochMessages(rows, theta, order, BatchEnd(start, size, |order|), size)
  {
  }

  /** A message for the rows at `from` and the next ones, `size` of them unless they are
      the last. */
  ghost predicate IsBatch(rows: seq<Row>, theta: Vec, order: seq<nat>, from: nat, size: nat, msg: Msg) {
    && msg.Grad? && 0 < msg.n <= size && from + msg.n <= |order| && (msg.n < size ==> from + msg.n == |order|)
    && msg.grad == MeanGrad(rows, theta, order[from..from + msg.n])
  }

  /** How a worker cuts its shuffled rows: message k is the mean gradient of the k-th
      `size` rows, only the last of them may be fewer, and a Done ends the epoch. */
  lemma {:induction false} EpochIsCut(rows: seq<Row>, theta: Vec, order: seq<nat>, start: nat, size: nat)
    requires 0 < size && start <= |order|
    ensures var msgs := EpochMessages(rows, theta, order, start, size);
            && msgs != [] && msgs[|msgs| - 1] == Done
            && |order| - start <= (|msgs| - 1) * size && (1 < |msgs| ==> (|msgs| - 2) * size < |order| - start)
            && forall k: nat :: k < |msgs| - 1 ==> IsBatch(rows, theta, order, start + k * size, size, msgs[k])
    decreases |order| - start
  {
    hide MeanGrad, IsBatch;
    if start < |order| {
      var msgs, end := EpochMessages(rows, theta, order, start, size), BatchEnd(start, size, |order|);
      EpochFrom(rows, theta, order, start, size);
      EpochIsCut(rows, theta, order, end, size);
      var rest := EpochMessages(rows, theta, order, end, size);
      assert msgs == [BatchMsg(rows, theta, order, start, size)] + rest;
      OneMoreTime(|rest| - 1, size);
      if 1 < |rest| {
        OneMoreTime(|rest| - 2, size);
      }
      forall k: nat | k < |msgs| - 1 ensures IsBatch(rows, theta, order, start + k * size, size, msgs[k]) {
        if k == 0 {
          FirstIsBatch(rows, theta, order, start, size);
        } else {
          OneMoreTime(k - 1, size);
          assert IsBatch(rows, theta, order, end + (k - 1) * size, size, rest[k - 1]);
        }
      }
    }
  }

  lemma FirstIsBatch(rows: seq<Row>, theta: Vec, order: seq<nat>, start: nat, size: nat)
    requires 0 < size && start < |order|
    ensures IsBatch(rows, theta, order, start, size, BatchMsg(rows, theta, order, start, size))
  {
    hide MeanGrad;
  }

  lemma OneMoreTime(k: nat, size: nat)
    ensures (k + 1) * size == k * size + size
  {
  }

  lemma {:induction false} AbsorbFirst(p: Progress, m: Msg, rest: seq<Msg>)
    ensures AbsorbAll(p, [m] + rest) == AbsorbAll(Absorb(p, m), rest)
  {
    if rest == [] {
      assert [m] + rest == [m] && [m][..0] == [];
    } else {
      AbsorbFirst(p, m, rest[..|rest| - 1]);
      assert ([m] + rest)[..|rest|] == [m] + rest[..|rest| - 1];
    }
  }
}
