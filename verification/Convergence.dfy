/** What training does on a standardised matrix: the loss never rises for a small
    enough learning rate and nears that of any other weights, its gradients are summable
    over the epochs, and the bias has a closed form. */
module Convergence {
  import opened Sums
  import opened Descent
  import opened Gradient
  import opened Features

  function Coordinate(v: Vec): nat -> real {
    (i: nat) => At(v, i)
  }

  function Norm2(v: Vec): real {
    Dot(v, v)
  }

  /** The averaged gradient, which a step subtracts lr times. */
  function MeanGradient(rows: seq<Row>, theta: Vec): (g: Vec)
    requires rows != []
    ensures |g| == |theta|
  {
    seq(|theta|, j requires 0 <= j => GradAt(theta, rows, j) / |rows| as real)
  }

  lemma DotCauchySchwarz(a: Vec, b: Vec)
    requires |a| == |b|
    ensures Dot(a, b) * Dot(a, b) <= Norm2(a) * Norm2(b)
  {
    var ix := Indices(|a|);
    CauchySchwarz(Coordinate(a), Coordinate(b), ix);
    SumCong(Products(a, b), Times(Coordinate(a), Coordinate(b)), ix);
    SumCong(Products(a, a), Times(Coordinate(a), Coordinate(a)), ix);
    SumCong(Products(b, b), Times(Coordinate(b), Coordinate(b)), ix);
  }

  lemma NormNonNegative(v: Vec)
    ensures 0.0 <= Norm2(v)
  {
    SumOfSquaresNonNegative(Coordinate(v), Indices(|v|));
    SumCong(Products(v, v), Times(Coordinate(v), Coordinate(v)), Indices(|v|));
  }

  // ---- the mean squared row norm ----

  function RowNorm(): Row -> real {
    (r: Row) => Norm2(r.x)
  }

  function EntrySquared(): (Row, nat) -> real {
    (r: Row, j: nat) => At(r.x, j) * At(r.x, j)
  }

  lemma SumOfIndicesBound(f: nat -> real, n: nat, bound: real)
    requires forall j: nat :: j < n ==> f(j) <= bound
    ensures Sum(f, Indices(n)) <= bound * n as real
  {
    SumMonotone(f, Constant(bound), Indices(n));
    SumConstant(bound, Indices(n));
  }

  /** The squared row norms of a standardised matrix average to at most one per column. */
  lemma RowNormsBounded(rows: seq<Row>, features: nat)
    requires Standardised(rows, features)
    ensures Sum(RowNorm(), rows) <= |rows| as real * (features + 1) as real
  {
    hide Sum;
    var ix := Indices(features + 1);
    forall r | r in rows ensures RowNorm()(r) == RowSums(EntrySquared(), ix)(r) {
      assert |r.x| == features + 1;
      SumCong(Products(r.x, r.x), RowOf(EntrySquared(), r), ix);
    }
    SumCong(RowNorm(), RowSums(EntrySquared(), ix), rows);
    SumExchange(EntrySquared(), rows, ix);
    forall j: nat | j < features + 1 ensures ColumnSums<Row, nat>(EntrySquared(), rows)(j) <= |rows| as real {
      if j < features {
        SumCong(ColumnOf(EntrySquared(), j), Times(Column(j), Column(j)), rows);
      } else {
        SumCong(ColumnOf(EntrySquared(), j), Constant(1.0), rows);
        SumConstant(1.0, rows);
      }
    }
    SumOfIndicesBound(ColumnSums<Row, nat>(EntrySquared(), rows), features + 1, |rows| as real);
  }

  // ---- one step ----

  function Along(g: Vec): Row -> real {
    (r: Row) => Dot(r.x, g)
  }

  function ErrAlong(theta: Vec, g: Vec): Row -> real {
    (r: Row) => Err(theta, r) * Dot(r.x, g)
  }

  lemma StepCoordinate(t: real, lr: real, s: real, n: real)
    requires 0.0 < n
    ensures t - lr * s / n == t - lr * (s / n)
  {
  }

  function CrossTerm(theta: Vec, g: Vec): (Row, nat) -> real {
    (r: Row, j: nat) => Err(theta, r) * (At(r.x, j) * At(g, j))
  }

  /** The slope in a direction v: the errors times the rows' components along v add
      up to the product of v with the gradient sum. */
  lemma SlopeAlong(rows: seq<Row>, theta: Vec, v: Vec)
    requires Fits(rows, |theta|) && |v| == |theta|
    ensures Sum(ErrAlong(theta, v), rows) == Dot(v, GradSum(theta, rows))
  {
    hide Sum, Err, GradAt;
    var ix, F, gradient := Indices(|theta|), CrossTerm(theta, v), GradSum(theta, rows);
    forall r | r in rows ensures ErrAlong(theta, v)(r) == RowSums(F, ix)(r) {
      assert |r.x| == |theta|;
      SumLinear(RowOf(F, r), Err(theta, r), Products(r.x, v), 0.0, Products(r.x, v), ix);
    }
    SumCong(ErrAlong(theta, v), RowSums(F, ix), rows);
    SumExchange(F, rows, ix);
    forall j: nat | j in ix ensures ColumnSums(F, rows)(j) == Products(v, gradient)(j) {
      ScaledColumn(theta, v, rows, j);
    }
    SumCong(ColumnSums<Row, nat>(F, rows), Products(v, gradient), ix);
  }

  function Moved(theta: Vec, v: Vec): (out: Vec)
    requires |v| == |theta|
    ensures |out| == |theta|
  {
    seq(|theta|, i requires 0 <= i < |theta| => theta[i] + v[i])
  }

  /** The squared errors around theta, exactly and in every direction: what the program
      calls the gradient is half the derivative of the summed squares. */
  lemma GradientIsTheDerivative(rows: seq<Row>, theta: Vec, v: Vec)
    requires Fits(rows, |theta|) && |v| == |theta|
    ensures Sum(SquaredError(Moved(theta, v)), rows)
            == Sum(SquaredError(theta), rows) + 2.0 * Dot(v, GradSum(theta, rows)) + Sum(Times(Along(v), Along(v)), rows)
  {
    hide Sum, Dot, GradSum;
    var theta', change := Moved(theta, v), DirectionChange(theta, v);
    forall r | r in rows ensures SquaredError(theta')(r) == 1.0 * SquaredError(theta)(r) + 1.0 * change(r) {
      PredictionMoves(r.x, theta, v);
      SquareOfSum(Err(theta, r), Dot(r.x, v));
    }
    SumLinear(SquaredError(theta'), 1.0, SquaredError(theta), 1.0, change, rows);
    SumLinear(change, 2.0, ErrAlong(theta, v), 1.0, Times(Along(v), Along(v)), rows);
    SlopeAlong(rows, theta, v);
  }

  function DirectionChange(theta: Vec, v: Vec): Row -> real {
    (r: Row) => 2.0 * (Err(theta, r) * Dot(r.x, v)) + 1.0 * (Dot(r.x, v) * Dot(r.x, v))
  }

  lemma PredictionMoves(x: Vec, theta: Vec, v: Vec)
    requires |x| == |theta| == |v|
    ensures Dot(x, Moved(theta, v)) == Dot(x, theta) + Dot(x, v)
  {
    hide Sum;
    SumLinear(Products(x, Moved(theta, v)), 1.0, Products(x, theta), 1.0, Products(x, v), Indices(|x|));
  }

  lemma SquareOfSum(e: real, d: real)
    ensures (e + d) * (e + d) == 1.0 * (e * e) + 1.0 * (2.0 * (e * d) + 1.0 * (d * d))
  {
  }

  lemma ScaledColumn(theta: Vec, g: Vec, rows: seq<Row>, j: nat)
    ensures Sum(ColumnOf(CrossTerm(theta, g), j), rows) == At(g, j) * GradAt(theta, rows, j)
  {
    var f := GradTerm(theta, j);
    forall r | r in rows ensures ColumnOf(CrossTerm(theta, g), j)(r) == At(g, j) * f(r) + 0.0 * f(r) {
      Reassociate(Err(theta, r), At(r.x, j), At(g, j));
    }
    SumLinear(ColumnOf(CrossTerm(theta, g), j), At(g, j), f, 0.0, f, rows);
  }

  lemma Reassociate(a: real, b: real, c: real)
    ensures a * (b * c) == c * (a * b)
  {
  }

  lemma CurvatureByNorms(rows: seq<Row>, g: Vec)
    requires Fits(rows, |g|)
    ensures Sum(Times(Along(g), Along(g)), rows) <= Norm2(g) * Sum(RowNorm(), rows)
  {
    hide Sum, Dot, Norm2;
    var scaled := ScaledNorm(Norm2(g));
    forall r | r in rows ensures Times(Along(g), Along(g))(r) <= scaled(r) {
      DotCauchySchwarz(r.x, g);
    }
    SumMonotone(Times(Along(g), Along(g)), scaled, rows);
    forall r | r in rows ensures scaled(r) == Norm2(g) * RowNorm()(r) + 0.0 * RowNorm()(r) {
    }
    SumLinear(scaled, Norm2(g), RowNorm(), 0.0, RowNorm(), rows);
  }

  lemma StandardisedFits(rows: seq<Row>, features: nat)
    requires Standardised(rows, features)
    ensures Fits(rows, features + 1)
  {
  }

  /** The curvature along the gradient, by Cauchy-Schwarz row by row. */
  lemma CurvatureBound(rows: seq<Row>, features: nat, g: Vec)
    requires Standardised(rows, features) && |g| == features + 1
    ensures Sum(Times(Along(g), Along(g)), rows) <= Norm2(g) * (|rows| as real * (features + 1) as real)
  {
    hide *;
    StandardisedFits(rows, features);
    CurvatureByNorms(rows, g);
    RowNormsBounded(rows, features);
    NormNonNegative(g);
    ScaleBound(Norm2(g), Sum(RowNorm(), rows), |rows| as real * (features + 1) as real);
  }

  lemma ScaleBound(c: real, a: real, b: real)
    requires 0.0 <= c && a <= b
    ensures c * a <= c * b
  {
  }

  function ScaledNorm(c: real): Row -> real {
    (r: Row) => c * Norm2(r.x)
  }

  function Scaled(c: real, v: Vec): (out: Vec)
    ensures |out| == |v|
  {
    seq(|v|, i requires 0 <= i < |v| => c * v[i])
  }

  lemma ScaledDot(c: real, v: Vec, w: Vec)
    requires |v| == |w|
    ensures Dot(Scaled(c, v), w) == c * Dot(v, w) && Dot(w, Scaled(c, v)) == c * Dot(w, v)
  {
    hide Sum;
    var ix := Indices(|v|);
    forall i | i in ix
      ensures Products(Scaled(c, v), w)(i) == c * Products(v, w)(i) + 0.0 * Products(v, w)(i)
      ensures Products(w, Scaled(c, v))(i) == c * Products(w, v)(i) + 0.0 * Products(w, v)(i)
    {
      Reassociate(c, v[i], w[i]);
      Reassociate(w[i], c, v[i]);
    }
    SumLinear(Products(Scaled(c, v), w), c, Products(v, w), 0.0, Products(v, w), ix);
    SumLinear(Products(w, Scaled(c, v)), c, Products(w, v), 0.0, Products(w, v), ix);
  }

  /** A step moves theta by -lr times the mean gradient. */
  lemma StepMoves(rows: seq<Row>, lr: real, theta: Vec)
    requires rows != []
    ensures GdStep(rows, lr, theta) == Moved(theta, Scaled(-lr, MeanGradient(rows, theta)))
    ensures GradSum(theta, rows) == Scaled(|rows| as real, MeanGradient(rows, theta))
  {
    hide GradAt;
    var n := |rows| as real;
    var g, step := MeanGradient(rows, theta), GdStep(rows, lr, theta);
    forall j | 0 <= j < |theta|
      ensures step[j] == Moved(theta, Scaled(-lr, g))[j]
      ensures GradSum(theta, rows)[j] == Scaled(n, g)[j]
    {
      StepCoordinate(theta[j], lr, GradAt(theta, rows, j), n);
      assert GradAt(theta, rows, j) == n * g[j];
    }
    assert step == Moved(theta, Scaled(-lr, g));
    assert GradSum(theta, rows) == Scaled(n, g);
  }

  /** The squared errors after a step, exactly. */
  lemma ErrorsAfterStep(rows: seq<Row>, lr: real, theta: Vec)
    requires rows != [] && Fits(rows, |theta|)
    ensures var g := MeanGradient(rows, theta);
            Sum(SquaredError(GdStep(rows, lr, theta)), rows)
            == Sum(SquaredError(theta), rows) - 2.0 * lr * (|rows| as real * Norm2(g))
               + lr * lr * Sum(Times(Along(g), Along(g)), rows)
  {
    hide Sum, Dot, GdStep, GradSum, MeanGradient, Scaled, Moved;
    var g, n := MeanGradient(rows, theta), |rows| as real;
    var v := Scaled(-lr, g);
    StepMoves(rows, lr, theta);
    GradientIsTheDerivative(rows, theta, v);
    ScaledDot(-lr, g, Scaled(n, g));
    ScaledDot(n, g, g);
    assert Dot(v, GradSum(theta, rows)) == -lr * (n * Norm2(g));
    CurvatureScales(rows, lr, g);
  }

  lemma CurvatureScales(rows: seq<Row>, lr: real, g: Vec)
    requires Fits(rows, |g|)
    ensures Sum(Times(Along(Scaled(-lr, g)), Along(Scaled(-lr, g))), rows)
            == lr * lr * Sum(Times(Along(g), Along(g)), rows)
  {
    hide Sum, Dot, Scaled;
    var v, square := Scaled(-lr, g), Times(Along(g), Along(g));
    forall r | r in rows ensures Times(Along(v), Along(v))(r) == (lr * lr) * square(r) + 0.0 * square(r) {
      ScaledDot(-lr, g, r.x);
      SquareOfScaled(lr, Dot(r.x, g));
    }
    SumLinear(Times(Along(v), Along(v)), lr * lr, square, 0.0, square, rows);
  }

  lemma SquareOfScaled(lr: real, d: real)
    ensures (-lr * d) * (-lr * d) == (lr * lr) * (d * d)
  {
  }

  lemma DescentArithmetic(after: real, before: real, lr: real, n: real, norm: real, curvature: real, dim: real)
    requires 0.0 < n && after == before - 2.0 * lr * (n * norm) + lr * lr * curvature
    requires curvature <= norm * (n * dim)
    ensures after / n <= before / n - lr * (2.0 - lr * dim) * norm
  {
    SquareNonNegative(lr);
    MultiplyOrder(curvature, norm * (n * dim), lr * lr);
    var drop := lr * (2.0 - lr * dim) * norm;
    assert lr * lr * (norm * (n * dim)) == n * (lr * (lr * dim) * norm) by {
      var k := lr * norm;
      assert lr * lr * (norm * (n * dim)) == k * (lr * (n * dim));
      assert n * (lr * (lr * dim) * norm) == k * (n * (lr * dim));
    }
    assert 2.0 * lr * (n * norm) == n * (2.0 * lr * norm);
    assert drop == 2.0 * lr * norm - lr * (lr * dim) * norm;
    assert after <= before - n * drop;
    DivideOrder(after, before, n, drop);
  }

  lemma DivideOrder(after: real, before: real, n: real, drop: real)
    requires 0.0 < n && after <= before - n * drop
    ensures after / n <= before / n - drop
  {
    var q := before / n - drop;
    assert q * n == before - n * drop;
  }

  /** One epoch lowers the loss by at least lr * (2 - lr * dim) * |gradient|^2. */
  lemma StepLowersLoss(rows: seq<Row>, features: nat, lr: real, theta: Vec)
    requires rows != [] && Standardised(rows, features) && |theta| == features + 1
    ensures Mse(rows, GdStep(rows, lr, theta))
            <= Mse(rows, theta) - lr * (2.0 - lr * (features + 1) as real) * Norm2(MeanGradient(rows, theta))
  {
    hide Sum, Dot, Norm2, GdStep;
    var g := MeanGradient(rows, theta);
    ErrorsAfterStep(rows, lr, theta);
    CurvatureBound(rows, features, g);
    DescentArithmetic(Sum(SquaredError(GdStep(rows, lr, theta)), rows), Sum(SquaredError(theta), rows), lr,
                      |rows| as real, Norm2(g), Sum(Times(Along(g), Along(g)), rows), (features + 1) as real);
  }

  // ---- whole runs ----

  lemma StepNeverRaisesLoss(rows: seq<Row>, features: nat, lr: real, theta: Vec)
    requires rows != [] && Standardised(rows, features) && |theta| == features + 1
    requires 0.0 <= lr && lr * (features + 1) as real <= 2.0
    ensures Mse(rows, GdStep(rows, lr, theta)) <= Mse(rows, theta)
  {
    hide Sum, Dot, Norm2, Mse, GdStep, MeanGradient, Standardised;
    var g, left := MeanGradient(rows, theta), 2.0 - lr * (features + 1) as real;
    StepLowersLoss(rows, features, lr, theta);
    NormNonNegative(g);
    ProductNonNegative(lr, left, Norm2(g));
    assert Mse(rows, GdStep(rows, lr, theta)) <= Mse(rows, theta) - lr * left * Norm2(g);
  }

  /** The losses of a run never rise, and none exceeds the loss of zero weights. */
  lemma {:induction false} LossNeverRises(rows: seq<Row>, features: nat, lr: real, early: nat, late: nat)
    requires rows != [] && Standardised(rows, features)
    requires 0.0 <= lr && lr * (features + 1) as real <= 2.0 && early <= late
    ensures Mse(rows, GdRun(rows, lr, features + 1, late)) <= Mse(rows, GdRun(rows, lr, features + 1, early))
    decreases late
  {
    hide Mse, GdStep, Standardised;
    if early < late {
      LossNeverRises(rows, features, lr, early, late - 1);
      StepNeverRaisesLoss(rows, features, lr, GdRun(rows, lr, features + 1, late - 1));
    }
  }

  lemma ProductNonNegative(a: real, b: real, c: real)
    requires 0.0 <= a && 0.0 <= b && 0.0 <= c
    ensures 0.0 <= a * b * c
  {
    MultiplyOrder(0.0, a, b);
    MultiplyOrder(0.0, a * b, c);
  }

  function GradientNorms(rows: seq<Row>, lr: real, dim: nat): nat -> real
    requires rows != []
  {
    (e: nat) => Norm2(MeanGradient(rows, GdRun(rows, lr, dim, e)))
  }

  /** The squared gradient norms met during a run are bounded in total by the loss
      there was to lose, however many epochs are run. */
  lemma {:induction false} GradientsAreSummable(rows: seq<Row>, features: nat, lr: real, epochs: nat)
    requires rows != [] && Standardised(rows, features)
    ensures lr * (2.0 - lr * (features + 1) as real) * Sum(GradientNorms(rows, lr, features + 1), Indices(epochs))
            <= Mse(rows, Zeros(features + 1)) - Mse(rows, GdRun(rows, lr, features + 1, epochs))
  {
    hide Sum, Dot, Norm2, Mse, GdStep, MeanGradient, Standardised;
    SumEmpty(GradientNorms(rows, lr, features + 1), []);
    assert Indices(0) == [][..0];
    if epochs > 0 {
      GradientsAreSummable(rows, features, lr, epochs - 1);
      var dim, last := features + 1, epochs - 1;
      StepLowersLoss(rows, features, lr, GdRun(rows, lr, dim, last));
      var norms := GradientNorms(rows, lr, dim);
      assert Indices(epochs)[..last] == Indices(last) && Indices(epochs)[..epochs] == Indices(epochs);
      SumStep(norms, Indices(epochs), last);
      Distribute(lr * (2.0 - lr * dim as real), Sum(norms, Indices(last)), norms(last));
    }
  }

  lemma Distribute(c: real, a: real, b: real)
    ensures c * (a + b) == c * a + c * b
  {
  }

  // ---- how near the best loss is ----

  function Minus(a: Vec, b: Vec): (out: Vec)
    requires |a| == |b|
    ensures |out| == |a|
  {
    seq(|a|, i requires 0 <= i < |a| => a[i] - b[i])
  }

  lemma DotMoved(a: Vec, b: Vec, w: Vec)
    requires |a| == |b| == |w|
    ensures Dot(Moved(a, b), w) == Dot(a, w) + Dot(b, w) && Dot(w, Moved(a, b)) == Dot(w, a) + Dot(w, b)
  {
    hide Sum;
    var ix := Indices(|w|);
    SumLinear(Products(Moved(a, b), w), 1.0, Products(a, w), 1.0, Products(b, w), ix);
    SumLinear(Products(w, Moved(a, b)), 1.0, Products(w, a), 1.0, Products(w, b), ix);
  }

  lemma DotCommutes(a: Vec, b: Vec)
    requires |a| == |b|
    ensures Dot(a, b) == Dot(b, a)
  {
    hide Sum;
    SumCong(Products(a, b), Products(b, a), Indices(|a|));
  }

  lemma NormMoved(a: Vec, b: Vec)
    requires |a| == |b|
    ensures Norm2(Moved(a, b)) == Norm2(a) + 2.0 * Dot(a, b) + Norm2(b)
  {
    hide Dot, Moved;
    DotMoved(a, b, Moved(a, b));
    DotMoved(a, b, a);
    DotMoved(a, b, b);
    DotCommutes(a, b);
  }

  /** The loss is convex: no w does better than the slope at theta foretells. */
  lemma LossIsConvex(rows: seq<Row>, theta: Vec, w: Vec)
    requires rows != [] && Fits(rows, |theta|) && |w| == |theta|
    ensures Mse(rows, theta) + 2.0 * Dot(Minus(w, theta), MeanGradient(rows, theta)) <= Mse(rows, w)
  {
    hide Sum, Dot, GradSum, GdStep, MeanGradient, Scaled;
    var v, g, n := Minus(w, theta), MeanGradient(rows, theta), |rows| as real;
    assert Moved(theta, v) == w;
    GradientIsTheDerivative(rows, theta, v);
    SumOfSquaresNonNegative(Along(v), rows);
    StepMoves(rows, 0.0, theta);
    ScaledDot(n, g, v);
    SlopeTimesCount(n, Dot(v, g));
    assert Dot(v, GradSum(theta, rows)) == n * Dot(v, g);
    assert Sum(SquaredError(theta), rows) <= Sum(SquaredError(w), rows) - n * (2.0 * Dot(v, g));
    DivideOrder(Sum(SquaredError(theta), rows), Sum(SquaredError(w), rows), n, 2.0 * Dot(v, g));
  }

  lemma SlopeTimesCount(n: real, d: real)
    ensures n * (2.0 * d) == 2.0 * (n * d)
  {
  }

  /** How far from w a step leads. */
  lemma StepDistance(rows: seq<Row>, lr: real, theta: Vec, w: Vec)
    requires rows != [] && |w| == |theta|
    ensures var g := MeanGradient(rows, theta);
            Norm2(Minus(GdStep(rows, lr, theta), w))
            == Norm2(Minus(theta, w)) + 2.0 * (lr * Dot(Minus(w, theta), g)) + lr * lr * Norm2(g)
  {
    hide Dot, GdStep, GradSum, MeanGradient;
    var g, away := MeanGradient(rows, theta), Minus(theta, w);
    var move := Scaled(-lr, g);
    StepMoves(rows, lr, theta);
    assert Minus(GdStep(rows, lr, theta), w) == Moved(away, move);
    NormMoved(away, move);
    assert Minus(w, theta) == Scaled(-1.0, away);
    ScaledDot(-1.0, away, g);
    ScaledDot(-lr, g, away);
    ScaledDot(-lr, g, move);
    ScaledDot(-lr, g, g);
    StepLength(lr, Norm2(g));
  }

  lemma StepLength(lr: real, norm: real)
    ensures -lr * (-lr * norm) == lr * lr * norm
  {
  }

  /** With lr at most one over the number of columns, what a step's loss exceeds that of
      w by is paid for by coming nearer to w. */
  lemma StepNearsAny(rows: seq<Row>, features: nat, lr: real, theta: Vec, w: Vec)
    requires rows != [] && Standardised(rows, features) && |theta| == features + 1 == |w|
    requires 0.0 < lr && lr * (features + 1) as real <= 1.0
    ensures var theta' := GdStep(rows, lr, theta);
            lr * (Mse(rows, theta') - Mse(rows, w)) <= Norm2(Minus(theta, w)) - Norm2(Minus(theta', w))
  {
    hide Dot, Norm2, Mse, GdStep, MeanGradient, Minus, Standardised;
    var g, theta' := MeanGradient(rows, theta), GdStep(rows, lr, theta);
    StandardisedFits(rows, features);
    StepLowersLoss(rows, features, lr, theta);
    LossIsConvex(rows, theta, w);
    StepDistance(rows, lr, theta, w);
    NormNonNegative(g);
    NearingArithmetic(Mse(rows, theta'), Mse(rows, theta), Mse(rows, w), lr, (features + 1) as real, Norm2(g),
                      Dot(Minus(w, theta), g), Norm2(Minus(theta, w)), Norm2(Minus(theta', w)));
  }

  lemma NearingArithmetic(after: real, before: real, other: real, lr: real, dim: real, norm: real, slope: real,
                          far: real, near: real)
    requires 0.0 < lr && lr * dim <= 1.0 && 0.0 <= norm
    requires after <= before - lr * (2.0 - lr * dim) * norm && before + 2.0 * slope <= other
    requires near == far + 2.0 * (lr * slope) + lr * lr * norm
    ensures lr * (after - other) <= far - near
  {
    var k := lr * norm;
    assert lr * (2.0 - lr * dim) * norm == (2.0 - lr * dim) * k;
    ScaleBound(lr, 0.0, norm);
    ScaleBound(k, 1.0, 2.0 - lr * dim);
    ScaleBound(lr, after - other, -k - 2.0 * slope);
  }

  lemma {:induction false} ExcessTelescopes(rows: seq<Row>, features: nat, lr: real, e: nat, w: Vec)
    requires rows != [] && Standardised(rows, features) && |w| == features + 1
    requires 0.0 < lr && lr * (features + 1) as real <= 1.0
    ensures var theta := GdRun(rows, lr, features + 1, e);
            lr * e as real * (Mse(rows, theta) - Mse(rows, w)) <= Norm2(w) - Norm2(Minus(theta, w))
  {
    hide Dot, Norm2, Mse, GdStep, Standardised;
    var dim := features + 1;
    if e == 0 {
      assert Minus(Zeros(dim), w) == Scaled(-1.0, w);
      ScaledDot(-1.0, w, w);
      ScaledDot(-1.0, w, Scaled(-1.0, w));
      NormOfNegative(w);
    } else {
      var before := GdRun(rows, lr, dim, e - 1);
      var theta := GdStep(rows, lr, before);
      ExcessTelescopes(rows, features, lr, e - 1, w);
      LossNeverRises(rows, features, lr, e - 1, e);
      StepNearsAny(rows, features, lr, before, w);
      ExcessArithmetic(lr, e, Mse(rows, theta) - Mse(rows, w), Mse(rows, before) - Mse(rows, w),
                       Norm2(w), Norm2(Minus(before, w)), Norm2(Minus(theta, w)));
    }
  }

  lemma NormOfNegative(w: Vec)
    ensures Norm2(Scaled(-1.0, w)) == Norm2(w)
  {
    hide Dot, Scaled;
    ScaledDot(-1.0, w, w);
    ScaledDot(-1.0, w, Scaled(-1.0, w));
  }

  lemma ExcessArithmetic(lr: real, e: nat, excess: real, before: real, start: real, far: real, near: real)
    requires 0.0 < lr && 0 < e && excess <= before
    requires lr * (e - 1) as real * before <= start - far && lr * excess <= far - near
    ensures lr * e as real * excess <= start - near
  {
    var k := lr * (e - 1) as real;
    ScaleBound(lr, 0.0, (e - 1) as real);
    ScaleBound(k, excess, before);
    assert lr * e as real == k + lr;
    Distribute(excess, k, lr);
  }

  function Excess(w: Vec, lr: real, e: nat): real
    requires 0.0 < lr && 0 < e
  {
    PositiveProduct(lr, e as real);
    Norm2(w) / (lr * e as real)
  }

  /** The rate of convergence. After e epochs the loss exceeds that of any weights w
      whatsoever by at most |w|^2 / (lr * e); so it tends to the least loss there is. */
  lemma LossNearsAny(rows: seq<Row>, features: nat, lr: real, e: nat, w: Vec)
    requires rows != [] && Standardised(rows, features) && |w| == features + 1
    requires 0.0 < lr && lr * (features + 1) as real <= 1.0 && 0 < e
    ensures Mse(rows, GdRun(rows, lr, features + 1, e)) <= Mse(rows, w) + Excess(w, lr, e)
  {
    hide Dot, Norm2, Mse, GdRun, Standardised, Minus;
    var theta := GdRun(rows, lr, features + 1, e);
    ExcessTelescopes(rows, features, lr, e, w);
    NormNonNegative(Minus(theta, w));
    PositiveProduct(lr, e as real);
    DivideBound(lr * e as real, Mse(rows, theta) - Mse(rows, w), Norm2(w));
  }

  lemma DivideBound(k: real, excess: real, bound: real)
    requires 0.0 < k && k * excess <= bound
    ensures excess <= bound / k
  {
    var q := bound / k;
    assert q * k == bound;
  }

  // ---- the bias ----

  function Power(b: real, e: nat): real {
    if e == 0 then 1.0 else b * Power(b, e - 1)
  }

  function Target(): Row -> real {
    (r: Row) => r.y
  }

  function MeanTarget(rows: seq<Row>): real
    requires rows != []
  {
    Sum(Target(), rows) / |rows| as real
  }

  function WeightedEntry(theta: Vec): (Row, nat) -> real {
    (r: Row, j: nat) => At(r.x, j) * At(theta, j)
  }

  lemma ColumnTimesWeight(rows: seq<Row>, theta: Vec, j: nat)
    ensures Sum(ColumnOf(WeightedEntry(theta), j), rows) == At(theta, j) * Sum(Column(j), rows)
  {
    SumLinear(ColumnOf(WeightedEntry(theta), j), At(theta, j), Column(j), 0.0, Column(j), rows);
  }

  /** Weighted columns of a standardised matrix: all but the last cancel. */
  lemma WeightedColumn(rows: seq<Row>, features: nat, theta: Vec, j: nat)
    requires Standardised(rows, features) && |theta| == features + 1 && j <= features
    ensures ColumnSums(WeightedEntry(theta), rows)(j) == if j < features then 0.0 else |rows| as real * theta[features]
  {
    hide Sum;
    ColumnTimesWeight(rows, theta, j);
    if j == features {
      SumCong(Column(j), Constant(1.0), rows);
      SumConstant(1.0, rows);
    }
  }

  lemma OnlyLastTerm(f: nat -> real, n: nat)
    requires forall j: nat :: j < n ==> f(j) == 0.0
    ensures Sum(f, Indices(n + 1)) == f(n)
  {
    assert Indices(n + 1)[..n] == Indices(n) && Indices(n + 1)[..n + 1] == Indices(n + 1);
    SumStep(f, Indices(n + 1), n);
    SumCong(f, Constant(0.0), Indices(n));
    SumConstant(0.0, Indices(n));
  }

  /** Centred columns cancel out of the mean prediction, which is then the bias. */
  lemma MeanPredictionIsBias(rows: seq<Row>, features: nat, theta: Vec)
    requires Standardised(rows, features) && |theta| == features + 1
    ensures Sum(Along(theta), rows) == |rows| as real * theta[features]
  {
    hide Sum, ColumnSums, Standardised;
    var F, ix := WeightedEntry(theta), Indices(features + 1);
    StandardisedFits(rows, features);
    forall r | r in rows ensures Along(theta)(r) == RowSums(F, ix)(r) {
      assert |r.x| == features + 1;
      SumCong(Products(r.x, theta), RowOf(F, r), ix);
    }
    SumCong(Along(theta), RowSums(F, ix), rows);
    SumExchange(F, rows, ix);
    forall j: nat | j <= features
      ensures ColumnSums(F, rows)(j) == if j < features then 0.0 else |rows| as real * theta[features]
    {
      WeightedColumn(rows, features, theta, j);
    }
    OnlyLastTerm(ColumnSums<Row, nat>(F, rows), features);
  }

  lemma BiasStep(rows: seq<Row>, features: nat, lr: real, theta: Vec)
    requires rows != [] && Standardised(rows, features) && |theta| == features + 1
    ensures GdStep(rows, lr, theta)[features] == theta[features] - lr * (theta[features] - MeanTarget(rows))
  {
    hide Sum, Dot;
    var n := |rows| as real;
    MeanPredictionIsBias(rows, features, theta);
    SumLinear(GradTerm(theta, features), 1.0, Along(theta), -1.0, Target(), rows);
    assert GradAt(theta, rows, features) == n * theta[features] - Sum(Target(), rows);
    BiasArithmetic(theta[features], lr, n, Sum(Target(), rows));
  }

  lemma BiasArithmetic(b: real, lr: real, n: real, total: real)
    requires 0.0 < n
    ensures b - lr * (n * b - total) / n == b - lr * (b - total / n)
  {
    var q := total / n;
    assert total == q * n;
    assert n * b - total == n * (b - q);
    StepCoordinate(b, lr, n * (b - q), n);
    assert n * (b - q) / n == b - q;
  }

  /** The bias after e epochs, whatever the other weights are. */
  lemma {:induction false} BiasClosedForm(rows: seq<Row>, features: nat, lr: real, e: nat)
    requires rows != [] && Standardised(rows, features)
    ensures GdRun(rows, lr, features + 1, e)[features] == MeanTarget(rows) * (1.0 - Power(1.0 - lr, e))
  {
    hide Sum, MeanTarget, GdStep, Standardised;
    if e > 0 {
      BiasClosedForm(rows, features, lr, e - 1);
      BiasStep(rows, features, lr, GdRun(rows, lr, features + 1, e - 1));
      GeometricStep(MeanTarget(rows), lr, Power(1.0 - lr, e - 1));
    }
  }

  lemma GeometricStep(y: real, lr: real, p: real)
    ensures var b := y * (1.0 - p); b - lr * (b - y) == y * (1.0 - (1.0 - lr) * p)
  {
  }
}
