/** internal/model/model.go: prediction, the metrics of a trained model and of the two
    baselines. */
module Evaluation {
  import opened Sums
  import opened Descent
  import opened Gradient
  import opened Trips
  import opened Features

  datatype Metrics = Metrics(mae: real, rmse: real, r2: real)

  datatype LinearModel = LinearModel(weights: Vec, scaler: Scaler)

  ghost predicate GoodModel(mdl: LinearModel) {
    |mdl.weights| == NUM_FEATURES + 1 && GoodScaler(mdl.scaler)
  }

  function Predict(mdl: LinearModel, x: Vec): real {
    Dot(mdl.weights, x)
  }

  function PredictTrip(m: Libm, mdl: LinearModel, t: Trip): real
    requires GoodModel(mdl)
  {
    Predict(mdl, FeatureVector(m, mdl.scaler, t))
  }

  function Abs(x: real): real {
    if x < 0.0 then -x else x
  }

  /** Sums are over residuals: a predictor minus the actual duration. */
  function Residual(m: Libm, mdl: LinearModel): Trip -> real
    requires GoodModel(mdl)
  {
    t => PredictTrip(m, mdl, t) - t.durationMin
  }

  function Magnitude(f: Trip -> real): Trip -> real {
    t => Abs(f(t))
  }

  function Duration(): Trip -> real {
    (t: Trip) => t.durationMin
  }

  function MeanDuration(trips: seq<Trip>): real
    requires trips != []
  {
    MeanOf(Duration(), trips)
  }

  function SsTot(trips: seq<Trip>): real
    requires trips != []
  {
    Sum(SquaredDeviation(Duration(), MeanDuration(trips)), trips)
  }

  function R2(ssRes: real, ssTot: real): real {
    if ssTot > 0.0 then 1.0 - ssRes / ssTot else 0.0
  }

  /** The metrics of any predictor, given its residuals. */
  function MetricsOf(m: Libm, residual: Trip -> real, trips: seq<Trip>): Metrics
    requires trips != []
  {
    var n := |trips| as real;
    var sumSq := Sum(Times(residual, residual), trips);
    Metrics(Sum(Magnitude(residual), trips) / n, m.sqrt(sumSq / n), R2(sumSq, SsTot(trips)))
  }

  /** What the metrics measure. The MAE is the mean magnitude of the residuals, the RMSE
      squared their mean square, and R2 the share of the spread of the durations that the
      predictor explains, or 0 when there is no spread. */
  ghost predicate Measures(r: Metrics, f: Trip -> real, trips: seq<Trip>)
    requires trips != []
  {
    var n := |trips| as real;
    && r.mae * n == Sum(Magnitude(f), trips)
    && 0.0 <= r.rmse && r.rmse * r.rmse * n == Sum(Times(f, f), trips)
    && (0.0 < SsTot(trips) ==> r.r2 * SsTot(trips) == SsTot(trips) - Sum(Times(f, f), trips))
    && (SsTot(trips) == 0.0 ==> r.r2 == 0.0)
  }

  method Evaluate(m: Libm, mdl: LinearModel, trips: seq<Trip>) returns (r: Metrics)
    requires GoodModel(mdl)
    ensures trips != [] && IsSqrt(m) ==> Measures(r, Residual(m, mdl), trips)
    ensures r == if trips == [] then Metrics(0.0, 0.0, 0.0) else MetricsOf(m, Residual(m, mdl), trips)
  {
    hide FeatureVector, Sum, Dot;
    if |trips| == 0 {
      return Metrics(0.0, 0.0, 0.0);
    }
    ghost var f := Residual(m, mdl);
    var sumAbs, sumSq, sumY := 0.0, 0.0, 0.0;
    SumEmpty(Magnitude(f), trips);
    SumEmpty(Times(f, f), trips);
    SumEmpty(Duration(), trips);
    for i := 0 to |trips|
      invariant sumAbs == Sum(Magnitude(f), trips[..i]) && sumSq == Sum(Times(f, f), trips[..i])
      invariant sumY == Sum(Duration(), trips[..i])
    {
      var x := BuildFeatureVector(m, mdl.scaler, trips[i]);
      var pred := DotProduct(mdl.weights, x[..]);
      var err := pred - trips[i].durationMin;
      SumStep(Magnitude(f), trips, i);
      SumStep(Times(f, f), trips, i);
      SumStep(Duration(), trips, i);
      sumAbs := sumAbs + Abs(err);
      sumSq := sumSq + err * err;
      sumY := sumY + trips[i].durationMin;
    }
    assert trips[..|trips|] == trips;
    var n := |trips| as real;
    var meanY := sumY / n;
    var ssTot := SumOfSquaredDeviations(trips, meanY);
    var r2 := 0.0;
    if ssTot > 0.0 {
      r2 := 1.0 - sumSq / ssTot;
    }
    r := Metrics(sumAbs / n, m.sqrt(sumSq / n), r2);
    assert r == MetricsOf(m, f, trips);
    if IsSqrt(m) {
      MetricsMeasure(m, f, trips);
    }
  }

  method SumOfSquaredDeviations(trips: seq<Trip>, mean: real) returns (total: real)
    ensures total == Sum(SquaredDeviation(Duration(), mean), trips)
  {
    total := 0.0;
    for i := 0 to |trips|
      invariant total == Sum(SquaredDeviation(Duration(), mean), trips[..i])
    {
      var d := trips[i].durationMin - mean;
      SumStep(SquaredDeviation(Duration(), mean), trips, i);
      total := total + d * d;
    }
    assert trips[..|trips|] == trips;
  }

  // ---- laws of the metrics ----

  lemma SumOfMagnitudes(f: Trip -> real, trips: seq<Trip>)
    requires trips != []
    ensures var a, n := Sum(Magnitude(f), trips), |trips| as real;
            0.0 <= a && a * a <= n * Sum(Times(f, f), trips)
  {
    var g, one := Magnitude(f), Constant(1.0);
    SumConstant(0.0, trips);
    SumMonotone(Constant(0.0), g, trips);
    CauchySchwarz(g, one, trips);
    SumCong(Times(g, one), g, trips);
    SumCong(Times(one, one), one, trips);
    SumConstant(1.0, trips);
    forall t | t in trips ensures Times(g, g)(t) == Times(f, f)(t) {
      AbsSquare(f(t));
    }
    SumCong(Times(g, g), Times(f, f), trips);
  }

  lemma AbsSquare(x: real)
    ensures Abs(x) * Abs(x) == x * x
  {
  }

  lemma MeansOrdered(a: real, q: real, n: real, root: real)
    requires 0.0 < n && 0.0 <= a && a * a <= n * q && 0.0 <= root && root * root == q / n
    ensures a / n <= root
  {
    var mae := a / n;
    assert a == mae * n && q == root * root * n;
    if root < mae {
      MultiplyOrder(root, mae, root);
      MultiplyStrict(root, mae, mae);
      PositiveProduct(n, n);
      MultiplyStrict(root * root, mae * mae, n * n);
      SquareOfProduct(mae, n);
      Regroup(root * root, n);
    }
  }

  lemma SquareOfProduct(x: real, n: real)
    ensures (x * n) * (x * n) == (x * x) * (n * n)
  {
  }

  lemma Regroup(x: real, n: real)
    ensures n * (x * n) == x * (n * n)
  {
  }

  /** The mean absolute error never exceeds the root mean squared error, and R2 is at
      most one, for every predictor and every non-empty set of trips. */
  lemma MetricsAreOrdered(m: Libm, residual: Trip -> real, trips: seq<Trip>)
    requires IsSqrt(m) && trips != []
    ensures var r := MetricsOf(m, residual, trips);
            0.0 <= r.mae <= r.rmse && r.r2 <= 1.0
  {
    hide Sum;
    var sumSq, n := Sum(Times(residual, residual), trips), |trips| as real;
    SumOfMagnitudes(residual, trips);
    SumOfSquaresNonNegative(residual, trips);
    NonNegativeQuotient(sumSq, n);
    NonNegativeQuotient(Sum(Magnitude(residual), trips), n);
    MeansOrdered(Sum(Magnitude(residual), trips), sumSq, n, m.sqrt(sumSq / n));
    if SsTot(trips) > 0.0 {
      NonNegativeQuotient(sumSq, SsTot(trips));
    }
  }

  lemma Explained(ssRes: real, ssTot: real)
    requires 0.0 < ssTot
    ensures (1.0 - ssRes / ssTot) * ssTot == ssTot - ssRes
  {
    WholeShare(ssRes, ssTot);
  }

  lemma SsTotNonNegative(trips: seq<Trip>)
    requires trips != []
    ensures 0.0 <= SsTot(trips)
  {
    hide Sum;
    var f := MeanResidual(MeanDuration(trips));
    forall t | t in trips ensures SquaredDeviation(Duration(), MeanDuration(trips))(t) == Times(f, f)(t) {
    }
    SumCong(SquaredDeviation(Duration(), MeanDuration(trips)), Times(f, f), trips);
    SumOfSquaresNonNegative(f, trips);
  }

  /** The metrics of any predictor are what they are meant to be. */
  lemma MetricsMeasure(m: Libm, f: Trip -> real, trips: seq<Trip>)
    requires IsSqrt(m) && trips != []
    ensures Measures(MetricsOf(m, f, trips), f, trips) && 0.0 <= SsTot(trips)
  {
    hide Sum, SsTot, Magnitude;
    var n, sumSq := |trips| as real, Sum(Times(f, f), trips);
    WholeShare(Sum(Magnitude(f), trips), n);
    WholeShare(sumSq, n);
    SumOfSquaresNonNegative(f, trips);
    NonNegativeQuotient(sumSq, n);
    SsTotNonNegative(trips);
    if 0.0 < SsTot(trips) {
      Explained(sumSq, SsTot(trips));
    }
  }

  lemma SameShare(a: real, b: real, n: real)
    requires 0.0 < n && a * n == b * n
    ensures a == b
  {
  }

  /** A predictor without errors has no MAE and no RMSE, and explains all the spread. */
  lemma PerfectPredictor(m: Libm, f: Trip -> real, trips: seq<Trip>)
    requires IsSqrt(m) && trips != [] && forall t :: t in trips ==> f(t) == 0.0
    ensures var r := MetricsOf(m, f, trips);
            r.mae == 0.0 && r.rmse == 0.0 && r.r2 == if SsTot(trips) == 0.0 then 0.0 else 1.0
  {
    hide Sum, SsTot, MetricsOf;
    var r, n := MetricsOf(m, f, trips), |trips| as real;
    MetricsMeasure(m, f, trips);
    SumCong(Magnitude(f), Constant(0.0), trips);
    SumCong(Times(f, f), Constant(0.0), trips);
    SumConstant(0.0, trips);
    SameShare(r.mae, 0.0, n);
    SameShare(r.rmse * r.rmse, 0.0, n);
    NoSquare(r.rmse);
    if SsTot(trips) != 0.0 {
      SameShare(r.r2, 1.0, SsTot(trips));
    }
  }

  lemma NoSquare(x: real)
    requires 0.0 <= x && x * x == 0.0
    ensures x == 0.0
  {
    SquareOrder(x, 0.0);
  }

  /** The mean absolute error of a constant error is that error. */
  lemma ConstantError(m: Libm, f: Trip -> real, trips: seq<Trip>, e: real)
    requires IsSqrt(m) && trips != [] && forall t :: t in trips ==> f(t) == e
    ensures var r := MetricsOf(m, f, trips);
            r.mae == r.rmse == if e < 0.0 then -e else e
  {
    hide Sum, SsTot, MetricsOf;
    var r, n, size := MetricsOf(m, f, trips), |trips| as real, if e < 0.0 then -e else e;
    MetricsMeasure(m, f, trips);
    SumCong(Magnitude(f), Constant(size), trips);
    SumConstant(size, trips);
    SameShare(r.mae, size, n);
    var square := e * e;
    SumCong(Times(f, f), Constant(square), trips);
    SumConstant(square, trips);
    SameShare(r.rmse * r.rmse, square, n);
    assert size * size == square;
    SquareOrder(r.rmse, size);
    SquareOrder(size, r.rmse);
  }

  lemma DotCommutes(a: Vec, b: Vec)
    requires |a| == |b|
    ensures Dot(a, b) == Dot(b, a)
  {
    SumCong(Products(a, b), Products(b, a), Indices(|a|));
  }

  function Square(x: real): real {
    x * x
  }

  /** Evaluation and training measure the same error: on the training trips the
      squared RMSE is the loss of the weights on the training matrix. */
  lemma TrainRmseIsTheLoss(m: Libm, mdl: LinearModel, trips: seq<Trip>)
    requires IsSqrt(m) && GoodModel(mdl) && trips != []
    ensures Square(MetricsOf(m, Residual(m, mdl), trips).rmse) == Mse(Matrix(m, mdl.scaler, trips), mdl.weights)
  {
    hide Sum, FeatureVector, Dot;
    var f, rows := Residual(m, mdl), Matrix(m, mdl.scaler, trips);
    forall i | 0 <= i < |trips| ensures Times(f, f)(trips[i]) == SquaredError(mdl.weights)(rows[i]) {
      DotCommutes(mdl.weights, rows[i].x);
    }
    SumMap(Times(f, f), trips, SquaredError(mdl.weights), rows);
    SumOfSquaresNonNegative(f, trips);
    NonNegativeQuotient(Sum(Times(f, f), trips), |trips| as real);
  }

  // ---- the baselines ----

  function MeanResidual(mean: real): Trip -> real {
    (t: Trip) => mean - t.durationMin
  }

  function TripSpeed(): Trip -> real {
    (t: Trip) => if t.durationMin > 0.0 then t.tripDistance / (t.durationMin / 60.0) else 0.0
  }

  function Moving(): Trip -> real {
    (t: Trip) => if t.durationMin > 0.0 then 1.0 else 0.0
  }

  /** The mean of the speeds; 0 stands for the not-a-number of an empty mean, which
      the only comparison made with it treats alike. */
  function GlobalSpeed(train: seq<Trip>): real {
    var count := Sum(Moving(), train);
    if count == 0.0 then 0.0 else Sum(TripSpeed(), train) / count
  }

  function SpeedResidual(speed: real): Trip -> real {
    (t: Trip) => (if speed > 0.0 then t.tripDistance / speed * 60.0 else 0.0) - t.durationMin
  }

  ghost predicate AllAtSpeed(trips: seq<Trip>, v: real) {
    forall t :: t in trips ==> 0.0 < t.durationMin && t.tripDistance == v * (t.durationMin / 60.0)
  }

  lemma SpeedAndBack(v: real, minutes: real)
    requires 0.0 < v && 0.0 < minutes
    ensures v * (minutes / 60.0) / (minutes / 60.0) == v
    ensures v * (minutes / 60.0) / v * 60.0 == minutes
  {
    var h := minutes / 60.0;
    assert v * h / h == v;
    assert v * h / v == h;
  }

  /** The speed baseline is exact wherever everybody drives at one speed. */
  lemma SpeedBaselineIsExact(train: seq<Trip>, test: seq<Trip>, v: real)
    requires 0.0 < v && train != [] && AllAtSpeed(train, v) && AllAtSpeed(test, v)
    ensures GlobalSpeed(train) == v
    ensures forall t :: t in test ==> SpeedResidual(GlobalSpeed(train))(t) == 0.0
  {
    hide Sum;
    var n := |train| as real;
    forall t | t in train ensures TripSpeed()(t) == Constant(v)(t) && Moving()(t) == Constant(1.0)(t) {
      SpeedAndBack(v, t.durationMin);
    }
    SumCong(TripSpeed(), Constant(v), train);
    SumCong(Moving(), Constant(1.0), train);
    SumConstant(v, train);
    SumConstant(1.0, train);
    assert v * n / n == v;
    forall t | t in test ensures SpeedResidual(v)(t) == 0.0 {
      SpeedAndBack(v, t.durationMin);
    }
  }

  /** Which training trips move, by position. */
  function MovingTrips(train: seq<Trip>): set<nat> {
    set i | 0 <= i < |train| && train[i].durationMin > 0.0
  }

  lemma {:induction false} MovingCount(train: seq<Trip>)
    ensures Sum(Moving(), train) == |MovingTrips(train)| as real
  {
    if train != [] {
      var front, last := train[..|train| - 1], |train| - 1;
      MovingCount(front);
      assert MovingTrips(train) == MovingTrips(front) + if train[last].durationMin > 0.0 then {last} else {};
    }
  }

  ghost predicate IsSpeed(speed: Trip -> real, t: Trip) {
    if t.durationMin > 0.0 then speed(t) * t.durationMin == 60.0 * t.tripDistance else speed(t) == 0.0
  }

  /** The global speed is the mean of the speeds of the trips that take time, each trip
      counted once; `speed` is any function that is miles per hour on those. */
  lemma GlobalSpeedIsTheMean(train: seq<Trip>, speed: Trip -> real)
    requires MovingTrips(train) != {} && forall t :: t in train ==> IsSpeed(speed, t)
    ensures GlobalSpeed(train) * |MovingTrips(train)| as real == Sum(speed, train)
  {
    hide Sum, MovingTrips;
    MovingCount(train);
    forall t | t in train ensures TripSpeed()(t) == speed(t) {
      assert IsSpeed(speed, t);
      if t.durationMin > 0.0 {
        SpeedOf(t.tripDistance, t.durationMin, speed(t));
      }
    }
    SumCong(TripSpeed(), speed, train);
    WholeShare(Sum(speed, train), |MovingTrips(train)| as real);
  }

  lemma SpeedSumBetween(train: seq<Trip>, speed: Trip -> real, lo: real, hi: real)
    requires forall t :: t in train ==> IsSpeed(speed, t) && (t.durationMin > 0.0 ==> lo <= speed(t) <= hi)
    ensures lo * |MovingTrips(train)| as real <= Sum(speed, train) <= hi * |MovingTrips(train)| as real
  {
    hide Sum, MovingTrips;
    var low, high := Scale(lo, Moving()), Scale(hi, Moving());
    MovingCount(train);
    forall t | t in train ensures low(t) <= speed(t) <= high(t) {
      assert IsSpeed(speed, t);
    }
    SumMonotone(low, speed, train);
    SumMonotone(speed, high, train);
    SumLinear(low, lo, Moving(), 0.0, Moving(), train);
    SumLinear(high, hi, Moving(), 0.0, Moving(), train);
  }

  /** So it lies between the least and the greatest of the speeds. */
  lemma GlobalSpeedIsBetween(train: seq<Trip>, speed: Trip -> real, lo: real, hi: real)
    requires MovingTrips(train) != {}
    requires forall t :: t in train ==> IsSpeed(speed, t) && (t.durationMin > 0.0 ==> lo <= speed(t) <= hi)
    ensures lo <= GlobalSpeed(train) <= hi
  {
    hide Sum, MovingTrips, GlobalSpeed, IsSpeed;
    GlobalSpeedIsTheMean(train, speed);
    SpeedSumBetween(train, speed, lo, hi);
    MeanBetween(GlobalSpeed(train), |MovingTrips(train)| as real, lo, hi);
  }

  function Scale(c: real, f: Trip -> real): Trip -> real {
    t => c * f(t)
  }

  lemma MeanBetween(mean: real, n: real, lo: real, hi: real)
    requires 0.0 < n && lo * n <= mean * n <= hi * n
    ensures lo <= mean <= hi
  {
    if mean < lo {
      MultiplyStrict(mean, lo, n);
    }
    if hi < mean {
      MultiplyStrict(hi, mean, n);
    }
  }

  /** What the speed baseline predicts: the time the distance takes at the global speed,
      or nothing where that speed is not positive. */
  lemma SpeedPrediction(speed: real, t: Trip, prediction: real)
    requires prediction == SpeedResidual(speed)(t) + t.durationMin
    ensures 0.0 < speed ==> prediction * speed == 60.0 * t.tripDistance
    ensures speed <= 0.0 ==> prediction == 0.0
  {
    if 0.0 < speed {
      WholeShare(t.tripDistance, speed);
    }
  }

  method BaselineMetrics(m: Libm, train: seq<Trip>, test: seq<Trip>)
    returns (meanBaseline: Metrics, speedBaseline: Metrics)
    ensures train == [] || test == [] ==>
              meanBaseline == Metrics(0.0, 0.0, 0.0) && speedBaseline == Metrics(0.0, 0.0, 0.0)
    ensures train != [] && test != [] ==>
              && meanBaseline == MetricsOf(m, MeanResidual(MeanDuration(train)), test)
              && speedBaseline == MetricsOf(m, SpeedResidual(GlobalSpeed(train)), test)
    ensures train != [] && test != [] && IsSqrt(m) ==>
              && Measures(meanBaseline, MeanResidual(MeanDuration(train)), test)
              && Measures(speedBaseline, SpeedResidual(GlobalSpeed(train)), test)
  {
    if |train| == 0 || |test| == 0 {
      return Metrics(0.0, 0.0, 0.0), Metrics(0.0, 0.0, 0.0);
    }
    var sumDur, sumSpeed, speedCount := TrainSums(train);
    var globalMean := sumDur / |train| as real;
    var globalSpeed := if speedCount == 0.0 then 0.0 else sumSpeed / speedCount;
    var s := 0.0;
    for i := 0 to |test|
      invariant s == Sum(Duration(), test[..i])
    {
      SumStep(Duration(), test, i);
      s := s + test[i].durationMin;
    }
    assert test[..|test|] == test;
    var ssTot := SumOfSquaredDeviations(test, s / |test| as real);
    var sumAbsMean, sumSqMean := ResidualSums(test, MeanResidual(globalMean));
    var sumAbsSpeed, sumSqSpeed := ResidualSums(test, SpeedResidual(globalSpeed));
    var n := |test| as real;
    meanBaseline := Metrics(sumAbsMean / n, m.sqrt(sumSqMean / n), R2(sumSqMean, ssTot));
    speedBaseline := Metrics(sumAbsSpeed / n, m.sqrt(sumSqSpeed / n), R2(sumSqSpeed, ssTot));
    if IsSqrt(m) {
      MetricsMeasure(m, MeanResidual(globalMean), test);
      MetricsMeasure(m, SpeedResidual(globalSpeed), test);
    }
  }

  method TrainSums(train: seq<Trip>) returns (sumDur: real, sumSpeed: real, speedCount: real)
    ensures sumDur == Sum(Duration(), train)
    ensures sumSpeed == Sum(TripSpeed(), train) && speedCount == Sum(Moving(), train)
  {
    sumDur, sumSpeed, speedCount := 0.0, 0.0, 0.0;
    for i := 0 to |train|
      invariant sumDur == Sum(Duration(), train[..i])
      invariant sumSpeed == Sum(TripSpeed(), train[..i]) && speedCount == Sum(Moving(), train[..i])
    {
      var t := train[i];
      SumStep(Duration(), train, i);
      SumStep(TripSpeed(), train, i);
      SumStep(Moving(), train, i);
      sumDur := sumDur + t.durationMin;
      if t.durationMin > 0.0 {
        sumSpeed := sumSpeed + t.tripDistance / (t.durationMin / 60.0);
        speedCount := speedCount + 1.0;
      }
    }
    assert train[..|train|] == train;
  }

  method ResidualSums(test: seq<Trip>, residual: Trip -> real) returns (sumAbs: real, sumSq: real)
    ensures sumAbs == Sum(Magnitude(residual), test) && sumSq == Sum(Times(residual, residual), test)
  {
    sumAbs, sumSq := 0.0, 0.0;
    for i := 0 to |test|
      invariant sumAbs == Sum(Magnitude(residual), test[..i]) && sumSq == Sum(Times(residual, residual), test[..i])
    {
      var err := residual(test[i]);
      SumStep(Magnitude(residual), test, i);
      SumStep(Times(residual, residual), test, i);
      sumAbs := sumAbs + Abs(err);
      sumSq := sumSq + err * err;
    }
    assert test[..|test|] == test;
  }

  function CrossDeviation(d: real, b: real): Trip -> real {
    (t: Trip) => d * d + 2.0 * d * (b - t.durationMin)
  }

  lemma SplitSquare(a: real, b: real, y: real)
    ensures (a - y) * (a - y) == 1.0 * ((y - b) * (y - b)) + 1.0 * ((a - b) * (a - b) + 2.0 * (a - b) * (b - y))
  {
    var u, v := a - b, b - y;
    assert a - y == u + v;
    assert (u + v) * (u + v) == u * u + 2.0 * u * v + v * v;
  }

  /** The cross terms cancel over the trips that b is the mean of. */
  lemma CrossSum(d: real, test: seq<Trip>)
    requires test != []
    ensures Sum(CrossDeviation(d, MeanDuration(test)), test) == |test| as real * (d * d)
  {
    hide Sum;
    var mean, n := MeanDuration(test), |test| as real;
    var cross, offset := CrossDeviation(d, mean), d * d + 2.0 * d * mean;
    var slope := -2.0 * d;
    forall t | t in test ensures cross(t) == 1.0 * Constant(offset)(t) + slope * Duration()(t) {
      CrossIsLinear(d, mean, t.durationMin);
    }
    SumLinear(cross, 1.0, Constant(offset), slope, Duration(), test);
    SumConstant(offset, test);
    assert Sum(Duration(), test) == n * mean;
    CrossCancels(d, mean, n);
  }

  /** Predicting a constant c costs the spread around the mean plus n times the squared
      distance of c from the mean. */
  lemma ConstantPredictionCost(c: real, test: seq<Trip>)
    requires test != []
    ensures var d := c - MeanDuration(test);
            Sum(Times(MeanResidual(c), MeanResidual(c)), test) == SsTot(test) + |test| as real * (d * d)
  {
    hide Sum, MeanDuration, MeanResidual, SquaredDeviation, CrossDeviation, Times;
    var mean, f := MeanDuration(test), MeanResidual(c);
    var spread, cross := SquaredDeviation(Duration(), mean), CrossDeviation(c - mean, mean);
    forall t | t in test ensures Times(f, f)(t) == 1.0 * spread(t) + 1.0 * cross(t) {
      SquareSplits(c, mean, t);
    }
    SumLinear(Times(f, f), 1.0, spread, 1.0, cross, test);
    CrossSum(c - mean, test);
  }

  lemma SquareSplits(c: real, mean: real, t: Trip)
    ensures Times(MeanResidual(c), MeanResidual(c))(t)
            == 1.0 * SquaredDeviation(Duration(), mean)(t) + 1.0 * CrossDeviation(c - mean, mean)(t)
  {
    SplitSquare(c, mean, t.durationMin);
  }

  lemma CrossIsLinear(d: real, mean: real, y: real)
    ensures d * d + 2.0 * d * (mean - y) == 1.0 * (d * d + 2.0 * d * mean) + (-2.0 * d) * y
  {
  }

  lemma CrossCancels(d: real, mean: real, n: real)
    ensures (d * d + 2.0 * d * mean) * n + (-2.0 * d) * (n * mean) == n * (d * d)
  {
  }

  /** The mean baseline never beats the test mean: its R2 is never positive. */
  lemma MeanBaselineR2(m: Libm, train: seq<Trip>, test: seq<Trip>)
    requires train != [] && test != []
    ensures MetricsOf(m, MeanResidual(MeanDuration(train)), test).r2 <= 0.0
  {
    hide Sum;
    var c, d := MeanDuration(train), MeanDuration(train) - MeanDuration(test);
    ConstantPredictionCost(c, test);
    SquareNonNegative(d);
    MultiplyOrder(0.0, |test| as real, d * d);
    if SsTot(test) > 0.0 {
      RatioAtLeastOne(Sum(Times(MeanResidual(c), MeanResidual(c)), test), SsTot(test));
    }
  }

  /** Predicting the mean of the test trips themselves explains nothing. */
  lemma TestMeanExplainsNothing(m: Libm, test: seq<Trip>)
    requires IsSqrt(m) && test != []
    ensures MetricsOf(m, MeanResidual(MeanDuration(test)), test).r2 == 0.0
  {
    hide Sum, SsTot, MetricsOf, MeanDuration;
    var f := MeanResidual(MeanDuration(test));
    MetricsMeasure(m, f, test);
    ConstantPredictionCost(MeanDuration(test), test);
    if SsTot(test) != 0.0 {
      SameShare(MetricsOf(m, f, test).r2, 0.0, SsTot(test));
    }
  }

  lemma RatioAtLeastOne(a: real, b: real)
    requires 0.0 < b <= a
    ensures 1.0 <= a / b
  {
    var q := a / b;
    assert q * b == a;
    if q < 1.0 {
      MultiplyStrict(q, 1.0, b);
    }
  }
}
