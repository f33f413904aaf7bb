/** internal/model/features.go: z-score standardisation, and what it makes true of the
    matrix that is trained on. */
module Features {
  import opened Sums
  import opened Descent
  import opened Gradient
  import opened Trips

  const NUM_FEATURES: nat := 8

  /** The functions of Go's math package that the program calls. */
  datatype Libm = Libm(sqrt: real -> real, sin: real -> real, cos: real -> real, pi: real)

  /** All that is assumed of them: sqrt is a non-negative root. */
  ghost predicate IsSqrt(m: Libm) {
    forall v :: 0.0 <= v ==> 0.0 <= m.sqrt(v) && m.sqrt(v) * m.sqrt(v) == v
  }

  /** The hour as an angle of the full circle of a day. */
  function HourAngle(m: Libm, hour: int): real {
    2.0 * m.pi * hour as real / 24.0
  }

  function ExtractRaw(m: Libm, t: Trip): (raw: Vec)
    ensures |raw| == NUM_FEATURES
  {
    [ t.tripDistance,
      m.sin(HourAngle(m, t.hourOfDay)),
      m.cos(HourAngle(m, t.hourOfDay)),
      if t.dayOfWeek == 0 || t.dayOfWeek == 6 then 1.0 else 0.0,
      t.pickupLat,
      t.pickupLon,
      if t.rateCodeID == 2 || t.rateCodeID == 3 then 1.0 else 0.0,
      t.passengerCount as real ]
  }

  datatype Scaler = Scaler(means: Vec, stds: Vec)

  ghost predicate GoodScaler(s: Scaler) {
    && |s.means| == NUM_FEATURES && |s.stds| == NUM_FEATURES
    && forall j :: 0 <= j < NUM_FEATURES ==> 0.0 < s.stds[j]
  }

  function Feature(m: Libm, j: nat): Trip -> real {
    t => At(ExtractRaw(m, t), j)
  }

  function SquaredDeviation(f: Trip -> real, mean: real): Trip -> real {
    t => (f(t) - mean) * (f(t) - mean)
  }

  function MeanOf(f: Trip -> real, trips: seq<Trip>): real
    requires trips != []
  {
    Sum(f, trips) / |trips| as real
  }

  function VarianceOf(f: Trip -> real, trips: seq<Trip>): real
    requires trips != []
  {
    Sum(SquaredDeviation(f, MeanOf(f, trips)), trips) / |trips| as real
  }

  /** A (nearly) constant feature is divided by 1 and not by its deviation. */
  function SafeStd(m: Libm, variance: real): real {
    if m.sqrt(variance) < 0.0000000001 then 1.0 else m.sqrt(variance)
  }

  function Fit(m: Libm, trips: seq<Trip>): (s: Scaler)
    ensures |s.means| == NUM_FEATURES && |s.stds| == NUM_FEATURES
  {
    if trips == [] then Scaler(Zeros(NUM_FEATURES), seq(NUM_FEATURES, i => 1.0))
    else Scaler(seq(NUM_FEATURES, j requires 0 <= j => MeanOf(Feature(m, j), trips)),
                seq(NUM_FEATURES, j requires 0 <= j => SafeStd(m, VarianceOf(Feature(m, j), trips))))
  }

  /** First pass: the sum of every feature. */
  method SumFeatures(m: Libm, trips: seq<Trip>) returns (sums: array<real>)
    ensures fresh(sums) && sums.Length == NUM_FEATURES
    ensures forall j: nat :: j < NUM_FEATURES ==> sums[j] == Sum(Feature(m, j), trips)
  {
    hide ExtractRaw, Sum;
    sums := new real[NUM_FEATURES](i => 0.0);
    forall j: nat | j < NUM_FEATURES ensures Sum(Feature(m, j), trips[..0]) == 0.0 {
      SumEmpty(Feature(m, j), trips);
    }
    for k := 0 to |trips|
      invariant forall j: nat :: j < NUM_FEATURES ==> sums[j] == Sum(Feature(m, j), trips[..k])
    {
      var raw := ExtractRaw(m, trips[k]);
      for j := 0 to NUM_FEATURES
        invariant forall i: nat :: i < j ==> sums[i] == Sum(Feature(m, i), trips[..k + 1])
        invariant forall i: nat :: j <= i < NUM_FEATURES ==> sums[i] == Sum(Feature(m, i), trips[..k])
      {
        SumStep(Feature(m, j), trips, k);
        assert Feature(m, j)(trips[k]) == raw[j];
        sums[j] := sums[j] + raw[j];
      }
    }
    assert trips[..|trips|] == trips;
  }

  /** Second pass: the sum of squared deviations from the means. */
  method SumDeviations(m: Libm, trips: seq<Trip>, means: Vec) returns (varSums: array<real>)
    requires |means| == NUM_FEATURES
    ensures fresh(varSums) && varSums.Length == NUM_FEATURES
    ensures forall j: nat :: j < NUM_FEATURES ==>
              varSums[j] == Sum(SquaredDeviation(Feature(m, j), means[j]), trips)
  {
    hide ExtractRaw, Sum;
    varSums := new real[NUM_FEATURES](i => 0.0);
    forall j: nat | j < NUM_FEATURES ensures Sum(SquaredDeviation(Feature(m, j), means[j]), trips[..0]) == 0.0 {
      SumEmpty(SquaredDeviation(Feature(m, j), means[j]), trips);
    }
    for k := 0 to |trips|
      invariant forall j: nat :: j < NUM_FEATURES ==>
                  varSums[j] == Sum(SquaredDeviation(Feature(m, j), means[j]), trips[..k])
    {
      var raw := ExtractRaw(m, trips[k]);
      for j := 0 to NUM_FEATURES
        invariant forall i: nat :: i < j ==>
                    varSums[i] == Sum(SquaredDeviation(Feature(m, i), means[i]), trips[..k + 1])
        invariant forall i: nat :: j <= i < NUM_FEATURES ==>
                    varSums[i] == Sum(SquaredDeviation(Feature(m, i), means[i]), trips[..k])
      {
        var d := raw[j] - means[j];
        SumStep(SquaredDeviation(Feature(m, j), means[j]), trips, k);
        assert SquaredDeviation(Feature(m, j), means[j])(trips[k]) == d * d;
        varSums[j] := varSums[j] + d * d;
      }
    }
    assert trips[..|trips|] == trips;
  }

  method FitScaler(m: Libm, trips: seq<Trip>) returns (s: Scaler)
    ensures s == Fit(m, trips) && |s.means| == 8 && |s.stds| == 8
    ensures trips == [] ==> forall j :: 0 <= j < 8 ==> s.means[j] == 0.0 && s.stds[j] == 1.0
  {
    if |trips| == 0 {
      return Scaler(Zeros(NUM_FEATURES), seq(NUM_FEATURES, i => 1.0));
    }
    hide ExtractRaw, Sum;
    var n := |trips| as real;
    var sums := SumFeatures(m, trips);
    var means := seq(NUM_FEATURES, j requires 0 <= j < NUM_FEATURES reads sums => sums[j] / n);
    assert means == Fit(m, trips).means;
    var varSums := SumDeviations(m, trips, means);
    ghost var vs := varSums[..];
    forall j: nat | j < NUM_FEATURES ensures vs[j] / n == VarianceOf(Feature(m, j), trips) {
      assert means[j] == MeanOf(Feature(m, j), trips);
    }
    var stds := new real[NUM_FEATURES](i => 0.0);
    for j := 0 to NUM_FEATURES
      invariant varSums[..] == vs
      invariant forall i: nat :: i < j ==> stds[i] == SafeStd(m, VarianceOf(Feature(m, i), trips))
    {
      assert varSums[j] == vs[j];
      var std := m.sqrt(varSums[j] / n);
      if std < 0.0000000001 {
        std := 1.0;
      }
      stds[j] := std;
    }
    assert stds[..] == Fit(m, trips).stds;
    return Scaler(means, stds[..]);
  }

  function FeatureVector(m: Libm, s: Scaler, t: Trip): (x: Vec)
    requires GoodScaler(s)
    ensures |x| == NUM_FEATURES + 1
  {
    seq(NUM_FEATURES, j requires 0 <= j < NUM_FEATURES => (ExtractRaw(m, t)[j] - s.means[j]) / s.stds[j]) + [1.0]
  }

  method BuildFeatureVector(m: Libm, s: Scaler, t: Trip) returns (x: array<real>)
    requires GoodScaler(s)
    ensures fresh(x) && x[..] == FeatureVector(m, s, t)
  {
    hide ExtractRaw;
    var raw := ExtractRaw(m, t);
    ghost var scores := FeatureVector(m, s, t);
    x := new real[NUM_FEATURES + 1](i => 0.0);
    for j := 0 to NUM_FEATURES
      invariant forall i :: 0 <= i < j ==> x[i] == scores[i]
    {
      x[j] := (raw[j] - s.means[j]) / s.stds[j];
    }
    x[NUM_FEATURES] := 1.0;
  }

  function RowFor(m: Libm, s: Scaler, t: Trip): Row
    requires GoodScaler(s)
  {
    Row(FeatureVector(m, s, t), t.durationMin)
  }

  function Matrix(m: Libm, s: Scaler, trips: seq<Trip>): (rows: seq<Row>)
    requires GoodScaler(s)
    ensures |rows| == |trips|
    ensures Fits(rows, NUM_FEATURES + 1)
  {
    seq(|trips|, i requires 0 <= i < |trips| => RowFor(m, s, trips[i]))
  }

  method BuildMatrix(m: Libm, s: Scaler, trips: seq<Trip>) returns (rows: seq<Row>)
    requires GoodScaler(s)
    ensures rows == Matrix(m, s, trips)
  {
    var built := new Row[|trips|](i => Row([], 0.0));
    for i := 0 to |trips|
      invariant forall k :: 0 <= k < i ==> built[k] == RowFor(m, s, trips[k])
    {
      var x := BuildFeatureVector(m, s, trips[i]);
      built[i] := Row(x[..], trips[i].durationMin);
    }
    return built[..];
  }

  // ---- what standardisation makes true ----

  function Column(j: nat): Row -> real {
    (r: Row) => At(r.x, j)
  }

  /** Every feature column sums to zero and has mean square at most one, and the last
      column is the constant one. */
  ghost predicate Standardised(rows: seq<Row>, features: nat) {
    && Fits(rows, features + 1)
    && (forall r :: r in rows ==> At(r.x, features) == 1.0)
    && forall j: nat :: j < features ==>
         Sum(Column(j), rows) == 0.0 && Sum(Times(Column(j), Column(j)), rows) <= |rows| as real
  }

  lemma {:induction false} SumMap<A, B>(f: A -> real, a: seq<A>, g: B -> real, b: seq<B>)
    requires |a| == |b| && forall i :: 0 <= i < |a| ==> f(a[i]) == g(b[i])
    ensures Sum(f, a) == Sum(g, b)
  {
    if a != [] {
      SumMap(f, a[..|a| - 1], g, b[..|b| - 1]);
    }
  }

  lemma FitIsGood(m: Libm, trips: seq<Trip>)
    ensures GoodScaler(Fit(m, trips))
  {
  }

  function Score(f: Trip -> real, mean: real, std: real): Trip -> real
    requires std != 0.0
  {
    t => (f(t) - mean) / std
  }

  lemma ScoresSumToZero(f: Trip -> real, trips: seq<Trip>, std: real)
    requires trips != [] && std != 0.0
    ensures Sum(Score(f, MeanOf(f, trips), std), trips) == 0.0
  {
    hide Sum;
    var mean, n := MeanOf(f, trips), |trips| as real;
    forall t | t in trips ensures Score(f, mean, std)(t) == 1.0 / std * f(t) + -1.0 / std * Constant<Trip>(mean)(t) {
      SplitScore(f(t), mean, std);
    }
    SumLinear(Score(f, mean, std), 1.0 / std, f, -1.0 / std, Constant(mean), trips);
    SumConstant(mean, trips);
    assert mean * n == Sum(f, trips);
    Cancel(Sum(f, trips), std);
  }

  lemma SplitScore(a: real, b: real, std: real)
    requires std != 0.0
    ensures (a - b) / std == 1.0 / std * a + -1.0 / std * b
  {
  }

  lemma Cancel(s: real, std: real)
    requires std != 0.0
    ensures 1.0 / std * s + (-1.0 / std) * s == 0.0
  {
  }

  lemma VarianceNonNegative(f: Trip -> real, trips: seq<Trip>)
    requires trips != []
    ensures 0.0 <= VarianceOf(f, trips)
  {
    var dev := SquaredDeviation(f, MeanOf(f, trips));
    SumConstant(0.0, trips);
    forall t | t in trips ensures Constant(0.0)(t) <= dev(t) {
      SquareNonNegative(f(t) - MeanOf(f, trips));
    }
    SumMonotone(Constant(0.0), dev, trips);
    NonNegativeQuotient(Sum(dev, trips), |trips| as real);
  }

  lemma SafeStdCovers(m: Libm, variance: real)
    requires IsSqrt(m) && 0.0 <= variance
    ensures 0.0 < SafeStd(m, variance) && variance <= SafeStd(m, variance) * SafeStd(m, variance)
  {
    var root := m.sqrt(variance);
    assert root * root == variance;
    if root < 0.0000000001 {
      SmallSquare(root);
    }
  }

  lemma ScoreSquares(m: Libm, f: Trip -> real, trips: seq<Trip>)
    requires IsSqrt(m) && trips != []
    ensures var score := Score(f, MeanOf(f, trips), SafeStd(m, VarianceOf(f, trips)));
            Sum(Times(score, score), trips) <= |trips| as real
  {
    hide Sum, SafeStd;
    VarianceNonNegative(f, trips);
    SafeStdCovers(m, VarianceOf(f, trips));
    SquaredScores(f, MeanOf(f, trips), SafeStd(m, VarianceOf(f, trips)), trips);
  }

  lemma SquaredScores(f: Trip -> real, mean: real, std: real, trips: seq<Trip>)
    requires trips != [] && 0.0 < std
    requires Sum(SquaredDeviation(f, mean), trips) / |trips| as real <= std * std
    ensures Sum(Times(Score(f, mean, std), Score(f, mean, std)), trips) <= |trips| as real
  {
    hide Sum;
    PositiveProduct(std, std);
    SquaredScoreSum(f, mean, std, trips);
    QuotientBound(Sum(SquaredDeviation(f, mean), trips), |trips| as real, std * std);
  }

  lemma SquaredScoreSum(f: Trip -> real, mean: real, std: real, trips: seq<Trip>)
    requires std != 0.0
    ensures std * std != 0.0
    ensures Sum(Times(Score(f, mean, std), Score(f, mean, std)), trips)
            == 1.0 / (std * std) * Sum(SquaredDeviation(f, mean), trips)
  {
    hide Sum;
    QuotientSquare(0.0, std);
    var score, dev, q := Score(f, mean, std), SquaredDeviation(f, mean), std * std;
    forall t | t in trips ensures Times(score, score)(t) == 1.0 / q * dev(t) + 0.0 * dev(t) {
      QuotientSquare(f(t) - mean, std);
    }
    SumLinear(Times(score, score), 1.0 / q, dev, 0.0, dev, trips);
  }

  lemma NonNegativeQuotient(s: real, n: real)
    requires 0.0 <= s && 0.0 < n
    ensures 0.0 <= s / n
  {
  }

  lemma QuotientSquare(d: real, std: real)
    requires std != 0.0
    ensures std * std != 0.0
    ensures d / std * (d / std) == 1.0 / (std * std) * (d * d)
  {
    var q := d / std;
    assert d == q * std;
    assert d * d == (q * q) * (std * std);
  }

  lemma SmallSquare(u: real)
    requires 0.0 <= u < 0.0000000001
    ensures u * u <= 1.0
  {
    MultiplyOrder(u, 1.0, u);
  }

  lemma QuotientBound(s: real, n: real, q: real)
    requires 0.0 < n && 0.0 < q && s / n <= q
    ensures 1.0 / q * s <= n
  {
    assert s <= q * n by {
      assert s == s / n * n;
      MultiplyOrder(s / n, q, n);
    }
    var u := 1.0 / q * s;
    assert u * q == s;
    if n < u {
      MultiplyStrict(n, u, q);
    }
  }

  lemma MultiplyStrict(a: real, b: real, c: real)
    requires a < b && 0.0 < c
    ensures a * c < b * c
  {
  }

  lemma FittedColumn(m: Libm, trips: seq<Trip>, rows: seq<Row>, j: nat)
    requires IsSqrt(m) && trips != [] && j < NUM_FEATURES && |rows| == |trips|
    requires var std := SafeStd(m, VarianceOf(Feature(m, j), trips));
             std != 0.0 && forall i :: 0 <= i < |rows| ==>
               At(rows[i].x, j) == (Feature(m, j)(trips[i]) - MeanOf(Feature(m, j), trips)) / std
    ensures Sum(Column(j), rows) == 0.0 && Sum(Times(Column(j), Column(j)), rows) <= |rows| as real
  {
    hide ExtractRaw, SafeStd, Sum;
    var std := SafeStd(m, VarianceOf(Feature(m, j), trips));
    var score := Score(Feature(m, j), MeanOf(Feature(m, j), trips), std);
    SumMap(score, trips, Column(j), rows);
    SumMap(Times(score, score), trips, Times(Column(j), Column(j)), rows);
    ScoresSumToZero(Feature(m, j), trips, std);
    ScoreSquares(m, Feature(m, j), trips);
  }

  /** The training matrix of Train: fitted on the same trips it standardises. */
  lemma FittedMatrixIsStandardised(m: Libm, trips: seq<Trip>)
    requires IsSqrt(m) && trips != []
    ensures GoodScaler(Fit(m, trips))
    ensures Standardised(Matrix(m, Fit(m, trips), trips), NUM_FEATURES)
  {
    hide Sum, ExtractRaw, VarianceOf, MeanOf;
    FitIsGood(m, trips);
    var s := Fit(m, trips);
    var rows := Matrix(m, s, trips);
    forall j: nat | j < NUM_FEATURES
      ensures Sum(Column(j), rows) == 0.0 && Sum(Times(Column(j), Column(j)), rows) <= |rows| as real
    {
      assert s.stds[j] == SafeStd(m, VarianceOf(Feature(m, j), trips));
      FittedColumn(m, trips, rows, j);
    }
  }

  // ---- the scaler, exactly ----

  /** The square of 1e-10. */
  const TINY: real := 0.00000000000000000001

  lemma RootThreshold(m: Libm, variance: real)
    requires IsSqrt(m) && 0.0 <= variance
    ensures TINY <= variance ==> SafeStd(m, variance) * SafeStd(m, variance) == variance
    ensures variance < TINY ==> SafeStd(m, variance) == 1.0
  {
    var root, tinyRoot := m.sqrt(variance), 0.0000000001;
    assert root * root == variance && TINY == tinyRoot * tinyRoot;
    SquaresCompare(tinyRoot, root);
  }

  lemma SquaresCompare(a: real, b: real)
    requires 0.0 < a && 0.0 <= b
    ensures a * a <= b * b <==> a <= b
  {
    if a * a <= b * b {
      SquareOrder(a, b);
    }
    if a <= b {
      MultiplyOrder(a, b, b);
      MultiplyOrder(a, b, a);
    }
  }

  lemma WholeQuotient(s: real, n: real)
    requires 0.0 < n
    ensures s / n * n == s
    ensures TINY * n <= s <==> TINY <= s / n
  {
    var q := s / n;
    assert s == q * n;
    if TINY <= q {
      MultiplyOrder(TINY, q, n);
    } else {
      MultiplyStrict(q, TINY, n);
    }
  }

  lemma UnitSquares(q: real, dev: real, n: real)
    requires q != 0.0 && q * n == dev
    ensures 1.0 / q * dev == n
  {
  }

  /** The mean is the mean; a deviation of 1e-10 or more is divided out exactly, so that
      the squared scores average to one; a smaller one is replaced by 1. `total`, `dev` and
      `squares` are the sums of values, squared deviations and squared scores. */
  ghost predicate ExactlyScaled(mean: real, std: real, n: real, total: real, dev: real, squares: real) {
    && 0.0 < std && mean * n == total
    && (TINY * n <= dev ==> std * std * n == dev && squares == n)
    && (dev < TINY * n ==> std == 1.0)
  }

  lemma ScoresAreExact(m: Libm, f: Trip -> real, trips: seq<Trip>, mean: real, std: real)
    requires IsSqrt(m) && trips != [] && mean == MeanOf(f, trips) && std == SafeStd(m, VarianceOf(f, trips))
    requires std != 0.0
    ensures ExactlyScaled(mean, std, |trips| as real, Sum(f, trips), Sum(SquaredDeviation(f, mean), trips),
                          Sum(Times(Score(f, mean, std), Score(f, mean, std)), trips))
  {
    hide Sum, SafeStd;
    var n, dev := |trips| as real, Sum(SquaredDeviation(f, mean), trips);
    VarianceNonNegative(f, trips);
    SafeStdCovers(m, VarianceOf(f, trips));
    RootThreshold(m, VarianceOf(f, trips));
    WholeQuotient(Sum(f, trips), n);
    WholeQuotient(dev, n);
    SquaredScoreSum(f, mean, std, trips);
    if TINY * n <= dev {
      UnitSquares(std * std, dev, n);
    }
  }

  lemma FitOf(m: Libm, trips: seq<Trip>, j: nat)
    requires trips != [] && j < NUM_FEATURES
    ensures Fit(m, trips).means[j] == MeanOf(Feature(m, j), trips)
    ensures Fit(m, trips).stds[j] == SafeStd(m, VarianceOf(Feature(m, j), trips))
  {
    hide MeanOf, VarianceOf, SafeStd;
  }

  /** Column j of a matrix holds the scores of feature j. */
  lemma ColumnHoldsScores(m: Libm, s: Scaler, trips: seq<Trip>, j: nat, i: nat)
    requires GoodScaler(s) && j < NUM_FEATURES && i < |trips|
    ensures Column(j)(Matrix(m, s, trips)[i]) == Score(Feature(m, j), s.means[j], s.stds[j])(trips[i])
  {
    hide ExtractRaw;
    assert At(FeatureVector(m, s, trips[i]), j) == (ExtractRaw(m, trips[i])[j] - s.means[j]) / s.stds[j];
  }

  lemma ColumnSquares(m: Libm, s: Scaler, trips: seq<Trip>, j: nat)
    requires GoodScaler(s) && j < NUM_FEATURES
    ensures var score := Score(Feature(m, j), s.means[j], s.stds[j]);
            Sum(Times(Column(j), Column(j)), Matrix(m, s, trips)) == Sum(Times(score, score), trips)
  {
    hide Sum, Score, Column, Matrix, Feature;
    var score, rows := Score(Feature(m, j), s.means[j], s.stds[j]), Matrix(m, s, trips);
    forall i | 0 <= i < |trips| ensures Times(score, score)(trips[i]) == Times(Column(j), Column(j))(rows[i]) {
      ColumnHoldsScores(m, s, trips, j, i);
    }
    SumMap(Times(score, score), trips, Times(Column(j), Column(j)), rows);
  }

  /** What the scaler does to feature j of the trips it was fitted on. */
  lemma ScalerIsExact(m: Libm, trips: seq<Trip>, j: nat)
    requires IsSqrt(m) && trips != [] && j < NUM_FEATURES
    ensures GoodScaler(Fit(m, trips))
    ensures var s, f := Fit(m, trips), Feature(m, j);
            ExactlyScaled(s.means[j], s.stds[j], |trips| as real, Sum(f, trips),
                          Sum(SquaredDeviation(f, s.means[j]), trips),
                          Sum(Times(Column(j), Column(j)), Matrix(m, s, trips)))
  {
    hide Sum, SafeStd, MeanOf, VarianceOf, Fit, Matrix, Score, Feature, ExactlyScaled, SquaredDeviation, Column;
    FitIsGood(m, trips);
    FitOf(m, trips, j);
    var s := Fit(m, trips);
    ColumnSquares(m, s, trips, j);
    ScoresAreExact(m, Feature(m, j), trips, s.means[j], s.stds[j]);
  }

  lemma ConstantSums(f: Trip -> real, trips: seq<Trip>, value: real, mean: real)
    requires forall t :: t in trips ==> f(t) == value
    ensures Sum(f, trips) == value * |trips| as real
    ensures mean == value ==> Sum(SquaredDeviation(f, mean), trips) == 0.0
  {
    hide Sum;
    SumCong(f, Constant(value), trips);
    SumConstant(value, trips);
    if mean == value {
      SumCong(SquaredDeviation(f, mean), Constant(0.0), trips);
      SumConstant(0.0, trips);
    }
  }

  /** A feature that is the same on all trips is left at its scale and becomes zero. */
  lemma ConstantFeature(m: Libm, trips: seq<Trip>, j: nat, value: real)
    requires IsSqrt(m) && trips != [] && j < NUM_FEATURES && forall t :: t in trips ==> Feature(m, j)(t) == value
    ensures GoodScaler(Fit(m, trips)) && Fit(m, trips).means[j] == value && Fit(m, trips).stds[j] == 1.0
    ensures forall i :: 0 <= i < |trips| ==> At(Matrix(m, Fit(m, trips), trips)[i].x, j) == 0.0
  {
    hide Sum, Fit, Matrix, Feature, SquaredDeviation;
    ScalerIsExact(m, trips, j);
    var s := Fit(m, trips);
    ConstantSums(Feature(m, j), trips, value, s.means[j]);
    SameFactor(s.means[j], value, |trips| as real);
    forall i | 0 <= i < |trips| ensures At(Matrix(m, s, trips)[i].x, j) == 0.0 {
      ColumnHoldsScores(m, s, trips, j, i);
      assert trips[i] in trips;
    }
  }

  lemma SameFactor(a: real, b: real, n: real)
    requires 0.0 < n && a * n == b * n
    ensures a == b
  {
  }

  /** Scaling loses nothing: undoing it gives the raw features back, whatever the trip. */
  lemma ScalingIsInvertible(m: Libm, s: Scaler, t: Trip, j: nat)
    requires GoodScaler(s) && j < NUM_FEATURES
    ensures FeatureVector(m, s, t)[j] * s.stds[j] + s.means[j] == ExtractRaw(m, t)[j]
    ensures FeatureVector(m, s, t)[NUM_FEATURES] == 1.0
  {
    hide ExtractRaw;
    var d := ExtractRaw(m, t)[j] - s.means[j];
    assert d / s.stds[j] * s.stds[j] == d;
  }

  // ---- the order of the trips does not matter ----

  lemma FitOfAnyOrder(m: Libm, a: seq<Trip>, b: seq<Trip>)
    requires multiset(a) == multiset(b)
    ensures Fit(m, a) == Fit(m, b)
  {
    MultisetLength(a, b);
    if a != [] {
      forall j: nat | j < NUM_FEATURES
        ensures MeanOf(Feature(m, j), a) == MeanOf(Feature(m, j), b)
        ensures VarianceOf(Feature(m, j), a) == VarianceOf(Feature(m, j), b)
      {
        SumPermutation(Feature(m, j), a, b);
        SumPermutation(SquaredDeviation(Feature(m, j), MeanOf(Feature(m, j), a)), a, b);
      }
    }
  }

  lemma {:induction false} MatrixOfAnyOrder(m: Libm, s: Scaler, a: seq<Trip>, b: seq<Trip>)
    requires GoodScaler(s) && multiset(a) == multiset(b)
    ensures multiset(Matrix(m, s, a)) == multiset(Matrix(m, s, b))
    decreases |a|
  {
    if a == [] {
      MultisetLength(a, b);
    } else {
      var a', t := a[..|a| - 1], a[|a| - 1];
      var l, r := RemoveLast(a, b);
      MatrixOfAnyOrder(m, s, a', l + r);
      var row := RowFor(m, s, t);
      assert a == a' + [t];
      MatrixConcat(m, s, a', [t]);
      MatrixConcat(m, s, l, r);
      MatrixConcat(m, s, l, [t]);
      MatrixConcat(m, s, l + [t], r);
    }
  }

  lemma MatrixConcat(m: Libm, s: Scaler, a: seq<Trip>, b: seq<Trip>)
    requires GoodScaler(s)
    ensures Matrix(m, s, a + b) == Matrix(m, s, a) + Matrix(m, s, b)
    ensures multiset(Matrix(m, s, a + b)) == multiset(Matrix(m, s, a)) + multiset(Matrix(m, s, b))
  {
    hide RowFor;
    assert Matrix(m, s, a + b) == Matrix(m, s, a) + Matrix(m, s, b);
  }
}
