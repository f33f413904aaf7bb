/** Training end to end: from trips and options, through the split, the scaler and the
    matrix, to what every run of Train and of TrainDistributed returns. */
module Training {
  import opened Wrappers
  import opened Sums
  import opened Descent
  import opened Gradient
  import opened Trips
  import opened Parser
  import opened Features
  import opened Convergence
  import opened Evaluation
  import T = TrainSystem
  import TR = TrainRuns
  import C = Cluster
  import CR = ClusterRuns

  const DIM: nat := NUM_FEATURES + 1

  datatype TrainOptions = TrainOptions(workers: int, epochs: int, learningRate: real, batchSize: int, trainFraction: real)

  ghost predicate Usable(o: TrainOptions) {
    0 < o.workers && 0 < o.epochs && 0.0 < o.learningRate && 0 < o.batchSize && 0.0 < o.trainFraction < 1.0
  }

  /** setDefaults of the local trainer: what is usable is kept. */
  function LocalDefaults(o: TrainOptions): (d: TrainOptions)
    ensures Usable(d) && (Usable(o) ==> d == o)
    ensures (0 < o.workers ==> d.workers == o.workers) && (o.workers <= 0 ==> d.workers == 1)
    ensures (0 < o.epochs ==> d.epochs == o.epochs) && (o.epochs <= 0 ==> d.epochs == 10)
    ensures 0.0 < o.learningRate ==> d.learningRate == o.learningRate
    ensures o.learningRate <= 0.0 ==> d.learningRate == 0.01
    ensures (0 < o.batchSize ==> d.batchSize == o.batchSize) && (o.batchSize <= 0 ==> d.batchSize == 1024)
    ensures 0.0 < o.trainFraction < 1.0 ==> d.trainFraction == o.trainFraction
    ensures o.trainFraction <= 0.0 || 1.0 <= o.trainFraction ==> d.trainFraction == 0.8
  {
    TrainOptions(if o.workers <= 0 then 1 else o.workers,
                 if o.epochs <= 0 then 10 else o.epochs,
                 if o.learningRate <= 0.0 then 0.01 else o.learningRate,
                 if o.batchSize <= 0 then 1024 else o.batchSize,
                 if o.trainFraction <= 0.0 || o.trainFraction >= 1.0 then 0.8 else o.trainFraction)
  }

  /** The coordinator's defaults; workers and batch size mean nothing to it. */
  function ClusterDefaults(o: TrainOptions): (d: TrainOptions)
    ensures 0 < d.epochs && 0.0 < d.learningRate && 0.0 < d.trainFraction < 1.0
    ensures (Usable(o) ==> d == o) && d.workers == o.workers && d.batchSize == o.batchSize
    ensures (0 < o.epochs ==> d.epochs == o.epochs) && (o.epochs <= 0 ==> d.epochs == 100)
    ensures 0.0 < o.learningRate ==> d.learningRate == o.learningRate
    ensures o.learningRate <= 0.0 ==> d.learningRate == 0.05
    ensures 0.0 < o.trainFraction < 1.0 ==> d.trainFraction == o.trainFraction
    ensures o.trainFraction <= 0.0 || 1.0 <= o.trainFraction ==> d.trainFraction == 0.8
  {
    o.(epochs := if o.epochs <= 0 then 100 else o.epochs,
       learningRate := if o.learningRate <= 0.0 then 0.05 else o.learningRate,
       trainFraction := if o.trainFraction <= 0.0 || o.trainFraction >= 1.0 then 0.8 else o.trainFraction)
  }

  function SplitAt(n: nat, fraction: real): (k: nat)
    requires 0.0 < fraction < 1.0
    ensures k <= n && k as real <= n as real * fraction < k as real + 1.0
  {
    MultiplyOrder(0.0, fraction, n as real);
    MultiplyOrder(fraction, 1.0, n as real);
    (n as real * fraction).Floor
  }

  ghost predicate IsShuffle(order: seq<nat>, n: nat) {
    multiset(order) == multiset(Indices(n))
  }

  /** The trips with these indices, in this order. */
  function Picked(trips: seq<Trip>, order: seq<nat>): seq<Trip> {
    if order == [] then []
    else
      var last := order[|order| - 1];
      Picked(trips, order[..|order| - 1]) + if last < |trips| then [trips[last]] else []
  }

  /** A call of Train: its arguments, the shuffle it draws, and how its goroutines and
      those it starts are scheduled until it returns. */
  datatype LocalCall = LocalCall(trips: seq<Trip>, options: TrainOptions, order: seq<nat>, run: seq<T.Action>)

  /** A call of TrainDistributed. */
  datatype ClusterCall = ClusterCall(trips: seq<Trip>, options: TrainOptions, nodes: nat, run: seq<C.Action>)

  /** The training part: of the shuffled trips for Train, of the trips as they come for
      TrainDistributed. */
  function LocalTrips(call: LocalCall): (train: seq<Trip>) {
    Picked(call.trips, call.order[..SplitAt(|call.order|, LocalDefaults(call.options).trainFraction)])
  }

  function ClusterTrips(call: ClusterCall): (train: seq<Trip>) {
    call.trips[..SplitAt(|call.trips|, ClusterDefaults(call.options).trainFraction)]
  }

  /** The matrix a training part is turned into. */
  function TrainRows(m: Libm, train: seq<Trip>): seq<Row> {
    Matrix(m, Fit(m, train), train)
  }

  function LocalSystem(m: Libm, call: LocalCall): T.Config {
    var d := LocalDefaults(call.options);
    T.TrainConfig(TrainRows(m, LocalTrips(call)), DIM, d.workers, d.epochs, d.learningRate, d.batchSize)
  }

  function ClusterSystem(m: Libm, call: ClusterCall): C.Config {
    var d := ClusterDefaults(call.options);
    C.Config(TrainRows(m, ClusterTrips(call)), DIM, call.nodes, d.epochs, d.learningRate)
  }

  /** The call of Train returned this model and these losses. */
  ghost predicate LocalResult(m: Libm, call: LocalCall, model: LinearModel, losses: seq<Option<real>>) {
    && call.trips != [] && IsShuffle(call.order, |call.trips|)
    && var c := LocalSystem(m, call);
       && TR.Legal(c, T.Init(c), call.run)
       && var s := TR.Exec(c, T.Init(c), call.run);
          && TR.Returned(c, s) && s.coord.theta == T.Own(model.weights)
          && model.scaler == Fit(m, LocalTrips(call)) && s.coord.history == losses
  }

  /** The call of TrainDistributed returned this model and these losses. */
  ghost predicate ClusterResult(m: Libm, call: ClusterCall, model: LinearModel, losses: seq<Option<real>>) {
    && call.trips != [] && 0 < call.nodes
    && var c := ClusterSystem(m, call);
       && CR.Legal(c, C.Init(c), call.run)
       && var s := CR.Exec(c, C.Init(c), call.run);
          && CR.Succeeded(c, s) && s.theta == model.weights
          && model.scaler == Fit(m, ClusterTrips(call)) && s.history == losses
  }

  /** The options reach the goroutines: there are as many workers as asked for, they cut
      batches of the size asked for, and each has its n / W of the training rows, the last
      one the fewer than W that remain as well. */
  lemma WorkIsShared(m: Libm, call: LocalCall, i: nat)
    requires i < LocalDefaults(call.options).workers
    ensures var c, d, n := LocalSystem(m, call), LocalDefaults(call.options), |LocalTrips(call)|;
            && |c.rows| == n && c.workers == |c.parts| == d.workers && c.batch == d.batchSize
            && if i < d.workers - 1 then |c.parts[i]| == n / d.workers
               else n / d.workers <= |c.parts[i]| < n / d.workers + d.workers
  {
    hide LocalDefaults, LocalTrips, Matrix, Fit, PartIndices, PartRows;
    FitIsGood(m, LocalTrips(call));
    PiecesAreEven(TrainRows(m, LocalTrips(call)), LocalDefaults(call.options).workers, i);
  }

  /** And each node of the cluster holds its share. */
  lemma DataIsShared(m: Libm, call: ClusterCall, i: nat)
    requires i < call.nodes
    ensures var c, n := ClusterSystem(m, call), |ClusterTrips(call)|;
            && |c.rows| == n && c.nodes == call.nodes
            && if i < call.nodes - 1 then |PartRows(c.rows, c.nodes, i)| == n / call.nodes
               else n / call.nodes <= |PartRows(c.rows, c.nodes, i)| < n / call.nodes + call.nodes
  {
    hide ClusterDefaults, ClusterTrips, Matrix, Fit, PartRows;
    FitIsGood(m, ClusterTrips(call));
    PiecesAreEven(TrainRows(m, ClusterTrips(call)), call.nodes, i);
  }

  /** What both trainers should return for a training part. */
  ghost predicate IsDescentOn(m: Libm, train: seq<Trip>, lr: real, epochs: nat,
                              model: LinearModel, losses: seq<Option<real>>)
  {
    && model == LinearModel(GdRun(TrainRows(m, train), lr, DIM, epochs), Fit(m, train))
    && losses == Descent.LossHistory(TrainRows(m, train), lr, DIM, epochs)
  }

  /** Whatever Train returns is sequential descent on the first part of the shuffled
      trips, for the epochs and the learning rate of its options. */
  lemma LocalResultIsDescent(m: Libm, call: LocalCall, model: LinearModel, losses: seq<Option<real>>)
    requires LocalResult(m, call, model, losses)
    ensures var d := LocalDefaults(call.options);
            IsDescentOn(m, LocalTrips(call), d.learningRate, d.epochs, model, losses)
  {
    hide GdRun, Descent.LossHistory, TR.Exec, TR.Legal, T.Init, T.Inv, TR.Measure, TR.Stuck, TrainRows, Fit,
      LocalTrips, LocalDefaults;
    var c, d := LocalSystem(m, call), LocalDefaults(call.options);
    T.TrainConfigValid(c.rows, DIM, d.workers, d.epochs, d.learningRate, d.batchSize);
    TR.TrainRefinesDescent(c, call.run);
  }

  /** Whatever TrainDistributed returns is sequential descent on the first part of the
      trips, so it does not depend on the number of nodes. */
  lemma ClusterResultIsDescent(m: Libm, call: ClusterCall, model: LinearModel, losses: seq<Option<real>>)
    requires ClusterResult(m, call, model, losses)
    ensures var d := ClusterDefaults(call.options);
            IsDescentOn(m, ClusterTrips(call), d.learningRate, d.epochs, model, losses)
  {
    hide GdRun, Descent.LossHistory, CR.Exec, CR.Legal, C.Init, TrainRows, Fit, ClusterTrips, ClusterDefaults;
    CR.DistributedRefinesDescent(ClusterSystem(m, call), call.run);
  }

  lemma DescentOfAnyOrder(m: Libm, a: seq<Trip>, b: seq<Trip>, lr: real, epochs: nat,
                          model: LinearModel, losses: seq<Option<real>>)
    requires multiset(a) == multiset(b) && IsDescentOn(m, a, lr, epochs, model, losses)
    ensures IsDescentOn(m, b, lr, epochs, model, losses)
  {
    hide GdRun, Descent.LossHistory, Matrix, Fit;
    FitOfAnyOrder(m, a, b);
    FitIsGood(m, a);
    MatrixOfAnyOrder(m, Fit(m, a), a, b);
    WeightsOfAnyOrder(TrainRows(m, a), TrainRows(m, b), lr, DIM, epochs);
    LossesOfAnyOrder(TrainRows(m, a), TrainRows(m, b), lr, DIM, epochs);
  }

  /** The two trainers agree. Whatever the schedules, worker count, batch size, node
      count and arrival order: when their training parts are reorderings of each other
      and learning rate and epochs are equal, both return the same model, scaler
      included, and the same losses. */
  lemma TrainersAgree(m: Libm, local: LocalCall, cluster: ClusterCall, model: LinearModel,
                      losses: seq<Option<real>>, model': LinearModel, losses': seq<Option<real>>)
    requires LocalResult(m, local, model, losses) && ClusterResult(m, cluster, model', losses')
    requires multiset(LocalTrips(local)) == multiset(ClusterTrips(cluster))
    requires LocalDefaults(local.options).epochs == ClusterDefaults(cluster.options).epochs
    requires LocalDefaults(local.options).learningRate == ClusterDefaults(cluster.options).learningRate
    ensures model == model' && losses == losses'
  {
    hide GdRun, Descent.LossHistory, LocalResult, ClusterResult, TrainRows, Fit, LocalTrips, ClusterTrips,
      LocalDefaults, ClusterDefaults;
    var d := LocalDefaults(local.options);
    LocalResultIsDescent(m, local, model, losses);
    ClusterResultIsDescent(m, cluster, model', losses');
    DescentOfAnyOrder(m, LocalTrips(local), ClusterTrips(cluster), d.learningRate, d.epochs, model, losses);
  }

  lemma {:induction false} PickedConcat(trips: seq<Trip>, a: seq<nat>, b: seq<nat>)
    ensures Picked(trips, a + b) == Picked(trips, a) + Picked(trips, b)
  {
    if b == [] {
      assert a + b == a;
    } else {
      PickedConcat(trips, a, b[..|b| - 1]);
      assert (a + b)[..|a + b| - 1] == a + b[..|b| - 1];
    }
  }

  /** Picking by reordered lists of indices gives reordered trips. */
  lemma {:induction false} PickedInAnyOrder(trips: seq<Trip>, a: seq<nat>, b: seq<nat>)
    requires multiset(a) == multiset(b)
    ensures multiset(Picked(trips, a)) == multiset(Picked(trips, b))
    decreases |a|
  {
    if a == [] {
      MultisetLength(a, b);
    } else {
      hide Picked;
      var a', x := a[..|a| - 1], [a[|a| - 1]];
      var l, r := RemoveLast(a, b);
      PickedInAnyOrder(trips, a', l + r);
      assert a == a' + x && b == l + x + r;
      PickedConcat(trips, a', x);
      PickedConcat(trips, l, r);
      PickedConcat(trips, l, x);
      PickedConcat(trips, l + x, r);
      JoinReordered(Picked(trips, a'), Picked(trips, x), Picked(trips, l), Picked(trips, r));
    }
  }

  lemma {:induction false} PickedPrefix(trips: seq<Trip>, k: nat)
    requires k <= |trips|
    ensures Picked(trips, Indices(k)) == trips[..k]
  {
    if k > 0 {
      PickedPrefix(trips, k - 1);
      assert Indices(k)[..k - 1] == Indices(k - 1);
    }
  }

  /** Train's shuffle leaves its training part the trips of the deterministic split, in
      some order, whenever it mixes only within the two parts; and always as many. */
  lemma SplitsAgree(local: LocalCall, cluster: ClusterCall)
    requires IsShuffle(local.order, |local.trips|) && local.trips == cluster.trips
    requires LocalDefaults(local.options).trainFraction == ClusterDefaults(cluster.options).trainFraction
    ensures |LocalTrips(local)| == |ClusterTrips(cluster)| <= |local.order|
    ensures IsShuffle(local.order[..|ClusterTrips(cluster)|], |ClusterTrips(cluster)|) ==>
              multiset(LocalTrips(local)) == multiset(ClusterTrips(cluster))
  {
    hide SplitAt, LocalDefaults, ClusterDefaults, Picked;
    var order, trips, k := local.order, local.trips, |ClusterTrips(cluster)|;
    MultisetLength(order, Indices(|trips|));
    forall i | 0 <= i < |order| ensures order[i] < |trips| {
      assert order[i] in multiset(order);
      assert order[i] in multiset(Indices(|trips|));
    }
    PickedSize(trips, order[..k]);
    if IsShuffle(order[..k], k) {
      PickedInAnyOrder(trips, order[..k], Indices(k));
      PickedPrefix(trips, k);
    }
  }

  lemma {:induction false} PickedSize(trips: seq<Trip>, order: seq<nat>)
    requires forall i :: 0 <= i < |order| ==> order[i] < |trips|
    ensures |Picked(trips, order)| == |order|
  {
    if order != [] {
      PickedSize(trips, order[..|order| - 1]);
    }
  }

  /** The raw features of a trip, from the line it was read from: distance, hour on the
      circle (a twelfth of pi each), Saturday or Sunday by the calendar (day 0 is the 1st
      of January 2015), place, the two airport rates, and passengers. */
  lemma FeaturesOfLine(m: Libm, f: Fields, day: nat, hour: nat, angle: real)
    requires ParseLine(Some(f)).Accepted? && hour < 24 && angle * 12.0 == m.pi * hour as real
    requires day * 86_400_000_000_000 + hour * 3_600_000_000_000 <= f.pickup
    requires f.pickup < day * 86_400_000_000_000 + (hour + 1) * 3_600_000_000_000
    ensures var raw := ExtractRaw(m, ParseLine(Some(f)).trip);
            && raw[0] == f.distance && raw[1] == m.sin(angle) && raw[2] == m.cos(angle)
            && raw[3] == (if day in {2, 3, 9, 10, 16, 17, 23, 24, 30} then 1.0 else 0.0)
            && raw[4] == f.lat && raw[5] == f.lon
            && raw[6] == (if 2 <= f.rateCode <= 3 then 1.0 else 0.0) && raw[7] == f.passenger as real
  {
    hide ParseLine, ValidTrip, ExtractRaw;
    JanuaryCalendar(f, day, hour);
    var t := ParseLine(Some(f)).trip;
    assert IsTripOf(t, f) && t.hourOfDay == hour;
    TripFeatures(m, t, angle);
  }

  lemma TripFeatures(m: Libm, t: Trip, angle: real)
    requires angle * 12.0 == m.pi * t.hourOfDay as real
    ensures var raw := ExtractRaw(m, t);
            && raw[0] == t.tripDistance && raw[1] == m.sin(angle) && raw[2] == m.cos(angle)
            && raw[3] == (if t.dayOfWeek == 6 || t.dayOfWeek == 0 then 1.0 else 0.0)
            && raw[4] == t.pickupLat && raw[5] == t.pickupLon
            && raw[6] == (if 2 <= t.rateCodeID <= 3 then 1.0 else 0.0) && raw[7] == t.passengerCount as real
  {
    OnTheCircle(m.pi, t.hourOfDay as real, angle);
    assert HourAngle(m, t.hourOfDay) == angle;
  }

  lemma OnTheCircle(pi: real, hour: real, angle: real)
    requires angle * 12.0 == pi * hour
    ensures 2.0 * pi * hour / 24.0 == angle
  {
    assert 2.0 * pi * hour == 2.0 * (pi * hour);
  }

  /** Losses that never rise from one epoch to the next and start no higher than the
      loss of zero weights; a tenfold rise, the divergence warning, is out of reach. */
  ghost predicate NeverRise(losses: seq<Option<real>>, atZero: real) {
    && (forall e :: 0 <= e < |losses| ==> losses[e].Some? && 0.0 <= losses[e].value <= atZero)
    && (forall e :: 1 <= e < |losses| ==>
          losses[e].value <= losses[e - 1].value && !(losses[e].value > losses[e - 1].value * 10.0))
  }

  lemma FittedLossesNeverRise(m: Libm, train: seq<Trip>, lr: real, epochs: nat)
    requires IsSqrt(m) && train != [] && 0.0 <= lr && lr * 9.0 <= 2.0
    ensures var rows := TrainRows(m, train);
            rows != [] && NeverRise(Descent.LossHistory(rows, lr, DIM, epochs), Mse(rows, Zeros(DIM)))
  {
    hide Mse, Standardised, GdStep, Matrix, Fit;
    var rows := TrainRows(m, train);
    FittedMatrixIsStandardised(m, train);
    var losses := Descent.LossHistory(rows, lr, DIM, epochs);
    forall e | 0 <= e < epochs ensures losses[e].Some? && 0.0 <= losses[e].value <= Mse(rows, Zeros(DIM)) {
      MseNonNegative(rows, GdRun(rows, lr, DIM, e + 1));
      LossNeverRises(rows, NUM_FEATURES, lr, 0, e + 1);
    }
    forall e | 1 <= e < epochs
      ensures losses[e].value <= losses[e - 1].value && !(losses[e].value > losses[e - 1].value * 10.0)
    {
      MseNonNegative(rows, GdRun(rows, lr, DIM, e));
      LossNeverRises(rows, NUM_FEATURES, lr, e, e + 1);
    }
  }

  /** Loss descent end to end, for a learning rate of at most 2/9, as both defaults are.
      It holds of every call of either trainer that has trips to train on. */
  lemma TrainLossNeverRises(m: Libm, call: LocalCall, model: LinearModel, losses: seq<Option<real>>)
    requires IsSqrt(m) && LocalResult(m, call, model, losses) && LocalTrips(call) != []
    requires LocalDefaults(call.options).learningRate * 9.0 <= 2.0
    ensures var rows := TrainRows(m, LocalTrips(call));
            rows != [] && NeverRise(losses, Mse(rows, Zeros(DIM)))
    ensures |losses| == LocalDefaults(call.options).epochs
  {
    hide LocalResult, Mse, NeverRise, TrainRows, Fit, LocalTrips;
    var d := LocalDefaults(call.options);
    LocalResultIsDescent(m, call, model, losses);
    FittedLossesNeverRise(m, LocalTrips(call), d.learningRate, d.epochs);
  }

  lemma DistributedLossNeverRises(m: Libm, call: ClusterCall, model: LinearModel, losses: seq<Option<real>>)
    requires IsSqrt(m) && ClusterResult(m, call, model, losses) && ClusterTrips(call) != []
    requires ClusterDefaults(call.options).learningRate * 9.0 <= 2.0
    ensures var rows := TrainRows(m, ClusterTrips(call));
            rows != [] && NeverRise(losses, Mse(rows, Zeros(DIM)))
    ensures |losses| == ClusterDefaults(call.options).epochs
  {
    hide ClusterResult, Mse, NeverRise, TrainRows, Fit, ClusterTrips;
    var d := ClusterDefaults(call.options);
    ClusterResultIsDescent(m, call, model, losses);
    FittedLossesNeverRise(m, ClusterTrips(call), d.learningRate, d.epochs);
  }

  /** The losses near that of any weights w at a rate of one over the epochs so far. */
  ghost predicate NearsAny(rows: seq<Row>, losses: seq<Option<real>>, lr: real, w: Vec)
    requires rows != [] && 0.0 < lr
  {
    forall e :: 0 <= e < |losses| ==>
      losses[e].Some? && losses[e].value <= Mse(rows, w) + Excess(w, lr, e + 1)
  }

  lemma FittedLossesNearAny(m: Libm, train: seq<Trip>, lr: real, epochs: nat, w: Vec)
    requires IsSqrt(m) && train != [] && 0.0 < lr && lr * 9.0 <= 1.0 && |w| == DIM
    ensures var rows := TrainRows(m, train);
            rows != [] && NearsAny(rows, Descent.LossHistory(rows, lr, DIM, epochs), lr, w)
  {
    hide Mse, Standardised, GdRun, Excess, Matrix, Fit;
    var rows := TrainRows(m, train);
    FittedMatrixIsStandardised(m, train);
    var losses := Descent.LossHistory(rows, lr, DIM, epochs);
    forall e: nat | e < epochs
      ensures losses[e].Some? && losses[e].value <= Mse(rows, w) + Excess(w, lr, e + 1)
    {
      assert losses[e] == Some(Mse(rows, GdRun(rows, lr, DIM, e + 1)));
      LossNearsAny(rows, NUM_FEATURES, lr, e + 1, w);
    }
  }

  /** How well Train does, for a learning rate of at most 1/9, as the default is: each
      recorded loss is within |w|^2 / (lr * e) of the loss of any weights w, the least
      squares solution included. */
  lemma TrainLossNearsAny(m: Libm, call: LocalCall, model: LinearModel, losses: seq<Option<real>>, w: Vec)
    requires IsSqrt(m) && LocalResult(m, call, model, losses) && LocalTrips(call) != [] && |w| == DIM
    requires LocalDefaults(call.options).learningRate * 9.0 <= 1.0
    ensures var rows := TrainRows(m, LocalTrips(call));
            rows != [] && NearsAny(rows, losses, LocalDefaults(call.options).learningRate, w)
  {
    hide LocalResult, NearsAny, TrainRows, Fit, LocalTrips;
    var d := LocalDefaults(call.options);
    LocalResultIsDescent(m, call, model, losses);
    FittedLossesNearAny(m, LocalTrips(call), d.learningRate, d.epochs, w);
  }

  lemma DistributedLossNearsAny(m: Libm, call: ClusterCall, model: LinearModel, losses: seq<Option<real>>, w: Vec)
    requires IsSqrt(m) && ClusterResult(m, call, model, losses) && ClusterTrips(call) != [] && |w| == DIM
    requires ClusterDefaults(call.options).learningRate * 9.0 <= 1.0
    ensures var rows := TrainRows(m, ClusterTrips(call));
            rows != [] && NearsAny(rows, losses, ClusterDefaults(call.options).learningRate, w)
  {
    hide ClusterResult, NearsAny, TrainRows, Fit, ClusterTrips;
    var d := ClusterDefaults(call.options);
    ClusterResultIsDescent(m, call, model, losses);
    FittedLossesNearAny(m, ClusterTrips(call), d.learningRate, d.epochs, w);
  }

  lemma MseNonNegative(rows: seq<Row>, theta: Vec)
    requires rows != []
    ensures 0.0 <= Mse(rows, theta)
  {
    var f := SquaredError(theta);
    SumConstant(0.0, rows);
    forall r | r in rows ensures Constant(0.0)(r) <= f(r) {
      SquareNonNegative(Err(theta, r));
    }
    SumMonotone(Constant(0.0), f, rows);
    NonNegativeQuotient(Sum(f, rows), |rows| as real);
  }

  /** The bias of the returned model, in closed form. */
  lemma TrainedBias(m: Libm, call: LocalCall, model: LinearModel, losses: seq<Option<real>>)
    requires IsSqrt(m) && LocalResult(m, call, model, losses) && LocalTrips(call) != []
    ensures var d := LocalDefaults(call.options);
            |model.weights| == DIM &&
            model.weights[NUM_FEATURES]
              == MeanDuration(LocalTrips(call)) * (1.0 - Power(1.0 - d.learningRate, d.epochs))
  {
    hide LocalResult, Standardised, Matrix, Fit, Power, MeanTarget, MeanDuration, LocalTrips, LocalDefaults, GdRun,
      Descent.LossHistory;
    var d, train := LocalDefaults(call.options), LocalTrips(call);
    FitIsGood(m, train);
    LocalResultIsDescent(m, call, model, losses);
    FittedMatrixIsStandardised(m, train);
    MatrixTargets(m, Fit(m, train), train);
    BiasClosedForm(TrainRows(m, train), NUM_FEATURES, d.learningRate, d.epochs);
  }

  /** The training RMSE of the returned model, squared, is its last recorded loss. */
  lemma TrainedRmse(m: Libm, call: LocalCall, model: LinearModel, losses: seq<Option<real>>)
    requires IsSqrt(m) && LocalResult(m, call, model, losses) && LocalTrips(call) != []
    ensures GoodModel(model) && losses != []
    ensures var rmse := MetricsOf(m, Residual(m, model), LocalTrips(call)).rmse;
            losses[|losses| - 1] == Some(Square(rmse))
  {
    hide LocalResult, Mse, Matrix, Fit, MetricsOf, Residual, Square, LocalTrips;
    var train := LocalTrips(call);
    FitIsGood(m, train);
    LocalResultIsDescent(m, call, model, losses);
    MatrixTargets(m, Fit(m, train), train);
    TrainRmseIsTheLoss(m, model, train);
    assert losses[|losses| - 1] == Some(Mse(TrainRows(m, train), model.weights));
  }

  lemma MatrixTargets(m: Libm, s: Scaler, train: seq<Trip>)
    requires GoodScaler(s) && train != []
    ensures Matrix(m, s, train) != []
    ensures MeanTarget(Matrix(m, s, train)) == MeanDuration(train)
  {
    hide FeatureVector;
    SumMap(Duration(), train, Target(), Matrix(m, s, train));
  }
}
