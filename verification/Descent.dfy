/** Sequential full-batch gradient descent for linear regression, over exact reals.
    This is the one specification that the parallel trainer and the distributed
    trainer are both proved against. */
module Descent {
  import opened Wrappers
  import opened Sums

  type Vec = seq<real>

  /** One line of the design matrix with its target: X[i] and y[i]. */
  datatype Row = Row(x: Vec, y: real)

  /** Coordinate j, or 0 outside the vector. */
  function At(v: Vec, j: nat): real {
    if j < |v| then v[j] else 0.0
  }

  function Products(a: Vec, b: Vec): nat -> real {
    (i: nat) => At(a, i) * At(b, i)
  }

  function Dot(a: Vec, b: Vec): real {
    Sum(Products(a, b), Indices(|a|))
  }

  function Zeros(n: nat): Vec {
    seq(n, i => 0.0)
  }

  function Err(theta: Vec, r: Row): real {
    Dot(r.x, theta) - r.y
  }

  /** What one row adds to coordinate j of the gradient. */
  function GradTerm(theta: Vec, j: nat): Row -> real {
    r => Err(theta, r) * At(r.x, j)
  }

  function SquaredError(theta: Vec): Row -> real {
    r => Err(theta, r) * Err(theta, r)
  }

  /** Coordinate j of the gradient, summed over the rows and not averaged. */
  function GradAt(theta: Vec, rows: seq<Row>, j: nat): real {
    Sum(GradTerm(theta, j), rows)
  }

  function GradSum(theta: Vec, rows: seq<Row>): Vec {
    seq(|theta|, j requires 0 <= j => GradAt(theta, rows, j))
  }

  /** theta - lr * gradient / n; an empty set of rows leaves theta alone. */
  function Update(theta: Vec, gradient: Vec, n: nat, lr: real): Vec
    requires |gradient| == |theta|
  {
    if n == 0 then theta
    else seq(|theta|, j requires 0 <= j < |theta| => theta[j] - lr * gradient[j] / n as real)
  }

  function GdStep(rows: seq<Row>, lr: real, theta: Vec): (out: Vec)
    ensures |out| == |theta|
  {
    Update(theta, GradSum(theta, rows), |rows|, lr)
  }

  /** The weights after the given number of epochs, starting from zero. */
  function GdRun(rows: seq<Row>, lr: real, dim: nat, epochs: nat): (theta: Vec)
    ensures |theta| == dim
  {
    if epochs == 0 then Zeros(dim) else GdStep(rows, lr, GdRun(rows, lr, dim, epochs - 1))
  }

  function Mse(rows: seq<Row>, theta: Vec): real
    requires rows != []
  {
    Sum(SquaredError(theta), rows) / |rows| as real
  }

  /** The mean squared error, or None where the program divides zero by zero. */
  function Loss(rows: seq<Row>, theta: Vec): Option<real> {
    if rows == [] then None else Some(Mse(rows, theta))
  }

  /** One entry per epoch: the loss of the weights that epoch produced. */
  function LossHistory(rows: seq<Row>, lr: real, dim: nat, epochs: nat): (h: seq<Option<real>>)
    ensures |h| == epochs
  {
    seq(epochs, e requires 0 <= e => Loss(rows, GdRun(rows, lr, dim, e + 1)))
  }

  /** The gradient as a sum over row numbers, the way workers hold their rows. */
  function IndexTerm(rows: seq<Row>, theta: Vec, j: nat): nat -> real {
    (i: nat) => if i < |rows| then GradTerm(theta, j)(rows[i]) else 0.0
  }

  lemma {:induction false} IndexSum(rows: seq<Row>, theta: Vec, j: nat, n: nat)
    requires n <= |rows|
    ensures Sum(IndexTerm(rows, theta, j), Indices(n)) == GradAt(theta, rows[..n], j)
  {
    if n > 0 {
      IndexSum(rows, theta, j, n - 1);
      assert Indices(n)[..n - 1] == Indices(n - 1);
      assert rows[..n][..n - 1] == rows[..n - 1];
    }
  }

  /** Any order of all the row numbers gives the full gradient. */
  lemma GradientOfAnyOrder(rows: seq<Row>, theta: Vec, j: nat, order: seq<nat>)
    requires multiset(order) == multiset(Indices(|rows|))
    ensures Sum(IndexTerm(rows, theta, j), order) == GradAt(theta, rows, j)
  {
    SumPermutation(IndexTerm(rows, theta, j), order, Indices(|rows|));
    IndexSum(rows, theta, j, |rows|);
    assert rows[..|rows|] == rows;
  }

  /** Descent depends on the rows only as a bag. */
  lemma {:induction false} WeightsOfAnyOrder(a: seq<Row>, b: seq<Row>, lr: real, dim: nat, epochs: nat)
    requires multiset(a) == multiset(b)
    ensures GdRun(a, lr, dim, epochs) == GdRun(b, lr, dim, epochs)
  {
    MultisetLength(a, b);
    if epochs > 0 {
      WeightsOfAnyOrder(a, b, lr, dim, epochs - 1);
      var theta := GdRun(a, lr, dim, epochs - 1);
      forall j: nat | j < dim ensures GradAt(theta, a, j) == GradAt(theta, b, j) {
        SumPermutation(GradTerm(theta, j), a, b);
      }
      assert GradSum(theta, a) == GradSum(theta, b);
    }
  }

  lemma LossOfAnyOrder(a: seq<Row>, b: seq<Row>, theta: Vec)
    requires multiset(a) == multiset(b)
    ensures Loss(a, theta) == Loss(b, theta)
  {
    hide Sum;
    MultisetLength(a, b);
    SumPermutation(SquaredError(theta), a, b);
  }

  /** And so do its losses. */
  lemma LossesOfAnyOrder(a: seq<Row>, b: seq<Row>, lr: real, dim: nat, epochs: nat)
    requires multiset(a) == multiset(b)
    ensures LossHistory(a, lr, dim, epochs) == LossHistory(b, lr, dim, epochs)
  {
    hide GdRun, Loss;
    forall e | 0 <= e < epochs
      ensures LossHistory(a, lr, dim, epochs)[e] == LossHistory(b, lr, dim, epochs)[e]
    {
      WeightsOfAnyOrder(a, b, lr, dim, e + 1);
      LossOfAnyOrder(a, b, GdRun(a, lr, dim, e + 1));
    }
  }
}
