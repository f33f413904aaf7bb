/** Finite sums of real-valued functions over sequences, with the laws the rest of
    the project uses: additivity, linearity, order, independence of the order of the
    terms, exchange of two summations and the Cauchy-Schwarz inequality. */
module Sums {

  /** The numbers below n, in order. */
  function Indices(n: nat): (s: seq<nat>)
    ensures |s| == n
    ensures forall i :: 0 <= i < n ==> s[i] == i
  {
    seq(n, i => i)
  }

  /** Terms are added from left to right, as the loops of the program add them. */
  function Sum<T>(f: T -> real, s: seq<T>): real {
    if s == [] then 0.0 else Sum(f, s[..|s| - 1]) + f(s[|s| - 1])
  }

  function Times<T>(f: T -> real, g: T -> real): T -> real {
    x => f(x) * g(x)
  }

  function Constant<T>(c: real): T -> real {
    x => c
  }

  lemma SumEmpty<T>(f: T -> real, s: seq<T>)
    ensures s[..0] == [] && Sum(f, s[..0]) == 0.0
  {
  }

  lemma SumStep<T>(f: T -> real, s: seq<T>, i: nat)
    requires i < |s|
    ensures Sum(f, s[..i + 1]) == Sum(f, s[..i]) + f(s[i])
  {
    assert s[..i + 1][..i] == s[..i];
  }

  lemma {:induction false} SumConcat<T>(f: T -> real, a: seq<T>, b: seq<T>)
    ensures Sum(f, a + b) == Sum(f, a) + Sum(f, b)
  {
    if b == [] {
      assert a + b == a;
    } else {
      var b' := b[..|b| - 1];
      SumConcat(f, a, b');
      assert (a + b)[..|a + b| - 1] == a + b';
    }
  }

  lemma MultisetLength<T>(a: seq<T>, b: seq<T>)
    requires multiset(a) == multiset(b)
    ensures |a| == |b|
  {
    assert |multiset(a)| == |a| && |multiset(b)| == |b|;
  }

  /** The last item of a occurs in every reordering b; what is left is a reordering. */
  lemma RemoveLast<T>(a: seq<T>, b: seq<T>) returns (l: seq<T>, r: seq<T>)
    requires multiset(a) == multiset(b) && a != []
    ensures b == l + [a[|a| - 1]] + r
    ensures multiset(a[..|a| - 1]) == multiset(l + r)
  {
    var a', x := a[..|a| - 1], a[|a| - 1];
    assert a == a' + [x];
    assert x in multiset(b);
    var k :| 0 <= k < |b| && b[k] == x;
    l, r := b[..k], b[k + 1..];
    assert b == l + [x] + r;
    TakenOut(a', l, r, x);
  }

  lemma TakenOut<T>(a: seq<T>, l: seq<T>, r: seq<T>, x: T)
    requires multiset(a + [x]) == multiset(l + [x] + r)
    ensures multiset(a) == multiset(l + r)
  {
    assert multiset(a + [x]) == multiset(a) + multiset{x};
    assert multiset(l + [x] + r) == multiset(l + r) + multiset{x};
    assert multiset(a) == multiset(a + [x]) - multiset{x};
    assert multiset(l + r) == multiset(l + [x] + r) - multiset{x};
  }

  /** The converse: putting an item back anywhere keeps the reordering. */
  lemma JoinReordered<T>(a: seq<T>, x: seq<T>, l: seq<T>, r: seq<T>)
    requires multiset(a) == multiset(l + r)
    ensures multiset(a + x) == multiset(l + x + r)
  {
    assert multiset(l + r) == multiset(l) + multiset(r);
  }

  /** A sum does not depend on the order of its terms. */
  lemma {:induction false} SumPermutation<T>(f: T -> real, a: seq<T>, b: seq<T>)
    requires multiset(a) == multiset(b)
    ensures Sum(f, a) == Sum(f, b)
    decreases |a|
  {
    if a == [] {
      assert |multiset(b)| == 0;
      assert b == [];
    } else {
      var a', x := a[..|a| - 1], a[|a| - 1];
      var l, r := RemoveLast(a, b);
      SumPermutation(f, a', l + r);
      SumConcat(f, l, r);
      SumConcat(f, l, [x]);
      SumConcat(f, l + [x], r);
    }
  }

  lemma {:induction false} SumLinear<T(!new)>(h: T -> real, c: real, f: T -> real, d: real, g: T -> real, s: seq<T>)
    requires forall x :: x in s ==> h(x) == c * f(x) + d * g(x)
    ensures Sum(h, s) == c * Sum(f, s) + d * Sum(g, s)
  {
    if s != [] {
      var s', x := s[..|s| - 1], s[|s| - 1];
      SumLinear(h, c, f, d, g, s');
      assert x in s;
    }
  }

  lemma {:induction false} SumCong<T(!new)>(f: T -> real, g: T -> real, s: seq<T>)
    requires forall x :: x in s ==> f(x) == g(x)
    ensures Sum(f, s) == Sum(g, s)
  {
    SumLinear(f, 1.0, g, 0.0, g, s);
  }

  lemma {:induction false} SumMonotone<T(!new)>(f: T -> real, g: T -> real, s: seq<T>)
    requires forall x :: x in s ==> f(x) <= g(x)
    ensures Sum(f, s) <= Sum(g, s)
  {
    if s != [] {
      assert s[|s| - 1] in s;
      SumMonotone(f, g, s[..|s| - 1]);
    }
  }

  lemma {:induction false} SumConstant<T>(c: real, s: seq<T>)
    ensures Sum(Constant(c), s) == c * |s| as real
  {
    if s != [] {
      SumConstant(c, s[..|s| - 1]);
    }
  }

  lemma SquareNonNegative(u: real)
    ensures 0.0 <= u * u
  {
  }

  lemma SumOfSquaresNonNegative<T(!new)>(f: T -> real, s: seq<T>)
    ensures 0.0 <= Sum(Times(f, f), s)
  {
    SumConstant(0.0, s);
    SumMonotone(Constant(0.0), Times(f, f), s);
  }

  // Exchange of summations: rows of a two-argument function against its columns.

  function RowOf<A, B>(F: (A, B) -> real, a: A): B -> real {
    b => F(a, b)
  }

  function ColumnOf<A, B>(F: (A, B) -> real, b: B): A -> real {
    a => F(a, b)
  }

  function RowSums<A, B>(F: (A, B) -> real, t: seq<B>): A -> real {
    a => Sum(RowOf(F, a), t)
  }

  function ColumnSums<A, B>(F: (A, B) -> real, s: seq<A>): B -> real {
    b => Sum(ColumnOf(F, b), s)
  }

  lemma {:induction false} SumExchange<A(!new), B(!new)>(F: (A, B) -> real, s: seq<A>, t: seq<B>)
    ensures Sum(RowSums(F, t), s) == Sum(ColumnSums(F, s), t)
  {
    if t == [] {
      SumConstant(0.0, s);
      SumCong(RowSums(F, t), Constant(0.0), s);
    } else {
      var t', b := t[..|t| - 1], t[|t| - 1];
      SumExchange(F, s, t');
      SumLinear(RowSums(F, t), 1.0, RowSums(F, t'), 1.0, ColumnOf(F, b), s);
    }
  }

  /** The inductive step of the Cauchy-Schwarz inequality. */
  lemma CauchyStep(p: real, a: real, b: real, u: real, v: real)
    requires 0.0 <= a && 0.0 <= b && p * p <= a * b
    ensures (p + u * v) * (p + u * v) <= (a + u * u) * (b + v * v)
  {
    var m := u * v;
    var w := a * (v * v) + b * (u * u);
    assert 2.0 * p * m <= w by {
      var d := a * (v * v) - b * (u * u);
      assert w * w == d * d + 4.0 * ((a * b) * (m * m)) by { WeightedSquares(a, b, u, v); }
      MultiplyOrder(p * p, a * b, m * m);
      assert (2.0 * p * m) * (2.0 * p * m) == 4.0 * ((p * p) * (m * m));
      SquareOrder(2.0 * p * m, w);
    }
    assert (p + m) * (p + m) == p * p + 2.0 * p * m + m * m;
    assert (a + u * u) * (b + v * v) == a * b + w + m * m by { WeightedProduct(a, b, u, v); }
  }

  lemma WeightedSquares(a: real, b: real, u: real, v: real)
    ensures var w, d, m := a * (v * v) + b * (u * u), a * (v * v) - b * (u * u), u * v;
            w * w == d * d + 4.0 * ((a * b) * (m * m))
  {
    var s, t := a * (v * v), b * (u * u);
    assert (s + t) * (s + t) == (s - t) * (s - t) + 4.0 * (s * t);
    assert s * t == (a * b) * ((u * v) * (u * v));
  }

  lemma WeightedProduct(a: real, b: real, u: real, v: real)
    ensures (a + u * u) * (b + v * v) == a * b + (a * (v * v) + b * (u * u)) + (u * v) * (u * v)
  {
    assert (u * u) * (v * v) == (u * v) * (u * v);
  }

  lemma WholeShare(s: real, n: real)
    requires 0.0 < n
    ensures s / n * n == s
  {
  }

  lemma PositiveProduct(a: real, b: real)
    requires 0.0 < a && 0.0 < b
    ensures 0.0 < a * b
  {
  }

  lemma SquareOrder(z: real, w: real)
    requires 0.0 <= w && z * z <= w * w
    ensures z <= w
  {
    if w < z {
      assert z * z - w * w == (z - w) * (z + w);
      PositiveProduct(z - w, z + w);
    }
  }

  lemma MultiplyOrder(a: real, b: real, c: real)
    requires a <= b && 0.0 <= c
    ensures a * c <= b * c
  {
  }

  lemma {:induction false} CauchySchwarz<T(!new)>(f: T -> real, g: T -> real, s: seq<T>)
    ensures var p := Sum(Times(f, g), s); p * p <= Sum(Times(f, f), s) * Sum(Times(g, g), s)
  {
    if s != [] {
      var s', x := s[..|s| - 1], s[|s| - 1];
      CauchySchwarz(f, g, s');
      SumOfSquaresNonNegative(f, s');
      SumOfSquaresNonNegative(g, s');
      CauchyStep(Sum(Times(f, g), s'), Sum(Times(f, f), s'), Sum(Times(g, g), s'), f(x), g(x));
    }
  }
}
