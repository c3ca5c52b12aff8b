/** Facts about products and quotients of reals, each on its own so that the solver sees nothing else. */
module Reals {

  function Abs(x: real): real {
    if x < 0.0 then -x else x
  }

  function Min(a: real, b: real): real {
    if b < a then b else a
  }

  function Max(a: real, b: real): real {
    if a < b then b else a
  }

  lemma NonNegative(a: real, b: real)
    requires a >= 0.0 && b >= 0.0
    ensures a * b >= 0.0
  {
  }

  lemma Positive(a: real, b: real)
    requires a > 0.0 && b > 0.0
    ensures a * b > 0.0
  {
  }

  lemma Distribute(a: real, b: real, c: real)
    ensures (a + b) * c == a * c + b * c
    ensures (a - b) * c == a * c - b * c
  {
  }

  lemma Commute(a: real, b: real)
    ensures a * b == b * a
  {
  }

  lemma Associate(a: real, b: real, c: real)
    ensures a * b * c == a * (b * c)
  {
  }

  lemma Monotone(x: real, y: real, k: real)
    requires x <= y && k >= 0.0
    ensures x * k <= y * k
  {
    NonNegative(y - x, k);
    Distribute(y, x, k);
  }

  lemma Strict(x: real, y: real, k: real)
    requires x < y && k > 0.0
    ensures x * k < y * k
  {
    Positive(y - x, k);
    Distribute(y, x, k);
  }

  lemma Quotient(x: real, k: real)
    requires k != 0.0
    ensures x / k * k == x
  {
  }

  /** Multiplying through by a positive number keeps both directions of an inequality. */
  lemma Through(x: real, y: real, k: real)
    requires k > 0.0
    ensures x <= y <==> x * k <= y * k
  {
    if x <= y {
      Monotone(x, y, k);
    } else {
      Strict(y, x, k);
    }
  }

  lemma Divide(x: real, y: real, k: real)
    requires k > 0.0
    ensures x / k <= y <==> x <= y * k
    ensures y <= x / k <==> y * k <= x
  {
    var q := x / k;
    Quotient(x, k);
    assert q * k == x;
    Through(q, y, k);
    Through(y, q, k);
  }

  lemma Square(x: real)
    ensures x * x >= 0.0
  {
    if x >= 0.0 {
      NonNegative(x, x);
    } else {
      NonNegative(-x, -x);
      assert (-x) * (-x) == x * x;
    }
  }

  lemma SquareMonotone(x: real, y: real)
    requires 0.0 <= x <= y
    ensures x * x <= y * y
  {
    Monotone(x, y, x);
    Monotone(x, y, y);
    Commute(x, y);
  }

  lemma AbsProduct(x: real, k: real)
    requires k >= 0.0
    ensures Abs(x) * k == Abs(x * k)
  {
    if x >= 0.0 {
      NonNegative(x, k);
    } else {
      NonNegative(-x, k);
      assert (-x) * k == -(x * k);
    }
  }

  lemma AbsSquare(x: real)
    ensures Abs(x) * Abs(x) == x * x
  {
    if x < 0.0 {
      assert (-x) * (-x) == x * x;
    }
  }

  lemma RescaledDifference(p: real, q: real, x: real, y: real, m: real)
    requires m > 0.0 && p * m == x && q * m == y
    ensures Abs(p - q) * m == Abs(x - y)
  {
    Distribute(p, q, m);
    AbsProduct(p - q, m);
  }

  lemma DifferenceOfQuotients(x: real, y: real, m: real)
    requires m > 0.0
    ensures Abs(x / m - y / m) * m == Abs(x - y)
  {
    Quotient(x, m);
    Quotient(y, m);
    RescaledDifference(x / m, y / m, x, y, m);
  }

  /** (m / n) * gap, scaled by n. */
  lemma WeightedShare(m: real, n: real, gap: real)
    requires n > 0.0
    ensures m / n * gap * n == gap * m
  {
    var q := m / n;
    Quotient(m, n);
    Associate(q, gap, n);
    Commute(gap, n);
    Associate(q, n, gap);
    Commute(m, gap);
  }

  lemma Binomial(a: real, b: real)
    ensures (a + b) * (a + b) == a * a + 2.0 * (a * b) + b * b
    ensures (a - b) * (a - b) == a * a - 2.0 * (a * b) + b * b
  {
    Distribute(a, b, a + b);
    Distribute(a, b, a - b);
    Distribute(a, b, a);
    Distribute(a, b, b);
    Commute(a, b);
    Commute(a, a + b);
    Commute(b, a + b);
    Commute(a, a - b);
    Commute(b, a - b);
  }

  lemma PullOut(s: real, n: real, x: real)
    ensures s * (n * x) == n * (s * x)
  {
    Associate(s, n, x);
    Associate(n, s, x);
    Commute(s, n);
  }

  /** From (s - n x)^2 >= 0, divided by n. */
  lemma CrossTerm(s: real, q: real, x: real, n: real)
    requires n > 0.0 && s * s <= n * q
    ensures 2.0 * (s * x) <= n * (x * x) + q
  {
    var sx, nxx, y := s * x, n * (x * x), n * x;
    var cross, square, nq, ss, yy := n * sx, n * nxx, n * q, s * s, y * y;
    assert ss - 2.0 * cross + yy >= 0.0 by {
      Square(s - y);
      Binomial(s, y);
      PullOut(s, n, x);
    }
    assert yy == square by {
      PullOut(n * x, n, x);
      Associate(n, x, x);
    }
    var slack := nxx + q - 2.0 * sx;
    assert slack * n == square + nq - 2.0 * cross by {
      Distribute(nxx + q, 2.0 * sx, n);
      Distribute(nxx, q, n);
      Associate(2.0, sx, n);
      Commute(sx, n);
      Commute(nxx, n);
      Commute(q, n);
    }
    Through(0.0, slack, n);
  }

  /** The induction step of (sum of x)^2 <= n * (sum of x^2). */
  lemma CauchyStep(s: real, q: real, x: real, n: real)
    requires n > 0.0 && s * s <= n * q
    ensures (s + x) * (s + x) <= (n + 1.0) * (q + x * x)
  {
    var sx, xx, ss, nq, nxx := s * x, x * x, s * s, n * q, n * (x * x);
    assert 2.0 * sx <= nxx + q by {
      CrossTerm(s, q, x, n);
    }
    assert (s + x) * (s + x) == ss + 2.0 * sx + xx by {
      Binomial(s, x);
    }
    assert (n + 1.0) * (q + xx) == nq + nxx + q + xx by {
      Distribute(n, 1.0, q + xx);
      Distribute(q, xx, n);
      Commute(n, q + xx);
      Commute(n, q);
      Commute(n, xx);
    }
  }

  /** From s <= n * m and s^2 <= n * q to m^2 <= q / n, for s = n * m. */
  lemma MeanSquare(s: real, q: real, n: real)
    requires n > 0.0 && s * s <= n * q
    ensures s / n * (s / n) <= q / n
  {
    var m, b := s / n, q / n;
    Quotient(s, n);
    Quotient(q, n);
    assert m * n == s && b * n == q;
    assert s * s == m * m * n * n;
    assert n * q == b * n * n;
    Through(m * m * n, b * n, n);
    Through(m * m, b, n);
  }

  /** A weighted difference of means, scaled back by the sample size. */
  lemma ShareScaled(conf: real, hit: real, m: real, n: real)
    requires m > 0.0 && n > 0.0
    ensures m / n * Abs(conf / m - hit / m) * n == Abs(conf - hit)
  {
    DifferenceOfQuotients(conf, hit, m);
    WeightedShare(m, n, Abs(conf / m - hit / m));
  }

  lemma MeansBetween(conf: real, hit: real, total: real, middle: real, n: real)
    requires n > 0.0 && Abs(conf - hit) <= middle * n <= total
    ensures Abs(conf / n - hit / n) <= middle <= total / n
  {
    DifferenceOfQuotients(conf, hit, n);
    Through(Abs(conf / n - hit / n), middle, n);
    Divide(total, middle, n);
  }
}
