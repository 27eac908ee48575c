/** Integer powers and, given a function that takes n-th roots, rational powers
    of positive reals. */
module Powers {

  function Pow(x: real, n: nat): real
  {
    if n == 0 then 1.0 else x * Pow(x, n - 1)
  }

  /** `root(a, n)` is the positive n-th root of a positive `a`. Division and
      multiplication alone do not define it, so it is a parameter; by
      `PowInjective` there is only one such function on positive arguments. */
  ghost predicate TakesRoots(root: (real, nat) -> real) {
    forall a: real, n: nat :: a > 0.0 && n > 0 ==> root(a, n) > 0.0 && Pow(root(a, n), n) == a
  }

  lemma {:induction false} PowPositive(x: real, n: nat)
    requires x > 0.0
    ensures Pow(x, n) > 0.0
  {
    if n > 0 {
      PowPositive(x, n - 1);
    }
  }

  lemma {:induction false} PowMonotone(x: real, y: real, n: nat)
    requires 0.0 < x < y && n > 0
    ensures Pow(x, n) < Pow(y, n)
  {
    PowPositive(x, n - 1);
    if n > 1 {
      PowMonotone(x, y, n - 1);
    }
    ProductsOrdered(x, y, Pow(x, n - 1), Pow(y, n - 1));
  }

  lemma ProductsOrdered(a: real, b: real, c: real, d: real)
    requires 0.0 < a < b && 0.0 < c <= d
    ensures a * c < b * d
  {
    TimesPositive(a, b, c);
    if c < d {
      TimesPositive(c, d, b);
    }
  }

  lemma TimesPositive(a: real, b: real, c: real)
    requires a < b && c > 0.0
    ensures a * c < b * c && c * a < c * b
  {
    assert (b - a) * c > 0.0;
  }

  /** Positive numbers with the same n-th power are the same. */
  lemma PowInjective(x: real, y: real, n: nat)
    requires x > 0.0 && y > 0.0 && n > 0 && Pow(x, n) == Pow(y, n)
    ensures x == y
  {
    if x < y {
      PowMonotone(x, y, n);
    } else if y < x {
      PowMonotone(y, x, n);
    }
  }

  lemma {:induction false} PowOfOne(n: nat)
    ensures Pow(1.0, n) == 1.0
  {
    if n > 0 {
      PowOfOne(n - 1);
    }
  }

  lemma {:induction false} PowAdd(x: real, m: nat, n: nat)
    ensures Pow(x, m + n) == Pow(x, m) * Pow(x, n)
  {
    if m > 0 {
      PowAdd(x, m - 1, n);
      Associate(x, Pow(x, m - 1), Pow(x, n));
    }
  }

  lemma Associate(a: real, b: real, c: real)
    ensures a * (b * c) == a * b * c
  {
  }

  lemma OneFewer(m: nat, n: nat)
    requires n > 0
    ensures m * n == m + m * (n - 1)
  {
  }

  lemma {:induction false} PowOfPow(x: real, m: nat, n: nat)
    ensures Pow(x, m * n) == Pow(Pow(x, m), n)
  {
    if n > 0 {
      PowOfPow(x, m, n - 1);
      OneFewer(m, n);
      PowAdd(x, m, m * (n - 1));
    }
  }

  lemma {:induction false} PowOfProduct(x: real, y: real, n: nat)
    ensures Pow(x * y, n) == Pow(x, n) * Pow(y, n)
  {
    if n > 0 {
      PowOfProduct(x, y, n - 1);
      Interchange(x, y, Pow(x, n - 1), Pow(y, n - 1));
    }
  }

  lemma Interchange(a: real, b: real, c: real, d: real)
    ensures a * b * (c * d) == a * c * (b * d)
  {
    assert a * b * (c * d) == a * (b * c) * d;
  }

  /** A larger number has the larger root. */
  lemma RootMonotone(root: (real, nat) -> real, a: real, b: real, n: nat)
    requires TakesRoots(root) && 0.0 < a < b && n > 0
    ensures 0.0 < root(a, n) < root(b, n)
  {
    if root(b, n) < root(a, n) {
      PowMonotone(root(b, n), root(a, n), n);
    }
  }

  /** Taking the n-th root undoes the n-th power. */
  lemma RootOfPow(root: (real, nat) -> real, x: real, n: nat)
    requires TakesRoots(root) && x > 0.0 && n > 0
    ensures root(Pow(x, n), n) == x
  {
    PowPositive(x, n);
    PowInjective(root(Pow(x, n), n), x, n);
  }

  // ---------------------------------------------------------------- a weighted mean inequality

  /** 1 + x + ... + x^(n-1) */
  function Geometric(x: real, n: nat): real
  {
    if n == 0 then 0.0 else Geometric(x, n - 1) + Pow(x, n - 1)
  }

  lemma {:induction false} GeometricSum(x: real, n: nat)
    ensures SumsTo(x - 1.0, Geometric(x, n), Pow(x, n))
  {
    if n > 0 {
      GeometricSum(x, n - 1);
      Distribute(x, Geometric(x, n - 1), Pow(x, n - 1));
    }
  }

  lemma Distribute(x: real, s: real, p: real)
    ensures (x - 1.0) * (s + p) == (x - 1.0) * s + (x * p - p)
  {
  }

  lemma {:induction false} GeometricAboveOne(x: real, n: nat, d: nat)
    requires x >= 1.0 && n <= d
    ensures Geometric(x, n) >= n as real
    ensures Pow(x, d) >= 1.0
    ensures Geometric(x, n) <= Times(n as real, Pow(x, d))
  {
    PowGrows(x, 0, d);
    if n > 0 {
      GeometricAboveOne(x, n - 1, d);
      PowGrows(x, 0, n - 1);
      PowGrows(x, n - 1, d);
      assert n as real * Pow(x, d) == (n - 1) as real * Pow(x, d) + Pow(x, d);
    }
  }

  lemma {:induction false} PowGrows(x: real, m: nat, n: nat)
    requires x >= 1.0 && m <= n
    ensures 1.0 <= Pow(x, m) <= Pow(x, n)
    decreases n
  {
    if n > m {
      PowGrows(x, m, n - 1);
      assert (x - 1.0) * Pow(x, n - 1) >= 0.0;
    } else if n > 0 {
      PowGrows(x, m - 1, n - 1);
      assert (x - 1.0) * Pow(x, n - 1) >= 0.0;
    }
  }

  lemma {:induction false} GeometricBelowOne(x: real, n: nat, d: nat)
    requires 0.0 < x <= 1.0 && n <= d
    ensures Geometric(x, n) <= n as real
    ensures 0.0 < Pow(x, d) <= 1.0
    ensures Geometric(x, n) >= Times(n as real, Pow(x, d))
  {
    PowShrinks(x, 0, d);
    if n > 0 {
      GeometricBelowOne(x, n - 1, d);
      PowShrinks(x, 0, n - 1);
      PowShrinks(x, n - 1, d);
      assert n as real * Pow(x, d) == (n - 1) as real * Pow(x, d) + Pow(x, d);
    }
  }

  lemma {:induction false} PowShrinks(x: real, m: nat, n: nat)
    requires 0.0 < x <= 1.0 && m <= n
    ensures 0.0 < Pow(x, n) <= Pow(x, m) <= 1.0
    decreases n
  {
    if n > m {
      PowShrinks(x, m, n - 1);
      assert (1.0 - x) * Pow(x, n - 1) >= 0.0;
      assert x * Pow(x, n - 1) > 0.0;
    } else if n > 0 {
      PowShrinks(x, m - 1, n - 1);
      assert (1.0 - x) * Pow(x, n - 1) >= 0.0;
      assert x * Pow(x, n - 1) > 0.0;
    }
  }

  function Times(n: real, x: real): real {
    n * x
  }

  function Gap(y: real, D: real, P: real, X: real, sp: real, sd: real): real {
    y * (D * X * sp - P * sd)
  }

  predicate SumsTo(y: real, s: real, v: real) {
    y * s == v - 1.0
  }

  /** D (Y X) + P >= (P + D) X */
  predicate TangentHolds(P: real, D: real, X: real, Y: real) {
    P + D * (Y * X) >= (P + D) * X
  }

  /** p + d x^(p+d) >= (p + d) x^d: the tangent of x^(-d/p) at 1 lies below it. */
  lemma TangentBelow(x: real, p: nat, d: nat)
    requires x > 0.0
    ensures TangentHolds(p as real, d as real, Pow(x, d), Pow(x, p))
  {
    GeometricSum(x, p);
    GeometricSum(x, d);
    if x >= 1.0 {
      SumAboveOne(x, p);
      GeometricAboveOne(x, d, d);
      GapAbove(x - 1.0, d as real, p as real, Pow(x, d), Geometric(x, p), Geometric(x, d));
    } else {
      SumBelowOne(x, p);
      GeometricBelowOne(x, d, d);
      GapBelow(x - 1.0, d as real, p as real, Pow(x, d), Geometric(x, p), Geometric(x, d));
    }
    TangentFrom(x, p as real, d as real, Pow(x, d), Pow(x, p), Geometric(x, p), Geometric(x, d));
  }

  lemma SumAboveOne(x: real, n: nat)
    requires x >= 1.0
    ensures Geometric(x, n) >= n as real
  {
    GeometricAboveOne(x, n, n);
  }

  lemma SumBelowOne(x: real, n: nat)
    requires 0.0 < x <= 1.0
    ensures Geometric(x, n) <= n as real
  {
    GeometricBelowOne(x, n, n);
  }

  lemma TangentFrom(x: real, P: real, D: real, X: real, Y: real, sp: real, sd: real)
    requires SumsTo(x - 1.0, sp, Y) && SumsTo(x - 1.0, sd, X)
    requires Gap(x - 1.0, D, P, X, sp, sd) >= 0.0
    ensures TangentHolds(P, D, X, Y)
  {
    Regroup(x, P, D, X, sp, sd);
    Expand(P, D, X, Y);
  }

  lemma GapAbove(y: real, D: real, P: real, X: real, sp: real, sd: real)
    requires y >= 0.0 && D >= 0.0 && P >= 0.0 && X >= 1.0 && sp >= P && sd <= Times(D, X)
    ensures Gap(y, D, P, X, sp, sd) >= 0.0
  {
    var DX := D * X;
    assert DX >= 0.0;
    assert DX * (sp - P) >= 0.0;
    assert P * (DX - sd) >= 0.0;
    assert DX * sp - P * sd == DX * (sp - P) + P * (DX - sd);
  }

  lemma GapBelow(y: real, D: real, P: real, X: real, sp: real, sd: real)
    requires y <= 0.0 && D >= 0.0 && P >= 0.0 && 0.0 < X && sp <= P && sd >= Times(D, X)
    ensures Gap(y, D, P, X, sp, sd) >= 0.0
  {
    var DX := D * X;
    assert DX >= 0.0;
    assert DX * (P - sp) >= 0.0;
    assert P * (sd - DX) >= 0.0;
    assert P * sd - DX * sp == DX * (P - sp) + P * (sd - DX);
    assert (-y) * (P * sd - DX * sp) >= 0.0;
    assert y * (DX * sp - P * sd) == (-y) * (P * sd - DX * sp);
  }

  lemma Regroup(x: real, P: real, D: real, X: real, sp: real, sd: real)
    ensures (x - 1.0) * (D * X * sp - P * sd) == D * X * ((x - 1.0) * sp) - P * ((x - 1.0) * sd)
  {
    var y := x - 1.0;
    assert y * (D * X * sp) == D * X * (y * sp);
    assert y * (P * sd) == P * (y * sd);
  }

  lemma Expand(P: real, D: real, X: real, Y: real)
    ensures D * X * (Y - 1.0) - P * (X - 1.0) == P + D * (Y * X) - (P + D) * X
  {
    assert D * X * (Y - 1.0) == D * (Y * X) - D * X;
  }

  /** `value` is not below the line through `base` with slope `slope`, `move` further on. */
  predicate AboveLine(value: real, base: real, slope: real, move: real) {
    value >= base + slope * move
  }

  lemma ShiftedAboveLine(value: real, base: real, slope: real, move: real, shift: real)
    requires AboveLine(value, base, slope, move)
    ensures AboveLine(value - shift, base - shift, slope, move)
  {
  }
}
