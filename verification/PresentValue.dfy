/** Discounting of dated payments with rational exponents: `factor ** (days / period)`
    is the `days`-th power of the `period`-th root of `factor`. */
module PresentValue {
  import opened Seqs
  import opened Powers

  datatype Flow = Flow(days: nat, amount: real)

  type Roots = (real, nat) -> real

  function PeriodsPerYear(period: int): (ppy: real)
    requires period > 0
    ensures ppy > 0.0
  {
    365.0 / period as real
  }

  function Factor(rate: real, period: int): real
    requires period > 0
  {
    1.0 + rate / PeriodsPerYear(period)
  }

  /** The discount factor of one day: its `period`-th power is `Factor`. */
  function Daily(root: Roots, rate: real, period: nat): (g: real)
    requires TakesRoots(root) && period > 0 && Factor(rate, period) > 0.0
    ensures g > 0.0 && Pow(g, period) == Factor(rate, period)
  {
    root(Factor(rate, period), period)
  }

  function Discounted(g: real, f: Flow): real
    requires g > 0.0
  {
    PowPositive(g, f.days);
    f.amount / Pow(g, f.days)
  }

  /** The value of all payments at a daily factor. */
  function Worth(g: real, flows: seq<Flow>): real
    requires g > 0.0
  {
    if flows == [] then 0.0
    else Worth(g, flows[..|flows| - 1]) + Discounted(g, flows[|flows| - 1])
  }

  function Value(root: Roots, rate: real, flows: seq<Flow>, period: nat): real
    requires TakesRoots(root) && period > 0 && Factor(rate, period) > 0.0
  {
    Worth(Daily(root, rate, period), flows)
  }

  /** `_present_value`: the loop over the payments. */
  method PresentValue(root: Roots, rate: real, flows: seq<Flow>, period: nat) returns (pv: real)
    requires TakesRoots(root) && period > 0 && Factor(rate, period) > 0.0
    ensures pv == Value(root, rate, flows, period)
  {
    var g := root(Factor(rate, period), period);
    pv := 0.0;
    for i := 0 to |flows|
      invariant pv == Worth(g, flows[..i])
    {
      assert flows[..i + 1][..i] == flows[..i];
      pv := pv + Discounted(g, flows[i]);
    }
    assert flows[..|flows|] == flows;
  }

  // ---------------------------------------------------------------- strictly decreasing

  ghost predicate Paying(flows: seq<Flow>) {
    && (forall f :: f in flows ==> f.amount >= 0.0 && f.days > 0)
    && (exists f :: f in flows && f.amount > 0.0)
  }

  lemma DiscountedDecreases(g: real, h: real, f: Flow)
    requires 0.0 < g < h && f.amount >= 0.0 && f.days > 0
    ensures Discounted(g, f) >= Discounted(h, f)
    ensures f.amount > 0.0 ==> Discounted(g, f) > Discounted(h, f)
  {
    PowPositive(g, f.days);
    PowMonotone(g, h, f.days);
    QuotientsOrdered(f.amount, Pow(g, f.days), Pow(h, f.days));
  }

  lemma QuotientsOrdered(a: real, x: real, y: real)
    requires a >= 0.0 && 0.0 < x < y
    ensures a / x >= a / y
    ensures a > 0.0 ==> a / x > a / y
  {
    var u, v := a / x, a / y;
    assert u * x == a && v * y == a;
    assert (u - v) * x == v * (y - x);
    assert v >= 0.0 && (a > 0.0 ==> v > 0.0);
    assert v * (y - x) >= 0.0 && (a > 0.0 ==> v * (y - x) > 0.0);
    SignOfFactor(u - v, x);
  }

  lemma SignOfFactor(k: real, x: real)
    requires x > 0.0
    ensures k * x >= 0.0 ==> k >= 0.0
    ensures k * x > 0.0 ==> k > 0.0
  {
  }

  lemma {:induction false} WorthDecreases(g: real, h: real, flows: seq<Flow>)
    requires 0.0 < g < h && forall f :: f in flows ==> f.amount >= 0.0 && f.days > 0
    ensures Worth(g, flows) >= Worth(h, flows)
    ensures Paying(flows) ==> Worth(g, flows) > Worth(h, flows)
  {
    if flows != [] {
      var front, last := flows[..|flows| - 1], flows[|flows| - 1];
      assert last in flows;
      WorthDecreases(g, h, front);
      DiscountedDecreases(g, h, last);
      if Paying(flows) && !(last.amount > 0.0) {
        var f :| f in flows && f.amount > 0.0;
        assert f in front;
      }
    }
  }

  lemma FactorIncreases(r: real, s: real, period: int)
    requires period > 0 && r < s
    ensures Factor(r, period) < Factor(s, period)
    ensures Factor(s, period) - Factor(r, period) == (s - r) / PeriodsPerYear(period)
  {
    var ppy := PeriodsPerYear(period);
    assert ppy > 0.0;
    DifferenceOfQuotients(r, s, ppy);
  }

  lemma DifferenceOfQuotients(r: real, s: real, d: real)
    requires d > 0.0
    ensures s / d - r / d == (s - r) / d
    ensures r < s ==> r / d < s / d
  {
    var u, v := r / d, s / d;
    assert u * d == r && v * d == s;
    assert (v - u) * d == s - r;
  }

  /** The present value of future payments strictly decreases in the rate. */
  lemma ValueDecreases(root: Roots, r: real, s: real, flows: seq<Flow>, period: nat)
    requires TakesRoots(root) && period > 0 && 0.0 < Factor(r, period) && r < s && Paying(flows)
    ensures Factor(s, period) > 0.0
    ensures Value(root, r, flows, period) > Value(root, s, flows, period)
  {
    FactorIncreases(r, s, period);
    RootMonotone(root, Factor(r, period), Factor(s, period), period);
    WorthDecreases(Daily(root, r, period), Daily(root, s, period), flows);
  }

  /** Hence at most one rate gives a price. */
  lemma YieldIsUnique(root: Roots, r: real, s: real, flows: seq<Flow>, period: nat)
    requires TakesRoots(root) && period > 0 && Factor(r, period) > 0.0 && Factor(s, period) > 0.0 && Paying(flows)
    requires Value(root, r, flows, period) == Value(root, s, flows, period)
    ensures r == s
  {
    if r < s {
      ValueDecreases(root, r, s, flows, period);
    } else if s < r {
      ValueDecreases(root, s, r, flows, period);
    }
  }

  // ---------------------------------------------------------------- the derivative

  /** One term of the derivative, as the code computes it; the exponent
      `periods + 1` is `(days + period) / period`. */
  function Slope(g: real, f: Flow, period: nat): real
    requires g > 0.0 && period > 0
  {
    PowPositive(g, f.days + period);
    SlopeTerm(f.amount, f.days as real / period as real, PeriodsPerYear(period), Pow(g, f.days + period))
  }

  function SlopeTerm(amount: real, periods: real, ppy: real, power: real): real
    requires ppy > 0.0 && power > 0.0
  {
    -amount * periods / (ppy * power)
  }

  function Slopes(g: real, flows: seq<Flow>, period: nat): real
    requires g > 0.0 && period > 0
  {
    if flows == [] then 0.0
    else Slopes(g, flows[..|flows| - 1], period) + Slope(g, flows[|flows| - 1], period)
  }

  function Derivative(root: Roots, rate: real, flows: seq<Flow>, period: nat): real
    requires TakesRoots(root) && period > 0 && Factor(rate, period) > 0.0
  {
    Slopes(Daily(root, rate, period), flows, period)
  }

  method PresentValueDerivative(root: Roots, rate: real, flows: seq<Flow>, period: nat) returns (derivative: real)
    requires TakesRoots(root) && period > 0 && Factor(rate, period) > 0.0
    ensures derivative == Derivative(root, rate, flows, period)
  {
    var g := root(Factor(rate, period), period);
    derivative := 0.0;
    for i := 0 to |flows|
      invariant derivative == Slopes(g, flows[..i], period)
    {
      assert flows[..i + 1][..i] == flows[..i];
      derivative := derivative + Slope(g, flows[i], period);
    }
    assert flows[..|flows|] == flows;
  }

  lemma SlopeSign(g: real, f: Flow, period: nat)
    requires g > 0.0 && period > 0 && f.amount >= 0.0 && f.days > 0
    ensures Slope(g, f, period) <= 0.0
    ensures f.amount > 0.0 ==> Slope(g, f, period) < 0.0
  {
    PowPositive(g, f.days + period);
    var periods := f.days as real / period as real;
    var below := PeriodsPerYear(period) * Pow(g, f.days + period);
    assert periods > 0.0 && below > 0.0;
    NegativeQuotient(f.amount, periods, below);
  }

  lemma NegativeQuotient(a: real, b: real, c: real)
    requires a >= 0.0 && b > 0.0 && c > 0.0
    ensures -a * b / c <= 0.0
    ensures a > 0.0 ==> -a * b / c < 0.0
  {
    var q := -a * b / c;
    assert -q * c == a * b;
    assert a * b >= 0.0 && (a > 0.0 ==> a * b > 0.0);
    SignOfFactor(-q, c);
  }

  lemma {:induction false} SlopesSign(g: real, flows: seq<Flow>, period: nat)
    requires g > 0.0 && period > 0 && forall f :: f in flows ==> f.amount >= 0.0 && f.days > 0
    ensures Slopes(g, flows, period) <= 0.0
    ensures Paying(flows) ==> Slopes(g, flows, period) < 0.0
  {
    if flows != [] {
      var front, last := flows[..|flows| - 1], flows[|flows| - 1];
      assert last in flows;
      SlopesSign(g, front, period);
      SlopeSign(g, last, period);
      if Paying(flows) && !(last.amount > 0.0) {
        var f :| f in flows && f.amount > 0.0;
        assert f in front;
      }
    }
  }

  /** 1/X >= 1 - s (Y - 1) */
  predicate Supported(s: real, X: real, Y: real)
    requires X != 0.0
  {
    1.0 / X >= 1.0 - s * (Y - 1.0)
  }

  /** The weighted mean inequality, divided by its weight. */
  lemma TangentDivided(P: real, D: real, X: real, Y: real)
    requires P > 0.0 && X > 0.0 && TangentHolds(P, D, X, Y)
    ensures Supported(D / P, X, Y)
  {
    var u, v := 1.0 / X, D / P;
    assert u * X == 1.0 && v * P == D;
    assert (P + D * (Y * X) - (P + D) * X) == P * X * (u - 1.0 + v * (Y - 1.0)) by {
      assert P * X * u == P;
      assert P * X * (v * (Y - 1.0)) == D * (X * (Y - 1.0));
    }
    assert P * X > 0.0;
    SignOfFactor(u - 1.0 + v * (Y - 1.0), P * X);
  }

  /** The factors of two rates that are `move` apart. */
  predicate Apart(F: real, K: real, move: real, ppy: real)
    requires ppy > 0.0
  {
    K - F == move / ppy
  }

  /** The powers of `h` are those of `g` times those of their ratio. */
  lemma PowersOfRatio(g: real, h: real, d: nat, period: nat) returns (x: real)
    requires g > 0.0 && h > 0.0
    ensures x > 0.0 && Pow(x, d) > 0.0 && Pow(g, d) > 0.0 && Pow(g, period) > 0.0
    ensures Pow(h, d) > 0.0 && Pow(g, d + period) > 0.0
    ensures Pow(h, d) == Times(Pow(x, d), Pow(g, d)) && Pow(h, period) == Times(Pow(x, period), Pow(g, period))
    ensures Pow(g, d + period) == Times(Pow(g, d), Pow(g, period))
  {
    x := h / g;
    assert x * g == h;
    assert x > 0.0;
    PowOfProduct(x, g, d);
    PowOfProduct(x, g, period);
    PowAdd(g, d, period);
    PowPositive(g, d);
    PowPositive(g, period);
    PowPositive(x, d);
    PowPositive(h, d);
    PowPositive(g, d + period);
  }

  lemma PowersSupported(x: real, period: nat, d: nat)
    requires x > 0.0 && period > 0
    ensures Pow(x, d) > 0.0 && Supported(d as real / period as real, Pow(x, d), Pow(x, period))
  {
    PowPositive(x, d);
    TangentBelow(x, period, d);
    TangentDivided(period as real, d as real, Pow(x, d), Pow(x, period));
  }

  /** One discounted payment lies above its tangent. */
  lemma FlowAboveTangent(g: real, h: real, f: Flow, period: nat, move: real)
    requires g > 0.0 && h > 0.0 && period > 0 && f.amount >= 0.0
    requires Apart(Pow(g, period), Pow(h, period), move, PeriodsPerYear(period))
    ensures AboveLine(Discounted(h, f), Discounted(g, f), Slope(g, f, period), move)
  {
    var d := f.days;
    var x := PowersOfRatio(g, h, d, period);
    PowersSupported(x, period, d);
    ScaleTangent(f.amount, Pow(g, d), Pow(g, period), Pow(x, d), Pow(x, period), Pow(h, d), Pow(h, period),
                 Pow(g, d + period), d as real / period as real, PeriodsPerYear(period), move);
  }

  lemma ScaleTangent(a: real, G: real, F: real, X: real, Y: real, H: real, K: real, GF: real,
      periods: real, ppy: real, move: real)
    requires a >= 0.0 && G > 0.0 && F > 0.0 && X > 0.0 && ppy > 0.0 && H > 0.0 && GF > 0.0
    requires H == Times(X, G) && K == Times(Y, F) && GF == Times(G, F)
    requires Apart(F, K, move, ppy) && Supported(periods, X, Y)
    ensures AboveLine(a / H, a / G, SlopeTerm(a, periods, ppy, GF), move)
  {
    var w := a / G;
    assert w * G == a && w >= 0.0;
    assert a / H == w * (1.0 / X) by {
      assert w * (1.0 / X) * H == a;
    }
    assert move == ppy * (F * (Y - 1.0));
    TangentTerm(a, G, F, Y, periods, ppy, w);
    var above := 1.0 / X - (1.0 - periods * (Y - 1.0));
    assert above >= 0.0;
    assert w * above >= 0.0;
    assert w * above == w * (1.0 / X) - w + w * (periods * (Y - 1.0));
  }

  lemma TangentTerm(a: real, G: real, F: real, Y: real, periods: real, ppy: real, w: real)
    requires G > 0.0 && F > 0.0 && ppy > 0.0 && w * G == a
    ensures (-a * periods / (ppy * (G * F))) * (ppy * (F * (Y - 1.0))) == -(w * (periods * (Y - 1.0)))
  {
    var below := ppy * (G * F);
    assert below > 0.0;
    var q := -a * periods / below;
    assert q * below == -a * periods;
    assert q * (ppy * F) * G == -(w * periods) * G;
    assert q * (ppy * F) == -(w * periods);
    assert q * (ppy * (F * (Y - 1.0))) == q * (ppy * F) * (Y - 1.0);
  }

  lemma {:induction false} WorthAboveTangent(g: real, h: real, flows: seq<Flow>, period: nat, move: real)
    requires g > 0.0 && h > 0.0 && period > 0
    requires forall f :: f in flows ==> f.amount >= 0.0
    requires Apart(Pow(g, period), Pow(h, period), move, PeriodsPerYear(period))
    ensures AboveLine(Worth(h, flows), Worth(g, flows), Slopes(g, flows, period), move)
  {
    if flows != [] {
      var front, last := flows[..|flows| - 1], flows[|flows| - 1];
      assert last in flows;
      WorthAboveTangent(g, h, front, period, move);
      FlowAboveTangent(g, h, last, period, move);
      AddTangents(Slopes(g, front, period), Slope(g, last, period), move);
    }
  }

  lemma AddTangents(a: real, b: real, move: real)
    ensures (a + b) * move == a * move + b * move
  {
  }

  /** The computed derivative supports the present value from below: the price
      curve is convex and never lies under the line Newton's method follows. */
  lemma ValueAboveTangent(root: Roots, r: real, s: real, flows: seq<Flow>, period: nat)
    requires TakesRoots(root) && period > 0 && Factor(r, period) > 0.0 && Factor(s, period) > 0.0
    requires forall f :: f in flows ==> f.amount >= 0.0
    ensures AboveLine(Value(root, s, flows, period), Value(root, r, flows, period),
                      Derivative(root, r, flows, period), s - r)
  {
    DifferenceOfQuotients(r, s, PeriodsPerYear(period));
    WorthAboveTangent(Daily(root, r, period), Daily(root, s, period), flows, period, s - r);
  }
}
