/** Bonds with a coupon period above 730 days whose payments are all whole periods away.
    Their price curve has a pole inside the bounds, at the rate where the discount factor
    is zero, and the bisection works across it. */
module LongPeriods {
  import opened Seqs
  import opened Powers
  import opened PresentValue
  import opened Pricing
  import opened Solver
  import opened Ytm
  import G = Grid

  /** The rate at which the discount factor is zero. */
  function Pole(period: nat): real
    requires period > 0
  {
    -PeriodsPerYear(period)
  }

  lemma FactorAtPole(r: real, period: nat)
    requires period > 0
    ensures Factor(r, period) == 0.0 <==> r == Pole(period)
    ensures Factor(r, period) > 0.0 <==> r > Pole(period)
  {
    var ppy := PeriodsPerYear(period);
    var q := r / ppy;
    assert q * ppy == r;
    assert (q + 1.0) * ppy == r + ppy;
    if q + 1.0 > 0.0 {
      assert (q + 1.0) * ppy > 0.0;
    } else {
      assert (-(q + 1.0)) * ppy >= 0.0;
      SignOfFactor(-(q + 1.0), ppy);
    }
  }

  // ---------------------------------------------------------------- bisection of a curve with gaps

  /** A bracket with a sign change inside it, on a curve that may raise in between. */
  predicate Crosses(curve: Curve, low: real, high: real) {
    && low < high && curve(low).Some? && curve(high).Some?
    && curve(low).value != 0.0 && !Alike(curve(low).value, curve(high).value)
  }

  predicate Met(curve: Curve, rate: real) {
    curve(rate).Some? && Abs(curve(rate).value) < TOLERANCE
  }

  predicate Bracketed(curve: Curve, rate: real, low: real, high: real) {
    Crosses(curve, low, high) && high - low < MIN_WIDTH && low < rate < high && LOW <= low && high <= HIGH
  }

  lemma {:induction false} SearchFromSound(curve: Curve, low: real, high: real, left: nat, more: nat)
    requires Crosses(curve, low, high) && LOW <= low && high <= HIGH
    requires left > 0 && high - low < MIN_WIDTH * Pow(2.0, left - 1)
    ensures var result := SearchFrom(curve, low, curve(low).value, high, left + more);
      && !result.GaveUp?
      && (result.Found? ==>
            low < result.rate < high && (Met(curve, result.rate) || exists a, b :: Bracketed(curve, result.rate, a, b)))
    decreases left
  {
    var mid := (low + high) / 2.0;
    assert low < mid < high;
    SearchStep(curve, low, curve(low).value, high, left + more);
    if curve(mid).Some? {
      if high - low < MIN_WIDTH {
        assert Bracketed(curve, mid, low, high);
      } else if Abs(curve(mid).value) >= TOLERANCE {
        assert left > 1;
        assert Pow(2.0, left - 1) == 2.0 * Pow(2.0, left - 2);
        if Opposite(curve(low).value, curve(mid).value) {
          SearchFromSound(curve, low, mid, left - 1, more);
        } else {
          SearchFromSound(curve, mid, high, left - 1, more);
        }
      }
    }
  }

  lemma SearchSound(curve: Curve)
    requires curve(LOW).Some? && curve(HIGH).Some? && curve(LOW).value != 0.0
    ensures Search(curve).GaveUp? <==> Alike(curve(LOW).value, curve(HIGH).value)
    ensures Search(curve).Found? ==>
      var rate := Search(curve).rate;
      LOW < rate < HIGH && (Met(curve, rate) || exists low, high :: Bracketed(curve, rate, low, high))
  {
    if !Alike(curve(LOW).value, curve(HIGH).value) {
      TwoTo42();
      SearchFromSound(curve, LOW, HIGH, 43, 157);
    }
  }

  /** A bracket that does not hold the pole lies on one side of it. */
  predicate Beside(period: nat, low: real, high: real)
    requires period > 0
  {
    high < Pole(period) || Pole(period) < low
  }

  lemma BracketHoldsOrBeside(curve: Curve, period: nat, rate: real, low: real, high: real)
    requires period > 0 && Bracketed(curve, rate, low, high)
    ensures Beside(period, low, high) || Abs(rate - Pole(period)) < MIN_WIDTH
  {
  }

  /** Near a root: the price is met, or the rate lies in a last bracket with a sign change
      and without the pole. */
  ghost predicate SolvesBeside(curve: Curve, period: nat, rate: real)
    requires period > 0
  {
    Met(curve, rate) || exists low, high :: Bracketed(curve, rate, low, high) && Beside(period, low, high)
  }

  lemma CurveRaisesAtPole(root: Roots, price: real, flows: seq<Flow>, period: nat, r: real)
    requires TakesRoots(root) && period > 0 && WholePeriods(flows, period)
    ensures PriceGap(root, price, flows, period)(r).None? <==> flows != [] && r == Pole(period)
  {
    FactorAtPole(r, period);
  }

  // ---------------------------------------------------------------- midpoints

  /** The integer `c` over the `m`-th power of two. */
  predicate Dyadic(x: real, c: int, m: nat)
    decreases m
  {
    if m == 0 then x == c as real else Dyadic(2.0 * x, c, m - 1)
  }

  lemma {:induction false} SumIsDyadic(x: real, a: int, y: real, b: int, m: nat)
    requires Dyadic(x, a, m) && Dyadic(y, b, m)
    ensures Dyadic(x + y, a + b, m)
    decreases m
  {
    if m > 0 {
      SumIsDyadic(2.0 * x, a, 2.0 * y, b, m - 1);
      assert 2.0 * (x + y) == 2.0 * x + 2.0 * y;
    }
  }

  lemma MidpointIsDyadic(low: real, a: int, high: real, b: int, m: nat)
    requires Dyadic(low, a, m) && Dyadic(high, b, m)
    ensures Dyadic(low, a + a, m + 1) && Dyadic((low + high) / 2.0, a + b, m + 1) && Dyadic(high, b + b, m + 1)
  {
    SumIsDyadic(low, a, low, a, m);
    SumIsDyadic(low, a, high, b, m);
    SumIsDyadic(high, b, high, b, m);
    assert low + low == 2.0 * low && high + high == 2.0 * high;
    assert 2.0 * ((low + high) / 2.0) == low + high;
  }

  /** The curve raises nowhere but at one rate. */
  ghost predicate RaisesOnlyAt(curve: Curve, pole: real) {
    forall r :: curve(r).None? ==> r == pole
  }

  ghost predicate IsDyadic(x: real) {
    exists c: int, m: nat :: Dyadic(x, c, m)
  }

  /** All rates the bisection visits are integers over powers of two, so it raises only if
      the pole is one. */
  lemma {:induction false} SearchRaises(curve: Curve, pole: real, low: real, fLow: real, high: real, left: nat,
      a: int, b: int, m: nat)
    requires RaisesOnlyAt(curve, pole) && Dyadic(low, a, m) && Dyadic(high, b, m)
    requires SearchFrom(curve, low, fLow, high, left).Raised?
    ensures IsDyadic(pole)
    decreases left
  {
    var mid := (low + high) / 2.0;
    MidpointIsDyadic(low, a, high, b, m);
    SearchStep(curve, low, fLow, high, left);
    if curve(mid).Some? {
      if Opposite(fLow, curve(mid).value) {
        SearchRaises(curve, pole, low, fLow, mid, left - 1, a + a, a + b, m + 1);
      } else {
        SearchRaises(curve, pole, mid, curve(mid).value, high, left - 1, a + b, b + b, m + 1);
      }
    }
  }

  lemma {:induction false} SearchInside(curve: Curve, low: real, fLow: real, high: real, left: nat)
    requires low < high
    ensures var result := SearchFrom(curve, low, fLow, high, left);
      !result.GaveUp? && (result.Found? ==> low < result.rate < high)
    decreases left
  {
    var mid := (low + high) / 2.0;
    if left > 0 && curve(mid).Some? {
      SearchStep(curve, low, fLow, high, left);
      if Opposite(fLow, curve(mid).value) {
        SearchInside(curve, low, fLow, mid, left - 1);
      } else {
        SearchInside(curve, mid, curve(mid).value, high, left - 1);
      }
    }
  }

  // ---------------------------------------------------------------- the result

  /** With whole periods above 730 days the bisection runs, and a rate it returns is near a
      root or no further than 1e-12 from the pole, where the curve changes sign without one.
      An error escapes only from the pole itself: from a step of Newton's method, or from a
      midpoint if the pole is an integer over a power of two. */
  lemma WholePeriodSound(root: Roots, price: real, rate: real, period: nat, maturity: int, nominal: int, today: int,
      stored: Option<seq<G.CouponPayment>>)
    requires TakesRoots(root) && period > 730
    requires ValidInputs(price, rate, period, maturity, nominal, today)
    requires rate > 0.0 || (stored.Some? && stored.value != [])
    requires WholePeriods(CashFlows(maturity, period, today, G.Coupon(nominal, rate, period), nominal, stored), period)
    ensures LOW < Pole(period) < 0.0
    ensures var flows := CashFlows(maturity, period, today, G.Coupon(nominal, rate, period), nominal, stored);
      var curve, slope := PriceGap(root, price, flows, period), PriceSlope(root, flows, period);
      var newton := ClimbFrom(curve, slope, Guess(price, rate, nominal, maturity - today), MAX_ITERATIONS);
      && (forall r :: curve(r).None? <==> flows != [] && r == Pole(period))
      && match CalculateYtm(root, price, rate, period, maturity, nominal, today, stored)
         case Rate(r) =>
           && LOW <= r <= HIGH
           && (curve(LOW) == Some(0.0) || SolvesBeside(curve, period, r) || Abs(r - Pole(period)) < MIN_WIDTH)
         case NoRoot => newton.GaveUp? && Alike(curve(LOW).value, curve(HIGH).value)
         case Uncaught => newton.Raised? || (newton.GaveUp? && IsDyadic(Pole(period)))
         case InvalidInputs => false
  {
    var flows := CashFlows(maturity, period, today, G.Coupon(nominal, rate, period), nominal, stored);
    var curve := PriceGap(root, price, flows, period);
    PoleInBounds(period);
    forall r ensures curve(r).None? <==> flows != [] && r == Pole(period) {
      CurveRaisesAtPole(root, price, flows, period, r);
    }
    GuessInRange(price, rate, nominal, maturity - today);
    BothSolvers(curve, PriceSlope(root, flows, period), Guess(price, rate, nominal, maturity - today), period);
  }

  lemma PoleInBounds(period: nat)
    requires period > 730
    ensures LOW < Pole(period) < 0.0
  {
    LongFactorAtLow(period);
    FactorAtPole(LOW, period);
  }

  lemma BothSolvers(curve: Curve, slope: Curve, guess: real, period: nat)
    requires period > 0 && LOW <= guess <= 1.0 && curve(LOW).Some? && curve(HIGH).Some?
    requires RaisesOnlyAt(curve, Pole(period))
    ensures var newton := ClimbFrom(curve, slope, guess, MAX_ITERATIONS);
      match Attempted(curve, slope, guess)
      case Rate(r) =>
        && LOW <= r <= HIGH
        && (curve(LOW) == Some(0.0) || SolvesBeside(curve, period, r) || Abs(r - Pole(period)) < MIN_WIDTH)
      case NoRoot => newton.GaveUp? && Alike(curve(LOW).value, curve(HIGH).value)
      case Uncaught => newton.Raised? || (newton.GaveUp? && IsDyadic(Pole(period)))
      case InvalidInputs => false
  {
    var newton := ClimbFrom(curve, slope, guess, MAX_ITERATIONS);
    if newton.Found? {
      ClimbSound(curve, slope, guess, MAX_ITERATIONS);
    } else if newton.GaveUp? {
      Bisected(curve, period);
      if Search(curve).Raised? {
        assert Dyadic(2.0 * LOW, -1, 0) && Dyadic(2.0 * HIGH, 4, 0);
        SearchRaises(curve, Pole(period), LOW, curve(LOW).value, HIGH, MAX_HALVINGS, -1, 4, 1);
      }
    }
  }

  lemma Bisected(curve: Curve, period: nat)
    requires period > 0 && curve(LOW).Some? && curve(HIGH).Some?
    ensures Search(curve).GaveUp? ==> Alike(curve(LOW).value, curve(HIGH).value)
    ensures Search(curve).Found? ==>
      var rate := Search(curve).rate;
      && LOW <= rate <= HIGH
      && (curve(LOW) == Some(0.0) || SolvesBeside(curve, period, rate) || Abs(rate - Pole(period)) < MIN_WIDTH)
  {
    if curve(LOW).value == 0.0 {
      SearchInside(curve, LOW, curve(LOW).value, HIGH, MAX_HALVINGS);
    } else {
      SearchSound(curve);
      if Search(curve).Found? && !Met(curve, Search(curve).rate) {
        var low, high :| Bracketed(curve, Search(curve).rate, low, high);
        BracketHoldsOrBeside(curve, period, Search(curve).rate, low, high);
      }
    }
  }

  // ---------------------------------------------------------------- a rate at the pole

  /** The value of 1150 after one period of three years, at a price of 100. */
  function Triennial(r: real): Option<real> {
    if 1.0 + 3.0 * r == 0.0 then None else Some(Over(1150.0, 1.0 + 3.0 * r) - 100.0)
  }

  lemma TriennialFlow()
    ensures CashFlows(1095, 1095, 0, G.Coupon(1000, 5.0, 1095), 1000, None) == [Flow(1095, 1150.0)]
  {
    var coupon := G.Coupon(1000, 5.0, 1095);
    assert 1095 as real / 365.0 == 3.0 && 1000.0 * 5.0 / 100.0 == 50.0;
    assert coupon == 150.0;
    FlowsOnCouponDate(1095, 1095, 0, coupon, 1000, 1);
    assert Coupons(1095, coupon, 0) == [];
  }

  lemma TriennialFactor(r: real)
    ensures PeriodsPerYear(1095) == 1.0 / 3.0 && Factor(r, 1095) == 1.0 + 3.0 * r
  {
    RatePerPeriod(r, 1095.0);
    assert r * 1095.0 / 365.0 == 3.0 * r;
  }

  lemma TriennialCurve(root: Roots, r: real)
    requires TakesRoots(root)
    ensures PriceGap(root, 100.0, [Flow(1095, 1150.0)], 1095)(r) == Triennial(r)
  {
    var flow := Flow(1095, 1150.0);
    var factor := Factor(r, 1095);
    TriennialFactor(r);
    if factor > 0.0 {
      SingleFlow(Daily(root, r, 1095), flow);
    } else if factor < 0.0 {
      assert flow.days / 1095 == 1 && Pow(factor, 1) == factor * Pow(factor, 0);
      assert [flow][..0] == [];
      assert WholeWorth(factor, [flow], 1095) == WholeWorth(factor, [], 1095) + 1150.0 / Pow(factor, 1);
    }
  }

  /** The first evaluation of the derivative; the starting point is 7/11. */
  lemma TriennialSlope(root: Roots)
    requires TakesRoots(root)
    ensures PriceSlope(root, [Flow(1095, 1150.0)], 1095)(7.0 / 11.0)
         == Some(SlopeTerm(1150.0, 1.0, 1.0 / 3.0, 1024.0 / 121.0))
  {
    var flow := Flow(1095, 1150.0);
    TriennialFactor(7.0 / 11.0);
    var g := Daily(root, 7.0 / 11.0, 1095);
    assert Pow(g, 1095) == 32.0 / 11.0;
    PowAdd(g, 1095, 1095);
    assert Pow(g, 2190) == 1024.0 / 121.0;
    assert [flow][..0] == [];
    assert Slopes(g, [flow], 1095) == Slope(g, flow, 1095);
    assert 1095 as real / 1095 as real == 1.0;
  }

  lemma StepsBeyondOne(value: real, slope: real)
    requires value == Over(1150.0, 1.0 + 3.0 * (7.0 / 11.0)) - 100.0
    requires slope == SlopeTerm(1150.0, 1.0, 1.0 / 3.0, 1024.0 / 121.0)
    ensures value > 1.0 && slope < 0.0 && 7.0 / 11.0 - value / slope > 1.0
  {
    assert value == 295.3125;
    assert slope == -417450.0 / 1024.0;
  }

  /** Newton's first step leads beyond 1. */
  lemma NewtonLeaves(root: Roots)
    requires TakesRoots(root)
    ensures var curve, slope := PriceGap(root, 100.0, [Flow(1095, 1150.0)], 1095),
                                PriceSlope(root, [Flow(1095, 1150.0)], 1095);
      ClimbFrom(curve, slope, 7.0 / 11.0, MAX_ITERATIONS).GaveUp?
  {
    TriennialCurve(root, 7.0 / 11.0);
    TriennialSlope(root);
    StepsBeyondOne(Triennial(7.0 / 11.0).value, SlopeTerm(1150.0, 1.0, 1.0 / 3.0, 1024.0 / 121.0));
  }

  /** A midpoint is not -1/3. */
  lemma {:induction false} DyadicIsNoThird(x: real, c: int, m: nat, k: int)
    requires Dyadic(x, c, m) && k % 3 != 0
    ensures 3.0 * x + k as real != 0.0
    decreases m
  {
    if m == 0 {
      assert 3.0 * x + k as real == (3 * c + k) as real;
      assert 3 * c + k != 0;
    } else {
      DyadicIsNoThird(2.0 * x, c, m - 1, 2 * k);
      assert (2 * k) as real == 2.0 * k as real;
    }
  }

  lemma TriennialSign(r: real)
    requires LOW <= r <= HIGH
    ensures 1.0 + 3.0 * r < 0.0 ==> Triennial(r).Some? && Triennial(r).value < -60.0
    ensures 1.0 + 3.0 * r > 0.0 ==> Triennial(r).Some? && Triennial(r).value > 60.0
  {
    var factor := 1.0 + 3.0 * r;
    if factor != 0.0 {
      var q := 1150.0 / factor;
      assert q * factor == 1150.0;
      if factor < 0.0 {
        assert q < 0.0;
      } else {
        assert factor <= 7.0;
        assert q > 160.0;
      }
    }
  }

  ghost predicate IsTriennial(curve: Curve) {
    forall r :: curve(r) == Triennial(r)
  }

  /** The bisection closes in on the pole. */
  lemma {:induction false} SearchAtPole(curve: Curve, low: real, high: real, left: nat, more: nat,
      a: int, b: int, m: nat)
    requires IsTriennial(curve) && LOW <= low && high <= HIGH && Dyadic(low, a, m) && Dyadic(high, b, m)
    requires 1.0 + 3.0 * low < 0.0 < 1.0 + 3.0 * high
    requires left > 0 && high - low < MIN_WIDTH * Pow(2.0, left - 1)
    ensures curve(low).Some?
    ensures var result := SearchFrom(curve, low, curve(low).value, high, left + more);
      result.Found? && Abs(result.rate + 1.0 / 3.0) < MIN_WIDTH
    decreases left
  {
    var mid := (low + high) / 2.0;
    MidpointIsDyadic(low, a, high, b, m);
    DyadicIsNoThird(mid, a + b, m + 1, 1);
    TriennialSign(low);
    TriennialSign(mid);
    SearchStep(curve, low, curve(low).value, high, left + more);
    if high - low >= MIN_WIDTH {
      assert left > 1;
      assert Pow(2.0, left - 1) == 2.0 * Pow(2.0, left - 2);
      if 1.0 + 3.0 * mid > 0.0 {
        SearchAtPole(curve, low, mid, left - 1, more, a + a, a + b, m + 1);
      } else {
        SearchAtPole(curve, mid, high, left - 1, more, a + b, b + b, m + 1);
      }
    }
  }

  lemma TriennialBisection(curve: Curve)
    requires IsTriennial(curve)
    ensures Search(curve).Found? && Abs(Search(curve).rate + 1.0 / 3.0) < MIN_WIDTH
  {
    TriennialSign(LOW);
    TriennialSign(HIGH);
    TwoTo42();
    assert Dyadic(2.0 * LOW, -1, 0) && Dyadic(2.0 * HIGH, 4, 0);
    SearchAtPole(curve, LOW, HIGH, 43, 157, -1, 4, 1);
  }

  /** One payment of 1150 in three years, bought at 100, yields 350 percent, which is out of
      bounds: in the bounds the value misses the price by more than 60 everywhere. The
      calculation does not return None but a rate within 1e-12 of the pole at -1/3. */
  lemma RateAtPole(root: Roots)
    requires TakesRoots(root)
    ensures ValidInputs(100.0, 5.0, 1095, 1095, 1000, 0) && Pole(1095) == -1.0 / 3.0
    ensures var flows := CashFlows(1095, 1095, 0, G.Coupon(1000, 5.0, 1095), 1000, None);
      var curve := PriceGap(root, 100.0, flows, 1095);
      && curve(3.5) == Some(0.0)
      && (forall s :: LOW <= s <= HIGH && curve(s).Some? ==> Abs(curve(s).value) > 60.0)
      && match CalculateYtm(root, 100.0, 5.0, 1095, 1095, 1000, 0, None)
         case Rate(r) => Abs(r - Pole(1095)) < MIN_WIDTH
         case _ => false
  {
    TriennialFlow();
    TriennialFactor(0.0);
    var curve := PriceGap(root, 100.0, [Flow(1095, 1150.0)], 1095);
    forall r ensures curve(r) == Triennial(r) {
      TriennialCurve(root, r);
    }
    forall s | LOW <= s <= HIGH && curve(s).Some? ensures Abs(curve(s).value) > 60.0 {
      TriennialSign(s);
    }
    GuessOfTriennial();
    NewtonLeaves(root);
    TriennialBisection(curve);
  }

  lemma GuessOfTriennial()
    ensures Guess(100.0, 5.0, 1000, 1095) == 7.0 / 11.0
  {
    assert 1000.0 * 5.0 / 100.0 == 50.0 && 1095 as real / 365.0 == 3.0;
    assert 900.0 / 3.0 == 300.0 && (1000.0 + 100.0) / 2.0 == 550.0;
    assert 350.0 / 550.0 == 7.0 / 11.0;
  }
}
