/** `calculate_ytm`: validation, the closed form of zero-coupon bonds, Newton's
    method with the bisection fallback, and what the result means. */
module Ytm {
  import opened Seqs
  import opened Powers
  import opened PresentValue
  import opened Pricing
  import opened Solver
  import G = Grid

  datatype Yield =
    | Rate(rate: real)
    | NoRoot              // None: no root within the solver bounds
    | InvalidInputs       // YtmCalculationError
    | Uncaught            // ZeroDivisionError or TypeError

  predicate ValidInputs(price: real, rate: real, period: int, maturity: int, nominal: int, today: int) {
    period >= 0 && rate >= 0.0 && nominal > 0 && 1.0 <= price <= 10.0 * nominal as real && maturity > today
  }

  function DaysAfter(day: int, today: int): nat {
    if day > today then day - today else 0
  }

  /** `_cash_flows`: the stored schedule after today, or the derived grid. */
  function CashFlows(maturity: int, period: nat, today: int, coupon: real, nominal: int,
      stored: Option<seq<G.CouponPayment>>): seq<Flow>
    requires period > 0
  {
    match stored
    case Some(payments) =>
      Map(Filter(payments, (p: G.CouponPayment) => p.paymentDate > today),
          (p: G.CouponPayment) => Flow(DaysAfter(p.paymentDate, today), p.amount))
    case None =>
      Map(G.Grid(maturity, period, today),
          (day: int) => Flow(DaysAfter(day, today), G.PaymentOn(day, maturity, coupon, nominal).amount))
  }

  /** The pricing function: present value minus price, where the factor is positive. */
  function Gap(root: Roots, price: real, flows: seq<Flow>, period: nat): real -> real
    requires TakesRoots(root) && period > 0
  {
    (r: real) => if Factor(r, period) > 0.0 then Value(root, r, flows, period) - price else 0.0
  }

  function GapSlope(root: Roots, flows: seq<Flow>, period: nat): real -> real
    requires TakesRoots(root) && period > 0
  {
    (r: real) => if Factor(r, period) > 0.0 then Derivative(root, r, flows, period) else 0.0
  }

  function Clamp(x: real): real {
    var above := if x < LOW then LOW else x;
    if above > 1.0 then 1.0 else above
  }

  /** The starting point of Newton's method, kept inside [-0.5, 1]. */
  function Guess(price: real, rate: real, nominal: int, days: int): real
    requires price + nominal as real != 0.0 && days > 0
  {
    Clamp((nominal as real * rate / 100.0 + (nominal as real - price) / (days as real / 365.0))
          / ((nominal as real + price) / 2.0))
  }

  /** (nominal / price) ** (365 / (days * periods_per_year)) - 1, scaled to a year. */
  function ZeroCouponYield(root: Roots, price: real, nominal: int, period: nat, days: nat): real
    requires TakesRoots(root) && price > 0.0 && nominal > 0 && days > 0
  {
    var growth := root(nominal as real / price, days);
    if period == 0 then Pow(growth, 365) - 1.0
    else PeriodsPerYear(period) * (Pow(growth, period) - 1.0)
  }

  predicate ClosedForm(rate: real, period: int, stored: Option<seq<G.CouponPayment>>) {
    (period == 0 || rate == 0.0) && (stored.None? || stored.value == [])
  }

  /** Newton's method and the bisection fallback on a curve that may raise. */
  function Attempted(curve: Curve, slope: Curve, guess: real): Yield {
    match ClimbFrom(curve, slope, guess, MAX_ITERATIONS)
    case Found(rate) => Rate(rate)
    case Raised => Uncaught
    case GaveUp =>
      match Search(curve)
      case Found(rate) => Rate(rate)
      case Raised => Uncaught
      case GaveUp => NoRoot
  }

  function CalculateYtm(root: Roots, price: real, rate: real, period: int, maturity: int, nominal: int,
      today: int, stored: Option<seq<G.CouponPayment>>): Yield
    requires TakesRoots(root)
  {
    if !ValidInputs(price, rate, period, maturity, nominal, today) then InvalidInputs
    else if ClosedForm(rate, period, stored) then
      Rate(ZeroCouponYield(root, price, nominal, period, maturity - today))
    else if period == 0 then Uncaught
    else
      var flows := CashFlows(maturity, period, today, G.Coupon(nominal, rate, period), nominal, stored);
      Attempted(PriceGap(root, price, flows, period), PriceSlope(root, flows, period),
                Guess(price, rate, nominal, maturity - today))
  }

  /** The calculation as it is executed, with the loops of the solvers. */
  method RunCalculateYtm(root: Roots, price: real, rate: real, period: int, maturity: int, nominal: int,
      today: int, stored: Option<seq<G.CouponPayment>>) returns (result: Yield)
    requires TakesRoots(root)
    ensures result == CalculateYtm(root, price, rate, period, maturity, nominal, today, stored)
  {
    if !(period >= 0 && rate >= 0.0 && nominal > 0 && 1.0 <= price <= 10.0 * nominal as real && maturity > today) {
      return InvalidInputs;
    }
    var days := maturity - today;
    if ClosedForm(rate, period, stored) {
      return Rate(ZeroCouponYield(root, price, nominal, period, days));
    }
    if period == 0 {
      return Uncaught;
    }
    var flows := CashFlows(maturity, period, today, G.Coupon(nominal, rate, period), nominal, stored);
    if stored.None? {
      var dates := G.FuturePaymentDates(maturity, period, today);
      flows := Map(dates, (day: int) =>
        Flow(DaysAfter(day, today), G.PaymentOn(day, maturity, G.Coupon(nominal, rate, period), nominal).amount));
    }
    var curve, slope := PriceGap(root, price, flows, period), PriceSlope(root, flows, period);
    var converged := RunNewton(curve, slope, Guess(price, rate, nominal, days));
    match converged {
      case Found(r) => return Rate(r);
      case Raised => return Uncaught;
      case GaveUp =>
    }
    var bisected := RunBisect(curve);
    match bisected {
      case Found(r) => result := Rate(r);
      case Raised => result := Uncaught;
      case GaveUp => result := NoRoot;
    }
  }

  /** For periods below 730 days the curve is defined at every rate the solvers visit. */
  lemma ShortPeriodIsSolved(root: Roots, price: real, flows: seq<Flow>, period: nat, guess: real)
    requires TakesRoots(root) && 0 < period < 730 && LOW <= guess <= 1.0
    ensures Attempted(PriceGap(root, price, flows, period), PriceSlope(root, flows, period), guess)
         == match Solve(Gap(root, price, flows, period), GapSlope(root, flows, period), guess)
            case Some(r) => Rate(r)
            case None => NoRoot
  {
    var curve, slopes := PriceGap(root, price, flows, period), PriceSlope(root, flows, period);
    var f, slope := Gap(root, price, flows, period), GapSlope(root, flows, period);
    forall r | LOW <= r <= HIGH ensures curve(r) == Some(f(r)) && slopes(r) == Some(slope(r)) {
      FactorInRange(r, period);
    }
    ClimbIsNewton(curve, f, slopes, slope, guess, MAX_ITERATIONS);
    SearchIsBisect(curve, f);
  }

  // ---------------------------------------------------------------- zero-coupon bonds

  lemma RateOfFactor(factor: real, period: nat)
    requires period > 0
    ensures Factor(PeriodsPerYear(period) * (factor - 1.0), period) == factor
  {
    var ppy := PeriodsPerYear(period);
    assert ppy * (factor - 1.0) / ppy == factor - 1.0;
  }

  /** The closed form prices the bond: the nominal, discounted from maturity at the
      returned rate, is the price. Without a period a year is the period. */
  lemma ZeroCouponPrices(root: Roots, price: real, nominal: int, period: nat, days: nat)
    requires TakesRoots(root) && price > 0.0 && nominal > 0 && days > 0
    ensures var p := if period == 0 then 365 else period;
      var r := ZeroCouponYield(root, price, nominal, period, days);
      Factor(r, p) > 0.0 && Value(root, r, [Flow(days, nominal as real)], p) == price
  {
    var p := if period == 0 then 365 else period;
    var ratio := nominal as real / price;
    assert ratio > 0.0 && ratio * price == nominal as real;
    var growth := root(ratio, days);
    assert growth > 0.0 && Pow(growth, days) == ratio;
    var r := ZeroCouponYield(root, price, nominal, period, days);
    assert PeriodsPerYear(365) == 1.0;
    assert r == PeriodsPerYear(p) * (Pow(growth, p) - 1.0);
    RateOfFactor(Pow(growth, p), p);
    assert Factor(r, p) == Pow(growth, p);
    PowPositive(growth, p);
    RootOfPow(root, growth, p);
    assert Daily(root, r, p) == growth;
    SingleFlow(growth, Flow(days, nominal as real));
    assert nominal as real / ratio == price;
  }

  function ZeroFlow(nominal: int, days: nat): seq<Flow> {
    [Flow(days, nominal as real)]
  }

  /** A bond without a coupon, or without a coupon period, and without a stored payment: the
      returned rate discounts the nominal from maturity exactly to the price. */
  lemma ZeroCouponIsPriced(root: Roots, price: real, rate: real, period: nat, maturity: int, nominal: int, today: int,
      stored: Option<seq<G.CouponPayment>>)
    requires TakesRoots(root) && ValidInputs(price, rate, period, maturity, nominal, today)
    requires (period == 0 || rate == 0.0) && (stored.None? || stored.value == [])
    ensures var p := if period == 0 then 365 else period;
      match CalculateYtm(root, price, rate, period, maturity, nominal, today, stored)
      case Rate(r) => Factor(r, p) > 0.0 && Value(root, r, [Flow(maturity - today, nominal as real)], p) == price
      case _ => false
  {
    ZeroCouponPrices(root, price, nominal, period, maturity - today);
  }

  /** The inputs that are refused, whatever else is given. */
  lemma InvalidInputsIff(root: Roots, price: real, rate: real, period: int, maturity: int, nominal: int, today: int,
      stored: Option<seq<G.CouponPayment>>)
    requires TakesRoots(root)
    ensures CalculateYtm(root, price, rate, period, maturity, nominal, today, stored).InvalidInputs? <==>
      period < 0 || rate < 0.0 || nominal <= 0 || price < 1.0 || price > (10 * nominal) as real || maturity <= today
  {
  }

  /** The period the closed form compounds over: a year without a coupon period. */
  function Compounding(period: nat): nat {
    if period == 0 then 365 else period
  }

  lemma LongFactorAtLow(period: nat)
    requires period >= 730
    ensures Factor(LOW, period) <= 0.0
    ensures Factor(LOW, period) == 0.0 <==> period == 730
  {
    RatePerPeriod(LOW, period as real);
  }

  lemma RatePerPeriod(r: real, period: real)
    requires period > 0.0
    ensures 365.0 / period > 0.0
    ensures r / (365.0 / period) == r * period / 365.0
  {
    var ppy := 365.0 / period;
    assert ppy * period == 365.0;
    var q := r / ppy;
    assert q * ppy == r;
    assert q * (ppy * period) == r * period;
  }

  /** The right bound is a rate for any period, the left bound for periods below 730 days. */
  lemma FactorAtBounds(period: nat)
    requires period > 0
    ensures Factor(HIGH, period) > 0.0
    ensures Factor(LOW, period) > 0.0 <==> period < 730
  {
    assert Factor(0.0, period) == 1.0;
    FactorIncreases(0.0, HIGH, period);
    if period < 730 {
      FactorAtLow(period);
    } else {
      LongFactorAtLow(period);
    }
  }

  lemma FactorOrder(r: real, s: real, period: nat)
    requires period > 0 && Factor(r, period) < Factor(s, period)
    ensures r < s
  {
    if s < r {
      FactorIncreases(s, r, period);
    }
  }

  /** The closed form has no bounds of its own: its rate lies in [-0.5, 2] exactly when
      the price lies between the values at the two ends. For a period of 730 days or more
      there is no value at -0.5 and no upper limit to the price. */
  lemma ClosedFormInBoundsIff(root: Roots, price: real, nominal: int, period: nat, days: nat)
    requires TakesRoots(root) && price > 0.0 && nominal > 0 && days > 0
    ensures Factor(LOW, Compounding(period)) > 0.0 <==> period < 730
    ensures Factor(HIGH, Compounding(period)) > 0.0
    ensures var p := Compounding(period);
      LOW <= ZeroCouponYield(root, price, nominal, period, days) <= HIGH <==>
      && (period < 730 ==> Value(root, LOW, ZeroFlow(nominal, days), p) >= price)
      && price >= Value(root, HIGH, ZeroFlow(nominal, days), p)
  {
    var p, r := Compounding(period), ZeroCouponYield(root, price, nominal, period, days);
    ZeroCouponPrices(root, price, nominal, period, days);
    FactorAtBounds(p);
    var flows := ZeroFlow(nominal, days);
    assert Paying(flows) by { assert flows[0] in flows; }
    if period < 730 {
      ValueOrder(root, LOW, r, flows, p);
    } else {
      FactorOrder(LOW, r, p);
    }
    ValueOrder(root, r, HIGH, flows, p);
  }

  lemma ValueOrder(root: Roots, r: real, s: real, flows: seq<Flow>, period: nat)
    requires TakesRoots(root) && period > 0 && Paying(flows)
    requires Factor(r, period) > 0.0 && Factor(s, period) > 0.0
    ensures r <= s <==> Value(root, r, flows, period) >= Value(root, s, flows, period)
  {
    if r < s {
      ValueDecreases(root, r, s, flows, period);
    } else if s < r {
      ValueDecreases(root, s, r, flows, period);
    }
  }

  /** A zero-coupon bond of 1000 bought at 1 a year before maturity yields 99900%,
      far outside the bounds the documentation gives for a result. */
  lemma ClosedFormExceedsBounds(root: Roots)
    requires TakesRoots(root)
    ensures CalculateYtm(root, 1.0, 0.0, 365, 365, 1000, 0, None) == Rate(999.0)
  {
    var growth := root(1000.0, 365);
    assert Pow(growth, 365) == 1000.0;
    assert PeriodsPerYear(365) == 1.0;
    assert 1000 as real / 1.0 == 1000.0;
  }

  /** Below 730 days an error escapes only for a stored schedule with a period of zero. */
  lemma UncaughtIff(root: Roots, price: real, rate: real, period: int, maturity: int, nominal: int, today: int,
      stored: Option<seq<G.CouponPayment>>)
    requires TakesRoots(root) && period < 730
    ensures CalculateYtm(root, price, rate, period, maturity, nominal, today, stored).Uncaught? <==>
      ValidInputs(price, rate, period, maturity, nominal, today) && period == 0 && stored.Some? && stored.value != []
  {
    if ValidInputs(price, rate, period, maturity, nominal, today) && period > 0 {
      var flows := CashFlows(maturity, period, today, G.Coupon(nominal, rate, period), nominal, stored);
      GuessInRange(price, rate, nominal, maturity - today);
      ShortPeriodIsSolved(root, price, flows, period, Guess(price, rate, nominal, maturity - today));
    }
  }

  /** The starting point of Newton's method is a rate at which the price is not defined: an
      error escapes, whatever the period. */
  lemma StartsOffCurve(root: Roots, price: real, rate: real, period: nat, maturity: int, nominal: int, today: int,
      stored: Option<seq<G.CouponPayment>>)
    requires TakesRoots(root) && period > 0
    requires ValidInputs(price, rate, period, maturity, nominal, today)
    requires rate > 0.0 || (stored.Some? && stored.value != [])
    requires var flows := CashFlows(maturity, period, today, G.Coupon(nominal, rate, period), nominal, stored);
      var factor := Factor(Guess(price, rate, nominal, maturity - today), period);
      flows != [] && (factor == 0.0 || (factor < 0.0 && !WholePeriods(flows, period)))
    ensures CalculateYtm(root, price, rate, period, maturity, nominal, today, stored).Uncaught?
  {
    var flows := CashFlows(maturity, period, today, G.Coupon(nominal, rate, period), nominal, stored);
    assert PriceGap(root, price, flows, period)(Guess(price, rate, nominal, maturity - today)) == None;
  }

  /** A valid bond with a coupon every 730 days makes the calculation divide by zero: the
      starting point is clamped to -0.5, where the discount factor is zero. */
  lemma LongPeriodUncaught(root: Roots)
    requires TakesRoots(root)
    ensures ValidInputs(10000.0, 5.0, 730, 365, 1000, 0)
    ensures CalculateYtm(root, 10000.0, 5.0, 730, 365, 1000, 0, None).Uncaught?
  {
    assert Guess(10000.0, 5.0, 1000, 365) == LOW by {
      assert 1000.0 * 5.0 / 100.0 == 50.0;
      assert 365 as real / 365.0 == 1.0;
    }
    assert PeriodsPerYear(730) == 0.5;
    assert Factor(LOW, 730) == 0.0;
    G.GridIsExact(365, 730, 0);
    assert CashFlows(365, 730, 0, G.Coupon(1000, 5.0, 730), 1000, None) != [];
    StartsOffCurve(root, 10000.0, 5.0, 730, 365, 1000, 0, None);
  }

  lemma SingleFlow(g: real, f: Flow)
    requires g > 0.0
    ensures Worth(g, [f]) == Discounted(g, f)
  {
    assert [f][..0] == [];
    assert Worth(g, [f]) == Worth(g, [f][..0]) + Discounted(g, f);
  }

  // ---------------------------------------------------------------- the payments that are priced

  /** What stored payments are worth: those after today, each discounted by its own days. */
  function WorthAfter(g: real, today: int, payments: seq<G.CouponPayment>): real
    requires g > 0.0
  {
    if payments == [] then 0.0
    else
      var last := payments[|payments| - 1];
      WorthAfter(g, today, payments[..|payments| - 1]) +
        if last.paymentDate > today then Discounted(g, Flow(last.paymentDate - today, last.amount)) else 0.0
  }

  lemma StoredSnoc(maturity: int, period: nat, today: int, coupon: real, nominal: int,
      front: seq<G.CouponPayment>, last: G.CouponPayment)
    requires period > 0
    ensures var before := CashFlows(maturity, period, today, coupon, nominal, Some(front));
      CashFlows(maturity, period, today, coupon, nominal, Some(front + [last]))
        == if last.paymentDate > today then before + [Flow(last.paymentDate - today, last.amount)] else before
  {
    assert (front + [last])[..|front|] == front;
  }

  /** A stored schedule is priced by all its payments after today and by nothing else,
      whatever the coupon rate and the period of the bond. */
  lemma {:induction false} StoredScheduleIsPriced(g: real, maturity: int, period: nat, today: int, coupon: real,
      nominal: int, payments: seq<G.CouponPayment>)
    requires g > 0.0 && period > 0
    ensures Worth(g, CashFlows(maturity, period, today, coupon, nominal, Some(payments)))
         == WorthAfter(g, today, payments)
  {
    if payments != [] {
      var front, last := payments[..|payments| - 1], payments[|payments| - 1];
      StoredScheduleIsPriced(g, maturity, period, today, coupon, nominal, front);
      StoredSnoc(maturity, period, today, coupon, nominal, front, last);
      FrontAndLast(payments);
      if last.paymentDate > today {
        WorthSnoc(g, CashFlows(maturity, period, today, coupon, nominal, Some(front)),
          Flow(last.paymentDate - today, last.amount));
      }
    }
  }

  lemma WorthSnoc(g: real, flows: seq<Flow>, f: Flow)
    requires g > 0.0
    ensures Worth(g, flows + [f]) == Worth(g, flows) + Discounted(g, f)
  {
    assert (flows + [f])[..|flows|] == flows;
  }

  /** Without a stored schedule the payments are a coupon on every grid date after today, with
      the nominal on the last. */
  lemma DerivedPaymentsAre(rate: real, period: nat, maturity: int, nominal: int, today: int)
    requires period > 0 && maturity > today
    ensures var flows := CashFlows(maturity, period, today, G.Coupon(nominal, rate, period), nominal, None);
      var days := G.Grid(maturity, period, today);
      && |flows| == |days| > 0
      && forall i :: 0 <= i < |days| ==>
           && days[i] > today && flows[i].days == days[i] - today
           && flows[i].amount == nominal as real * rate / 100.0 * (period as real / 365.0)
                                 + (if i == |days| - 1 then nominal as real else 0.0)
  {
    var days := G.Grid(maturity, period, today);
    G.GridIsExact(maturity, period, today);
    forall i | 0 <= i < |days| ensures days[i] > today && (days[i] == maturity <==> i == |days| - 1) {
      assert days[i] in days;
    }
  }

  // ---------------------------------------------------------------- the par theorem

  /** Coupon payments at the first `k` periods. */
  function Coupons(period: nat, coupon: real, k: nat): seq<Flow> {
    seq(k, i requires 0 <= i < k => Flow((i + 1) * period, coupon))
  }

  function Over(a: real, b: real): real
    requires b != 0.0
  {
    a / b
  }

  function Growth(nominal: real, q: real): real {
    nominal * (q - 1.0)
  }

  /** A payment after k whole periods is divided by the k-th power of the factor. */
  lemma DiscountedOnGrid(g: real, period: nat, k: nat, amount: real)
    requires g > 0.0
    ensures Pow(g, period) > 0.0 && Pow(Pow(g, period), k) > 0.0
    ensures Discounted(g, Flow(k * period, amount)) == Over(amount, Pow(Pow(g, period), k))
  {
    PowOfPow(g, period, k);
    assert period * k == k * period;
    PowPositive(g, k * period);
    PowPositive(g, period);
  }

  lemma CouponsSnoc(g: real, period: nat, coupon: real, k: nat)
    requires g > 0.0
    ensures Worth(g, Coupons(period, coupon, k + 1))
         == Worth(g, Coupons(period, coupon, k)) + Discounted(g, Flow((k + 1) * period, coupon))
  {
    assert Coupons(period, coupon, k + 1)[..k] == Coupons(period, coupon, k);
  }

  /** Coupons of (q - 1) N at each period telescope to N - N / q^k. */
  lemma {:induction false} AnnuityTelescopes(g: real, period: nat, coupon: real, nominal: real, k: nat)
    requires g > 0.0 && coupon == Growth(nominal, Pow(g, period))
    ensures Pow(Pow(g, period), k) > 0.0
    ensures Worth(g, Coupons(period, coupon, k)) == nominal - Over(nominal, Pow(Pow(g, period), k))
  {
    var q := Pow(g, period);
    DiscountedOnGrid(g, period, k, coupon);
    if k > 0 {
      AnnuityTelescopes(g, period, coupon, nominal, k - 1);
      CouponsSnoc(g, period, coupon, k - 1);
      TelescopeStep(nominal, q, coupon, k);
    }
  }

  lemma TelescopeStep(nominal: real, q: real, coupon: real, k: nat)
    requires q > 0.0 && coupon == Growth(nominal, q) && k > 0
    ensures Pow(q, k) > 0.0 && Pow(q, k - 1) > 0.0
    ensures Over(coupon, Pow(q, k)) == Over(nominal, Pow(q, k - 1)) - Over(nominal, Pow(q, k))
    ensures Over(coupon + nominal, Pow(q, k)) == Over(nominal, Pow(q, k - 1))
  {
    PowPositive(q, k);
    PowPositive(q, k - 1);
    OneMorePeriod(nominal, q, Pow(q, k - 1), Pow(q, k), coupon);
  }

  lemma OneMorePeriod(nominal: real, q: real, power: real, next: real, coupon: real)
    requires q > 0.0 && power > 0.0 && next == q * power && coupon == nominal * (q - 1.0)
    ensures next > 0.0
    ensures Over(coupon, next) == Over(nominal, power) - Over(nominal, next)
    ensures Over(coupon + nominal, next) == Over(nominal, power)
  {
    var u, v := nominal / power, nominal / next;
    assert u * power == nominal && v * next == nominal;
    assert v * q * power == u * power;
    assert v * q == u;
    assert (u - v) * next == coupon;
    assert u * next == nominal * q;
  }

  /** On a coupon date the grid counts the periods from today. */
  lemma GridDay(maturity: int, period: nat, today: int, n: nat, i: nat)
    requires period > 0 && i < n && maturity - today == n * period
    ensures |G.Grid(maturity, period, today)| == n
    ensures G.Grid(maturity, period, today)[i] == today + (i + 1) * period
    ensures 0 < (i + 1) * period
    ensures i + 1 < n ==> (i + 1) * period < n * period
  {
    assert (n - 1) * period == n * period - period;
    G.CountIs(maturity, period, today, n);
    G.Stepped(period, 0, i + 1);
    if i + 1 < n {
      G.Stepped(period, i + 1, n);
    }
    assert (n - 1 - i) * period == n * period - (i + 1) * period;
  }

  /** The derived cash flows of a bond valued on a coupon date with `n` periods to go. */
  lemma FlowsOnCouponDate(maturity: int, period: nat, today: int, coupon: real, nominal: int, n: nat)
    requires period > 0 && n > 0 && maturity - today == n * period
    ensures CashFlows(maturity, period, today, coupon, nominal, None)
         == Coupons(period, coupon, n - 1) + [Flow(n * period, coupon + nominal as real)]
  {
    GridDay(maturity, period, today, n, n - 1);
    forall i | 0 <= i < n
      ensures CashFlows(maturity, period, today, coupon, nominal, None)[i]
           == (if i < n - 1 then Flow((i + 1) * period, coupon) else Flow(n * period, coupon + nominal as real))
    {
      GridDay(maturity, period, today, n, i);
    }
  }

  /** At the coupon rate itself the payments are worth exactly the nominal. */
  lemma WorthNominalAtCouponRate(root: Roots, rate: real, period: nat, maturity: int, nominal: int, today: int, n: nat)
    requires TakesRoots(root) && period > 0 && n > 0 && maturity - today == n * period
    requires Factor(rate / 100.0, period) > 0.0
    ensures Value(root, rate / 100.0,
                  CashFlows(maturity, period, today, G.Coupon(nominal, rate, period), nominal, None), period)
         == nominal as real
  {
    var coupon, N := G.Coupon(nominal, rate, period), nominal as real;
    var g := Daily(root, rate / 100.0, period);
    CouponIsGrowth(N, rate, period);
    FlowsOnCouponDate(maturity, period, today, coupon, nominal, n);
    ParFlows(g, period, coupon, N, n);
  }

  lemma ParFlows(g: real, period: nat, coupon: real, nominal: real, n: nat)
    requires g > 0.0 && n > 0 && coupon == Growth(nominal, Pow(g, period))
    ensures Worth(g, Coupons(period, coupon, n - 1) + [Flow(n * period, coupon + nominal)]) == nominal
  {
    var q := Pow(g, period);
    var front, last := Coupons(period, coupon, n - 1), Flow(n * period, coupon + nominal);
    assert (front + [last])[..n - 1] == front;
    assert Worth(g, front + [last]) == Worth(g, front) + Discounted(g, last);
    AnnuityTelescopes(g, period, coupon, nominal, n - 1);
    DiscountedOnGrid(g, period, n, coupon + nominal);
    TelescopeStep(nominal, q, coupon, n);
  }

  lemma CouponIsGrowth(nominal: real, rate: real, period: nat)
    requires period > 0
    ensures nominal * rate / 100.0 * (period as real / 365.0) == Growth(nominal, Factor(rate / 100.0, period))
  {
    var p := period as real;
    var ppy := PeriodsPerYear(period);
    assert ppy * p == 365.0;
    assert rate / 100.0 / ppy == rate / 100.0 * (p / 365.0) by {
      assert rate / 100.0 * (p / 365.0) * ppy == rate / 100.0;
    }
  }

  /** Par: on a coupon date, with any number of periods to go, a bond priced at its
      nominal yields exactly its coupon rate. */
  lemma ParTheorem(root: Roots, rate: real, period: nat, maturity: int, nominal: int, today: int)
    requires TakesRoots(root) && 0 < period && 0.0 < rate <= 100.0 && nominal > 0
    requires maturity > today && (maturity - today) % period == 0
    ensures CalculateYtm(root, nominal as real, rate, period, maturity, nominal, today, None) == Rate(rate / 100.0)
  {
    var n := (maturity - today) / period;
    assert maturity - today == n * period;
    var flows := CashFlows(maturity, period, today, G.Coupon(nominal, rate, period), nominal, None);
    assert Factor(0.0, period) == 1.0;
    FactorIncreases(0.0, rate / 100.0, period);
    WorthNominalAtCouponRate(root, rate, period, maturity, nominal, today, n);
    GuessAtPar(rate, nominal, maturity - today);
    assert PriceGap(root, nominal as real, flows, period)(rate / 100.0) == Some(0.0);
  }

  lemma FactorAtLow(period: nat)
    requires 0 < period < 730
    ensures Factor(LOW, period) > 0.0
  {
    var ppy := PeriodsPerYear(period);
    assert ppy * period as real == 365.0;
    assert (ppy - 0.5) * period as real > 0.0;
    SignOfFactor(ppy - 0.5, period as real);
    assert LOW / ppy * ppy == LOW;
  }

  lemma FactorInRange(r: real, period: nat)
    requires 0 < period < 730 && LOW <= r
    ensures Factor(r, period) > 0.0
  {
    FactorAtLow(period);
    if LOW < r {
      FactorIncreases(LOW, r, period);
    }
  }

  lemma GuessAtPar(rate: real, nominal: int, days: int)
    requires nominal > 0 && days > 0 && 0.0 <= rate <= 100.0
    ensures Guess(nominal as real, rate, nominal, days) == rate / 100.0
  {
    var N := nominal as real;
    assert (N - N) / (days as real / 365.0) == 0.0;
    assert (N + N) / 2.0 == N;
    assert N * rate / 100.0 / N == rate / 100.0;
  }

  lemma RootOfOne(root: Roots, n: nat)
    requires TakesRoots(root) && n > 0
    ensures root(1.0, n) == 1.0
  {
    PowOfOne(n);
    PowInjective(root(1.0, n), 1.0, n);
  }

  lemma Itself(x: real)
    requires x > 0.0
    ensures x / x == 1.0
  {
  }

  /** A bond with a zero coupon rate priced at its nominal yields zero, on any date. */
  lemma ParWithoutCoupon(root: Roots, period: nat, maturity: int, nominal: int, today: int)
    requires TakesRoots(root) && nominal > 0 && maturity > today
    ensures CalculateYtm(root, nominal as real, 0.0, period, maturity, nominal, today, None) == Rate(0.0)
  {
    Itself(nominal as real);
    RootOfOne(root, maturity - today);
    PowOfOne(365);
    PowOfOne(period);
  }

  /** On a coupon date the yield exceeds the coupon rate exactly when the price is
      below the nominal. */
  lemma DiscountMeansHigherYield(root: Roots, r: real, price: real, rate: real, period: nat,
      maturity: int, nominal: int, today: int)
    requires TakesRoots(root) && 0 < period && 0.0 < rate && nominal > 0
    requires maturity > today && (maturity - today) % period == 0
    requires Factor(r, period) > 0.0
    requires price ==
      Value(root, r, CashFlows(maturity, period, today, G.Coupon(nominal, rate, period), nominal, None), period)
    ensures r > rate / 100.0 <==> price < nominal as real
    ensures r == rate / 100.0 <==> price == nominal as real
  {
    var n := (maturity - today) / period;
    assert maturity - today == n * period;
    var coupon := G.Coupon(nominal, rate, period);
    var flows := CashFlows(maturity, period, today, coupon, nominal, None);
    assert Factor(0.0, period) == 1.0;
    FactorIncreases(0.0, rate / 100.0, period);
    WorthNominalAtCouponRate(root, rate, period, maturity, nominal, today, n);
    DerivedFlowsPay(rate, period, maturity, nominal, today);
    if r > rate / 100.0 {
      ValueDecreases(root, rate / 100.0, r, flows, period);
    } else if r < rate / 100.0 {
      ValueDecreases(root, r, rate / 100.0, flows, period);
    }
  }

  /** The derived schedule consists of payments in the future, the last one positive. */
  lemma DerivedFlowsPay(rate: real, period: nat, maturity: int, nominal: int, today: int)
    requires period > 0 && rate >= 0.0 && nominal > 0 && maturity > today
    ensures Paying(CashFlows(maturity, period, today, G.Coupon(nominal, rate, period), nominal, None))
  {
    var coupon := G.Coupon(nominal, rate, period);
    assert coupon >= 0.0 by {
      assert nominal as real * rate >= 0.0;
      assert period as real / 365.0 >= 0.0;
    }
    var grid := G.Grid(maturity, period, today);
    G.GridIsExact(maturity, period, today);
    var flows := CashFlows(maturity, period, today, coupon, nominal, None);
    forall f | f in flows ensures f.amount >= 0.0 && f.days > 0 {
      var i :| 0 <= i < |flows| && flows[i] == f;
      assert grid[i] in grid;
    }
    assert flows[|grid| - 1].amount > 0.0;
    assert flows[|grid| - 1] in flows;
  }

  // ---------------------------------------------------------------- soundness of the result

  lemma GapFalls(root: Roots, price: real, flows: seq<Flow>, period: nat, r: real, s: real)
    requires TakesRoots(root) && 0 < period < 730 && Paying(flows) && LOW <= r < s
    ensures Gap(root, price, flows, period)(r) > Gap(root, price, flows, period)(s)
  {
    FactorInRange(r, period);
    FactorInRange(s, period);
    ValueDecreases(root, r, s, flows, period);
  }

  lemma SlopeIsNegative(root: Roots, flows: seq<Flow>, period: nat, r: real)
    requires TakesRoots(root) && 0 < period < 730 && Paying(flows) && LOW <= r
    ensures GapSlope(root, flows, period)(r) < 0.0
  {
    FactorInRange(r, period);
    SlopesSign(Daily(root, r, period), flows, period);
  }

  lemma GapAboveTangent(root: Roots, price: real, flows: seq<Flow>, period: nat, r: real, s: real)
    requires TakesRoots(root) && 0 < period < 730 && Paying(flows) && LOW <= r && LOW <= s
    ensures AboveLine(Gap(root, price, flows, period)(s), Gap(root, price, flows, period)(r),
                      GapSlope(root, flows, period)(r), s - r)
  {
    FactorInRange(r, period);
    FactorInRange(s, period);
    ValueAboveTangent(root, r, s, flows, period);
    ShiftedAboveLine(Value(root, s, flows, period), Value(root, r, flows, period),
                     Derivative(root, r, flows, period), s - r, price);
  }

  lemma GapDecreases(root: Roots, price: real, flows: seq<Flow>, period: nat)
    requires TakesRoots(root) && 0 < period < 730 && Paying(flows)
    ensures Decreasing(Gap(root, price, flows, period))
  {
    var f := Gap(root, price, flows, period);
    forall r, s | LOW <= r < s <= HIGH ensures f(r) > f(s) {
      GapFalls(root, price, flows, period, r, s);
    }
  }

  lemma GapAboveTangents(root: Roots, price: real, flows: seq<Flow>, period: nat)
    requires TakesRoots(root) && 0 < period < 730 && Paying(flows)
    ensures AboveTangents(Gap(root, price, flows, period), GapSlope(root, flows, period))
  {
    var f, slope := Gap(root, price, flows, period), GapSlope(root, flows, period);
    forall r, s | LOW <= r <= HIGH && LOW <= s <= HIGH ensures AboveLine(f(s), f(r), slope(r), s - r) {
      GapAboveTangent(root, price, flows, period, r, s);
    }
  }

  /** The pricing function meets what the solvers' theorems ask of it. */
  lemma GapIsConvexFalling(root: Roots, price: real, flows: seq<Flow>, period: nat)
    requires TakesRoots(root) && 0 < period < 730 && Paying(flows)
    ensures Decreasing(Gap(root, price, flows, period))
    ensures ConvexFalling(Gap(root, price, flows, period), GapSlope(root, flows, period))
  {
    GapDecreases(root, price, flows, period);
    GapAboveTangents(root, price, flows, period);
    var slope := GapSlope(root, flows, period);
    forall r | LOW <= r <= HIGH ensures slope(r) < 0.0 {
      SlopeIsNegative(root, flows, period, r);
    }
  }

  lemma GuessInRange(price: real, rate: real, nominal: int, days: int)
    requires price + nominal as real != 0.0 && days > 0
    ensures LOW <= Guess(price, rate, nominal, days) <= 1.0
  {
  }

  /** A solution is near the true root, or its price is near the price. */
  lemma SolutionNearRoot(f: real -> real, rate: real, s: real)
    requires Decreasing(f) && LOW <= s <= HIGH && f(s) == 0.0 && Solves(f, rate)
    ensures Abs(f(rate)) < 0.00000001 || Abs(rate - s) < 0.000000000001
  {
    if Abs(f(rate)) >= TOLERANCE {
      var low, high :|
        Brackets(f, low, high) && high - low < MIN_WIDTH && low < rate < high && LOW <= low && high <= HIGH;
      assert f(low) > f(high);
      Falls(f, s, low);
      Falls(f, high, s);
    }
  }

  /** Any rate lies within [-0.5, 2]; it prices the payments exactly when the yield is not
      -0.5 itself or one of three evaluations happens to hit it; None means that no rate
      within the bounds prices them. */
  lemma YtmSolvesIff(root: Roots, price: real, rate: real, period: nat, maturity: int, nominal: int, today: int,
      stored: Option<seq<G.CouponPayment>>)
    requires TakesRoots(root) && 0 < period < 730
    requires ValidInputs(price, rate, period, maturity, nominal, today)
    requires rate > 0.0 || (stored.Some? && stored.value != [])
    requires Paying(CashFlows(maturity, period, today, G.Coupon(nominal, rate, period), nominal, stored))
    ensures var flows := CashFlows(maturity, period, today, G.Coupon(nominal, rate, period), nominal, stored);
      var f, slope := Gap(root, price, flows, period), GapSlope(root, flows, period);
      match CalculateYtm(root, price, rate, period, maturity, nominal, today, stored)
      case Rate(r) =>
        && -0.5 <= r <= 2.0
        && (Solves(f, r) <==> f(-0.5) != 0.0 || HitsLeftRoot(f, slope, Guess(price, rate, nominal, maturity - today)))
      case NoRoot => forall s :: -0.5 <= s <= 2.0 ==> f(s) != 0.0
      case _ => false
  {
    var flows := CashFlows(maturity, period, today, G.Coupon(nominal, rate, period), nominal, stored);
    GapIsConvexFalling(root, price, flows, period);
    GuessInRange(price, rate, nominal, maturity - today);
    ShortPeriodIsSolved(root, price, flows, period, Guess(price, rate, nominal, maturity - today));
    SolveSolvesIff(Gap(root, price, flows, period), GapSlope(root, flows, period),
                   Guess(price, rate, nominal, maturity - today));
  }

  /** The same for any stored schedule, negative amounts and past payments included, in
      the one direction that does not need a falling curve. */
  lemma YtmOfAnySchedule(root: Roots, price: real, rate: real, period: nat, maturity: int, nominal: int, today: int,
      stored: Option<seq<G.CouponPayment>>)
    requires TakesRoots(root) && 0 < period < 730
    requires ValidInputs(price, rate, period, maturity, nominal, today)
    requires rate > 0.0 || (stored.Some? && stored.value != [])
    ensures var f := Gap(root, price,
                         CashFlows(maturity, period, today, G.Coupon(nominal, rate, period), nominal, stored), period);
      match CalculateYtm(root, price, rate, period, maturity, nominal, today, stored)
      case Rate(r) => -0.5 <= r <= 2.0 && (f(-0.5) != 0.0 ==> Solves(f, r))
      case NoRoot => Alike(f(LOW), f(HIGH))
      case _ => false
  {
    var flows := CashFlows(maturity, period, today, G.Coupon(nominal, rate, period), nominal, stored);
    GuessInRange(price, rate, nominal, maturity - today);
    ShortPeriodIsSolved(root, price, flows, period, Guess(price, rate, nominal, maturity - today));
    SolveSolves(Gap(root, price, flows, period), GapSlope(root, flows, period),
                Guess(price, rate, nominal, maturity - today));
  }

  /** Where the curve raises at the left bound there is nothing but Newton's method. */
  lemma OnlyNewton(curve: Curve, slope: Curve, guess: real)
    requires LOW <= guess <= 1.0 && curve(LOW).None?
    ensures var newton := ClimbFrom(curve, slope, guess, MAX_ITERATIONS);
      match Attempted(curve, slope, guess)
      case Rate(r) => newton == Found(r) && LOW <= r <= 1.0 && curve(r).Some? && Abs(curve(r).value) < TOLERANCE
      case Uncaught => !newton.Found?
      case _ => false
  {
    if ClimbFrom(curve, slope, guess, MAX_ITERATIONS).Found? {
      ClimbSound(curve, slope, guess, MAX_ITERATIONS);
    }
  }

  /** From 730 days on the bisection starts where the factor is not positive. Unless all
      payments are whole periods away, it raises: a result is a rate at which Newton's method
      met the price, and an error escapes exactly when there is none. */
  lemma LongPeriodSound(root: Roots, price: real, rate: real, period: nat, maturity: int, nominal: int, today: int,
      stored: Option<seq<G.CouponPayment>>)
    requires TakesRoots(root) && period >= 730
    requires ValidInputs(price, rate, period, maturity, nominal, today)
    requires rate > 0.0 || (stored.Some? && stored.value != [])
    requires var flows := CashFlows(maturity, period, today, G.Coupon(nominal, rate, period), nominal, stored);
      flows != [] && (period == 730 || !WholePeriods(flows, period))
    ensures var flows := CashFlows(maturity, period, today, G.Coupon(nominal, rate, period), nominal, stored);
      var curve, slope := PriceGap(root, price, flows, period), PriceSlope(root, flows, period);
      var newton := ClimbFrom(curve, slope, Guess(price, rate, nominal, maturity - today), MAX_ITERATIONS);
      match CalculateYtm(root, price, rate, period, maturity, nominal, today, stored)
      case Rate(r) => newton == Found(r) && LOW <= r <= 1.0 && curve(r).Some? && Abs(curve(r).value) < TOLERANCE
      case Uncaught => !newton.Found?
      case _ => false
  {
    var flows := CashFlows(maturity, period, today, G.Coupon(nominal, rate, period), nominal, stored);
    var curve, slope := PriceGap(root, price, flows, period), PriceSlope(root, flows, period);
    var guess := Guess(price, rate, nominal, maturity - today);
    GuessInRange(price, rate, nominal, maturity - today);
    LongFactorAtLow(period);
    assert curve(LOW) == None;
    OnlyNewton(curve, slope, guess);
  }

  /** A single payment of 1000 a year from now, priced at 2000. */
  lemma YearlyCurve(root: Roots, r: real)
    requires TakesRoots(root) && r > -1.0
    ensures Gap(root, 2000.0, [Flow(365, 1000.0)], 365)(r) == Over(1000.0, 1.0 + r) - 2000.0
    ensures GapSlope(root, [Flow(365, 1000.0)], 365)(r) == Over(-1000.0, (1.0 + r) * (1.0 + r))
  {
    var flow := Flow(365, 1000.0);
    assert PeriodsPerYear(365) == 1.0 && Factor(r, 365) == 1.0 + r;
    var g := Daily(root, r, 365);
    SingleFlow(g, flow);
    PowAdd(g, 365, 365);
    assert [flow][..0] == [];
    assert Slopes(g, [flow], 365) == Slope(g, flow, 365);
  }

  /** A stored payment of 1000 a year from now at a price of 2000 yields exactly -50%, the
      left bound. The calculation returns a rate above 75% instead. */
  lemma LeftRootMissed(root: Roots)
    requires TakesRoots(root)
    ensures var stored := Some([G.CouponPayment(365, 1000.0, false)]);
      var flows := CashFlows(36500, 365, 0, G.Coupon(1000, 5.0, 365), 1000, stored);
      var f := Gap(root, 2000.0, flows, 365);
      && ValidInputs(2000.0, 5.0, 365, 36500, 1000, 0) && f(LOW) == 0.0
      && match CalculateYtm(root, 2000.0, 5.0, 365, 36500, 1000, 0, stored)
         case Rate(r) => r > 0.75 && !Solves(f, r)
         case _ => false
  {
    var stored := Some([G.CouponPayment(365, 1000.0, false)]);
    var flows := CashFlows(36500, 365, 0, G.Coupon(1000, 5.0, 365), 1000, stored);
    StoredFlow();
    var guess := Guess(2000.0, 5.0, 1000, 36500);
    GuessOfLeftRoot();
    YearlyCurve(root, LOW);
    YearlyMisses(root, guess);
    ShortPeriodIsSolved(root, 2000.0, flows, 365, guess);
  }

  lemma YearlyMisses(root: Roots, guess: real)
    requires TakesRoots(root) && guess == 2.0 / 75.0
    ensures var f, slope := Gap(root, 2000.0, [Flow(365, 1000.0)], 365), GapSlope(root, [Flow(365, 1000.0)], 365);
      Solve(f, slope, guess).Some? && Solve(f, slope, guess).value > 0.75 && !Solves(f, Solve(f, slope, guess).value)
  {
    var flows := [Flow(365, 1000.0)];
    var f, slope := Gap(root, 2000.0, flows, 365), GapSlope(root, flows, 365);
    YearlyCurve(root, LOW);
    YearlyCurve(root, 0.75);
    YearlyCurve(root, guess);
    StepsBeyondLeftRoot(f(guess), slope(guess), guess);
    assert Paying(flows) by { assert flows[0] in flows; }
    GapIsConvexFalling(root, 2000.0, flows, 365);
    LeftRootSteppedOver(f, slope, guess);
  }

  lemma StoredFlow()
    ensures CashFlows(36500, 365, 0, G.Coupon(1000, 5.0, 365), 1000, Some([G.CouponPayment(365, 1000.0, false)]))
         == [Flow(365, 1000.0)]
  {
    var payment := G.CouponPayment(365, 1000.0, false);
    FilterSnoc([], payment, (p: G.CouponPayment) => p.paymentDate > 0);
    assert [] + [payment] == [payment];
  }

  lemma GuessOfLeftRoot()
    ensures Guess(2000.0, 5.0, 1000, 36500) == 2.0 / 75.0
  {
    assert 1000.0 * 5.0 / 100.0 == 50.0 && 36500 as real / 365.0 == 100.0;
    assert -1000.0 / 100.0 == -10.0 && (1000.0 + 2000.0) / 2.0 == 1500.0;
    assert 40.0 / 1500.0 == 2.0 / 75.0;
  }

  /** Newton's first step leads below the bounds. */
  lemma StepsBeyondLeftRoot(value: real, slope: real, guess: real)
    requires guess == 2.0 / 75.0
    requires value == Over(1000.0, 1.0 + guess) - 2000.0 && slope == Over(-1000.0, (1.0 + guess) * (1.0 + guess))
    ensures value < -1000.0 && slope < 0.0 && guess - value / slope < -1.0
  {
    assert value == 75000.0 / 77.0 - 2000.0;
    assert slope == -5625000.0 / 5929.0;
  }

  /** When the starting point lies left of the yield, no guard of Newton's method fires:
      it converges between the two or runs through all its iterations climbing. */
  lemma NewtonFromBelow(root: Roots, price: real, flows: seq<Flow>, period: nat, guess: real, s: real)
    requires TakesRoots(root) && 0 < period < 730 && Paying(flows)
    requires LOW <= guess <= s <= 1.0 && Gap(root, price, flows, period)(s) == 0.0
    ensures var f, slope := Gap(root, price, flows, period), GapSlope(root, flows, period);
      match Newton(f, slope, guess, MAX_ITERATIONS)
      case Some(rate) => guess <= rate <= s && Abs(f(rate)) < TOLERANCE
      case None => forall k :: 0 <= k < MAX_ITERATIONS ==> guess <= Iterate(f, slope, guess, k) <= s
  {
    var f, slope := Gap(root, price, flows, period), GapSlope(root, flows, period);
    GapIsConvexFalling(root, price, flows, period);
    Falls(f, guess, s);
    NewtonClimbs(f, slope, guess, s, MAX_ITERATIONS);
    if Newton(f, slope, guess, MAX_ITERATIONS).Some? {
      NewtonSound(f, slope, guess, MAX_ITERATIONS);
    }
  }
}
