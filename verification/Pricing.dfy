/** The price curve at any rate. Where the discount factor is not positive, which takes a
    coupon period of 730 days or more, Python still evaluates whole powers, divides by
    zero at a factor of zero, and otherwise gets complex numbers it cannot compare. */
module Pricing {
  import opened Seqs
  import opened Powers
  import opened PresentValue
  import opened Solver

  predicate WholePeriods(flows: seq<Flow>, period: nat)
    requires period > 0
  {
    forall i :: 0 <= i < |flows| ==> flows[i].days % period == 0
  }

  lemma {:induction false} PowNonZero(x: real, n: nat)
    requires x != 0.0
    ensures Pow(x, n) != 0.0
  {
    if n > 0 {
      PowNonZero(x, n - 1);
    }
  }

  /** The payments at a factor of either sign, each a whole number of periods away. */
  function WholeWorth(factor: real, flows: seq<Flow>, period: nat): real
    requires factor != 0.0 && period > 0
  {
    if flows == [] then 0.0
    else
      var last := flows[|flows| - 1];
      PowNonZero(factor, last.days / period);
      WholeWorth(factor, flows[..|flows| - 1], period) + last.amount / Pow(factor, last.days / period)
  }

  function WholeSlopes(factor: real, flows: seq<Flow>, period: nat): real
    requires factor != 0.0 && period > 0
  {
    if flows == [] then 0.0
    else
      var last := flows[|flows| - 1];
      PowNonZero(factor, last.days / period + 1);
      WholeSlopes(factor, flows[..|flows| - 1], period)
        - last.amount * (last.days / period) as real / (PeriodsPerYear(period) * Pow(factor, last.days / period + 1))
  }

  /** Where both are defined the whole powers are the powers of the daily factor. */
  lemma {:induction false} WholeWorthIsWorth(g: real, flows: seq<Flow>, period: nat)
    requires g > 0.0 && period > 0 && WholePeriods(flows, period)
    ensures Pow(g, period) > 0.0
    ensures WholeWorth(Pow(g, period), flows, period) == Worth(g, flows)
  {
    PowPositive(g, period);
    if flows != [] {
      var n := |flows| - 1;
      WholeWorthIsWorth(g, flows[..n], period);
      var k := flows[n].days / period;
      PowOfPow(g, period, k);
      assert period * k == flows[n].days;
    }
  }

  /** `_present_value`, or None where it raises or leaves the reals. */
  function PriceAt(root: Roots, r: real, flows: seq<Flow>, period: nat): Option<real>
    requires TakesRoots(root) && period > 0
  {
    var factor := Factor(r, period);
    if factor > 0.0 then Some(Value(root, r, flows, period))
    else if flows == [] then Some(0.0)
    else if factor == 0.0 || !WholePeriods(flows, period) then None
    else Some(WholeWorth(factor, flows, period))
  }

  function SlopeAt(root: Roots, r: real, flows: seq<Flow>, period: nat): Option<real>
    requires TakesRoots(root) && period > 0
  {
    var factor := Factor(r, period);
    if factor > 0.0 then Some(Derivative(root, r, flows, period))
    else if flows == [] then Some(0.0)
    else if factor == 0.0 || !WholePeriods(flows, period) then None
    else Some(WholeSlopes(factor, flows, period))
  }

  function PriceGap(root: Roots, price: real, flows: seq<Flow>, period: nat): Curve
    requires TakesRoots(root) && period > 0
  {
    (r: real) => match PriceAt(root, r, flows, period) case Some(value) => Some(value - price) case None => None
  }

  function PriceSlope(root: Roots, flows: seq<Flow>, period: nat): Curve
    requires TakesRoots(root) && period > 0
  {
    (r: real) => SlopeAt(root, r, flows, period)
  }
}
