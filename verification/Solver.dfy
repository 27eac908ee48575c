/** The two root finders of the yield calculation, for an arbitrary pricing
    function: Newton-Raphson with its guards, and bisection on [-0.5, 2]. */
module Solver {
  import opened Seqs
  import opened Powers

  const TOLERANCE := 0.00000001
  const MAX_ITERATIONS := 100
  const LOW := -0.5
  const HIGH := 2.0
  const MAX_HALVINGS := 200
  const MIN_WIDTH := 0.000000000001

  function Abs(x: real): real {
    if x < 0.0 then -x else x
  }

  // ---------------------------------------------------------------- bisection

  predicate Alike(a: real, b: real) {
    (a > 0.0 && b > 0.0) || (a < 0.0 && b < 0.0)
  }

  predicate Opposite(a: real, b: real) {
    (a > 0.0 && b < 0.0) || (a < 0.0 && b > 0.0)
  }

  /** The sign of a product. */
  lemma Signs(a: real, b: real)
    ensures a * b > 0.0 <==> Alike(a, b)
    ensures a * b < 0.0 <==> Opposite(a, b)
  {
  }

  /** The rate returned by the loop with `left` iterations to go. */
  function BisectFrom(f: real -> real, low: real, high: real, left: nat): real
    decreases left
  {
    var mid := (low + high) / 2.0;
    if left == 0 || Abs(f(mid)) < TOLERANCE || high - low < MIN_WIDTH then mid
    else if Opposite(f(low), f(mid)) then BisectFrom(f, low, mid, left - 1)
    else BisectFrom(f, mid, high, left - 1)
  }

  /** How many midpoints that loop prices; None if it runs out of iterations. */
  function Priced(f: real -> real, low: real, high: real, left: nat): Option<nat>
    decreases left
  {
    var mid := (low + high) / 2.0;
    if left == 0 then None
    else if Abs(f(mid)) < TOLERANCE || high - low < MIN_WIDTH then Some(1)
    else
      var rest := if Opposite(f(low), f(mid)) then Priced(f, low, mid, left - 1) else Priced(f, mid, high, left - 1);
      if rest.None? then None else Some(rest.value + 1)
  }

  function Bisect(f: real -> real): Option<real> {
    if Alike(f(LOW), f(HIGH)) then None else Some(BisectFrom(f, LOW, HIGH, MAX_HALVINGS))
  }

  lemma BisectStep(f: real -> real, low: real, high: real, left: nat)
    requires left > 0
    ensures var mid := (low + high) / 2.0;
      BisectFrom(f, low, high, left) ==
        if Abs(f(mid)) < TOLERANCE || high - low < MIN_WIDTH then mid
        else if Opposite(f(low), f(mid)) then BisectFrom(f, low, mid, left - 1)
        else BisectFrom(f, mid, high, left - 1)
  {
  }

  /** A price curve as the code evaluates it; None where the evaluation raises. */
  type Curve = real -> Option<real>

  datatype Attempt = Found(rate: real) | GaveUp | Raised

  /** The loop of the bisection with `left` iterations to go. */
  function SearchFrom(curve: Curve, low: real, fLow: real, high: real, left: nat): Attempt
    decreases left
  {
    var mid := (low + high) / 2.0;
    if left == 0 then Found(mid)
    else match curve(mid)
      case None => Raised
      case Some(fMid) =>
        if Abs(fMid) < TOLERANCE || high - low < MIN_WIDTH then Found(mid)
        else if Opposite(fLow, fMid) then SearchFrom(curve, low, fLow, mid, left - 1)
        else SearchFrom(curve, mid, fMid, high, left - 1)
  }

  function Search(curve: Curve): Attempt {
    match (curve(LOW), curve(HIGH))
    case (Some(fLow), Some(fHigh)) =>
      if Alike(fLow, fHigh) then GaveUp else SearchFrom(curve, LOW, fLow, HIGH, MAX_HALVINGS)
    case _ => Raised
  }

  /** `_bisect`: the loop keeps the function values at both ends. */
  method RunBisect(curve: Curve) returns (result: Attempt)
    ensures result == Search(curve)
  {
    var low, high := LOW, HIGH;
    var atLow, atHigh := curve(low), curve(high);
    if atLow.None? || atHigh.None? {
      return Raised;
    }
    var fLow, fHigh := atLow.value, atHigh.value;
    Signs(fLow, fHigh);
    if fLow * fHigh > 0.0 {
      return GaveUp;
    }
    ghost var answer := Search(curve);
    for i := 0 to MAX_HALVINGS
      invariant answer == SearchFrom(curve, low, fLow, high, MAX_HALVINGS - i)
    {
      SearchStep(curve, low, fLow, high, MAX_HALVINGS - i);
      var mid := (low + high) / 2.0;
      var atMid := curve(mid);
      if atMid.None? {
        return Raised;
      }
      var fMid := atMid.value;
      if Abs(fMid) < TOLERANCE || high - low < MIN_WIDTH {
        return Found(mid);
      }
      Signs(fLow, fMid);
      if fLow * fMid < 0.0 {
        high, fHigh := mid, fMid;
      } else {
        low, fLow := mid, fMid;
      }
    }
    result := Found((low + high) / 2.0);
  }

  lemma SearchStep(curve: Curve, low: real, fLow: real, high: real, left: nat)
    requires left > 0
    ensures var mid := (low + high) / 2.0;
      SearchFrom(curve, low, fLow, high, left) ==
        if curve(mid).None? then Raised
        else if Abs(curve(mid).value) < TOLERANCE || high - low < MIN_WIDTH then Found(mid)
        else if Opposite(fLow, curve(mid).value) then SearchFrom(curve, low, fLow, mid, left - 1)
        else SearchFrom(curve, mid, curve(mid).value, high, left - 1)
  {
  }

  /** `curve` never raises within the bounds and is `f` there. */
  ghost predicate Is(curve: Curve, f: real -> real) {
    forall r :: LOW <= r <= HIGH ==> curve(r) == Some(f(r))
  }

  lemma {:induction false} SearchFromIsBisect(curve: Curve, f: real -> real, low: real, high: real, left: nat)
    requires Is(curve, f) && LOW <= low <= high <= HIGH
    ensures SearchFrom(curve, low, f(low), high, left) == Found(BisectFrom(f, low, high, left))
    decreases left
  {
    var mid := (low + high) / 2.0;
    assert curve(mid) == Some(f(mid));
    if left > 0 && !(Abs(f(mid)) < TOLERANCE || high - low < MIN_WIDTH) {
      if Opposite(f(low), f(mid)) {
        SearchFromIsBisect(curve, f, low, mid, left - 1);
      } else {
        SearchFromIsBisect(curve, f, mid, high, left - 1);
      }
    }
  }

  lemma SearchIsBisect(curve: Curve, f: real -> real)
    requires Is(curve, f)
    ensures Search(curve) == match Bisect(f) case Some(rate) => Found(rate) case None => GaveUp
  {
    assert curve(LOW) == Some(f(LOW)) && curve(HIGH) == Some(f(HIGH));
    SearchFromIsBisect(curve, f, LOW, HIGH, MAX_HALVINGS);
  }

  /** A bracket with a sign change inside it; the value at its left end is not zero. */
  predicate Brackets(f: real -> real, low: real, high: real) {
    low < high && f(low) != 0.0 && !Alike(f(low), f(high))
  }

  /** Close enough to a root: the price is matched, or the rate lies in a bracket
      that is too narrow to halve again. */
  ghost predicate Solves(f: real -> real, rate: real) {
    Abs(f(rate)) < TOLERANCE ||
    exists low, high ::
      Brackets(f, low, high) && high - low < MIN_WIDTH && low < rate < high && LOW <= low && high <= HIGH
  }

  /** The width is halved and the sign change is kept by every step, so the search
      ends inside the loop within `left` steps if the width allows it. */
  lemma {:induction false} BisectFromSolves(f: real -> real, low: real, high: real, left: nat, more: nat)
    requires Brackets(f, low, high) && LOW <= low && high <= HIGH
    requires left > 0 && high - low < MIN_WIDTH * Pow(2.0, left - 1)
    ensures Priced(f, low, high, left + more).Some? && Priced(f, low, high, left + more).value <= left
    ensures low < BisectFrom(f, low, high, left + more) < high
    ensures Solves(f, BisectFrom(f, low, high, left + more))
    decreases left
  {
    var mid := (low + high) / 2.0;
    if Abs(f(mid)) < TOLERANCE || high - low < MIN_WIDTH {
      assert low < mid < high;
    } else {
      assert left > 1;
      assert Pow(2.0, left - 1) == 2.0 * Pow(2.0, left - 2);
      if Opposite(f(low), f(mid)) {
        BisectFromSolves(f, low, mid, left - 1, more);
      } else {
        BisectFromSolves(f, mid, high, left - 1, more);
      }
    }
  }

  /** For any function with a sign change and no root at the left end, bisection
      prices at most 43 midpoints, never runs out, and solves the equation. */
  lemma BisectContract(f: real -> real)
    requires f(LOW) != 0.0 && !Alike(f(LOW), f(HIGH))
    ensures Priced(f, LOW, HIGH, MAX_HALVINGS).Some? && Priced(f, LOW, HIGH, MAX_HALVINGS).value <= 43
    ensures Bisect(f).Some? && LOW < Bisect(f).value < HIGH && Solves(f, Bisect(f).value)
  {
    TwoTo42();
    BisectFromSolves(f, LOW, HIGH, 43, 157);
  }

  lemma TwoTo42()
    ensures Pow(2.0, 42) == 4398046511104.0
  {
    assert Pow(2.0, 1) == 2.0 * Pow(2.0, 0) == 2.0;
    PowAdd(2.0, 1, 1);
    PowAdd(2.0, 2, 1);
    PowAdd(2.0, 3, 3);
    PowAdd(2.0, 6, 6);
    PowAdd(2.0, 12, 12);
    PowAdd(2.0, 24, 12);
    PowAdd(2.0, 36, 6);
  }

  ghost predicate Decreasing(f: real -> real) {
    forall r, s :: LOW <= r < s <= HIGH ==> f(r) > f(s)
  }

  lemma Falls(f: real -> real, r: real, s: real)
    requires Decreasing(f) && LOW <= r <= HIGH && LOW <= s <= HIGH
    ensures r <= s ==> f(r) >= f(s)
  {
  }

  lemma {:induction false} WalksAwayFromLeftRoot(f: real -> real, low: real, high: real, left: nat)
    requires Decreasing(f) && LOW <= low < high <= HIGH && f(low) <= -TOLERANCE
    ensures low < BisectFrom(f, low, high, left) < high
    decreases left
  {
    var mid := (low + high) / 2.0;
    assert low < mid < high;
    if left > 0 && !(high - low < MIN_WIDTH) {
      assert f(mid) < f(low);
      WalksAwayFromLeftRoot(f, mid, high, left - 1);
    }
  }

  /** For a decreasing function that is zero or changes sign, the result solves
      the equation exactly when the root is not the left end itself, or the first
      midpoint is within tolerance. */
  lemma BisectMissesLeftRootIff(f: real -> real)
    requires Decreasing(f) && f(LOW) >= 0.0 >= f(HIGH)
    ensures Bisect(f).Some?
    ensures Solves(f, Bisect(f).value) <==> f(LOW) != 0.0 || Abs(f(0.75)) < TOLERANCE
  {
    if f(LOW) != 0.0 {
      BisectContract(f);
    } else if Abs(f(0.75)) >= TOLERANCE {
      assert f(0.75) <= -TOLERANCE;
      WalksAwayFromLeftRoot(f, 0.75, HIGH, 199);
      var rate := Bisect(f).value;
      assert 0.75 < rate < HIGH;
      forall low, high | Brackets(f, low, high) && LOW <= low && high <= HIGH ensures false {
      }
    }
  }

  // ---------------------------------------------------------------- Newton-Raphson

  function Newton(f: real -> real, slope: real -> real, r: real, left: nat): Option<real>
    decreases left
  {
    if left == 0 then None
    else if Abs(f(r)) < TOLERANCE then Some(r)
    else if slope(r) == 0.0 then None
    else
      var next := r - f(r) / slope(r);
      if next < LOW || Abs(next) > 1.0 || next == r then None
      else Newton(f, slope, next, left - 1)
  }

  /** The loop of Newton's method with `left` iterations to go. */
  function ClimbFrom(curve: Curve, slope: Curve, r: real, left: nat): Attempt
    decreases left
  {
    if left == 0 then GaveUp
    else match curve(r)
      case None => Raised
      case Some(value) =>
        if Abs(value) < TOLERANCE then Found(r)
        else match slope(r)
          case None => Raised
          case Some(derivative) =>
            if derivative == 0.0 then GaveUp
            else
              var next := r - value / derivative;
              if next < LOW || Abs(next) > 1.0 || next == r then GaveUp
              else ClimbFrom(curve, slope, next, left - 1)
  }

  method RunNewton(curve: Curve, slope: Curve, guess: real) returns (result: Attempt)
    ensures result == ClimbFrom(curve, slope, guess, 100)
  {
    var r := guess;
    for i := 0 to MAX_ITERATIONS
      invariant ClimbFrom(curve, slope, guess, MAX_ITERATIONS) == ClimbFrom(curve, slope, r, MAX_ITERATIONS - i)
    {
      var value := curve(r);
      if value.None? {
        return Raised;
      }
      if Abs(value.value) < TOLERANCE {
        return Found(r);
      }
      var derivative := slope(r);
      if derivative.None? {
        return Raised;
      }
      if derivative.value == 0.0 {
        return GaveUp;
      }
      var rNext := r - value.value / derivative.value;
      if rNext < LOW || Abs(rNext) > 1.0 {
        return GaveUp;
      }
      if rNext == r {
        return GaveUp;
      }
      r := rNext;
    }
    result := GaveUp;
  }

  lemma {:induction false} ClimbIsNewton(curve: Curve, f: real -> real, slopeCurve: Curve, slope: real -> real,
      r: real, left: nat)
    requires Is(curve, f) && Is(slopeCurve, slope) && LOW <= r <= 1.0
    ensures ClimbFrom(curve, slopeCurve, r, left)
         == match Newton(f, slope, r, left) case Some(rate) => Found(rate) case None => GaveUp
    decreases left
  {
    if left > 0 && Abs(f(r)) >= TOLERANCE && slope(r) != 0.0 {
      var next := r - f(r) / slope(r);
      if !(next < LOW || Abs(next) > 1.0 || next == r) {
        ClimbIsNewton(curve, f, slopeCurve, slope, next, left - 1);
      }
    }
  }

  /** Whatever the curve, and wherever it raises, a rate that Newton's method finds is in
      range, and the price is met there. */
  lemma {:induction false} ClimbSound(curve: Curve, slope: Curve, r: real, left: nat)
    requires LOW <= r <= 1.0 && ClimbFrom(curve, slope, r, left).Found?
    ensures var rate := ClimbFrom(curve, slope, r, left).rate;
      LOW <= rate <= 1.0 && curve(rate).Some? && Abs(curve(rate).value) < TOLERANCE
    decreases left
  {
    if Abs(curve(r).value) >= TOLERANCE {
      ClimbSound(curve, slope, r - curve(r).value / slope(r).value, left - 1);
    }
  }

  /** Whatever the function, a converged rate is in range and matches the price. */
  lemma {:induction false} NewtonSound(f: real -> real, slope: real -> real, r: real, left: nat)
    requires LOW <= r <= 1.0 && Newton(f, slope, r, left).Some?
    ensures var rate := Newton(f, slope, r, left).value; LOW <= rate <= 1.0 && Abs(f(rate)) < TOLERANCE
    decreases left
  {
    if Abs(f(r)) >= TOLERANCE {
      NewtonSound(f, slope, r - f(r) / slope(r), left - 1);
    }
  }

  ghost predicate AboveTangents(f: real -> real, slope: real -> real) {
    forall r, s :: LOW <= r <= HIGH && LOW <= s <= HIGH ==> AboveLine(f(s), f(r), slope(r), s - r)
  }

  ghost predicate Downwards(slope: real -> real) {
    forall r :: LOW <= r <= HIGH ==> slope(r) < 0.0
  }

  /** `f` falls, and lies above each of its tangents. */
  ghost predicate ConvexFalling(f: real -> real, slope: real -> real) {
    Downwards(slope) && AboveTangents(f, slope)
  }

  /** The step lands where the tangent crosses zero: never beyond a root, and
      further right when the start is left of it. */
  lemma NewtonStep(f: real -> real, slope: real -> real, r: real, root: real)
    requires ConvexFalling(f, slope) && LOW <= r <= HIGH && LOW <= root <= HIGH && f(root) == 0.0
    ensures var next := r - f(r) / slope(r);
      && next <= root
      && (LOW <= next ==> f(next) >= 0.0)
      && (f(r) > 0.0 ==> r < next)
  {
    var m := slope(r);
    var step := f(r) / m;
    assert step * m == f(r);
    var next := r - step;
    assert AboveLine(f(root), f(r), m, root - r);
    assert m * (root - r) + f(r) == m * (root - next);
    assert m * (root - next) <= 0.0;
    Downhill(m, root - next);
    if LOW <= next {
      assert AboveLine(f(next), f(r), m, next - r);
      assert m * (next - r) == -f(r);
    }
    assert m * (next - r) == -f(r);
    Downhill(m, next - r);
  }

  lemma Downhill(m: real, d: real)
    requires m < 0.0
    ensures m * d <= 0.0 ==> d >= 0.0
    ensures m * d < 0.0 ==> d > 0.0
  {
  }

  /** The k-th iterate without the guards. */
  function Iterate(f: real -> real, slope: real -> real, r: real, k: nat): real
    decreases k
  {
    if k == 0 || slope(r) == 0.0 then r else Iterate(f, slope, r - f(r) / slope(r), k - 1)
  }

  /** Started left of a root, the iteration climbs towards it and never leaves the
      range: it can only end by matching the price or by running out. */
  lemma {:induction false} NewtonClimbs(f: real -> real, slope: real -> real, r: real, root: real, left: nat)
    requires ConvexFalling(f, slope) && LOW <= r <= root <= 1.0 && f(root) == 0.0 && f(r) >= 0.0
    ensures match Newton(f, slope, r, left)
      case Some(rate) => r <= rate <= root
      case None => forall k :: 0 <= k < left ==>
        r <= Iterate(f, slope, r, k) <= root && Abs(f(Iterate(f, slope, r, k))) >= TOLERANCE
    decreases left
  {
    if left > 0 && Abs(f(r)) >= TOLERANCE {
      var next := r - f(r) / slope(r);
      NewtonStep(f, slope, r, root);
      NewtonClimbs(f, slope, next, root, left - 1);
      assert Newton(f, slope, r, left) == Newton(f, slope, next, left - 1);
      forall k | 0 < k < left ensures Iterate(f, slope, r, k) == Iterate(f, slope, next, k - 1) {
      }
    }
  }

  // ---------------------------------------------------------------- both together

  /** Newton's method, and bisection where it gives up. */
  function Solve(f: real -> real, slope: real -> real, guess: real): Option<real> {
    var newton := Newton(f, slope, guess, MAX_ITERATIONS);
    if newton.Some? then newton else Bisect(f)
  }

  /** The first guess, the first step, or the first midpoint happens to hit the root -0.5. */
  predicate HitsLeftRoot(f: real -> real, slope: real -> real, guess: real) {
    || Abs(f(guess)) < TOLERANCE
    || (slope(guess) != 0.0 && guess - f(guess) / slope(guess) == LOW)
    || Abs(f(0.75)) < TOLERANCE
  }

  lemma NewtonAtLeftRoot(f: real -> real, slope: real -> real, guess: real)
    requires Decreasing(f) && ConvexFalling(f, slope) && LOW <= guess <= 1.0 && f(LOW) == 0.0
    ensures Newton(f, slope, guess, MAX_ITERATIONS).Some? <==>
      Abs(f(guess)) < TOLERANCE || guess - f(guess) / slope(guess) == LOW
  {
    if Abs(f(guess)) >= TOLERANCE {
      Falls(f, LOW, guess);
      var next := guess - f(guess) / slope(guess);
      NewtonStep(f, slope, guess, LOW);
      assert Newton(f, slope, guess, MAX_ITERATIONS)
          == if next < LOW || next == guess then None else Newton(f, slope, next, MAX_ITERATIONS - 1);
      if next == LOW {
        assert guess != LOW;
        assert Newton(f, slope, LOW, MAX_ITERATIONS - 1) == Some(LOW);
      }
    }
  }

  /** For a falling convex price curve a rate that is returned solves the equation exactly
      when the root is not the left bound itself, or one of three evaluations hits it. */
  lemma SolveSolvesIff(f: real -> real, slope: real -> real, guess: real)
    requires Decreasing(f) && ConvexFalling(f, slope) && LOW <= guess <= 1.0
    ensures match Solve(f, slope, guess)
      case Some(rate) => LOW <= rate <= HIGH && (Solves(f, rate) <==> f(LOW) != 0.0 || HitsLeftRoot(f, slope, guess))
      case None => forall s :: LOW <= s <= HIGH ==> f(s) != 0.0
  {
    if Newton(f, slope, guess, MAX_ITERATIONS).Some? {
      NewtonSound(f, slope, guess, MAX_ITERATIONS);
      if f(LOW) == 0.0 {
        NewtonAtLeftRoot(f, slope, guess);
      }
    } else if Alike(f(LOW), f(HIGH)) {
      forall s | LOW <= s <= HIGH ensures f(s) != 0.0 {
        Falls(f, LOW, s);
        Falls(f, s, HIGH);
      }
    } else {
      Falls(f, LOW, HIGH);
      BisectMissesLeftRootIff(f);
      if f(LOW) == 0.0 {
        NewtonAtLeftRoot(f, slope, guess);
        BisectInside(f, LOW, HIGH, MAX_HALVINGS);
      } else {
        BisectContract(f);
      }
    }
  }

  lemma {:induction false} BisectInside(f: real -> real, low: real, high: real, left: nat)
    requires low < high
    ensures low < BisectFrom(f, low, high, left) < high
    decreases left
  {
    var mid := (low + high) / 2.0;
    if left > 0 && !(Abs(f(mid)) < TOLERANCE || high - low < MIN_WIDTH) {
      if Opposite(f(low), f(mid)) {
        BisectInside(f, low, mid, left - 1);
      } else {
        BisectInside(f, mid, high, left - 1);
      }
    }
  }

  /** Nothing need be known of the curve for a rate to be in range and, unless the left
      bound itself is a root, to solve the equation. */
  lemma SolveSolves(f: real -> real, slope: real -> real, guess: real)
    requires LOW <= guess <= 1.0
    ensures match Solve(f, slope, guess)
      case Some(rate) => LOW <= rate <= HIGH && (f(LOW) != 0.0 ==> Solves(f, rate))
      case None => Alike(f(LOW), f(HIGH))
  {
    if Newton(f, slope, guess, MAX_ITERATIONS).Some? {
      NewtonSound(f, slope, guess, MAX_ITERATIONS);
    } else if !Alike(f(LOW), f(HIGH)) {
      BisectInside(f, LOW, HIGH, MAX_HALVINGS);
      if f(LOW) != 0.0 {
        BisectContract(f);
      }
    }
  }

  /** None of the three hits: the result lies right of 0.75 and solves nothing. */
  lemma LeftRootSteppedOver(f: real -> real, slope: real -> real, guess: real)
    requires Decreasing(f) && ConvexFalling(f, slope) && LOW <= guess <= 1.0
    requires f(LOW) == 0.0 && !HitsLeftRoot(f, slope, guess)
    ensures Solve(f, slope, guess).Some? && Solve(f, slope, guess).value > 0.75
    ensures !Solves(f, Solve(f, slope, guess).value)
  {
    SolveSolvesIff(f, slope, guess);
    NewtonAtLeftRoot(f, slope, guess);
    BisectStep(f, LOW, HIGH, MAX_HALVINGS);
    BisectInside(f, 0.75, HIGH, MAX_HALVINGS - 1);
  }
}
