/** The coupon grid: dates stepped back from the maturity in whole periods. Days
    are ordinal numbers. `Grid` is the specification of the three loops that
    generate it; `GridIsExact` says what it contains without computing it. */
module Grid {
  import opened Seqs

  /** Ordinal of 1900-01-01, the floor of backward stepping. */
  const MIN_COUPON_DATE := 693596

  predicate OnGrid(maturity: int, period: int, day: int)
    requires period > 0
  {
    day <= maturity && (maturity - day) % period == 0
  }

  /** ceil((maturity - today) / period), or 0 once matured. */
  function Count(maturity: int, period: int, today: int): nat
    requires period > 0
  {
    if maturity <= today then 0 else (maturity - today - 1) / period + 1
  }

  function Grid(maturity: int, period: int, today: int): seq<int>
    requires period > 0
  {
    var n := Count(maturity, period, today);
    seq(n, i => maturity - (n - 1 - i) * period)
  }

  ghost predicate Increasing(days: seq<int>) {
    forall i, j :: 0 <= i < j < |days| ==> days[i] < days[j]
  }

  lemma {:induction false} Stepped(period: int, i: int, j: int)
    requires period > 0 && i < j
    ensures i * period + period <= j * period
    decreases j - i
  {
    assert j * period == (j - 1) * period + period;
    if i < j - 1 {
      Stepped(period, i, j - 1);
    }
  }

  lemma QuotientIs(a: int, d: int, q: int)
    requires d > 0 && q * d <= a < q * d + d
    ensures a / d == q && a % d == a - q * d
  {
    var p := a / d;
    assert a == p * d + a % d;
    if p > q {
      Stepped(d, q, p);
    } else if p < q {
      Stepped(d, p, q);
    }
  }

  /** The number of steps that stay after `today` is the count. */
  lemma CountIs(maturity: int, period: int, today: int, k: nat)
    requires period > 0 && maturity - k * period <= today
    requires k > 0 ==> maturity - (k - 1) * period > today
    ensures k == Count(maturity, period, today)
  {
    if k > 0 {
      var a := maturity - today - 1;
      assert (k - 1) * period <= a < k * period by {
        assert k * period == (k - 1) * period + period;
      }
      QuotientIs(a, period, k - 1);
    }
  }

  lemma CountBounds(maturity: int, period: int, today: int)
    requires period > 0
    ensures maturity - Count(maturity, period, today) * period <= today
    ensures maturity > today ==> Count(maturity, period, today) > 0
    ensures maturity > today ==> maturity - (Count(maturity, period, today) - 1) * period > today
  {
    if maturity > today {
      var a := maturity - today - 1;
      var q := a / period;
      assert a == q * period + a % period;
      assert (q + 1) * period == q * period + period;
    }
  }

  lemma GridIncreasing(maturity: int, period: int, today: int)
    requires period > 0
    ensures Increasing(Grid(maturity, period, today))
  {
    var n := Count(maturity, period, today);
    var grid := Grid(maturity, period, today);
    forall i, j | 0 <= i < j < n ensures grid[i] < grid[j] {
      Stepped(period, n - 1 - j, n - 1 - i);
    }
  }

  lemma MemberIsOnGrid(maturity: int, period: int, today: int, i: nat)
    requires period > 0 && i < Count(maturity, period, today)
    ensures today < Grid(maturity, period, today)[i] && OnGrid(maturity, period, Grid(maturity, period, today)[i])
  {
    var n := Count(maturity, period, today);
    var k := n - 1 - i;
    CountBounds(maturity, period, today);
    if k < n - 1 {
      Stepped(period, k, n - 1);
    }
    if k > 0 {
      Stepped(period, 0, k);
    }
    QuotientIs(k * period, period, k);
  }

  lemma OnGridIsMember(maturity: int, period: int, today: int, day: int)
    requires period > 0 && today < day && OnGrid(maturity, period, day)
    ensures day in Grid(maturity, period, today)
  {
    var n := Count(maturity, period, today);
    var k := (maturity - day) / period;
    assert maturity - day == k * period;
    CountBounds(maturity, period, today);
    if k > n {
      Stepped(period, n, k);
    }
    assert k < n;
    assert Grid(maturity, period, today)[n - 1 - k] == day;
  }

  lemma GridMember(maturity: int, period: int, today: int, day: int)
    requires period > 0
    ensures day in Grid(maturity, period, today) <==> today < day && OnGrid(maturity, period, day)
  {
    if day in Grid(maturity, period, today) {
      var i :| 0 <= i < Count(maturity, period, today) && Grid(maturity, period, today)[i] == day;
      MemberIsOnGrid(maturity, period, today, i);
    }
    if today < day && OnGrid(maturity, period, day) {
      OnGridIsMember(maturity, period, today, day);
    }
  }

  /** Increasing, and exactly the grid dates after today; there is no other such list. */
  lemma GridIsExact(maturity: int, period: int, today: int)
    requires period > 0
    ensures Increasing(Grid(maturity, period, today))
    ensures forall day :: day in Grid(maturity, period, today) <==> today < day && OnGrid(maturity, period, day)
    ensures maturity > today ==>
      var grid := Grid(maturity, period, today);
      |grid| > 0 && grid[|grid| - 1] == maturity
  {
    GridIncreasing(maturity, period, today);
    CountBounds(maturity, period, today);
    forall day ensures day in Grid(maturity, period, today) <==> today < day && OnGrid(maturity, period, day) {
      GridMember(maturity, period, today, day);
    }
  }

  lemma FrontIsBelowLast(xs: seq<int>)
    requires Increasing(xs) && xs != []
    ensures var m := |xs| - 1;
      && Increasing(xs[..m])
      && xs[m] in xs
      && (forall d :: d in xs ==> d <= xs[m])
      && (forall d :: d in xs[..m] <==> d in xs && d != xs[m])
  {
    assert xs == xs[..|xs| - 1] + [xs[|xs| - 1]];
  }

  lemma {:induction false} IncreasingListsAgree(xs: seq<int>, ys: seq<int>)
    requires Increasing(xs) && Increasing(ys)
    requires forall d :: d in xs <==> d in ys
    ensures xs == ys
  {
    if xs != [] {
      FrontIsBelowLast(xs);
    }
    if ys != [] {
      FrontIsBelowLast(ys);
    }
    if xs != [] && ys != [] {
      var m, n := |xs| - 1, |ys| - 1;
      assert xs[m] == ys[n];
      IncreasingListsAgree(xs[..m], ys[..n]);
      assert xs == xs[..m] + [xs[m]] && ys == ys[..n] + [ys[n]];
    }
  }

  // ---------------------------------------------------------------- the three generators

  ghost predicate SteppedBack(dates: seq<int>, maturity: int, period: int) {
    forall j :: 0 <= j < |dates| ==> dates[j] == maturity - j * period
  }

  lemma ReversedIsGrid(dates: seq<int>, maturity: int, period: int, today: int)
    requires period > 0 && SteppedBack(dates, maturity, period)
    requires |dates| == Count(maturity, period, today)
    ensures Reverse(dates) == Grid(maturity, period, today)
  {
  }

  lemma OneStepBack(dates: seq<int>, maturity: int, period: int)
    requires SteppedBack(dates, maturity, period)
    ensures SteppedBack(dates + [maturity - |dates| * period], maturity, period)
    ensures maturity - (|dates| + 1) * period == maturity - |dates| * period - period
  {
  }

  /** `_future_coupon_dates` of the analytics. */
  method FutureCouponDates(maturity: int, period: int, today: int) returns (dates: seq<int>)
    ensures period <= 0 ==> dates == []
    ensures period > 0 ==> dates == Grid(maturity, period, today)
  {
    if period <= 0 {
      return [];
    }
    var back: seq<int> := [];
    var current := maturity;
    while current > today
      invariant SteppedBack(back, maturity, period) && current == maturity - |back| * period
      invariant |back| > 0 ==> maturity - (|back| - 1) * period > today
      decreases current - today
    {
      OneStepBack(back, maturity, period);
      back := back + [current];
      current := current - period;
    }
    CountIs(maturity, period, today, |back|);
    ReversedIsGrid(back, maturity, period, today);
    dates := Reverse(back);
  }

  /** `_future_payment_dates` of the yield solver, which has no guard for a
      period of zero: the loop ends only because the period is positive. */
  method FuturePaymentDates(maturity: int, period: int, today: int) returns (dates: seq<int>)
    requires period > 0
    ensures dates == Grid(maturity, period, today)
  {
    dates := [];
    var current := maturity;
    while current > today
      invariant SteppedBack(dates, maturity, period) && current == maturity - |dates| * period
      invariant |dates| > 0 ==> maturity - (|dates| - 1) * period > today
      decreases current - today
    {
      OneStepBack(dates, maturity, period);
      dates := dates + [current];
      current := current - period;
    }
    CountIs(maturity, period, today, |dates|);
    ReversedIsGrid(dates, maturity, period, today);
    dates := Reverse(dates);
  }

  datatype CouponPayment = CouponPayment(paymentDate: int, amount: real, isFinal: bool)

  datatype Schedule = Payments(payments: seq<CouponPayment>) | ValueError

  /** Coupon of one period, ACT/365. */
  function Coupon(nominal: int, rate: real, period: int): real {
    nominal as real * rate / 100.0 * (period as real / 365.0)
  }

  /** The dates after the first coupon: the grid, cut at the floor; a maturity
      below the floor stays. */
  function ScheduleGrid(maturity: int, period: int, first: int): seq<int>
    requires period > 0
  {
    if maturity < MIN_COUPON_DATE then [maturity]
    else Grid(maturity, period, if first < MIN_COUPON_DATE then MIN_COUPON_DATE - 1 else first)
  }

  function PaymentOn(day: int, maturity: int, coupon: real, nominal: int): CouponPayment {
    CouponPayment(day, coupon + (if day == maturity then nominal as real else 0.0), day == maturity)
  }

  method BuildCouponSchedule(rate: real, period: int, maturity: int, nominal: int, start: Option<int>)
    returns (schedule: Schedule)
    ensures schedule.ValueError? <==>
      period < 0 || rate < 0.0 || nominal <= 0 || (period > 0 && start.Some? && start.value >= maturity)
    ensures schedule.Payments? && period == 0 ==>
      schedule.payments == [CouponPayment(maturity, nominal as real, true)]
    ensures schedule.Payments? && period > 0 ==>
      var first := if start.Some? then start.value else maturity - period;
      schedule.payments == Map([first] + ScheduleGrid(maturity, period, first),
        (day: int) => PaymentOn(day, maturity, Coupon(nominal, rate, period), nominal))
  {
    if period < 0 || rate < 0.0 || nominal <= 0 {
      return ValueError;
    }
    if period == 0 {
      return Payments([CouponPayment(maturity, nominal as real, true)]);
    }
    var first := if start.None? then maturity - period else start.value;
    if first >= maturity {
      return ValueError;
    }
    var coupon := Coupon(nominal, rate, period);
    var grid := [maturity];
    var current := maturity - period;
    ghost var bound := if first < MIN_COUPON_DATE then MIN_COUPON_DATE - 1 else first;
    while current > first && current >= MIN_COUPON_DATE
      invariant |grid| > 0 && SteppedBack(grid, maturity, period) && current == maturity - |grid| * period
      invariant |grid| == 1 || maturity - (|grid| - 1) * period > bound
      decreases current - first
    {
      OneStepBack(grid, maturity, period);
      grid := grid + [current];
      current := current - period;
    }
    if maturity < MIN_COUPON_DATE {
      if |grid| > 1 {
        Stepped(period, 0, |grid| - 1);
        assert false;
      }
      assert Reverse(grid) == [maturity];
    } else {
      CountIs(maturity, period, bound, |grid|);
      ReversedIsGrid(grid, maturity, period, bound);
    }
    grid := Reverse(grid);
    schedule := Payments(Map([first] + grid, (day: int) => PaymentOn(day, maturity, coupon, nominal)));
  }

  /** After the first coupon: increasing, and exactly the grid dates after it that are not below
      the floor, the maturity always. */
  lemma ScheduleGridIsExact(maturity: int, period: int, first: int)
    requires period > 0 && first < maturity
    ensures Increasing(ScheduleGrid(maturity, period, first))
    ensures forall day :: day in ScheduleGrid(maturity, period, first) <==>
      first < day && OnGrid(maturity, period, day) && (day >= MIN_COUPON_DATE || day == maturity)
  {
    QuotientIs(0, period, 0);
    if maturity >= MIN_COUPON_DATE {
      GridIsExact(maturity, period, if first < MIN_COUPON_DATE then MIN_COUPON_DATE - 1 else first);
    }
  }

  /** The schedule started on a day continues with the grid after that day exactly
      when no grid date but the maturity lies below the floor. */
  lemma ScheduleContinuesGridIff(maturity: int, period: int, first: int)
    requires period > 0 && first < maturity
    ensures ScheduleGrid(maturity, period, first) == Grid(maturity, period, first) <==>
      Count(maturity, period, first) == 1 || Grid(maturity, period, first)[0] >= MIN_COUPON_DATE
  {
    var grid := Grid(maturity, period, first);
    GridIsExact(maturity, period, first);
    if maturity >= MIN_COUPON_DATE && first < MIN_COUPON_DATE {
      var cut := Grid(maturity, period, MIN_COUPON_DATE - 1);
      GridIsExact(maturity, period, MIN_COUPON_DATE - 1);
      assert grid[0] in grid;
      if grid == cut {
        assert grid[0] in cut;
      }
      if Count(maturity, period, first) == 1 || grid[0] >= MIN_COUPON_DATE {
        forall d ensures d in grid <==> d in cut {
          if d in grid {
            assert d >= grid[0];
          }
        }
        IncreasingListsAgree(grid, cut);
      }
    }
  }

  // ---------------------------------------------------------------- last coupon and accrual

  function LastCoupon(maturity: int, period: int, today: int): Option<int> {
    if period <= 0 then None
    else if maturity < today then Some(maturity)
    else
      var day := maturity - ((maturity - today) / period + 1) * period;
      if day < MIN_COUPON_DATE then None else Some(day)
  }

  method LastCouponDate(maturity: int, period: int, today: int) returns (last: Option<int>)
    ensures last == LastCoupon(maturity, period, today)
  {
    if period <= 0 {
      return None;
    }
    var current := maturity;
    ghost var k := 0;
    while current >= today
      invariant k >= 0 && current == maturity - k * period
      invariant k > 0 ==> current >= MIN_COUPON_DATE && maturity - (k - 1) * period >= today
      decreases current - today
    {
      current := current - period;
      k := k + 1;
      if current < MIN_COUPON_DATE {
        if current >= today {
          BelowFloorEarlier(maturity, period, today, k);
        } else {
          LastStep(maturity, period, today, k);
        }
        return None;
      }
    }
    if k > 0 {
      LastStep(maturity, period, today, k);
    }
    last := Some(current);
  }

  lemma LastStep(maturity: int, period: int, today: int, k: int)
    requires period > 0 && k > 0
    requires maturity - k * period < today <= maturity - (k - 1) * period
    ensures (maturity - today) / period + 1 == k && maturity >= today
  {
    if k > 1 {
      Stepped(period, 0, k - 1);
    }
    assert k * period == (k - 1) * period + period;
    QuotientIs(maturity - today, period, k - 1);
  }

  lemma BelowFloorEarlier(maturity: int, period: int, today: int, k: int)
    requires period > 0 && k > 0
    requires today <= maturity - k * period < MIN_COUPON_DATE
    ensures LastCoupon(maturity, period, today).None?
  {
    Stepped(period, 0, k);
    var q := (maturity - today) / period;
    assert maturity - today == q * period + (maturity - today) % period;
    assert (q + 1) * period == q * period + period;
    if q + 1 < k {
      Stepped(period, q + 1, k);
    } else if q + 1 > k {
      Stepped(period, k, q + 1);
    }
  }

  /** `last` is the latest grid date strictly before today. */
  ghost predicate IsLatest(maturity: int, period: int, today: int, last: int)
    requires period > 0
  {
    && last < today && OnGrid(maturity, period, last)
    && forall day :: OnGrid(maturity, period, day) && day < today ==> day <= last
  }

  lemma NextStep(k: int, period: int)
    ensures (k + 1) * period == k * period + period
  {
  }

  lemma StepBehindIsLatest(maturity: int, period: int, today: int)
    requires period > 0 && maturity >= today
    ensures IsLatest(maturity, period, today, maturity - ((maturity - today) / period + 1) * period)
  {
    var q := (maturity - today) / period;
    var last := maturity - (q + 1) * period;
    assert maturity - today == q * period + (maturity - today) % period;
    NextStep(q, period);
    QuotientIs((q + 1) * period, period, q + 1);
    forall day | OnGrid(maturity, period, day) && last < day ensures today <= day {
      var k := (maturity - day) / period;
      assert maturity - day == k * period;
      if k > q + 1 {
        Stepped(period, q + 1, k);
      } else if k < q {
        Stepped(period, k, q);
      }
    }
  }

  /** The last coupon date is the latest grid date strictly before today; there is none exactly
      when that lies below the floor, unless the bond has matured. */
  lemma LastCouponIsLatest(maturity: int, period: int, today: int, last: int)
    requires period > 0 && IsLatest(maturity, period, today, last)
    ensures LastCoupon(maturity, period, today)
         == if maturity < today || last >= MIN_COUPON_DATE then Some(last) else None
  {
    if maturity >= today {
      StepBehindIsLatest(maturity, period, today);
      var behind := maturity - ((maturity - today) / period + 1) * period;
      assert behind <= last && last <= behind;
    } else {
      QuotientIs(0, period, 0);
      assert OnGrid(maturity, period, maturity);
    }
  }

  datatype Accrued = Amount(value: real) | Invalid

  /** `calculate_accrued_coupon`: capped linear accrual. */
  function AccruedCoupon(rate: real, period: int, last: int, today: int, nominal: int): Accrued {
    if period < 0 || rate < 0.0 || nominal <= 0 then Invalid
    else if period == 0 then Amount(0.0)
    else
      var coupon := Coupon(nominal, rate, period);
      var days := today - last;
      if days < 0 then Amount(0.0)
      else if days >= period then Amount(coupon)
      else Amount(coupon * days as real / period as real)
  }

  /** What accrues in `days` days when nothing is capped. */
  function Linear(nominal: int, rate: real, days: int): real {
    nominal as real * rate / 100.0 * days as real / 365.0
  }

  /** Up to one period the cap and the period length cancel out. */
  lemma AccrualIsLinear(rate: real, period: int, last: int, today: int, nominal: int)
    requires period > 0 && rate >= 0.0 && nominal > 0 && 0 <= today - last <= period
    ensures AccruedCoupon(rate, period, last, today, nominal) == Amount(Linear(nominal, rate, today - last))
  {
    var yearly, p, days := nominal as real * rate / 100.0, period as real, (today - last) as real;
    assert yearly * (p / 365.0) * days == yearly * days / 365.0 * p;
    assert yearly * (p / 365.0) * days / p == yearly * days / 365.0;
  }

  /** Exactly the inputs out of range are refused; otherwise, on any day, the accrued amount is the
      interest of the days since the last coupon, not less than for none and not more than for a
      whole period, which is nothing at all without a period. */
  lemma AccruedIsClamped(rate: real, period: int, last: int, today: int, nominal: int)
    ensures var accrued := AccruedCoupon(rate, period, last, today, nominal);
      accrued.Invalid? <==> period < 0 || rate < 0.0 || nominal <= 0
    ensures period >= 0 && rate >= 0.0 && nominal > 0 ==>
      var days := if today < last then 0 else if today - last > period then period else today - last;
      AccruedCoupon(rate, period, last, today, nominal)
        == Amount(nominal as real * rate / 100.0 * days as real / 365.0)
  {
    if period == 0 || today < last {
      assert nominal as real * rate / 100.0 * 0.0 == 0.0;
    } else if period > 0 && rate >= 0.0 && nominal > 0 {
      AccrualIsLinear(rate, period, last, if today - last <= period then today else last + period, nominal);
    }
  }

  lemma LastIs(maturity: int, period: int, today: int)
    requires 0 < period && today < maturity && MIN_COUPON_DATE <= today - period
    ensures LastCoupon(maturity, period, today) == Some(today + (maturity - today) % period - period)
  {
    var q, r := (maturity - today) / period, (maturity - today) % period;
    assert maturity - today == q * period + r;
    NextStep(q, period);
  }

  lemma FirstIs(maturity: int, period: int, today: int)
    requires 0 < period && today < maturity
    ensures Grid(maturity, period, today) != []
    ensures var r := (maturity - today) % period;
      Grid(maturity, period, today)[0] == today + (if r == 0 then period else r)
  {
    var q, r := (maturity - today) / period, (maturity - today) % period;
    assert maturity - today == q * period + r;
    if r == 0 {
      NextStep(q - 1, period);
      CountIs(maturity, period, today, q);
    } else {
      NextStep(q, period);
      CountIs(maturity, period, today, q + 1);
    }
  }

  /** For an unmatured bond the neighbouring coupon dates are one period apart off
      the grid and two on it, and between one and `period` days have accrued. */
  lemma NeighbouringCoupons(maturity: int, period: int, today: int)
    requires 0 < period && today < maturity && MIN_COUPON_DATE <= today - period
    ensures LastCoupon(maturity, period, today).Some?
    ensures Grid(maturity, period, today) != []
    ensures var last := LastCoupon(maturity, period, today).value;
      && 1 <= today - last <= period
      && Grid(maturity, period, today)[0] - last == (if OnGrid(maturity, period, today) then 2 * period else period)
      && (OnGrid(maturity, period, today) <==> today - last == period)
  {
    LastIs(maturity, period, today);
    FirstIs(maturity, period, today);
  }

  lemma LastOneDayLater(maturity: int, period: int, today: int)
    requires 0 < period && today + 1 < maturity && MIN_COUPON_DATE <= today - period
    requires LastCoupon(maturity, period, today).Some? && LastCoupon(maturity, period, today + 1).Some?
    ensures LastCoupon(maturity, period, today + 1).value
         == if OnGrid(maturity, period, today) then today else LastCoupon(maturity, period, today).value
  {
    StepBehindIsLatest(maturity, period, today);
    StepBehindIsLatest(maturity, period, today + 1);
  }

  /** Sawtooth: the accrued coupon grows by one day's interest every day, except
      that on the day after a coupon date it falls back to one day's interest. */
  lemma Sawtooth(rate: real, period: int, maturity: int, today: int, nominal: int)
    requires 0 < period && rate >= 0.0 && nominal > 0
    requires today + 1 < maturity && MIN_COUPON_DATE <= today - period
    ensures LastCoupon(maturity, period, today).Some? && LastCoupon(maturity, period, today + 1).Some?
    ensures var last := LastCoupon(maturity, period, today).value;
      var next := LastCoupon(maturity, period, today + 1).value;
      var now := AccruedCoupon(rate, period, last, today, nominal);
      var tomorrow := AccruedCoupon(rate, period, next, today + 1, nominal);
      && now == Amount(Linear(nominal, rate, today - last))
      && tomorrow == Amount(Linear(nominal, rate, if OnGrid(maturity, period, today) then 1 else today + 1 - last))
  {
    NeighbouringCoupons(maturity, period, today);
    NeighbouringCoupons(maturity, period, today + 1);
    LastOneDayLater(maturity, period, today);
    var last := LastCoupon(maturity, period, today).value;
    var next := LastCoupon(maturity, period, today + 1).value;
    AccrualIsLinear(rate, period, last, today, nominal);
    AccrualIsLinear(rate, period, next, today + 1, nominal);
  }
}
