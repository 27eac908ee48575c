/** What a computed summary lists, said of the history and the bonds: which positions, with
    which yields and dates, and which payments of the calendar. */
module SummaryContents {
  import opened Seqs
  import opened Sorting
  import opened Transactions
  import opened Netting
  import opened NettingLaws
  import opened Grouping
  import opened Calendar
  import opened Summary
  import opened Views
  import opened Ytm
  import G = Grid

  /** The rows of the history on a bond, in their order. */
  ghost predicate AreRowsOn(rows: seq<Transaction>, txns: seq<Transaction>, bond: int) {
    forall t :: multiset(rows)[t] == if t.bondId == bond then multiset(txns)[t] else 0
  }

  /** Open: known, and more bought than sold and redeemed. */
  predicate HasOpen(inputs: Inputs, id: int) {
    id in inputs.bonds && Net(inputs.Rows(id)) > 0
  }

  lemma OpenIff(inputs: Inputs, id: int)
    ensures IsOpen(inputs, id) <==> HasOpen(inputs, id)
    ensures AreRowsOn(inputs.Rows(id), inputs.txns, id)
  {
    QuantityAndCommissions(inputs.Rows(id));
    FilterCounts(inputs.txns, OnBond(id));
  }

  lemma {:induction false} NetOfNothing(txns: seq<Transaction>, bond: int)
    requires Net(Filter(txns, OnBond(bond))) != 0
    ensures exists t :: t in txns && t.bondId == bond
  {
    FilterMembers(txns, OnBond(bond));
    assert Filter(txns, OnBond(bond)) != [];
    assert Filter(txns, OnBond(bond))[0] in Filter(txns, OnBond(bond));
  }

  lemma OpenBondsAre(inputs: Inputs)
    ensures forall id :: id in OpenBonds(inputs) <==> HasOpen(inputs, id)
    ensures G.Increasing(OpenBonds(inputs))
  {
    BondIdsAscend(inputs.txns);
    FilterMembers(BondIds(inputs.txns), OpenIn(inputs));
    SelectionAscends(BondIds(inputs.txns), OpenIn(inputs));
    forall id ensures id in OpenBonds(inputs) <==> HasOpen(inputs, id) {
      OpenIff(inputs, id);
      if HasOpen(inputs, id) {
        NetOfNothing(inputs.txns, id);
      }
    }
  }

  lemma {:induction false} SelectionAscends(ids: seq<int>, p: int -> bool)
    requires G.Increasing(ids)
    ensures G.Increasing(Filter(ids, p))
  {
    if ids != [] {
      var n := |ids| - 1;
      var kept := Filter(ids[..n], p);
      SelectionAscends(ids[..n], p);
      FilterMembers(ids[..n], p);
      forall i | 0 <= i < |kept| ensures kept[i] < ids[n] {
        assert kept[i] in kept;
        var j :| 0 <= j < n && ids[..n][j] == kept[i];
      }
    }
  }

  // ---------------------------------------------------------------- positions

  /** The identity, the quantity and the cost of a position. */
  predicate IsHolding(p: PositionAnalytics, bond: Bond, rows: seq<Transaction>) {
    && p.bondId == bond.id && p.isin == bond.isin && p.name == bond.name && p.maturityDate == bond.maturityDate
    && p.quantity == Net(rows)
    && Value(p.avgBuyPrice, Walk(rows).openQuantity) == Walk(rows).costBasis
    && p.totalInvested == Value(p.avgBuyPrice, p.quantity)
  }

  lemma PositionIsHolding(solver: YieldSolver, inputs: Inputs, today: int, id: int)
    requires inputs.Valid() && HasOpen(inputs, id)
    ensures IsHolding(PositionOf(solver, inputs, today, id), inputs.bonds[id], inputs.Rows(id))
    ensures PositionOf(solver, inputs, today, id).avgBuyPrice > 0.0
  {
    OpenIff(inputs, id);
    OpenHasAverage(inputs, id);
    FilterMembers(inputs.txns, OnBond(id));
    QuantityAndCommissions(inputs.Rows(id));
    AverageIsShare(inputs.Rows(id));
    ValueWithinBasis(inputs.Rows(id));
  }

  /** The yields of a position: the solver's for its average price while the bond is not
      matured, and the yearly coupon over that price where the inputs were acceptable. */
  predicate HasYields(p: PositionAnalytics, bond: Bond, solved: Yield, today: int) {
    && p.ytm == (if bond.maturityDate > today && solved.Rate? then Some(solved.rate) else None)
    && (p.currentYield.Some? <==>
          bond.maturityDate > today && (solved.Rate? || solved.NoRoot?) && bond.nominal > 0 && bond.couponRate >= 0.0)
    && (p.currentYield.Some? ==>
          p.currentYield.value * p.avgBuyPrice == bond.nominal as real * bond.couponRate / 100.0)
  }

  lemma PositionHasYields(solver: YieldSolver, inputs: Inputs, today: int, id: int)
    requires inputs.Valid() && HasOpen(inputs, id)
    ensures var p, bond := PositionOf(solver, inputs, today, id), inputs.bonds[id];
      HasYields(p, bond, solver(bond, p.avgBuyPrice, today, PositionCashflows(inputs.CouponRows(id), bond)), today)
  {
    PositionIsHolding(solver, inputs, today, id);
    var bond, price := inputs.bonds[id], PriceOf(inputs.Rows(id));
    CancelQuotient(bond.nominal as real * bond.couponRate / 100.0, price);
  }

  /** The next coupon is the first grid date after today; the accrued coupon is the interest
      since the last one before today, for at most a period. */
  ghost predicate HasCoupons(p: PositionAnalytics, bond: Bond, today: int) {
    && (p.nextCouponDate.Some? <==> bond.couponPeriodDays > 0 && bond.maturityDate > today)
    && (p.nextCouponDate.Some? ==>
          IsNext(bond.maturityDate, bond.couponPeriodDays, today, p.nextCouponDate.value))
    && (bond.couponPeriodDays <= 0 ==> p.accruedCoupon == 0.0)
  }

  ghost predicate IsNext(maturity: int, period: int, today: int, day: int)
    requires period > 0
  {
    && today < day <= maturity && (maturity - day) % period == 0
    && forall earlier :: today < earlier < day ==> !G.OnGrid(maturity, period, earlier)
  }

  lemma PositionHasCoupons(solver: YieldSolver, inputs: Inputs, today: int, id: int)
    requires inputs.Valid() && HasOpen(inputs, id)
    ensures HasCoupons(PositionOf(solver, inputs, today, id), inputs.bonds[id], today)
  {
    var bond := inputs.bonds[id];
    if bond.couponPeriodDays > 0 && bond.maturityDate > today {
      FirstIsNext(bond.maturityDate, bond.couponPeriodDays, today);
    }
  }

  lemma FirstIsNext(maturity: int, period: int, today: int)
    requires period > 0 && maturity > today
    ensures G.Grid(maturity, period, today) != [] && IsNext(maturity, period, today, G.Grid(maturity, period, today)[0])
  {
    var grid := G.Grid(maturity, period, today);
    G.GridIsExact(maturity, period, today);
    assert grid[0] in grid;
    assert forall i :: 0 <= i < |grid| ==> grid[0] <= grid[i];
  }

  /** `last` being the latest grid date before today, what has accrued on one unit. */
  lemma PositionAccrues(solver: YieldSolver, inputs: Inputs, today: int, id: int, last: int)
    requires inputs.Valid() && HasOpen(inputs, id)
    requires var bond := inputs.bonds[id];
      && bond.couponPeriodDays > 0 && bond.couponRate >= 0.0 && bond.nominal > 0
      && G.IsLatest(bond.maturityDate, bond.couponPeriodDays, today, last)
    ensures var bond := inputs.bonds[id];
      var days := if today - last > bond.couponPeriodDays then bond.couponPeriodDays else today - last;
      PositionOf(solver, inputs, today, id).accruedCoupon ==
        if bond.maturityDate < today || last >= G.MIN_COUPON_DATE
        then bond.nominal as real * bond.couponRate / 100.0 * days as real / 365.0 else 0.0
  {
    var bond := inputs.bonds[id];
    G.LastCouponIsLatest(bond.maturityDate, bond.couponPeriodDays, today, last);
    G.AccruedIsClamped(bond.couponRate, bond.couponPeriodDays, last, today, bond.nominal);
  }

  lemma OpenPositionIs(solver: YieldSolver, inputs: Inputs, today: int, i: nat)
    requires inputs.Valid() && i < |OpenBonds(inputs)|
    ensures var p, id := Summarize(solver, inputs, today).positions[i], OpenBonds(inputs)[i];
      HasOpen(inputs, id) && p.bondId == id && p == PositionOf(solver, inputs, today, id)
  {
    OpenBondsAre(inputs);
    assert OpenBonds(inputs)[i] in OpenBonds(inputs);
  }

  /** The positions of a summary are the open ones, in ascending order of the bonds, ... */
  lemma PositionsAscend(solver: YieldSolver, inputs: Inputs, today: int, i: nat, j: nat)
    requires inputs.Valid() && i <= j < |Summarize(solver, inputs, today).positions|
    ensures var positions := Summarize(solver, inputs, today).positions;
      && (i < j ==> positions[i].bondId < positions[j].bondId)
      && HasOpen(inputs, positions[i].bondId)
      && positions[i] == PositionOf(solver, inputs, today, positions[i].bondId)
  {
    OpenBondsAre(inputs);
    OpenPositionIs(solver, inputs, today, i);
    OpenPositionIs(solver, inputs, today, j);
  }

  /** ... and every open one is among them. */
  lemma OpenIsListed(solver: YieldSolver, inputs: Inputs, today: int, id: int)
    requires inputs.Valid() && HasOpen(inputs, id)
    ensures PositionOf(solver, inputs, today, id) in Summarize(solver, inputs, today).positions
  {
    OpenBondsAre(inputs);
    var i :| 0 <= i < |OpenBonds(inputs)| && OpenBonds(inputs)[i] == id;
    OpenPositionIs(solver, inputs, today, i);
  }

  // ---------------------------------------------------------------- the calendar

  /** A coupon on every grid date after today, the redemption on the maturity date. */
  predicate IsPaid(flow: Cashflow, bond: Bond, quantity: int, today: int) {
    && flow.bondId == bond.id && flow.isin == bond.isin && today < flow.date <= bond.maturityDate
    && match flow.kind
       case COUPON =>
         && bond.couponPeriodDays > 0 && (bond.maturityDate - flow.date) % bond.couponPeriodDays == 0
         && flow.amount == Value(CouponAmount(bond), quantity)
       case MATURITY => flow.date == bond.maturityDate && flow.amount == (bond.nominal * quantity) as real
  }

  function CouponAmount(bond: Bond): real {
    bond.nominal as real * bond.couponRate / 100.0 * (bond.couponPeriodDays as real / 365.0)
  }

  lemma CouponsArePaid(bond: Bond, quantity: int, today: int, flow: Cashflow)
    requires bond.couponPeriodDays > 0
    ensures flow in Map(FutureDates(bond, today), CouponFlow(bond, quantity)) <==>
      flow.kind.COUPON? && IsPaid(flow, bond, quantity, today)
  {
    var dates := FutureDates(bond, today);
    var coupons := Map(dates, CouponFlow(bond, quantity));
    G.GridIsExact(bond.maturityDate, bond.couponPeriodDays, today);
    assert CouponPerPeriod(bond) == CouponAmount(bond);
    if flow in coupons {
      var i :| 0 <= i < |dates| && coupons[i] == flow;
      assert dates[i] in dates;
    }
    if flow.kind.COUPON? && IsPaid(flow, bond, quantity, today) {
      assert G.OnGrid(bond.maturityDate, bond.couponPeriodDays, flow.date);
      assert flow.date in dates;
      var i :| 0 <= i < |dates| && dates[i] == flow.date;
      assert coupons[i] == flow;
    }
  }

  lemma RedemptionIsPaid(bond: Bond, quantity: int, today: int, flow: Cashflow)
    ensures flow in Redemption(bond, quantity, today) <==> flow.kind.MATURITY? && IsPaid(flow, bond, quantity, today)
  {
  }

  lemma BondPays(bond: Bond, quantity: int, today: int, flow: Cashflow)
    ensures flow in BondFlows(bond, quantity, today) <==> IsPaid(flow, bond, quantity, today)
  {
    RedemptionIsPaid(bond, quantity, today, flow);
    if bond.couponPeriodDays > 0 {
      CouponsArePaid(bond, quantity, today, flow);
    }
  }

  lemma {:induction false} FlatMapMembers(ids: seq<int>, f: int -> seq<Cashflow>, flow: Cashflow)
    ensures flow in FlatMap(ids, f) <==> exists id :: id in ids && flow in f(id)
  {
    if ids != [] {
      var n := |ids| - 1;
      FlatMapMembers(ids[..n], f, flow);
      FrontAndLast(ids);
      assert flow in FlatMap(ids, f) <==> flow in FlatMap(ids[..n], f) || flow in f(ids[n]);
      assert ids[n] in ids;
      forall id | id in ids && id != ids[n] ensures id in ids[..n] {
        var i :| 0 <= i <= n && ids[i] == id;
      }
    }
  }

  predicate IsDue(inputs: Inputs, flow: Cashflow, today: int) {
    && HasOpen(inputs, flow.bondId)
    && IsPaid(flow, inputs.bonds[flow.bondId], Net(inputs.Rows(flow.bondId)), today)
  }

  /** The calendar of a summary, in order, holds exactly the future payments of the open
      positions, per unit times the quantity held. */
  lemma CalendarIsExact(solver: YieldSolver, inputs: Inputs, today: int)
    requires inputs.Valid()
    ensures InCalendarOrder(Summarize(solver, inputs, today).upcomingCashflows)
    ensures forall flow :: flow in Summarize(solver, inputs, today).upcomingCashflows <==> IsDue(inputs, flow, today)
  {
    var ids, flows := OpenBonds(inputs), FlowsOf(inputs, today);
    OpenBondsAre(inputs);
    SortSorts(FlatMap(ids, flows), FlowKey());
    SortedIsInOrder(Sort(FlatMap(ids, flows), FlowKey()));
    forall flow ensures flow in FlatMap(ids, flows) <==> IsDue(inputs, flow, today) {
      FlatMapMembers(ids, flows, flow);
      forall id | id in ids
        ensures flow in flows(id) <==> IsPaid(flow, inputs.bonds[id], Net(inputs.Rows(id)), today)
      {
        QuantityAndCommissions(inputs.Rows(id));
        BondPays(inputs.bonds[id], Net(inputs.Rows(id)), today, flow);
      }
    }
  }

  /** The coupons a summary is published with: the earliest of two years, at most a hundred. */
  lemma NextCouponsAreCalendar(solver: YieldSolver, inputs: Inputs, today: int)
    requires inputs.Valid()
    ensures var summary := Summarize(solver, inputs, today);
      ShowsCoupons(summary.nextCoupons, summary, today + 730, 100)
  {
    DefaultViewIsNextCoupons(solver, inputs, today);
    NextCouponsAreEarliest(Summarize(solver, inputs, today), today, 730, 100);
  }
}
