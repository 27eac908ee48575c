/** The calendar of one open position: its future coupons and its redemption, and
    the stored coupon schedule handed to the yield solver. */
module Calendar {
  import opened Seqs
  import opened Sorting
  import G = Grid
  import PV = PresentValue
  import Ytm

  datatype Bond = Bond(id: int, isin: string, name: string, nominal: int, couponRate: real,
                       couponPeriodDays: int, maturityDate: int)

  datatype FlowKind = COUPON | MATURITY

  datatype Cashflow = Cashflow(date: int, bondId: int, isin: string, kind: FlowKind, amount: real)

  datatype CouponDue = CouponDue(bondId: int, isin: string, name: string, date: int, amount: real)

  /** A row of the stored schedule. */
  datatype CouponRow = CouponRow(couponDate: int, couponAmount: real)

  function FlowKey(): Cashflow -> Key {
    (flow: Cashflow) => (flow.date, flow.bondId)
  }

  function DueKey(): CouponDue -> Key {
    (due: CouponDue) => (due.date, due.bondId)
  }

  // ---------------------------------------------------------------- future events

  function CouponPerPeriod(bond: Bond): real {
    if bond.couponPeriodDays == 0 then 0.0 else G.Coupon(bond.nominal, bond.couponRate, bond.couponPeriodDays)
  }

  function Times(amount: real, quantity: int): real {
    amount * quantity as real
  }

  function FutureDates(bond: Bond, today: int): seq<int> {
    if bond.couponPeriodDays <= 0 || bond.maturityDate <= today then []
    else G.Grid(bond.maturityDate, bond.couponPeriodDays, today)
  }

  function CouponFlow(bond: Bond, quantity: int): int -> Cashflow {
    (day: int) => Cashflow(day, bond.id, bond.isin, COUPON, Times(CouponPerPeriod(bond), quantity))
  }

  function Due(bond: Bond, quantity: int): int -> CouponDue {
    (day: int) => CouponDue(bond.id, bond.isin, bond.name, day, Times(CouponPerPeriod(bond), quantity))
  }

  function Redemption(bond: Bond, quantity: int, today: int): seq<Cashflow> {
    if bond.maturityDate > today
    then [Cashflow(bond.maturityDate, bond.id, bond.isin, MATURITY, (bond.nominal * quantity) as real)] else []
  }

  function UpTo(end: int): int -> bool {
    (day: int) => day <= end
  }

  /** Every coupon after today, then the redemption. */
  function BondFlows(bond: Bond, quantity: int, today: int): seq<Cashflow> {
    Map(FutureDates(bond, today), CouponFlow(bond, quantity)) + Redemption(bond, quantity, today)
  }

  /** The coupons up to the end of the horizon. */
  function BondDues(bond: Bond, quantity: int, today: int, horizonEnd: int): seq<CouponDue> {
    Map(Filter(FutureDates(bond, today), UpTo(horizonEnd)), Due(bond, quantity))
  }

  method FutureBondCashflows(bond: Bond, quantity: int, today: int, horizonEnd: int)
    returns (nextCoupons: seq<CouponDue>, cashflows: seq<Cashflow>)
    ensures nextCoupons == BondDues(bond, quantity, today, horizonEnd)
    ensures cashflows == BondFlows(bond, quantity, today)
  {
    var couponPerPeriod := CouponPerPeriod(bond);
    var dates: seq<int> := [];
    if bond.maturityDate > today {
      dates := G.FutureCouponDates(bond.maturityDate, bond.couponPeriodDays, today);
    }
    assert dates == FutureDates(bond, today);
    nextCoupons, cashflows := [], [];
    for i := 0 to |dates|
      invariant nextCoupons == Map(Filter(dates[..i], UpTo(horizonEnd)), Due(bond, quantity))
      invariant cashflows == Map(dates[..i], CouponFlow(bond, quantity))
    {
      assert dates[..i + 1] == dates[..i] + [dates[i]];
      FilterSnoc(dates[..i], dates[i], UpTo(horizonEnd));
      MapSnoc(dates[..i], dates[i], CouponFlow(bond, quantity));
      MapSnoc(Filter(dates[..i], UpTo(horizonEnd)), dates[i], Due(bond, quantity));
      if dates[i] <= horizonEnd {
        nextCoupons := nextCoupons +
          [CouponDue(bond.id, bond.isin, bond.name, dates[i], Times(couponPerPeriod, quantity))];
      }
      cashflows := cashflows + [Cashflow(dates[i], bond.id, bond.isin, COUPON, Times(couponPerPeriod, quantity))];
    }
    assert dates[..|dates|] == dates;
    if bond.maturityDate > today {
      cashflows := cashflows +
        [Cashflow(bond.maturityDate, bond.id, bond.isin, MATURITY, (bond.nominal * quantity) as real)];
    }
  }

  function Priced(bond: Bond, today: int): seq<PV.Flow>
    requires bond.couponPeriodDays > 0
  {
    Ytm.CashFlows(bond.maturityDate, bond.couponPeriodDays, today, CouponPerPeriod(bond), bond.nominal, None)
  }

  lemma CouponIsPriced(bond: Bond, quantity: int, today: int, i: nat)
    requires bond.couponPeriodDays > 0 && bond.maturityDate > today && i < |FutureDates(bond, today)|
    ensures |Priced(bond, today)| == |FutureDates(bond, today)| < |BondFlows(bond, quantity, today)|
    ensures var flow, priced := BondFlows(bond, quantity, today)[i], Priced(bond, today)[i];
      && flow.kind.COUPON? && flow.date == today + priced.days
      && flow.amount == Times(CouponPerPeriod(bond), quantity)
      && priced.amount == CouponPerPeriod(bond) + (if i + 1 == |Priced(bond, today)| then bond.nominal as real else 0.0)
  {
    var grid := FutureDates(bond, today);
    G.GridIsExact(bond.maturityDate, bond.couponPeriodDays, today);
    assert grid[i] in grid;
    assert BondFlows(bond, quantity, today)[i] == CouponFlow(bond, quantity)(grid[i]);
  }

  /** The calendar and the yield solver agree: on every payment date but the last the
      calendar pays the solver's flow times the quantity, and on the maturity date its
      last coupon and the redemption add up to it. */
  lemma CalendarMatchesPricing(bond: Bond, quantity: int, today: int)
    requires bond.couponPeriodDays > 0 && bond.maturityDate > today
    ensures var flows, priced := BondFlows(bond, quantity, today), Priced(bond, today);
      var n := |priced|;
      && n > 0 && |flows| == n + 1
      && (forall i :: 0 <= i < n ==> flows[i].date == today + priced[i].days && flows[i].kind.COUPON?)
      && (forall i :: 0 <= i < n - 1 ==> flows[i].amount == Times(priced[i].amount, quantity))
      && flows[n].kind.MATURITY? && flows[n].date == flows[n - 1].date == bond.maturityDate
      && flows[n - 1].amount + flows[n].amount == Times(priced[n - 1].amount, quantity)
  {
    var n := |Priced(bond, today)|;
    G.GridIsExact(bond.maturityDate, bond.couponPeriodDays, today);
    forall i | 0 <= i < n
      ensures BondFlows(bond, quantity, today)[i].date == today + Priced(bond, today)[i].days
      ensures BondFlows(bond, quantity, today)[i].kind.COUPON?
      ensures i < n - 1 ==> BondFlows(bond, quantity, today)[i].amount == Times(Priced(bond, today)[i].amount, quantity)
    {
      CouponIsPriced(bond, quantity, today, i);
    }
    CouponIsPriced(bond, quantity, today, n - 1);
    TimesAdds(CouponPerPeriod(bond), bond.nominal, quantity);
  }

  lemma TimesAdds(coupon: real, nominal: int, quantity: int)
    ensures Times(coupon, quantity) + (nominal * quantity) as real == Times(coupon + nominal as real, quantity)
  {
    assert (nominal * quantity) as real == nominal as real * quantity as real;
  }

  // ---------------------------------------------------------------- stored schedule

  function Stored(row: CouponRow, bond: Bond): G.CouponPayment {
    G.PaymentOn(row.couponDate, bond.maturityDate, row.couponAmount, bond.nominal)
  }

  function StoredOf(bond: Bond): CouponRow -> G.CouponPayment {
    (row: CouponRow) => Stored(row, bond)
  }

  predicate HasMaturityRow(rows: seq<CouponRow>, bond: Bond) {
    exists i :: 0 <= i < |rows| && rows[i].couponDate == bond.maturityDate
  }

  function PositionCashflows(rows: seq<CouponRow>, bond: Bond): Option<seq<G.CouponPayment>> {
    if rows == [] then None
    else if HasMaturityRow(rows, bond) then Some(Map(rows, StoredOf(bond)))
    else Some(Map(rows, StoredOf(bond)) + [G.CouponPayment(bond.maturityDate, bond.nominal as real, true)])
  }

  method BondPositionCashflows(rows: seq<CouponRow>, bond: Bond) returns (cashflows: Option<seq<G.CouponPayment>>)
    ensures cashflows == PositionCashflows(rows, bond)
  {
    if rows == [] {
      return None;
    }
    var payments: seq<G.CouponPayment> := [];
    var hasMaturityRow := false;
    for i := 0 to |rows|
      invariant payments == Map(rows[..i], StoredOf(bond))
      invariant hasMaturityRow <==> exists j :: 0 <= j < i && rows[j].couponDate == bond.maturityDate
    {
      assert rows[..i + 1] == rows[..i] + [rows[i]];
      MapSnoc(rows[..i], rows[i], StoredOf(bond));
      var isFinal := rows[i].couponDate == bond.maturityDate;
      hasMaturityRow := hasMaturityRow || isFinal;
      payments := payments + [G.CouponPayment(rows[i].couponDate,
        rows[i].couponAmount + (if isFinal then bond.nominal as real else 0.0), isFinal)];
    }
    assert rows[..|rows|] == rows;
    assert hasMaturityRow <==> HasMaturityRow(rows, bond);
    if !hasMaturityRow {
      payments := payments + [G.CouponPayment(bond.maturityDate, bond.nominal as real, true)];
    }
    cashflows := Some(payments);
  }

  function Paid(payments: seq<G.CouponPayment>): real {
    if payments == [] then 0.0 else Paid(payments[..|payments| - 1]) + payments[|payments| - 1].amount
  }

  function CouponsOf(rows: seq<CouponRow>): real {
    if rows == [] then 0.0 else CouponsOf(rows[..|rows| - 1]) + rows[|rows| - 1].couponAmount
  }

  function OnMaturity(rows: seq<CouponRow>, bond: Bond): nat {
    if rows == [] then 0
    else OnMaturity(rows[..|rows| - 1], bond) + (if rows[|rows| - 1].couponDate == bond.maturityDate then 1 else 0)
  }

  ghost predicate DistinctDates(rows: seq<CouponRow>) {
    forall i, j :: 0 <= i < j < |rows| ==> rows[i].couponDate != rows[j].couponDate
  }

  lemma {:induction false} OnMaturityIs(rows: seq<CouponRow>, bond: Bond)
    requires DistinctDates(rows)
    ensures OnMaturity(rows, bond) == if HasMaturityRow(rows, bond) then 1 else 0
  {
    if rows != [] {
      var n := |rows| - 1;
      OnMaturityIs(rows[..n], bond);
      if rows[n].couponDate == bond.maturityDate {
        assert forall i :: 0 <= i < n ==> rows[i].couponDate != rows[n].couponDate;
      } else if HasMaturityRow(rows, bond) {
        var i :| 0 <= i < |rows| && rows[i].couponDate == bond.maturityDate;
        assert rows[..n][i].couponDate == bond.maturityDate;
      }
    }
  }

  lemma {:induction false} PaidByRows(rows: seq<CouponRow>, bond: Bond)
    ensures Paid(Map(rows, StoredOf(bond))) == CouponsOf(rows) + bond.nominal as real * OnMaturity(rows, bond) as real
  {
    if rows != [] {
      var n := |rows| - 1;
      PaidByRows(rows[..n], bond);
      assert Map(rows, StoredOf(bond))[..n] == Map(rows[..n], StoredOf(bond));
    }
  }

  /** The payments are on different dates, and exactly that on the maturity date is final. */
  ghost predicate EndsAtMaturity(payments: seq<G.CouponPayment>, maturity: int) {
    && (forall i :: 0 <= i < |payments| ==> (payments[i].isFinal <==> payments[i].paymentDate == maturity))
    && (exists i :: 0 <= i < |payments| && payments[i].isFinal)
    && (forall i, j :: 0 <= i < j < |payments| ==> payments[i].paymentDate != payments[j].paymentDate)
  }

  lemma StoredEndAtMaturity(rows: seq<CouponRow>, bond: Bond)
    requires DistinctDates(rows) && HasMaturityRow(rows, bond)
    ensures EndsAtMaturity(Map(rows, StoredOf(bond)), bond.maturityDate)
  {
    var i :| 0 <= i < |rows| && rows[i].couponDate == bond.maturityDate;
    assert Map(rows, StoredOf(bond))[i].isFinal;
  }

  lemma AddedEndsAtMaturity(rows: seq<CouponRow>, bond: Bond, last: G.CouponPayment)
    requires DistinctDates(rows) && !HasMaturityRow(rows, bond)
    requires last.paymentDate == bond.maturityDate && last.isFinal
    ensures EndsAtMaturity(Map(rows, StoredOf(bond)) + [last], bond.maturityDate)
  {
    assert (Map(rows, StoredOf(bond)) + [last])[|rows|].isFinal;
  }

  /** Dates being unique, the schedule pays every stored coupon and the nominal
      exactly once, and one payment, on the maturity date, is final. */
  lemma PrincipalIsPaidOnce(rows: seq<CouponRow>, bond: Bond)
    requires rows != [] && DistinctDates(rows)
    ensures PositionCashflows(rows, bond).Some?
    ensures var payments := PositionCashflows(rows, bond).value;
      Paid(payments) == CouponsOf(rows) + bond.nominal as real && EndsAtMaturity(payments, bond.maturityDate)
  {
    OnMaturityIs(rows, bond);
    PaidByRows(rows, bond);
    if HasMaturityRow(rows, bond) {
      StoredEndAtMaturity(rows, bond);
    } else {
      var last := G.CouponPayment(bond.maturityDate, bond.nominal as real, true);
      AddedEndsAtMaturity(rows, bond, last);
      assert (Map(rows, StoredOf(bond)) + [last])[..|rows|] == Map(rows, StoredOf(bond));
    }
  }

  /** On the day of the row its coupon, and on the maturity date the nominal with it. */
  predicate IsPaymentOf(payment: G.CouponPayment, row: CouponRow, bond: Bond) {
    && payment.paymentDate == row.couponDate
    && payment.amount == row.couponAmount + (if row.couponDate == bond.maturityDate then bond.nominal as real else 0.0)
  }

  /** Row by row the schedule pays what is stored, and at most one payment more, on the maturity. */
  lemma RowsArePaid(rows: seq<CouponRow>, bond: Bond)
    ensures PositionCashflows(rows, bond).None? <==> rows == []
    ensures rows != [] ==> var payments := PositionCashflows(rows, bond).value;
      && |rows| <= |payments| <= |rows| + 1
      && (forall i :: 0 <= i < |rows| ==> IsPaymentOf(payments[i], rows[i], bond))
      && (|payments| > |rows| ==> payments[|rows|].paymentDate == bond.maturityDate)
  {
  }
}
