/** The portfolio summary: open positions, realised results and the calendar of
    all open positions, computed from one user's history. */
module Summary {
  import opened Seqs
  import opened Sorting
  import opened Transactions
  import opened Netting
  import opened NettingLaws
  import opened Grouping
  import opened Calendar
  import opened Powers
  import PV = PresentValue
  import opened Ytm
  import G = Grid

  const NEXT_COUPONS_HORIZON := 730
  const NEXT_COUPONS_MAX_EVENTS := 100

  datatype PositionAnalytics = PositionAnalytics(
    bondId: int, isin: string, name: string, quantity: int, avgBuyPrice: real, totalInvested: real,
    ytm: Option<real>, currentYield: Option<real>, accruedCoupon: real,
    nextCouponDate: Option<int>, maturityDate: int)

  datatype RealizedPnl = RealizedPnl(sells: real, maturities: real, commissions: real, total: real)

  datatype Contents = Contents(
    positions: seq<PositionAnalytics>, totalInvested: real, nextCoupons: seq<CouponDue>,
    realizedPnl: RealizedPnl, upcomingCashflows: seq<Cashflow>)

  /** What the three queries load: the history in (date, id) order, the bonds of it
      and their stored coupon rows. */
  datatype Inputs = Inputs(txns: seq<Transaction>, bonds: map<int, Bond>, coupons: map<int, seq<CouponRow>>) {
    ghost predicate Valid() {
      Positive(txns) && forall b :: b in bonds ==> bonds[b].id == b
    }

    function Rows(bond: int): seq<Transaction> {
      Filter(txns, OnBond(bond))
    }

    function CouponRows(bond: int): seq<CouponRow> {
      if bond in coupons then coupons[bond] else []
    }
  }

  /** The yield solver: price, valuation day and the stored schedule, if any. */
  type YieldSolver = (Bond, real, int, Option<seq<G.CouponPayment>>) -> Yield

  // ---------------------------------------------------------------- one position

  function PriceOf(rows: seq<Transaction>): real {
    match NetPosition(rows).1
    case Some(average) => average
    case None => 0.0
  }

  function CurrentYield(price: real, rate: real, nominal: int): Option<real> {
    if price <= 0.0 || nominal <= 0 || rate < 0.0 then None else Some(nominal as real * rate / 100.0 / price)
  }

  function Solved(solver: YieldSolver, bond: Bond, price: real, today: int,
      stored: Option<seq<G.CouponPayment>>): Yield
  {
    if bond.maturityDate <= today then InvalidInputs else solver(bond, price, today, stored)
  }

  function Accrued(bond: Bond, today: int): real {
    match G.LastCoupon(bond.maturityDate, bond.couponPeriodDays, today)
    case None => 0.0
    case Some(last) =>
      match G.AccruedCoupon(bond.couponRate, bond.couponPeriodDays, last, today, bond.nominal)
      case Amount(value) => value
      case Invalid => 0.0
  }

  function Analytics(bond: Bond, rows: seq<Transaction>, today: int, solved: Yield): PositionAnalytics {
    var price := PriceOf(rows);
    var dates := FutureDates(bond, today);
    PositionAnalytics(
      bond.id, bond.isin, bond.name, NetPosition(rows).0, price, Value(price, NetPosition(rows).0),
      if solved.Rate? then Some(solved.rate) else None,
      if solved.Rate? || solved.NoRoot? then CurrentYield(price, bond.couponRate, bond.nominal) else None,
      Accrued(bond, today), if dates == [] then None else Some(dates[0]), bond.maturityDate)
  }

  datatype Outcome<T> = Computed(value: T) | NothingToAverage | SolverFailed

  /** `_build_position_analytics`; the two errors are the ValueError for an open
      position without an average and an error of the solver that is not caught. */
  method BuildPositionAnalytics(solver: YieldSolver, bond: Bond, rows: seq<Transaction>, today: int,
      stored: Option<seq<G.CouponPayment>>) returns (outcome: Outcome<PositionAnalytics>)
    ensures outcome == if NetPosition(rows).1.None? then NothingToAverage
      else if Solved(solver, bond, PriceOf(rows), today, stored).Uncaught? then SolverFailed
      else Computed(Analytics(bond, rows, today, Solved(solver, bond, PriceOf(rows), today, stored)))
  {
    var (quantity, average) := NetPosition(rows);
    if average.None? {
      return NothingToAverage;
    }
    var matured := bond.maturityDate <= today;
    var dates: seq<int> := [];
    if !matured {
      dates := G.FutureCouponDates(bond.maturityDate, bond.couponPeriodDays, today);
    }
    var ytm, currentYield: Option<real> := None, None;
    if !matured {
      match solver(bond, average.value, today, stored) {
        case Rate(rate) =>
          ytm := Some(rate);
          currentYield := CurrentYield(average.value, bond.couponRate, bond.nominal);
        case NoRoot =>
          currentYield := CurrentYield(average.value, bond.couponRate, bond.nominal);
        case InvalidInputs =>
        case Uncaught =>
          return SolverFailed;
      }
    }
    var last := G.LastCouponDate(bond.maturityDate, bond.couponPeriodDays, today);
    var accrued := 0.0;
    if last.Some? {
      var amount := G.AccruedCoupon(bond.couponRate, bond.couponPeriodDays, last.value, today, bond.nominal);
      if amount.Amount? {
        accrued := amount.value;
      }
    }
    outcome := Computed(PositionAnalytics(
      bond.id, bond.isin, bond.name, quantity, average.value, Value(average.value, quantity), ytm, currentYield,
      accrued, if dates == [] then None else Some(dates[0]), bond.maturityDate));
  }

  // ---------------------------------------------------------------- the whole summary

  function ById(): int -> Key {
    (id: int) => (id, 0)
  }

  /** The bonds of a history, each once, in ascending order. */
  function BondIds(txns: seq<Transaction>): seq<int> {
    if txns == [] then []
    else
      var front, bond := BondIds(txns[..|txns| - 1]), txns[|txns| - 1].bondId;
      if bond in front then front else Insert(front, bond, ById())
  }

  lemma {:induction false} BondIdsAscend(txns: seq<Transaction>)
    ensures G.Increasing(BondIds(txns))
    ensures forall bond :: bond in BondIds(txns) <==> exists t :: t in txns && t.bondId == bond
  {
    if txns != [] {
      var n := |txns| - 1;
      var front, bond := BondIds(txns[..n]), txns[n].bondId;
      BondIdsAscend(txns[..n]);
      assert txns == txns[..n] + [txns[n]];
      if bond !in front {
        InsertAscends(front, bond);
        InsertMembers(front, bond, ById());
      }
      forall b ensures b in BondIds(txns) <==> exists t :: t in txns && t.bondId == b {
        if b == bond {
          assert txns[n] in txns;
        } else if b in front {
          var t :| t in txns[..n] && t.bondId == b;
          assert t in txns;
        }
      }
    }
  }

  lemma {:induction false} InsertAscends(ids: seq<int>, id: int)
    requires G.Increasing(ids) && id !in ids
    ensures G.Increasing(Insert(ids, id, ById()))
  {
    if ids != [] {
      var n := |ids| - 1;
      if ids[n] > id {
        InsertAscends(ids[..n], id);
        InsertMembers(ids[..n], id, ById());
        var front := Insert(ids[..n], id, ById());
        forall i | 0 <= i < |front| ensures front[i] < ids[n] {
          assert front[i] in front;
        }
      }
    }
  }

  predicate IsOpen(inputs: Inputs, id: int) {
    id in inputs.bonds && Held(inputs, id) > 0
  }

  function OpenIn(inputs: Inputs): int -> bool {
    (id: int) => IsOpen(inputs, id)
  }

  function OpenBonds(inputs: Inputs): seq<int> {
    Filter(BondIds(inputs.txns), OpenIn(inputs))
  }

  function BondOf(inputs: Inputs, id: int): Bond {
    if id in inputs.bonds then inputs.bonds[id] else Bond(id, "", "", 0, 0.0, 0, 0)
  }

  function YieldOf(solver: YieldSolver, inputs: Inputs, today: int): int -> Yield {
    (id: int) => Solved(solver, BondOf(inputs, id), PriceOf(inputs.Rows(id)), today,
                        PositionCashflows(inputs.CouponRows(id), BondOf(inputs, id)))
  }

  function PositionOf(solver: YieldSolver, inputs: Inputs, today: int, id: int): (position: PositionAnalytics)
    ensures position.bondId == BondOf(inputs, id).id && position.name == BondOf(inputs, id).name
  {
    Analytics(BondOf(inputs, id), inputs.Rows(id), today, YieldOf(solver, inputs, today)(id))
  }

  function PositionOn(solver: YieldSolver, inputs: Inputs, today: int): int -> PositionAnalytics {
    (id: int) => PositionOf(solver, inputs, today, id)
  }

  function Held(inputs: Inputs, id: int): int {
    NetPosition(inputs.Rows(id)).0
  }

  function FlowsOf(inputs: Inputs, today: int): int -> seq<Cashflow> {
    (id: int) => BondFlows(BondOf(inputs, id), Held(inputs, id), today)
  }

  function DuesOf(inputs: Inputs, today: int, horizonEnd: int): int -> seq<CouponDue> {
    (id: int) => BondDues(BondOf(inputs, id), Held(inputs, id), today, horizonEnd)
  }

  function Realized(inputs: Inputs, ids: seq<int>): (real, real, real) {
    if ids == [] then (0.0, 0.0, 0.0)
    else
      Added(Realized(inputs, ids[..|ids| - 1]), Netting.RealizedPnl(inputs.Rows(ids[|ids| - 1])))
  }

  function Added(a: (real, real, real), b: (real, real, real)): (real, real, real) {
    (a.0 + b.0, a.1 + b.1, a.2 + b.2)
  }

  lemma RealizedSnoc(inputs: Inputs, ids: seq<int>, i: nat)
    requires i < |ids|
    ensures Realized(inputs, ids[..i + 1])
         == Added(Realized(inputs, ids[..i]), Netting.RealizedPnl(inputs.Rows(ids[i])))
  {
    TakeSnoc(ids, i);
    assert ids[..i + 1][..i] == ids[..i];
  }

  function Invested(positions: seq<PositionAnalytics>): real {
    if positions == [] then 0.0 else Invested(positions[..|positions| - 1]) + positions[|positions| - 1].totalInvested
  }

  function Take<T>(xs: seq<T>, limit: nat): seq<T> {
    if |xs| <= limit then xs else xs[..limit]
  }

  /** The summary of what the loop has collected: sorted, limited and added up. */
  function Assembled(positions: seq<PositionAnalytics>, totals: (real, real, real), nextCoupons: seq<CouponDue>,
      cashflows: seq<Cashflow>): Contents
  {
    Contents(
      positions, Invested(positions),
      Take(Sort(nextCoupons, DueKey()), NEXT_COUPONS_MAX_EVENTS),
      RealizedPnl(totals.0, totals.1, totals.2, totals.0 + totals.1 - totals.2),
      Sort(cashflows, FlowKey()))
  }

  function Summarize(solver: YieldSolver, inputs: Inputs, today: int): Contents {
    var ids := OpenBonds(inputs);
    Assembled(Map(ids, PositionOn(solver, inputs, today)), Realized(inputs, BondIds(inputs.txns)),
              FlatMap(ids, DuesOf(inputs, today, today + NEXT_COUPONS_HORIZON)), FlatMap(ids, FlowsOf(inputs, today)))
  }

  ghost predicate Solvable(solver: YieldSolver, inputs: Inputs, today: int, ids: seq<int>) {
    forall id :: id in ids ==> !YieldOf(solver, inputs, today)(id).Uncaught?
  }

  lemma {:induction false} SortAscends(ids: seq<int>)
    requires Unique(ids)
    ensures G.Increasing(Sort(ids, ById()))
    ensures forall id :: id in Sort(ids, ById()) <==> id in ids
  {
    SortSorts(ids, ById());
    if ids != [] {
      var n := |ids| - 1;
      SortAscends(ids[..n]);
      InsertAscends(Sort(ids[..n], ById()), ids[n]);
    }
  }

  /** `sorted(grouped)` */
  lemma SortedKeys(txns: seq<Transaction>, order: seq<int>, grouped: map<int, seq<Transaction>>)
    requires IsGrouping(txns, order, grouped) && forall bond :: bond in grouped ==> grouped[bond] != []
    ensures Sort(order, ById()) == BondIds(txns)
    ensures forall k :: 0 <= k < |BondIds(txns)| ==>
      BondIds(txns)[k] in grouped && grouped[BondIds(txns)[k]] == Filter(txns, OnBond(BondIds(txns)[k]))
  {
    SortAscends(order);
    BondIdsAscend(txns);
    forall id ensures id in Sort(order, ById()) <==> id in BondIds(txns) {
      FilterMembers(txns, OnBond(id));
      if id in grouped {
        assert grouped[id][0] in txns;
      }
      if id in BondIds(txns) {
        var t :| t in txns && t.bondId == id;
        assert t in Filter(txns, OnBond(id));
      }
    }
    G.IncreasingListsAgree(Sort(order, ById()), BondIds(txns));
  }

  // ---------------------------------------------------------------- the loop of `_compute_summary`

  /** What the loop has gathered after the bonds `ids`. */
  ghost predicate Gathered(solver: YieldSolver, inputs: Inputs, today: int, ids: seq<int>,
      positions: seq<PositionAnalytics>, nextCoupons: seq<CouponDue>, cashflows: seq<Cashflow>)
  {
    var open := Filter(ids, OpenIn(inputs));
    && positions == Map(open, PositionOn(solver, inputs, today))
    && nextCoupons == FlatMap(open, DuesOf(inputs, today, today + NEXT_COUPONS_HORIZON))
    && cashflows == FlatMap(open, FlowsOf(inputs, today))
    && Solvable(solver, inputs, today, open)
  }

  lemma GatherOne(solver: YieldSolver, inputs: Inputs, today: int, ids: seq<int>, id: int,
      positions: seq<PositionAnalytics>, nextCoupons: seq<CouponDue>, cashflows: seq<Cashflow>)
    requires Gathered(solver, inputs, today, ids, positions, nextCoupons, cashflows)
    requires IsOpen(inputs, id) && !YieldOf(solver, inputs, today)(id).Uncaught?
    ensures Gathered(solver, inputs, today, ids + [id],
      positions + [PositionOn(solver, inputs, today)(id)],
      nextCoupons + DuesOf(inputs, today, today + NEXT_COUPONS_HORIZON)(id),
      cashflows + FlowsOf(inputs, today)(id))
  {
    var open := Filter(ids, OpenIn(inputs));
    FilterSnoc(ids, id, OpenIn(inputs));
    MapSnoc(open, id, PositionOn(solver, inputs, today));
    FlatMapSnoc(open, id, DuesOf(inputs, today, today + NEXT_COUPONS_HORIZON));
    FlatMapSnoc(open, id, FlowsOf(inputs, today));
  }

  lemma GatherOpen(solver: YieldSolver, inputs: Inputs, today: int, ids: seq<int>, i: nat,
      positions: seq<PositionAnalytics>, nextCoupons: seq<CouponDue>, cashflows: seq<Cashflow>)
    requires i < |ids| && Gathered(solver, inputs, today, ids[..i], positions, nextCoupons, cashflows)
    requires IsOpen(inputs, ids[i]) && !YieldOf(solver, inputs, today)(ids[i]).Uncaught?
    ensures Gathered(solver, inputs, today, ids[..i + 1],
      positions + [PositionOn(solver, inputs, today)(ids[i])],
      nextCoupons + DuesOf(inputs, today, today + NEXT_COUPONS_HORIZON)(ids[i]),
      cashflows + FlowsOf(inputs, today)(ids[i]))
  {
    TakeSnoc(ids, i);
    GatherOne(solver, inputs, today, ids[..i], ids[i], positions, nextCoupons, cashflows);
  }

  lemma GatherClosed(solver: YieldSolver, inputs: Inputs, today: int, ids: seq<int>, i: nat,
      positions: seq<PositionAnalytics>, nextCoupons: seq<CouponDue>, cashflows: seq<Cashflow>)
    requires i < |ids| && Gathered(solver, inputs, today, ids[..i], positions, nextCoupons, cashflows)
    requires !IsOpen(inputs, ids[i])
    ensures Gathered(solver, inputs, today, ids[..i + 1], positions, nextCoupons, cashflows)
  {
    TakeSnoc(ids, i);
    FilterSnoc(ids[..i], ids[i], OpenIn(inputs));
  }

  /** A bond the solver fails on fails the summary. */
  lemma Unsolvable(solver: YieldSolver, inputs: Inputs, today: int, id: int)
    requires id in BondIds(inputs.txns) && IsOpen(inputs, id) && YieldOf(solver, inputs, today)(id).Uncaught?
    ensures !Solvable(solver, inputs, today, OpenBonds(inputs))
  {
    FilterMembers(BondIds(inputs.txns), OpenIn(inputs));
    assert id in OpenBonds(inputs);
  }

  /** The ValueError for an open position without an average is never raised. */
  lemma OpenHasAverage(inputs: Inputs, id: int)
    requires inputs.Valid() && IsOpen(inputs, id)
    ensures NetPosition(inputs.Rows(id)).1.Some?
  {
    FilterMembers(inputs.txns, OnBond(id));
    HeldPositionHasAverage(inputs.Rows(id));
  }

  /** The body of the loop for an open position. */
  method AnalyseBond(solver: YieldSolver, inputs: Inputs, id: int, rows: seq<Transaction>, today: int)
    returns (outcome: Outcome<PositionAnalytics>, dues: seq<CouponDue>, flows: seq<Cashflow>)
    requires inputs.Valid() && IsOpen(inputs, id) && rows == inputs.Rows(id)
    ensures outcome == if YieldOf(solver, inputs, today)(id).Uncaught? then SolverFailed
      else Computed(PositionOn(solver, inputs, today)(id))
    ensures dues == DuesOf(inputs, today, today + NEXT_COUPONS_HORIZON)(id)
    ensures flows == FlowsOf(inputs, today)(id)
  {
    var bond := inputs.bonds[id];
    OpenHasAverage(inputs, id);
    var stored := BondPositionCashflows(inputs.CouponRows(id), bond);
    outcome := BuildPositionAnalytics(solver, bond, rows, today, stored);
    dues, flows := FutureBondCashflows(bond, NetPosition(rows).0, today, today + NEXT_COUPONS_HORIZON);
  }

  /** The part of the loop body that extends the three lists; `ok` is false where the
      solver's error leaves the loop. */
  method Visit(solver: YieldSolver, inputs: Inputs, today: int, ids: seq<int>, i: nat, rows: seq<Transaction>,
      positions: seq<PositionAnalytics>, nextCoupons: seq<CouponDue>, cashflows: seq<Cashflow>)
    returns (ok: bool, positions': seq<PositionAnalytics>, nextCoupons': seq<CouponDue>, cashflows': seq<Cashflow>)
    requires inputs.Valid() && i < |ids| && rows == inputs.Rows(ids[i])
    requires Gathered(solver, inputs, today, ids[..i], positions, nextCoupons, cashflows)
    ensures ok ==> Gathered(solver, inputs, today, ids[..i + 1], positions', nextCoupons', cashflows')
    ensures !ok ==> IsOpen(inputs, ids[i]) && YieldOf(solver, inputs, today)(ids[i]).Uncaught?
  {
    ok, positions', nextCoupons', cashflows' := true, positions, nextCoupons, cashflows;
    if ids[i] !in inputs.bonds || NetPosition(rows).0 <= 0 {
      GatherClosed(solver, inputs, today, ids, i, positions, nextCoupons, cashflows);
      return;
    }
    var built, dues, flows := AnalyseBond(solver, inputs, ids[i], rows, today);
    if !built.Computed? {
      ok := false;
      return;
    }
    GatherOpen(solver, inputs, today, ids, i, positions, nextCoupons, cashflows);
    positions', nextCoupons', cashflows' := positions + [built.value], nextCoupons + dues, cashflows + flows;
  }

  /** The loop over the bonds. */
  method GatherAll(solver: YieldSolver, inputs: Inputs, today: int, ids: seq<int>, grouped: map<int, seq<Transaction>>)
    returns (ok: bool, totals: (real, real, real),
             positions: seq<PositionAnalytics>, nextCoupons: seq<CouponDue>, cashflows: seq<Cashflow>)
    requires inputs.Valid() && ids == BondIds(inputs.txns)
    requires forall k :: 0 <= k < |ids| ==> ids[k] in grouped && grouped[ids[k]] == inputs.Rows(ids[k])
    ensures ok <==> Solvable(solver, inputs, today, OpenBonds(inputs))
    ensures ok ==> totals == Realized(inputs, ids)
    ensures ok ==> Gathered(solver, inputs, today, ids, positions, nextCoupons, cashflows)
  {
    positions, nextCoupons, cashflows := [], [], [];
    totals := (0.0, 0.0, 0.0);
    ok := true;
    for i := 0 to |ids|
      invariant ok && totals == Realized(inputs, ids[..i])
      invariant Gathered(solver, inputs, today, ids[..i], positions, nextCoupons, cashflows)
    {
      var rows := grouped[ids[i]];
      RealizedSnoc(inputs, ids, i);
      totals := Added(totals, Netting.RealizedPnl(rows));
      ok, positions, nextCoupons, cashflows :=
        Visit(solver, inputs, today, ids, i, rows, positions, nextCoupons, cashflows);
      if !ok {
        assert ids[i] in ids;
        Unsolvable(solver, inputs, today, ids[i]);
        return;
      }
    }
    assert ids[..|ids|] == ids;
  }

  /** `_compute_summary`: a summary, unless an error escapes from the solver. */
  method ComputeSummary(solver: YieldSolver, inputs: Inputs, today: int) returns (outcome: Outcome<Contents>)
    requires inputs.Valid()
    ensures !outcome.NothingToAverage?
    ensures outcome.Computed? <==> Solvable(solver, inputs, today, OpenBonds(inputs))
    ensures outcome.Computed? ==> outcome.value == Summarize(solver, inputs, today)
  {
    var order, grouped := GroupByBond(inputs.txns);
    SortedKeys(inputs.txns, order, grouped);
    var ids := Sort(order, ById());
    var ok, totals, positions, nextCoupons, cashflows := GatherAll(solver, inputs, today, ids, grouped);
    if !ok {
      return SolverFailed;
    }
    outcome := Computed(Assembled(positions, totals, nextCoupons, cashflows));
  }

  /** The yield calculation as the solver. */
  function YtmSolver(root: PV.Roots): YieldSolver
    requires TakesRoots(root)
  {
    (bond: Bond, price: real, today: int, stored: Option<seq<G.CouponPayment>>) =>
      CalculateYtm(root, price, bond.couponRate, bond.couponPeriodDays, bond.maturityDate, bond.nominal, today, stored)
  }

  /** An open position that makes the yield calculation divide by zero: a bond without
      a coupon period but with a stored schedule, not matured, at a price the
      calculation accepts. */
  predicate Breaks(inputs: Inputs, today: int, id: int) {
    var bond := BondOf(inputs, id);
    && bond.couponPeriodDays == 0 && inputs.CouponRows(id) != []
    && ValidInputs(PriceOf(inputs.Rows(id)), bond.couponRate, 0, bond.maturityDate, bond.nominal, today)
  }

  /** Among bonds with periods below 730 days one such position is enough to fail the
      whole summary, and nothing else does. */
  lemma SummaryFailsIff(root: PV.Roots, inputs: Inputs, today: int)
    requires TakesRoots(root) && forall id :: id in OpenBonds(inputs) ==> BondOf(inputs, id).couponPeriodDays < 730
    ensures Solvable(YtmSolver(root), inputs, today, OpenBonds(inputs)) <==>
      forall id :: id in OpenBonds(inputs) ==> !Breaks(inputs, today, id)
  {
    forall id | id in OpenBonds(inputs)
      ensures YieldOf(YtmSolver(root), inputs, today)(id).Uncaught? <==> Breaks(inputs, today, id)
    {
      var bond := BondOf(inputs, id);
      UncaughtIff(root, PriceOf(inputs.Rows(id)), bond.couponRate, bond.couponPeriodDays, bond.maturityDate,
                  bond.nominal, today, PositionCashflows(inputs.CouponRows(id), bond));
    }
  }

  /** One bond bought once. */
  function OneHolding(bond: Bond, quantity: int, price: real, rows: seq<CouponRow>): Inputs {
    Inputs([Transaction(1, 1, bond.id, 1, BUY, quantity, price, 0, 0.0)], map[bond.id := bond], map[bond.id := rows])
  }

  lemma OneHoldingIsOpen(bond: Bond, quantity: int, price: real, rows: seq<CouponRow>)
    requires quantity > 0 && price > 0.0
    ensures OneHolding(bond, quantity, price, rows).Valid()
    ensures OpenBonds(OneHolding(bond, quantity, price, rows)) == [bond.id]
    ensures PriceOf(OneHolding(bond, quantity, price, rows).Rows(bond.id)) == price
  {
    var inputs := OneHolding(bond, quantity, price, rows);
    var t := inputs.txns[0];
    FilterSnoc([], t, OnBond(bond.id));
    assert [] + [t] == [t] && inputs.Rows(bond.id) == [t];
    WalkSnoc([t], 0);
    assert [t][..1] == [t] && [t][..0] == [];
    assert Walk([t]) == Step(START, t);
    assert price * quantity as real / quantity as real == price;
    assert BondIds([]) == [] && BondIds([t]) == [bond.id];
    FilterSnoc([], bond.id, OpenIn(inputs));
    assert [] + [bond.id] == [bond.id];
  }

  /** A bond without a coupon period, bought once at its nominal, with one stored row, a
      hundred days from now: the summary of its holder fails. */
  lemma OneStoredRowFailsSummary(root: PV.Roots)
    requires TakesRoots(root)
    ensures var inputs := OneHolding(Bond(1, "", "", 1000, 0.0, 0, 365), 1, 1000.0, [CouponRow(100, 10.0)]);
      inputs.Valid() && !Solvable(YtmSolver(root), inputs, 0, OpenBonds(inputs))
  {
    var bond, rows := Bond(1, "", "", 1000, 0.0, 0, 365), [CouponRow(100, 10.0)];
    OneHoldingIsOpen(bond, 1, 1000.0, rows);
    SummaryFailsIff(root, OneHolding(bond, 1, 1000.0, rows), 0);
    assert Breaks(OneHolding(bond, 1, 1000.0, rows), 0, 1);
  }

  /** A bond with a coupon every 730 days, bought once at ten times its nominal, fails it too. */
  lemma OneLongPeriodFailsSummary(root: PV.Roots)
    requires TakesRoots(root)
    ensures var inputs := OneHolding(Bond(1, "", "", 1000, 5.0, 730, 365), 1, 10000.0, []);
      inputs.Valid() && !Solvable(YtmSolver(root), inputs, 0, OpenBonds(inputs))
  {
    var bond := Bond(1, "", "", 1000, 5.0, 730, 365);
    var inputs := OneHolding(bond, 1, 10000.0, []);
    OneHoldingIsOpen(bond, 1, 10000.0, []);
    LongPeriodUncaught(root);
    assert 1 in OpenBonds(inputs) && BondOf(inputs, 1) == bond;
    assert PositionCashflows(inputs.CouponRows(1), bond) == None;
    assert YieldOf(YtmSolver(root), inputs, 0)(1).Uncaught?;
  }
}
