/** The two parameterised sections of a summary, rebuilt from its full calendar. */
module Views {
  import opened Seqs
  import opened Sorting
  import opened Calendar
  import opened Summary

  /** `{position.bond_id: position.name for ...}.get(id, fallback)` */
  function NameIn(positions: seq<PositionAnalytics>, id: int, fallback: string): string {
    if positions == [] then fallback
    else if positions[|positions| - 1].bondId == id then positions[|positions| - 1].name
    else NameIn(positions[..|positions| - 1], id, fallback)
  }

  function IsCouponUpTo(end: int): Cashflow -> bool {
    (flow: Cashflow) => flow.kind.COUPON? && flow.date <= end
  }

  function FlowUpTo(end: int): Cashflow -> bool {
    (flow: Cashflow) => flow.date <= end
  }

  function ToDue(positions: seq<PositionAnalytics>): Cashflow -> CouponDue {
    (flow: Cashflow) =>
      CouponDue(flow.bondId, flow.isin, NameIn(positions, flow.bondId, flow.isin), flow.date, flow.amount)
  }

  function NextCouponsFromSummary(summary: Contents, base: int, horizonDays: int, limit: nat): seq<CouponDue> {
    var coupons := Filter(summary.upcomingCashflows, IsCouponUpTo(base + horizonDays));
    Take(Sort(Map(coupons, ToDue(summary.positions)), DueKey()), limit)
  }

  function CashflowsFromSummary(summary: Contents, base: int, horizonDays: int, limit: nat): seq<Cashflow> {
    Take(Sort(Filter(summary.upcomingCashflows, FlowUpTo(base + horizonDays)), FlowKey()), limit)
  }

  // ---------------------------------------------------------------- the default view

  /** The name of a bond whose position is looked up by its id. */
  lemma {:induction false} NameIs(positions: seq<PositionAnalytics>, id: int, name: string, fallback: string)
    requires forall p :: p in positions && p.bondId == id ==> p.name == name
    requires exists p :: p in positions && p.bondId == id
    ensures NameIn(positions, id, fallback) == name
  {
    var n := |positions| - 1;
    if positions[n].bondId != id {
      var p :| p in positions && p.bondId == id;
      assert p in positions[..n];
      NameIs(positions[..n], id, name, fallback);
    }
  }

  lemma NameFound(solver: YieldSolver, inputs: Inputs, today: int, ids: seq<int>, id: int, fallback: string)
    requires inputs.Valid() && id in ids && forall x :: x in ids ==> x in inputs.bonds
    ensures NameIn(Map(ids, PositionOn(solver, inputs, today)), id, fallback) == BondOf(inputs, id).name
  {
    var positions := Map(ids, PositionOn(solver, inputs, today));
    forall p | p in positions && p.bondId == id ensures p.name == BondOf(inputs, id).name {
      var i :| 0 <= i < |ids| && positions[i] == p;
      assert ids[i] in ids;
      assert p == PositionOf(solver, inputs, today, ids[i]);
    }
    var i :| 0 <= i < |ids| && ids[i] == id;
    assert positions[i] == PositionOf(solver, inputs, today, id);
    NameIs(positions, id, BondOf(inputs, id).name, fallback);
  }

  function CouponFlowsOf(inputs: Inputs, today: int, end: int): int -> seq<Cashflow> {
    (id: int) => Filter(FlowsOf(inputs, today)(id), IsCouponUpTo(end))
  }

  /** The coupons of one bond, read back from its calendar. */
  lemma DuesFromFlows(bond: Bond, quantity: int, today: int, end: int, positions: seq<PositionAnalytics>)
    requires NameIn(positions, bond.id, bond.isin) == bond.name
    ensures Map(Filter(BondFlows(bond, quantity, today), IsCouponUpTo(end)), ToDue(positions))
         == BondDues(bond, quantity, today, end)
  {
    var dates := FutureDates(bond, today);
    var coupons := Map(dates, CouponFlow(bond, quantity));
    FilterConcat(coupons, Redemption(bond, quantity, today), IsCouponUpTo(end));
    FilterNone(Redemption(bond, quantity, today), IsCouponUpTo(end));
    FilterMap(dates, CouponFlow(bond, quantity), UpTo(end), IsCouponUpTo(end));
  }

  /** All coupons of all open positions, read back from the full calendar. */
  lemma CalendarHoldsDues(solver: YieldSolver, inputs: Inputs, today: int, end: int)
    requires inputs.Valid()
    ensures Map(Filter(FlatMap(OpenBonds(inputs), FlowsOf(inputs, today)), IsCouponUpTo(end)),
                ToDue(Summarize(solver, inputs, today).positions))
         == FlatMap(OpenBonds(inputs), DuesOf(inputs, today, end))
  {
    var ids := OpenBonds(inputs);
    var positions := Summarize(solver, inputs, today).positions;
    FilterMembers(BondIds(inputs.txns), OpenIn(inputs));
    forall id | id in ids
      ensures DuesOf(inputs, today, end)(id) == Map(CouponFlowsOf(inputs, today, end)(id), ToDue(positions))
    {
      var bond := BondOf(inputs, id);
      NameFound(solver, inputs, today, ids, id, bond.isin);
      DuesFromFlows(bond, Held(inputs, id), today, end, positions);
    }
    FilterFlatMap(ids, FlowsOf(inputs, today), IsCouponUpTo(end), CouponFlowsOf(inputs, today, end));
    MapFlatMap(ids, CouponFlowsOf(inputs, today, end), ToDue(positions), DuesOf(inputs, today, end));
  }

  /** Selecting, mapping and sorting a sorted calendar is sorting what it holds. */
  lemma SortedView(flows: seq<Cashflow>, p: Cashflow -> bool, positions: seq<PositionAnalytics>)
    ensures Sort(Map(Filter(Sort(flows, FlowKey()), p), ToDue(positions)), DueKey())
         == Sort(Map(Filter(flows, p), ToDue(positions)), DueKey())
         == Map(Filter(Sort(flows, FlowKey()), p), ToDue(positions))
  {
    SortFilter(flows, FlowKey(), p);
    SortMap(Filter(flows, p), ToDue(positions), FlowKey(), DueKey());
    var dues := Map(Filter(flows, p), ToDue(positions));
    SortSorts(dues, DueKey());
    SortFixes(Sort(dues, DueKey()), DueKey());
  }

  /** The default view of a fresh summary is the section it was computed with. */
  lemma DefaultViewIsNextCoupons(solver: YieldSolver, inputs: Inputs, today: int)
    requires inputs.Valid()
    ensures NextCouponsFromSummary(Summarize(solver, inputs, today), today,
                                   NEXT_COUPONS_HORIZON, NEXT_COUPONS_MAX_EVENTS)
         == Summarize(solver, inputs, today).nextCoupons
  {
    var end := today + NEXT_COUPONS_HORIZON;
    CalendarHoldsDues(solver, inputs, today, end);
    SortedView(FlatMap(OpenBonds(inputs), FlowsOf(inputs, today)), IsCouponUpTo(end),
               Summarize(solver, inputs, today).positions);
  }

  // ---------------------------------------------------------------- wider views extend narrower ones

  /** In a sequence sorted by date a horizon selects a prefix. */
  lemma {:induction false} HorizonIsPrefix(flows: seq<Cashflow>, end: int)
    requires Sorted(flows, FlowKey())
    ensures Filter(flows, FlowUpTo(end)) <= flows
    ensures Filter(flows, FlowUpTo(end)) != flows ==> flows[|flows| - 1].date > end
  {
    if flows != [] {
      var n := |flows| - 1;
      HorizonIsPrefix(flows[..n], end);
      assert flows == flows[..n] + [flows[n]];
      if Filter(flows[..n], FlowUpTo(end)) != flows[..n] {
        assert AtMost(FlowKey()(flows[n - 1]), FlowKey()(flows[n]));
      }
    }
  }

  /** Selecting with a shorter horizon gives a prefix, whatever else is selected. */
  lemma SelectionsExtend(flows: seq<Cashflow>, all: Cashflow -> bool, some: Cashflow -> bool, end: int)
    requires forall f :: f in flows ==> some(f) == (all(f) && f.date <= end)
    ensures Filter(Sort(flows, FlowKey()), some) <= Filter(Sort(flows, FlowKey()), all)
  {
    var sorted := Sort(flows, FlowKey());
    SortSorts(flows, FlowKey());
    FilterTwice(sorted, all, FlowUpTo(end), some);
    SortFilter(flows, FlowKey(), all);
    SortSorts(Filter(flows, all), FlowKey());
    HorizonIsPrefix(Filter(sorted, all), end);
  }

  lemma TakesExtend<T(!new)>(xs: seq<T>, ys: seq<T>, k: nat, n: nat)
    requires xs <= ys && k <= n
    ensures Take(xs, k) <= Take(ys, n)
  {
  }

  /** Enlarging the horizon or the limit only appends to the cash flows. */
  lemma CashflowsExtend(summary: Contents, base: int, horizon: int, wider: int, limit: nat, more: nat)
    requires horizon <= wider && limit <= more
    ensures CashflowsFromSummary(summary, base, horizon, limit) <= CashflowsFromSummary(summary, base, wider, more)
  {
    var flows := summary.upcomingCashflows;
    SelectionsExtend(flows, FlowUpTo(base + wider), FlowUpTo(base + horizon), base + horizon);
    SortFilter(flows, FlowKey(), FlowUpTo(base + horizon));
    SortFilter(flows, FlowKey(), FlowUpTo(base + wider));
    TakesExtend(Filter(Sort(flows, FlowKey()), FlowUpTo(base + horizon)),
                Filter(Sort(flows, FlowKey()), FlowUpTo(base + wider)), limit, more);
  }

  /** Enlarging the horizon or the limit only appends to the next coupons. */
  lemma NextCouponsExtend(summary: Contents, base: int, horizon: int, wider: int, limit: nat, more: nat)
    requires horizon <= wider && limit <= more
    ensures NextCouponsFromSummary(summary, base, horizon, limit) <= NextCouponsFromSummary(summary, base, wider, more)
  {
    var flows, h := summary.upcomingCashflows, ToDue(summary.positions);
    SelectionsExtend(flows, IsCouponUpTo(base + wider), IsCouponUpTo(base + horizon), base + horizon);
    SortedView(flows, IsCouponUpTo(base + horizon), summary.positions);
    SortedView(flows, IsCouponUpTo(base + wider), summary.positions);
    var sorted := Sort(flows, FlowKey());
    TakesExtend(Map(Filter(sorted, IsCouponUpTo(base + horizon)), h),
                Map(Filter(sorted, IsCouponUpTo(base + wider)), h), limit, more);
  }

  // ---------------------------------------------------------------- what a view shows

  /** By date, and on one date by bond. */
  predicate NotAfter(a: Cashflow, b: Cashflow) {
    a.date < b.date || (a.date == b.date && a.bondId <= b.bondId)
  }

  ghost predicate InCalendarOrder(flows: seq<Cashflow>) {
    forall i, j :: 0 <= i < j < |flows| ==> NotAfter(flows[i], flows[j])
  }

  predicate Wanted(flow: Cashflow, couponsOnly: bool, end: int) {
    flow.date <= end && (couponsOnly ==> flow.kind == COUPON)
  }

  /** The earliest wanted flows, in order, at most `limit`, each at most as often as it is in
      the calendar; a wanted flow is left out only for a full list of flows not after it. */
  ghost predicate ShowsEarliest(shown: seq<Cashflow>, flows: seq<Cashflow>, couponsOnly: bool, end: int, limit: nat) {
    && InCalendarOrder(shown) && |shown| <= limit
    && (forall f :: f in shown ==> Wanted(f, couponsOnly, end) && multiset(shown)[f] <= multiset(flows)[f])
    && (forall f :: Wanted(f, couponsOnly, end) && multiset(shown)[f] < multiset(flows)[f] ==>
          |shown| == limit && forall g :: g in shown ==> NotAfter(g, f))
  }

  lemma SortedIsInOrder(flows: seq<Cashflow>)
    requires Sorted(flows, FlowKey())
    ensures InCalendarOrder(flows)
  {
    forall i, j | 0 <= i < j < |flows| ensures NotAfter(flows[i], flows[j]) {
      assert AtMost(FlowKey()(flows[i]), FlowKey()(flows[j]));
    }
  }

  lemma LeftOutIsLater(all: seq<Cashflow>, k: nat, f: Cashflow)
    requires InCalendarOrder(all) && k <= |all| && multiset(all[..k])[f] < multiset(all)[f]
    ensures k < |all| && forall g :: g in all[..k] ==> NotAfter(g, f)
  {
    assert all == all[..k] + all[k..];
    assert multiset(all) == multiset(all[..k]) + multiset(all[k..]);
    assert f in multiset(all[k..]);
    var j :| k <= j < |all| && all[j] == f;
    forall g | g in all[..k] ensures NotAfter(g, f) {
      var i :| 0 <= i < k && all[i] == g;
    }
  }

  lemma PartOccurs(all: seq<Cashflow>, k: nat, f: Cashflow)
    requires k <= |all|
    ensures multiset(all[..k])[f] <= multiset(all)[f]
  {
    assert all == all[..k] + all[k..];
    assert multiset(all) == multiset(all[..k]) + multiset(all[k..]);
  }

  /** A first part of everything wanted, in order, is what comes earliest. */
  lemma FirstPartIsEarliest(all: seq<Cashflow>, flows: seq<Cashflow>, couponsOnly: bool, end: int, limit: nat)
    requires InCalendarOrder(all)
    requires forall f :: multiset(all)[f] == if Wanted(f, couponsOnly, end) then multiset(flows)[f] else 0
    ensures ShowsEarliest(Take(all, limit), flows, couponsOnly, end, limit)
  {
    var shown := Take(all, limit);
    assert all[..|all|] == all && shown == all[..|shown|];
    forall f | f in shown ensures Wanted(f, couponsOnly, end) && multiset(shown)[f] <= multiset(flows)[f] {
      PartOccurs(all, |shown|, f);
      assert f in multiset(shown);
    }
    forall f | Wanted(f, couponsOnly, end) && multiset(shown)[f] < multiset(flows)[f]
      ensures |shown| == limit && forall g :: g in shown ==> NotAfter(g, f)
    {
      LeftOutIsLater(all, |shown|, f);
    }
  }

  lemma TakenIsEarliest(flows: seq<Cashflow>, p: Cashflow -> bool, couponsOnly: bool, end: int, limit: nat)
    requires forall f :: p(f) == Wanted(f, couponsOnly, end)
    ensures ShowsEarliest(Take(Sort(Filter(flows, p), FlowKey()), limit), flows, couponsOnly, end, limit)
  {
    SortSorts(Filter(flows, p), FlowKey());
    FilterCounts(flows, p);
    SortedIsInOrder(Sort(Filter(flows, p), FlowKey()));
    FirstPartIsEarliest(Sort(Filter(flows, p), FlowKey()), flows, couponsOnly, end, limit);
  }

  /** The flows a view shows are the earliest of the calendar within its horizon. */
  lemma CashflowsAreEarliest(summary: Contents, base: int, horizon: int, limit: nat)
    ensures ShowsEarliest(CashflowsFromSummary(summary, base, horizon, limit),
                          summary.upcomingCashflows, false, base + horizon, limit)
  {
    TakenIsEarliest(summary.upcomingCashflows, FlowUpTo(base + horizon), false, base + horizon, limit);
  }

  predicate IsNamed(positions: seq<PositionAnalytics>, id: int, name: string) {
    exists i :: 0 <= i < |positions| && positions[i].bondId == id && positions[i].name == name
  }

  /** A coupon due is its flow in the calendar, under the name of its position. */
  predicate IsDueOf(due: CouponDue, flow: Cashflow, positions: seq<PositionAnalytics>) {
    && due.bondId == flow.bondId && due.isin == flow.isin && due.date == flow.date && due.amount == flow.amount
    && (IsNamed(positions, flow.bondId, due.name) || forall p :: p in positions ==> p.bondId != flow.bondId)
  }

  ghost predicate AreDuesOf(dues: seq<CouponDue>, flows: seq<Cashflow>, positions: seq<PositionAnalytics>) {
    |dues| == |flows| && forall i :: 0 <= i < |dues| ==> IsDueOf(dues[i], flows[i], positions)
  }

  ghost predicate ShowsCoupons(dues: seq<CouponDue>, full: Contents, end: int, limit: nat) {
    exists shown :: AreDuesOf(dues, shown, full.positions)
                    && ShowsEarliest(shown, full.upcomingCashflows, true, end, limit)
  }

  lemma {:induction false} NameIsListed(positions: seq<PositionAnalytics>, id: int, fallback: string)
    ensures IsNamed(positions, id, NameIn(positions, id, fallback)) || forall p :: p in positions ==> p.bondId != id
  {
    if positions != [] {
      var n := |positions| - 1;
      NameIsListed(positions[..n], id, fallback);
      FrontAndLast(positions);
      if positions[n].bondId != id && IsNamed(positions[..n], id, NameIn(positions[..n], id, fallback)) {
        var j :| 0 <= j < n && positions[..n][j].bondId == id
              && positions[..n][j].name == NameIn(positions[..n], id, fallback);
        assert positions[j].bondId == id;
      }
    }
  }

  /** The coupons a view shows are the earliest coupons of the calendar within its horizon. */
  lemma NextCouponsAreEarliest(summary: Contents, base: int, horizon: int, limit: nat)
    ensures ShowsCoupons(NextCouponsFromSummary(summary, base, horizon, limit), summary, base + horizon, limit)
  {
    var flows, p, h := summary.upcomingCashflows, IsCouponUpTo(base + horizon), ToDue(summary.positions);
    var dues := NextCouponsFromSummary(summary, base, horizon, limit);
    TakenIsEarliest(flows, p, true, base + horizon, limit);
    var shown := Take(Sort(Filter(flows, p), FlowKey()), limit);
    SortMap(Filter(flows, p), h, FlowKey(), DueKey());
    forall i | 0 <= i < |shown| ensures IsDueOf(dues[i], shown[i], summary.positions) {
      assert dues[i] == h(shown[i]);
      NameIsListed(summary.positions, shown[i].bondId, shown[i].isin);
    }
    assert AreDuesOf(dues, shown, summary.positions);
  }
}
