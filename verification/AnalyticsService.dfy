/** The analytics service: a cache of summaries by user, read through deep copies.
    `now` is the clock and `inputs` what the queries would load for the call. */
module AnalyticsService {
  import opened Seqs
  import opened Calendar
  import opened Summary
  import opened Views

  datatype Window = Window(horizonDays: int, limit: int, cashflowsHorizonDays: int, cashflowsLimit: int)

  const DEFAULT_WINDOW := Window(730, 100, 3650, 500)

  predicate InBounds(w: Window) {
    && 1 <= w.horizonDays <= 3650 && 1 <= w.limit <= 1000
    && 1 <= w.cashflowsHorizonDays <= 7300 && 1 <= w.cashflowsLimit <= 5000
  }

  /** What a reader gets of a full summary. */
  function Viewed(full: Contents, base: int, w: Window): Contents
    requires InBounds(w)
  {
    full.(nextCoupons := NextCouponsFromSummary(full, base, w.horizonDays, w.limit),
          upcomingCashflows := CashflowsFromSummary(full, base, w.cashflowsHorizonDays, w.cashflowsLimit))
  }

  /** What a reader is promised: the earliest coupons and flows within the horizons and limits
      asked for, each of its own, and everything else as in the full summary. */
  ghost predicate IsView(view: Contents, full: Contents, base: int, w: Window)
    requires InBounds(w)
  {
    && view.positions == full.positions
    && view.totalInvested == full.totalInvested && view.realizedPnl == full.realizedPnl
    && ShowsCoupons(view.nextCoupons, full, base + w.horizonDays, w.limit)
    && ShowsEarliest(view.upcomingCashflows, full.upcomingCashflows, false,
                     base + w.cashflowsHorizonDays, w.cashflowsLimit)
  }

  lemma ViewedCoupons(full: Contents, base: int, w: Window)
    requires InBounds(w)
    ensures ShowsCoupons(Viewed(full, base, w).nextCoupons, full, base + w.horizonDays, w.limit)
  {
    NextCouponsAreEarliest(full, base, w.horizonDays, w.limit);
  }

  lemma ViewedFlows(full: Contents, base: int, w: Window)
    requires InBounds(w)
    ensures ShowsEarliest(Viewed(full, base, w).upcomingCashflows, full.upcomingCashflows, false,
                          base + w.cashflowsHorizonDays, w.cashflowsLimit)
  {
    CashflowsAreEarliest(full, base, w.cashflowsHorizonDays, w.cashflowsLimit);
  }

  lemma ViewedIsView(full: Contents, base: int, w: Window)
    requires InBounds(w)
    ensures IsView(Viewed(full, base, w), full, base, w)
  {
    ViewedCoupons(full, base, w);
    ViewedFlows(full, base, w);
  }

  /** A read that returned anything returned a view of `full`. */
  ghost predicate Shows(view: Read<Contents>, full: Contents, day: int, w: Window) {
    view.Ok? ==> InBounds(w) && view.value == Viewed(full, day, w) && IsView(view.value, full, day, w)
  }

  ghost predicate AllShow(views: seq<Read<Contents>>, full: Contents, days: seq<int>, windows: seq<Window>) {
    && |views| == |days| == |windows|
    && forall i :: 0 <= i < |views| ==> Shows(views[i], full, days[i], windows[i])
  }

  /** What some reads returned, against what is cached in the end. */
  ghost predicate Served(views: seq<Read<Contents>>, cached: Option<Contents>, days: seq<int>, windows: seq<Window>) {
    && |views| == |days| == |windows|
    && (forall i :: 0 <= i < |views| ==> (views[i].ValueError? <==> !InBounds(windows[i])))
    && match cached
       case None => forall i :: 0 <= i < |views| ==> !views[i].Ok?
       case Some(full) => AllShow(views, full, days, windows)
  }

  lemma ServedSnoc(views: seq<Read<Contents>>, view: Read<Contents>, before: Option<Contents>, after: Option<Contents>,
      days: seq<int>, day: int, windows: seq<Window>, w: Window)
    requires Served(views, before, days, windows) && (before.Some? ==> after == before)
    requires view.ValueError? <==> !InBounds(w)
    requires if after.Some? then Shows(view, after.value, day, w) else !view.Ok?
    ensures Served(views + [view], after, days + [day], windows + [w])
  {
  }

  class PortfolioSummary {
    const userId: int
    var positions: seq<PositionAnalytics>
    var totalInvested: real
    var nextCoupons: seq<CouponDue>
    var realizedPnl: RealizedPnl
    var upcomingCashflows: seq<Cashflow>

    function Value(): Contents
      reads this
    {
      Contents(positions, totalInvested, nextCoupons, realizedPnl, upcomingCashflows)
    }

    constructor (userId: int, value: Contents)
      ensures this.userId == userId && Value() == value
    {
      this.userId := userId;
      positions, totalInvested, nextCoupons := value.positions, value.totalInvested, value.nextCoupons;
      realizedPnl, upcomingCashflows := value.realizedPnl, value.upcomingCashflows;
    }

    /** `model_copy(deep=True)` */
    method Copy() returns (copy: PortfolioSummary)
      ensures fresh(copy) && copy.userId == userId && copy.Value() == Value()
    {
      copy := new PortfolioSummary(userId, Value());
    }
  }

  function Base(today: Option<int>, now: int): int {
    if today.Some? then today.value else now
  }

  datatype Read<T> = Ok(value: T) | ValueError | SolverError

  class AnalyticsService {
    const solver: YieldSolver
    var cache: map<int, PortfolioSummary>

    /** Some computation, on some day and from some history, produced `full`. */
    ghost predicate FullSummary(full: Contents) {
      exists inputs: Inputs, day :: inputs.Valid() && full == Summarize(solver, inputs, day)
    }

    /** Every cached object holds a full, unparameterised summary of its user. */
    ghost predicate Valid()
      reads this, cache.Values
    {
      forall user :: user in cache ==> IsFull(user, cache[user])
    }

    ghost predicate IsFull(user: int, summary: PortfolioSummary)
      reads summary
    {
      summary.userId == user && FullSummary(summary.Value())
    }

    constructor (solver: YieldSolver)
      ensures Valid() && cache == map[]
    {
      this.solver := solver;
      cache := map[];
    }

    /** A summary computed for this read alone: for one account, or for an explicit day. */
    method Compute(user: int, day: int, inputs: Inputs) returns (full: Read<PortfolioSummary>)
      requires inputs.Valid()
      ensures full.SolverError? || full.Ok?
      ensures full.SolverError? <==> !Solvable(solver, inputs, day, OpenBonds(inputs))
      ensures full.Ok? ==> fresh(full.value) && full.value.userId == user
      ensures full.Ok? ==> full.value.Value() == Summarize(solver, inputs, day) && IsFull(user, full.value)
    {
      var outcome := ComputeSummary(solver, inputs, day);
      if !outcome.Computed? {
        return SolverError;
      }
      var summary := new PortfolioSummary(user, outcome.value);
      full := Ok(summary);
    }

    /** Stores a full summary, which changes no summary itself. */
    method Store(user: int, summary: PortfolioSummary)
      requires Valid() && IsFull(user, summary)
      modifies this`cache
      ensures Valid() && cache == old(cache)[user := summary]
      ensures summary.Value() == old(summary.Value())
      ensures forall other :: other in old(cache) ==> old(cache)[other].Value() == old(cache[other].Value())
    {
      cache := cache[user := summary];
    }

    /** A miss computes the summary and stores it; `ok` is false where the solver fails. */
    method Fill(user: int, now: int, inputs: Inputs) returns (ok: bool)
      requires Valid() && inputs.Valid() && user !in cache
      modifies this`cache
      ensures Valid()
      ensures ok ==> user in cache && fresh(cache[user]) && cache == old(cache)[user := cache[user]]
      ensures forall other :: other in old(cache) ==>
        other in cache && cache[other] == old(cache)[other] && cache[other].Value() == old(cache[other].Value())
      ensures ok ==> cache[user].Value() == Summarize(solver, inputs, now)
      ensures !ok ==> cache == old(cache)
    {
      var full := Compute(user, now, inputs);
      ok := full.Ok?;
      if ok {
        Store(user, full.value);
      }
    }

    /** A copy of a cached summary. */
    method CopyCached(user: int) returns (copy: PortfolioSummary)
      requires Valid() && user in cache
      ensures Valid() && fresh(copy) && copy.userId == user && copy.Value() == cache[user].Value()
    {
      copy := cache[user].Copy();
    }

    /** Looks the user up and fills a miss; what was cached stays what it was. */
    method LookUp(user: int, now: int, inputs: Inputs) returns (ok: bool)
      requires Valid() && inputs.Valid()
      modifies this`cache
      ensures Valid() && (user in old(cache) ==> ok)
      ensures user in old(cache) || !ok ==> cache == old(cache)
      ensures ok ==> user in cache && cache == old(cache)[user := cache[user]]
      ensures ok && user !in old(cache) ==> fresh(cache[user]) && cache[user].Value() == Summarize(solver, inputs, now)
      ensures forall other :: other in old(cache) ==>
        other in cache && cache[other] == old(cache)[other] && cache[other].Value() == old(cache[other].Value())
    {
      ok := true;
      if user !in cache {
        ok := Fill(user, now, inputs);
      }
    }

    /** A copy of the user's cached summary, which a miss computes and stores first. */
    method FromCache(user: int, now: int, inputs: Inputs) returns (full: Read<PortfolioSummary>)
      requires Valid() && inputs.Valid()
      modifies this`cache
      ensures Valid() && !full.ValueError?
      ensures user in old(cache) ==> full.Ok?
      ensures user in old(cache) || full.SolverError? ==> cache == old(cache)
      ensures full.Ok? ==> user in cache && cache == old(cache)[user := cache[user]]
      ensures full.Ok? && user !in old(cache) ==>
        fresh(cache[user]) && cache[user].Value() == Summarize(solver, inputs, now)
      ensures full.Ok? ==> fresh(full.value) && full.value.userId == user
      ensures full.Ok? ==> forall other :: other in cache ==> cache[other] != full.value
      ensures forall other :: other in old(cache) ==>
        other in cache && cache[other] == old(cache)[other] && cache[other].Value() == old(cache[other].Value())
      ensures full.Ok? ==> full.value.Value() == cache[user].Value()
    {
      var ok := LookUp(user, now, inputs);
      if !ok {
        return Read.SolverError;
      }
      var copy := CopyCached(user);
      full := Ok(copy);
    }

    /** Replaces the two parameterised sections of a copy, the coupons first. */
    method Narrow(summary: PortfolioSummary, base: int, w: Window)
      requires InBounds(w)
      modifies summary
      ensures summary.Value() == Viewed(old(summary.Value()), base, w)
      ensures IsView(summary.Value(), old(summary.Value()), base, w)
    {
      ViewedIsView(summary.Value(), base, w);
      summary.nextCoupons := NextCouponsFromSummary(summary.Value(), base, w.horizonDays, w.limit);
      summary.upcomingCashflows :=
        CashflowsFromSummary(summary.Value(), base, w.cashflowsHorizonDays, w.cashflowsLimit);
    }

    /** The same on an object that is not cached. */
    method NarrowCopy(copy: PortfolioSummary, base: int, w: Window)
      requires Valid() && InBounds(w) && forall user :: user in cache ==> cache[user] != copy
      modifies copy
      ensures Valid()
      ensures forall user :: user in cache ==> cache[user].Value() == old(cache[user].Value())
      ensures copy.Value() == Viewed(old(copy.Value()), base, w)
      ensures IsView(copy.Value(), old(copy.Value()), base, w)
    {
      Narrow(copy, base, w);
    }

    /** `get_portfolio_summary` without an account and a day: a view of the cached
        summary, which with all other entries stays what it was. */
    method GetCachedSummary(user: int, now: int, w: Window, inputs: Inputs) returns (read: Read<PortfolioSummary>)
      requires Valid() && inputs.Valid()
      modifies this`cache
      ensures Valid()
      ensures read.ValueError? <==> !InBounds(w)
      ensures user in old(cache) || !read.Ok? ==> cache == old(cache)
      ensures forall other :: other in old(cache) ==>
        other in cache && cache[other] == old(cache)[other] && cache[other].Value() == old(cache[other].Value())
      ensures user in old(cache) && InBounds(w) ==> read.Ok?
      ensures read.Ok? ==> user in cache && fresh(read.value) && read.value != cache[user]
      ensures read.Ok? && user !in old(cache) ==> cache[user].Value() == Summarize(solver, inputs, now)
      ensures read.Ok? ==> read.value.Value() == Viewed(cache[user].Value(), now, w)
      ensures read.Ok? ==> IsView(read.value.Value(), cache[user].Value(), now, w)
    {
      if !InBounds(w) {
        return ValueError;
      }
      read := FromCache(user, now, inputs);
      if read.Ok? {
        NarrowCopy(read.value, now, w);
      }
    }

    /** What is cached for the user. */
    ghost function Cached(user: int): Option<Contents>
      reads this, cache.Values
    {
      if user in cache then Some(cache[user].Value()) else None
    }

    /** The contents of one cached read. */
    method GetView(user: int, day: int, w: Window, inputs: Inputs) returns (view: Read<Contents>)
      requires Valid() && inputs.Valid()
      modifies this`cache
      ensures Valid()
      ensures view.ValueError? <==> !InBounds(w)
      ensures old(Cached(user)).Some? ==> Cached(user) == old(Cached(user))
      ensures if Cached(user).Some? then Shows(view, Cached(user).value, day, w) else !view.Ok?
    {
      var read := GetCachedSummary(user, day, w, inputs);
      match read {
        case Ok(summary) => view := Ok(summary.Value());
        case ValueError => view := ValueError;
        case SolverError => view := SolverError;
      }
    }

    /** Any number of cached reads, each on its own day with its own parameters: what they
        return are views of one full summary, the one that is cached in the end. */
    method GetCachedSummaries(user: int, days: seq<int>, windows: seq<Window>, inputs: seq<Inputs>)
      returns (views: seq<Read<Contents>>)
      requires Valid() && |days| == |windows| == |inputs| && forall i :: 0 <= i < |inputs| ==> inputs[i].Valid()
      modifies this`cache
      ensures Valid() && |views| == |windows|
      ensures user in old(cache) ==> user in cache && cache[user].Value() == old(cache[user].Value())
      ensures forall i :: 0 <= i < |views| ==> (views[i].ValueError? <==> !InBounds(windows[i]))
      ensures forall i :: 0 <= i < |views| && views[i].Ok? ==> user in cache
      ensures user in cache ==> AllShow(views, cache[user].Value(), days, windows)
    {
      views := [];
      for i := 0 to |windows|
        invariant Valid() && (old(Cached(user)).Some? ==> Cached(user) == old(Cached(user)))
        invariant Served(views, Cached(user), days[..i], windows[..i])
      {
        ghost var cached := Cached(user);
        var view := GetView(user, days[i], windows[i], inputs[i]);
        ServedSnoc(views, view, cached, Cached(user), days[..i], days[i], windows[..i], windows[i]);
        TakeSnoc(days, i);
        TakeSnoc(windows, i);
        views := views + [view];
      }
      assert days[..|windows|] == days && windows[..|windows|] == windows;
    }

    /** `get_portfolio_summary` for an account or an explicit day: the cache is bypassed. */
    method GetDirectSummary(user: int, base: int, w: Window, inputs: Inputs) returns (read: Read<PortfolioSummary>)
      requires inputs.Valid()
      ensures read.ValueError? <==> !InBounds(w)
      ensures read.SolverError? <==> InBounds(w) && !Solvable(solver, inputs, base, OpenBonds(inputs))
      ensures read.Ok? ==> fresh(read.value) && read.value.Value() == Viewed(Summarize(solver, inputs, base), base, w)
      ensures read.Ok? ==> IsView(read.value.Value(), Summarize(solver, inputs, base), base, w)
    {
      if !InBounds(w) {
        return ValueError;
      }
      read := Compute(user, base, inputs);
      if read.Ok? {
        Narrow(read.value, base, w);
      }
    }

    /** `get_portfolio_summary`: `inputs` is what the queries load for the account, if one
        is given, and for the user otherwise. */
    method GetPortfolioSummary(user: int, now: int, today: Option<int>, account: Option<int>, w: Window, inputs: Inputs)
      returns (read: Read<PortfolioSummary>)
      requires Valid() && inputs.Valid()
      modifies this`cache
      ensures Valid()
      ensures read.ValueError? <==>
        !(1 <= w.horizonDays <= 3650 && 1 <= w.limit <= 1000
          && 1 <= w.cashflowsHorizonDays <= 7300 && 1 <= w.cashflowsLimit <= 5000)
      ensures forall other :: other in old(cache) ==>
        other in cache && cache[other] == old(cache)[other] && cache[other].Value() == old(cache[other].Value())
      ensures account.Some? || today.Some? ==> cache == old(cache)
      ensures read.Ok? && account.None? && today.None? ==>
        user in cache && read.value != cache[user] && IsView(read.value.Value(), cache[user].Value(), now, w)
      ensures read.Ok? && today.Some? ==>
        IsView(read.value.Value(), Summarize(solver, inputs, today.value), today.value, w)
      ensures read.Ok? && today.None? && account.Some? ==>
        IsView(read.value.Value(), Summarize(solver, inputs, now), now, w)
    {
      if account.Some? || today.Some? {
        read := GetDirectSummary(user, Base(today, now), w, inputs);
      } else {
        read := GetCachedSummary(user, now, w, inputs);
      }
    }

    /** `recalculate`: the only write to an entry that exists. */
    method Recalculate(user: int, now: int, inputs: Inputs) returns (read: Read<PortfolioSummary>)
      requires Valid() && inputs.Valid()
      modifies this`cache
      ensures Valid() && !read.ValueError?
      ensures read.SolverError? <==> !Solvable(solver, inputs, now, OpenBonds(inputs))
      ensures read.SolverError? ==> cache == old(cache)
      ensures read.Ok? ==>
        && user in cache && fresh(cache[user]) && cache == old(cache)[user := cache[user]]
        && cache[user].Value() == read.value.Value() == Summarize(solver, inputs, now)
        && fresh(read.value) && read.value != cache[user]
    {
      var outcome := ComputeSummary(solver, inputs, now);
      if !outcome.Computed? {
        return SolverError;
      }
      var summary := new PortfolioSummary(user, outcome.value);
      cache := cache[user := summary];
      var copy := summary.Copy();
      read := Ok(copy);
    }

    /** `get_position_analytics` without an account and a day: from the cached summary. */
    method GetCachedPosition(user: int, bond: int, now: int, inputs: Inputs)
      returns (read: Read<Option<PositionAnalytics>>)
      requires Valid() && inputs.Valid()
      modifies this`cache
      ensures Valid() && !read.ValueError?
      ensures user in old(cache) ==> read.Ok? && cache == old(cache)
      ensures read.Ok? ==> user in cache && read.value == FirstOn(cache[user].Value().positions, bond)
    {
      var summary := GetCachedSummary(user, now, DEFAULT_WINDOW, inputs);
      if !summary.Ok? {
        return SolverError;
      }
      read := Ok(FirstOn(summary.value.Value().positions, bond));
    }

    /** `get_position_analytics` for an account or an explicit day. */
    method GetPositionAnalytics(user: int, bond: int, base: int, inputs: Inputs)
      returns (read: Read<Option<PositionAnalytics>>)
      requires inputs.Valid()
      ensures read.SolverError? || read.Ok?
      ensures read.SolverError? <==> !Solvable(solver, inputs, base, OpenBonds(inputs))
      ensures read.Ok? ==>
        read.value == if bond in OpenBonds(inputs) then Some(PositionOf(solver, inputs, base, bond)) else None
    {
      var full := Compute(user, base, inputs);
      if !full.Ok? {
        return SolverError;
      }
      OpenAreHeld(inputs);
      OpenPositionFound(solver, inputs, base, OpenBonds(inputs), bond);
      read := Ok(FirstOn(full.value.positions, bond));
    }
  }

  function FirstOn(positions: seq<PositionAnalytics>, bond: int): Option<PositionAnalytics> {
    if positions == [] then None
    else if positions[0].bondId == bond then Some(positions[0])
    else FirstOn(positions[1..], bond)
  }

  lemma OpenAreHeld(inputs: Inputs)
    ensures forall id :: id in OpenBonds(inputs) ==> id in inputs.bonds
  {
    FilterMembers(BondIds(inputs.txns), OpenIn(inputs));
  }

  lemma {:induction false} OpenPositionFound(solver: YieldSolver, inputs: Inputs, today: int, ids: seq<int>, bond: int)
    requires inputs.Valid() && forall id :: id in ids ==> id in inputs.bonds
    ensures FirstOn(Map(ids, PositionOn(solver, inputs, today)), bond)
         == if bond in ids then Some(PositionOf(solver, inputs, today, bond)) else None
  {
    if ids != [] {
      assert ids == [ids[0]] + ids[1..];
      assert ids[0] in ids;
      OpenPositionFound(solver, inputs, today, ids[1..], bond);
      assert Map(ids, PositionOn(solver, inputs, today))[1..] == Map(ids[1..], PositionOn(solver, inputs, today));
    }
  }
}
