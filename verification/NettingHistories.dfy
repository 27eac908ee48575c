/** Laws that compare the walks of several related histories: composition at a
    full close, splitting a trade, the bounds of the average, and pooling the
    accounts of one user. */
module NettingHistories {
  import opened Seqs
  import opened Transactions
  import opened Netting
  import opened NettingLaws

  // ---------------------------------------------------------------- composition

  lemma {:induction false} WalkConcat(st: State, a: seq<Transaction>, b: seq<Transaction>)
    ensures WalkFrom(st, a + b) == WalkFrom(WalkFrom(st, a), b)
  {
    if b == [] {
      assert a + b == a;
    } else {
      var n := |b| - 1;
      WalkConcat(st, a, b[..n]);
      assert (a + b)[..|a| + n] == a + b[..n];
    }
  }

  /** The four running sums of `base` on top of `st`; position and basis are those of `st`. */
  function Plus(base: State, st: State): State {
    State(base.quantity + st.quantity, st.openQuantity, st.costBasis,
          base.sells + st.sells, base.maturities + st.maturities, base.commissions + st.commissions)
  }

  lemma StepPlus(base: State, st: State, t: Transaction)
    ensures Step(Plus(base, st), t) == Plus(base, Step(st, t))
  {
  }

  lemma {:induction false} WalkPlus(base: State, st: State, txns: seq<Transaction>)
    ensures WalkFrom(Plus(base, st), txns) == Plus(base, WalkFrom(st, txns))
  {
    if txns != [] {
      var front, t := txns[..|txns| - 1], txns[|txns| - 1];
      WalkPlus(base, st, front);
      StepPlus(base, WalkFrom(st, front), t);
    }
  }

  /** After a full close the rest of the history is priced as if it stood alone. */
  lemma FullCloseForgets(before: seq<Transaction>, after: seq<Transaction>)
    requires Positive(before) && Walk(before).openQuantity == 0
    ensures Walk(before + after).openQuantity == Walk(after).openQuantity
    ensures Walk(before + after).costBasis == Walk(after).costBasis
    ensures Walk(before + after).quantity == Walk(before).quantity + Walk(after).quantity
    ensures Walk(before + after).sells == Walk(before).sells + Walk(after).sells
    ensures Walk(before + after).maturities == Walk(before).maturities + Walk(after).maturities
    ensures Walk(before + after).commissions == Walk(before).commissions + Walk(after).commissions
  {
    WalkConcat(START, before, after);
    BasisSign(before);
    assert Walk(before) == Plus(Walk(before), START);
    WalkPlus(Walk(before), START, after);
  }

  // ---------------------------------------------------------------- splitting a trade

  function Part(t: Transaction, quantity: int, commission: real): Transaction {
    t.(quantity := quantity, commission := commission)
  }

  lemma PnlSplits(price: real, basis: real, open: real, c1: real, c2: real)
    requires 0.0 < c1 < open
    ensures Pnl(price, basis, open, c1) + Pnl(price, Reduced(basis, open, c1), open - c1, c2)
         == Pnl(price, basis, open, c1 + c2)
    ensures Reduced(Reduced(basis, open, c1), open - c1, c2) == Reduced(basis, open, c1 + c2)
  {
    var average := basis / open;
    assert basis == average * open;
    assert basis * (c1 / open) == average * c1;
    assert Reduced(basis, open, c1) == average * (open - c1);
    assert Reduced(basis, open, c1) / (open - c1) == average;
    assert Reduced(basis, open, c1) * (c2 / (open - c1)) == average * c2;
    assert basis * ((c1 + c2) / open) == average * (c1 + c2);
  }

  lemma PriceSplits(price: real, a: real, b: real)
    ensures price * (a + b) == price * a + price * b
  {
  }

  lemma BuySplits(st: State, t: Transaction, q1: int, q2: int, c1: real, c2: real)
    requires t.kind.BUY? && q1 > 0 && q2 > 0
    ensures Step(Step(st, Part(t, q1, c1)), Part(t, q2, c2)) == Step(st, Part(t, q1 + q2, c1 + c2))
  {
    assert (q1 + q2) as real == q1 as real + q2 as real;
    PriceSplits(t.price, q1 as real, q2 as real);
  }

  /** A close of all that is open leaves nothing for the second part. */
  lemma FullExitSplits(st: State, t: Transaction, q1: int, q2: int, c1: real, c2: real)
    requires !t.kind.BUY? && q1 > 0 && q2 > 0 && st.openQuantity <= q1
    ensures Step(Step(st, Part(t, q1, c1)), Part(t, q2, c2)) == Step(st, Part(t, q1 + q2, c1 + c2))
  {
    assert st.openQuantity > 0 ==> Closed(st.openQuantity, q1) == st.openQuantity == Closed(st.openQuantity, q1 + q2);
  }

  lemma PartialExitSplits(st: State, t: Transaction, q1: int, q2: int, c1: real, c2: real)
    requires !t.kind.BUY? && q1 > 0 && q2 > 0 && st.openQuantity > q1
    ensures Step(Step(st, Part(t, q1, c1)), Part(t, q2, c2)) == Step(st, Part(t, q1 + q2, c1 + c2))
  {
    var closed := Closed(st.openQuantity - q1, q2);
    assert Closed(st.openQuantity, q1 + q2) == q1 + closed;
    PnlSplits(t.price, st.costBasis, st.openQuantity as real, q1 as real, closed as real);
  }

  lemma SplitStep(st: State, t: Transaction, q1: int, q2: int, c1: real, c2: real)
    requires q1 > 0 && q2 > 0
    ensures Step(Step(st, Part(t, q1, c1)), Part(t, q2, c2)) == Step(st, Part(t, q1 + q2, c1 + c2))
  {
    if t.kind.BUY? {
      BuySplits(st, t, q1, q2, c1, c2);
    } else if st.openQuantity <= q1 {
      FullExitSplits(st, t, q1, q2, c1, c2);
    } else {
      PartialExitSplits(st, t, q1, q2, c1, c2);
    }
  }

  /** Splitting any trade of a history into two changes nothing, even where the
      close is clamped. */
  lemma SplittingATrade(before: seq<Transaction>, t: Transaction, after: seq<Transaction>,
      q1: int, q2: int, c1: real, c2: real)
    requires q1 > 0 && q2 > 0 && t.quantity == q1 + q2 && t.commission == c1 + c2
    ensures Walk(before + [Part(t, q1, c1), Part(t, q2, c2)] + after) == Walk(before + [t] + after)
  {
    var one, two := [t], [Part(t, q1, c1), Part(t, q2, c2)];
    WalkConcat(START, before + one, after);
    WalkConcat(START, before, one);
    WalkConcat(START, before + two, after);
    WalkConcat(START, before, two);
    SplitStep(Walk(before), t, q1, q2, c1, c2);
    assert t == Part(t, q1 + q2, c1 + c2);
    assert one[..0] == [] && two[..1] == [two[0]] && [two[0]][..0] == [];
    assert WalkFrom(Walk(before), two) == Step(WalkFrom(Walk(before), [two[0]]), two[1]);
  }

  // ---------------------------------------------------------------- bounds of the average

  /** How many transactions there are up to the last moment with nothing open. */
  function LastFlat(txns: seq<Transaction>): (k: nat)
    ensures k <= |txns|
  {
    if txns == [] then 0
    else if Net(txns) == LeastPrefixNet(txns) then |txns|
    else LastFlat(txns[..|txns| - 1])
  }

  ghost predicate BoughtWithin(txns: seq<Transaction>, from: nat, lo: real, hi: real) {
    forall i :: from <= i < |txns| && txns[i].kind.BUY? ==> lo <= txns[i].price <= hi
  }

  predicate Within(basis: real, open: real, lo: real, hi: real) {
    lo * open <= basis <= hi * open
  }

  lemma {:induction false} BasisWithin(txns: seq<Transaction>, lo: real, hi: real)
    requires Positive(txns) && BoughtWithin(txns, LastFlat(txns), lo, hi)
    ensures Within(Walk(txns).costBasis, Walk(txns).openQuantity as real, lo, hi)
  {
    Reflection(txns);
    BasisSign(txns);
    if Walk(txns).openQuantity > 0 {
      var front, t := txns[..|txns| - 1], txns[|txns| - 1];
      assert t in txns;
      Reflection(front);
      assert BoughtWithin(front, LastFlat(front), lo, hi);
      BasisWithin(front, lo, hi);
      if t.kind.BUY? {
        BuyWithin(Walk(front), t, lo, hi);
      } else {
        ExitWithin(Walk(front), t, lo, hi);
      }
    }
  }

  lemma BuyWithin(st: State, t: Transaction, lo: real, hi: real)
    requires t.kind.BUY? && t.quantity > 0 && lo <= t.price <= hi
    requires Within(st.costBasis, st.openQuantity as real, lo, hi)
    ensures Within(Step(st, t).costBasis, Step(st, t).openQuantity as real, lo, hi)
  {
    BoughtMoreWithin(st.costBasis, st.openQuantity as real, t.price, t.quantity as real, lo, hi);
    assert Step(st, t).openQuantity as real == st.openQuantity as real + t.quantity as real;
  }

  lemma ExitWithin(st: State, t: Transaction, lo: real, hi: real)
    requires !t.kind.BUY? && t.quantity > 0 && st.openQuantity >= 0 && Step(st, t).openQuantity > 0
    requires Within(st.costBasis, st.openQuantity as real, lo, hi)
    ensures Within(Step(st, t).costBasis, Step(st, t).openQuantity as real, lo, hi)
  {
    ScaledWithin(st.costBasis, st.openQuantity as real, t.quantity as real, lo, hi);
    assert Step(st, t).openQuantity as real == st.openQuantity as real - t.quantity as real;
  }

  lemma BoughtMoreWithin(basis: real, open: real, price: real, quantity: real, lo: real, hi: real)
    requires quantity > 0.0 && lo <= price <= hi && Within(basis, open, lo, hi)
    ensures Within(basis + price * quantity, open + quantity, lo, hi)
  {
    assert lo * quantity <= price * quantity <= hi * quantity;
  }

  lemma ScaledWithin(basis: real, open: real, closed: real, lo: real, hi: real)
    requires 0.0 < closed < open && Within(basis, open, lo, hi)
    ensures Within(Reduced(basis, open, closed), open - closed, lo, hi)
  {
    QuotientWithin(basis, open, lo, hi);
    ReducedIsScaled(basis, open, closed);
    ProductWithin(basis / open, open - closed, lo, hi);
  }

  lemma Scales(a: real, b: real, c: real)
    requires c > 0.0
    ensures a <= b <==> a * c <= b * c
  {
    assert (b - a) * c == b * c - a * c;
  }

  lemma QuotientWithin(basis: real, open: real, lo: real, hi: real)
    requires open > 0.0 && Within(basis, open, lo, hi)
    ensures lo <= basis / open <= hi
  {
    var average := basis / open;
    assert average * open == basis;
    Scales(lo, average, open);
    Scales(average, hi, open);
  }

  lemma ProductWithin(average: real, left: real, lo: real, hi: real)
    requires left > 0.0 && lo <= average <= hi
    ensures Within(average * left, left, lo, hi)
  {
    Scales(lo, average, left);
    Scales(average, hi, left);
  }

  lemma ReducedIsScaled(basis: real, open: real, closed: real)
    requires open > 0.0
    ensures Reduced(basis, open, closed) == basis / open * (open - closed)
  {
    var average := basis / open;
    assert average * open == basis;
    assert basis * (closed / open) == average * closed by {
      var share := closed / open;
      assert share * open == closed;
      assert average * open * share == average * (open * share);
    }
  }

  /** The average lies between the least and the greatest price paid since the
      position was last flat. */
  lemma AverageBetweenPricesPaid(txns: seq<Transaction>, lo: real, hi: real)
    requires Positive(txns) && NetPosition(txns).1.Some?
    requires BoughtWithin(txns, LastFlat(txns), lo, hi)
    ensures lo <= NetPosition(txns).1.value <= hi
  {
    BasisWithin(txns, lo, hi);
    AverageWithin(Walk(txns).costBasis, Walk(txns).openQuantity, lo, hi);
  }

  lemma AverageWithin(basis: real, open: int, lo: real, hi: real)
    requires open > 0 && Within(basis, open as real, lo, hi)
    ensures lo <= Average(basis, open) <= hi
  {
    assert Average(basis, open) * open as real == basis;
  }

  // ---------------------------------------------------------------- pooling accounts

  function AtAccount(account: int): Transaction -> bool {
    (t: Transaction) => t.accountId == account
  }

  function AtAccounts(accounts: seq<int>): Transaction -> bool {
    (t: Transaction) => t.accountId in accounts
  }

  function OnAccount(txns: seq<Transaction>, account: int): seq<Transaction> {
    Filter(txns, AtAccount(account))
  }

  function OnAccounts(txns: seq<Transaction>, accounts: seq<int>): seq<Transaction> {
    Filter(txns, AtAccounts(accounts))
  }

  /** Money paid for a purchase, or minus the money asked for an exit. */
  function Outlay(t: Transaction): real {
    t.price * t.Signed() as real
  }

  function SumNet(txns: seq<Transaction>, accounts: seq<int>): int
  {
    if accounts == [] then 0
    else SumNet(txns, accounts[1..]) + Net(OnAccount(txns, accounts[0]))
  }

  /** Cost basis minus realized profit, account by account. */
  function SumAtCost(txns: seq<Transaction>, accounts: seq<int>): real
  {
    if accounts == [] then 0.0
    else SumAtCost(txns, accounts[1..]) + AtCost(Walk(OnAccount(txns, accounts[0])))
  }

  lemma UnclampedMovesOutlay(st: State, t: Transaction)
    requires t.quantity > 0 && (t.kind.BUY? || t.quantity <= st.openQuantity)
    ensures CashMoved(st, t) == Outlay(t)
  {
  }

  lemma {:induction false} UnclampedAtCost(txns: seq<Transaction>)
    requires Positive(txns) && NeverClamps(txns)
    ensures AtCost(Walk(txns)) == Total(txns, Outlay)
  {
    if txns != [] {
      var front, t := txns[..|txns| - 1], txns[|txns| - 1];
      assert t in txns;
      NeverClampsSnoc(txns);
      UnclampedAtCost(front);
      UnclampedMovesOutlay(Walk(front), t);
      StepMovesCash(Walk(front), t);
    }
  }

  /** The net quantity over some accounts is the sum of the net quantities on each. */
  lemma {:induction false} NetOverAccounts(txns: seq<Transaction>, accounts: seq<int>)
    requires Unique(accounts)
    ensures Net(OnAccounts(txns, accounts)) == SumNet(txns, accounts)
  {
    if accounts == [] {
      FilterNone(txns, AtAccounts(accounts));
    } else {
      NetOverAccounts(txns, accounts[1..]);
      assert accounts[0] !in accounts[1..];
      NetSplit(txns, AtAccounts(accounts[1..]), AtAccount(accounts[0]), AtAccounts(accounts));
    }
  }

  function SumTotal(txns: seq<Transaction>, accounts: seq<int>, f: Transaction -> real): real
  {
    if accounts == [] then 0.0
    else SumTotal(txns, accounts[1..], f) + Total(OnAccount(txns, accounts[0]), f)
  }

  lemma {:induction false} TotalOverAccounts(txns: seq<Transaction>, accounts: seq<int>, f: Transaction -> real)
    requires Unique(accounts)
    ensures Total(OnAccounts(txns, accounts), f) == SumTotal(txns, accounts, f)
  {
    if accounts == [] {
      FilterNone(txns, AtAccounts(accounts));
    } else {
      TotalOverAccounts(txns, accounts[1..], f);
      assert accounts[0] !in accounts[1..];
      TotalSplit(txns, f, AtAccounts(accounts[1..]), AtAccount(accounts[0]), AtAccounts(accounts));
    }
  }

  lemma {:induction false} UnclampedAccounts(txns: seq<Transaction>, accounts: seq<int>)
    requires Positive(txns)
    requires forall a :: a in accounts ==> NeverClamps(OnAccount(txns, a))
    ensures SumAtCost(txns, accounts) == SumTotal(txns, accounts, Outlay)
  {
    if accounts != [] {
      UnclampedAccounts(txns, accounts[1..]);
      FilterMembers(txns, AtAccount(accounts[0]));
      UnclampedAtCost(OnAccount(txns, accounts[0]));
    }
  }

  lemma {:induction false} SumNetNonNegative(txns: seq<Transaction>, accounts: seq<int>)
    requires forall a :: a in accounts ==> Net(OnAccount(txns, a)) >= 0
    ensures SumNet(txns, accounts) >= 0
  {
    if accounts != [] {
      SumNetNonNegative(txns, accounts[1..]);
    }
  }

  /** If no account ever goes short, neither does the pool of all accounts. */
  lemma PoolNeverClamps(txns: seq<Transaction>, accounts: seq<int>)
    requires Positive(txns) && Unique(accounts)
    requires forall t :: t in txns ==> t.accountId in accounts
    requires forall a :: a in accounts ==> NeverClamps(OnAccount(txns, a))
    ensures NeverClamps(txns)
  {
    LeastPrefixNetIsLeast(txns);
    var k :| 0 <= k <= |txns| && LeastPrefixNet(txns) == Net(txns[..k]);
    forall a | a in accounts ensures Net(OnAccount(txns[..k], a)) >= 0 {
      var mine := OnAccount(txns, a);
      FilterMembers(txns, AtAccount(a));
      NeverClampsIff(mine);
      LeastPrefixNetIsLeast(mine);
      FilterPrefix(txns, k, AtAccount(a));
    }
    SumNetNonNegative(txns[..k], accounts);
    NetOverAccounts(txns[..k], accounts);
    FilterAll(txns[..k], AtAccounts(accounts));
    Reflection(txns);
    NeverClampsIff(txns);
  }

  /** Pooling law: realized profit and remaining basis may move between the pooled
      walk and the walks by account, but their difference does not. */
  lemma PoolingLaw(txns: seq<Transaction>, accounts: seq<int>)
    requires Positive(txns) && Unique(accounts)
    requires forall t :: t in txns ==> t.accountId in accounts
    requires forall a :: a in accounts ==> NeverClamps(OnAccount(txns, a))
    ensures AtCost(Walk(txns)) == SumAtCost(txns, accounts)
  {
    PoolNeverClamps(txns, accounts);
    UnclampedAtCost(txns);
    FilterAll(txns, AtAccounts(accounts));
    TotalOverAccounts(txns, accounts, Outlay);
    UnclampedAccounts(txns, accounts);
  }

  // ---------------------------------------------------------------- where pool and accounts differ

  function Profit(st: State): real {
    st.sells + st.maturities
  }

  function SumBasis(txns: seq<Transaction>, accounts: seq<int>): real
  {
    if accounts == [] then 0.0
    else SumBasis(txns, accounts[1..]) + Walk(OnAccount(txns, accounts[0])).costBasis
  }

  function SumProfit(txns: seq<Transaction>, accounts: seq<int>): real
  {
    if accounts == [] then 0.0
    else SumProfit(txns, accounts[1..]) + Profit(Walk(OnAccount(txns, accounts[0])))
  }

  /** By how much the basis of the pool exceeds that of the accounts. */
  function Drift(txns: seq<Transaction>, accounts: seq<int>): real {
    Walk(txns).costBasis - SumBasis(txns, accounts)
  }

  function AverageOf(txns: seq<Transaction>): real {
    var st := Walk(txns);
    if st.openQuantity > 0 then Average(st.costBasis, st.openQuantity) else 0.0
  }

  /** Every account goes through its part of the history without going short. */
  ghost predicate NeverShort(txns: seq<Transaction>, accounts: seq<int>) {
    && Positive(txns) && Unique(accounts)
    && (forall t :: t in txns ==> t.accountId in accounts)
    && (forall a :: a in accounts ==> NeverClamps(OnAccount(txns, a)))
  }

  lemma {:induction false} CostIsBasisLessProfit(txns: seq<Transaction>, accounts: seq<int>)
    ensures SumAtCost(txns, accounts) == SumBasis(txns, accounts) - SumProfit(txns, accounts)
  {
    if accounts != [] {
      CostIsBasisLessProfit(txns, accounts[1..]);
    }
  }

  /** What the pool has more in its basis it has more in its profit. */
  lemma DriftIsProfitDrift(txns: seq<Transaction>, accounts: seq<int>)
    requires NeverShort(txns, accounts)
    ensures Profit(Walk(txns)) - SumProfit(txns, accounts) == Drift(txns, accounts)
  {
    PoolingLaw(txns, accounts);
    CostIsBasisLessProfit(txns, accounts);
  }

  /** A purchase adds what it costs; an exit takes its units out at the average. */
  function BasisMoved(txns: seq<Transaction>, t: Transaction): real {
    if t.kind.BUY? then Paid(t) else -Value(AverageOf(txns), t.quantity)
  }

  lemma ReducedAtAverage(basis: real, open: int, closed: int)
    requires open > 0
    ensures Reduced(basis, open as real, closed as real) == basis - Value(Average(basis, open), closed)
  {
    var average := basis / open as real;
    assert basis == average * open as real;
    assert basis * (closed as real / open as real) == average * closed as real;
  }

  lemma StepMovesBasis(st: State, t: Transaction)
    requires t.kind.BUY? || 0 < t.quantity <= st.openQuantity
    ensures Step(st, t).costBasis == st.costBasis +
      if t.kind.BUY? then Paid(t) else -Value(Average(st.costBasis, st.openQuantity), t.quantity)
  {
    if !t.kind.BUY? {
      ReducedAtAverage(st.costBasis, st.openQuantity, t.quantity);
      ResetIsExact(st.costBasis, st.openQuantity);
    }
  }

  lemma BasisAfter(txns: seq<Transaction>, t: Transaction)
    requires t.quantity > 0 && NeverClamps(txns + [t])
    ensures Walk(txns + [t]).costBasis == Walk(txns).costBasis + BasisMoved(txns, t)
  {
    var n := |txns|;
    assert (txns + [t])[..n] == txns && (txns + [t])[n] == t;
    NeverClampsSnoc(txns + [t]);
    StepMovesBasis(Walk(txns), t);
  }

  lemma {:induction false} SumBasisAfter(txns: seq<Transaction>, t: Transaction, accounts: seq<int>)
    requires t.quantity > 0 && Unique(accounts)
    requires forall a :: a in accounts ==> NeverClamps(OnAccount(txns + [t], a))
    ensures SumBasis(txns + [t], accounts) == SumBasis(txns, accounts) +
      if t.accountId in accounts then BasisMoved(OnAccount(txns, t.accountId), t) else 0.0
  {
    if accounts != [] {
      var account := accounts[0];
      assert accounts == [account] + accounts[1..];
      assert account !in accounts[1..];
      SumBasisAfter(txns, t, accounts[1..]);
      FilterSnoc(txns, t, AtAccount(account));
      if t.accountId == account {
        assert OnAccount(txns + [t], account) == OnAccount(txns, account) + [t];
        assert account in accounts;
        BasisAfter(OnAccount(txns, account), t);
      }
    }
  }

  /** The value of `quantity` units at the difference of two averages. */
  function Spread(quantity: int, here: real, pooled: real): real {
    (here - pooled) * quantity as real
  }

  lemma SpreadIs(quantity: int, here: real, pooled: real)
    requires quantity > 0
    ensures Spread(quantity, here, pooled) == Value(here, quantity) - Value(pooled, quantity)
    ensures Spread(quantity, here, pooled) == 0.0 <==> here == pooled
  {
    var q, d := quantity as real, here - pooled;
    if d * q == 0.0 {
      assert d == d * q / q;
    }
  }

  /** For every history: a purchase keeps pool and accounts as far apart as they were, an
      exit moves them by its units at the difference between the average of its account
      and the average of the pool. */
  lemma DriftAfter(txns: seq<Transaction>, t: Transaction, accounts: seq<int>)
    requires NeverShort(txns + [t], accounts)
    ensures Drift(txns + [t], accounts) == Drift(txns, accounts) +
      if t.kind.BUY? then 0.0 else Spread(t.quantity, AverageOf(OnAccount(txns, t.accountId)), AverageOf(txns))
  {
    assert t in txns + [t];
    PoolNeverClamps(txns + [t], accounts);
    BasisAfter(txns, t);
    SumBasisAfter(txns, t, accounts);
    SpreadIs(t.quantity, AverageOf(OnAccount(txns, t.accountId)), AverageOf(txns));
  }

  /** Where pool and accounts agree on basis and profit, an exit keeps them in agreement
      exactly when its account and the pool have the same average. */
  lemma AgreementKeptIff(txns: seq<Transaction>, t: Transaction, accounts: seq<int>)
    requires NeverShort(txns + [t], accounts) && !t.kind.BUY? && Drift(txns, accounts) == 0.0
    ensures Drift(txns + [t], accounts) == 0.0 <==> AverageOf(OnAccount(txns, t.accountId)) == AverageOf(txns)
    ensures Profit(Walk(txns + [t])) == SumProfit(txns + [t], accounts) <==>
      AverageOf(OnAccount(txns, t.accountId)) == AverageOf(txns)
  {
    DriftAfter(txns, t, accounts);
    DriftIsProfitDrift(txns + [t], accounts);
    assert t in txns + [t];
    SpreadIs(t.quantity, AverageOf(OnAccount(txns, t.accountId)), AverageOf(txns));
  }

  /** The smallest case where they part: after a purchase of one unit on each of two
      accounts, selling one of them books the same profit in the pool as on its
      account exactly when both were bought at the same price. */
  lemma PooledProfitDiffersIff(a: Transaction, b: Transaction, c: Transaction)
    requires a.kind.BUY? && b.kind.BUY? && c.kind.SELL? && a.quantity == b.quantity == c.quantity == 1
    requires a.accountId == c.accountId == 1 && b.accountId == 2
    ensures Walk([a, b, c]).sells == Walk(OnAccount([a, b, c], 1)).sells + Walk(OnAccount([a, b, c], 2)).sells
      <==> a.price == b.price
    ensures
      Walk([a, b, c]).costBasis
        == Walk(OnAccount([a, b, c], 1)).costBasis + Walk(OnAccount([a, b, c], 2)).costBasis
      <==> a.price == b.price
  {
    Partition(a, b, c);
    SoldFromPool(a, b, c);
    SoldFromAccount(a, c);
    WalkTwo(b, b);
  }

  /** One unit sold out of two. */
  lemma SoldFromPool(a: Transaction, b: Transaction, c: Transaction)
    requires a.kind.BUY? && b.kind.BUY? && c.kind.SELL? && a.quantity == b.quantity == c.quantity == 1
    ensures Walk([a, b, c]).sells == c.price - (a.price + b.price) / 2.0
    ensures Walk([a, b, c]).costBasis == (a.price + b.price) / 2.0
  {
    WalkThree(a, b, c);
    var st := Step(Step(START, a), b);
    assert st.openQuantity == 2 && st.costBasis == a.price + b.price && st.sells == 0.0;
    SellOne(st, c, (a.price + b.price) / 2.0);
  }

  /** The only unit sold. */
  lemma SoldFromAccount(a: Transaction, c: Transaction)
    requires a.kind.BUY? && c.kind.SELL? && a.quantity == c.quantity == 1
    ensures Walk([a, c]).sells == c.price - a.price && Walk([a, c]).costBasis == 0.0
  {
    WalkTwo(a, c);
    var st := Step(START, a);
    assert st.openQuantity == 1 && st.costBasis == a.price && st.sells == 0.0;
    SellOne(st, c, a.price);
  }

  lemma SellOne(st: State, t: Transaction, average: real)
    requires t.kind.SELL? && t.quantity == 1
    requires st.openQuantity >= 1 && st.costBasis == average * st.openQuantity as real
    ensures Step(st, t).sells == st.sells + (t.price - average)
    ensures Step(st, t).costBasis == if st.openQuantity == 1 then 0.0 else st.costBasis - average
  {
    var open := st.openQuantity as real;
    assert st.costBasis / open == average;
    assert st.costBasis * (1.0 / open) == average;
  }

  lemma Partition(a: Transaction, b: Transaction, c: Transaction)
    requires a.accountId == c.accountId == 1 && b.accountId == 2
    ensures OnAccount([a, b, c], 1) == [a, c] && OnAccount([a, b, c], 2) == [b]
  {
    assert [a, b] + [c] == [a, b, c] && [a] + [b] == [a, b] && [] + [a] == [a];
    forall account ensures OnAccount([a, b, c], account)
      == OnlyIf(a, account) + OnlyIf(b, account) + OnlyIf(c, account)
    {
      FilterSnoc([a, b], c, AtAccount(account));
      FilterSnoc([a], b, AtAccount(account));
      FilterSnoc([], a, AtAccount(account));
    }
    assert OnlyIf(a, 1) + OnlyIf(b, 1) + OnlyIf(c, 1) == [a, c];
  }

  function OnlyIf(t: Transaction, account: int): seq<Transaction> {
    if t.accountId == account then [t] else []
  }

  lemma WalkTwo(a: Transaction, b: Transaction)
    ensures Walk([a]) == Step(START, a) && Walk([a, b]) == Step(Step(START, a), b)
  {
    WalkSnoc([a, b], 0);
    WalkSnoc([a, b], 1);
    assert [a, b][..1] == [a] && [a, b][..2] == [a, b];
  }

  lemma WalkThree(a: Transaction, b: Transaction, c: Transaction)
    ensures Walk([a, b, c]) == Step(Step(Step(START, a), b), c)
  {
    WalkTwo(a, b);
    WalkSnoc([a, b, c], 2);
    assert [a, b, c][..2] == [a, b] && [a, b, c][..3] == [a, b, c];
  }
}
