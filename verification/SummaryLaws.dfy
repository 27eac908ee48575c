/** What the figures of a summary add up to, over all bonds and over accounts. */
module SummaryLaws {
  import opened Seqs
  import opened Transactions
  import opened Netting
  import opened NettingLaws
  import opened NettingHistories
  import opened Grouping
  import opened Calendar
  import opened Summary
  import G = Grid

  function OnBonds(bonds: seq<int>): Transaction -> bool {
    (t: Transaction) => t.bondId in bonds
  }

  /** A sum over the rows, bond by bond. */
  function TotalByBond(inputs: Inputs, bonds: seq<int>, f: Transaction -> real): real {
    if bonds == [] then 0.0
    else TotalByBond(inputs, bonds[..|bonds| - 1], f) + Total(inputs.Rows(bonds[|bonds| - 1]), f)
  }

  lemma {:induction false} TotalOverBonds(inputs: Inputs, bonds: seq<int>, f: Transaction -> real)
    requires G.Increasing(bonds)
    ensures Total(Filter(inputs.txns, OnBonds(bonds)), f) == TotalByBond(inputs, bonds, f)
  {
    if bonds == [] {
      FilterNone(inputs.txns, OnBonds(bonds));
    } else {
      var n := |bonds| - 1;
      TotalOverBonds(inputs, bonds[..n], f);
      assert bonds == bonds[..n] + [bonds[n]];
      TotalSplit(inputs.txns, f, OnBonds(bonds[..n]), OnBond(bonds[n]), OnBonds(bonds));
    }
  }

  /** Every row belongs to exactly one of the bonds of the history. */
  lemma TotalOverAllBonds(inputs: Inputs, f: Transaction -> real)
    ensures TotalByBond(inputs, BondIds(inputs.txns), f) == Total(inputs.txns, f)
  {
    BondIdsAscend(inputs.txns);
    TotalOverBonds(inputs, BondIds(inputs.txns), f);
    FilterAll(inputs.txns, OnBonds(BondIds(inputs.txns)));
  }

  /** The commissions of a summary are those of all exits. */
  lemma {:induction false} CommissionsAddUp(inputs: Inputs, bonds: seq<int>)
    ensures Realized(inputs, bonds).2 == TotalByBond(inputs, bonds, ExitCommission)
  {
    if bonds != [] {
      CommissionsAddUp(inputs, bonds[..|bonds| - 1]);
      QuantityAndCommissions(inputs.Rows(bonds[|bonds| - 1]));
    }
  }

  /** What a bond contributes to the invested total. */
  function InvestedIn(inputs: Inputs, bond: int): real {
    if IsOpen(inputs, bond) then Netting.Value(PriceOf(inputs.Rows(bond)), Held(inputs, bond)) else 0.0
  }

  lemma {:induction false} InvestedByBond(solver: YieldSolver, inputs: Inputs, today: int, bonds: seq<int>, bond: int)
    ensures Invested(Map(Filter(bonds + [bond], OpenIn(inputs)), PositionOn(solver, inputs, today)))
         == Invested(Map(Filter(bonds, OpenIn(inputs)), PositionOn(solver, inputs, today))) + InvestedIn(inputs, bond)
  {
    FilterSnoc(bonds, bond, OpenIn(inputs));
    var open := Filter(bonds, OpenIn(inputs));
    if IsOpen(inputs, bond) {
      var positions := Map(open, PositionOn(solver, inputs, today));
      MapSnoc(open, bond, PositionOn(solver, inputs, today));
      assert (positions + [PositionOf(solver, inputs, today, bond)])[..|open|] == positions;
    }
  }

  /** On one bond that never went short: invested minus realized is the cash paid. */
  lemma BondBalances(inputs: Inputs, bond: int)
    requires inputs.Valid() && bond in inputs.bonds && NeverClamps(inputs.Rows(bond))
    ensures
      InvestedIn(inputs, bond) - Netting.RealizedPnl(inputs.Rows(bond)).0 - Netting.RealizedPnl(inputs.Rows(bond)).1
        == Total(inputs.Rows(bond), Outlay)
  {
    var rows := inputs.Rows(bond);
    FilterMembers(inputs.txns, OnBond(bond));
    UnclampedAtCost(rows);
    NeverClampsIff(rows);
    Reflection(rows);
    BasisSign(rows);
    if IsOpen(inputs, bond) {
      ValueWithinBasis(rows);
    }
  }

  /** Invested minus realized is the cash paid, over some bonds. */
  ghost predicate Balances(solver: YieldSolver, inputs: Inputs, today: int, bonds: seq<int>) {
    Invested(Map(Filter(bonds, OpenIn(inputs)), PositionOn(solver, inputs, today)))
      - Realized(inputs, bonds).0 - Realized(inputs, bonds).1 == TotalByBond(inputs, bonds, Outlay)
  }

  lemma SumsSnoc(inputs: Inputs, bonds: seq<int>, bond: int, f: Transaction -> real)
    ensures TotalByBond(inputs, bonds + [bond], f) == TotalByBond(inputs, bonds, f) + Total(inputs.Rows(bond), f)
    ensures Realized(inputs, bonds + [bond])
         == Added(Realized(inputs, bonds), Netting.RealizedPnl(inputs.Rows(bond)))
  {
    assert (bonds + [bond])[..|bonds|] == bonds;
  }

  lemma OneMoreBalances(solver: YieldSolver, inputs: Inputs, today: int, bonds: seq<int>, bond: int)
    requires inputs.Valid() && bond in inputs.bonds && NeverClamps(inputs.Rows(bond))
    requires Balances(solver, inputs, today, bonds)
    ensures Balances(solver, inputs, today, bonds + [bond])
  {
    BondBalances(inputs, bond);
    InvestedByBond(solver, inputs, today, bonds, bond);
    SumsSnoc(inputs, bonds, bond, Outlay);
  }

  lemma {:induction false} BondsBalance(solver: YieldSolver, inputs: Inputs, today: int, bonds: seq<int>)
    requires inputs.Valid()
    requires forall b :: b in bonds ==> b in inputs.bonds && NeverClamps(inputs.Rows(b))
    ensures Balances(solver, inputs, today, bonds)
  {
    if bonds != [] {
      var n := |bonds| - 1;
      BondsBalance(solver, inputs, today, bonds[..n]);
      assert bonds[n] in bonds;
      OneMoreBalances(solver, inputs, today, bonds[..n], bonds[n]);
      FrontAndLast(bonds);
    }
  }

  ghost predicate NeverShort(inputs: Inputs) {
    forall b :: b in BondIds(inputs.txns) ==> b in inputs.bonds && NeverClamps(inputs.Rows(b))
  }

  /** The books of a summary balance: what is invested, minus what was realized by
      sales and redemptions, is the cash paid for bonds minus the cash received, and
      the commissions are those of all exits. */
  lemma SummaryBalances(solver: YieldSolver, inputs: Inputs, today: int)
    requires inputs.Valid() && NeverShort(inputs)
    ensures var summary := Summarize(solver, inputs, today);
      && summary.totalInvested - summary.realizedPnl.sells - summary.realizedPnl.maturities
         == Total(inputs.txns, Outlay)
      && summary.realizedPnl.commissions == Total(inputs.txns, ExitCommission)
      && summary.realizedPnl.total
         == summary.realizedPnl.sells + summary.realizedPnl.maturities - summary.realizedPnl.commissions
  {
    var ids := BondIds(inputs.txns);
    BondsBalance(solver, inputs, today, ids);
    TotalOverAllBonds(inputs, Outlay);
    CommissionsAddUp(inputs, ids);
    TotalOverAllBonds(inputs, ExitCommission);
  }

  /** The profit of exits of a kind, bond by bond. */
  function ProfitByBond(inputs: Inputs, bonds: seq<int>, kind: Kind): real {
    if bonds == [] then 0.0
    else ProfitByBond(inputs, bonds[..|bonds| - 1], kind) + ExitProfit(inputs.Rows(bonds[|bonds| - 1]), kind)
  }

  lemma {:induction false} ProfitsAddUp(inputs: Inputs, bonds: seq<int>)
    ensures Realized(inputs, bonds).0 == ProfitByBond(inputs, bonds, SELL)
    ensures Realized(inputs, bonds).1 == ProfitByBond(inputs, bonds, MATURE)
  {
    if bonds != [] {
      ProfitsAddUp(inputs, bonds[..|bonds| - 1]);
      RealizedByKind(inputs.Rows(bonds[|bonds| - 1]));
    }
  }

  lemma {:induction false} NoProfitByBond(inputs: Inputs, bonds: seq<int>, kind: Kind)
    requires forall t :: t in inputs.txns ==> t.kind != kind
    ensures ProfitByBond(inputs, bonds, kind) == 0.0
  {
    if bonds != [] {
      NoProfitByBond(inputs, bonds[..|bonds| - 1], kind);
      FilterMembers(inputs.txns, OnBond(bonds[|bonds| - 1]));
      NoProfitWithout(inputs.Rows(bonds[|bonds| - 1]), kind);
    }
  }

  /** A summary reports the profit of sales as sales and that of redemptions as redemptions,
      each against the average at the time, summed over the bonds of the history. */
  lemma SummaryBooksByKind(solver: YieldSolver, inputs: Inputs, today: int)
    ensures var pnl := Summarize(solver, inputs, today).realizedPnl;
      && pnl.sells == ProfitByBond(inputs, BondIds(inputs.txns), SELL)
      && pnl.maturities == ProfitByBond(inputs, BondIds(inputs.txns), MATURE)
      && ((forall t :: t in inputs.txns ==> t.kind != SELL) ==> pnl.sells == 0.0)
      && ((forall t :: t in inputs.txns ==> t.kind != MATURE) ==> pnl.maturities == 0.0)
      && pnl.total == pnl.sells + pnl.maturities - pnl.commissions
  {
    var ids := BondIds(inputs.txns);
    ProfitsAddUp(inputs, ids);
    if forall t :: t in inputs.txns ==> t.kind != SELL {
      NoProfitByBond(inputs, ids, SELL);
    }
    if forall t :: t in inputs.txns ==> t.kind != MATURE {
      NoProfitByBond(inputs, ids, MATURE);
    }
  }

  // ---------------------------------------------------------------- one account at a time

  /** What the queries load for one account of the user. */
  function OfAccount(inputs: Inputs, account: int): Inputs {
    inputs.(txns := OnAccount(inputs.txns, account))
  }

  /** Invested minus realized, over the summaries of the accounts. */
  function SumOfAccounts(solver: YieldSolver, inputs: Inputs, today: int, accounts: seq<int>): real
  {
    if accounts == [] then 0.0
    else
      var summary := Summarize(solver, OfAccount(inputs, accounts[0]), today);
      SumOfAccounts(solver, inputs, today, accounts[1..]) +
        (summary.totalInvested - summary.realizedPnl.sells - summary.realizedPnl.maturities)
  }

  lemma {:induction false} AccountsBalance(solver: YieldSolver, inputs: Inputs, today: int, accounts: seq<int>)
    requires inputs.Valid() && forall a :: a in accounts ==> NeverShort(OfAccount(inputs, a))
    ensures SumOfAccounts(solver, inputs, today, accounts) == SumTotal(inputs.txns, accounts, Outlay)
  {
    if accounts != [] {
      AccountsBalance(solver, inputs, today, accounts[1..]);
      FilterMembers(inputs.txns, AtAccount(accounts[0]));
      SummaryBalances(solver, OfAccount(inputs, accounts[0]), today);
    }
  }

  lemma RowsCommute(inputs: Inputs, account: int, bond: int)
    ensures OnAccount(inputs.Rows(bond), account) == OfAccount(inputs, account).Rows(bond)
  {
    var both := (t: Transaction) => t.accountId == account && t.bondId == bond;
    FilterTwice(inputs.txns, OnBond(bond), AtAccount(account), both);
    FilterTwice(inputs.txns, AtAccount(account), OnBond(bond), both);
  }

  lemma NeverShortOnBond(inputs: Inputs, account: int, bond: int)
    requires NeverShort(OfAccount(inputs, account))
    ensures NeverClamps(OnAccount(inputs.Rows(bond), account))
  {
    RowsCommute(inputs, account, bond);
    BondIdsAscend(OnAccount(inputs.txns, account));
    FilterMembers(OnAccount(inputs.txns, account), OnBond(bond));
    var rows := OfAccount(inputs, account).Rows(bond);
    if rows != [] {
      assert rows[0] in rows;
    }
  }

  /** If no account goes short on any bond, neither does the pool. */
  lemma AccountsNeverShort(inputs: Inputs, accounts: seq<int>)
    requires inputs.Valid() && Unique(accounts) && forall t :: t in inputs.txns ==> t.accountId in accounts
    requires forall a :: a in accounts ==> NeverShort(OfAccount(inputs, a))
    ensures NeverShort(inputs)
  {
    BondIdsAscend(inputs.txns);
    forall b | b in BondIds(inputs.txns) ensures b in inputs.bonds && NeverClamps(inputs.Rows(b)) {
      FilterMembers(inputs.txns, OnBond(b));
      forall a | a in accounts ensures NeverClamps(OnAccount(inputs.Rows(b), a)) {
        NeverShortOnBond(inputs, a, b);
      }
      PoolNeverClamps(inputs.Rows(b), accounts);
      var t :| t in inputs.txns && t.bondId == b;
      FilterMembers(inputs.txns, AtAccount(t.accountId));
      BondIdsAscend(OnAccount(inputs.txns, t.accountId));
      assert t in OnAccount(inputs.txns, t.accountId);
      assert b in BondIds(OfAccount(inputs, t.accountId).txns);
    }
  }

  /** Pooling law for whole portfolios: invested minus realized of the all-accounts
      summary is the sum of the same figure over the summaries of the accounts. */
  lemma AccountSummariesAddUp(solver: YieldSolver, inputs: Inputs, today: int, accounts: seq<int>)
    requires inputs.Valid() && Unique(accounts) && forall t :: t in inputs.txns ==> t.accountId in accounts
    requires forall a :: a in accounts ==> NeverShort(OfAccount(inputs, a))
    ensures var summary := Summarize(solver, inputs, today);
      summary.totalInvested - summary.realizedPnl.sells - summary.realizedPnl.maturities
        == SumOfAccounts(solver, inputs, today, accounts)
  {
    AccountsNeverShort(inputs, accounts);
    SummaryBalances(solver, inputs, today);
    AccountsBalance(solver, inputs, today, accounts);
    TotalOverAccounts(inputs.txns, accounts, Outlay);
    FilterAll(inputs.txns, AtAccounts(accounts));
  }
}
