/** Histories that only grew at the end. The service checks a sale against the
    whole history, the walk replays it in date order; for a bond whose rows were
    all added with non-decreasing dates the two views agree, whatever other sessions
    did in between. */
module Chronology {
  import opened Seqs
  import opened Transactions
  import opened Ledger
  import opened LedgerLaws
  import opened Netting
  import opened NettingLaws
  import opened NettingHistories
  import S = Sessions
  import Sorting

  function HistoryOf(table: Table, user: int, bond: int): seq<Transaction> {
    Filter(table, OfBond(user, bond))
  }

  ghost predicate NoLaterThan(history: seq<Transaction>, date: int) {
    forall t :: t in history ==> t.date <= date
  }

  ghost predicate InOrder(history: seq<Transaction>) {
    && Positive(history)
    && Sorting.Sorted(history, ByDate())
    && (forall a :: NeverClamps(OnAccount(history, a)))
  }

  lemma AdditionKeepsOrder(table: Table, user: int, d: Create, id: int)
    requires InOrder(HistoryOf(table, user, d.bondId))
    requires forall t :: t in HistoryOf(table, user, d.bondId) ==> t.id < id
    requires d.quantity > 0 && d.price > 0.0 && HasUnits(table, user, d)
    requires NoLaterThan(HistoryOf(table, user, d.bondId), d.date)
    ensures InOrder(HistoryOf(table + [NewRow(id, user, d)], user, d.bondId))
  {
    var row := NewRow(id, user, d);
    var history := HistoryOf(table, user, d.bondId);
    FilterSnoc(table, row, OfBond(user, d.bondId));
    forall a ensures NeverClamps(OnAccount(history + [row], a)) {
      assert NeverClamps(OnAccount(history, a));
      FilterSnoc(history, row, AtAccount(a));
      if a == d.accountId {
        var mine := OnAccount(history, a);
        FilterMembers(history, AtAccount(a));
        FilterTwice(table, OfBond(user, d.bondId), AtAccount(a), Pair(user, d.bondId, a));
        LoadedPosition(table, user, d.bondId, a, id);
        NeverClampsIff(mine);
        QuantityAndCommissions(mine);
        assert (mine + [row])[..|mine|] == mine;
        NeverClampsSnoc(mine + [row]);
      }
    }
  }

  // ---------------------------------------------------------------- ids under concurrency

  /** An addition that is written but not committed. */
  predicate Pending(session: S.Session) {
    session.phase.Flushed? && session.req.Add?
  }

  /** A row about to be committed has a greater id than every row of its user. */
  ghost predicate FlushedAbove(s: S.System) {
    forall who :: who in s.sessions && Pending(s.sessions[who]) ==> Above(s.table, s.sessions[who])
  }

  predicate Above(table: Table, session: S.Session)
    requires Pending(session)
  {
    forall t :: t in table && t.userId == session.req.userId ==> t.id < session.phase.id
  }

  lemma CommitKeepsAbove(start: Table, s: S.System, who: nat, v: nat)
    requires S.Inv(start, s) && FlushedAbove(s) && S.Enabled(s, S.Advance(who)) && s.sessions[who].phase.Flushed?
    requires v in s.sessions && v != who && Pending(s.sessions[v])
    ensures Above(S.Apply(s, S.Advance(who)).table, s.sessions[v])
  {
    var req, phase := s.sessions[who].req, s.sessions[who].phase;
    var user := s.sessions[v].req.userId;
    if user == req.userId {
      S.SameUserKnowsNothing(start, s, who, v);
    }
    assert S.Known(s.dir, s.table, req, phase);
    S.WrittenFrame(s.table, req, phase.found, phase.id, user);
    FilterMembers(s.table, Mine(user));
    var after := S.Written(s.table, req, phase.found, phase.id);
    FilterMembers(after, Mine(user));
    forall t | t in after && t.userId == user ensures t.id < s.sessions[v].phase.id {
      assert t in Filter(after, Mine(user));
      assert t in s.table;
    }
  }

  lemma ActionKeepsAbove(start: Table, s: S.System, a: S.Action)
    requires S.Inv(start, s) && FlushedAbove(s) && S.Enabled(s, a)
    ensures FlushedAbove(S.Apply(s, a))
  {
    var s' := S.Apply(s, a);
    forall v | v in s'.sessions && Pending(s'.sessions[v]) ensures Above(s'.table, s'.sessions[v]) {
      if a.Advance? && s.sessions[a.who].phase.Flushed? {
        assert v != a.who && s'.sessions[v] == s.sessions[v];
        CommitKeepsAbove(start, s, a.who, v);
      } else if v != a.who {
        assert s'.sessions[v] == s.sessions[v];
      }
    }
  }

  lemma {:induction false} RunKeepsAbove(states: seq<S.System>, actions: seq<S.Action>, k: nat)
    requires S.IsRun(states, actions) && S.Initial(states[0]) && k < |states|
    ensures FlushedAbove(states[k])
  {
    if k > 0 {
      RunKeepsAbove(states, actions, k - 1);
      S.RunKeepsInv(states, actions, k - 1);
      ActionKeepsAbove(states[0].table, states[k - 1], actions[k - 1]);
    }
  }

  // ---------------------------------------------------------------- histories that only grew

  /** An addition committed by this step. */
  predicate Adds(s: S.System, a: S.Action) {
    a.Advance? && a.who in s.sessions && Pending(s.sessions[a.who])
  }

  /** Only additions changed the history of the bond, each dated no earlier than the rows
      before it; other bonds and other users are unconstrained. */
  ghost predicate AppendedInOrder(states: seq<S.System>, actions: seq<S.Action>, user: int, bond: int)
    requires S.IsRun(states, actions)
  {
    && HistoryOf(states[0].table, user, bond) == []
    && forall k :: 0 <= k < |actions| ==> AppendsInOrder(states[k], actions[k], states[k + 1], user, bond)
  }

  ghost predicate AppendsInOrder(s: S.System, a: S.Action, s': S.System, user: int, bond: int) {
    HistoryOf(s'.table, user, bond) != HistoryOf(s.table, user, bond) ==>
      Adds(s, a) && NoLaterThan(HistoryOf(s.table, user, bond), s.sessions[a.who].req.data.date)
  }

  lemma StepInOrder(start: Table, s: S.System, a: S.Action, user: int, bond: int)
    requires S.Inv(start, s) && FlushedAbove(s) && S.Enabled(s, a)
    requires AppendsInOrder(s, a, S.Apply(s, a), user, bond) && InOrder(HistoryOf(s.table, user, bond))
    ensures InOrder(HistoryOf(S.Apply(s, a).table, user, bond))
  {
    var history := HistoryOf(s.table, user, bond);
    if HistoryOf(S.Apply(s, a).table, user, bond) != history {
      var req, phase := s.sessions[a.who].req, s.sessions[a.who].phase;
      assert S.Known(s.dir, s.table, req, phase);
      FilterSnoc(s.table, NewRow(phase.id, req.userId, req.data), OfBond(user, bond));
      FilterMembers(s.table, OfBond(user, bond));
      AdditionKeepsOrder(s.table, user, req.data, phase.id);
    }
  }

  lemma {:induction false} RunInOrder(states: seq<S.System>, actions: seq<S.Action>, user: int, bond: int, k: nat)
    requires S.IsRun(states, actions) && S.Initial(states[0]) && AppendedInOrder(states, actions, user, bond)
    requires k < |states|
    ensures InOrder(HistoryOf(states[k].table, user, bond))
  {
    if k > 0 {
      RunInOrder(states, actions, user, bond, k - 1);
      S.RunKeepsInv(states, actions, k - 1);
      RunKeepsAbove(states, actions, k - 1);
      assert AppendsInOrder(states[k - 1], actions[k - 1], states[k - 1 + 1], user, bond);
      StepInOrder(states[0].table, states[k - 1], actions[k - 1], user, bond);
    }
  }

  lemma {:induction false} AccountsOf(txns: seq<Transaction>) returns (accounts: seq<int>)
    ensures Unique(accounts)
    ensures forall t :: t in txns ==> t.accountId in accounts
  {
    accounts := [];
    if txns != [] {
      accounts := AccountsOf(txns[..|txns| - 1]);
      var last := txns[|txns| - 1];
      if last.accountId !in accounts {
        accounts := accounts + [last.accountId];
      }
    }
  }

  /** In every state of every concurrent run a history that was appended in date order is
      not clamped: neither when the accounts are walked one by one, nor when they are
      pooled. */
  lemma AppendedHistoryNeverClamps(states: seq<S.System>, actions: seq<S.Action>, user: int, bond: int, k: nat)
    requires S.IsRun(states, actions) && S.Initial(states[0]) && AppendedInOrder(states, actions, user, bond)
    requires k < |states|
    ensures var pooled := Sorting.Sort(HistoryOf(states[k].table, user, bond), ByDate());
      NeverClamps(pooled) && Walk(pooled).openQuantity == Net(pooled)
    ensures forall a :: var mine := Load(states[k].table, user, bond, a);
      NeverClamps(mine) && Walk(mine).openQuantity == Net(mine)
  {
    var history := HistoryOf(states[k].table, user, bond);
    RunInOrder(states, actions, user, bond, k);
    Sorting.SortFixes(history, ByDate());
    var accounts := AccountsOf(history);
    PoolNeverClamps(history, accounts);
    NeverClampsIff(history);
    QuantityAndCommissions(history);
    forall a
      ensures NeverClamps(Load(states[k].table, user, bond, a))
      ensures Walk(Load(states[k].table, user, bond, a)).openQuantity == Net(Load(states[k].table, user, bond, a))
    {
      LoadedNeverClamps(states[k].table, user, bond, a);
    }
  }

  lemma LoadedNeverClamps(table: Table, user: int, bond: int, account: int)
    requires InOrder(HistoryOf(table, user, bond))
    ensures NeverClamps(Load(table, user, bond, account))
    ensures Walk(Load(table, user, bond, account)).openQuantity == Net(Load(table, user, bond, account))
  {
    var history := HistoryOf(table, user, bond);
    Sorting.SortFixes(history, ByDate());
    FilterTwice(table, OfBond(user, bond), AtAccount(account), Pair(user, bond, account));
    Sorting.SortFilter(history, ByDate(), AtAccount(account));
    assert NeverClamps(OnAccount(history, account));
    FilterMembers(history, AtAccount(account));
    NeverClampsIff(OnAccount(history, account));
    QuantityAndCommissions(OnAccount(history, account));
  }
}
