/** The portfolio service as an object over its tables: the commands insert,
    replace and delete rows in place, the queries derive positions from them. */
module PortfolioService {
  import opened Seqs
  import opened Transactions
  import opened Ledger
  import opened Grouping
  import LedgerLaws
  import Netting
  import NettingLaws
  import Sorting

  datatype PositionDTO = PositionDTO(
    userId: int, bondId: int, quantity: int, avgBuyPrice: Option<real>, totalInvested: real)

  function ToPosition(user: int, bond: int, txns: seq<Transaction>): PositionDTO {
    var (quantity, average) := Netting.NetPosition(txns);
    if quantity > 0 && average.Some?
    then PositionDTO(user, bond, quantity, average, Netting.Value(average.value, quantity))
    else PositionDTO(user, bond, quantity, None, 0.0)
  }

  /** A derived position is priced, at its share of the cost basis, exactly when something is
      held, and what is invested never exceeds the cost basis of the walk. */
  lemma PositionIsPriced(user: int, bond: int, txns: seq<Transaction>)
    requires Positive(txns)
    ensures var p, walk := ToPosition(user, bond, txns), Netting.Walk(txns);
      && p.userId == user && p.bondId == bond && p.quantity == Net(txns)
      && (p.avgBuyPrice.Some? ==> Netting.Value(p.avgBuyPrice.value, walk.openQuantity) == walk.costBasis)
      && (p.avgBuyPrice.Some? ==> p.totalInvested == Netting.Value(p.avgBuyPrice.value, p.quantity))
      && (p.avgBuyPrice.Some? <==> p.quantity > 0)
      && (p.quantity > 0 ==> p.totalInvested <= Netting.Walk(txns).costBasis)
      && (p.quantity <= 0 ==> p.totalInvested == 0.0)
  {
    NettingLaws.QuantityAndCommissions(txns);
    NettingLaws.HeldPositionHasAverage(txns);
    if Netting.NetPosition(txns).1.Some? {
      NettingLaws.ValueWithinBasis(txns);
      NettingLaws.AverageIsShare(txns);
    }
  }

  method QuantityOf(txns: seq<Transaction>) returns (quantity: int)
    ensures quantity == Net(txns)
  {
    quantity := 0;
    for i := 0 to |txns|
      invariant quantity == Net(txns[..i])
    {
      assert txns[..i + 1][..i] == txns[..i];
      if txns[i].kind.BUY? {
        quantity := quantity + txns[i].quantity;
      } else {
        quantity := quantity - txns[i].quantity;
      }
    }
    assert txns[..|txns|] == txns;
  }

  function MineOn(user: int, account: Option<int>): Transaction -> bool {
    (t: Transaction) => t.userId == user && (account.None? || t.accountId == account.value)
  }

  /** All rows of a user, or those on one account, in the order of `ORDER BY date, id`. */
  function History(table: Table, user: int, account: Option<int>): seq<Transaction> {
    Sorting.Sort(Filter(table, MineOn(user, account)), ByDate())
  }

  /** The query loads the rows of the user, of one account if one is given, each as often as
      it is stored, by date and then by id. */
  lemma HistoryIsExact(table: Table, user: int, account: Option<int>)
    ensures var txns := History(table, user, account);
      && (forall t :: multiset(txns)[t]
            == if t.userId == user && (account.Some? ==> t.accountId == account.value) then multiset(table)[t] else 0)
      && (forall i, j :: 0 <= i < j < |txns| ==>
            txns[i].date < txns[j].date || (txns[i].date == txns[j].date && txns[i].id <= txns[j].id))
  {
    Sorting.SortSorts(Filter(table, MineOn(user, account)), ByDate());
    FilterCounts(table, MineOn(user, account));
    assert forall t: Transaction :: ByDate()(t) == (t.date, t.id);
  }

  class PortfolioService {
    const dir: Directory
    var rows: Table
    var nextId: int

    ghost predicate Valid()
      reads this
    {
      LedgerLaws.Consistent(dir, rows) && forall t :: t in rows ==> t.id < nextId
    }

    constructor (dir: Directory)
      requires dir.Valid()
      ensures Valid() && this.dir == dir && rows == []
    {
      this.dir := dir;
      rows := [];
      nextId := 1;
      new;
      assert forall u, b, a :: Position(rows, u, b, a) == 0;
    }

    method AddTransaction(user: int, data: Create) returns (outcome: Outcome)
      requires Valid() && Add(user, data).Positive()
      modifies this`rows, this`nextId
      ensures Valid()
      ensures (rows, outcome) == Perform(dir, old(rows), old(nextId), Add(user, data))
      ensures nextId == if outcome.Recorded? then old(nextId) + 1 else old(nextId)
    {
      LedgerLaws.PerformKeepsConsistent(dir, rows, nextId, Add(user, data));
      if !(data.accountId in dir.owner && dir.owner[data.accountId] == user) {
        return Rejected(InvalidTransaction);
      }
      if data.kind.SELL? || data.kind.MATURE? {
        var current := QuantityOf(Load(rows, user, data.bondId, data.accountId));
        if current < data.quantity {
          return Rejected(InsufficientPosition);
        }
      }
      var txn := Transaction(nextId, user, data.bondId, data.accountId, data.kind,
                             data.quantity, data.price, data.date, data.commission);
      if !dir.Resolves(txn) {
        return Rejected(InvalidTransaction);
      }
      rows := rows + [txn];
      nextId := nextId + 1;
      outcome := Recorded(txn);
    }

    /** The checks of an edit; `ok` is false where the source raises. */
    method ValidateTransactionShift(txn: Transaction, changed: Transaction) returns (ok: bool)
      requires changed.id == txn.id && changed.userId == txn.userId
      ensures ok <==> OldPairOk(rows, txn, changed) && NewPairOk(rows, txn, changed)
    {
      var pairChanged := changed.bondId != txn.bondId || changed.accountId != txn.accountId;
      if pairChanged && txn.kind.BUY? {
        var remaining := QuantityOf(Others(rows, txn.userId, txn.bondId, txn.accountId, txn.id));
        if remaining < txn.quantity {
          return false;
        }
      }
      var resulting := QuantityOf(Others(rows, txn.userId, changed.bondId, changed.accountId, txn.id));
      if changed.kind.BUY? {
        resulting := resulting + changed.quantity;
      } else {
        resulting := resulting - changed.quantity;
      }
      ok := resulting >= 0;
    }

    method UpdateTransaction(id: int, changes: Changes, user: int) returns (outcome: Outcome)
      requires Valid() && Update(user, id, changes).Positive()
      modifies this`rows
      ensures Valid()
      ensures (rows, outcome) == Perform(dir, old(rows), nextId, Update(user, id, changes))
    {
      LedgerLaws.PerformKeepsConsistent(dir, rows, nextId, Update(user, id, changes));
      var found := Find(rows, id);
      if found.None? {
        return Missing;
      }
      var txn := found.value;
      if txn.userId != user {
        return Rejected(TransactionForbidden);
      }
      var changed := Changed(txn, changes);
      if !(changed.accountId in dir.owner && dir.owner[changed.accountId] == user) {
        return Rejected(InvalidTransaction);
      }
      var ok := ValidateTransactionShift(txn, changed);
      if !ok {
        return Rejected(InsufficientPosition);
      }
      if !dir.Resolves(changed) {
        return Rejected(InvalidTransaction);
      }
      forall t | t in Replace(rows, changed) ensures t.id < nextId {
        var i :| 0 <= i < |rows| && Replace(rows, changed)[i] == t;
        assert rows[i] in rows;
      }
      rows := Replace(rows, changed);
      outcome := Updated(changed);
    }

    method DeleteTransaction(id: int, user: int) returns (outcome: Outcome)
      requires Valid()
      modifies this`rows
      ensures Valid()
      ensures (rows, outcome) == Perform(dir, old(rows), nextId, Delete(user, id))
    {
      LedgerLaws.PerformKeepsConsistent(dir, rows, nextId, Delete(user, id));
      var found := Find(rows, id);
      if found.None? {
        return Missing;
      }
      var txn := found.value;
      if txn.userId != user {
        return Rejected(TransactionForbidden);
      }
      var remaining := QuantityOf(Others(rows, user, txn.bondId, txn.accountId, txn.id));
      if remaining < 0 {
        return Rejected(InsufficientPosition);
      }
      LedgerLaws.RemovedDistinct(rows, id);
      rows := Remove(rows, id);
      outcome := Deleted;
    }

    /** One entry for every bond the user holds, on all accounts or on one, and no other, in
        the order of the first rows. */
    method GetAllPositions(user: int, account: Option<int>) returns (positions: seq<PositionDTO>)
      requires Valid()
      ensures Map(positions, BondIdOf)
           == Filter(FirstSeen(History(rows, user, account)), HeldIn(History(rows, user, account)))
      ensures forall p :: p in positions ==>
        (p.quantity != 0 && p == ToPosition(user, p.bondId, Filter(History(rows, user, account), OnBond(p.bondId))))
      ensures forall bond :: Net(Filter(History(rows, user, account), OnBond(bond))) != 0 ==>
        exists p :: p in positions && p.bondId == bond
      ensures Unique(Map(positions, BondIdOf))
    {
      var txns := History(rows, user, account);
      var order, grouped := GroupByBond(txns);
      positions := Filter(Map(order, PositionOn(user, grouped)), Held);
      ListedOnce(user, txns, order, grouped);
      ListedInOrder(user, txns, order, grouped);
      forall p | p in positions
        ensures p.quantity != 0 && p == ToPosition(user, p.bondId, Filter(txns, OnBond(p.bondId)))
      {
        ListedAreHeld(user, txns, order, grouped, p);
      }
      forall bond | Net(Filter(txns, OnBond(bond))) != 0 ensures exists p :: p in positions && p.bondId == bond {
        HeldAreListed(user, txns, order, grouped, bond);
      }
    }
  }

  function HeldIn(txns: seq<Transaction>): int -> bool {
    (bond: int) => Net(Filter(txns, OnBond(bond))) != 0
  }

  lemma ListedInOrder(user: int, txns: seq<Transaction>, order: seq<int>, grouped: map<int, seq<Transaction>>)
    requires IsGrouping(txns, order, grouped)
    ensures Map(Filter(Map(order, PositionOn(user, grouped)), Held), BondIdOf) == Filter(order, HeldIn(txns))
  {
    forall bond | bond in order ensures HeldIn(txns)(bond) == Held(PositionOn(user, grouped)(bond)) {
      NettingLaws.QuantityAndCommissions(grouped[bond]);
    }
    FilterMap(order, PositionOn(user, grouped), HeldIn(txns), Held);
    BondsAgain(user, grouped, Filter(order, HeldIn(txns)));
  }

  lemma BondsAgain(user: int, grouped: map<int, seq<Transaction>>, bonds: seq<int>)
    ensures Map(Map(bonds, PositionOn(user, grouped)), BondIdOf) == bonds
  {
  }

  function Rows(grouped: map<int, seq<Transaction>>, bond: int): seq<Transaction> {
    if bond in grouped then grouped[bond] else []
  }

  predicate Held(p: PositionDTO) {
    p.quantity != 0
  }

  function PositionOn(user: int, grouped: map<int, seq<Transaction>>): int -> PositionDTO {
    (bond: int) => ToPosition(user, bond, Rows(grouped, bond))
  }

  function BondIdOf(p: PositionDTO): int {
    p.bondId
  }

  lemma ListedAreHeld(user: int, txns: seq<Transaction>, order: seq<int>, grouped: map<int, seq<Transaction>>,
      p: PositionDTO)
    requires IsGrouping(txns, order, grouped) && p in Filter(Map(order, PositionOn(user, grouped)), Held)
    ensures p.quantity != 0 && p == ToPosition(user, p.bondId, Filter(txns, OnBond(p.bondId)))
  {
    var all := Map(order, PositionOn(user, grouped));
    FilterMembers(all, Held);
    var i :| 0 <= i < |order| && all[i] == p;
    assert order[i] in grouped;
  }

  lemma HeldAreListed(user: int, txns: seq<Transaction>, order: seq<int>, grouped: map<int, seq<Transaction>>,
      bond: int)
    requires IsGrouping(txns, order, grouped) && Net(Filter(txns, OnBond(bond))) != 0
    ensures exists p :: p in Filter(Map(order, PositionOn(user, grouped)), Held) && p.bondId == bond
  {
    var all := Map(order, PositionOn(user, grouped));
    FilterMembers(all, Held);
    assert bond in grouped;
    var i :| 0 <= i < |order| && order[i] == bond;
    NettingLaws.QuantityAndCommissions(grouped[bond]);
    assert all[i] in all && all[i].quantity != 0;
  }

  lemma ListedOnce(user: int, txns: seq<Transaction>, order: seq<int>, grouped: map<int, seq<Transaction>>)
    requires IsGrouping(txns, order, grouped)
    ensures Unique(Map(Filter(Map(order, PositionOn(user, grouped)), Held), BondIdOf))
  {
    var all := Map(order, PositionOn(user, grouped));
    BondsAgain(user, grouped, order);
    FilterUnique(all);
  }

  lemma {:induction false} FilterUnique(all: seq<PositionDTO>)
    requires Unique(Map(all, BondIdOf))
    ensures Unique(Map(Filter(all, Held), BondIdOf))
  {
    if all != [] {
      var front, last := all[..|all| - 1], all[|all| - 1];
      assert forall i :: 0 <= i < |front| ==> Map(front, BondIdOf)[i] == Map(all, BondIdOf)[i];
      FilterUnique(front);
      FilterMembers(front, Held);
      var kept := Filter(front, Held);
      forall i | 0 <= i < |kept| ensures kept[i].bondId != last.bondId {
        assert kept[i] in kept;
        var j :| 0 <= j < |front| && front[j] == kept[i];
        assert Map(all, BondIdOf)[j] != Map(all, BondIdOf)[|front|];
      }
    }
  }
}
