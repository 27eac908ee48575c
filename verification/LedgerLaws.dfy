/** What one request does to the positions, and exactly when it is accepted. */
module LedgerLaws {
  import opened Seqs
  import opened Transactions
  import opened Ledger
  import Sorting

  // ---------------------------------------------------------------- positions under a write

  /** A loaded pair, or what is left of it without one row, sums to its position. */
  lemma LoadedPosition(table: Table, user: int, bond: int, account: int, id: int)
    ensures Net(Load(table, user, bond, account)) == Position(table, user, bond, account)
    ensures Net(Others(table, user, bond, account, id)) == Position(Remove(table, id), user, bond, account)
  {
    var pair := Pair(user, bond, account);
    NetSort(Filter(table, pair));
    Sorting.SortFilter(Filter(table, pair), ByDate(), Except(id));
    NetSort(Filter(Filter(table, pair), Except(id)));
    var both := (t: Transaction) => pair(t) && t.id != id;
    FilterTwice(table, pair, Except(id), both);
    FilterTwice(table, Except(id), pair, both);
  }

  function Share(t: Transaction, user: int, bond: int, account: int): int {
    if Pair(user, bond, account)(t) then t.Signed() else 0
  }

  lemma AppendedPosition(table: Table, row: Transaction, u: int, b: int, a: int)
    ensures Position(table + [row], u, b, a) == Position(table, u, b, a) + Share(row, u, b, a)
  {
    FilterSnoc(table, row, Pair(u, b, a));
    NetSnoc(Filter(table, Pair(u, b, a)), row);
  }

  lemma DistinctFront(table: Table)
    requires DistinctIds(table) && table != []
    ensures DistinctIds(table[..|table| - 1])
    ensures forall t :: t in table[..|table| - 1] ==> t.id != table[|table| - 1].id
  {
  }

  lemma {:induction false} RemovedPosition(table: Table, row: Transaction, u: int, b: int, a: int)
    requires DistinctIds(table) && row in table
    ensures Position(table, u, b, a) == Position(Remove(table, row.id), u, b, a) + Share(row, u, b, a)
  {
    var n := |table| - 1;
    var last, front := table[n], table[..n];
    assert table == front + [last];
    DistinctFront(table);
    FilterSnoc(front, last, Except(row.id));
    AppendedPosition(front, last, u, b, a);
    if last.id == row.id {
      FilterAll(front, Except(row.id));
      assert row == last;
    } else {
      RemovedPosition(front, row, u, b, a);
      AppendedPosition(Remove(front, row.id), last, u, b, a);
    }
  }

  lemma ReplaceSnoc(table: Table, last: Transaction, row: Transaction)
    ensures Replace(table + [last], row) == Replace(table, row) + [if last.id == row.id then row else last]
  {
  }

  lemma ReplaceAbsent(table: Table, row: Transaction)
    requires forall t :: t in table ==> t.id != row.id
    ensures Replace(table, row) == table
  {
  }

  lemma {:induction false} ReplacedPosition(table: Table, row: Transaction, u: int, b: int, a: int)
    requires DistinctIds(table) && exists t :: t in table && t.id == row.id
    ensures Position(Replace(table, row), u, b, a)
         == Position(Remove(table, row.id), u, b, a) + Share(row, u, b, a)
  {
    var n := |table| - 1;
    var last, front := table[n], table[..n];
    FrontAndLast(table);
    DistinctFront(table);
    FilterSnoc(front, last, Except(row.id));
    ReplaceSnoc(front, last, row);
    if last.id == row.id {
      FilterAll(front, Except(row.id));
      ReplaceAbsent(front, row);
      AppendedPosition(front, row, u, b, a);
    } else {
      ReplacedPosition(front, row, u, b, a);
      AppendedPosition(Replace(front, row), last, u, b, a);
      AppendedPosition(Remove(front, row.id), last, u, b, a);
    }
  }

  // ---------------------------------------------------------------- exact acceptance

  predicate OwnedBy(dir: Directory, account: int, user: int) {
    account in dir.owner && dir.owner[account] == user
  }

  lemma EnoughUnitsIff(table: Table, user: int, d: Create, row: Transaction)
    requires NonNegative(table) && d.quantity > 0
    requires row.userId == user && row.bondId == d.bondId && row.accountId == d.accountId
    requires row.kind == d.kind && row.quantity == d.quantity
    ensures HasUnits(table, user, d) <==> NonNegative(table + [row])
  {
    LoadedPosition(table, user, d.bondId, d.accountId, row.id);
    forall u, b, a ensures Position(table + [row], u, b, a) == Position(table, u, b, a) + Share(row, u, b, a) {
      AppendedPosition(table, row, u, b, a);
    }
    if HasUnits(table, user, d) {
      forall u, b, a ensures Position(table + [row], u, b, a) >= 0 {
        assert Position(table, u, b, a) >= 0;
      }
    } else {
      assert Position(table + [row], user, d.bondId, d.accountId) < 0;
    }
  }

  /** Whatever the request and the directory: an addition is recorded, with all its fields,
      exactly when the account is the user's own, no position goes below zero, and user and
      bond exist; the errors come in this order. */
  lemma AddExact(dir: Directory, table: Table, id: int, user: int, d: Create)
    requires NonNegative(table) && d.quantity > 0
    ensures var row :=
        Transaction(id, user, d.bondId, d.accountId, d.kind, d.quantity, d.price, d.date, d.commission);
      Perform(dir, table, id, Add(user, d)) ==
        if !OwnedBy(dir, d.accountId, user) then (table, Rejected(InvalidTransaction))
        else if !NonNegative(table + [row]) then (table, Rejected(InsufficientPosition))
        else if user in dir.users && d.bondId in dir.bonds then (table + [row], Recorded(row))
        else (table, Rejected(InvalidTransaction))
  {
    EnoughUnitsIff(table, user, d,
      Transaction(id, user, d.bondId, d.accountId, d.kind, d.quantity, d.price, d.date, d.commission));
  }

  lemma RestNonNegativeIff(table: Table, row: Transaction)
    requires NonNegative(table) && DistinctIds(table) && row in table
    ensures RestOk(table, row) <==> NonNegative(Remove(table, row.id))
  {
    LoadedPosition(table, row.userId, row.bondId, row.accountId, row.id);
    forall u, b, a
      ensures Position(table, u, b, a) == Position(Remove(table, row.id), u, b, a) + Share(row, u, b, a)
    {
      RemovedPosition(table, row, u, b, a);
    }
    if RestOk(table, row) {
      forall u, b, a ensures Position(Remove(table, row.id), u, b, a) >= 0 {
        assert Position(table, u, b, a) >= 0;
      }
    }
  }

  lemma RemovedFromMiddle(before: Table, row: Transaction, after: Table)
    requires DistinctIds(before + [row] + after)
    ensures Remove(before + [row] + after, row.id) == before + after
  {
    var table, n := before + [row] + after, |before|;
    assert table[n] == row;
    forall t | t in before ensures t.id != row.id {
      var i :| 0 <= i < n && before[i] == t;
      assert table[i] == t;
    }
    forall t | t in after ensures t.id != row.id {
      var i :| 0 <= i < |after| && after[i] == t;
      assert table[n + 1 + i] == t;
    }
    FilterConcat(before + [row], after, Except(row.id));
    FilterSnoc(before, row, Except(row.id));
    FilterAll(before, Except(row.id));
    FilterAll(after, Except(row.id));
  }

  /** A row of the user is deleted exactly when the rows around it have no negative position. */
  lemma DeleteExact(dir: Directory, before: Table, row: Transaction, after: Table, id: int)
    requires NonNegative(before + [row] + after) && DistinctIds(before + [row] + after)
    ensures Perform(dir, before + [row] + after, id, Delete(row.userId, row.id)) ==
      if NonNegative(before + after) then (before + after, Deleted)
      else (before + [row] + after, Rejected(InsufficientPosition))
  {
    var table := before + [row] + after;
    assert table[|before|] == row;
    FoundRow(table, row);
    RestNonNegativeIff(table, row);
    RemovedFromMiddle(before, row, after);
  }

  /** An edit or a deletion of a row that does not exist, or that is another user's. */
  lemma OnlyOwnRows(dir: Directory, table: Table, next: int, user: int, id: int, c: Changes)
    requires DistinctIds(table)
    ensures (forall t :: t in table ==> t.id != id) <==>
      Perform(dir, table, next, Update(user, id, c)) == (table, Missing)
    ensures (forall t :: t in table ==> t.id != id) <==>
      Perform(dir, table, next, Delete(user, id)) == (table, Missing)
    ensures (exists t :: t in table && t.id == id && t.userId != user) <==>
      Perform(dir, table, next, Update(user, id, c)) == (table, Rejected(TransactionForbidden))
    ensures (exists t :: t in table && t.id == id && t.userId != user) <==>
      Perform(dir, table, next, Delete(user, id)) == (table, Rejected(TransactionForbidden))
  {
    if t :| t in table && t.id == id {
      FoundRow(table, t);
    }
  }

  lemma FoundRow(table: Table, row: Transaction)
    requires DistinctIds(table) && row in table
    ensures Find(table, row.id) == Some(row)
  {
    assert Find(table, row.id).value in table;
  }

  /** What is left of the pair a row leaves, and what the pair it joins comes to. */
  function Left(table: Table, row: Transaction): int {
    Position(Remove(table, row.id), row.userId, row.bondId, row.accountId)
  }

  function Joined(table: Table, changed: Transaction): int {
    Position(Remove(table, changed.id), changed.userId, changed.bondId, changed.accountId) + changed.Signed()
  }

  /** An edit keeps all positions non-negative exactly when the pair it leaves and
      the pair it joins are. */
  lemma EditNonNegativeIff(table: Table, row: Transaction, changed: Transaction)
    requires NonNegative(table) && DistinctIds(table) && row in table
    requires changed.id == row.id && changed.userId == row.userId && row.quantity > 0
    ensures NonNegative(Replace(table, changed)) <==>
      Joined(table, changed) >= 0 && (Moves(row, changed) ==> Left(table, row) >= 0)
  {
    var replaced := Replace(table, changed);
    forall u, b, a
      ensures Position(replaced, u, b, a)
           == Position(table, u, b, a) - Share(row, u, b, a) + Share(changed, u, b, a)
      ensures Position(replaced, u, b, a) == Position(Remove(table, row.id), u, b, a) + Share(changed, u, b, a)
    {
      RemovedPosition(table, row, u, b, a);
      ReplacedPosition(table, changed, u, b, a);
    }
    assert Position(replaced, row.userId, changed.bondId, changed.accountId) == Joined(table, changed);
    if Moves(row, changed) {
      assert Position(replaced, row.userId, row.bondId, row.accountId) == Left(table, row);
    }
    if Joined(table, changed) >= 0 && (Moves(row, changed) ==> Left(table, row) >= 0) {
      forall u, b, a ensures Position(replaced, u, b, a) >= 0 {
        assert Position(table, u, b, a) >= 0;
      }
    }
  }

  /** A field that is given is changed, one that is not stays. */
  predicate IsSetTo<T(==)>(before: T, change: Option<T>, after: T) {
    match change
    case Some(value) => after == value
    case None => after == before
  }

  predicate IsEditOf(t: Transaction, row: Transaction, c: Changes) {
    && t.id == row.id && t.userId == row.userId
    && IsSetTo(row.bondId, c.bondId, t.bondId) && IsSetTo(row.accountId, c.accountId, t.accountId)
    && IsSetTo(row.kind, c.kind, t.kind) && IsSetTo(row.quantity, c.quantity, t.quantity)
    && IsSetTo(row.price, c.price, t.price) && IsSetTo(row.date, c.date, t.date)
    && IsSetTo(row.commission, c.commission, t.commission)
  }

  /** The edits that are refused although no position need go below zero: a BUY that leaves
      its bond or account, where less than twice its quantity is held. */
  predicate Overcautious(table: Table, row: Transaction, changed: Transaction) {
    && (changed.bondId != row.bondId || changed.accountId != row.accountId) && row.kind.BUY?
    && Position(table, row.userId, row.bondId, row.accountId) < 2 * row.quantity
  }

  lemma ShiftOkIff(table: Table, row: Transaction, changed: Transaction)
    requires NonNegative(table) && DistinctIds(table) && row in table && row.quantity > 0
    requires changed.id == row.id && changed.userId == row.userId
    ensures OldPairOk(table, row, changed) && NewPairOk(table, row, changed) <==>
      NonNegative(Replace(table, changed)) && !Overcautious(table, row, changed)
  {
    LoadedPosition(table, row.userId, row.bondId, row.accountId, row.id);
    LoadedPosition(table, row.userId, changed.bondId, changed.accountId, row.id);
    EditNonNegativeIff(table, row, changed);
    RemovedPosition(table, row, row.userId, row.bondId, row.accountId);
    assert Position(table, row.userId, row.bondId, row.accountId) >= 0;
  }

  /** Whatever the edit and the directory: it changes the given fields of that row and nothing
      else, exactly when the target account is the user's own, no position goes below zero, the
      edit is not one of the overcautiously refused, and user and bond exist. */
  lemma UpdateExact(dir: Directory, table: Table, row: Transaction, c: Changes, changed: Transaction, edited: Table,
      id: int)
    requires NonNegative(table) && DistinctIds(table) && row in table && row.quantity > 0
    requires IsEditOf(changed, row, c)
    requires |edited| == |table|
    requires forall i :: 0 <= i < |table| ==> edited[i] == if table[i].id == row.id then changed else table[i]
    ensures Perform(dir, table, id, Update(row.userId, row.id, c)) ==
      if !OwnedBy(dir, changed.accountId, row.userId) then (table, Rejected(InvalidTransaction))
      else if !NonNegative(edited) || Overcautious(table, row, changed) then (table, Rejected(InsufficientPosition))
      else if row.userId in dir.users && changed.bondId in dir.bonds then (edited, Updated(changed))
      else (table, Rejected(InvalidTransaction))
  {
    FoundRow(table, row);
    assert Changed(row, c) == changed;
    assert Replace(table, changed) == edited;
    ShiftOkIff(table, row, changed);
  }

  lemma LoneRow(row: Transaction, u: int, b: int, a: int)
    ensures Position([row], u, b, a) == Share(row, u, b, a)
    ensures Remove([row], row.id) == []
  {
    assert [row] == [] + [row];
    AppendedPosition([], row, u, b, a);
    FilterSnoc([], row, Except(row.id));
  }

  /** A purchase nothing was ever sold of cannot be moved to another bond or
      account, although every position would stay non-negative. */
  lemma LoneBuyCannotMove(dir: Directory, row: Transaction, c: Changes)
    requires row.kind.BUY? && row.quantity > 0 && Moves(row, Changed(row, c)) && Changed(row, c).Signed() >= 0
    requires dir.Owns(row.userId, Changed(row, c).accountId)
    ensures PerformUpdate(dir, [row], row.userId, row.id, c) == ([row], Rejected(InsufficientPosition))
    ensures NonNegative(Replace([row], Changed(row, c)))
  {
    var changed := Changed(row, c);
    forall u, b, a ensures Position([row], u, b, a) == Share(row, u, b, a) {
      LoneRow(row, u, b, a);
    }
    LoneRow(row, 0, 0, 0);
    FoundRow([row], row);
    LoadedPosition([row], row.userId, row.bondId, row.accountId, row.id);
    EditNonNegativeIff([row], row, changed);
  }

  /** Two sales that were both checked before either was written: without the
      lock the pair goes short. */
  lemma UncheckedInterleavingGoesShort(table: Table, user: int, d: Create, id1: int, id2: int)
    requires !d.kind.BUY? && d.quantity > 0
    requires d.quantity <= Position(table, user, d.bondId, d.accountId) < 2 * d.quantity
    ensures HasUnits(table, user, d)
    ensures !NonNegative(table + [NewRow(id1, user, d)] + [NewRow(id2, user, d)])
  {
    LoadedPosition(table, user, d.bondId, d.accountId, id1);
    AppendedPosition(table, NewRow(id1, user, d), user, d.bondId, d.accountId);
    AppendedPosition(table + [NewRow(id1, user, d)], NewRow(id2, user, d), user, d.bondId, d.accountId);
  }

  // ---------------------------------------------------------------- every request

  lemma RemovedDistinct(table: Table, id: int)
    requires DistinctIds(table)
    ensures DistinctIds(Remove(table, id))
    ensures forall t :: t in Remove(table, id) <==> t in table && t.id != id
    decreases |table|
  {
    FilterMembers(table, Except(id));
    if table != [] {
      var n := |table| - 1;
      assert table == table[..n] + [table[n]];
      RemovedDistinct(table[..n], id);
    }
  }

  /** Every row lies on an account of its own user. */
  ghost predicate Owned(dir: Directory, table: Table) {
    forall t :: t in table ==> t.accountId in dir.owner && dir.owner[t.accountId] == t.userId
  }

  ghost predicate Consistent(dir: Directory, table: Table) {
    && dir.Valid()
    && DistinctIds(table)
    && NonNegative(table)
    && Positive(table)
    && (forall t :: t in table ==> dir.Resolves(t))
    && Owned(dir, table)
  }

  lemma EditKeepsRows(dir: Directory, table: Table, row: Transaction, changed: Transaction)
    requires Consistent(dir, table) && row in table && changed.id == row.id && changed.userId == row.userId
    requires changed.quantity > 0 && changed.price > 0.0
    requires dir.Resolves(changed) && OwnedBy(dir, changed.accountId, row.userId)
    ensures var after := Replace(table, changed);
      DistinctIds(after) && Positive(after) && Owned(dir, after) && forall t :: t in after ==> dir.Resolves(t)
  {
    var after := Replace(table, changed);
    forall t | t in after ensures t == changed || t in table {
      var i :| 0 <= i < |after| && after[i] == t;
      assert table[i] in table;
    }
  }

  /** Whatever the request, a consistent table stays consistent; a request that is
      not carried out leaves the table alone. */
  lemma PerformKeepsConsistent(dir: Directory, table: Table, id: int, req: Request)
    requires Consistent(dir, table) && req.Positive() && forall t :: t in table ==> t.id != id
    ensures Consistent(dir, Perform(dir, table, id, req).0)
    ensures var (after, outcome) := Perform(dir, table, id, req);
      outcome.Missing? || outcome.Rejected? ==> after == table
  {
    var outcome := Perform(dir, table, id, req).1;
    match req
    case Add(user, d) =>
      AddExact(dir, table, id, user, d);
    case Update(user, row, c) =>
      if outcome.Updated? {
        var found := Find(table, row).value;
        assert found in table;
        UpdateExact(dir, table, found, c, Changed(found, c), Replace(table, Changed(found, c)), id);
        EditKeepsRows(dir, table, found, Changed(found, c));
      }
    case Delete(user, row) =>
      if outcome.Deleted? {
        RestNonNegativeIff(table, Find(table, row).value);
        RemovedDistinct(table, row);
      }
  }

  /** The positions of a user are rows on the user's own accounts: the account of another
      user never holds anything. */
  lemma NothingOnForeignAccounts(dir: Directory, table: Table, user: int, bond: int, account: int)
    requires Consistent(dir, table) && !OwnedBy(dir, account, user)
    ensures Position(table, user, bond, account) == 0
  {
    FilterNone(table, Pair(user, bond, account));
  }

  function OfBond(user: int, bond: int): Transaction -> bool {
    (t: Transaction) => t.userId == user && t.bondId == bond
  }

  /** Non-negative on every account, hence non-negative over all accounts. */
  lemma {:induction false} PooledNonNegative(table: Table, user: int, bond: int)
    requires forall a :: Position(table, user, bond, a) >= 0
    ensures Net(Filter(table, OfBond(user, bond))) >= 0
    decreases |Filter(table, OfBond(user, bond))|
  {
    var pooled := Filter(table, OfBond(user, bond));
    if pooled != [] {
      var account := pooled[0].accountId;
      var elsewhere := (t: Transaction) => t.accountId != account;
      var rest := Filter(table, elsewhere);
      var there := (t: Transaction) => OfBond(user, bond)(t) && t.accountId != account;
      NetSplit(table, Pair(user, bond, account), there, OfBond(user, bond));
      FilterTwice(table, elsewhere, OfBond(user, bond), there);
      forall a ensures Position(rest, user, bond, a) >= 0 {
        if a == account {
          FilterMembers(table, elsewhere);
          FilterNone(rest, Pair(user, bond, a));
        } else {
          FilterTwice(table, elsewhere, Pair(user, bond, a), Pair(user, bond, a));
          assert Position(rest, user, bond, a) == Position(table, user, bond, a);
        }
      }
      FilterTwice(table, OfBond(user, bond), elsewhere, there);
      FewerWithout(pooled, elsewhere);
      PooledNonNegative(rest, user, bond);
      assert Position(table, user, bond, account) >= 0;
    }
  }

  lemma FewerWithout(txns: Table, p: Transaction -> bool)
    requires txns != [] && !p(txns[0])
    ensures |Filter(txns, p)| < |txns|
  {
    assert txns == [txns[0]] + txns[1..];
    FilterConcat([txns[0]], txns[1..], p);
    FilterNone([txns[0]], p);
    FilterShorter(txns[1..], p);
  }

  lemma {:induction false} FilterShorter(txns: Table, p: Transaction -> bool)
    ensures |Filter(txns, p)| <= |txns|
  {
    if txns != [] {
      FilterShorter(txns[..|txns| - 1], p);
    }
  }
}
