/** One request of the portfolio service run on its own: which checks it makes,
    in which order, and what it writes. `Perform` is the specification of the
    three commands of the service; the lemmas say when it accepts. */
module Ledger {
  import opened Seqs
  import opened Transactions
  import Sorting

  type Table = seq<Transaction>

  /** The referenced tables: users, bonds and the owner of each broker account. */
  datatype Directory = Directory(users: set<int>, bonds: set<int>, owner: map<int, int>)
  {
    ghost predicate Valid() {
      forall a :: a in owner ==> owner[a] in users
    }

    predicate Owns(user: int, account: int) {
      account in owner && owner[account] == user
    }

    /** The foreign keys of a row. */
    predicate Resolves(t: Transaction) {
      t.userId in users && t.bondId in bonds && t.accountId in owner
    }
  }

  datatype Create = Create(
    bondId: int, accountId: int, kind: Kind, quantity: int, price: real, date: int, commission: real)

  datatype Changes = Changes(
    bondId: Option<int>, accountId: Option<int>, kind: Option<Kind>, quantity: Option<int>,
    price: Option<real>, date: Option<int>, commission: Option<real>)

  datatype Request =
    | Add(userId: int, data: Create)
    | Update(userId: int, id: int, changes: Changes)
    | Delete(userId: int, id: int)
  {
    /** The bounds the request models put on their fields. */
    predicate Positive() {
      match this
      case Add(_, d) => d.quantity > 0 && d.price > 0.0
      case Update(_, _, c) => (c.quantity.Some? ==> c.quantity.value > 0) && (c.price.Some? ==> c.price.value > 0.0)
      case Delete(_, _) => true
    }
  }

  datatype Error = InvalidTransaction | InsufficientPosition | TransactionForbidden

  datatype Outcome =
    | Recorded(row: Transaction)
    | Updated(row: Transaction)
    | Deleted
    | Missing
    | Rejected(error: Error)

  // ---------------------------------------------------------------- rows

  function Pair(user: int, bond: int, account: int): Transaction -> bool {
    (t: Transaction) => t.userId == user && t.bondId == bond && t.accountId == account
  }

  function Mine(user: int): Transaction -> bool {
    (t: Transaction) => t.userId == user
  }

  function Except(id: int): Transaction -> bool {
    (t: Transaction) => t.id != id
  }

  /** Held units of one user, bond and account. */
  function Position(table: Table, user: int, bond: int, account: int): int {
    Net(Filter(table, Pair(user, bond, account)))
  }

  ghost predicate NonNegative(table: Table) {
    forall u, b, a :: Position(table, u, b, a) >= 0
  }

  ghost predicate DistinctIds(table: Table) {
    forall i, j :: 0 <= i < j < |table| ==> table[i].id != table[j].id
  }

  /** `_load_transactions` restricted to an account. */
  function Load(table: Table, user: int, bond: int, account: int): Table {
    Sorting.Sort(Filter(table, Pair(user, bond, account)), ByDate())
  }

  /** The loaded rows of a pair without the row `id`. */
  function Others(table: Table, user: int, bond: int, account: int, id: int): Table {
    Filter(Load(table, user, bond, account), Except(id))
  }

  function Find(table: Table, id: int): (row: Option<Transaction>)
    ensures row.Some? ==> row.value in table && row.value.id == id
    ensures row.None? ==> forall t :: t in table ==> t.id != id
  {
    if table == [] then None
    else if table[|table| - 1].id == id then Some(table[|table| - 1])
    else Find(table[..|table| - 1], id)
  }

  function Remove(table: Table, id: int): Table {
    Filter(table, Except(id))
  }

  function Replace(table: Table, row: Transaction): (r: Table)
    ensures |r| == |table|
    ensures forall i :: 0 <= i < |table| ==> r[i] == if table[i].id == row.id then row else table[i]
  {
    Map(table, (t: Transaction) => if t.id == row.id then row else t)
  }

  // ---------------------------------------------------------------- checks

  function NewRow(id: int, user: int, d: Create): Transaction {
    Transaction(id, user, d.bondId, d.accountId, d.kind, d.quantity, d.price, d.date, d.commission)
  }

  function Or<T>(change: Option<T>, current: T): T {
    if change.Some? then change.value else current
  }

  function Changed(t: Transaction, c: Changes): Transaction {
    Transaction(t.id, t.userId, Or(c.bondId, t.bondId), Or(c.accountId, t.accountId), Or(c.kind, t.kind),
                Or(c.quantity, t.quantity), Or(c.price, t.price), Or(c.date, t.date), Or(c.commission, t.commission))
  }

  predicate HasUnits(table: Table, user: int, d: Create) {
    d.kind.BUY? || Net(Load(table, user, d.bondId, d.accountId)) >= d.quantity
  }

  predicate Moves(row: Transaction, changed: Transaction) {
    changed.bondId != row.bondId || changed.accountId != row.accountId
  }

  /** The check of the pair the row leaves. It compares what remains with the
      quantity of the row that is removed, not with zero. */
  predicate OldPairOk(table: Table, row: Transaction, changed: Transaction) {
    Moves(row, changed) && row.kind.BUY? ==>
      Net(Others(table, row.userId, row.bondId, row.accountId, row.id)) >= row.quantity
  }

  predicate NewPairOk(table: Table, row: Transaction, changed: Transaction) {
    Net(Others(table, row.userId, changed.bondId, changed.accountId, row.id)) + changed.Signed() >= 0
  }

  predicate RestOk(table: Table, row: Transaction) {
    Net(Others(table, row.userId, row.bondId, row.accountId, row.id)) >= 0
  }

  // ---------------------------------------------------------------- commands

  function PerformAdd(dir: Directory, table: Table, id: int, user: int, d: Create): (Table, Outcome) {
    var row := NewRow(id, user, d);
    if !dir.Owns(user, d.accountId) then (table, Rejected(InvalidTransaction))
    else if !HasUnits(table, user, d) then (table, Rejected(InsufficientPosition))
    else if !dir.Resolves(row) then (table, Rejected(InvalidTransaction))
    else (table + [row], Recorded(row))
  }

  function PerformUpdate(dir: Directory, table: Table, user: int, id: int, c: Changes): (Table, Outcome) {
    var found := Find(table, id);
    if found.None? then (table, Missing)
    else if found.value.userId != user then (table, Rejected(TransactionForbidden))
    else
      var row := found.value;
      var changed := Changed(row, c);
      if !dir.Owns(user, changed.accountId) then (table, Rejected(InvalidTransaction))
      else if !OldPairOk(table, row, changed) then (table, Rejected(InsufficientPosition))
      else if !NewPairOk(table, row, changed) then (table, Rejected(InsufficientPosition))
      else if !dir.Resolves(changed) then (table, Rejected(InvalidTransaction))
      else (Replace(table, changed), Updated(changed))
  }

  function PerformDelete(table: Table, user: int, id: int): (Table, Outcome) {
    var found := Find(table, id);
    if found.None? then (table, Missing)
    else if found.value.userId != user then (table, Rejected(TransactionForbidden))
    else if !RestOk(table, found.value) then (table, Rejected(InsufficientPosition))
    else (Remove(table, id), Deleted)
  }

  function Perform(dir: Directory, table: Table, id: int, req: Request): (Table, Outcome) {
    match req
    case Add(user, d) => PerformAdd(dir, table, id, user, d)
    case Update(user, row, c) => PerformUpdate(dir, table, user, row, c)
    case Delete(user, row) => PerformDelete(table, user, row)
  }
}
