/** Rows of the `transactions` table and the signed quantity they stand for. */
module Transactions {
  import opened Seqs
  import Sorting

  datatype Kind = BUY | SELL | MATURE

  datatype Transaction = Transaction(
    id: int, userId: int, bondId: int, accountId: int,
    kind: Kind, quantity: int, price: real, date: int, commission: real)
  {
    /** BUY counts up, SELL and MATURE count down. */
    function Signed(): int {
      if kind.BUY? then quantity else -quantity
    }
  }

  /** What `TransactionCreate` and `TransactionUpdate` demand of quantity and price. */
  predicate Positive(txns: seq<Transaction>) {
    forall t :: t in txns ==> t.quantity > 0 && t.price > 0.0
  }

  /** BUY minus SELL minus MATURE. */
  function Net(txns: seq<Transaction>): int
  {
    if txns == [] then 0 else Net(txns[..|txns| - 1]) + txns[|txns| - 1].Signed()
  }

  /** The key of `ORDER BY date, id`. */
  function ByDate(): Transaction -> Sorting.Key {
    (t: Transaction) => (t.date, t.id)
  }

  /** The sum of `f` over the rows. */
  function Total(txns: seq<Transaction>, f: Transaction -> real): real
  {
    if txns == [] then 0.0 else Total(txns[..|txns| - 1], f) + f(txns[|txns| - 1])
  }

  lemma TotalSnoc(txns: seq<Transaction>, t: Transaction, f: Transaction -> real)
    ensures Total(txns + [t], f) == Total(txns, f) + f(t)
  {
    assert (txns + [t])[..|txns|] == txns;
  }

  /** Selecting by two exclusive conditions splits every total. */
  lemma {:induction false} TotalSplit(txns: seq<Transaction>, f: Transaction -> real,
      p: Transaction -> bool, q: Transaction -> bool, either: Transaction -> bool)
    requires forall t :: t in txns ==> !(p(t) && q(t)) && either(t) == (p(t) || q(t))
    ensures Total(Filter(txns, either), f) == Total(Filter(txns, p), f) + Total(Filter(txns, q), f)
  {
    if txns != [] {
      var n := |txns| - 1;
      TotalSplit(txns[..n], f, p, q, either);
      TotalSnoc(Filter(txns[..n], either), txns[n], f);
      TotalSnoc(Filter(txns[..n], p), txns[n], f);
      TotalSnoc(Filter(txns[..n], q), txns[n], f);
    }
  }

  lemma NetSnoc(txns: seq<Transaction>, t: Transaction)
    ensures Net(txns + [t]) == Net(txns) + t.Signed()
  {
    assert (txns + [t])[..|txns|] == txns;
  }

  /** Selecting by two exclusive conditions splits the net quantity. */
  lemma {:induction false} NetSplit(txns: seq<Transaction>,
      p: Transaction -> bool, q: Transaction -> bool, either: Transaction -> bool)
    requires forall t :: t in txns ==> !(p(t) && q(t)) && either(t) == (p(t) || q(t))
    ensures Net(Filter(txns, either)) == Net(Filter(txns, p)) + Net(Filter(txns, q))
  {
    if txns != [] {
      var n := |txns| - 1;
      NetSplit(txns[..n], p, q, either);
      NetSnoc(Filter(txns[..n], either), txns[n]);
      NetSnoc(Filter(txns[..n], p), txns[n]);
      NetSnoc(Filter(txns[..n], q), txns[n]);
    }
  }

  lemma {:induction false} NetInsert(txns: seq<Transaction>, t: Transaction)
    ensures Net(Sorting.Insert(txns, t, ByDate())) == Net(txns) + t.Signed()
  {
    if txns == [] {
      NetSnoc([], t);
    } else {
      var n := |txns| - 1;
      NetInsert(txns[..n], t);
      NetSnoc(Sorting.Insert(txns[..n], t, ByDate()), txns[n]);
      NetSnoc(txns, t);
    }
  }

  /** The net quantity does not depend on the order of the rows. */
  lemma {:induction false} NetSort(txns: seq<Transaction>)
    ensures Net(Sorting.Sort(txns, ByDate())) == Net(txns)
  {
    if txns != [] {
      var n := |txns| - 1;
      NetSort(txns[..n]);
      NetInsert(Sorting.Sort(txns[..n], ByDate()), txns[n]);
    }
  }
}
