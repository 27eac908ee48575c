/** Average-cost netting: the six-field accumulator behind `net_position` and
    `realized_pnl`. `Walk` is the specification of the loop `Netting`; the
    lemmas relate its fields to quantities defined without it. */
module Netting {
  import opened Seqs
  import opened Transactions

  datatype State = State(
    quantity: int, openQuantity: int, costBasis: real,
    sells: real, maturities: real, commissions: real)

  const START := State(0, 0, 0.0, 0.0, 0.0, 0.0)

  /** The part of a close of `quantity` units that meets an open position. */
  function Closed(open: int, quantity: int): int {
    if open <= 0 then 0 else if quantity > open then open else quantity
  }

  /** Result of closing `closed` units at `price` against the running average. */
  function Pnl(price: real, costBasis: real, open: real, closed: real): real
    requires open != 0.0
  {
    (price - costBasis / open) * closed
  }

  /** The cost basis left after closing `closed` of `open` units. */
  function Reduced(costBasis: real, open: real, closed: real): real
    requires open != 0.0
  {
    costBasis - costBasis * (closed / open)
  }

  function Exit(st: State, t: Transaction): State
    requires st.openQuantity > 0
  {
    var closed := Closed(st.openQuantity, t.quantity);
    var pnl := Pnl(t.price, st.costBasis, st.openQuantity as real, closed as real);
    var basis := Reduced(st.costBasis, st.openQuantity as real, closed as real);
    State(st.quantity - t.quantity,
          st.openQuantity - closed,
          if st.openQuantity - closed == 0 then 0.0 else basis,
          if t.kind.SELL? then st.sells + pnl else st.sells,
          if t.kind.SELL? then st.maturities else st.maturities + pnl,
          st.commissions + t.commission)
  }

  function Step(st: State, t: Transaction): State {
    if t.kind.BUY? then
      State(st.quantity + t.quantity, st.openQuantity + t.quantity,
            st.costBasis + t.price * t.quantity as real, st.sells, st.maturities, st.commissions)
    else if st.openQuantity <= 0 then
      State(st.quantity - t.quantity, st.openQuantity, st.costBasis,
            st.sells, st.maturities, st.commissions + t.commission)
    else Exit(st, t)
  }

  function WalkFrom(st: State, txns: seq<Transaction>): State
  {
    if txns == [] then st else Step(WalkFrom(st, txns[..|txns| - 1]), txns[|txns| - 1])
  }

  function Walk(txns: seq<Transaction>): State {
    WalkFrom(START, txns)
  }

  lemma WalkSnoc(txns: seq<Transaction>, i: nat)
    requires i < |txns|
    ensures Walk(txns[..i + 1]) == Step(Walk(txns[..i]), txns[i])
  {
    assert txns[..i + 1][..i] == txns[..i];
  }

  function Average(costBasis: real, open: int): real
    requires open != 0
  {
    costBasis / open as real
  }

  /** `avg_buy_price * quantity`. */
  function Value(average: real, quantity: int): real {
    average * quantity as real
  }

  function NetPosition(txns: seq<Transaction>): (int, Option<real>) {
    var st := Walk(txns);
    (st.quantity, if st.openQuantity > 0 then Some(Average(st.costBasis, st.openQuantity)) else None)
  }

  function RealizedPnl(txns: seq<Transaction>): (real, real, real) {
    var st := Walk(txns);
    (st.sells, st.maturities, st.commissions)
  }

  /** The loop as written: six locals, `continue` after a BUY and after an exit
      without an open position, clamping, proportional reduction and the reset. */
  method RunNetting(txns: seq<Transaction>) returns (st: State)
    ensures st == Walk(txns)
  {
    var quantity, openQuantity := 0, 0;
    var costBasis, sells, maturities, commissions := 0.0, 0.0, 0.0, 0.0;
    for i := 0 to |txns|
      invariant State(quantity, openQuantity, costBasis, sells, maturities, commissions) == Walk(txns[..i])
    {
      var txn := txns[i];
      ghost var before := State(quantity, openQuantity, costBasis, sells, maturities, commissions);
      WalkSnoc(txns, i);
      if txn.kind.BUY? {
        quantity := quantity + txn.quantity;
        openQuantity := openQuantity + txn.quantity;
        costBasis := costBasis + txn.price * txn.quantity as real;
        continue;
      }
      quantity := quantity - txn.quantity;
      commissions := commissions + txn.commission;
      if openQuantity <= 0 {
        continue;
      }
      var closed;
      if txn.quantity > openQuantity {
        closed := openQuantity;
      } else {
        closed := txn.quantity;
      }
      var pnl := Pnl(txn.price, costBasis, openQuantity as real, closed as real);
      if txn.kind.SELL? {
        sells := sells + pnl;
      } else {
        maturities := maturities + pnl;
      }
      costBasis := Reduced(costBasis, openQuantity as real, closed as real);
      openQuantity := openQuantity - closed;
      if openQuantity == 0 {
        costBasis := 0.0;
      }
      assert State(quantity, openQuantity, costBasis, sells, maturities, commissions) == Step(before, txn);
    }
    assert txns[..|txns|] == txns;
    st := State(quantity, openQuantity, costBasis, sells, maturities, commissions);
  }
}
