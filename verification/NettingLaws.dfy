/** Laws of the average-cost walk over whole histories. */
module NettingLaws {
  import opened Seqs
  import opened Transactions
  import opened Netting

  // ---------------------------------------------------------------- conservation

  /** Money paid for a purchase. */
  function Paid(t: Transaction): real {
    if t.kind.BUY? then t.price * t.quantity as real else 0.0
  }

  /** Exit price times the units that were actually closed, summed over all exits. */
  function ExitProceeds(txns: seq<Transaction>): real
  {
    if txns == [] then 0.0
    else
      var front, t := txns[..|txns| - 1], txns[|txns| - 1];
      ExitProceeds(front) +
        if t.kind.BUY? then 0.0 else t.price * Closed(Walk(front).openQuantity, t.quantity) as real
  }

  /** The reset on a full close only removes what is zero already. */
  lemma ResetIsExact(costBasis: real, open: int)
    requires open > 0
    ensures Reduced(costBasis, open as real, open as real) == 0.0
  {
    assert open as real / open as real == 1.0;
  }

  lemma ExitMovesBasisIntoPnl(price: real, costBasis: real, open: real, closed: real)
    requires open > 0.0
    ensures Pnl(price, costBasis, open, closed)
         == price * closed + (Reduced(costBasis, open, closed) - costBasis)
  {
    var c := closed;
    assert (costBasis / open) * c == costBasis * (c / open);
  }

  /** What one transaction adds to basis minus realized profit. */
  function CashMoved(st: State, t: Transaction): real {
    if t.kind.BUY? then t.price * t.quantity as real
    else -(t.price * Closed(st.openQuantity, t.quantity) as real)
  }

  function AtCost(st: State): real {
    st.costBasis - st.sells - st.maturities
  }

  lemma StepMovesCash(st: State, t: Transaction)
    ensures AtCost(Step(st, t)) == AtCost(st) + CashMoved(st, t)
  {
    if t.kind != BUY && st.openQuantity > 0 {
      var closed := Closed(st.openQuantity, t.quantity);
      ExitMovesBasisIntoPnl(t.price, st.costBasis, st.openQuantity as real, closed as real);
      ResetIsExact(st.costBasis, st.openQuantity);
    }
  }

  /** Money in equals money out plus what is still invested, clamped or not. */
  lemma {:induction false} Conservation(txns: seq<Transaction>)
    ensures Total(txns, Paid) + Walk(txns).sells + Walk(txns).maturities
         == ExitProceeds(txns) + Walk(txns).costBasis
  {
    if txns != [] {
      var front, t := txns[..|txns| - 1], txns[|txns| - 1];
      Conservation(front);
      StepMovesCash(Walk(front), t);
      assert CashMoved(Walk(front), t)
          == (Total(txns, Paid) - Total(front, Paid)) - (ExitProceeds(txns) - ExitProceeds(front));
    }
  }

  function ExitCommission(t: Transaction): real {
    if t.kind.BUY? then 0.0 else t.commission
  }

  lemma {:induction false} QuantityAndCommissions(txns: seq<Transaction>)
    ensures Walk(txns).quantity == Net(txns)
    ensures Walk(txns).commissions == Total(txns, ExitCommission)
  {
    if txns != [] {
      QuantityAndCommissions(txns[..|txns| - 1]);
    }
  }

  function Gain(price: real, average: real, units: int): real {
    (price - average) * units as real
  }

  /** What one exit earns: its price minus the average before it, on the units that were open. */
  function Earned(before: seq<Transaction>, t: Transaction): real {
    var open := Walk(before).openQuantity;
    match NetPosition(before).1
    case Some(average) => Gain(t.price, average, if t.quantity > open then open else t.quantity)
    case None => 0.0
  }

  /** What the exits of a kind have earned. */
  function ExitProfit(txns: seq<Transaction>, kind: Kind): real
  {
    if txns == [] then 0.0
    else
      var front, t := txns[..|txns| - 1], txns[|txns| - 1];
      ExitProfit(front, kind) + if t.kind == kind then Earned(front, t) else 0.0
  }

  lemma PnlIsGain(price: real, costBasis: real, open: int, closed: int)
    requires open != 0
    ensures Pnl(price, costBasis, open as real, closed as real) == Gain(price, Average(costBasis, open), closed)
  {
  }

  lemma ExitBooks(st: State, t: Transaction, pnl: real)
    requires st.openQuantity > 0
    requires pnl == Pnl(t.price, st.costBasis, st.openQuantity as real, Closed(st.openQuantity, t.quantity) as real)
    ensures Exit(st, t).sells == if t.kind.SELL? then st.sells + pnl else st.sells
    ensures Exit(st, t).maturities == if t.kind.SELL? then st.maturities else st.maturities + pnl
  {
  }

  lemma StepEarns(before: seq<Transaction>, t: Transaction)
    requires t.kind != BUY
    ensures var st, after := Walk(before), Step(Walk(before), t);
      && after.sells == (if t.kind.SELL? then st.sells + Earned(before, t) else st.sells)
      && after.maturities == (if t.kind.SELL? then st.maturities else st.maturities + Earned(before, t))
  {
    var st := Walk(before);
    if st.openQuantity > 0 {
      PnlIsGain(t.price, st.costBasis, st.openQuantity, Closed(st.openQuantity, t.quantity));
      ExitBooks(st, t, Earned(before, t));
    }
  }

  /** The realized profit of sales and that of redemptions are each the sum over the exits of
      that kind, and the commissions those of all exits. */
  lemma {:induction false} RealizedByKind(txns: seq<Transaction>)
    ensures RealizedPnl(txns).0 == ExitProfit(txns, SELL)
    ensures RealizedPnl(txns).1 == ExitProfit(txns, MATURE)
    ensures RealizedPnl(txns).2 == Total(txns, ExitCommission)
  {
    QuantityAndCommissions(txns);
    if txns != [] {
      var front, t := txns[..|txns| - 1], txns[|txns| - 1];
      RealizedByKind(front);
      if t.kind != BUY {
        StepEarns(front, t);
      }
    }
  }

  lemma {:induction false} NoProfitWithout(txns: seq<Transaction>, kind: Kind)
    requires forall t :: t in txns ==> t.kind != kind
    ensures ExitProfit(txns, kind) == 0.0
  {
    if txns != [] {
      assert txns[|txns| - 1] in txns;
      NoProfitWithout(txns[..|txns| - 1], kind);
    }
  }

  /** Profit is booked under the kind of the exit that made it. */
  lemma BookedByKind(txns: seq<Transaction>)
    ensures (forall t :: t in txns ==> t.kind != SELL) ==> RealizedPnl(txns).0 == 0.0
    ensures (forall t :: t in txns ==> t.kind != MATURE) ==> RealizedPnl(txns).1 == 0.0
  {
    RealizedByKind(txns);
    if forall t :: t in txns ==> t.kind != SELL {
      NoProfitWithout(txns, SELL);
    }
    if forall t :: t in txns ==> t.kind != MATURE {
      NoProfitWithout(txns, MATURE);
    }
  }

  // ---------------------------------------------------------------- reflection

  /** The least net quantity over all prefixes, the empty one included. */
  function LeastPrefixNet(txns: seq<Transaction>): int
  {
    if txns == [] then 0
    else
      var least := LeastPrefixNet(txns[..|txns| - 1]);
      if Net(txns) < least then Net(txns) else least
  }

  lemma {:induction false} LeastPrefixNetIsLeast(txns: seq<Transaction>)
    ensures forall k :: 0 <= k <= |txns| ==> LeastPrefixNet(txns) <= Net(txns[..k])
    ensures exists k :: 0 <= k <= |txns| && LeastPrefixNet(txns) == Net(txns[..k])
  {
    if txns == [] {
      assert txns[..0] == txns;
    } else {
      var n := |txns| - 1;
      LeastPrefixNetIsLeast(txns[..n]);
      assert forall k :: 0 <= k <= n ==> txns[..n][..k] == txns[..k];
      assert txns[..n + 1] == txns;
      var k :| 0 <= k <= n && LeastPrefixNet(txns[..n]) == Net(txns[..n][..k]);
      assert LeastPrefixNet(txns) == Net(txns[..k]) || LeastPrefixNet(txns) == Net(txns[..n + 1]);
    }
  }

  /** The open quantity is the net quantity reflected at its running minimum. */
  lemma {:induction false} Reflection(txns: seq<Transaction>)
    requires Positive(txns)
    ensures Walk(txns).openQuantity == Net(txns) - LeastPrefixNet(txns)
    ensures Walk(txns).openQuantity >= 0
    ensures LeastPrefixNet(txns) <= 0
  {
    if txns != [] {
      var front := txns[..|txns| - 1];
      assert txns[|txns| - 1] in txns;
      Reflection(front);
    }
  }

  /** No exit asks for more units than are open. */
  ghost predicate NeverClamps(txns: seq<Transaction>) {
    forall i :: 0 <= i < |txns| && !txns[i].kind.BUY? ==>
      txns[i].quantity <= Walk(txns[..i]).openQuantity
  }

  lemma NeverClampsSnoc(txns: seq<Transaction>)
    requires txns != []
    ensures var n := |txns| - 1;
      NeverClamps(txns) <==>
      NeverClamps(txns[..n]) && (txns[n].kind.BUY? || txns[n].quantity <= Walk(txns[..n]).openQuantity)
  {
    var n := |txns| - 1;
    assert forall i :: 0 <= i < n ==> txns[..n][..i] == txns[..i] && txns[..n][i] == txns[i];
  }

  /** A history is never clamped exactly when no prefix goes short, which is
      exactly when the open quantity is the net quantity. */
  lemma {:induction false} NeverClampsIff(txns: seq<Transaction>)
    requires Positive(txns)
    ensures NeverClamps(txns) <==> LeastPrefixNet(txns) == 0
    ensures NeverClamps(txns) <==> Walk(txns).openQuantity == Walk(txns).quantity
  {
    QuantityAndCommissions(txns);
    Reflection(txns);
    if txns != [] {
      var front := txns[..|txns| - 1];
      assert txns[|txns| - 1] in txns;
      NeverClampsIff(front);
      Reflection(front);
      NeverClampsSnoc(txns);
    }
  }

  lemma {:induction false} BasisSign(txns: seq<Transaction>)
    requires Positive(txns)
    ensures Walk(txns).openQuantity > 0 ==> Walk(txns).costBasis > 0.0
    ensures Walk(txns).openQuantity == 0 ==> Walk(txns).costBasis == 0.0
  {
    if txns != [] {
      var front, t := txns[..|txns| - 1], txns[|txns| - 1];
      assert t in txns;
      BasisSign(front);
      Reflection(front);
      var st := Walk(front);
      if t.kind.BUY? {
        assert t.price * t.quantity as real > 0.0;
      } else if st.openQuantity > 0 {
        PartialCloseKeepsSign(st.costBasis, st.openQuantity, Closed(st.openQuantity, t.quantity));
      }
    }
  }

  lemma PartialCloseKeepsSign(costBasis: real, open: int, closed: int)
    requires costBasis > 0.0 && 0 < closed <= open
    ensures closed < open ==> Reduced(costBasis, open as real, closed as real) > 0.0
  {
    if closed < open {
      var share := closed as real / open as real;
      assert share < 1.0;
      assert costBasis * share < costBasis;
    }
  }

  /** A partial close leaves the average of what remains unchanged, a purchase moves it
      to the weighted mean. */
  lemma AverageAfter(st: State, t: Transaction)
    requires st.openQuantity > 0 && t.quantity > 0
    ensures !t.kind.BUY? && t.quantity < st.openQuantity ==>
      Average(Step(st, t).costBasis, Step(st, t).openQuantity) == Average(st.costBasis, st.openQuantity)
    ensures t.kind.BUY? ==>
      Average(Step(st, t).costBasis, Step(st, t).openQuantity) * (st.openQuantity + t.quantity) as real
        == Average(st.costBasis, st.openQuantity) * st.openQuantity as real + t.price * t.quantity as real
  {
    var open, q := st.openQuantity as real, t.quantity as real;
    if t.kind.BUY? {
      assert st.costBasis / open * open == st.costBasis;
      CancelQuotient(st.costBasis + t.price * q, (st.openQuantity + t.quantity) as real);
    } else if t.quantity < st.openQuantity {
      ReducedAverage(st.costBasis, open, q);
    }
  }

  lemma CancelQuotient(a: real, b: real)
    requires b != 0.0
    ensures a / b * b == a
  {
  }

  lemma ReducedAverage(basis: real, open: real, closed: real)
    requires 0.0 < closed < open
    ensures Reduced(basis, open, closed) / (open - closed) == basis / open
  {
    var average := basis / open;
    assert basis == average * open;
    assert basis * (closed / open) == average * closed;
    assert Reduced(basis, open, closed) == average * (open - closed);
  }

  /** A held position always has an average price. */
  lemma HeldPositionHasAverage(txns: seq<Transaction>)
    requires Positive(txns)
    ensures Walk(txns).openQuantity >= NetPosition(txns).0
    ensures NetPosition(txns).0 > 0 ==> NetPosition(txns).1.Some?
  {
    QuantityAndCommissions(txns);
    Reflection(txns);
  }

  /** The average times the open quantity is the cost basis. */
  lemma AverageIsShare(txns: seq<Transaction>)
    requires NetPosition(txns).1.Some?
    ensures Value(NetPosition(txns).1.value, Walk(txns).openQuantity) == Walk(txns).costBasis
  {
    CancelQuotient(Walk(txns).costBasis, Walk(txns).openQuantity as real);
  }

  /** Valuing the held quantity at the average never exceeds the cost basis;
      the two agree exactly when nothing was ever clamped. */
  lemma ValueWithinBasis(txns: seq<Transaction>)
    requires Positive(txns) && NetPosition(txns).1.Some?
    ensures var (quantity, average) := NetPosition(txns);
      && average.value > 0.0
      && Value(average.value, quantity) <= Walk(txns).costBasis
      && (Value(average.value, quantity) == Walk(txns).costBasis <==> NeverClamps(txns))
  {
    var st := Walk(txns);
    QuantityAndCommissions(txns);
    Reflection(txns);
    NeverClampsIff(txns);
    BasisSign(txns);
    AverageTimesQuantity(st.costBasis, st.openQuantity, st.quantity);
  }

  lemma AverageTimesQuantity(costBasis: real, open: int, quantity: int)
    requires costBasis > 0.0 && open > 0 && quantity <= open
    ensures Average(costBasis, open) > 0.0
    ensures Value(Average(costBasis, open), quantity) <= costBasis
    ensures Value(Average(costBasis, open), quantity) == costBasis <==> quantity == open
  {
    var average := Average(costBasis, open);
    assert average * open as real == costBasis;
    if quantity < open {
      assert average * (open - quantity) as real > 0.0;
    }
  }
}
