/** Grouping a history by bond with a dictionary that keeps insertion order. */
module Grouping {
  import opened Seqs
  import opened Transactions

  function OnBond(bond: int): Transaction -> bool {
    (t: Transaction) => t.bondId == bond
  }

  /** The bonds of a history in the order of their first rows. */
  function FirstSeen(txns: seq<Transaction>): seq<int>
  {
    if txns == [] then []
    else
      var front, bond := FirstSeen(txns[..|txns| - 1]), txns[|txns| - 1].bondId;
      if bond in front then front else front + [bond]
  }

  /** `order` lists the bonds of `txns` once each, and `grouped` holds their rows. */
  ghost predicate IsGrouping(txns: seq<Transaction>, order: seq<int>, grouped: map<int, seq<Transaction>>) {
    && Unique(order)
    && (forall b :: b in order <==> b in grouped)
    && (forall b :: b in grouped ==> grouped[b] == Filter(txns, OnBond(b)))
    && (forall b :: b !in grouped ==> Filter(txns, OnBond(b)) == [])
  }

  lemma GroupedSnoc(txns: seq<Transaction>, t: Transaction, b: int)
    ensures Filter(txns + [t], OnBond(b))
         == if b == t.bondId then Filter(txns, OnBond(b)) + [t] else Filter(txns, OnBond(b))
  {
    FilterSnoc(txns, t, OnBond(b));
  }

  lemma GroupExtends(txns: seq<Transaction>, t: Transaction, order: seq<int>, grouped: map<int, seq<Transaction>>)
    requires IsGrouping(txns, order, grouped) && t.bondId in grouped
    ensures IsGrouping(txns + [t], order, grouped[t.bondId := grouped[t.bondId] + [t]])
  {
    forall b ensures Filter(txns + [t], OnBond(b))
                  == if b == t.bondId then Filter(txns, OnBond(b)) + [t] else Filter(txns, OnBond(b))
    {
      GroupedSnoc(txns, t, b);
    }
  }

  lemma GroupBegins(txns: seq<Transaction>, t: Transaction, order: seq<int>, grouped: map<int, seq<Transaction>>)
    requires IsGrouping(txns, order, grouped) && t.bondId !in grouped
    ensures IsGrouping(txns + [t], order + [t.bondId], grouped[t.bondId := [t]])
  {
    forall b ensures Filter(txns + [t], OnBond(b))
                  == if b == t.bondId then Filter(txns, OnBond(b)) + [t] else Filter(txns, OnBond(b))
    {
      GroupedSnoc(txns, t, b);
    }
    UniqueSnoc(order, t.bondId);
    assert [] + [t] == [t];
  }

  lemma FirstSeenSnoc(txns: seq<Transaction>, t: Transaction)
    ensures FirstSeen(txns + [t])
         == if t.bondId in FirstSeen(txns) then FirstSeen(txns) else FirstSeen(txns) + [t.bondId]
  {
    assert (txns + [t])[..|txns|] == txns;
  }

  /** Some row of `bond` comes before every row of `other`. */
  ghost predicate Precedes(txns: seq<Transaction>, bond: int, other: int) {
    exists k :: 0 <= k < |txns| && txns[k].bondId == bond && forall i :: 0 <= i <= k ==> txns[i].bondId != other
  }

  /** Every bond of the history and no other, ordered by first rows. */
  lemma {:induction false} FirstSeenIsInOrder(txns: seq<Transaction>)
    ensures forall b :: b in FirstSeen(txns) <==> exists t :: t in txns && t.bondId == b
    ensures forall i, j :: 0 <= i < j < |FirstSeen(txns)| ==> Precedes(txns, FirstSeen(txns)[i], FirstSeen(txns)[j])
  {
    if txns != [] {
      var n := |txns| - 1;
      var front, seen, bond := txns[..n], FirstSeen(txns[..n]), txns[n].bondId;
      FirstSeenIsInOrder(front);
      FrontAndLast(txns);
      forall b ensures b in FirstSeen(txns) <==> exists t :: t in txns && t.bondId == b {
        if b == bond {
          assert txns[n] in txns;
        } else if b in seen {
          var t :| t in front && t.bondId == b;
          assert t in txns;
        }
      }
      forall i, j | 0 <= i < j < |FirstSeen(txns)|
        ensures Precedes(txns, FirstSeen(txns)[i], FirstSeen(txns)[j])
      {
        FirstSeenStep(txns, i, j);
      }
    }
  }

  lemma FirstSeenStep(txns: seq<Transaction>, i: nat, j: nat)
    requires txns != [] && i < j < |FirstSeen(txns)|
    requires var front := txns[..|txns| - 1];
      && (forall b :: b in FirstSeen(front) <==> exists t :: t in front && t.bondId == b)
      && (j < |FirstSeen(front)| ==> Precedes(front, FirstSeen(front)[i], FirstSeen(front)[j]))
    ensures Precedes(txns, FirstSeen(txns)[i], FirstSeen(txns)[j])
  {
    var n := |txns| - 1;
    var front, seen := txns[..n], FirstSeen(txns[..n]);
    if j < |seen| {
      var k :| 0 <= k < n && front[k].bondId == seen[i] && forall m :: 0 <= m <= k ==> front[m].bondId != seen[j];
      assert txns[k].bondId == seen[i] && forall m :: 0 <= m <= k ==> txns[m] == front[m];
    } else {
      assert seen[i] in seen;
      var t :| t in front && t.bondId == seen[i];
      var k :| 0 <= k < n && front[k] == t;
      forall m | 0 <= m <= k ensures txns[m].bondId != txns[n].bondId {
        assert front[m] in front;
      }
    }
  }

  /** The dictionary after some rows: no bond without rows, bonds in the order of their first rows. */
  ghost predicate Grouped(txns: seq<Transaction>, order: seq<int>, grouped: map<int, seq<Transaction>>) {
    && IsGrouping(txns, order, grouped)
    && (forall bond :: bond in grouped ==> grouped[bond] != [])
    && order == FirstSeen(txns)
  }

  /** `grouped.setdefault(txn.bond_id, []).append(txn)`. */
  method GroupOne(ghost txns: seq<Transaction>, t: Transaction, order: seq<int>, grouped: map<int, seq<Transaction>>)
    returns (order': seq<int>, grouped': map<int, seq<Transaction>>)
    requires Grouped(txns, order, grouped)
    ensures Grouped(txns + [t], order', grouped')
  {
    FirstSeenSnoc(txns, t);
    if t.bondId !in grouped {
      GroupBegins(txns, t, order, grouped);
      order', grouped' := order + [t.bondId], grouped[t.bondId := [t]];
    } else {
      GroupExtends(txns, t, order, grouped);
      order', grouped' := order, grouped[t.bondId := grouped[t.bondId] + [t]];
    }
  }

  /** The rows of every bond, by the loop over the history. */
  method GroupByBond(txns: seq<Transaction>) returns (order: seq<int>, grouped: map<int, seq<Transaction>>)
    ensures IsGrouping(txns, order, grouped) && forall bond :: bond in grouped ==> grouped[bond] != []
    ensures order == FirstSeen(txns)
  {
    order, grouped := [], map[];
    for i := 0 to |txns|
      invariant Grouped(txns[..i], order, grouped)
    {
      TakeSnoc(txns, i);
      order, grouped := GroupOne(txns[..i], txns[i], order, grouped);
    }
    assert txns[..|txns|] == txns;
  }
}
