/** Stable sorting by a pair of integers: the model of SQL's
    `ORDER BY date, id` and of Python's `list.sort(key=...)`. */
module Sorting {
  import opened Seqs

  type Key = (int, int)

  predicate AtMost(a: Key, b: Key) {
    a.0 < b.0 || (a.0 == b.0 && a.1 <= b.1)
  }

  ghost predicate Sorted<T(!new)>(xs: seq<T>, key: T -> Key) {
    forall i, j :: 0 <= i < j < |xs| ==> AtMost(key(xs[i]), key(xs[j]))
  }

  /** Puts `x` behind every element whose key is not greater. */
  function Insert<T(!new)>(xs: seq<T>, x: T, key: T -> Key): seq<T>
  {
    if xs == [] then [x]
    else
      var n := |xs| - 1;
      if AtMost(key(xs[n]), key(x)) then xs + [x] else Insert(xs[..n], x, key) + [xs[n]]
  }

  function Sort<T(!new)>(xs: seq<T>, key: T -> Key): seq<T>
  {
    if xs == [] then [] else Insert(Sort(xs[..|xs| - 1], key), xs[|xs| - 1], key)
  }

  lemma {:induction false} InsertKeepsElements<T(!new)>(xs: seq<T>, x: T, key: T -> Key)
    ensures multiset(Insert(xs, x, key)) == multiset(xs) + multiset{x}
  {
    if xs != [] {
      var n := |xs| - 1;
      assert xs == xs[..n] + [xs[n]];
      InsertKeepsElements(xs[..n], x, key);
    }
  }

  lemma {:induction false} InsertMembers<T(!new)>(xs: seq<T>, x: T, key: T -> Key)
    ensures forall y :: y in Insert(xs, x, key) <==> y in xs || y == x
  {
    InsertKeepsElements(xs, x, key);
    forall y ensures y in Insert(xs, x, key) <==> y in xs || y == x {
      assert y in Insert(xs, x, key) <==> y in multiset(Insert(xs, x, key));
      assert y in xs <==> y in multiset(xs);
    }
  }

  lemma {:induction false} InsertSorts<T(!new)>(xs: seq<T>, x: T, key: T -> Key)
    requires Sorted(xs, key)
    ensures Sorted(Insert(xs, x, key), key)
  {
    if xs != [] {
      var n := |xs| - 1;
      if AtMost(key(xs[n]), key(x)) {
        assert forall i :: 0 <= i < n ==> AtMost(key(xs[i]), key(xs[n]));
      } else {
        InsertSorts(xs[..n], x, key);
        InsertMembers(xs[..n], x, key);
        var ys := Insert(xs[..n], x, key);
        forall i | 0 <= i < |ys| ensures AtMost(key(ys[i]), key(xs[n])) {
          assert ys[i] in ys;
          if ys[i] != x {
            var j :| 0 <= j < n && xs[j] == ys[i];
          }
        }
      }
    }
  }

  /** The result is in order and has the same elements, each as often. */
  lemma {:induction false} SortSorts<T(!new)>(xs: seq<T>, key: T -> Key)
    ensures Sorted(Sort(xs, key), key)
    ensures multiset(Sort(xs, key)) == multiset(xs)
    ensures forall x :: x in Sort(xs, key) <==> x in xs
  {
    if xs != [] {
      var n := |xs| - 1;
      assert xs == xs[..n] + [xs[n]];
      SortSorts(xs[..n], key);
      var sorted := Sort(xs[..n], key);
      InsertKeepsElements(sorted, xs[n], key);
      InsertMembers(sorted, xs[n], key);
      InsertSorts(sorted, xs[n], key);
    }
  }

  /** A sequence that is in order already is left as it is. */
  lemma {:induction false} SortFixes<T(!new)>(xs: seq<T>, key: T -> Key)
    requires Sorted(xs, key)
    ensures Sort(xs, key) == xs
  {
    if xs != [] {
      SortFixes(xs[..|xs| - 1], key);
    }
  }

  lemma {:induction false} FilterInsert<T(!new)>(xs: seq<T>, x: T, key: T -> Key, p: T -> bool)
    requires Sorted(xs, key)
    ensures Filter(Insert(xs, x, key), p)
         == if p(x) then Insert(Filter(xs, p), x, key) else Filter(xs, p)
  {
    if xs == [] {
      FilterSnoc([], x, p);
    } else {
      var n := |xs| - 1;
      var front := Filter(xs[..n], p);
      if AtMost(key(xs[n]), key(x)) {
        FilterSnoc(xs, x, p);
        FilterMembers(xs, p);
        if p(x) && Filter(xs, p) != [] {
          var last := Filter(xs, p)[|Filter(xs, p)| - 1];
          assert last in Filter(xs, p);
          assert last in xs;
          var k :| 0 <= k < |xs| && xs[k] == last;
          assert k == n || AtMost(key(xs[k]), key(xs[n]));
        }
      } else {
        FilterInsert(xs[..n], x, key, p);
        FilterSnoc(Insert(xs[..n], x, key), xs[n], p);
        assert p(xs[n]) ==> (front + [xs[n]])[..|front|] == front;
      }
    }
  }

  /** Stability: sorting commutes with selecting. */
  lemma {:induction false} SortFilter<T(!new)>(xs: seq<T>, key: T -> Key, p: T -> bool)
    ensures Filter(Sort(xs, key), p) == Sort(Filter(xs, p), key)
  {
    if xs != [] {
      var n := |xs| - 1;
      SortFilter(xs[..n], key, p);
      SortSorts(xs[..n], key);
      FilterInsert(Sort(xs[..n], key), xs[n], key, p);
      var front := Filter(xs[..n], p);
      assert p(xs[n]) ==> (front + [xs[n]])[..|front|] == front;
    }
  }

  lemma {:induction false} InsertMap<T(!new), U(!new)>(xs: seq<T>, x: T, f: T -> U, key: T -> Key, keyU: U -> Key)
    requires forall y :: y in xs + [x] ==> keyU(f(y)) == key(y)
    ensures Map(Insert(xs, x, key), f) == Insert(Map(xs, f), f(x), keyU)
  {
    if xs == [] {
      assert x in xs + [x];
    } else {
      var n := |xs| - 1;
      assert (xs + [x])[n] == xs[n] && (xs + [x])[n + 1] == x;
      assert Map(xs, f)[..n] == Map(xs[..n], f);
      if AtMost(key(xs[n]), key(x)) {
        assert Map(xs + [x], f) == Map(xs, f) + [f(x)];
      } else {
        forall y | y in xs[..n] + [x] ensures keyU(f(y)) == key(y) {
          assert y in xs + [x];
        }
        InsertMap(xs[..n], x, f, key, keyU);
      }
    }
  }

  /** Sorting commutes with any mapping that keeps the key. */
  lemma {:induction false} SortMap<T(!new), U(!new)>(xs: seq<T>, f: T -> U, key: T -> Key, keyU: U -> Key)
    requires forall y :: y in xs ==> keyU(f(y)) == key(y)
    ensures Map(Sort(xs, key), f) == Sort(Map(xs, f), keyU)
  {
    if xs != [] {
      var n := |xs| - 1;
      SortMap(xs[..n], f, key, keyU);
      SortSorts(xs[..n], key);
      forall y | y in Sort(xs[..n], key) + [xs[n]] ensures keyU(f(y)) == key(y) {
        assert y in xs[..n] || y == xs[n];
        assert y in xs;
      }
      InsertMap(Sort(xs[..n], key), xs[n], f, key, keyU);
      assert Map(xs, f)[..n] == Map(xs[..n], f);
    }
  }
}
