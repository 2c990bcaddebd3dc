/** The order `Transactions.take` puts its lots in before consuming them:
    `transactions.sortBy { it.timestamp }` (Ledger.kt), a stable sort by
    timestamp.  The sort is a library call; it is modelled as a stable
    insertion sort, and any stable sort by the same key gives the same list. */
module LotOrder {
  import opened Entities
  import Fifo

  predicate Sorted(s: seq<Transaction>) {
    forall i, j :: 0 <= i < j < |s| ==> s[i].info.timestamp <= s[j].info.timestamp
  }

  /** Inserts `t` after every lot whose timestamp is not later than its own. */
  function Insert(s: seq<Transaction>, t: Transaction): seq<Transaction>
    decreases |s|
  {
    if s == [] || s[|s| - 1].info.timestamp <= t.info.timestamp then s + [t]
    else Insert(s[..|s| - 1], t) + [s[|s| - 1]]
  }

  function SortByTimestamp(s: seq<Transaction>): seq<Transaction>
    decreases |s|
  {
    if s == [] then [] else Insert(SortByTimestamp(s[..|s| - 1]), s[|s| - 1])
  }

  /** The lots of `s` with timestamp `ts`, in the order of `s`. */
  function WithTimestamp(s: seq<Transaction>, ts: Date): seq<Transaction>
    decreases |s|
  {
    if s == [] then []
    else WithTimestamp(s[..|s| - 1], ts) + (if s[|s| - 1].info.timestamp == ts then [s[|s| - 1]] else [])
  }

  // ---------------------------------------------------------------------
  // Insertion

  lemma {:induction false} InsertPermutes(s: seq<Transaction>, t: Transaction)
    ensures multiset(Insert(s, t)) == multiset(s) + multiset{t}
  {
    if !(s == [] || s[|s| - 1].info.timestamp <= t.info.timestamp) {
      var init := s[..|s| - 1];
      InsertPermutes(init, t);
      assert s == init + [s[|s| - 1]];
    }
  }

  /** Inserting keeps every timestamp under a common bound. */
  lemma {:induction false} InsertBounded(s: seq<Transaction>, t: Transaction, bound: Date)
    requires forall i :: 0 <= i < |s| ==> s[i].info.timestamp <= bound
    requires t.info.timestamp <= bound
    ensures forall i :: 0 <= i < |Insert(s, t)| ==> Insert(s, t)[i].info.timestamp <= bound
  {
    if !(s == [] || s[|s| - 1].info.timestamp <= t.info.timestamp) {
      var init := s[..|s| - 1];
      assert forall i :: 0 <= i < |init| ==> init[i] == s[i];
      InsertBounded(init, t, bound);
    }
  }

  lemma {:induction false} InsertSorted(s: seq<Transaction>, t: Transaction)
    requires Sorted(s)
    ensures Sorted(Insert(s, t))
  {
    if !(s == [] || s[|s| - 1].info.timestamp <= t.info.timestamp) {
      var init := s[..|s| - 1];
      var last := s[|s| - 1];
      assert forall i :: 0 <= i < |init| ==> init[i] == s[i];
      InsertSorted(init, t);
      InsertBounded(init, t, last.info.timestamp);
    }
  }

  /** Lots with the timestamp of `t` keep their order, `t` coming last. */
  lemma {:induction false} InsertStable(s: seq<Transaction>, t: Transaction, ts: Date)
    requires Sorted(s)
    ensures WithTimestamp(Insert(s, t), ts)
         == WithTimestamp(s, ts) + (if t.info.timestamp == ts then [t] else [])
  {
    if s == [] || s[|s| - 1].info.timestamp <= t.info.timestamp {
      assert (s + [t])[..|s + [t]| - 1] == s;
    } else {
      var init := s[..|s| - 1];
      var last := s[|s| - 1];
      InsertStable(init, t, ts);
      var r := Insert(init, t);
      assert (r + [last])[..|r + [last]| - 1] == r;
    }
  }

  lemma {:induction false} InsertSum(s: seq<Transaction>, t: Transaction)
    ensures Fifo.Sum(Insert(s, t)) == Fifo.Sum(s) + t.amount
  {
    if s == [] || s[|s| - 1].info.timestamp <= t.info.timestamp {
      Fifo.SumConcat(s, [t]);
    } else {
      var init := s[..|s| - 1];
      var last := s[|s| - 1];
      InsertSum(init, t);
      Fifo.SumConcat(Insert(init, t), [last]);
      Fifo.SumConcat(init, [last]);
      assert s == init + [last];
    }
  }

  // ---------------------------------------------------------------------
  // The sort

  /** The sorted list is a permutation of the lots and is in timestamp order. */
  lemma {:induction false} SortSortsAndPermutes(s: seq<Transaction>)
    ensures Sorted(SortByTimestamp(s))
    ensures multiset(SortByTimestamp(s)) == multiset(s)
  {
    if s != [] {
      var init, last := s[..|s| - 1], s[|s| - 1];
      var sortedInit := SortByTimestamp(init);
      assert SortByTimestamp(s) == Insert(sortedInit, last);
      SortSortsAndPermutes(init);
      InsertSorted(sortedInit, last);
      InsertPermutes(sortedInit, last);
      assert s == init + [last];
      assert multiset(s) == multiset(init) + multiset{last};
    }
  }

  /** Stability: lots that share a timestamp stay in their input order. */
  lemma {:induction false} SortIsStable(s: seq<Transaction>, ts: Date)
    ensures WithTimestamp(SortByTimestamp(s), ts) == WithTimestamp(s, ts)
  {
    if s != [] {
      var init := s[..|s| - 1];
      SortIsStable(init, ts);
      SortSortsAndPermutes(init);
      InsertStable(SortByTimestamp(init), s[|s| - 1], ts);
    }
  }

  /** Lots already in timestamp order are left where they are. */
  lemma {:induction false} SortKeepsSorted(s: seq<Transaction>)
    requires Sorted(s)
    ensures SortByTimestamp(s) == s
  {
    if s != [] {
      var init := s[..|s| - 1];
      var last := s[|s| - 1];
      assert Sorted(init) by {
        forall i, j | 0 <= i < j < |init|
          ensures init[i].info.timestamp <= init[j].info.timestamp
        {
          assert init[i] == s[i] && init[j] == s[j];
        }
      }
      SortKeepsSorted(init);
      if init != [] {
        assert init[|init| - 1] == s[|s| - 2];
      }
      assert Insert(init, last) == init + [last];
      assert s == init + [last];
    }
  }

  /** Sorting changes neither the balance nor the sign of any amount. */
  lemma {:induction false} SortKeepsAmounts(s: seq<Transaction>)
    ensures Fifo.Sum(SortByTimestamp(s)) == Fifo.Sum(s)
    ensures Fifo.NonNegative(s) ==> Fifo.NonNegative(SortByTimestamp(s))
  {
    if s != [] {
      var init := s[..|s| - 1];
      var last := s[|s| - 1];
      SortKeepsAmounts(init);
      InsertSum(SortByTimestamp(init), last);
      Fifo.SumConcat(init, [last]);
      assert s == init + [last];
    }
    SortSortsAndPermutes(s);
    var r := SortByTimestamp(s);
    if Fifo.NonNegative(s) {
      forall i | 0 <= i < |r|
        ensures r[i].amount >= 0.0
      {
        assert r[i] in multiset(s);
      }
    }
  }
}
