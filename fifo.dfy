/** First-in first-out consumption, the algorithm `Funds.take` and
    `Transactions.take` (Ledger.kt) both run.

    A queue holds entries oldest first.  Each entry has a mutable amount and
    immutable details (`info`): a transfer's currency and date, a lot's
    currency, price, timestamp and pair.  Taking an amount walks the queue from
    the front: an entry no larger than what is still owed is moved to the
    result whole; a larger one is split, the owed part copied into the result
    and the entry left at the front reduced by that part.
 */
module Fifo {
  import opened Decimals

  datatype Entry<+M> = Entry(amount: real, info: M)

  /** What a take returns, and what it leaves in the queue. */
  datatype Split<+M> = Split(taken: seq<Entry<M>>, rest: seq<Entry<M>>)

  /** The balance of a queue: the sum of its amounts. */
  function Sum<M>(q: seq<Entry<M>>): real
    decreases |q|
  {
    if q == [] then 0.0 else q[0].amount + Sum(q[1..])
  }

  predicate NonNegative<M>(q: seq<Entry<M>>) {
    forall i :: 0 <= i < |q| ==> q[i].amount >= 0.0
  }

  /** The loop of `take`: it runs while the amount still owed is nonzero and
      the queue is not empty. */
  function Take<M>(q: seq<Entry<M>>, amount: real): Split<M>
    decreases |q|
  {
    if amount == 0.0 || q == [] then
      Split([], q)
    else if q[0].amount <= amount then
      var s := Take(q[1..], amount - q[0].amount);
      Split([q[0]] + s.taken, s.rest)
    else
      Split([q[0].(amount := amount)], [q[0].(amount := q[0].amount - amount)] + q[1..])
  }

  /** The shape of a FIFO take: the entries taken are the front of the queue,
      except that the last one may be a split copy with the same details; the
      queue keeps the rest, its front entry reduced by exactly the split
      amount; nothing else changes. */
  ghost predicate IsFifoSplit<M>(q: seq<Entry<M>>, s: Split<M>) {
    var k := |s.taken|;
    k <= |q| &&
    ((s.taken == q[..k] && s.rest == q[k..]) ||
     (0 < k && s.taken[..k - 1] == q[..k - 1] && s.taken[k - 1].info == q[k - 1].info &&
      s.rest == [q[k - 1].(amount := q[k - 1].amount - s.taken[k - 1].amount)] + q[k..]))
  }

  // ---------------------------------------------------------------------
  // The balance fold

  lemma {:induction false} SumConcat<M>(a: seq<Entry<M>>, b: seq<Entry<M>>)
    ensures Sum(a + b) == Sum(a) + Sum(b)
  {
    if a == [] {
      assert a + b == b;
    } else {
      assert (a + b)[1..] == a[1..] + b;
      SumConcat(a[1..], b);
    }
  }

  lemma {:induction false} SumNonNegative<M>(q: seq<Entry<M>>)
    requires NonNegative(q)
    ensures Sum(q) >= 0.0
  {
    if q != [] {
      SumNonNegative(q[1..]);
    }
  }

  /** `sumBy` (Ledger.kt): the balance, accumulated front to back. */
  method SumBy<M>(q: seq<Entry<M>>) returns (sum: real)
    ensures sum == Sum(q)
  {
    sum := 0.0;
    for i := 0 to |q|
      invariant sum == Sum(q[..i])
    {
      assert q[..i + 1] == q[..i] + [q[i]];
      SumConcat(q[..i], [q[i]]);
      sum := sum + q[i].amount;
    }
    assert q[..|q|] == q;
  }

  /** The loop of `Funds.take` and `Transactions.take` (Ledger.kt): it
      runs while something is still owed, stops when the queue runs out, and
      splits the front entry when it is larger than what is still owed. */
  method TakeFront<M>(queue: seq<Entry<M>>, amount: real) returns (taken: seq<Entry<M>>, rest: seq<Entry<M>>)
    ensures Take(queue, amount) == Split(taken, rest)
  {
    taken, rest := [], queue;
    var remaining := amount;
    while remaining != 0.0
      invariant Take(queue, amount) == (var s := Take(rest, remaining); Split(taken + s.taken, s.rest))
      decreases |rest|
    {
      if rest == [] {
        break;
      }
      var entry := rest[0];
      if entry.amount <= remaining {
        remaining := remaining - entry.amount;
        rest := rest[1..];
        taken := taken + [entry];
      } else {
        rest := [entry.(amount := entry.amount - remaining)] + rest[1..];
        taken := taken + [entry.(amount := remaining)];
        break;
      }
    }
  }

  // ---------------------------------------------------------------------
  // Properties of a take

  /** Conservation: what is taken and what is left add up to the old
      balance, whatever the amount and the signs of the entries. */
  lemma {:induction false} TakeConserves<M>(q: seq<Entry<M>>, amount: real)
    ensures Sum(Take(q, amount).taken) + Sum(Take(q, amount).rest) == Sum(q)
  {
    if amount == 0.0 || q == [] {
    } else if q[0].amount <= amount {
      var s := Take(q[1..], amount - q[0].amount);
      TakeConserves(q[1..], amount - q[0].amount);
      assert ([q[0]] + s.taken)[1..] == s.taken;
    } else {
      assert ([q[0].(amount := q[0].amount - amount)] + q[1..])[1..] == q[1..];
    }
  }

  /** A take either supplies the whole amount or empties the queue into the
      result; it stops short only when the queue runs out. */
  lemma {:induction false} TakeServesOrExhausts<M>(q: seq<Entry<M>>, amount: real)
    ensures var s := Take(q, amount);
      Sum(s.taken) == amount || (s.taken == q && s.rest == [])
  {
    if amount == 0.0 || q == [] {
    } else if q[0].amount <= amount {
      var s := Take(q[1..], amount - q[0].amount);
      TakeServesOrExhausts(q[1..], amount - q[0].amount);
      assert ([q[0]] + s.taken)[1..] == s.taken;
      if s.taken == q[1..] {
        assert [q[0]] + s.taken == q;
      }
    }
  }

  /** For a nonnegative amount over nonnegative entries, the balance taken is
      the smaller of the amount and the old balance (so never more than was
      asked for), and no entry taken or left is negative. */
  lemma {:induction false} TakeWithinBalance<M>(q: seq<Entry<M>>, amount: real)
    requires amount >= 0.0 && NonNegative(q)
    ensures var s := Take(q, amount);
      Sum(s.taken) == Min(amount, Sum(q)) && NonNegative(s.taken) && NonNegative(s.rest)
  {
    SumNonNegative(q);
    if amount == 0.0 || q == [] {
    } else if q[0].amount <= amount {
      var s := Take(q[1..], amount - q[0].amount);
      TakeWithinBalance(q[1..], amount - q[0].amount);
      assert ([q[0]] + s.taken)[1..] == s.taken;
      assert forall i :: 1 <= i < |[q[0]] + s.taken| ==> ([q[0]] + s.taken)[i] == s.taken[i - 1];
    } else {
      SumNonNegative(q[1..]);
      var rest := [q[0].(amount := q[0].amount - amount)] + q[1..];
      assert forall i :: 1 <= i < |rest| ==> rest[i] == q[i];
    }
  }

  /** Moving the front entry to the result keeps the FIFO shape. */
  lemma FifoSplitCons<M>(q: seq<Entry<M>>, s: Split<M>)
    requires q != [] && IsFifoSplit(q[1..], s)
    ensures IsFifoSplit(q, Split([q[0]] + s.taken, s.rest))
  {
    var t := q[1..];
    var k := |s.taken|;
    var taken := [q[0]] + s.taken;
    assert q[k + 1..] == t[k..];
    if s.taken == t[..k] && s.rest == t[k..] {
      assert taken == q[..k + 1];
    } else {
      assert taken[..k] == [q[0]] + s.taken[..k - 1];
      assert q[..k] == [q[0]] + t[..k - 1];
      assert taken[k] == s.taken[k - 1] && q[k] == t[k - 1];
    }
  }

  /** FIFO order: a take has the shape `IsFifoSplit` describes. */
  lemma {:induction false} TakeIsFifo<M>(q: seq<Entry<M>>, amount: real)
    ensures IsFifoSplit(q, Take(q, amount))
  {
    if amount == 0.0 || q == [] {
      assert q[..0] == [] && q[0..] == q;
    } else if q[0].amount <= amount {
      TakeIsFifo(q[1..], amount - q[0].amount);
      FifoSplitCons(q, Take(q[1..], amount - q[0].amount));
    } else {
      assert q[..0] == [] && q[1..] == q[1..];
    }
  }

  /** Taking `a` and then `b` leaves the queue exactly as taking `a + b` at
      once does, and takes the same balance; only the boundary entry may end
      up in two pieces instead of one. */
  lemma {:induction false} TakeComposes<M>(q: seq<Entry<M>>, a: real, b: real)
    requires a >= 0.0 && b >= 0.0
    ensures var first := Take(q, a);
      var second := Take(first.rest, b);
      var once := Take(q, a + b);
      second.rest == once.rest && Sum(first.taken) + Sum(second.taken) == Sum(once.taken)
  {
    var first := Take(q, a);
    var second := Take(first.rest, b);
    var once := Take(q, a + b);
    if q == [] {
    } else if a == 0.0 {
      assert a + b == b;
    } else if q[0].amount <= a {
      TakeComposes(q[1..], a - q[0].amount, b);
      assert a - q[0].amount + b == a + b - q[0].amount;
    } else if q[0].amount - a <= b {
      var r1 := first.rest;
      assert r1[0].amount == q[0].amount - a && r1[1..] == q[1..];
      if b != 0.0 {
        assert second.rest == Take(q[1..], b - (q[0].amount - a)).rest;
        assert b - (q[0].amount - a) == a + b - q[0].amount;
      }
    }
    TakeConserves(q, a);
    TakeConserves(first.rest, b);
    TakeConserves(q, a + b);
  }
}
