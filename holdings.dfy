/** `Monies` (Ledger.kt): everything one account holds, per currency — the
    uncommitted funds, the cost-basis lots, and an error bucket of funds that
    records shortfalls.  All three maps are filled lazily.

    `MoniesState` is the value of a `Monies` object; the functions over it are
    the specification the class's methods are proved against. */
module Holdings {
  import opened Wrappers
  import opened Entities
  import opened Decimals
  import Fifo
  import LotOrder

  datatype MoniesState = MoniesState(
    funds: map<Currency, seq<Transfer>>,
    transactions: map<Currency, seq<Transaction>>,
    errorFunds: map<Currency, seq<Transfer>>)

  const NoMonies := MoniesState(map[], map[], map[])

  function FundsOf(m: MoniesState, c: Currency): seq<Transfer> {
    if c in m.funds then m.funds[c] else []
  }

  function LotsOf(m: MoniesState, c: Currency): seq<Transaction> {
    if c in m.transactions then m.transactions[c] else []
  }

  function ErrorsOf(m: MoniesState, c: Currency): seq<Transfer> {
    if c in m.errorFunds then m.errorFunds[c] else []
  }

  /** The funds and lots of one currency together. */
  function Total(m: MoniesState, c: Currency): real {
    Fifo.Sum(FundsOf(m, c)) + Fifo.Sum(LotsOf(m, c))
  }

  /** The undated transfer a shortfall is recorded as. */
  function Undated(amount: real, c: Currency): Transfer {
    MakeTransfer(amount, c, None)
  }

  /** The state after a take, and the `Monies` the take returns. */
  datatype Taking = Taking(after: MoniesState, taken: MoniesState)

  /** `Monies.take(currency, amount)`: funds first, then lots.  When an amount
      is still owed after the funds and there are no lots of the currency, or
      the test `|lots taken| - |still owed| > 0.000001` holds, the amount still
      owed is deposited, undated, both into the error bucket and into the
      funds returned. */
  function TakeFrom(m: MoniesState, c: Currency, amount: real): Taking {
    var fromFunds := Fifo.Take(FundsOf(m, c), amount);
    TakeRemainder(m.(funds := m.funds[c := fromFunds.rest]), c, fromFunds.taken, amount - Fifo.Sum(fromFunds.taken))
  }

  /** The rest of a take once the funds have supplied `fromFunds` and `owed`
      is still owed; `m` already holds what the funds keep. */
  function TakeRemainder(m: MoniesState, c: Currency, fromFunds: seq<Transfer>, owed: real): Taking {
    if owed == 0.0 then
      Taking(m, MoniesState(map[c := fromFunds], map[], map[]))
    else
      var lots := LotsTaken(m, c, owed);
      if Short(m, c, owed) then
        Taking(WithShortfall(AfterLots(m, c, owed), c, owed),
               MoniesState(map[c := fromFunds + [Undated(owed, c)]], map[c := lots], map[]))
      else
        Taking(AfterLots(m, c, owed), MoniesState(map[c := fromFunds], map[c := lots], map[]))
  }

  /** The lots step of a take: the lots of `c`, sorted, consumed from the
      front, when there is a lots entry for `c`. */
  function LotsSplit(m: MoniesState, c: Currency, owed: real): Option<Fifo.Split<LotInfo>> {
    if c in m.transactions then Some(Fifo.Take(LotOrder.SortByTimestamp(m.transactions[c]), owed)) else None
  }

  function AfterLots(m: MoniesState, c: Currency, owed: real): MoniesState {
    var s := LotsSplit(m, c, owed);
    if s.Some? then m.(transactions := m.transactions[c := s.value.rest]) else m
  }

  function LotsTaken(m: MoniesState, c: Currency, owed: real): seq<Transaction> {
    var s := LotsSplit(m, c, owed);
    if s.Some? then s.value.taken else []
  }

  /** The shortfall test of a take, as the code writes it. */
  predicate Short(m: MoniesState, c: Currency, owed: real) {
    LotsSplit(m, c, owed).None? || Diff(Fifo.Sum(LotsTaken(m, c, owed)), owed) > Tolerance
  }

  /** An undated deposit of `owed` into the error bucket of `c`. */
  function WithShortfall(m: MoniesState, c: Currency, owed: real): MoniesState {
    m.(errorFunds := m.errorFunds[c := ErrorsOf(m, c) + [Undated(owed, c)]])
  }

  /** `fundsFor(c).deposit(amount, date)`. */
  function Deposited(m: MoniesState, c: Currency, amount: real, date: Option<Date>): (r: MoniesState)
    ensures r.transactions == m.transactions && r.errorFunds == m.errorFunds
    ensures r.funds.Keys == m.funds.Keys + {c}
    ensures FundsOf(r, c) == FundsOf(m, c) + [MakeTransfer(amount, c, date)]
    ensures forall d :: d != c ==> FundsOf(r, d) == FundsOf(m, d)
  {
    m.(funds := m.funds[c := FundsOf(m, c) + [MakeTransfer(amount, c, date)]])
  }

  /** The fee of a funding record; an absent fee counts as zero. */
  function FeeOf(r: FundingRecord): real {
    if r.fee.Some? then Positive(r.fee.value) else 0.0
  }

  /** `add(fundingRecord)`: deposits `amount - |fee|` with the record's date. */
  function WithFunding(m: MoniesState, r: FundingRecord): MoniesState
    requires r.amount.Some?
  {
    Deposited(m, r.currency, r.amount.value - FeeOf(r), r.date)
  }

  /** `add(lendingEvent)`: deposits `earned - |fee|`, undated. */
  function WithLending(m: MoniesState, e: LendingEvent): MoniesState {
    Deposited(m, e.currency, e.earned - Positive(e.fee), None)
  }

  /** `add(transaction)`: appends the lot to the lots of its currency. */
  function WithTransaction(m: MoniesState, t: Transaction): (r: MoniesState)
    ensures r.funds == m.funds && r.errorFunds == m.errorFunds
    ensures r.transactions.Keys == m.transactions.Keys + {t.info.currency}
    ensures LotsOf(r, t.info.currency) == LotsOf(m, t.info.currency) + [t]
    ensures forall d :: d != t.info.currency ==> LotsOf(r, d) == LotsOf(m, d)
  {
    var c := t.info.currency;
    m.(transactions := m.transactions[c := LotsOf(m, c) + [t]])
  }

  /** `add(transactions)`: each lot in turn. */
  function WithTransactions(m: MoniesState, ts: seq<Transaction>): MoniesState
    decreases |ts|
  {
    if ts == [] then m else WithTransaction(WithTransactions(m, ts[..|ts| - 1]), ts[|ts| - 1])
  }

  /** The lots of `ts` in currency `c`, in list order. */
  function LotsIn(ts: seq<Transaction>, c: Currency): seq<Transaction>
    decreases |ts|
  {
    if ts == [] then []
    else LotsIn(ts[..|ts| - 1], c) + (if ts[|ts| - 1].info.currency == c then [ts[|ts| - 1]] else [])
  }

  /** Adding a list of lots appends, to each currency's lots, the list's lots
      of that currency in list order; funds and errors do not change. */
  lemma {:induction false} WithTransactionsAppends(m: MoniesState, ts: seq<Transaction>)
    ensures var r := WithTransactions(m, ts);
      r.funds == m.funds && r.errorFunds == m.errorFunds &&
      forall c :: LotsOf(r, c) == LotsOf(m, c) + LotsIn(ts, c)
  {
    if ts != [] {
      var init, last := ts[..|ts| - 1], ts[|ts| - 1];
      WithTransactionsAppends(m, init);
      var w := WithTransactions(m, init);
      forall c
        ensures LotsOf(WithTransactions(m, ts), c) == LotsOf(m, c) + LotsIn(ts, c)
      {
        if c == last.info.currency {
          assert LotsOf(WithTransactions(m, ts), c) == LotsOf(w, c) + [last];
          assert LotsIn(ts, c) == LotsIn(init, c) + [last];
        } else {
          assert LotsIn(ts, c) == LotsIn(init, c) + [];
        }
      }
    }
  }

  function Balances<M>(queues: map<Currency, seq<Fifo.Entry<M>>>): map<Currency, real> {
    map c | c in queues :: Fifo.Sum(queues[c])
  }

  /** `mergeReduce` with addition: every key of either map; the sum where
      both have one. */
  function MergeAdd(a: map<Currency, real>, b: map<Currency, real>): (r: map<Currency, real>)
    ensures r.Keys == a.Keys + b.Keys
    ensures forall c :: c in r ==> r[c] == (if c in a then a[c] else 0.0) + (if c in b then b[c] else 0.0)
  {
    map c | c in a.Keys + b.Keys :: if c in a && c in b then a[c] + b[c] else if c in a then a[c] else b[c]
  }

  /** `balance`: the combined balance of funds and lots, per currency. */
  function CombinedBalance(m: MoniesState): (r: map<Currency, real>)
    ensures r.Keys == m.funds.Keys + m.transactions.Keys
    ensures forall c :: c in r ==> r[c] == Total(m, c)
  {
    MergeAdd(Balances(m.funds), Balances(m.transactions))
  }

  // ---------------------------------------------------------------------
  // Properties of a take

  /** The rest of a take, map by map, once the funds have supplied
      `fromFunds` and `owed` is still owed. */
  lemma RemainderUnfolds(m: MoniesState, c: Currency, fromFunds: seq<Transfer>, owed: real)
    ensures var t := TakeRemainder(m, c, fromFunds, owed);
      var short := owed != 0.0 && Short(m, c, owed);
      t.after.funds == m.funds &&
      t.after.transactions
        == (if owed != 0.0 && c in m.transactions then m.transactions[c := LotsSplit(m, c, owed).value.rest] else m.transactions) &&
      t.after.errorFunds
        == (if short then m.errorFunds[c := ErrorsOf(m, c) + [Undated(owed, c)]] else m.errorFunds) &&
      t.taken.funds == map[c := if short then fromFunds + [Undated(owed, c)] else fromFunds] &&
      t.taken.transactions == (if owed != 0.0 then map[c := LotsTaken(m, c, owed)] else map[]) &&
      t.taken.errorFunds == map[]
  {
    if owed != 0.0 && Short(m, c, owed) {
      var a := AfterLots(m, c, owed);
      assert a.funds == m.funds && a.errorFunds == m.errorFunds;
    }
  }

  /** A take, map by map: the funds entry of the currency is replaced by
      what the funds keep; the lots entry, when there is one and something is
      still owed, by what the lots keep; the error bucket grows only on a
      shortfall; the `Monies` returned holds the currency alone. */
  lemma TakeUnfolds(m: MoniesState, c: Currency, amount: real)
    ensures var t := TakeFrom(m, c, amount);
      var ff := Fifo.Take(FundsOf(m, c), amount);
      var owed := amount - Fifo.Sum(ff.taken);
      var short := owed != 0.0 && Short(m, c, owed);
      t.after.funds == m.funds[c := ff.rest] &&
      t.after.transactions
        == (if owed != 0.0 && c in m.transactions then m.transactions[c := LotsSplit(m, c, owed).value.rest] else m.transactions) &&
      t.after.errorFunds
        == (if short then m.errorFunds[c := ErrorsOf(m, c) + [Undated(owed, c)]] else m.errorFunds) &&
      t.taken.funds == map[c := if short then ff.taken + [Undated(owed, c)] else ff.taken] &&
      t.taken.transactions == (if owed != 0.0 then map[c := LotsTaken(m, c, owed)] else map[]) &&
      t.taken.errorFunds == map[]
  {
    var ff := Fifo.Take(FundsOf(m, c), amount);
    var owed := amount - Fifo.Sum(ff.taken);
    var m1 := m.(funds := m.funds[c := ff.rest]);
    assert TakeFrom(m, c, amount) == TakeRemainder(m1, c, ff.taken, owed);
    assert m1.transactions == m.transactions && m1.errorFunds == m.errorFunds;
    assert LotsSplit(m1, c, owed) == LotsSplit(m, c, owed);
    assert LotsTaken(m1, c, owed) == LotsTaken(m, c, owed);
    assert Short(m1, c, owed) == Short(m, c, owed);
    assert ErrorsOf(m1, c) == ErrorsOf(m, c);
    RemainderUnfolds(m1, c, ff.taken, owed);
  }

  /** A take creates the funds entry of its currency and no other entry;
      the `Monies` it returns holds that currency alone. */
  lemma TakeTouchesOnlyItsCurrency(m: MoniesState, c: Currency, amount: real)
    ensures var t := TakeFrom(m, c, amount);
      t.after.funds.Keys == m.funds.Keys + {c} &&
      t.after.transactions.Keys == m.transactions.Keys &&
      t.after.errorFunds.Keys <= m.errorFunds.Keys + {c} &&
      t.taken.funds.Keys == {c} && t.taken.transactions.Keys <= {c} && t.taken.errorFunds == map[]
  {
    TakeUnfolds(m, c, amount);
  }

  /** A take changes no other currency's funds, lots or error bucket. */
  lemma TakeLeavesOtherCurrencies(m: MoniesState, c: Currency, amount: real)
    ensures var t := TakeFrom(m, c, amount);
      forall d :: d != c ==>
        FundsOf(t.after, d) == FundsOf(m, d) && LotsOf(t.after, d) == LotsOf(m, d) && ErrorsOf(t.after, d) == ErrorsOf(m, d)
  {
    TakeUnfolds(m, c, amount);
    var t := TakeFrom(m, c, amount);
    var ff := Fifo.Take(FundsOf(m, c), amount);
    var owed := amount - Fifo.Sum(ff.taken);
    var short := owed != 0.0 && Short(m, c, owed);
    var lots := if owed != 0.0 && c in m.transactions then Some(LotsSplit(m, c, owed).value.rest) else None;
    var errors := if short then Some(ErrorsOf(m, c) + [Undated(owed, c)]) else None;
    assert t.after == UpdatedAt(m, c, ff.rest, lots, errors);
  }

  /** `m` with the funds of `c` replaced, and its lots and error bucket
      replaced when a new value is given. */
  function UpdatedAt(m: MoniesState, c: Currency, funds: seq<Transfer>,
                     lots: Option<seq<Transaction>>, errors: Option<seq<Transfer>>): (n: MoniesState)
    ensures forall d :: d != c ==>
      FundsOf(n, d) == FundsOf(m, d) && LotsOf(n, d) == LotsOf(m, d) && ErrorsOf(n, d) == ErrorsOf(m, d)
  {
    MoniesState(m.funds[c := funds],
                if lots.Some? then m.transactions[c := lots.value] else m.transactions,
                if errors.Some? then m.errorFunds[c := errors.value] else m.errorFunds)
  }

  /** Funds first: the lots are consulted, and a lots entry returned, exactly
      when the funds of the currency do not cover the amount; when they do,
      neither the lots nor the error bucket change. */
  lemma TakeUsesFundsFirst(m: MoniesState, c: Currency, amount: real)
    requires amount >= 0.0 && Fifo.NonNegative(FundsOf(m, c))
    ensures var t := TakeFrom(m, c, amount);
      (t.taken.transactions == map[] <==> Fifo.Sum(FundsOf(m, c)) >= amount) &&
      (Fifo.Sum(FundsOf(m, c)) >= amount ==>
         t.after.transactions == m.transactions && t.after.errorFunds == m.errorFunds)
  {
    Fifo.TakeWithinBalance(FundsOf(m, c), amount);
    var ff := Fifo.Take(FundsOf(m, c), amount);
    var owed := amount - Fifo.Sum(ff.taken);
    if owed != 0.0 {
      assert c in TakeFrom(m, c, amount).taken.transactions;
    }
  }

  /** Under nonnegative amounts the lots never supply more than is still
      owed after the funds. */
  lemma LotsWithinOwed(m: MoniesState, c: Currency, owed: real)
    requires owed >= 0.0 && c in m.transactions && Fifo.NonNegative(LotsOf(m, c))
    ensures 0.0 <= Fifo.Sum(LotsTaken(m, c, owed)) == Min(owed, Fifo.Sum(LotsOf(m, c)))
  {
    var sorted := LotOrder.SortByTimestamp(m.transactions[c]);
    LotOrder.SortKeepsAmounts(m.transactions[c]);
    Fifo.TakeWithinBalance(sorted, owed);
    Fifo.SumNonNegative(Fifo.Take(sorted, owed).taken);
  }

  /** The shortfall test cannot fire on its second disjunct: for nonnegative
      amounts and lots, the lots never supply more than is still owed.  So a
      shortfall is recorded exactly when the funds fall short and there is no
      lots entry for the currency. */
  lemma ShortfallOnlyWithoutLots(m: MoniesState, c: Currency, amount: real)
    requires amount >= 0.0 && Fifo.NonNegative(FundsOf(m, c)) && Fifo.NonNegative(LotsOf(m, c))
    ensures var t := TakeFrom(m, c, amount);
      var owed := amount - Fifo.Sum(FundsOf(m, c));
      ErrorsOf(t.after, c)
        == ErrorsOf(m, c) + (if owed > 0.0 && c !in m.transactions then [Undated(owed, c)] else [])
  {
    TakeUnfolds(m, c, amount);
    var t := TakeFrom(m, c, amount);
    var ff := Fifo.Take(FundsOf(m, c), amount);
    Fifo.TakeWithinBalance(FundsOf(m, c), amount);
    var owed := amount - Fifo.Sum(ff.taken);
    assert owed > 0.0 <==> amount - Fifo.Sum(FundsOf(m, c)) > 0.0;
    if owed == 0.0 {
      assert t.after.errorFunds == m.errorFunds;
    } else if c in m.transactions {
      LotsWithinOwed(m, c, owed);
      assert !Short(m, c, owed);
      assert t.after.errorFunds == m.errorFunds;
    } else {
      assert owed == amount - Fifo.Sum(FundsOf(m, c));
      assert Short(m, c, owed);
      assert ErrorsOf(t.after, c) == ErrorsOf(m, c) + [Undated(owed, c)];
    }
    assert ErrorsOf(m, c) + [] == ErrorsOf(m, c);
  }

  /** Conservation for the lots step and the shortfall: the lots held, the
      errors recorded and the funds already taken add up to what is left and
      what is returned. */
  lemma RemainderConserves(m: MoniesState, c: Currency, fromFunds: seq<Transfer>, owed: real)
    ensures var t := TakeRemainder(m, c, fromFunds, owed);
      Fifo.Sum(LotsOf(m, c)) + Fifo.Sum(ErrorsOf(t.after, c)) + Fifo.Sum(fromFunds)
        == Fifo.Sum(LotsOf(t.after, c)) + Total(t.taken, c) + Fifo.Sum(ErrorsOf(m, c))
      && FundsOf(t.after, c) == FundsOf(m, c)
  {
    RemainderUnfolds(m, c, fromFunds, owed);
    if owed != 0.0 {
      var u := Undated(owed, c);
      if c in m.transactions {
        var sorted := LotOrder.SortByTimestamp(m.transactions[c]);
        LotOrder.SortKeepsAmounts(m.transactions[c]);
        Fifo.TakeConserves(sorted, owed);
      }
      if Short(m, c, owed) {
        Fifo.SumConcat(ErrorsOf(m, c), [u]);
        Fifo.SumConcat(fromFunds, [u]);
      }
    }
  }

  /** Conservation: what the currency held, plus what the take recorded in
      the error bucket, is what it holds afterwards plus what was returned. */
  lemma TakeConserves(m: MoniesState, c: Currency, amount: real)
    ensures var t := TakeFrom(m, c, amount);
      Total(m, c) + Fifo.Sum(ErrorsOf(t.after, c))
        == Total(t.after, c) + Total(t.taken, c) + Fifo.Sum(ErrorsOf(m, c))
  {
    var ff := Fifo.Take(FundsOf(m, c), amount);
    var owed := amount - Fifo.Sum(ff.taken);
    var m1 := m.(funds := m.funds[c := ff.rest]);
    Fifo.TakeConserves(FundsOf(m, c), amount);
    assert TakeFrom(m, c, amount) == TakeRemainder(m1, c, ff.taken, owed);
    assert LotsOf(m1, c) == LotsOf(m, c) && ErrorsOf(m1, c) == ErrorsOf(m, c) && FundsOf(m1, c) == ff.rest;
    RemainderConserves(m1, c, ff.taken, owed);
  }

  /** What a take returns: with lots of the currency on hand, the smaller of
      the amount and the holdings; without, the full amount, the part that
      had no backing being the recorded shortfall. */
  lemma TakeSupplies(m: MoniesState, c: Currency, amount: real)
    requires amount >= 0.0 && Fifo.NonNegative(FundsOf(m, c)) && Fifo.NonNegative(LotsOf(m, c))
    ensures var t := TakeFrom(m, c, amount);
      Total(t.taken, c) == if c in m.transactions then Min(amount, Total(m, c)) else amount
  {
    TakeUnfolds(m, c, amount);
    var ff := Fifo.Take(FundsOf(m, c), amount);
    Fifo.TakeWithinBalance(FundsOf(m, c), amount);
    Fifo.SumNonNegative(LotsOf(m, c));
    var owed := amount - Fifo.Sum(ff.taken);
    Fifo.SumConcat(ff.taken, [Undated(owed, c)]);
    if owed != 0.0 && c in m.transactions {
      LotsWithinOwed(m, c, owed);
    }
  }

  /** A shortfall that the lots only partly cover is not recorded: with no
      funds and one lot of 5, a take of 10 returns 5 and leaves the error
      bucket empty, because the test compares |5| - |10| with the
      tolerance. */
  lemma LotShortfallNotRecorded(c: Currency, info: LotInfo)
    ensures var m := MoniesState(map[], map[c := [Fifo.Entry(5.0, info)]], map[]);
      var t := TakeFrom(m, c, 10.0);
      Total(t.taken, c) == 5.0 && t.after.errorFunds == map[]
  {
    var lot := Fifo.Entry(5.0, info);
    var m := MoniesState(map[], map[c := [lot]], map[]);
    assert LotOrder.SortByTimestamp([lot]) == [lot] by {
      assert [lot][..0] == [];
    }
    assert Fifo.Take([lot], 10.0) == Fifo.Split([lot], []) by {
      assert [lot][1..] == [];
    }
    assert Fifo.Sum([lot]) == 5.0;
  }

  // ---------------------------------------------------------------------
  // The object

  /** An account's holdings.  Each queue is kept as the value it holds, the
      map entry being replaced where `Funds` and `Transactions` objects are
      updated in place. */
  class Monies {
    var funds: map<Currency, seq<Transfer>>
    var transactions: map<Currency, seq<Transaction>>
    var errorFunds: map<Currency, seq<Transfer>>

    function State(): MoniesState
      reads this
    {
      MoniesState(funds, transactions, errorFunds)
    }

    constructor ()
      ensures State() == NoMonies
    {
      funds, transactions, errorFunds := map[], map[], map[];
    }

    /** The `Monies` a take returns. */
    constructor Taken(funds: map<Currency, seq<Transfer>>, transactions: map<Currency, seq<Transaction>>)
      ensures State() == MoniesState(funds, transactions, map[])
    {
      this.funds, this.transactions, errorFunds := funds, transactions, map[];
    }

    /** `fundsFor`: the funds of `c`, the entry created empty on first use. */
    method FundsFor(c: Currency) returns (queue: seq<Transfer>)
      modifies this
      ensures queue == FundsOf(old(State()), c)
      ensures State() == old(State()).(funds := old(funds)[c := queue])
    {
      if c !in funds {
        funds := funds[c := []];
      }
      queue := funds[c];
    }

    /** `errorFundsFor`: the error bucket of `c`, created empty on first use. */
    method ErrorFundsFor(c: Currency) returns (queue: seq<Transfer>)
      modifies this
      ensures queue == ErrorsOf(old(State()), c)
      ensures State() == old(State()).(errorFunds := old(errorFunds)[c := queue])
    {
      if c !in errorFunds {
        errorFunds := errorFunds[c := []];
      }
      queue := errorFunds[c];
    }

    /** `transactionsFor`: the lots of `c`, the entry created empty on first use. */
    method TransactionsFor(c: Currency) returns (queue: seq<Transaction>)
      modifies this
      ensures queue == LotsOf(old(State()), c)
      ensures State() == old(State()).(transactions := old(transactions)[c := queue])
    {
      if c !in transactions {
        transactions := transactions[c := []];
      }
      queue := transactions[c];
    }

    /** `take(currency, amount)`, as `TakeFrom` specifies it. */
    method Take(c: Currency, amount: real) returns (r: Monies)
      modifies this
      ensures fresh(r)
      ensures State() == TakeFrom(old(State()), c, amount).after
      ensures r.State() == TakeFrom(old(State()), c, amount).taken
    {
      ghost var m := State();
      var queue := FundsFor(c);
      var fundsTaken, fundsLeft := Fifo.TakeFront(queue, amount);
      funds := funds[c := fundsLeft];
      ghost var m1 := State();
      assert m1 == m.(funds := m.funds[c := fundsLeft]);
      var takenBalance := Fifo.SumBy(fundsTaken);
      var remaining := amount - takenBalance;
      assert TakeFrom(m, c, amount) == TakeRemainder(m1, c, fundsTaken, remaining);
      r := TakeRemaining(c, fundsTaken, remaining);
    }

    /** The part of `take` after the funds: with nothing owed, a `Monies` of
        the funds taken; otherwise the lots step and the shortfall test. */
    method TakeRemaining(c: Currency, fundsTaken: seq<Transfer>, remaining: real) returns (r: Monies)
      modifies this
      ensures fresh(r)
      ensures State() == TakeRemainder(old(State()), c, fundsTaken, remaining).after
      ensures r.State() == TakeRemainder(old(State()), c, fundsTaken, remaining).taken
    {
      if remaining == 0.0 {
        r := new Monies.Taken(map[c := fundsTaken], map[]);
        return;
      }
      var short, lots := TakeLots(c, remaining);
      var returned := fundsTaken;
      if short {
        RecordShortfall(c, remaining);
        returned := fundsTaken + [Undated(remaining, c)];
      }
      r := new Monies.Taken(map[c := returned], map[c := lots]);
    }

    /** The lots step of a take: `transactions[c]?.take(owed)`, and the
        shortfall test on its result. */
    method TakeLots(c: Currency, owed: real) returns (short: bool, lots: seq<Transaction>)
      modifies this
      ensures State() == AfterLots(old(State()), c, owed)
      ensures lots == LotsTaken(old(State()), c, owed)
      ensures short == Short(old(State()), c, owed)
    {
      if c !in transactions {
        return true, [];
      }
      var sorted := LotOrder.SortByTimestamp(transactions[c]);
      var rest;
      lots, rest := Fifo.TakeFront(sorted, owed);
      transactions := transactions[c := rest];
      var lotsBalance := Fifo.SumBy(lots);
      short := Diff(lotsBalance, owed) > Tolerance;
    }

    /** `errorFundsFor(c).deposit(remaining, null)`: the shortfall of a take. */
    method RecordShortfall(c: Currency, remaining: real)
      modifies this
      ensures State() == WithShortfall(old(State()), c, remaining)
    {
      var bucket := ErrorFundsFor(c);
      errorFunds := errorFunds[c := bucket + [Undated(remaining, c)]];
    }

    /** `fundsFor(c).deposit(amount, date)`. */
    method DepositInto(c: Currency, amount: real, date: Option<Date>)
      modifies this
      ensures State() == Deposited(old(State()), c, amount, date)
    {
      var queue := FundsFor(c);
      funds := funds[c := queue + [MakeTransfer(amount, c, date)]];
    }

    /** `add(fundingRecord)`: called only with a record whose amount is set. */
    method AddFunding(record: FundingRecord)
      requires record.amount.Some?
      modifies this
      ensures State() == WithFunding(old(State()), record)
    {
      DepositInto(record.currency, record.amount.value - FeeOf(record), record.date);
    }

    /** `add(lendingEvent)`. */
    method AddLending(event: LendingEvent)
      modifies this
      ensures State() == WithLending(old(State()), event)
    {
      DepositInto(event.currency, event.earned - Positive(event.fee), None);
    }

    /** `add(transaction)`. */
    method AddTransaction(t: Transaction)
      modifies this
      ensures State() == WithTransaction(old(State()), t)
    {
      var queue := TransactionsFor(t.info.currency);
      transactions := transactions[t.info.currency := queue + [t]];
    }

    /** `add(transactions)`: the `forEach` loop. */
    method AddTransactions(ts: seq<Transaction>)
      modifies this
      ensures State() == WithTransactions(old(State()), ts)
    {
      for i := 0 to |ts|
        invariant State() == WithTransactions(old(State()), ts[..i])
      {
        assert ts[..i + 1][..i] == ts[..i];
        AddTransaction(ts[i]);
      }
      assert ts[..|ts|] == ts;
    }
  }
}
