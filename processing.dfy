/** `Ledger` (Ledger.kt): dispatches one event of an account to that
    account's `Monies`, the holdings being created on first use, and keeps the
    two audit lists, `events` for trades that consumed lots and
    `withdrawEvents` for withdrawals to external addresses.

    `ProcessItem` is the specification of one call of `process` on the value
    of the account's holdings; `Ledger.Process` is proved against it. */
module Processing {
  import opened Wrappers
  import opened Entities
  import opened Decimals
  import Fifo
  import LotOrder
  import opened Holdings

  /** `ProcessOrder`: what a trade consumes and what it produces. */
  datatype ProcessOrder = ProcessOrder(takeCurrency: Currency, takeAmount: real, addCurrency: Currency, addAmount: real)

  /** The `error(...)` calls of `process`. */
  datatype Fatal =
    | UnknownRecordType(recordType: FundingType)
    | FeeCurrencyMismatch(fee: Currency, pair: CurrencyPair)
    | UnknownOrderType(orderType: OrderType)

  // ---------------------------------------------------------------------
  // Fee routing

  /** The routing table of a trade, with `counterAmount = originalAmount *
      price` and the fee taken as a magnitude.  The fee currency is compared
      with the counter currency first, so on a pair whose two currencies are
      equal the counter rule applies. */
  function Route(t: UserTrade): (r: Result<ProcessOrder, Fatal>)
    ensures r.Success? <==>
      (t.kind == Ask || t.kind == Bid) && (t.feeCurrency == t.pair.counter || t.feeCurrency == t.pair.base)
    ensures r.Failure? ==>
      r.error == if t.kind == Ask || t.kind == Bid then FeeCurrencyMismatch(t.feeCurrency, t.pair) else UnknownOrderType(t.kind)
    ensures r.Success? && t.kind == Ask ==> r.value.takeCurrency == t.pair.base && r.value.addCurrency == t.pair.counter
    ensures r.Success? && t.kind == Bid ==> r.value.takeCurrency == t.pair.counter && r.value.addCurrency == t.pair.base
  {
    var base := t.pair.base;
    var counter := t.pair.counter;
    var baseAmount := t.originalAmount;
    var counterAmount := t.originalAmount * t.price;
    var fee := Positive(t.feeAmount);
    match t.kind
    case Ask =>
      if t.feeCurrency == counter then Success(ProcessOrder(base, baseAmount, counter, counterAmount - fee))
      else if t.feeCurrency == base then Success(ProcessOrder(base, baseAmount + fee, counter, counterAmount))
      else Failure(FeeCurrencyMismatch(t.feeCurrency, t.pair))
    case Bid =>
      if t.feeCurrency == counter then Success(ProcessOrder(counter, counterAmount + fee, base, baseAmount))
      else if t.feeCurrency == base then Success(ProcessOrder(counter, counterAmount, base, baseAmount - fee))
      else Failure(FeeCurrencyMismatch(t.feeCurrency, t.pair))
    case _ => Failure(UnknownOrderType(t.kind))
  }

  /** The fee is charged once, on the side held in the fee currency: valued
      in the counter currency at the trade's price, what is consumed exceeds
      what is produced by exactly the fee, and the other side moves its gross
      amount.  The four amounts of the routing table are stated outright as
      well, since the valuation says nothing about them at a price of 0. */
  lemma RouteChargesFeeOnce(t: UserTrade)
    requires Route(t).Success?
    ensures var o := Route(t).value;
      var fee := Positive(t.feeAmount);
      var feeValue := if t.feeCurrency == t.pair.counter then fee else fee * t.price;
      (t.kind == Ask ==>
         o.takeAmount * t.price - o.addAmount == feeValue &&
         (if t.feeCurrency == t.pair.counter then o.takeAmount == t.originalAmount
          else o.addAmount == t.originalAmount * t.price)) &&
      (t.kind == Bid ==>
         o.takeAmount - o.addAmount * t.price == feeValue &&
         (if t.feeCurrency == t.pair.counter then o.addAmount == t.originalAmount
          else o.takeAmount == t.originalAmount * t.price))
    ensures var o := Route(t).value;
      var fee := Positive(t.feeAmount);
      var counterAmount := t.originalAmount * t.price;
      (t.kind == Ask && t.feeCurrency == t.pair.counter ==>
         o.takeAmount == t.originalAmount && o.addAmount == counterAmount - fee) &&
      (t.kind == Ask && t.feeCurrency != t.pair.counter ==>
         o.takeAmount == t.originalAmount + fee && o.addAmount == counterAmount) &&
      (t.kind == Bid && t.feeCurrency == t.pair.counter ==>
         o.takeAmount == counterAmount + fee && o.addAmount == t.originalAmount) &&
      (t.kind == Bid && t.feeCurrency != t.pair.counter ==>
         o.takeAmount == counterAmount && o.addAmount == t.originalAmount - fee)
  {
    var fee := Positive(t.feeAmount);
    if t.kind == Ask && t.feeCurrency != t.pair.counter {
      assert (t.originalAmount + fee) * t.price == t.originalAmount * t.price + fee * t.price;
    } else if t.kind == Bid && t.feeCurrency != t.pair.counter {
      assert (t.originalAmount - fee) * t.price == t.originalAmount * t.price - fee * t.price;
    }
  }

  /** An ask of 10 base at a price of 1 with a fee of 0.1 in the base
      currency consumes 10.1 base and produces a lot of 10 counter: the fee
      is added to the side consumed and nothing is deducted from the side
      produced. */
  lemma RouteAskWithBaseFee(pair: CurrencyPair, timestamp: Date)
    requires pair.base != pair.counter
    ensures Route(UserTrade(Ask, 10.0, pair, 1.0, timestamp, 0.1, pair.base))
         == Success(ProcessOrder(pair.base, 10.1, pair.counter, 10.0))
  {
  }

  // ---------------------------------------------------------------------
  // Addresses

  /** `Char.lowercaseChar` on ASCII letters. */
  function LowerChar(ch: char): char {
    if 'A' <= ch <= 'Z' then (ch as int + 32) as char else ch
  }

  /** `toLowerCase`, letter by letter. */
  function Lower(s: string): (r: string)
    ensures |r| == |s|
    ensures forall i :: 0 <= i < |s| ==> r[i] == s[i] || 'A' <= s[i] <= 'Z'
    ensures forall i :: 0 <= i < |s| && 'A' <= s[i] <= 'Z' ==> r[i] as int == s[i] as int + 32
    ensures forall i :: 0 <= i < |r| ==> !('A' <= r[i] <= 'Z')
  {
    seq(|s|, i requires 0 <= i < |s| => LowerChar(s[i]))
  }

  /** Lowering twice is lowering once. */
  lemma LowerIsIdempotent(s: string)
    ensures Lower(Lower(s)) == Lower(s)
  {
    forall i | 0 <= i < |s|
      ensures Lower(Lower(s))[i] == Lower(s)[i]
    {
      assert Lower(s)[i] == LowerChar(s[i]);
    }
  }

  /** The external addresses as the ledger keeps them, lowercased. */
  function LowerAll(addresses: seq<string>): seq<string> {
    seq(|addresses|, i requires 0 <= i < |addresses| => Lower(addresses[i]))
  }

  /** `isExternal`: the lowercased address is among the (lowercased)
      external addresses. */
  function IsExternal(external: seq<string>, address: string): bool {
    Lower(address) in external
  }

  /** The match is case-insensitive: an address is external exactly when it
      equals one of the configured addresses up to the case of its letters,
      so an address and its lowercase form are external together. */
  lemma IsExternalIgnoresCase(addresses: seq<string>, address: string)
    ensures IsExternal(LowerAll(addresses), address)
        <==> exists i :: 0 <= i < |addresses| && Lower(addresses[i]) == Lower(address)
    ensures IsExternal(LowerAll(addresses), Lower(address)) == IsExternal(LowerAll(addresses), address)
  {
    LowerIsIdempotent(address);
    var external := LowerAll(addresses);
    if IsExternal(external, address) {
      var i :| 0 <= i < |external| && external[i] == Lower(address);
      assert Lower(addresses[i]) == Lower(address);
    }
    if exists i :: 0 <= i < |addresses| && Lower(addresses[i]) == Lower(address) {
      var i :| 0 <= i < |addresses| && Lower(addresses[i]) == Lower(address);
      assert external[i] == Lower(address);
    }
  }

  /** `Char.isWhitespace` on the ASCII range: space, tab, line feed, the
      vertical tab, form feed, carriage return and the four separator
      controls. */
  predicate IsWhitespace(ch: char) {
    ch == ' ' || ch == '\t' || ch == '\n' || ch == '\r' || '\U{B}' <= ch <= '\U{C}' || '\U{1C}' <= ch <= '\U{1F}'
  }

  /** `isBlank`: empty or whitespace only. */
  predicate IsBlank(s: string) {
    forall i :: 0 <= i < |s| ==> IsWhitespace(s[i])
  }

  /** The address a withdrawal is matched with: "?" in place of a missing or
      blank address. */
  function AddressOf(address: Option<string>): (r: string)
    ensures !IsBlank(r)
    ensures r == "?" || address == Some(r)
    ensures address.Some? && !IsBlank(address.value) ==> r == address.value
  {
    if address.None? || IsBlank(address.value) then
      assert "?"[0] == '?';
      "?"
    else address.value
  }

  // ---------------------------------------------------------------------
  // One event, on values

  /** What one call of `process` does: the account's holdings afterwards,
      the entries it appends to `events` and `withdrawEvents`, and whether it
      completes or throws. */
  datatype Effect = Effect(after: MoniesState, events: seq<Event>, withdrawals: seq<WithdrawEvent>, outcome: Outcome<Fatal>)

  /** `map[c]`, null when absent. */
  function Lookup<T>(m: map<Currency, T>, c: Currency): Option<T> {
    if c in m then Some(m[c]) else None
  }

  /** `process(fundingRecord)`: a record without an amount is skipped; a
      deposit is credited; a withdrawal is taken, and recorded when its
      address is external; any other record type is fatal. */
  function FundingStep(m: MoniesState, account: Account, external: seq<string>, r: FundingRecord): (e: Effect)
    ensures e.events == [] && |e.withdrawals| <= 1
    ensures e.outcome.Fail? <==> r.amount.Some? && r.kind.OtherFundingType?
    ensures e.outcome.Fail? ==> e.after == m && e.withdrawals == [] && e.outcome.error == UnknownRecordType(r.kind)
    ensures r.amount.None? ==> e == Effect(m, [], [], Pass)
  {
    var address := AddressOf(r.address);
    if r.amount.None? then Effect(m, [], [], Pass)
    else match r.kind
      case Deposit => Effect(WithFunding(m, r), [], [], Pass)
      case Withdrawal =>
        var c := r.currency;
        var t := TakeFrom(m, c, r.amount.value);
        var recorded :=
          if IsExternal(external, address) then
            [WithdrawEvent(account, (Lookup(t.taken.funds, c), Lookup(t.taken.transactions, c)),
                           MakeTransfer(r.amount.value, c, r.date), r.address)]
          else [];
        Effect(t.after, [], recorded, Pass)
      case OtherFundingType(_) => Effect(m, [], [], Fail(UnknownRecordType(r.kind)))
  }

  /** The lot a routed trade produces. */
  function TradeLot(t: UserTrade, o: ProcessOrder): Transaction {
    MakeTransaction(o.addCurrency, o.addAmount, t.price, t.timestamp, t.pair)
  }

  /** `process(userTrade)`: routes the trade (a routing error is fatal before
      anything changes), takes what it consumes, adds the lot it produces,
      and records an `Event` when lots were consumed.  The `Monies` a take
      returns holds the taken currency alone, so the lots of that currency
      are all its lots. */
  function TradeStep(m: MoniesState, account: Account, t: UserTrade): (e: Effect)
    ensures e.withdrawals == [] && |e.events| <= 1
    ensures e.outcome.Fail? <==> Route(t).Failure?
    ensures e.outcome.Fail? ==> e.after == m && e.events == [] && e.outcome.error == Route(t).error
  {
    match Route(t)
    case Failure(err) => Effect(m, [], [], Fail(err))
    case Success(o) =>
      var lot := TradeLot(t, o);
      var taking := TakeFrom(m, o.takeCurrency, o.takeAmount);
      var sources := LotsOf(taking.taken, o.takeCurrency);
      Effect(WithTransaction(taking.after, lot), if sources == [] then [] else [Event(account, sources, lot)], [], Pass)
  }

  /** `process(lendingEvent)`: the net earnings are credited. */
  function LendingStep(m: MoniesState, e: LendingEvent): Effect {
    Effect(WithLending(m, e), [], [], Pass)
  }

  /** `process(exchange, item)`, dispatching on the kind of item.  A call
      appends at most one audit entry, never to both lists, and a fatal
      error leaves the holdings as they were. */
  function ProcessItem(m: MoniesState, account: Account, external: seq<string>, item: Item): (e: Effect)
    ensures |e.events| + |e.withdrawals| <= 1
    ensures e.outcome.Fail? ==> e.after == m && e.events == [] && e.withdrawals == []
    ensures item.LendingItem? ==> e.outcome == Pass
  {
    match item
    case FundingItem(r) => FundingStep(m, account, external, r)
    case TradeItem(t) => TradeStep(m, account, t)
    case LendingItem(l) => LendingStep(m, l)
  }

  // ---------------------------------------------------------------------
  // Properties of one event

  /** A deposit credits `amount - |fee|` (no fee counting as zero) to the
      funds of its currency, as one transfer dated like the record, and
      changes nothing else. */
  lemma DepositCredits(m: MoniesState, account: Account, external: seq<string>, r: FundingRecord)
    requires r.amount.Some? && r.kind == Deposit
    ensures var e := ProcessItem(m, account, external, FundingItem(r));
      var net := r.amount.value - FeeOf(r);
      e.outcome == Pass && e.events == [] && e.withdrawals == [] &&
      FundsOf(e.after, r.currency) == FundsOf(m, r.currency) + [MakeTransfer(net, r.currency, r.date)] &&
      Total(e.after, r.currency) == Total(m, r.currency) + net &&
      e.after.transactions == m.transactions && e.after.errorFunds == m.errorFunds &&
      (forall d :: d != r.currency ==> FundsOf(e.after, d) == FundsOf(m, d))
  {
    var net := r.amount.value - FeeOf(r);
    Fifo.SumConcat(FundsOf(m, r.currency), [MakeTransfer(net, r.currency, r.date)]);
  }

  /** A lending payout credits `earned - |fee|`, undated, and changes nothing
      else. */
  lemma LendingCredits(m: MoniesState, account: Account, external: seq<string>, l: LendingEvent)
    ensures var e := ProcessItem(m, account, external, LendingItem(l));
      var net := l.earned - Positive(l.fee);
      e.outcome == Pass && e.events == [] && e.withdrawals == [] &&
      FundsOf(e.after, l.currency) == FundsOf(m, l.currency) + [MakeTransfer(net, l.currency, None)] &&
      Total(e.after, l.currency) == Total(m, l.currency) + net &&
      e.after.transactions == m.transactions && e.after.errorFunds == m.errorFunds &&
      (forall d :: d != l.currency ==> FundsOf(e.after, d) == FundsOf(m, d))
  {
    var net := l.earned - Positive(l.fee);
    Fifo.SumConcat(FundsOf(m, l.currency), [MakeTransfer(net, l.currency, None)]);
  }

  /** A withdrawal takes its full amount (the fee is not added) and is
      recorded exactly when its address is external; the record carries the
      funds taken, the lots taken when the lots were consulted, the transfer
      withdrawn and the address as given. */
  lemma WithdrawalRecordedIffExternal(m: MoniesState, account: Account, external: seq<string>, r: FundingRecord)
    requires r.amount.Some? && r.kind == Withdrawal
    ensures var e := ProcessItem(m, account, external, FundingItem(r));
      var t := TakeFrom(m, r.currency, r.amount.value);
      e.outcome == Pass && e.events == [] && e.after == t.after &&
      (|e.withdrawals| == 1 <==> IsExternal(external, AddressOf(r.address))) &&
      (|e.withdrawals| == 1 ==>
         e.withdrawals[0].account == account &&
         e.withdrawals[0].sources.0 == Some(FundsOf(t.taken, r.currency)) &&
         e.withdrawals[0].sources.1 == (if r.currency in t.taken.transactions then Some(LotsOf(t.taken, r.currency)) else None) &&
         e.withdrawals[0].withdraw == MakeTransfer(r.amount.value, r.currency, r.date) &&
         e.withdrawals[0].destination == r.address)
  {
    TakeTouchesOnlyItsCurrency(m, r.currency, r.amount.value);
  }

  /** A withdrawal the funds cover debits exactly its amount from the funds
      and leaves the lots and the error bucket alone, so over deposits and
      covered withdrawals the funds balance is what was deposited net of fees
      less what was withdrawn. */
  lemma WithdrawalFromFundsDebits(m: MoniesState, account: Account, external: seq<string>, r: FundingRecord)
    requires r.amount.Some? && r.kind == Withdrawal && r.amount.value >= 0.0
    requires Fifo.NonNegative(FundsOf(m, r.currency)) && Fifo.Sum(FundsOf(m, r.currency)) >= r.amount.value
    ensures var e := ProcessItem(m, account, external, FundingItem(r));
      Fifo.Sum(FundsOf(e.after, r.currency)) == Fifo.Sum(FundsOf(m, r.currency)) - r.amount.value &&
      e.after.transactions == m.transactions && e.after.errorFunds == m.errorFunds
  {
    var c := r.currency;
    TakeUsesFundsFirst(m, c, r.amount.value);
    TakeUnfolds(m, c, r.amount.value);
    Fifo.TakeConserves(FundsOf(m, c), r.amount.value);
    Fifo.TakeWithinBalance(FundsOf(m, c), r.amount.value);
  }

  /** A routed trade takes what it consumes, adds the lot it produces to the
      lots of that lot's currency, and records an `Event` exactly when the
      take returned lots; the event lists those lots and the new one. */
  lemma TradeRecordsEventIffLots(m: MoniesState, account: Account, external: seq<string>, t: UserTrade)
    requires Route(t).Success?
    ensures var o := Route(t).value;
      var e := ProcessItem(m, account, external, TradeItem(t));
      var taking := TakeFrom(m, o.takeCurrency, o.takeAmount);
      var sources := LotsOf(taking.taken, o.takeCurrency);
      e.outcome == Pass && e.withdrawals == [] &&
      e.after == WithTransaction(taking.after, TradeLot(t, o)) &&
      (e.events != [] <==> sources != []) &&
      (e.events != [] ==> e.events == [Event(account, sources, TradeLot(t, o))])
  {
  }

  /** A trade whose consumed amount the funds cover records no event: lots
      are consulted only for what the funds do not supply. */
  lemma TradeFromFundsRecordsNoEvent(m: MoniesState, account: Account, external: seq<string>, t: UserTrade)
    requires Route(t).Success?
    requires var o := Route(t).value;
      o.takeAmount >= 0.0 && Fifo.NonNegative(FundsOf(m, o.takeCurrency)) &&
      Fifo.Sum(FundsOf(m, o.takeCurrency)) >= o.takeAmount
    ensures ProcessItem(m, account, external, TradeItem(t)).events == []
  {
    var o := Route(t).value;
    TakeUsesFundsFirst(m, o.takeCurrency, o.takeAmount);
  }

  /** When a trade consumes one currency and produces another, the produced
      currency gains exactly the new lot. */
  lemma TradeProducesLot(m: MoniesState, account: Account, external: seq<string>, t: UserTrade)
    requires Route(t).Success? && Route(t).value.takeCurrency != Route(t).value.addCurrency
    ensures var o := Route(t).value;
      var e := ProcessItem(m, account, external, TradeItem(t));
      LotsOf(e.after, o.addCurrency) == LotsOf(m, o.addCurrency) + [TradeLot(t, o)] &&
      FundsOf(e.after, o.addCurrency) == FundsOf(m, o.addCurrency) &&
      Total(e.after, o.addCurrency) == Total(m, o.addCurrency) + o.addAmount
  {
    var o := Route(t).value;
    TakeLeavesOtherCurrencies(m, o.takeCurrency, o.takeAmount);
    Fifo.SumConcat(LotsOf(m, o.addCurrency), [TradeLot(t, o)]);
  }

  /** A deposit of 1000 USD, then a bid buying 1 BTC at 500 USD without
      fee: the bid leaves one lot of 1 BTC at 500 and 500 USD of funds, and
      records no event, the funds covering it. */
  lemma DepositThenBuy(a: Account, external: seq<string>, usd: Currency, btc: Currency, d1: Date, d2: Date)
    requires usd != btc
    ensures var pair := CurrencyPair(btc, usd);
      var e1 := ProcessItem(NoMonies, a, external, FundingItem(FundingRecord(None, Some(d1), usd, Some(1000.0), Deposit, None)));
      var e2 := ProcessItem(e1.after, a, external, TradeItem(UserTrade(Bid, 1.0, pair, 500.0, d2, 0.0, usd)));
      LotsOf(e2.after, btc) == [MakeTransaction(btc, 1.0, 500.0, d2, pair)] && FundsOf(e2.after, btc) == [] &&
      Fifo.Sum(FundsOf(e2.after, usd)) == 500.0 && e2.events == []
  {
    var pair := CurrencyPair(btc, usd);
    var deposited := MakeTransfer(1000.0, usd, Some(d1));
    var m1 := ProcessItem(NoMonies, a, external, FundingItem(FundingRecord(None, Some(d1), usd, Some(1000.0), Deposit, None))).after;
    assert FundsOf(m1, usd) == [deposited];
    var buy := UserTrade(Bid, 1.0, pair, 500.0, d2, 0.0, usd);
    assert Route(buy) == Success(ProcessOrder(usd, 500.0, btc, 1.0));
    assert Fifo.Take([deposited], 500.0) == Fifo.Split([deposited.(amount := 500.0)], [deposited.(amount := 500.0)]);
    var m2 := ProcessItem(m1, a, external, TradeItem(buy)).after;
    assert FundsOf(m2, usd) == [deposited.(amount := 500.0)];
  }

  /** Withdrawing, to an external address, exactly the one lot a currency
      holds records a withdrawal that consumed that lot and no funds. */
  lemma WithdrawOneLotExternally(m: MoniesState, a: Account, btc: Currency, lot: Transaction, d3: Date, address: string)
    requires FundsOf(m, btc) == [] && LotsOf(m, btc) == [lot] && lot.amount == 1.0 && !IsBlank(address)
    ensures var e := ProcessItem(m, a, LowerAll([address]), FundingItem(FundingRecord(Some(address), Some(d3), btc, Some(1.0), Withdrawal, None)));
      e.withdrawals == [WithdrawEvent(a, (Some([]), Some([lot])), MakeTransfer(1.0, btc, Some(d3)), Some(address))]
  {
    var external := LowerAll([address]);
    assert external[0] == Lower([address][0]);
    assert IsExternal(external, AddressOf(Some(address)));
    assert LotOrder.SortByTimestamp([lot]) == [lot] by {
      assert [lot][..0] == [];
    }
    assert Fifo.Take([lot], 1.0) == Fifo.Split([lot], []) by {
      assert [lot][1..] == [];
    }
    assert btc in m.transactions && LotsTaken(m, btc, 1.0) == [lot];
    assert Fifo.Sum([lot]) == 1.0;
    assert !Short(m, btc, 1.0);
    TakeUnfolds(m, btc, 1.0);
  }

  /** The two steps together: a deposit of 1000 USD, a bid buying 1 BTC at
      500 USD, and a withdrawal of 1 BTC to an external address, which
      consumes exactly the lot the bid produced. */
  lemma BuyThenWithdrawExternally(a: Account, usd: Currency, btc: Currency, d1: Date, d2: Date, d3: Date, address: string)
    requires usd != btc && !IsBlank(address)
    ensures var external := LowerAll([address]);
      var pair := CurrencyPair(btc, usd);
      var e1 := ProcessItem(NoMonies, a, external, FundingItem(FundingRecord(None, Some(d1), usd, Some(1000.0), Deposit, None)));
      var e2 := ProcessItem(e1.after, a, external, TradeItem(UserTrade(Bid, 1.0, pair, 500.0, d2, 0.0, usd)));
      var e3 := ProcessItem(e2.after, a, external, FundingItem(FundingRecord(Some(address), Some(d3), btc, Some(1.0), Withdrawal, None)));
      var lot := MakeTransaction(btc, 1.0, 500.0, d2, pair);
      e2.events == [] &&
      e3.withdrawals == [WithdrawEvent(a, (Some([]), Some([lot])), MakeTransfer(1.0, btc, Some(d3)), Some(address))]
  {
    var external := LowerAll([address]);
    var pair := CurrencyPair(btc, usd);
    DepositThenBuy(a, external, usd, btc, d1, d2);
    var e1 := ProcessItem(NoMonies, a, external, FundingItem(FundingRecord(None, Some(d1), usd, Some(1000.0), Deposit, None)));
    var e2 := ProcessItem(e1.after, a, external, TradeItem(UserTrade(Bid, 1.0, pair, 500.0, d2, 0.0, usd)));
    WithdrawOneLotExternally(e2.after, a, btc, MakeTransaction(btc, 1.0, 500.0, d2, pair), d3, address);
  }

  // ---------------------------------------------------------------------
  // The object

  class Ledger {
    /** The external addresses, lowercased once at construction. */
    const externalAddresses: seq<string>
    var monies: map<Account, Monies>
    var events: seq<Event>
    var withdrawEvents: seq<WithdrawEvent>

    constructor (externalAddresses: seq<string>)
      ensures this.externalAddresses == LowerAll(externalAddresses)
      ensures monies == map[] && events == [] && withdrawEvents == []
    {
      this.externalAddresses := LowerAll(externalAddresses);
      monies, events, withdrawEvents := map[], [], [];
    }

    /** Each account has a `Monies` of its own. */
    ghost predicate Valid()
      reads this
    {
      forall a, b :: a in monies && b in monies && a != b ==> monies[a] != monies[b]
    }

    /** The holdings of an account; an account not yet seen holds nothing. */
    function MoniesOf(a: Account): MoniesState
      reads this, monies.Values
    {
      if a in monies then monies[a].State() else NoMonies
    }

    /** `monies[exchange] ?: Monies(exchange).also { monies[exchange] = it }`. */
    method MoniesFor(a: Account) returns (m: Monies)
      requires Valid()
      modifies this`monies
      ensures Valid()
      ensures monies == old(monies)[a := m]
      ensures a in old(monies) ==> m == old(monies[a])
      ensures a !in old(monies) ==> fresh(m)
      ensures m.State() == old(MoniesOf(a))
    {
      if a in monies {
        m := monies[a];
      } else {
        m := new Monies();
        monies := monies[a := m];
      }
    }

    /** `process(exchange, item)`: the holdings of the account are created on
        first use, even when the item then turns out to be fatal; only that
        account's holdings change; the audit lists only grow. */
    method Process(a: Account, item: Item) returns (outcome: Outcome<Fatal>)
      requires Valid()
      modifies this, monies.Values
      ensures Valid()
      ensures monies.Keys == old(monies).Keys + {a}
      ensures forall b :: b in old(monies) ==> monies[b] == old(monies[b])
      ensures forall b :: b in old(monies) && b != a ==> monies[b].State() == old(monies[b].State())
      ensures var e := ProcessItem(old(MoniesOf(a)), a, externalAddresses, item);
        monies[a].State() == e.after && outcome == e.outcome &&
        events == old(events) + e.events && withdrawEvents == old(withdrawEvents) + e.withdrawals
    {
      var m := MoniesFor(a);
      ghost var accounts := monies;
      assert forall b :: b in accounts && b != a ==> accounts[b] != m;
      outcome := Dispatch(a, item, m);
      assert monies == accounts;
    }

    /** The `when` over the item's class, on the holdings of the account. */
    method Dispatch(a: Account, item: Item, m: Monies) returns (outcome: Outcome<Fatal>)
      modifies this`events, this`withdrawEvents, m
      ensures var e := ProcessItem(old(m.State()), a, externalAddresses, item);
        m.State() == e.after && outcome == e.outcome &&
        events == old(events) + e.events && withdrawEvents == old(withdrawEvents) + e.withdrawals
    {
      match item
      case FundingItem(r) =>
        outcome := ProcessFunding(a, r, m);
      case TradeItem(t) =>
        outcome := ProcessTrade(a, t, m);
      case LendingItem(l) =>
        m.AddLending(l);
        outcome := Pass;
    }

    /** `process(exchange, fundingRecord, monies)`. */
    method ProcessFunding(a: Account, r: FundingRecord, m: Monies) returns (outcome: Outcome<Fatal>)
      modifies this`withdrawEvents, m
      ensures var e := FundingStep(old(m.State()), a, externalAddresses, r);
        m.State() == e.after && outcome == e.outcome && withdrawEvents == old(withdrawEvents) + e.withdrawals
    {
      var address := AddressOf(r.address);
      if r.amount.None? {
        return Pass;
      }
      match r.kind
      case Deposit =>
        m.AddFunding(r);
        outcome := Pass;
      case Withdrawal =>
        var withdrawal := m.Take(r.currency, r.amount.value);
        if IsExternal(externalAddresses, address) {
          var sources := (Lookup(withdrawal.funds, r.currency), Lookup(withdrawal.transactions, r.currency));
          withdrawEvents := withdrawEvents + [WithdrawEvent(a, sources, MakeTransfer(r.amount.value, r.currency, r.date), r.address)];
        }
        outcome := Pass;
      case OtherFundingType(_) =>
        outcome := Fail(UnknownRecordType(r.kind));
    }

    /** `process(exchange, userTrade, monies)`. */
    method ProcessTrade(a: Account, t: UserTrade, m: Monies) returns (outcome: Outcome<Fatal>)
      modifies this`events, m
      ensures var e := TradeStep(old(m.State()), a, t);
        m.State() == e.after && outcome == e.outcome && events == old(events) + e.events
    {
      var order := Route(t);
      if order.Failure? {
        return Fail(order.error);
      }
      var o := order.value;
      var lot := MakeTransaction(o.addCurrency, o.addAmount, t.price, t.timestamp, t.pair);
      var source := m.Take(o.takeCurrency, o.takeAmount);
      m.AddTransaction(lot);
      var sources := if o.takeCurrency in source.transactions then source.transactions[o.takeCurrency] else [];
      if sources != [] {
        events := events + [Event(a, sources, lot)];
      }
      outcome := Pass;
    }
  }
}
