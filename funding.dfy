/** The two FIFO queues of Ledger.kt: `Funds`, the transfers of one currency
    not yet attributed to a trade, and `Transactions`, the cost-basis lots of
    one currency.  Both are updated in place; `take` removes entries from the
    front, splits the front entry when it is larger than what is still owed,
    and returns what it removed as a new queue of the same currency. */
module Funding {
  import opened Wrappers
  import opened Entities
  import Fifo
  import LotOrder

  /** Why `Funds.add` refuses: the two queues hold different currencies. */
  datatype AddError = CurrencyMismatch(mine: Currency, theirs: Currency)

  class Funds {
    const currency: Currency
    var funding: seq<Transfer>
    var error: real

    constructor (currency: Currency, funding: seq<Transfer>)
      ensures this.currency == currency && this.funding == funding && error == 0.0
    {
      this.currency := currency;
      this.funding := funding;
      error := 0.0;
    }

    /** `balance`: the sum of the amounts queued. */
    function Balance(): real
      reads this
    {
      Fifo.Sum(funding)
    }

    /** `deposit`: appends one transfer of this currency, and nothing else. */
    method Deposit(amount: real, date: Option<Date>)
      modifies this`funding
      ensures funding == old(funding) + [MakeTransfer(amount, currency, date)]
    {
      funding := funding + [MakeTransfer(amount, currency, date)];
    }

    /** `add`: requires the same currency; appends the other queue's
        transfers and adds its error amount. */
    method Add(funds: Funds) returns (outcome: Outcome<AddError>)
      modifies this
      ensures outcome == if currency == funds.currency then Pass else Fail(CurrencyMismatch(currency, funds.currency))
      ensures outcome.Pass? ==> funding == old(funding) + old(funds.funding) && error == old(error) + old(funds.error)
      ensures outcome.Fail? ==> funding == old(funding) && error == old(error)
    {
      if currency != funds.currency {
        return Fail(CurrencyMismatch(currency, funds.currency));
      }
      var more, extra := funds.funding, funds.error;
      funding := funding + more;
      error := error + extra;
      outcome := Pass;
    }

    /** `take`: consumes `amount` from the front of the queue.  There is no
        guard on the sign of `amount`; the loop stops when nothing more is owed
        or the queue is empty. */
    method Take(amount: real) returns (taken: Funds)
      modifies this`funding
      ensures fresh(taken) && taken.currency == currency && taken.error == 0.0
      ensures Fifo.Take(old(funding), amount) == Fifo.Split(taken.funding, funding)
    {
      var took, rest := Fifo.TakeFront(funding, amount);
      funding := rest;
      taken := new Funds(currency, took);
    }
  }

  class Transactions {
    const currency: Currency
    var transactions: seq<Transaction>

    constructor (currency: Currency, transactions: seq<Transaction>)
      ensures this.currency == currency && this.transactions == transactions
    {
      this.currency := currency;
      this.transactions := transactions;
    }

    /** `balance`: the sum of the amounts of the lots. */
    function Balance(): real
      reads this
    {
      Fifo.Sum(transactions)
    }

    /** `take`: sorts the lots by timestamp in place (stably), then consumes
        `amount` from the front, oldest lot first. */
    method Take(amount: real) returns (taken: Transactions)
      modifies this`transactions
      ensures fresh(taken) && taken.currency == currency
      ensures Fifo.Take(LotOrder.SortByTimestamp(old(transactions)), amount)
           == Fifo.Split(taken.transactions, transactions)
    {
      transactions := LotOrder.SortByTimestamp(transactions);
      var took, rest := Fifo.TakeFront(transactions, amount);
      transactions := rest;
      taken := new Transactions(currency, took);
    }

    /** `add(t)`: appends one lot. */
    method Add(t: Transaction)
      modifies this`transactions
      ensures transactions == old(transactions) + [t]
    {
      transactions := transactions + [t];
    }

    /** `add(other)`: appends the other queue's lots. */
    method AddTransactions(other: Transactions)
      modifies this`transactions
      ensures transactions == old(transactions) + old(other.transactions)
    {
      var more := other.transactions;
      transactions := transactions + more;
    }
  }

  /** The example in the documentation of `Transactions.take`: lots of 100
      and then 200; taking 150 returns lots of 100 and 50 and leaves one of
      150.  The same holds of `Funds.take`, which does not sort. */
  lemma TakeExample(pair: CurrencyPair, price: real, t1: Date, t2: Date)
    requires t1 <= t2
    ensures var first := MakeTransaction(pair.base, 100.0, price, t1, pair);
      var second := MakeTransaction(pair.base, 200.0, price, t2, pair);
      Fifo.Take(LotOrder.SortByTimestamp([first, second]), 150.0)
        == Fifo.Split([first, second.(amount := 50.0)], [second.(amount := 150.0)])
  {
    var first := MakeTransaction(pair.base, 100.0, price, t1, pair);
    var second := MakeTransaction(pair.base, 200.0, price, t2, pair);
    LotOrder.SortKeepsSorted([first, second]);
    assert [first, second][1..] == [second];
  }
}
