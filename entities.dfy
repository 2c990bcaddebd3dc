/** The values the lot-accounting engine works on (Ledger.kt), and the
    already-parsed inputs it receives from its collaborators (xchange's
    `FundingRecord` and `UserTrade`, and the Poloniex lending event),
    reduced to the fields the engine reads. */
module Entities {
  import opened Wrappers
  import Fifo

  /** A currency, identified by its code. */
  datatype Currency = Currency(code: string)

  datatype CurrencyPair = CurrencyPair(base: Currency, counter: Currency)

  /** A point in time, in milliseconds since the epoch. */
  type Date = int

  /** An exchange account (xchange's `Exchange`), an opaque identifier. */
  datatype Account = Account(id: nat)

  /** The immutable part of a `Transfer`: every field but the amount. */
  datatype TransferInfo = TransferInfo(currency: Currency, date: Option<Date>)

  /** `Transfer(amount, currency, date)`: a unit of uncommitted funds. */
  type Transfer = Fifo.Entry<TransferInfo>

  /** The immutable part of a `Transaction` (a cost-basis lot). */
  datatype LotInfo = LotInfo(currency: Currency, price: real, timestamp: Date, pair: CurrencyPair)

  /** `Transaction(currency, amount, price, timestamp, pair)`. */
  type Transaction = Fifo.Entry<LotInfo>

  function MakeTransfer(amount: real, currency: Currency, date: Option<Date>): Transfer {
    Fifo.Entry(amount, TransferInfo(currency, date))
  }

  function MakeTransaction(currency: Currency, amount: real, price: real, timestamp: Date, pair: CurrencyPair): Transaction {
    Fifo.Entry(amount, LotInfo(currency, price, timestamp, pair))
  }

  /** `Ledger.Event`: the lots a trade consumed and the lot it produced. */
  datatype Event = Event(account: Account, sources: seq<Transaction>, transaction: Transaction)

  /** `Ledger.WithdrawEvent`: a withdrawal to an external address, with the
      funds and the lots it consumed. */
  datatype WithdrawEvent = WithdrawEvent(
    account: Account,
    sources: (Option<seq<Transfer>>, Option<seq<Transaction>>),
    withdraw: Transfer,
    destination: Option<string>)

  datatype FundingType = Deposit | Withdrawal | OtherFundingType(name: string)

  /** The fields of xchange's `FundingRecord` the engine reads. */
  datatype FundingRecord = FundingRecord(
    address: Option<string>,
    date: Option<Date>,
    currency: Currency,
    amount: Option<real>,
    kind: FundingType,
    fee: Option<real>)

  datatype OrderType = Ask | Bid | ExitAsk | ExitBid

  /** The fields of xchange's `UserTrade` the engine reads. */
  datatype UserTrade = UserTrade(
    kind: OrderType,
    originalAmount: real,
    pair: CurrencyPair,
    price: real,
    timestamp: Date,
    feeAmount: real,
    feeCurrency: Currency)

  /** The fields of `PoloniexLendingEvent` the engine reads. */
  datatype LendingEvent = LendingEvent(currency: Currency, fee: real, earned: real)

  /** The items `Ledger.process` dispatches on. */
  datatype Item =
    | FundingItem(record: FundingRecord)
    | TradeItem(trade: UserTrade)
    | LendingItem(lending: LendingEvent)
}
