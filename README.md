# Lot accounting and CSV line splitting, modelled in Dafny

This project models two parts of `exchanges`, a tool that rebuilds the cost basis of
cryptocurrency holdings from exchange histories.

**The lot-accounting engine (`Ledger.kt`).**
- An account's holdings (`Monies`) keep three kinds of queue per currency:
  - uncommitted funds (`Funds`, a FIFO queue of `Transfer`s);
  - cost-basis lots (`Transactions`, a FIFO queue of `Transaction`s, stably sorted by timestamp before each take);
  - an error bucket that records shortfalls.
- `take` consumes the funds first and then the lots.
  - It removes whole entries from the front.
  - It splits the front entry when that entry is larger than what is still owed.
  - When something is still owed after the funds and there is no lots entry for the currency, or the magnitude test `|lots taken| - |still owed| > 0.000001` fires, the amount still owed is deposited, undated, into the error bucket and into the result. A shortfall that existing lots only partly cover is not recorded. The take never fails.
- `Ledger.process` dispatches one event of an account:
  - a deposit or a lending payout is credited net of its fee;
  - a withdrawal is taken, and recorded as a `WithdrawEvent` when its address is external;
  - a trade is routed by its side and fee currency into a (consume, produce) pair. The consumed amount is taken, the produced lot is added, and an `Event` is recorded when lots were consumed.

**The CSV line splitter (`parseLine` in `csv/CsvReader.kt`).**
- It cuts a line at each separator seen while the quote count is even.
- It keeps quote characters in the fields and drops CR and LF.

Modules.
- `Decimals`: `BigDecimal` as `real`, `positive`, `diff`, and the 0.000001 tolerance. `isZero` is `== 0.0`.
- `Entities`: currencies, transfers, lots, events, and the fields of the inputs the engine reads.
- `Fifo`: the take algorithm shared by both queues.
  - `Take` is the specification of the take.
  - `TakeFront` is its loop.
  - `SumBy` is the `sumBy` loop.
- `LotOrder`: the stable sort by timestamp.
- `Funding`: the classes `Funds` and `Transactions`.
- `Holdings`: `MoniesState`, the value of a `Monies`, and the functions that specify each operation on it. The class `Monies` is proved against those functions.
- `Processing`: fee routing, address matching, `ProcessItem` (the specification of one call of `process`), and the class `Ledger`.
- `Csv`: the scanning loop `ParseLine` and its reference definitions.

Points of the code worth knowing:
- **Shortfall test.** The test at Ledger.kt:129 is `|taken| - |remaining| > 0.000001`, a difference of magnitudes.
  - For nonnegative amounts, the lots never supply more than is owed, so this test never fires when a lots entry exists (`Holdings.ShortfallOnlyWithoutLots`).
  - A shortfall that the lots only partly cover is therefore not recorded (`Holdings.LotShortfallNotRecorded`).
- **Fee in the base currency.** An ask of 10 base at price 1 with a 0.1 base fee consumes 10.1 base and produces a lot of 10 counter (Ledger.kt:474, 485; `Processing.RouteAskWithBaseFee`).
- **Zero amounts.** Only a funding record whose amount is null is skipped (Ledger.kt:439); a zero amount is taken like any other.
- **Negative amounts.** `Funds.take` has no guard on the sign of the amount. The model keeps the take total, with no precondition. Nonnegativity is a hypothesis only of the lemmas that need it.

## Model

| member | source | states |
|---|---|---|
| Decimals.Positive | common/src/main/kotlin/com/traviswyatt/exchanges/Ledger.kt:532 | the result is nonnegative and is the value or its negation |
| Decimals.Diff | common/src/main/kotlin/com/traviswyatt/exchanges/Ledger.kt:112 | `diff` is the difference of the magnitudes: for nonnegative operands it is the plain difference, and it never exceeds the first operand's magnitude |
| Fifo.Sum | common/src/main/kotlin/com/traviswyatt/exchanges/Ledger.kt:49 | the balance of a queue, the sum of its amounts; `SumConcat`, `SumNonNegative` and `SumBy` characterize it |
| Fifo.Take | common/src/main/kotlin/com/traviswyatt/exchanges/Ledger.kt:62-83 | the specification of `take`: entries no larger than what is owed move whole, a larger front entry is split, and the walk stops when nothing is owed or the queue is empty; `TakeConserves`, `TakeServesOrExhausts`, `TakeWithinBalance`, `TakeIsFifo` and `TakeComposes` characterize it, and `TakeFront` is its loop |
| Fifo.SumBy | common/src/main/kotlin/com/traviswyatt/exchanges/Ledger.kt:523-529 | the accumulating loop returns the balance `Sum` of the queue |
| Fifo.TakeFront | common/src/main/kotlin/com/traviswyatt/exchanges/Ledger.kt:62-83 | the `while` loop of `take` returns and leaves exactly the split that `Take` specifies |
| Fifo.SumConcat | common/src/main/kotlin/com/traviswyatt/exchanges/Ledger.kt:49 | the balance of a concatenation is the sum of the balances |
| Fifo.SumNonNegative | common/src/main/kotlin/com/traviswyatt/exchanges/Ledger.kt:49 | a queue of nonnegative entries has a nonnegative balance |
| Fifo.TakeConserves | common/src/main/kotlin/com/traviswyatt/exchanges/Ledger.kt:62-83 | taken balance plus remaining balance equals the old balance, for any amount and any signs |
| Fifo.TakeServesOrExhausts | common/src/main/kotlin/com/traviswyatt/exchanges/Ledger.kt:66-67 | a take supplies the whole amount, or it moves the whole queue into the result and leaves it empty |
| Fifo.TakeWithinBalance | common/src/main/kotlin/com/traviswyatt/exchanges/Ledger.kt:62-83 | for a nonnegative amount over nonnegative entries, the taken balance is `min(amount, balance)` and no entry taken or left is negative |
| Fifo.FifoSplitCons | common/src/main/kotlin/com/traviswyatt/exchanges/Ledger.kt:69-73 | moving the front entry whole into the result keeps the FIFO shape |
| Fifo.TakeIsFifo | common/src/main/kotlin/com/traviswyatt/exchanges/Ledger.kt:66-79 | the taken entries are a prefix of the queue except that the last may be a split copy with the same details; the queue keeps the rest with its front reduced by exactly the split amount |
| Fifo.TakeComposes | common/src/main/kotlin/com/traviswyatt/exchanges/Ledger.kt:62-83 | taking `a` then `b` leaves the same queue as taking `a + b`, and takes the same balance |
| LotOrder.SortByTimestamp | common/src/main/kotlin/com/traviswyatt/exchanges/Ledger.kt:214 | `sortBy { it.timestamp }` as a stable insertion sort; `SortSortsAndPermutes` and `SortIsStable` characterize it, and together they fix the result as the unique stable sort |
| LotOrder.InsertPermutes | common/src/main/kotlin/com/traviswyatt/exchanges/Ledger.kt:214 | one insertion step of the sort adds exactly the inserted lot to the multiset |
| LotOrder.InsertBounded | common/src/main/kotlin/com/traviswyatt/exchanges/Ledger.kt:214 | an insertion keeps every timestamp under a bound that all inputs respect |
| LotOrder.InsertSorted | common/src/main/kotlin/com/traviswyatt/exchanges/Ledger.kt:214 | inserting into a sorted list keeps it sorted |
| LotOrder.InsertStable | common/src/main/kotlin/com/traviswyatt/exchanges/Ledger.kt:214 | inserting puts the lot after the lots that share its timestamp |
| LotOrder.InsertSum | common/src/main/kotlin/com/traviswyatt/exchanges/Ledger.kt:214 | inserting adds the lot's amount to the balance |
| LotOrder.SortSortsAndPermutes | common/src/main/kotlin/com/traviswyatt/exchanges/Ledger.kt:214 | `sortBy { it.timestamp }` yields a timestamp-ordered permutation of the lots |
| LotOrder.SortIsStable | common/src/main/kotlin/com/traviswyatt/exchanges/Ledger.kt:214 | lots with equal timestamps keep their input order |
| LotOrder.SortKeepsSorted | common/src/main/kotlin/com/traviswyatt/exchanges/Ledger.kt:214 | a list already in timestamp order is left unchanged |
| LotOrder.SortKeepsAmounts | common/src/main/kotlin/com/traviswyatt/exchanges/Ledger.kt:186 | sorting changes neither the balance nor the sign of any amount |
| Funding.Funds.constructor | common/src/main/kotlin/com/traviswyatt/exchanges/Ledger.kt:42-47 | a queue of the given currency and transfers, with zero error |
| Funding.Funds.Deposit | common/src/main/kotlin/com/traviswyatt/exchanges/Ledger.kt:51-54 | appends exactly one transfer of the queue's currency with the given amount and date |
| Funding.Funds.Add | common/src/main/kotlin/com/traviswyatt/exchanges/Ledger.kt:56-60 | fails exactly when the currencies differ, and then changes nothing; otherwise it concatenates the transfers and adds the errors |
| Funding.Funds.Take | common/src/main/kotlin/com/traviswyatt/exchanges/Ledger.kt:62-83 | returns a fresh queue of the same currency holding what `Take` takes; the queue keeps what `Take` leaves |
| Funding.Funds.Balance | common/src/main/kotlin/com/traviswyatt/exchanges/Ledger.kt:49 | the balance of the queue, `Fifo.Sum` of its transfers |
| Funding.Transactions.constructor | common/src/main/kotlin/com/traviswyatt/exchanges/Ledger.kt:180-184 | a queue of the given currency and lots |
| Funding.Transactions.Take | common/src/main/kotlin/com/traviswyatt/exchanges/Ledger.kt:211-233 | sorts the lots stably by timestamp, then returns and keeps what `Take` of the sorted lots takes and leaves |
| Funding.Transactions.Add | common/src/main/kotlin/com/traviswyatt/exchanges/Ledger.kt:235-237 | appends exactly the lot |
| Funding.Transactions.AddTransactions | common/src/main/kotlin/com/traviswyatt/exchanges/Ledger.kt:239-241 | appends exactly the other queue's lots |
| Funding.Transactions.Balance | common/src/main/kotlin/com/traviswyatt/exchanges/Ledger.kt:186 | the balance of the lots, `Fifo.Sum` of the list; sorting leaves it unchanged (`LotOrder.SortKeepsAmounts`) |
| Funding.TakeExample | common/src/main/kotlin/com/traviswyatt/exchanges/Ledger.kt:188-210 | lots of 100 then 200: taking 150 returns lots of 100 and 50 and leaves one of 150 |
| Holdings.Undated | common/src/main/kotlin/com/traviswyatt/exchanges/Ledger.kt:130-131 | the transfer a shortfall is recorded as: the amount still owed, in the taken currency, with no date |
| Holdings.LotsSplit | common/src/main/kotlin/com/traviswyatt/exchanges/Ledger.kt:127 | `transactions[currency]?.take(remainingAmount)`: no split when the currency has no lots entry, otherwise `Fifo.Take` of the lots sorted by timestamp |
| Holdings.AfterLots | common/src/main/kotlin/com/traviswyatt/exchanges/Ledger.kt:127 | the state after the lots step: the lots entry replaced by what the take leaves, and nothing changed when there is no entry |
| Holdings.LotsTaken | common/src/main/kotlin/com/traviswyatt/exchanges/Ledger.kt:127 | the lots the lots step returns, none when there is no lots entry; `LotsWithinOwed` bounds their balance |
| Holdings.WithShortfall | common/src/main/kotlin/com/traviswyatt/exchanges/Ledger.kt:130 | `errorFundsFor(currency).deposit(remainingAmount, null)`: the error bucket of the currency, created if needed, gains one undated transfer of what is owed |
| Holdings.TakeFrom | common/src/main/kotlin/com/traviswyatt/exchanges/Ledger.kt:120-148 | the specification of `Monies.take`: the funds step, then `TakeRemainder`; `TakeUnfolds`, `TakeTouchesOnlyItsCurrency`, `TakeLeavesOtherCurrencies`, `TakeUsesFundsFirst`, `TakeConserves`, `TakeSupplies` and `ShortfallOnlyWithoutLots` characterize it, and `Monies.Take` is proved against it |
| Holdings.TakeRemainder | common/src/main/kotlin/com/traviswyatt/exchanges/Ledger.kt:125-147 | the lots step and the shortfall once the funds have supplied their part; `RemainderUnfolds` and `RemainderConserves` characterize it |
| Holdings.Short | common/src/main/kotlin/com/traviswyatt/exchanges/Ledger.kt:129 | the shortfall test as written: no lots entry, or `diff` above the tolerance; `ShortfallOnlyWithoutLots` shows that for nonnegative amounts only the first disjunct can hold |
| Holdings.Deposited | common/src/main/kotlin/com/traviswyatt/exchanges/Ledger.kt:150-151 | a deposit creates the funds entry if needed and appends one transfer to the funds of that currency and nothing else |
| Holdings.FeeOf | common/src/main/kotlin/com/traviswyatt/exchanges/Ledger.kt:161 | `fee?.positive ?: ZERO`: the magnitude of the fee, or zero when there is none |
| Holdings.WithFunding | common/src/main/kotlin/com/traviswyatt/exchanges/Ledger.kt:159-163 | a deposit of `amount - |fee|` with the record's date; `DepositCredits` characterizes it |
| Holdings.WithLending | common/src/main/kotlin/com/traviswyatt/exchanges/Ledger.kt:165-169 | an undated deposit of `earned - |fee|`; `LendingCredits` characterizes it |
| Holdings.WithTransaction | common/src/main/kotlin/com/traviswyatt/exchanges/Ledger.kt:171-173 | adding a lot creates the lots entry of its currency if needed, appends the lot there and changes no other queue |
| Holdings.WithTransactions | common/src/main/kotlin/com/traviswyatt/exchanges/Ledger.kt:175-177 | each lot added in turn, by `WithTransaction`; `Monies.AddTransactions` is proved against it |
| Holdings.LotsIn | common/src/main/kotlin/com/traviswyatt/exchanges/Ledger.kt:175-177 | the lots of a list in one currency, in list order |
| Holdings.WithTransactionsAppends | common/src/main/kotlin/com/traviswyatt/exchanges/Ledger.kt:175-177 | adding a list of lots appends, to each currency's lots, that currency's lots of the list in list order; funds and errors are unchanged |
| Holdings.Balances | common/src/main/kotlin/com/traviswyatt/exchanges/Ledger.kt:96-103 | `fundsBalance`, `transactionsBalance` and `errorFundsBalance`: each currency of a queue map, mapped to the balance of its queue |
| Holdings.MergeAdd | common/src/main/kotlin/com/traviswyatt/exchanges/Ledger.kt:105-110 | `mergeReduce` with addition: every key of either map, mapped to the sum of the values present |
| Holdings.CombinedBalance | common/src/main/kotlin/com/traviswyatt/exchanges/Ledger.kt:105-110 | the combined balance has a key for every currency with funds or lots, and maps it to funds balance plus lots balance |
| Holdings.TakeUnfolds | common/src/main/kotlin/com/traviswyatt/exchanges/Ledger.kt:120-148 | a take replaces the currency's funds with what the funds keep; it replaces the lots only when something is still owed and the lots exist; the error bucket grows only on a shortfall; the returned holdings hold only that currency |
| Holdings.RemainderUnfolds | common/src/main/kotlin/com/traviswyatt/exchanges/Ledger.kt:125-147 | after the funds step, the lots entry is replaced only when something is owed and it exists; the error bucket grows only on a shortfall; the holdings returned hold the funds taken, plus the shortfall when there is one, and the lots taken when something was owed |
| Holdings.TakeTouchesOnlyItsCurrency | common/src/main/kotlin/com/traviswyatt/exchanges/Ledger.kt:120-157 | a take creates the funds entry of its currency and no lots entry; the holdings returned hold that currency alone, with no error bucket |
| Holdings.TakeLeavesOtherCurrencies | common/src/main/kotlin/com/traviswyatt/exchanges/Ledger.kt:120-148 | a take changes no other currency's funds, lots or errors |
| Holdings.UpdatedAt | common/src/main/kotlin/com/traviswyatt/exchanges/Ledger.kt:120-148 | replacing the queues of one currency leaves every other currency's funds, lots and errors as they were |
| Holdings.TakeUsesFundsFirst | common/src/main/kotlin/com/traviswyatt/exchanges/Ledger.kt:123-141 | the returned lots map is empty exactly when the funds cover the amount; then lots and errors are unchanged |
| Holdings.LotsWithinOwed | common/src/main/kotlin/com/traviswyatt/exchanges/Ledger.kt:126-129 | with nonnegative lots, the lots step supplies `min(owed, lots balance)`, never more than is owed |
| Holdings.ShortfallOnlyWithoutLots | common/src/main/kotlin/com/traviswyatt/exchanges/Ledger.kt:129-133 | for nonnegative amounts, the error bucket gains an undated transfer of `amount - funds balance` exactly when that is positive and there is no lots entry; otherwise it is unchanged |
| Holdings.RemainderConserves | common/src/main/kotlin/com/traviswyatt/exchanges/Ledger.kt:125-147 | in the lots step and the shortfall, the lots held, the errors recorded and the funds already taken add up to the lots left plus what is returned |
| Holdings.TakeConserves | common/src/main/kotlin/com/traviswyatt/exchanges/Ledger.kt:120-148 | holdings before plus errors recorded equal holdings after plus holdings returned, per currency |
| Holdings.TakeSupplies | common/src/main/kotlin/com/traviswyatt/exchanges/Ledger.kt:120-148 | the returned balance is `min(amount, holdings)` when a lots entry exists, and the full amount otherwise |
| Holdings.LotShortfallNotRecorded | common/src/main/kotlin/com/traviswyatt/exchanges/Ledger.kt:112 | with no funds and one lot of 5, a take of 10 returns 5 and records no error |
| Holdings.Monies.constructor | common/src/main/kotlin/com/traviswyatt/exchanges/Ledger.kt:86-96 | new holdings have no funds, no lots and no errors |
| Holdings.Monies.Taken | common/src/main/kotlin/com/traviswyatt/exchanges/Ledger.kt:143-147 | the holdings a take returns hold the given funds and lots and no errors |
| Holdings.Monies.FundsFor | common/src/main/kotlin/com/traviswyatt/exchanges/Ledger.kt:150-151 | returns the currency's funds, creating the entry empty on first use, and changes nothing else |
| Holdings.Monies.ErrorFundsFor | common/src/main/kotlin/com/traviswyatt/exchanges/Ledger.kt:153-154 | returns the currency's error bucket, creating it empty on first use, and changes nothing else |
| Holdings.Monies.TransactionsFor | common/src/main/kotlin/com/traviswyatt/exchanges/Ledger.kt:156-157 | returns the currency's lots, creating the entry empty on first use, and changes nothing else |
| Holdings.Monies.Take | common/src/main/kotlin/com/traviswyatt/exchanges/Ledger.kt:120-148 | the new state and the fresh holdings returned are those `TakeFrom` specifies |
| Holdings.Monies.TakeRemaining | common/src/main/kotlin/com/traviswyatt/exchanges/Ledger.kt:125-147 | the part after the funds: the holdings returned and the new state are those `TakeRemainder` specifies |
| Holdings.Monies.TakeLots | common/src/main/kotlin/com/traviswyatt/exchanges/Ledger.kt:126-129 | the lots step leaves the state `AfterLots`, returns the lots `LotsTaken`, and reports the code's shortfall test |
| Holdings.Monies.RecordShortfall | common/src/main/kotlin/com/traviswyatt/exchanges/Ledger.kt:130-131 | appends exactly one undated transfer of the shortfall to the currency's error bucket |
| Holdings.Monies.DepositInto | common/src/main/kotlin/com/traviswyatt/exchanges/Ledger.kt:51-54 | `fundsFor(c).deposit(amount, date)` leaves the state `Deposited` |
| Holdings.Monies.AddFunding | common/src/main/kotlin/com/traviswyatt/exchanges/Ledger.kt:159-163 | deposits `amount - |fee|`, no fee counting as zero, dated like the record |
| Holdings.Monies.AddLending | common/src/main/kotlin/com/traviswyatt/exchanges/Ledger.kt:165-169 | deposits `earned - |fee|`, undated |
| Holdings.Monies.AddTransaction | common/src/main/kotlin/com/traviswyatt/exchanges/Ledger.kt:171-173 | adds the lot as `WithTransaction` specifies |
| Holdings.Monies.AddTransactions | common/src/main/kotlin/com/traviswyatt/exchanges/Ledger.kt:175-177 | the `forEach` loop adds each lot in turn |
| Processing.Route | common/src/main/kotlin/com/traviswyatt/exchanges/Ledger.kt:479-501 | routing succeeds exactly for an ask or bid whose fee currency is one side of the pair; otherwise it names the error; an ask consumes base and produces counter, a bid the reverse |
| Processing.RouteChargesFeeOnce | common/src/main/kotlin/com/traviswyatt/exchanges/Ledger.kt:470-498 | valued in the counter currency, consumed minus produced is exactly the fee, and the side not in the fee currency moves its gross amount; the four amounts of the routing table are stated outright: an ask with a counter fee consumes the base amount and produces `counterAmount - fee`, an ask with a base fee consumes `base + fee` and produces `counterAmount`, a bid with a counter fee consumes `counterAmount + fee` and produces the base amount, and a bid with a base fee consumes `counterAmount` and produces `base - fee` |
| Processing.RouteAskWithBaseFee | common/src/main/kotlin/com/traviswyatt/exchanges/Ledger.kt:480-487 | an ask of 10 at price 1 with a 0.1 base fee consumes 10.1 base and produces 10 counter |
| Processing.Lower | common/src/main/kotlin/com/traviswyatt/exchanges/Ledger.kt:264 | ASCII lowercasing: same length; each uppercase letter becomes the letter 32 code points above it, every other character is kept, and no uppercase ASCII letter is left |
| Processing.LowerIsIdempotent | common/src/main/kotlin/com/traviswyatt/exchanges/Ledger.kt:264 | lowercasing twice is lowercasing once |
| Processing.LowerAll | common/src/main/kotlin/com/traviswyatt/exchanges/Ledger.kt:246 | `externalAddresses.map { it.toLowerCase() }`: each configured address lowercased, in order |
| Processing.IsExternal | common/src/main/kotlin/com/traviswyatt/exchanges/Ledger.kt:246-264 | membership of the lowercased address in the lowercased external list; `IsExternalIgnoresCase` characterizes it |
| Processing.IsExternalIgnoresCase | common/src/main/kotlin/com/traviswyatt/exchanges/Ledger.kt:246-264 | an address is external exactly when it matches a configured address up to letter case |
| Processing.IsWhitespace | common/src/main/kotlin/com/traviswyatt/exchanges/Ledger.kt:436 | `Char.isWhitespace` on the ASCII range: space, tab, line feed, vertical tab, form feed, carriage return and the four separator controls |
| Processing.IsBlank | common/src/main/kotlin/com/traviswyatt/exchanges/Ledger.kt:436 | every character is whitespace, so the empty string is blank; `AddressOf` relies on it |
| Processing.AddressOf | common/src/main/kotlin/com/traviswyatt/exchanges/Ledger.kt:436 | the matched address is never blank; it is the record's address when that is not blank, and "?" otherwise |
| Processing.Lookup | common/src/main/kotlin/com/traviswyatt/exchanges/Ledger.kt:448 | `withdrawal.funds[c]?.…`: the value held for the currency, or nothing when the map has no entry |
| Processing.FundingStep | common/src/main/kotlin/com/traviswyatt/exchanges/Ledger.kt:435-460 | a funding record never records a trade event and records at most one withdrawal; it fails exactly for an unknown type with an amount, and then changes nothing; a null amount changes nothing |
| Processing.TradeLot | common/src/main/kotlin/com/traviswyatt/exchanges/Ledger.kt:504-510 | `newTransaction`: a lot of the produced currency and amount, at the trade's price and timestamp, on the trade's pair |
| Processing.TradeStep | common/src/main/kotlin/com/traviswyatt/exchanges/Ledger.kt:469-520 | a trade records no withdrawal and at most one event; it fails exactly when routing fails, and then changes nothing |
| Processing.LendingStep | common/src/main/kotlin/com/traviswyatt/exchanges/Ledger.kt:429-433 | a lending event credits the holdings by `WithLending`, records nothing and never fails; `LendingCredits` characterizes it |
| Processing.ProcessItem | common/src/main/kotlin/com/traviswyatt/exchanges/Ledger.kt:419-427 | one item appends at most one audit entry in total; a fatal item changes nothing; a lending item never fails |
| Processing.DepositCredits | common/src/main/kotlin/com/traviswyatt/exchanges/Ledger.kt:441-443 | a deposit appends one transfer of `amount - |fee|` and raises that currency's total by exactly that; nothing else changes |
| Processing.LendingCredits | common/src/main/kotlin/com/traviswyatt/exchanges/Ledger.kt:429-433 | a lending event appends one undated transfer of `earned - |fee|` and raises that currency's total by exactly that; nothing else changes |
| Processing.WithdrawalRecordedIffExternal | common/src/main/kotlin/com/traviswyatt/exchanges/Ledger.kt:445-451 | a withdrawal takes its full amount; it appends a `WithdrawEvent` exactly when its address is external; the event holds the funds taken, the lots taken if consulted, the transfer and the raw address |
| Processing.WithdrawalFromFundsDebits | common/src/main/kotlin/com/traviswyatt/exchanges/Ledger.kt:445-446 | a withdrawal the funds cover debits exactly its amount from the funds, with lots and errors unchanged |
| Processing.TradeRecordsEventIffLots | common/src/main/kotlin/com/traviswyatt/exchanges/Ledger.kt:504-517 | a routed trade takes, then adds the new lot; it records an `Event` of the taken lots and the new lot exactly when lots were taken |
| Processing.TradeFromFundsRecordsNoEvent | common/src/main/kotlin/com/traviswyatt/exchanges/Ledger.kt:511-517 | a trade whose consumed amount the funds cover records no event |
| Processing.TradeProducesLot | common/src/main/kotlin/com/traviswyatt/exchanges/Ledger.kt:504-512 | when the two currencies differ, the produced currency gains exactly the new lot and its amount |
| Processing.DepositThenBuy | common/src/main/kotlin/com/traviswyatt/exchanges/Ledger.kt:435-520 | 1000 USD deposited, then 1 BTC bought at 500: one lot of 1 BTC at 500, 500 USD of funds, no event |
| Processing.WithdrawOneLotExternally | common/src/main/kotlin/com/traviswyatt/exchanges/Ledger.kt:445-451 | withdrawing a currency's single lot to an external address records a withdrawal of that lot and no funds |
| Processing.BuyThenWithdrawExternally | common/src/main/kotlin/com/traviswyatt/exchanges/Ledger.kt:419-520 | after that deposit and bid, a withdrawal of 1 BTC to an external address records exactly the lot the bid produced |
| Processing.Ledger.constructor | common/src/main/kotlin/com/traviswyatt/exchanges/Ledger.kt:244-262 | the external addresses are kept lowercased; no holdings and no audit entries |
| Processing.Ledger.MoniesFor | common/src/main/kotlin/com/traviswyatt/exchanges/Ledger.kt:420 | returns the account's holdings, creating fresh, empty ones on first use; no other entry changes |
| Processing.Ledger.Process | common/src/main/kotlin/com/traviswyatt/exchanges/Ledger.kt:419-427 | the account's holdings are created on first use and never removed; only that account's holdings change, as `ProcessItem` specifies; the audit lists only gain the entries `ProcessItem` yields |
| Processing.Ledger.Dispatch | common/src/main/kotlin/com/traviswyatt/exchanges/Ledger.kt:421-426 | on one account's holdings, the holdings, both audit lists and the outcome are those `ProcessItem` specifies |
| Processing.Ledger.ProcessFunding | common/src/main/kotlin/com/traviswyatt/exchanges/Ledger.kt:435-460 | the holdings, the withdrawal list and the outcome are those `FundingStep` specifies |
| Processing.Ledger.ProcessTrade | common/src/main/kotlin/com/traviswyatt/exchanges/Ledger.kt:469-520 | the holdings, the event list and the outcome are those `TradeStep` specifies |
| Csv.Step | common/src/main/kotlin/com/traviswyatt/exchanges/csv/CsvReader.kt:14-27 | one iteration of the loop: the four branches of the `when`, in order |
| Csv.ScanLine | common/src/main/kotlin/com/traviswyatt/exchanges/csv/CsvReader.kt:12-28 | the loop state after the whole line; `ScanCountsQuotes`, `QuotedSeparatorExtendsField` and `UnquotedSeparatorClosesField` characterize it |
| Csv.Fields | common/src/main/kotlin/com/traviswyatt/exchanges/csv/CsvReader.kt:10-31 | the closed fields and the last one; `FieldCount`, `FieldsHaveNoLineBreaks`, `FieldsKeepQuotes` and `JoinFieldsIsStrippedLine` characterize it, and `ParseLine` is its loop |
| Csv.ParseLine | common/src/main/kotlin/com/traviswyatt/exchanges/csv/CsvReader.kt:10-31 | the loop returns `Fields`; the result is never empty, and an empty line gives `[""]` |
| Csv.ScanCountsQuotes | common/src/main/kotlin/com/traviswyatt/exchanges/csv/CsvReader.kt:13-17 | the counter is the number of quote characters read |
| Csv.FieldCount | common/src/main/kotlin/com/traviswyatt/exchanges/csv/CsvReader.kt:22-29 | the number of fields is one more than the number of separators read while the quote count was even |
| Csv.FieldsHaveNoLineBreaks | common/src/main/kotlin/com/traviswyatt/exchanges/csv/CsvReader.kt:20-21 | no field contains CR or LF |
| Csv.FieldsKeepQuotes | common/src/main/kotlin/com/traviswyatt/exchanges/csv/CsvReader.kt:16-19 | the fields together hold exactly as many quotes as the line |
| Csv.JoinFieldsIsStrippedLine | common/src/main/kotlin/com/traviswyatt/exchanges/csv/CsvReader.kt:10-31 | joining the fields with the separator gives the line with CR and LF removed, for every separator |
| Csv.QuotedSeparatorExtendsField | common/src/main/kotlin/com/traviswyatt/exchanges/csv/CsvReader.kt:22-26 | a separator read while the quote count is odd is appended to the field being built; the closed fields and the count are unchanged |
| Csv.UnquotedSeparatorClosesField | common/src/main/kotlin/com/traviswyatt/exchanges/csv/CsvReader.kt:22-25 | a separator read while the quote count is even closes the field being built and starts an empty one |
| Csv.QuotedSeparatorStaysInField | common/src/main/kotlin/com/traviswyatt/exchanges/csv/CsvReader.kt:22-26 | an example: `"a,b",c` gives the two fields `"a,b"` and `c` |

## Left out

- Holdings.Monies: each queue of a `Monies` is kept as the value it holds, in a map field the methods replace. The source keeps live `Funds` and `Transactions` objects in its maps. The value model loses nothing: every queue object a `Monies` holds is one that this `Monies` created, lazily in `fundsFor`, `errorFundsFor` or `transactionsFor`, or freshly in a take that returns new queues. No other code updates these objects.
- Event aliasing: an `Event` holds the new lot as a value, fixed at the time of the trade. In the source it holds the same object that was added to the live queue, so a later take that splits that lot also changes the amount the event shows.
- `Funds` and `Transactions` class instances are not the ones `Monies` uses. The classes stand alone, each proved against `Fifo.Take`. `Monies` runs the same loop through `Fifo.TakeFront`.
- Logging and console output are not in the model: every `log(...)` call, the `println` of an external withdrawal, and the reporting code (`print*`, `displayPrice`, `priceUsd`, `inv`, `toString`).
- The `exchange` field of `Funds`, `Transactions` and `Monies` is left out; it only feeds logging. Accounts are opaque identifiers.
- `mergeReduce` is not part of this model. `Holdings.MergeAdd` stands in for it: every key of either map, with the sum where both have one.
- HashMap iteration order is left out. The only iteration that reaches the state is the `flatMap` over the lots a take returns, and that map has at most one key (`Holdings.TakeTouchesOnlyItsCurrency`).
- Processing.Lower: lowercases ASCII letters only. Kotlin's `toLowerCase` also maps other Unicode letters and depends on the default locale.
- Processing.IsWhitespace: covers ASCII whitespace only. Kotlin's `isBlank` also treats Unicode space characters as blank.
- The `else` branch of `process` for an unknown item class is left out: items are a closed union of funding records, trades and lending events.
- The inputs from xchange and the CSV readers are reduced to the fields the engine reads. Dates are integers, and `Currency` is compared by its code.
- `readCsv` (file reading) and the other files of the repository are left out: exchange fetching, persistence, the command line, the Gemini and Poloniex CSV readers, and logging.
- Csv.ParseLine: the quote counter is an unbounded natural number where the source's is a 32-bit `Int`. Only its parity matters, and parity survives wrap-around.
