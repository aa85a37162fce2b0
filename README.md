# Market maker core, modelled in Dafny

This project models the core of an automated market maker for an on-chain
limit order book. The maker watches a reference order book (Binance
partial-depth updates), derives a middle price from its top of book and,
on every tick, decides which of its own orders to cancel, which
best-price order to move and which ladder levels to fill. It then hands
those decisions to an executor. The executor keeps per-symbol tables of
active, pending and cancelling orders, allocates transaction nonces and
reacts to user-order stream updates and transaction-tracker outcomes.

The model is one Dafny module per source file:

| module | file | models |
|---|---|---|
| `Common` | `common.dfy` | sides, `Option`, ASCII case mapping, set minimum and maximum |
| `Entries` | `entry.dfy` | `Entry` and its `qty()` |
| `Quotes` | `quote.dfy` | `Quote` validity and middle price |
| `Orders` | `orders.dfy` | order status derivation and the `isActive`/`isUnclaimed` predicates |
| `NonceManagers` | `nonce_manager.dfy` | nonce allocation per address |
| `OrderBooks` | `order_book.dfy` | the reference `OrderBook` class |
| `PartialOrderBookUpdates` | `partial_order_book_update.dfy` | depth message to entries |
| `BinanceSymbols` | `binance_symbols.dfy` | the pair-to-stream table |
| `MakerConfigs` | `maker_config.dfy` | `MakerConfig` normalisation and lookups |
| `Executors` | `executor.dfy` | the executor's order bookkeeping |
| `Makers` | `maker.dfy` | the maker's event handlers and its quoting tick |

Code that mutates state in place becomes a Dafny `class` whose fields are
the source's maps, flags and lists. This covers `OrderBook`, `NonceManager`,
`Executor`, `Maker` and `MakerConfig`. Each method of such a class is
proved against a specification function on values: `ApplyTo`/`ApplyAll`,
`Step`, `Saved`/`AllSaved`/`OnMarket`/`HandleUpdate`, and `Tick`/`SideStep`,
with `PlanSide` and `Dispatch` under them. The properties the source
promises are proved as lemmas about those functions. Pure code (order
status, quotes, entries, the symbol table, depth conversion) becomes
datatypes and functions.

External results become parameters of the method that uses them:

- the nonce observed from the RPC node, and the clock (`now`);
- the transaction hash of a sent placement or claim, with `None` for a send that throws;
- the REST list of open orders;
- the tracker events;
- `parseFloat`;
- `toFixed` (the `truncate` function).

The side effects on other components are recorded as logs:

- the `Executor` records the calls it would send in `submissions`, and the transactions it hands to the tracker in `tracked`;
- it records its emitted events in `events`;
- the `Maker` records its executor calls in `calls`, and the cancellation reasons it logs in `notices`.

Prices and float quantities are `real`s. Integer quantities and nonces are
unbounded `int`s, as `bigint` is in the source. `Number.MAX_VALUE` is
written out exactly as 2^1024 − 2^971.

## Model

| member | source | states |
|---|---|---|
| Common.ToLower | src/maker/configuration/MakerConfig.ts:15 | `toLowerCase`, letter by letter and of the same length, on ASCII letters |
| Common.ToUpper | src/core/marketData/binance/BinanceSymbols.ts:18 | `toUpperCase`, letter by letter and of the same length, on ASCII letters |
| Common.SetMin | src/core/marketData/OrderBook.ts:23 | `Math.min` over a non-empty set of prices: a member no greater than any other |
| Common.SetMax | src/core/marketData/OrderBook.ts:24 | `Math.max` over a non-empty set of prices: a member no smaller than any other |
| Common.Pow10 | src/maker/Maker.ts:160 | `Math.pow(10, p)` for a whole exponent, at least 1 |
| Common.Opposite | src/maker/Maker.ts:332 | the other side, never the same one |
| Entries.Entry.Qty | src/core/marketData/models/Entry.ts:26-28 | the size of a level is the sum of its profile: 0 for an empty profile, the part itself for a one-part profile, and never negative when no part is |
| Entries.Sum | src/core/marketData/models/Entry.ts:27 | the left-to-right `reduce` with `+` from 0; its properties are `SumSingleton`, `SumNonNegative`, `SumAppend` and `SumRotate` |
| Entries.SumSingleton | src/core/marketData/models/Entry.ts:27 | the reduce over a one-element profile gives that element |
| Entries.SumNonNegative | src/core/marketData/models/Entry.ts:26-28 | a profile of non-negative parts sums to a non-negative size |
| Entries.SumAppend | src/core/marketData/models/Entry.ts:26-28 | the sum of two concatenated profiles is the sum of their sums |
| Entries.SumRotate | src/core/marketData/models/Entry.ts:26-28 | moving a part from the front of a profile to its back leaves the size unchanged |
| Quotes.Quote.MiddlePrice | src/core/marketData/models/Quote.ts:22-30 | with both sides valid the middle price is the point halfway between bid and ask; with one valid side it is that side's price; with none it is 0; for non-negative prices it is 0 exactly when neither side is valid |
| Quotes.Quote.IsValidBid | src/core/marketData/models/Quote.ts:14-16 | a bid is valid exactly when it is not 0, the empty-book placeholder |
| Quotes.Quote.IsValidAsk | src/core/marketData/models/Quote.ts:18-20 | an ask is valid exactly when it is neither 0 nor `MAX_VALUE`, the empty-book placeholder |
| Orders.DeriveStatus | src/core/execution/Order.ts:81-100 | a status exists exactly for the four known tags after lower-casing, and the derived status is never `Pending` or `Failed` |
| Orders.IsKnownTag | src/core/execution/Order.ts:85-100 | the four lower-case tags the status switch handles |
| Orders.FromLobOrder | src/core/execution/Order.ts:77-116 | the conversion fails exactly on an unknown tag; otherwise it copies the id, price, the three quantities, side, hash and times, takes the given symbol, has type `Return`, and is neither `Pending` nor `Failed` |
| Orders.StatusIgnoresCase | src/core/execution/Order.ts:85 | the status tag is compared without regard to letter case |
| Orders.ActiveIffOpen | src/core/execution/Order.ts:85-88 | a converted order is active exactly when its tag is `open` |
| Orders.Order.IsActive | src/core/execution/Order.ts:118-120 | an order is active exactly when it is placed or partially filled; `ActiveIffOpen` and `ActiveStatuses` relate it to the tag |
| Orders.Order.IsUnclaimed | src/core/execution/Order.ts:122-124 | some executed quantity is not claimed and the order has not failed |
| Orders.OpenStatus | src/core/execution/Order.ts:86-88 | an `open` order is `Placed` exactly when nothing of it has filled, and `PartiallyFilled` otherwise |
| Orders.CancelledStatusMatchesUnclaimed | src/core/execution/Order.ts:92-94 | a `cancelled` order is `Canceled` exactly when the resulting order is unclaimed, and `CanceledAndClaimed` exactly when it is not |
| Orders.ClaimedAndFilledStatus | src/core/execution/Order.ts:89-97 | `filled` is always `Filled`; `claimed` is `FilledAndClaimed` exactly when the claimed quantity reaches the original size, and `PartiallyFilledAndClaimed` exactly when it does not |
| Orders.ActiveStatuses | src/core/execution/Order.ts:118-120 | an order is active exactly when its status is `Placed` or `PartiallyFilled` |
| NonceManagers.RefreshNetwork | src/core/wallet/evm/NonceManager.ts:47-55 | after the refresh the cached network nonce is the observed one; the entry is rewritten with `now` exactly when it was missing, differed, or was 180 s old; no other address changes |
| NonceManagers.NeedsRefresh | src/core/wallet/evm/NonceManager.ts:47-51 | the network entry is rewritten when there is none, the observed nonce differs, or it is three minutes old |
| NonceManagers.UseOffline | src/core/wallet/evm/NonceManager.ts:58-63 | the offline nonce wins when it is ahead of the network one and recorded less than a minute after it |
| NonceManagers.Step | src/core/wallet/evm/NonceManager.ts:39-81 | one call returns at least the observed nonce; it returns the offline nonce exactly when that one is ahead and less than 60 s newer than the network entry; the offline entry becomes the returned value + 1 at `now` |
| NonceManagers.RegressionFollowsChain | src/core/wallet/evm/NonceManager.ts:40-53 | an observed nonce below the cached one is accepted and cached with the current time, never refused |
| NonceManagers.StaleOfflineIgnored | src/core/wallet/evm/NonceManager.ts:57-74 | an offline entry 60 s or more ahead of the network entry is ignored, and the observed nonce is returned |
| NonceManagers.OtherAddressesUntouched | src/core/wallet/evm/NonceManager.ts:39-81 | a call for one address leaves both entries of every other address as they were |
| NonceManagers.IndependentAddresses | src/core/wallet/evm/NonceManager.ts:39-81 | a call for another address in between does not change the nonce or network entry that a call returns for this one |
| NonceManagers.Burst | src/core/wallet/evm/NonceManager.ts:31-82 | a run of calls for one address gives one nonce per call |
| NonceManagers.BurstFrom | src/core/wallet/evm/NonceManager.ts:57-81 | once the offline nonce is one past a still-current network nonce, later calls inside the window return consecutive nonces |
| NonceManagers.BurstAhead | src/core/wallet/evm/NonceManager.ts:57-81 | while the offline nonce is ahead of a still-current network nonce, calls inside the window return consecutive nonces from it |
| NonceManagers.FreshBurstIsConsecutive | src/core/wallet/evm/NonceManager.test.ts:12-30 | for a fresh address, calls within 60 s that all observe nonce k return k, k+1, k+2, … |
| NonceManagers.NonceManager.constructor | src/core/wallet/evm/NonceManager.ts:19-22 | both caches start empty |
| NonceManagers.NonceManager.GetNonce | src/core/wallet/evm/NonceManager.ts:31-82 | `getNonceAsync` updates both caches and returns as `Step` does: a result not below the observed nonce, the offline entry at result + 1, the network entry at the observed nonce |
| OrderBooks.ApplyTo | src/core/marketData/OrderBook.ts:48-54 | an entry of positive size is stored at its side and price, one of size ≤ 0 removes that level, and every other level of either side is unchanged |
| OrderBooks.LastAt | src/core/marketData/OrderBook.ts:38-40 | the entry at a given side and price that comes last in the list, with no later entry at that level, or none when no entry is there |
| OrderBooks.LastIndexAt | src/core/marketData/OrderBook.ts:38-40 | no entry after a position writes the same side and price |
| OrderBooks.ApplyToIdempotent | src/core/marketData/OrderBook.ts:45-55 | applying the same entry twice is the same as applying it once |
| OrderBooks.ApplyAll | src/core/marketData/OrderBook.ts:38-40 | the entries applied one after another, in order; `ApplyAllLevel` gives its result level by level |
| OrderBooks.ApplyAllLevel | src/core/marketData/OrderBook.ts:38-40 | after applying a list of entries, each level is decided by the last entry at it, and a level no entry touches keeps its old value |
| OrderBooks.SnapshotLevel | src/core/marketData/OrderBook.ts:34-43 | a snapshot's book has a level exactly when the snapshot's last entry at that level has positive size, and it holds that entry |
| OrderBooks.OrderBook.constructor | src/core/marketData/OrderBook.ts:12-17 | a book for a non-empty symbol starts with both sides empty and transaction id 0 |
| OrderBooks.OrderBook.Create | src/core/marketData/OrderBook.ts:12-17 | construction fails exactly for the empty symbol |
| OrderBooks.OrderBook.TopOfBook | src/core/marketData/OrderBook.ts:19-27 | the quote's bid is the minimum buy price (0 when there are no buys) and its ask the maximum sell price (`MAX_VALUE` when there are no sells) |
| OrderBooks.OrderBook.IsValid | src/core/marketData/OrderBook.ts:29-32 | the book is valid exactly when its top of book has a valid bid and a valid ask, which needs both sides non-empty |
| OrderBooks.OrderBook.ApplyEntry | src/core/marketData/OrderBook.ts:45-55 | with the check on, an entry not newer than the last transaction id changes nothing; otherwise the sides become `ApplyTo` of the old sides; the last transaction id is kept |
| OrderBooks.OrderBook.ApplySnapshot | src/core/marketData/OrderBook.ts:34-43 | the sides become the snapshot's entries applied, unchecked, to an empty book, and the transaction id becomes the snapshot's |
| OrderBooks.OrderBook.Clear | src/core/marketData/OrderBook.ts:57-60 | both sides become empty and the transaction id is kept |
| PartialOrderBookUpdates.GetEntries | src/core/marketData/binance/models/PartialOrderBookUpdate.ts:10-32 | one entry per pair: the bids in their order, then the asks in theirs; an empty message gives no entries |
| PartialOrderBookUpdates.ToEntry | src/core/marketData/binance/models/PartialOrderBookUpdate.ts:13-18 | one price/quantity pair becomes an entry of the given side, with the parsed price, a one-part profile of the parsed quantity and the message's update id |
| PartialOrderBookUpdates.EntriesShape | src/core/marketData/binance/models/PartialOrderBookUpdate.ts:11-29 | every entry carries the message's update id, is on the bid side exactly when it comes from the bid list, and has the parsed quantity as its size |
| PartialOrderBookUpdates.UpdateBookLevelsComeFromPairs | src/core/marketData/binance/BinanceWsPartialOrderBookProvider.ts:162-166 | after clearing the book and applying one message, every level is the parsed price of a pair of that side whose parsed quantity is positive |
| BinanceSymbols.TableIdsLowerCase | src/core/marketData/binance/BinanceSymbols.ts:2-11 | every stream id in the table is non-empty and lower-case |
| BinanceSymbols.GetSymbol | src/core/marketData/binance/BinanceSymbols.ts:13-15 | a listed pair gives its stream id, and any other name gives null |
| BinanceSymbols.GetRestSymbol | src/core/marketData/binance/BinanceSymbols.ts:17-19 | null exactly when `getSymbol` is null; otherwise the upper-case form of the stream id, which lower-cases back to it |
| BinanceSymbols.UnlistedPairs | src/core/marketData/binance/BinanceSymbols.ts:14 | an example of `GetSymbol`'s own contract: reversed or lower-case spellings of listed pairs give null |
| BinanceSymbols.RestSymbols | src/core/marketData/binance/BinanceSymbols.ts:2-19 | the listed pairs are exactly those of the written-out REST table, and every one of them gets the REST symbol given there, for example `ETHBTC` |
| MakerConfigs.ToBigInt | src/maker/configuration/MakerConfig.ts:16-17 | `BigInt` of a number succeeds exactly on an integral value and keeps that value |
| MakerConfigs.NormalizeSide | src/maker/configuration/MakerConfig.ts:16-17 | a side keeps its settings, with the converted integer quantity |
| MakerConfigs.SymbolConfig.SideOf | src/maker/Maker.ts:151-154 | the settings of the bid or the ask side |
| MakerConfigs.SameAddress | src/maker/configuration/MakerConfig.ts:41 | two addresses match when they are equal after lower-casing both |
| MakerConfigs.NormalizeSymbol | src/maker/configuration/MakerConfig.ts:14-18 | one symbol's settings get a lower-case contract address and integer quantities of the same value, and every other field is unchanged; it fails exactly when a quantity is not integral |
| MakerConfigs.FindByContract | src/maker/configuration/MakerConfig.ts:41 | `find` gives the first configuration whose address equals the given one ignoring case, or nothing exactly when none matches |
| MakerConfigs.MakerConfig.constructor | src/maker/configuration/MakerConfig.ts:19-21 | the records are stored as given |
| MakerConfigs.MakerConfig.Create | src/maker/configuration/MakerConfig.ts:13-22 | the loop normalises every symbol in key order; it throws exactly when some symbol's quantity is not integral; otherwise every stored address is lower-case and each symbol holds its normalised settings |
| MakerConfigs.MakerConfig.GetSymbol | src/maker/configuration/MakerConfig.ts:36-38 | the settings stored under a name, present exactly for a configured name, with a lower-case address |
| MakerConfigs.MakerConfig.GetSymbols | src/maker/configuration/MakerConfig.ts:24-26 | every configuration exactly once, in key order |
| MakerConfigs.MakerConfig.GetSymbolByContract | src/maker/configuration/MakerConfig.ts:40-42 | undefined exactly when no configuration's address matches ignoring case; otherwise the first configuration in key order whose address matches |
| MakerConfigs.MakerConfig.FoundByOwnAddress | src/maker/configuration/MakerConfig.ts:40-42 | every symbol is found from its own address however it is cased; when no other symbol shares the address, the result is exactly that symbol |
| Executors.NewPendingOrder | src/core/execution/onchainLob/Executor.ts:179-192 | the pending order of a sent placement is `Pending`, has id and hash equal to the transaction hash, the full quantity left and nothing claimed, and is neither active nor unclaimed |
| Executors.AddPendingKeepsWellKeyed | src/core/execution/onchainLob/Executor.ts:194 | storing a pending order under its transaction hash keeps every table keyed by what its orders carry |
| Executors.SaveToActive | src/core/execution/onchainLob/Executor.ts:392-407 | an active order is upserted under its id, an inactive one removes its id, and no other id changes |
| Executors.PendingRemoved | src/core/execution/onchainLob/Executor.ts:413-428 | the pending entry for the hash is gone and no other entry changes; exactly one `ordersChanged` with the removed order is emitted when there was one, and none otherwise |
| Executors.Saved | src/core/execution/onchainLob/Executor.ts:391-411 | saving an order of a known symbol sets or removes its active entry, removes only the pending entry under its hash and changes no other entry; exactly when that hash was pending one `ordersChanged` event carrying the removed pending order is emitted; an unknown symbol throws |
| Executors.SaveActiveFacts | src/core/execution/onchainLob/Executor.ts:392-407 | the active-table update of `saveOrder` touches only the order's own id and keeps the tables keyed by their orders |
| Executors.AllSaved | src/core/execution/onchainLob/Executor.ts:347-349 | saving a list of orders keeps the symbols of both tables, adds events only, and leaves the snapshot flags and availability alone |
| Executors.AllSavedCompletes | src/core/execution/onchainLob/Executor.ts:347-349 | a list whose symbols are all known is saved completely |
| Executors.AllSavedStopsAtUnknown | src/core/execution/onchainLob/Executor.ts:347-349 | an order of an unknown symbol anywhere in the list aborts the handler |
| Executors.ConvertAll | src/core/execution/onchainLob/Executor.ts:343-345 | the orders of a market convert exactly when every tag is known, and then one to one and in order |
| Executors.RestSaved | src/core/execution/onchainLob/Executor.ts:362-366 | saving the REST open orders keeps the table symbols and availability, and aborts immediately on an unknown symbol; `RestSavedIsAllSaved` gives its tables |
| Executors.RestSavedIsAllSaved | src/core/execution/onchainLob/Executor.ts:362-366 | when every status converts, the REST loop is the save loop over the converted orders, so the `AllSaved` lemmas apply to it; an unknown status makes it abort |
| Executors.MarketOrders | src/core/execution/onchainLob/Executor.ts:343-344 | the stream orders kept are exactly those of the given market, never more than there are; order and repeats are stated by `MarketOrdersAppend` and `MarketOrdersSingle` |
| Executors.MarketOrdersAppend | src/core/execution/onchainLob/Executor.ts:343-344 | the filter of a concatenation is the concatenation of the filters, so order and repeats are kept |
| Executors.MarketOrdersSingle | src/core/execution/onchainLob/Executor.ts:343-344 | a single order is kept exactly when it is of the market |
| Executors.WithAvailability | src/core/execution/onchainLob/Executor.ts:50-55 | the setter stores the value and emits `availabilityChanged` exactly when the value changes |
| Executors.RecordSnapshot | src/core/execution/onchainLob/Executor.ts:368-377 | a snapshot sets the market's flag, and availability becomes "all markets, or every flag set" |
| Executors.FinishMarket | src/core/execution/onchainLob/Executor.ts:352-380 | a failed REST request aborts with nothing more done; for a snapshot, the tables become those of `RestSaved` over the REST orders, which aborts the handler when it aborts, and the flag and availability are updated; in every case that does not abort, the last event is `ordersChanged` with the market's stream orders |
| Executors.OnMarket | src/core/execution/onchainLob/Executor.ts:333-380 | an unresolved market aborts with no change; otherwise the market's orders convert and the last event carries them; the tables are `AllSaved` of the converted stream orders, followed for a snapshot by `RestSaved` of the REST orders; a snapshot updates the flag and availability, and a non-snapshot leaves them alone |
| Executors.ProcessMarkets | src/core/execution/onchainLob/Executor.ts:332-381 | the loop over the selected markets keeps the table symbols and their keying, and changes nothing for an empty selection |
| Executors.IndexOf | src/core/execution/onchainLob/Executor.ts:329 | `indexOf` gives the first position of the value, or −1 exactly when it is absent |
| Executors.FirstOccurrencesFromShape | src/core/execution/onchainLob/Executor.ts:327-329 | the `indexOf` filter keeps each value once, at its first occurrence, in order of first appearance |
| Executors.OrderedPrepend | src/core/execution/onchainLob/Executor.ts:327-329 | prepending a value first seen at position `k` to distinct values first seen after `k`, ordered by first appearance, keeps them distinct and ordered |
| Executors.Distinct | src/core/execution/onchainLob/Executor.ts:327-329 | the distinct market ids: no duplicates, the same set of values, in order of first appearance |
| Executors.FirstOccurrencesFrom | src/core/execution/onchainLob/Executor.ts:327-329 | `filter((v, i, a) => a.indexOf(v) === i)` from a position on; characterised by `FirstOccurrencesFromShape` |
| Executors.MarketIdsOfOrders | src/core/execution/onchainLob/Executor.ts:327-328 | the market id of each stream order, in order |
| Executors.SelectMarkets | src/core/execution/onchainLob/Executor.ts:322-330 | a named market selects itself; "allMarkets" selects the configured markets for a snapshot, and otherwise the distinct market ids of the stream orders in order of first appearance |
| Executors.HandleUpdate | src/core/execution/onchainLob/Executor.ts:316-389 | a stream update keeps the symbols of both tables and their keying; the per-market effect is `OnMarket`'s through `ProcessMarkets`, and `SingleMarketUpdate` gives it for a named market |
| Executors.SingleMarketUpdate | src/core/execution/onchainLob/Executor.ts:322-330 | an update for one named market leaves exactly the state of that market's handler body |
| Executors.UnknownMarketStopsHandler | src/core/execution/onchainLob/Executor.ts:333-341 | an unresolved market id ends the handler: the result is that of processing only the markets before it |
| Executors.ConvertedOrdersComeFromMarket | src/core/execution/onchainLob/Executor.ts:343-345 | every order emitted for a market is the conversion of one of that market's stream orders and carries the market's symbol |
| Executors.SnapshotAvailability | src/core/execution/onchainLob/Executor.ts:368-377 | a snapshot for one named market makes the executor available exactly when every other known market already had its snapshot |
| Executors.AllReceived | src/core/execution/onchainLob/Executor.ts:372-375 | the `reduce` with `&&` from true over the snapshot flags: true exactly when every flag is set |
| Executors.LastSaved | src/core/execution/onchainLob/Executor.ts:347-349 | the order with a given symbol and id that comes last in the list, with no later such order, or none when there is no such order |
| Executors.LastIndexOf | src/core/execution/onchainLob/Executor.ts:347-349 | no order after a position has the same symbol and id |
| Executors.Mentions | src/core/execution/onchainLob/Executor.ts:347-349 | some saved order has this symbol and transaction hash; `AllSavedPendingEffect` uses it |
| Executors.AllSavedActiveEffect | src/core/execution/onchainLob/Executor.ts:391-407 | after saving a list, each active entry is decided by the last saved order with that id (kept only if active), and entries no order names are unchanged |
| Executors.AllSavedPendingEffect | src/core/execution/onchainLob/Executor.ts:409-427 | after saving a list, the pending entries under the saved orders' hashes are gone and all others are unchanged |
| Executors.AllSavedNoPendingLeft | src/core/execution/onchainLob/Executor.ts:413-418 | when no saved order has a pending entry, the pending table and the events are unchanged |
| Executors.AllSavedIdempotent | src/core/execution/onchainLob/Executor.ts:391-427 | saving the same list a second time leaves the active and pending tables unchanged and emits no event |
| Executors.CancelFrom | src/core/execution/onchainLob/Executor.ts:211-268 | after the guard passes, the order is marked cancelling and a nonce taken; the claim is sent exactly for a configured symbol; a returned hash is recorded as mapping to the order and is tracked |
| Executors.CancelFromFootprint | src/core/execution/onchainLob/Executor.ts:218-255 | a cancel adds at most the order id and the claim hash to the cancelling map and changes no other key |
| Executors.CancelAsWritten | src/core/execution/onchainLob/Executor.ts:207-269 | with the guard as written, an order not already cancelling is left alone: no nonce, no claim, no change |
| Executors.CancelFixed | src/core/execution/onchainLob/Executor.ts:207-269 | with the guard as its comment intends, an order already cancelling is left alone, and otherwise it is marked, a nonce is taken and the claim is sent |
| Executors.CancelAsWrittenNeverCancels | src/core/execution/onchainLob/Executor.ts:209 | from an empty cancelling map, as after construction, a cancel as written never does anything |
| Executors.CancelFixedSendsOnce | src/core/execution/onchainLob/Executor.ts:209 | with the intended guard, the first cancel sends a claim and marks the order, and a second cancel of the same order does nothing |
| Executors.CancellingCleaned | src/core/execution/onchainLob/Executor.ts:436-440 | a failed transaction hash that maps to an order removes both the hash and the order id, and otherwise the map is unchanged; nothing is added |
| Executors.MarketIdsOf | src/core/execution/onchainLob/Executor.ts:101-107 | the market ids are the contract addresses of the symbols in order; construction throws exactly when a symbol is unconfigured or has no address |
| Executors.ValuesOf | src/core/execution/onchainLob/Executor.ts:117-123 | `Array.from(map.values())` lists each key's value once |
| Executors.Executor.constructor | src/core/execution/onchainLob/Executor.ts:92-110 | the fields hold the given tables, every snapshot flag starts false, and nothing is available, emitted, sent or tracked |
| Executors.Executor.EmptyMaps | src/core/execution/onchainLob/Executor.ts:92-99 | an empty table of each kind for each symbol |
| Executors.Executor.Create | src/core/execution/onchainLob/Executor.ts:92-111 | construction fails exactly when a market id cannot be found; otherwise every table is empty per symbol, the cancelling maps are empty, one false flag exists per market, and the executor is unavailable |
| Executors.Executor.IsOrderCanceled | src/core/execution/onchainLob/Executor.ts:113-115 | holds exactly when the id is a key of the symbol's cancelling map, and never while those maps are empty |
| Executors.Executor.GetActiveOrders | src/core/execution/onchainLob/Executor.ts:117-119 | exactly the stored active orders of the symbol, each once, all active |
| Executors.Executor.GetPendingOrders | src/core/execution/onchainLob/Executor.ts:121-123 | exactly the stored pending orders of the symbol, each once, all `Pending` with id equal to hash |
| Executors.Executor.SetIsAvailable | src/core/execution/onchainLob/Executor.ts:50-55 | the state becomes `WithAvailability` of the old state, and nothing else changes |
| Executors.Executor.TryRemovePendingOrder | src/core/execution/onchainLob/Executor.ts:413-428 | the state becomes `PendingRemoved` of the old state, and nothing else changes |
| Executors.Executor.SaveOrder | src/core/execution/onchainLob/Executor.ts:391-411 | the state becomes `Saved` of the old state, or is unchanged when the symbol is unknown and the call throws |
| Executors.Executor.SaveOrders | src/core/execution/onchainLob/Executor.ts:347-349 | the loop saves the list as `AllSaved` does and reports whether it completed |
| Executors.Executor.SaveRestOrders | src/core/execution/onchainLob/Executor.ts:362-366 | the loop converts and saves the REST orders as `RestSaved` does |
| Executors.Executor.FinishMarketOrders | src/core/execution/onchainLob/Executor.ts:352-380 | the snapshot part and the emission of one market, as `FinishMarket` |
| Executors.Executor.HandleMarket | src/core/execution/onchainLob/Executor.ts:333-380 | one market of the handler, as `OnMarket` |
| Executors.Executor.UserOrdersHandler | src/core/execution/onchainLob/Executor.ts:316-389 | the handler's new state is `HandleUpdate` of the old one; the cancelling maps, submissions and tracked transactions are untouched |
| Executors.Executor.OrderSend | src/core/execution/onchainLob/Executor.ts:125-205 | without a provider nothing changes; otherwise a nonce is taken and one placement is submitted with it; a returned hash records exactly one `NewPendingOrder` under it, tracked unless fire-and-forget; active orders and cancelling maps are untouched |
| Executors.Executor.SubmitPlacement | src/core/execution/onchainLob/Executor.ts:150-204 | the placement is submitted with the given nonce, and its returned hash, if any, records the pending order |
| Executors.Executor.RecordPlacement | src/core/execution/onchainLob/Executor.ts:194-204 | the pending order is stored under its hash and tracked unless fire-and-forget |
| Executors.Executor.CancelAfterGuard | src/core/execution/onchainLob/Executor.ts:211-268 | the cancelling map, nonce cache, submissions and tracked transactions change exactly as `CancelFrom` says |
| Executors.Executor.MarkCancelling | src/core/execution/onchainLob/Executor.ts:218 | the order id is marked as cancelling itself |
| Executors.Executor.SubmitClaim | src/core/execution/onchainLob/Executor.ts:233-268 | the claim is submitted for a configured symbol, and a returned hash is mapped to the order and tracked |
| Executors.Executor.OrderCancel | src/core/execution/onchainLob/Executor.ts:207-269 | `orderCancelAsync` as written: the cancelling map and nonce cache change as `CancelAsWritten` says; while the cancelling maps are empty nothing at all changes |
| Executors.Executor.OrderCancelFixed | src/core/execution/onchainLob/Executor.ts:207-269 | the cancel with the intended guard, as `CancelFixed`: a new order is marked cancelling and its claim is submitted |
| Executors.Executor.CleanupFailedTransaction | src/core/execution/onchainLob/Executor.ts:434-440 | a failed transaction removes its pending order and cleans the cancelling map as `CancellingCleaned` |
| Executors.Executor.TrackerErrorReceived | src/core/execution/onchainLob/Executor.ts:430-441 | a tracking error removes the pending order and cleans the cancelling map |
| Executors.Executor.TrackerReceiptReceived | src/core/execution/onchainLob/Executor.ts:443-458 | a success receipt changes nothing; any other status removes the pending order and cleans the cancelling map |
| Executors.Executor.TrackerCanceled | src/core/execution/onchainLob/Executor.ts:460-472 | a timeout removes the pending order and cleans the cancelling map; any other cancel event changes nothing |
| Makers.GetOrderCancellationReason | src/maker/Maker.ts:384-396 | the reason is chosen by priority: too close, else too far, else the third flag's "side is disabled", else "price source is unavailable" |
| Makers.IsTooClose | src/maker/Maker.ts:182 | the order is at most modifySpread percent from the middle |
| Makers.IsTooFar | src/maker/Maker.ts:183 | the order is at least the maximum distance from the middle |
| Makers.LoggedReason | src/maker/Maker.ts:187 | the reason as logged, with `params.enabled` in the side-disabled slot; `LoggedReasonMislabels` is about it |
| Makers.IntendedReason | src/maker/Maker.ts:187 | the reason with `!params.enabled` in that slot; `IntendedReasonHolds` is about it |
| Makers.DistanceBounds | src/maker/Maker.ts:177-183 | at a positive middle price, a distance of at most c percent means a bid at or above middle·(1 − c/100), or an ask at or below middle·(1 + c/100); at least c percent is the mirror condition |
| Makers.LoggedReasonMislabels | src/maker/Maker.ts:187 | an order of an enabled side that is cancelled only because the source is down is logged as "side is disabled", which is false |
| Makers.IntendedReasonHolds | src/maker/Maker.ts:186-187 | with the side-disabled flag passed as intended, the logged reason is always one that holds for the order |
| Makers.ZeroMiddleDistance | src/maker/Maker.ts:177-183 | at middle price 0 a positive bid is too close and an ask too far, because of the infinite distances |
| Makers.DistanceInPercents | src/maker/Maker.ts:177-180 | the distance of a price outside the middle, in percent of the middle, for either side; at middle 0 the JavaScript infinities and NaN; compared by `DistanceBounds` |
| Makers.MaxDistanceInPercents | src/maker/Maker.ts:170-173 | spread plus half a limit distance plus limitCount − 1 limit distances |
| Makers.NeedsCancel | src/maker/Maker.ts:182-186 | an active order must be cancelled when too close, too far, its side disabled or the source down; `PlanCancelsIff` ties the plan to it |
| Makers.TargetBestPrice | src/maker/Maker.ts:215-218 | the target lies the spread inside the middle on the bid side and outside it on the ask side |
| Makers.TargetDistance | src/maker/Maker.ts:215-218 | for a non-zero middle the target lies exactly spreadInPercents from the middle, as `DistanceInPercents` measures |
| Makers.MaxPrice | src/maker/Maker.ts:289 | the ladder's limit: the maximum distance below the middle for bids and above it for asks |
| Makers.MaxPriceDistance | src/maker/Maker.ts:170-174 | for a non-zero middle the ladder's limit lies exactly `MaxDistanceInPercents` from the middle |
| Makers.SortBy | src/maker/Maker.ts:168 | the sort by a numeric key, as an insertion sort; `SortByFacts` proves it sorted and a permutation |
| Makers.InsertBy | src/maker/Maker.ts:168 | one insertion step of the sort; `InsertByPerm` and `InsertBySorted` are about it |
| Makers.BestFirstKey | src/maker/Maker.ts:208 | the sort key of the retained list: descending prices for bids and ascending for asks |
| Makers.SideActive | src/maker/Maker.ts:166-168 | the side's active orders ascending by price; characterised by `SideActiveMembers` |
| Makers.CancelFor | src/maker/Maker.ts:177-199 | one order yields its cancel exactly when it needs one |
| Makers.CancelActions | src/maker/Maker.ts:176-200 | the cancel loop over a side's active orders, in order; characterised by `CancelActionsMembers` |
| Makers.SideOrders | src/maker/Maker.ts:205-208 | the retained orders, best first; characterised by `SideOrdersBestFirst` |
| Makers.BestOrderStep | src/maker/Maker.ts:215-276 | the best-order rule; characterised by `BestOrderRule` |
| Makers.HasOrderNear | src/maker/Maker.ts:296-298 | some retained order lies within half the limit distance of the level |
| Makers.LevelFor | src/maker/Maker.ts:296-313 | one ladder level places at its truncated price exactly when no retained order is near |
| Makers.HalfLimitDistance | src/maker/Maker.ts:296 | half the limit distance as a price |
| Makers.OpenLevel | src/maker/Maker.ts:293-300 | a level inside the range with no retained order near it |
| Makers.InLadderRange | src/maker/Maker.ts:293 | the ladder loop condition: above the limit for bids, below it for asks |
| Makers.Sign | src/maker/Maker.ts:278 | −1 for bids and 1 for asks |
| Makers.Outward | src/maker/Maker.ts:287-294 | one signed step further from the middle: down for bids, up for asks |
| Makers.Ladder | src/maker/Maker.ts:291-314 | the ladder loop from the start price outwards; characterised in both directions by `LadderPlaces` and `LadderOpenLevelsPlaced`, and by `LadderLength` |
| Makers.PlanSide | src/maker/Maker.ts:162-314 | one side's cancels, places, notices and best price; characterised by `PlanShape`, `PlanCancelsIff` and `BestOrderRule` |
| Makers.Crosses | src/maker/Maker.ts:332-338 | a place crosses when the opposite side has a best price and a bid is at or above it, or an ask at or below it |
| Makers.CallsFor | src/maker/Maker.ts:317-347 | one action gives its call, or none for an order already cancelling or a crossing place |
| Makers.Dispatch | src/maker/Maker.ts:316-348 | the dispatch loop over a side's actions in order; characterised by `DispatchCalls` |
| Makers.SideStep | src/maker/Maker.ts:162-349 | one pass of the sides loop: plan, record the best price, dispatch; `SourceDownSide` and `BidPlacesNeverSuppressed` are about it |
| Makers.Filter | src/maker/Maker.ts:164 | `filter` keeps exactly the elements that satisfy the test |
| Makers.OfSide | src/maker/Maker.ts:164-167 | the orders of a side are exactly those with that side |
| Makers.WithoutActiveHashes | src/maker/Maker.ts:148-150 | the pending orders kept are exactly those whose hash no active order shares |
| Makers.NotCancelled | src/maker/Maker.ts:206 | the orders kept are exactly those that no queued cancel names |
| Makers.InsertByPerm | src/maker/Maker.ts:168 | inserting into the sorted list adds exactly that order |
| Makers.InsertBySorted | src/maker/Maker.ts:168 | inserting into a sorted list keeps it sorted |
| Makers.SortByFacts | src/maker/Maker.ts:166-168 | the sort by price gives a sorted permutation of its input |
| Makers.SideActiveMembers | src/maker/Maker.ts:166-168 | a side's active orders are exactly the active orders of that side, sorted by ascending price |
| Makers.SideOrdersBestFirst | src/maker/Maker.ts:205-208 | the retained orders are the active orders no cancel names plus the pending orders, and the first is the best: the highest bid or the lowest ask |
| Makers.CancelActionsMembers | src/maker/Maker.ts:176-200 | a cancel of the symbol is queued exactly for each active order of the side that is too close or too far, of a disabled side, or seen while the source is down |
| Makers.CancelNoticesMatch | src/maker/Maker.ts:186-191 | one notice per queued cancel, carrying the order's id and the reason the source logs |
| Makers.NoticeFor | src/maker/Maker.ts:186-191 | one order yields its notice exactly when it needs a cancel |
| Makers.CancelNotices | src/maker/Maker.ts:186-191 | the notices of the cancel loop, in order; characterised by `CancelNoticesMatch` |
| Makers.LadderIncrement | src/maker/Maker.ts:279-285 | the ladder step is at least one price unit, 10^−pricePrecision, and therefore positive |
| Makers.LadderStepDecreases | src/maker/Maker.ts:291-295 | each pass of the ladder loop brings the price at least one step closer to the limit, so the loop ends |
| Makers.LadderUnfold | src/maker/Maker.ts:291-314 | one pass of the ladder loop contributes its level's place and then continues one step further out |
| Makers.LadderCovered | src/maker/Maker.ts:291-298 | every ladder level inside the range has a retained order within half the limit distance |
| Makers.LadderEmptyIffCovered | src/maker/Maker.ts:291-314 | the ladder queues no place exactly when every one of its levels inside the range already has a retained order near it |
| Makers.KeptBestCoveredQueuesNothing | src/maker/Maker.ts:257-314 | when the best retained order is kept, the side queues no place exactly when every ladder level from that order outwards has a retained order near it, as when orders already rest at every ladder price |
| Makers.LadderPlaces | src/maker/Maker.ts:291-314 | every ladder action is a place of the side's quantity for the symbol, at the truncated price of a grid level, the start moved outwards by k whole steps, that lies in range with no retained order within half the limit distance |
| Makers.LadderOpenLevelsPlaced | src/maker/Maker.ts:291-314 | conversely, every grid level the start moved outwards by k whole steps that lies in range with no retained order near it gets a place of the side's quantity at its truncated price |
| Makers.LadderLength | src/maker/Maker.ts:291-295 | with no orders to skip, a ladder whose gap to the limit spans n steps places n orders |
| Makers.LadderCount | src/maker/Maker.ts:288-295 | the loop runs while the gap spans at least one step, and each pass takes one step off the count |
| Makers.PlacingActionsShape | src/maker/Maker.ts:227-314 | every place a side queues is for the symbol, that side and the side's quantity |
| Makers.PlanShape | src/maker/Maker.ts:162-314 | a side places exactly when it is enabled and the source is available; otherwise it has no best price and queues only cancels; all its actions are for the symbol |
| Makers.PlanActions | src/maker/Maker.ts:176-203 | the cancels of a side's plan are exactly its queued cancels |
| Makers.PlanCancelsIff | src/maker/Maker.ts:176-200 | an active order of the side is cancelled by the plan exactly when the cancel rule says it must be |
| Makers.BestOrderRule | src/maker/Maker.ts:227-276 | with no retained order a place at the truncated target is queued and no best price set; otherwise the best price is the best retained order's; a place at the target is queued when that order's distance is at least 2·spread − modifySpread, and otherwise nothing is queued and the ladder starts from the best order's price |
| Makers.BestPrices.With | src/maker/Maker.ts:236 | recording a side's best price leaves the other side's as it was |
| Makers.DispatchCalls | src/maker/Maker.ts:316-348 | every cancel of an order not already cancelling is sent, every place that does not cross the opposite best is sent, in one call per action, and nothing else is |
| Makers.DispatchSendsAll | src/maker/Maker.ts:332-346 | places facing no opposite best price are all sent, one send per place in the same order, with its symbol, price, quantity and side |
| Makers.Tick | src/maker/Maker.ts:136 | a tick does nothing unless the executor is available and a top of book has been seen |
| Makers.BidPlacesNeverSuppressed | src/maker/Maker.ts:316-349 | every bid place the plan queues is sent, because the bid side is dispatched before the ask side has a best price |
| Makers.AsksNeverCrossBestBid | src/maker/Maker.ts:332-345 | every ask sent is above the bid side's best price whenever the bid side set one |
| Makers.SourceDownSendsNothing | src/maker/Maker.ts:203 | as written, with the source down a tick sends no call at all, although every active order is logged as needing a cancel |
| Makers.SourceDownCancelsAll | src/maker/Maker.ts:203 | with the skip applied to placing only, a tick with the source down sends a cancel for every active order not already cancelling, and nothing else |
| Makers.SourceDownSide | src/maker/Maker.ts:176-203 | with the skip applied to placing only, a side with the source down sends only cancels, one for each of its active orders, and keeps the best prices |
| Makers.EmptyLadderGap | src/maker/Maker.ts:288-289 | one step beyond the target, the first ladder level lies limitCount − 0.5 limit distances minus that step inside the limit price |
| Makers.EmptySidePlan | src/maker/Maker.ts:264-314 | with no orders and a ladder step within rounding of the limit distance, a side plans exactly limitCount places, each of the side's quantity under the symbol, and no best price |
| Makers.SideSends | src/maker/Maker.ts:264-346 | with no orders and a ladder step within rounding, a side facing no opposite best sends exactly limitCount places, each of its side and quantity, and no cancel |
| Makers.EmptyPlacing | src/maker/Maker.ts:264-314 | with no orders and a ladder step within rounding of the limit distance, a side's placing actions number exactly limitCount |
| Makers.EmptyLadder | src/maker/Maker.ts:278-314 | with no retained orders and a step within rounding, the ladder from one step beyond the target has limitCount − 1 levels |
| Makers.EmptyBestStep | src/maker/Maker.ts:264-276 | with no orders, the best-order step queues one place at the target and sets no best price |
| Makers.PlacingLength | src/maker/Maker.ts:227-314 | a side's places are its best-order places followed by its ladder from one step beyond the target |
| Makers.PlacingActions | src/maker/Maker.ts:227-314 | the best-order places followed by the ladder from one step beyond the target; characterised by `PlacingActionsShape` and `PlacingLength` |
| Makers.EmptyLadderLength | src/maker/Maker.ts:291-295 | with no orders, a ladder whose step is within 1/(2·limitCount) of the limit distance and which starts limitCount − 0.5 distances minus one step inside the limit places limitCount − 1 orders |
| Makers.LadderWithinRounding | src/maker/Maker.ts:279-285 | the side is enabled with at least one level and a positive limit distance, and the ladder step is within 1/(2·limitCount) of that distance |
| Makers.StepsWithinRounding | src/maker/Maker.ts:279-295 | a step within 1/(2·c) of the distance s leaves the ladder's start strictly more than c − 2 and at most c − 1 steps inside the limit |
| Makers.EmptyBookTick | src/maker/Maker.test.ts:96-99 | a tick with no orders, whose truncated ladder steps are within 1/(2·limitCount) of the exact limit distances, makes exactly bids.limitCount + asks.limitCount calls, all sends and no cancel: the first bids.limitCount are bids of the bid quantity, the rest asks of the ask quantity; no cancel is logged |
| Makers.TestEmptyBookTick | src/maker/Maker.test.ts:65-99 | with the test's configuration and its book's top of book (lowest buy 102903.13, highest sell 102906.05, middle 102904.59), and truncation to four digits off by less than one unit, a tick on an empty book makes six calls, all sends of 200000 and no cancel, three bids then three asks, and logs no cancel |
| Makers.Maker.constructor | src/maker/Maker.ts:17-42 | a maker starts with no top of book, executor and source unavailable, no tick running and nothing sent |
| Makers.Maker.OrdersChanged | src/maker/Maker.ts:58-69 | an orders update starts a tick exactly when none is running, and is dropped otherwise |
| Makers.Maker.SourceAvailabilityChanged | src/maker/Maker.ts:71-96 | the flag is stored; a tick starts exactly when the source became available and none is running |
| Makers.Maker.SourceOrderBookUpdated | src/maker/Maker.ts:98-133 | an update for another symbol, or with the same bid and ask as the last seen, is ignored; otherwise the top of book is recorded and a tick starts exactly when none is running |
| Makers.Maker.ExecutorAvailabilityChanged | src/maker/Maker.ts:368-382 | only the executor flag changes, and no tick starts |
| Makers.Maker.RunTick | src/maker/Maker.ts:135-362 | the started tick appends `Tick`'s calls and notices, then releases the tick flag |
| Makers.Maker.OnTick | src/maker/Maker.ts:135-362 | `onTick` appends exactly what `Tick` computes from the current flags, top of book and orders, and changes no flag |
| Makers.Maker.TickSide | src/maker/Maker.ts:162-349 | one pass of the sides loop appends what `SideStep` computes, with the source's skip, and returns the new best prices |
| Makers.Maker.PlaceSide | src/maker/Maker.ts:215-314 | the places queued for a placing side are `PlacingActions`, and its best price is recorded when it has one |
| Makers.Maker.BestOrder | src/maker/Maker.ts:215-276 | the best-order step gives `BestOrderStep`'s actions, target and best price |
| Makers.Maker.QueueCancels | src/maker/Maker.ts:176-200 | the cancel loop queues `CancelActions` and logs `CancelNotices` |
| Makers.Maker.QueueCancel | src/maker/Maker.ts:177-199 | one order's cancel check queues and logs as `CancelFor` and `NoticeFor` |
| Makers.Maker.PlaceLadder | src/maker/Maker.ts:291-314 | the ladder loop queues exactly `Ladder` |
| Makers.Maker.PlaceLevel | src/maker/Maker.ts:296-313 | one ladder level queues a place exactly when no retained order is near |
| Makers.Maker.DispatchActions | src/maker/Maker.ts:316-348 | the dispatch loop sends exactly `Dispatch` of the actions |
| Makers.Maker.DispatchAction | src/maker/Maker.ts:317-347 | one action is sent, or skipped as already cancelling or as a cross trade, as `CallsFor` says |

## Left out

- Floating point: prices, distances and the middle price are exact reals. `toFixed` is the `truncate` parameter and `parseFloat` the `parse` parameter. The exact decimal prices in `src/maker/Maker.test.ts` are not proved. `EmptyBookTick` gives their count whenever truncation moves each ladder step by less than 1/(2·limitCount) of itself, and `TestEmptyBookTick` applies it to the test's book, whose top of book is its lowest buy 102903.13 and highest sell 102906.05.
- Division by a zero middle price is modelled by an extended-real distance (±Infinity, NaN). NaN comparisons are false, as in JavaScript.
- JavaScript `Map` insertion order is not modelled. `GetActiveOrders`, `GetPendingOrders` and `ValuesOf` return every value once in an unspecified order. The snapshot flags are a Dafny map.
- Sort stability is not modelled: the sorts by price are proved sorted and a permutation, but the order among equal prices they produce is not tied to the engine's.
- Concurrency: the async mutexes are left out. The `Maker`'s drop-on-busy lock is the `tickRunning` flag, and a started tick runs atomically in `RunTick`. The `Executor`'s handlers run one at a time, and a handler's awaits are not interleaved with other handlers.
- `NonceManagers.NonceManager.GetNonce`: the two `Date.now()` readings in one call are the same instant `now`. The RPC read is the `observed` parameter. The singleton `getInstance` is an explicit object.
- Network and chain calls become parameters or entries in the `submissions`/`tracked` logs: `getAddress`, `placeOrder`, `claimOrder`, `getOrders` and `trackTransactionAsync`. No response is performed.
- `src/core/wallet/evm/RpcTransactionTracker.ts` is not part of this model. Only its three outcome events are modelled, as inputs to the tracker handlers.
- `Executor.approveAsync`/`allowanceAsync` are left out: they are ERC-20 contract calls.
- `MakerConfig.getNetworks`/`getNetwork` are left out. They are plain record reads that the core never calls, and the network table is kept as a field.
- The WebSocket provider, `start.ts`, `index.ts`, `config.ts`, the logger and all logging side effects are left out. The maker's cancellation-reason log lines are kept as `notices`, because they are what `LoggedReasonMislabels` is about.
- Exceptions are modelled only on the paths the core code takes:
  - an unknown order status, or an unknown symbol in `saveOrder`, aborts the user-orders batch;
  - a failed send returns `None` from the send parameter;
  - an empty book symbol and a non-integral quantity make construction fail.
  - Other exceptions inside `onTick` are not modelled; its `try`/`finally` only logs.
- Lookups of JavaScript prototype-inherited keys are not modelled. This covers `BinanceSymbols.getSymbol("toString")`, `MakerConfig.getSymbol("constructor")` and the like. Dafny maps have no such keys.
- Case mapping covers ASCII letters only. `Common.ToLower` and `Common.ToUpper` leave every other character unchanged, where JavaScript's `toLowerCase`/`toUpperCase` map by Unicode: `"ß"` upper-cases to `"SS"`, and U+212A (Kelvin sign) lower-cases to `"k"`. Four members depend on this: `DeriveStatus`, `SameAddress`, `GetRestSymbol` and `NormalizeSymbol`. Status tags, hex addresses and the stream ids are ASCII.
- `MakerConfigs.MakerConfig.Create` builds new normalised settings. The constructor instead rewrites the caller's symbol objects in place (`src/maker/configuration/MakerConfig.ts:14-18`), and those objects are shared with whoever holds the raw configuration. That sharing is not modelled. Nor is the partial rewrite left behind when a later `BigInt` conversion throws: earlier symbols, and the ask quantity of the failing one, are already converted.
- The type-only files (`SymbolConfig.ts`, `MakerAction.ts`, `IExecutor.ts`, `NetworkConfig.ts`, `Snapshot.ts`) appear only as datatypes. The `Maker` calls the executor through its recorded `calls` and an `isOrderCanceled` function parameter.
- `Executors.Executor.OrderCancel`: the contract says that a claim is submitted exactly when one more submission appears, but not that submission's exact content. As written the method never reaches the claim from the reachable states, because its cancelling maps stay empty. `OrderCancelFixed` states the content in full.
- `Makers.Maker.RunTick` and `Makers.Maker.OnTick` follow the code as written (`sendSkippedCancels` false). The corrected behaviour is proved only on the `Tick` function (`SourceDownCancelsAll`), not wired into the class.

## Findings

| source | as written | input that shows it | evidently intended | confidence | as-written member | corrected member |
|---|---|---|---|---|---|---|
| src/core/execution/onchainLob/Executor.ts:209 | `if (!symbolCancellingOrders.has(orderId)) return;` returns unless the order is already cancelling, and keys are only inserted after this guard | any `orderCancelAsync(id, symbol)` after construction, when the cancelling map is empty: no claim is ever sent | return only when the order is already being cancelled, as the comment says, and cancel otherwise | not executed | Executors.CancelAsWrittenNeverCancels | Executors.CancelFixedSendsOnce |
| src/maker/Maker.ts:203 | `continue` skips the rest of the side's loop body, including the dispatch at lines 316-348 | source unavailable, one active order: the order is logged as needing a cancel but no `orderCancelAsync` is called | skip only the placing part, and still dispatch the queued cancels | not executed | Makers.SourceDownSendsNothing | Makers.SourceDownCancelsAll |
| src/maker/Maker.ts:187 | passes `params.enabled` as `isSideDisabled` | an enabled side, an order neither too close nor too far, source down: the logged reason is "side is disabled" | pass `!params.enabled` | not executed | Makers.LoggedReasonMislabels | Makers.IntendedReasonHolds |
