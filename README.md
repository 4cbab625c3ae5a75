# PnlTracker portfolio accounting engine in Dafny

This project models the accounting engine of PnlTracker, a trading ledger. The engine takes executed trades and keeps one position per symbol using weighted-average-cost accounting. From those positions it answers two queries: the open positions, and realised and unrealised profit and loss (PnL) against a fixed table of market prices.

- `results.dfy` (module `Results`): the `Result` and `Outcome` wrappers. They stand for the source's `raise ValueError(...)`.
- `trade.dfy` (module `Trades`): the `Trade` record and its two field validators, `must_be_positive` and `normalize_symbol`. It also models constructing a trade, which runs both validators and reports every field they reject.
- `portfolio.dfy` (module `Portfolio`): `Position`, the accounting step `Apply`, the replay of a trade log, the sums behind `get_pnl`, and the class `PortfolioManager`.
  - The class holds the position map `positions` and the log of accepted trades `trades`.
  - `order` records the insertion order of the map's keys. Python iterates a dict in this order, so `get_pnl` reports the first missing price in this order.
  - `marketPrices` is the fixed price table: BTC 44000, ETH 2000.
  - The class invariant `Valid` says that each position equals the replay of the accepted log for its symbol. `AddTrade` keeps it on both the accept path and the reject path.
- `scenarios.dfy` (module `Scenarios`): each API test as a client of the class. Each scenario starts from a fresh store, submits that test's trades, and states the result as a postcondition.

Decimal amounts are exact `real` numbers. Prices and quantities can be fractional.

## Model

| member | source | states |
|---|---|---|
| Trades.MustBePositive | app/models/trade.py:15-20 | A value passes exactly when it is > 0. It passes unchanged. Otherwise the error is "Must be greater than 0". |
| Trades.UpperChar | app/models/trade.py:22-25 | Upper-casing one ASCII character. A lower-case letter becomes the same letter in upper case. Any other character is unchanged. The result is never a lower-case letter. |
| Trades.NormalizeSymbol | app/models/trade.py:22-25 | The stored symbol has the same length as the input. It contains no lower-case ASCII letter, and each character is the upper-cased input character. |
| Trades.NormalizeSymbolKeepsUpper | app/models/trade.py:22-25 | A symbol that is already upper case is stored as given. |
| Trades.NormalizeSymbolIdempotent | app/models/trade.py:22-25 | Normalising twice gives the same symbol as normalising once. |
| Trades.NewTrade | app/models/trade.py:7-25 | Constructing a trade succeeds exactly when price > 0 and quantity > 0. On success every field is kept, the symbol is normalised, and the trade is well formed. On failure, `Price` and `Quantity` are each reported exactly when that field is <= 0. |
| Portfolio.NewPosition | app/services/portfolio_manager.py:7-12 | A new position for a symbol holds nothing, has average price 0 and realised PnL 0, and is well formed. |
| Portfolio.Apply | app/services/portfolio_manager.py:27-46 | Accepted exactly when the trade is a buy or sells at most the held quantity. A rejection is `InsufficientQuantity(symbol)`. An accepted trade keeps the symbol and leaves a well-formed position: quantity >= 0, average >= 0, and average 0 exactly when nothing is held. Quantity moves by the signed trade quantity. A sell leaves the average unchanged, unless it sells the whole quantity; then the average is reset to 0. |
| Portfolio.ApplyAccounting | app/services/portfolio_manager.py:28-42 | A buy adds quantity × price to the cost basis (quantity × average) and realises nothing. A sell adds (price − average before the sell) × quantity to realised PnL. |
| Portfolio.PositiveAverage | app/services/portfolio_manager.py:28-35 | The blended average after a buy is strictly positive, and times the new quantity it gives the new total cost. So the division on line 35 is safe and exact. |
| Portfolio.PositionLifecycle | app/services/portfolio_manager.py:27-46 | A buy always succeeds and leaves the position open. A sell from an empty position always fails. A partial sell leaves the position open at the same average. A sell of exactly the held quantity closes it and resets the average to 0. |
| Portfolio.Replay | app/services/portfolio_manager.py:24-48 | Folding a log of well-formed trades into the position of one symbol always gives a well-formed position for that symbol. This quantity >= 0 invariant holds for every trade sequence. |
| Portfolio.ReplayUntraded | app/services/portfolio_manager.py:25 | A symbol that no trade in the log names still has the fresh position that `setdefault` would create. |
| Portfolio.BuysAverageIsWeightedMean | app/services/portfolio_manager.py:27-35 | After only buys of a fresh symbol, the quantity is the total bought. The average entry price is the quantity-weighted mean of the buy prices, and realised PnL is 0. |
| Portfolio.SumRealizedUpdate | app/services/portfolio_manager.py:69-84 | Replacing one position changes the realised total over all symbols by exactly the change in that position's realised PnL. |
| Portfolio.AcceptedTradeMovesRealizedTotal | app/services/portfolio_manager.py:41-42 | An accepted trade changes the store-wide realised total by exactly what the trade realises: (price − average) × quantity for a sell, 0 for a buy. Realised PnL therefore accumulates additively across sells. |
| Portfolio.CreateKeepsConsistent | app/services/portfolio_manager.py:25 | Creating the empty position for a new symbol, and appending the symbol to the key order, keeps the store invariant. |
| Portfolio.ReplaySnoc | app/services/portfolio_manager.py:24-48 | Replaying one more trade applies it to the replayed position of its own symbol and leaves every other symbol unchanged. A rejected trade leaves its position unchanged. |
| Portfolio.AcceptKeepsConsistent | app/services/portfolio_manager.py:24-48 | Writing back the position of an accepted trade and appending the trade to the log keeps the store invariant. |
| Portfolio.PortfolioManager.constructor | app/services/portfolio_manager.py:16-22 | A new store has no positions and an empty log, and satisfies the invariant. Its price table is BTC 44000, ETH 2000. |
| Portfolio.PortfolioManager.SetDefault | app/services/portfolio_manager.py:25 | Returns the held position, or creates and stores a fresh one. A new key is appended to the key order. The log is unchanged. |
| Portfolio.PortfolioManager.AddTrade | app/services/portfolio_manager.py:24-48 | Fails exactly when the trade sells more than is held, with `InsufficientQuantity(symbol)`. On failure the log is unchanged, and the only change to the map is the `setdefault` entry for a fresh symbol. On success the symbol's position becomes `Apply` of the old one and the trade is appended to the log. The invariant holds either way. |
| Portfolio.PortfolioManager.GetPortfolio | app/services/portfolio_manager.py:50-61 | The result holds exactly the symbols whose quantity is > 0. Each maps to that position's quantity, average entry price and realised PnL. |
| Portfolio.PortfolioManager.GetPnl | app/services/portfolio_manager.py:63-97 | Fails exactly when some open symbol has no market price. The error names the first such symbol in insertion order. On success the realised and unrealised totals are the sums over every symbol ever traded. The split has one entry per symbol. The unrealised value is (market − average) × quantity for an open position and 0 for a closed one, which never needs a price. |
| Scenarios.PortfolioEmpty | tests/test_api.py:17-19 | A fresh store has no open positions. |
| Scenarios.AddBuyTrade | tests/test_api.py:22-31 | A buy into a fresh store is accepted and logged. |
| Scenarios.SellWithoutPosition | tests/test_api.py:34-43 | A sell of an untraded symbol is rejected and nothing is logged. The symbol is left with an empty position. |
| Scenarios.PortfolioAfterBuys | tests/test_api.py:46-61 | Buying 1 @ 40000 and then 1 @ 42000 gives exactly BTC: quantity 2, average 41000. |
| Scenarios.RealizedPnlAfterSell | tests/test_api.py:64-81 | Then selling 1 @ 43000 gives realised PnL 2000. |
| Scenarios.UnrealizedPnl | tests/test_api.py:84-93 | Buying 1 @ 41000 against the BTC price 44000 gives unrealised PnL 3000. |
| Scenarios.OversellError | tests/test_api.py:96-107 | Selling 2 while holding 1 is rejected, and BTC stays at quantity 1, average 40000. |
| Scenarios.MultiSymbol | tests/test_api.py:110-124 | Buys in BTC and ETH leave both open. |
| Scenarios.PositionClosed | tests/test_api.py:127-138 | Buying 1 @ 40000 and selling 1 @ 41000 leaves no open position. The PnL still reports realised 1000 and unrealised 0. |

## Left out

- HTTP routing, status codes (400, 404, 422), JSON bodies and server start-up in app/main.py: a thin shell over a web library. Both `ValueError`s appear here as `LedgerError` values.
- Pydantic parsing and type coercion: converting strings to decimals, parsing the `Side` enum, and missing or mistyped fields. Trades arrive already parsed; `Side` is a two-constructor datatype. app/models/enums.py is not part of this model.
- `Trade.to_json` and `timestamp_to_human_datetime`: serialisation and clock wrappers. The timestamp is never interpreted.
- Decimal context rounding: Python's `Decimal` division rounds to the context precision, but the model divides exactly in `real`. The weighted-mean property is proved for exact arithmetic.
- Trades.NormalizeSymbol: models upper-casing over ASCII only, because Python's Unicode `str.upper()` can change length (for example 'ß' becomes 'SS') and uses Unicode case tables.
- Portfolio.Apply: `Position` is a value, not an object. Python updates the `Position` object stored in the dict one field at a time. The model computes the new position value and `AddTrade` stores it back. No reference to a `Position` leaves the store, because both queries copy its fields. Aliasing is therefore not observable, and the one check that can fail runs before any field changes, so no partial update is lost.
- Portfolio.PortfolioManager.GetPnl: models the dict's insertion order with the `order` sequence. The result maps are unordered, so the key order of the JSON output is not modelled.
- Concurrency: the store is process-wide state in the web process. The engine itself is sequential.
