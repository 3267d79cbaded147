# Trading mini-app core, modelled in Dafny

The repository is the server of a Telegram mini-app for short-term crypto
"up/down" trades. This project models and proves properties of its core,
which lives in `main.py`. The core has four parts:

- **The spot-price adapter** (`okx_get_price`). It normalises a symbol to an
  exchange instrument id, then makes a bounded number of ticker requests. Between
  failed attempts it pauses for a time that depends on how the attempt failed.
- **The synthetic candle engine** (`generate_realistic_candles`). It keeps a
  process-wide store of candle series, one per symbol and timeframe. It
  bootstraps a new series on the bar grid and catches a stored series up with
  the current bar. It trims the series and moves only the newest candle live.
- **The timeframe aggregator** (`aggregate_candles`). It sorts one-minute candles in
  place and cuts them into groups aligned to 2 or 10 minutes. It summarises
  each group as one candle.
- **The trade desk** (`api_trade_order`, `api_trade_status`). Placing an order
  checks the stake and the balance, charges a 2% fee and debits stake plus
  fee. Reading an order whose duration has run out settles it once. A rise or
  fall against the side gives win, loss or push. A win returns the stake and
  a 70% payout, a push returns the stake, and both also refund a fee. That fee
  is read from the account's most recent pending trade transaction, which need
  not be this order's.

Modules, one file each:

- `wrappers.dfy`: Option, Result, and real min/max/abs.
- `symbols.dfy`: Python string helpers and the instrument normalisation.
- `price_source.dfy`: the retry loop, as a method proved against a recursive specification.
- `arith.dfy`: integer division facts.
- `candles.dfy`: the candle engine, with the store as a class.
- `aggregation.dfy`: the aggregator, sorting and grouping on an array.
- `trading.dfy`: the order book as a value, and a class whose two methods are the endpoints.

State the source updates in place is modelled in place:

- The candle store is a map field of `CandleStore`. A ghost map beside it records the bar width of each key only ever used with one width; those series stay regular (well formed, exactly one bar apart, on the grid).
- The caller's list of candles is an `array` that `AggregateCandles` sorts.
- The account balance and the trades and transactions tables are fields of `Desk`.

Each method is proved equal to a function of its inputs and old state, and
the properties are proved about those functions.

Inputs that are not part of the model become parameters:

- The clock is `nowMs` (candles, milliseconds) or `now` (trades, microseconds).
- Random draws are `steps`, `seedFactor` and `intra`.
- The exchange is `responses`, which gives the outcome of attempt k (counted from 0). Pauses are recorded as a list of seconds.

## Model

| member | source | states |
|---|---|---|
| Symbols.Upper | main.py:191 | upper-casing keeps the length and maps each character through ASCII upper-case |
| Symbols.Replace | main.py:193 | Python's `str.replace`: every non-overlapping occurrence, scanned left to right, is replaced |
| Symbols.ReplaceCharRemoves | main.py:1417 | replacing a character by a string without it (as `replace('/', '')` does) leaves no occurrence of it |
| Symbols.Instrument | main.py:189-193 | the instrument id: a dashed name is kept, a name ending in USDT gets a dash before it, any other is upper-cased and quoted |
| Symbols.BaseSymbol | main.py:304 | the bare asset name: "-USDT" then "USDT" removed, then upper-cased |
| Symbols.BaseSymbolStripsQuote | main.py:304 | "BTC-USDT" gives "BTC" |
| Symbols.BaseSymbolKeepsLowerQuote | main.py:304 | "ethusdt" gives "ETHUSDT": stripping comes before upper-casing, so a lower-case quote stays |
| Symbols.InstrumentQuoted | main.py:189-193 | every instrument id contains a dash; a symbol without a dash ends in "-USDT"; a symbol with one is kept; normalising twice changes nothing |
| Symbols.InstrumentSplitsQuote | main.py:192-193 | a bare name followed by "USDT" (no dash, no 'U' in the name) becomes name + "-USDT" |
| Symbols.InstrumentInsertsDash | main.py:192-193 | "BTCUSDT" becomes "BTC-USDT" |
| Symbols.InstrumentQuotesBare | main.py:190-191 | "eth" becomes "ETH-USDT" |
| Symbols.InstrumentKeepsDashed | main.py:189 | "SOL-USDT" is sent unchanged |
| Symbols.ReplaceAtEnd | main.py:193 | replacing "USDT" in a name ending in "USDT" leaves the result ending in the replacement |
| PriceSource.FetchPrice | main.py:178-231 | the loop returns the normalised instrument id and exactly the price, attempt count and pauses of the recursive specification `Attempts` |
| PriceSource.Pause | main.py:209-228 | the pause after a failed attempt: 2^k seconds after a 429, 1 second after another status, a timeout or an exception, none after a 200 answer without a usable body |
| PriceSource.Attempts | main.py:195-231 | the attempts from number k on: a ticker ends them with its price; a failure pauses unless it was the last allowed attempt and moves on; no attempts left gives None |
| PriceSource.AttemptsPauses | main.py:209-228 | the pauses taken are, in order, the pauses owed after every attempt made but the last |
| PriceSource.AttemptsBounded | main.py:195-228 | at most `max_retries` attempts (at least one when any are allowed); no pause follows the last attempt |
| PriceSource.AttemptsFirstPrice | main.py:203-208 | a returned price is the ticker of the last attempt made and no earlier attempt produced one; None means every allowed attempt was made and none produced a price |
| PriceSource.RateLimitBackoff | main.py:209-213 | under persistent 429 answers the pauses are 2^k seconds, one fewer than the attempts, and the result is None |
| PriceSource.ThreeRateLimits | main.py:209-213 | with the default three retries, three 429 answers give no price after pauses of 1 s and 2 s |
| Candles.Volatility | main.py:310 | the volatility looked up for a symbol is positive (a table entry or 0.02) |
| Candles.TfMinutes | main.py:312-316 | the bar width in minutes is positive and divides a day; an unknown timeframe is 5 minutes |
| Candles.SeriesKey | main.py:318 | the store key is the symbol, an underscore and the timeframe |
| Candles.FirstOpen | main.py:306-333 | the first open of a new series is the given reference price, or the table's, times the drawn factor |
| Candles.BarStart | main.py:319-327 | the current bar start is on the minute grid, at or before the clock and less than one bar before it; for widths dividing a day it is on the bar grid |
| Candles.BarStartMonotone | main.py:319-327 | a later clock never gives an earlier bar start |
| Candles.Forge | main.py:341-359 | a generated candle has the given time and open, close = open * (1 + change), lies inside its OHLC envelope, and has at least its drawn volume |
| Candles.Moved | main.py:349 | a zero change keeps the price; a positive price stays positive under any change above -100% |
| Candles.Touch | main.py:475-481 | the live candle keeps time, open and volume, gets close = open * (1 + intra), and its high and low widen just enough to hold the new close, so the envelope is kept |
| Candles.Bootstrap | main.py:330-370 | the bootstrap loop produces exactly `Bootstrapped(limit)` (none for a limit of 0 or less) |
| Candles.Bootstrapped | main.py:330-370 | the first n candles of a new series, exactly n of them; their times and opens are stated by BootstrapTimes and BootstrapOpens |
| Candles.BootstrapTimes | main.py:336-338 | consecutive bootstrapped candles are one bar apart and the last of `limit` opens at the current bar start |
| Candles.BootstrapOpens | main.py:345-347 | the first bootstrapped candle opens at the drawn first price; each later one opens at the previous close moved by its gap |
| Candles.BootstrapWellFormed | main.py:336-368 | with in-range draws a bootstrapped series has increasing times and every candle in its envelope |
| Candles.BootstrapOnGrid | main.py:322-338 | with the bar start on the grid, every bootstrapped candle is on the grid |
| Candles.Extend | main.py:377-408 | the extension loop produces exactly `Extended` of the stored series |
| Candles.Extended | main.py:377-408 | catching up only appends to the stored series: the stored candles are a prefix of the result |
| Candles.ExtendedShape | main.py:377-408 | extension only appends, each new candle one bar after its predecessor and opening at its close; it stops at the first candle at or after the bar start, less than a bar past it, and adds nothing when already there |
| Candles.ExtendedWellFormed | main.py:377-408 | extension keeps a series well formed |
| Candles.ExtendedLandsOnBar | main.py:377-378 | from a newest candle a whole number of bars before the bar start, extension ends exactly at the bar start |
| Candles.ExtendedSpaced | main.py:377-408 | extension keeps a series exactly one bar apart |
| Candles.ExtendedOnGrid | main.py:377-408 | extension keeps a series on the bar grid |
| Candles.TakeLast | main.py:412 | Python's `s[-k:]`: a suffix of `s`, the last k elements for k >= 1, all of `s` for k = 0 |
| Candles.Trimmed | main.py:410-413 | the trimmed series is a suffix of the stored one, unchanged within `limit + 50` elements and exactly its last `limit + 50` candles otherwise; when `limit + 50 <= 0` only the suffix property is stated |
| Candles.SuffixWellFormed | main.py:410-413 | cutting candles off the front keeps a series well formed, one bar apart and on the grid |
| Candles.LiveUpdated | main.py:416-485 | only the newest stored candle changes, to its touched version, and only when the snapshot is not empty |
| Candles.LiveUpdatedWellFormed | main.py:478-484 | the live update keeps a series well formed |
| Candles.LiveUpdatedTimes | main.py:478-484 | the live update moves no opening time, so spacing and the grid are kept |
| Candles.LiveUpdatedRegular | main.py:478-484 | the live update keeps a series regular: well formed, one bar apart, on the grid |
| Candles.Refresh | main.py:329-413 | a new key is bootstrapped; a stored series is extended and trimmed; an empty stored series fails on its newest element |
| Candles.Refreshed | main.py:329-413 | catching up fails exactly for an empty stored series; a new key gets `limit` candles (none for a limit below 0) |
| Candles.Requested | main.py:318-413 | a request fails exactly when its key holds an empty series; an unknown key gets `limit` candles |
| Candles.RefreshedWellFormed | main.py:329-413 | catching up keeps a well-formed stored series well formed |
| Candles.BootstrappedRegular | main.py:330-370 | a series bootstrapped on the bar grid is regular |
| Candles.CaughtUpRegular | main.py:372-413 | catching up and trimming keeps a regular series regular |
| Candles.RequestRegular | main.py:329-485 | a whole request (bootstrap or catch-up, cut, live update) keeps a regular series regular |
| Candles.CaughtUpLandsOnBar | main.py:372-413 | a stored series on the grid, newest candle not after the bar start, is caught up and cut to end exactly at the bar start |
| Candles.RequestLandsOnBar | main.py:329-485 | after any request the newest stored candle opens at the current bar start, whenever the stored series is on the grid and not ahead of the clock |
| Candles.LiveSnapshot | main.py:416-485 | the returned candles are the last `limit` stored candles, with the newest of them touched |
| Candles.NoRepaint | main.py:372-485 | a request changes no stored candle except the newest; the older ones are shifted only by the trim |
| Candles.KeptAfterShift | main.py:410-416 | a candle kept by extension and by the cut is found at its shifted position |
| Candles.SameBarWidens | main.py:478-481 | within one bar, a repeated request keeps the live candle's time, open and volume; its high never falls and its low never rises |
| Candles.CatchUpIsExact | main.py:319-408 | a series bootstrapped at one clock and requested again at a later clock is extended to exactly the new bar start |
| Candles.SeriesKeysCollide | main.py:312-318 | the keys of "X" at "1m_1h" (5-minute bars) and "X_1m" at "1h" (hourly bars) are the same key |
| Candles.CandleStore.constructor | main.py:251 | the store starts empty |
| Candles.CandleStore.Generate | main.py:291-487 | the store changes only at the requested key, to the live-updated refreshed series, and the result is its last `limit` candles; on the empty-series error nothing changes; every stored series stays well formed, every key kept at one bar width stays regular, and such a key not ahead of the clock ends exactly at the current bar start |
| Candles.StoreStep | main.py:329-485 | one successful request keeps every series well formed and every tracked one regular, and lands a tracked key on the bar start |
| Candles.TrackedStep | main.py:329-485 | a request keeps the recorded widths' series regular, dropping a key reused at another width |
| Candles.TrackedLands | main.py:372-413 | a request at a tracked key not ahead of the clock ends on the bar start |
| Candles.LiveUpdate | main.py:416-485 | the stored series becomes `LiveUpdated` and the returned candles are its last `limit` |
| Aggregation.Span | main.py:571-573 | only "2m" and "10m" have a span, positive and dividing an hour |
| Aggregation.Insert | main.py:575 | insertion places an element after the last one not later than it, one element longer |
| Aggregation.SortByTime | main.py:575 | the sort keeps the length; its order and contents are stated by the lemmas below |
| Aggregation.InsertSorted | main.py:575 | insertion into a time-sorted run keeps it sorted |
| Aggregation.InsertPermutes | main.py:575 | insertion adds exactly the inserted element |
| Aggregation.SortByTimeSortsAndPermutes | main.py:575 | the sort orders by time and keeps exactly the input's elements |
| Aggregation.SortByTimeOfSorted | main.py:575 | a run already sorted by time is left as it is |
| Aggregation.SortInPlace | main.py:575 | the array is rearranged into `SortByTime` of its old contents |
| Aggregation.InsertNext | main.py:575 | one insertion pass leaves the prefix as the old prefix with the next element inserted, and the rest of the array untouched |
| Aggregation.Floor | main.py:581-583 | the floor is a multiple of the width at most one width below the time |
| Aggregation.FloorOfFloor | main.py:581-583 | flooring to a width and then to a multiple of it is flooring to that multiple |
| Aggregation.Boundary | main.py:580-583 | the calendar computation (start of the UTC hour plus whole groups of m minutes) equals flooring to m minutes when m divides 60 |
| Aggregation.RunLength | main.py:586-593 | the inner loop takes exactly the leading candles that open before the limit, and stops at the first that does not |
| Aggregation.FirstRun | main.py:586-593 | the first group holds at least one candle, all before its boundary plus the span, and the next candle is not before it |
| Aggregation.Bins | main.py:579-593 | there are no more groups than candles, at least one for non-empty input, and none is empty |
| Aggregation.BinsPartition | main.py:579-593 | concatenating the groups gives back the input exactly |
| Aggregation.BinsShareFloor | main.py:580-593 | on sorted input all members of a group share the group's floor boundary |
| Aggregation.BinsMembers | main.py:586-590 | every member of every group is an input candle |
| Aggregation.BinsSplit | main.py:579-593 | at a multiple of the span separating earlier from later candles, grouping the whole is grouping the two parts |
| Aggregation.Highest | main.py:598 | `max` of the highs of a non-empty group |
| Aggregation.Lowest | main.py:599 | `min` of the lows of a non-empty group |
| Aggregation.TotalVolume | main.py:601 | the sum of the volumes, a missing volume counting 0 |
| Aggregation.Summary | main.py:594-603 | a group becomes one candle: boundary time, first open, highest high, lowest low, last close, summed volume |
| Aggregation.Summaries | main.py:594-603 | one summary per group, as many as there are groups |
| Aggregation.Binned | main.py:577-603 | the aggregated candles are the summaries of the groups in order |
| Aggregation.HighestIsMax | main.py:598 | the group high bounds every member's high and is one of them |
| Aggregation.LowestIsMin | main.py:599 | the group low is below every member's low and is one of them |
| Aggregation.HighestConcat | main.py:598 | the high of two runs is the larger of their highs |
| Aggregation.LowestConcat | main.py:599 | the low of two runs is the smaller of their lows |
| Aggregation.TotalVolumeConcat | main.py:601 | the volume of two runs is the sum of their volumes, missing volumes counting 0 |
| Aggregation.SummariesAt | main.py:594-603 | output candle i is group i summarised: boundary time, first open, highest high, lowest low, last close, summed volume |
| Aggregation.SummariesConcat | main.py:594-603 | summaries of concatenated groups are the concatenated summaries |
| Aggregation.SummaryOfSummaries | main.py:595-602 | summarising the summaries of a partition gives the summary of the whole run |
| Aggregation.SummariesEnds | main.py:597-600 | the summaries open with the first group's open and close with the last group's close |
| Aggregation.BinnedIncreasing | main.py:577-603 | sorted input gives strictly increasing output times |
| Aggregation.RunSplits | main.py:586-593 | on sorted input the first group is exactly the candles before its boundary plus the span, and the rest stays sorted |
| Aggregation.ReAggregate | main.py:579-603 | grouping at a width and re-grouping the summaries at a multiple of it equals grouping directly at the multiple |
| Aggregation.Aggregate | main.py:568-573 | no input gives no output; an unsupported timeframe gives the input unchanged; the output is never longer than the input |
| Aggregation.AggregateGroups | main.py:575-603 | for 2m and 10m: the sorted input is a permutation, the groups cover it in order and share their floors, and output candle i summarises group i |
| Aggregation.AggregateIncreasing | main.py:579-603 | for 2m and 10m the output times strictly increase and lie on the timeframe's grid |
| Aggregation.BinnedSorted | main.py:579-603 | grouped output of non-empty sorted input is non-empty and sorted |
| Aggregation.AggregateTwice | main.py:557-605 | aggregating the 2m output to 10m equals aggregating directly to 10m |
| Aggregation.WholeRun | main.py:594-603 | a run inside one group window becomes the single summary stamped with its boundary |
| Aggregation.TenMinutes | main.py:579-603 | ten candles a minute apart from a 10-minute boundary become one 10m candle |
| Aggregation.BinnedStep | main.py:579-603 | one outer pass takes exactly the first group of what is left |
| Aggregation.TakeGroup | main.py:585-593 | the inner loop returns the slice of candles from `i` before the limit, and the next candle is not before it |
| Aggregation.BinRun | main.py:577-605 | the outer loop over the sorted array returns exactly the grouped summaries |
| Aggregation.AggregateCandles | main.py:557-605 | the result is `Aggregate` of the old list; the list is left as it was for empty input or an unsupported timeframe and sorted by time otherwise |
| Trading.Round6 | main.py:1411 | `round(x, 6)` is a multiple of 10^-6 within half of it of x, and non-negative for non-negative x |
| Trading.Round6Exact | main.py:1449 | a value with six decimals is kept, so rounding is idempotent |
| Trading.OrderFee | main.py:1405-1411 | the fee has six decimals, is within 5e-7 of 2% of the stake, and is non-negative for a non-negative stake |
| Trading.CheckOrder | main.py:1407-1415 | a stake below 5 is rejected; otherwise a balance below stake + fee is rejected with that total; else the total is debitable and at most the balance |
| Trading.StartPrice | main.py:1417 | an unavailable start price is recorded as 0 |
| Trading.OrderSymbol | main.py:1417 | the symbol sent to the price adapter has no slash |
| Trading.Opened | main.py:1423 | the new trade is active, with the pair, side, stake, duration, clock and start price of the order |
| Trading.Ordered | main.py:1403-1425 | a rejected order changes nothing; an accepted one debits exactly stake + fee, never below zero, and appends an active trade (start price the fetched price or 0) and a pending transaction |
| Trading.Desk.PlaceOrder | main.py:1403-1425 | the desk's new state and answer are `Ordered` of the old state, with the price the adapter's default three retries return; an accepted order prices the instrument of the pair without its slash, a rejected one prices nothing |
| Trading.Due | main.py:1431 | an order is settled when it is active and its duration has run out |
| Trading.SettlementSymbol | main.py:1433 | the settlement symbol has no slash |
| Trading.SettlementSymbolQuoted | main.py:1433 | the settlement symbol always ends in "USDT" |
| Trading.DropSlash | main.py:1417 | "BTC/USDT" loses its slash |
| Trading.OrderInstrument | main.py:1417 | an order on "BTC/USDT" prices "BTC-USDT" |
| Trading.SettlementInstrument | main.py:1433 | settling an order on "BTC/USDT" prices "BTC-USDT" as well, with no second quote appended |
| Trading.SettlementPrice | main.py:1438 | a missing or zero price falls back to the start price |
| Trading.Direction | main.py:1441 | the direction is 1, -1 or 0 exactly when the price rose, fell or stayed |
| Trading.Verdict | main.py:1443-1450 | win by side and direction, then push on no move and loss otherwise |
| Trading.Decide | main.py:1441-1450 | "buy" wins iff the price rose and any other side iff it fell; push iff the price stayed; loss otherwise |
| Trading.Payout | main.py:1449 | nothing unless a win; on a win 70% of the stake within 5e-7, with six decimals |
| Trading.Credit | main.py:1459-1464 | the credit is never negative for non-negative amounts, and returns at least the stake and fee on a win or push |
| Trading.Settle | main.py:1450 | a settled trade has an outcome and a closing time, and is never due again |
| Trading.LatestPending | main.py:1455-1456 | the transaction picked is pending and no later one is; none is picked only when none is pending |
| Trading.PendingFee | main.py:1455-1457 | the refunded fee is non-negative when every recorded fee is, and 0 when no transaction is pending |
| Trading.MarkDone | main.py:1465-1470 | only the picked transaction changes, to done with the settlement details; none picked, nothing changes |
| Trading.Checked | main.py:1427-1495 | an unknown id is NotFound and changes nothing; an order not yet due is returned unchanged; a due order is completed with the outcome and payout, the balance gets the credit for its outcome, and the picked transaction is closed |
| Trading.Desk.TradeStatus | main.py:1427-1495 | the desk's new state and answer are `Checked` of the old state, with the price the adapter's default three retries return; only a due order prices anything, the instrument of its settlement symbol |
| Trading.Desk.SettleOrder | main.py:1438-1470 | settling a due order leaves the desk in the state `Checked` gives for the adapter's answer |
| Trading.SettlesOnce | main.py:1431 | after a read that settles an order, or of a settled one, every later read returns the same answer and changes nothing |
| Trading.OrderThenSettle | main.py:1403-1470 | an order followed by its settlement leaves the balance up by the payout on a win, unchanged on a push, down by stake + fee on a loss, and the order's transaction closed |
| Trading.OrderedSound | main.py:1407-1418 | placing an order keeps the balance non-negative, every stake at least 5 and every fee non-negative |
| Trading.CheckedSound | main.py:1459-1470 | settlement keeps those invariants and never lowers the balance |
| Trading.FeeOfLatestOrder | main.py:1455-1470 | with two orders open, settling the first refunds the fee of the second and closes the second's transaction |
| Trading.TenOnARise | main.py:1403-1464 | 10 USDT on a rise from 100 at balance 100: a close at 105 leaves 107, at 95 leaves 89.8, at 100 or with no price leaves 100 |

## Left out

- The network is replaced by the `responses` parameter, and the pauses are recorded instead of slept. The aiohttp sessions, the exchange's JSON parsing and the CMC and kline fetchers are not modelled.
- Floating point is not modelled. Prices, amounts and volumes are exact reals, and timestamps are integers.
- The float division `t / 1000` behind the datetimes in the aggregator becomes integer arithmetic on milliseconds.
- `round(..., 2 | 8)` in the candle generator is left out, and the candle values are kept unrounded. Rounding is monotone, so the envelope facts survive it.
- `round(..., 6)` for the fee and the payout is modelled as half-even rounding of the exact real, not of the binary float.
- The random draws (`random.gauss`, `random.uniform`, `random.random`) are parameters. Their ranges are stated where a proof needs them (`Drawn`).
- The amplification and gap coin flips are folded into the drawn change and gap.
- The bias branch of the live update (main.py:420-476) is not modelled. It reads `predicted_result`, which the trade record no longer has, and no caller passes trades. `intra` is a free parameter.
- `get_real_base_price` and its five-minute cache are not modelled. The base price is an input.
- The trade desk holds one account, and the user lookup by the Telegram id header is not modelled. A missing user fails in the source with an error that is not modelled. An unset balance (`None`, read as 0) is modelled as a balance of 0.
- The status endpoint settles any order id without checking whose it is; the model has a single account, so ownership is not modelled.
- Only "trade" transactions are modelled. Deposits, withdrawals and the other flows that add rows of other types are not.
- Settlement reads the clock twice (for the trigger and for `closed_at`). The model uses the one `now` for both.
- Concurrency is not modelled. Only sequential calls are. Two simultaneous reads of an expired order can both settle it in the source.
- Persistence is not modelled: database sessions, commits, the Telegram notification after settlement (main.py:1474-1493) and the log lines.
- `Symbols.Upper`: upper-cases ASCII letters only, not the full Unicode mapping of Python's `str.upper`.
- `Aggregation.SortByTime`: the sort is stable as Python's is, but the model proves sortedness and permutation only, not stability.
- Candles.WellFormed: the store invariant holds for every key, but spacing and the grid (`Regular`) hold only for keys in the ghost `width` map. The cache key `f"{symbol}_{tf}"` can be shared by two timeframes of different widths (`SeriesKeysCollide`), and such a series is not evenly spaced. Landing on the current bar is promised only when the clock is not behind the newest stored candle.
- `aggregate_candles` has no caller in the repository. The model treats its argument as the caller's array.
