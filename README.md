# SMA/RSI backtest service — verified model of its visible logic

The service (a FastAPI app) backtests a trading strategy on daily prices from Yahoo
Finance. A request names a ticker and strategy parameters. The service then does five
things:

- It normalises the ticker. An all-digit Taiwan code such as `2330` becomes `2330.TW`.
- It downloads the bars and rejects missing or short data.
- It hands the bars to the third-party `backtesting` library.
- It turns the library's trade table into the response: detailed trade records, chart
  markers, per-trade notes, the number of winning trades, the average PnL, the longest
  losing streak, the buy-and-hold curve and the price series.
- The strategy, `SmaRsiStrategy`, computes a short SMA, a long SMA and an RSI. It
  closes on a death cross and buys on a golden cross while RSI is below the overbought
  level, with optional stop-loss and take-profit prices.

The model follows the code's own shape:

- Pure expressions are functions: the ticker rule, `get_indicator_note`, SMA and RSI, and
  the stop/target prices.
- The trade loop of `run_backtest` is a method. Its loop invariants carry the counters
  `current_loss` / `max_consecutive_loss` and the two growing lists. The method takes
  the per-trade note rule as a function. `RunBacktest` passes it `TradeNotes`.
- The strategy is a class. `Init` sets the indicator fields. `Next` appends the order it
  places to an order log.
- Prices are `real`s. Indicator cells that pandas leaves as NaN are `None`.
- Everything foreign is a parameter and never defined: the data provider (`download`),
  the library's run (`simulate`), `backtesting.lib.crossover` (`crossover`) and the
  rendering of a rounded float (`show`).

Modules: `Wrappers` (Option/Result), `Text` (Python string semantics), `Ticker`,
`DataGuard`, `Indicators`, `SmaRsi`, `IndicatorNote`, `Backtest`.

How the indicators and the wiring behave:

- RSI uses plain rolling means of gains and losses. The first difference is NaN, and
  `where(..., 0)` turns it into 0, so RSI is defined from index `n - 1` on. With no
  average loss the float ratio is infinite and RSI is exactly 100. With neither gain nor
  loss it is NaN.
- Stop-loss and take-profit are not checked against closes by the strategy. They are
  prices handed to the library with the buy order (`Decide`, `StopLossPrice`,
  `TakeProfitPrice`).
- `app/main.py` imports and runs `UniversalStrategy`, passes it `mode`, `entry_config`
  and `trailing_stop_pct`, and reads `strategy_mode` and entry/exit strategy fields of
  the request. `app/strategy.py` defines only `SmaRsiStrategy`, and `app/schemas.py` has
  none of those fields. `RunBacktest` leaves the strategy to `simulate` and reads the
  finished strategy object through `StrategyView`; the mode and the strategy
  configuration are inputs (`Mode`, `NoteConfig`). The `SmaRsi` module models
  `SmaRsiStrategy` on its own and is not wired into `RunBacktest`; see
  `Backtest.RunBacktest` under "Left out".
- The basic-mode notes read `rsi_entry` and `rsi_exit`. `SmaRsiStrategy` has neither
  attribute, so with it the `except` leaves both notes empty. `BasicNotes` states this:
  the notes are non-empty exactly when all four attributes exist.
- The handler's dictionary holds `winning_trades`, but `BacktestResponse`
  (`app/schemas.py`) has no such field, so the HTTP body built through the response model
  drops it. `Response` models the dictionary the handler returns, and keeps it.

## Model

| member | source | states |
|---|---|---|
| `Ticker.Normalize` | app/main.py:63-64 | the result is the upper-cased, stripped symbol, plus `.TW` exactly when that core is non-empty and all digits (the `len == 4` disjunct adds nothing); it has no whitespace at its ends, no lower-case letter, and is never itself all digits |
| `Ticker.NormalizeIdempotent` | app/main.py:63-64 | normalising a normalised ticker changes nothing |
| `Ticker.CoreStripFirst` | app/main.py:63 | upper-then-strip equals strip-then-upper |
| `Ticker.NormalizeEmpty` | app/main.py:63-64 | the normalised symbol is empty exactly when the input is all whitespace |
| `Text.Strip` | app/main.py:63 | `str.strip()`: a contiguous slice with whitespace-only text removed on both sides and no whitespace at its ends |
| `Text.StripEmpty` | app/main.py:63 | stripping leaves nothing exactly when the text is all whitespace |
| `Text.StripClean` | app/main.py:63 | stripping text without whitespace at its ends is the identity |
| `Text.Upper` | app/main.py:63 | `str.upper()`: same length, each character upper-cased |
| `Text.IntStringRoundTrip` | app/main.py:101-107 | `int(str(i)) == i` for the period numbers rendered in notes |
| `Text.ParseInt` | app/main.py:101 | `int(text)` succeeds only on text holding a digit |
| `Text.ParsePadded` | app/main.py:101 | whitespace on either side of `str(i)` still parses to `i` |
| `Text.ParseSignAndZeros` | app/main.py:101 | a leading `+`, and leading zeros after any sign, leave the value unchanged (`"-007"` is -7) |
| `Text.SignedDigits` | app/main.py:101 | digits behind an optional sign parse to their decimal value, negated after `-` |
| `Text.ParseIntRejects` | app/main.py:101 | text that, stripped and past an optional sign, is empty or holds a non-digit raises |
| `Text.StripPadded` | app/main.py:101 | stripping whitespace added around text without edge whitespace gives that text back |
| `DataGuard.CheckData` | app/main.py:155-160 | no table or an empty one gives 404, 1 to 59 bars gives 400, and only 60 or more bars pass, unchanged |
| `IndicatorNote.Trunc` | app/main.py:101 | `int(float)` truncates toward zero |
| `IndicatorNote.ToInt` | app/main.py:101 | `int()` of a parameter: integers unchanged, floats truncated, text parsed, `None` raises |
| `IndicatorNote.Cell` | app/main.py:105-106 | an index past the series renders the integer 0, a NaN cell renders as the float 0.0, any other cell as its value |
| `IndicatorNote.PairKey` | app/main.py:115-140 | a MACD, KD or BB name has an attribute key exactly when its `int()` conversions all succeed |
| `IndicatorNote.BranchOf` | app/main.py:100-137 | the first keyword found by substring, in the order SMA, RSI, MACD, KD, BB |
| `IndicatorNote.GetIndicatorNote` | app/main.py:97-149 | "" for an empty name; the name itself when no keyword matches; otherwise "", the name, or a note starting with the matched branch's prefix |
| `IndicatorNote.NoteEmptyIff` | app/main.py:98-148 | the note is "" exactly when the name is empty or the matched branch raises (no parameter map or a failing `int()`) |
| `IndicatorNote.NoteMissingIndicator` | app/main.py:115-149 | a MACD/KD/BB name whose parameters convert but whose attribute the strategy lacks falls back to the name |
| `IndicatorNote.NoteFoundIndicator` | app/main.py:115-147 | when that attribute is there, the note is non-empty and starts with the branch's prefix (`MACD:`, `K:`, `Upper:`) |
| `IndicatorNote.SmaTakesPrecedence` | app/main.py:99-107 | a name containing SMA gets the note of the bare name "SMA" for every parameter map, whatever else it contains |
| `Backtest.JoinNotes` | app/main.py:253-272 | joining the non-empty notes with " \| " is "" iff both are empty, one note alone is kept as is, two are separated once |
| `Backtest.JoinNotesNoEdgeSeparator` | app/main.py:261 | notes without edge whitespace never yield a joined note that starts or ends with the separator |
| `Backtest.BasicNotes` | app/main.py:231-248 | entry and exit notes are both empty or both set, and set exactly when the four attributes exist |
| `Backtest.AdvancedNotes` | app/main.py:249-272 | an entry (exit) note is empty exactly when each configured entry (exit) strategy is unset or raises |
| `Backtest.TradeNotes` | app/main.py:231-272 | basic mode: both notes empty or both set, set exactly when the four attributes exist; advanced mode: a note is empty exactly when each of its configured strategies is unset or raises |
| `Backtest.DetailRecord` | app/main.py:274-284 | a detailed record keeps the trade's dates, prices and PnL, drops the sign of the size, gives the return in percent and carries the two notes |
| `Backtest.TradeMarkers` | app/main.py:287-288 | a trade's markers are "buy" at its entry time and price and "sell" at its exit time and price, for long and short trades alike |
| `Backtest.ProcessTrades` | app/main.py:217-294 | one detailed record per trade and a buy marker then a sell marker per trade, in trade order; the counter it returns is the loop's running maximum of `current_loss` (`LongestLosses` of the whole log) |
| `Backtest.TrailingLosses` | app/main.py:290-294 | `current_loss` after n trades never exceeds n |
| `Backtest.LongestLosses` | app/main.py:220-221 | `max_consecutive_loss` after n trades lies between the current streak and n |
| `Backtest.ExtendLongest` | app/main.py:290-294 | one update of `current_loss` / `max_consecutive_loss` keeps "current is the losing run ending the prefix" and "max is the longest losing run in the prefix" |
| `Backtest.LongestLossesIsLongest` | app/main.py:220-294 | after every prefix the two counters are that prefix's trailing and longest losing runs |
| `Backtest.MaxConsecutiveLoss` | app/main.py:220-294 | the reported count is the longest run of consecutive trades with PnL < 0 (a zero PnL breaks it), at most the trade count, 0 iff no trade lost |
| `Backtest.LongestLossRunBounds` | app/main.py:220-223 | any longest losing run is at most the trade count and 0 exactly when no trade lost |
| `Backtest.WinningTrades` | app/main.py:204 | the number of trades with PnL strictly above 0, never more than the trades (0 for none) |
| `Backtest.WinningTradesAll` | app/main.py:204 | every trade counts as a win iff all made money; none counts iff none did |
| `Backtest.AvgPnl` | app/main.py:315 | 0 for no trades; otherwise the average times the trade count is the total PnL |
| `Backtest.AvgPnlWithinTrades` | app/main.py:315 | the average PnL lies between the worst and the best trade |
| `Backtest.BuyAndHold` | app/main.py:207-212 | empty unless the first close is positive; otherwise one point per bar, starting at the initial cash |
| `Backtest.BuyAndHoldProportional` | app/main.py:207-211 | any two buy-and-hold values stand in the ratio of their closes; with positive cash the higher close gives the higher value |
| `Backtest.PriceData` | app/main.py:215 | one point per bar carrying its close |
| `Backtest.RunBacktest` | app/main.py:151-322 | errors exactly when the data check fails, with its status; otherwise at least 60 bars reached the run, the ticker is the normalised one, and the trade-derived fields are those of the functions above |
| `Indicators.Sma` | app/strategy.py:6-7 | same length as the input; a cell is defined exactly from index n - 1 on (never for n = 0) |
| `Indicators.SmaWithinWindow` | app/strategy.py:6-7 | a defined SMA lies within the bounds of its window's values |
| `Indicators.SmaFlat` | app/strategy.py:6-7 | on a flat series every defined SMA equals the price |
| `Indicators.SmaRollingStep` | app/strategy.py:7 | consecutive SMAs differ by (new value - dropped value) / n |
| `Indicators.SmaRising` | app/strategy.py:6-7 | on a strictly rising series the SMA strictly rises |
| `Indicators.Gains` | app/strategy.py:11 | positive part of the first difference, never negative |
| `Indicators.Losses` | app/strategy.py:12 | negative part of the first difference, never negative |
| `Indicators.SmaNonNegative` | app/strategy.py:11-12 | rolling means of non-negative values are non-negative |
| `Indicators.RsiOfAverages` | app/strategy.py:13-14 | defined iff gain or loss is positive; lies in [0, 100]; below 100 iff loss > 0; equals 100 · gain / (gain + loss) |
| `Indicators.Rsi` | app/strategy.py:9-14 | same length; defined only from index n - 1 on; always in [0, 100] |
| `Indicators.RsiAverages` | app/strategy.py:10-14 | a complete window's average gain and loss are non-negative and determine RSI |
| `Indicators.GainsMinusLosses` | app/strategy.py:10-12 | gains minus losses over a range telescope to the price change |
| `Indicators.RsiAveragesTelescope` | app/strategy.py:10-12 | average gain minus average loss is the change across the window over n (from bar 0 for the first window) |
| `Indicators.RsiFlat` | app/strategy.py:9-14 | on a flat series RSI is NaN everywhere |
| `SmaRsi.StopLossPrice` | app/strategy.py:50-54 | set iff sl_pct > 0, then sl_pct percent of the price below it, and strictly below a positive price |
| `SmaRsi.TakeProfitPrice` | app/strategy.py:51-56 | set iff tp_pct > 0, then tp_pct percent of the price above it, and strictly above a positive price |
| `SmaRsi.Decide` | app/strategy.py:39-59 | in a position: never buys, closes iff death cross; flat: buys iff golden cross and RSI < overbought (NaN fails), with those SL/TP prices; otherwise nothing |
| `SmaRsi.Placed` | app/strategy.py:39-59 | a step places at most one order |
| `SmaRsi.BuyBracketsPrice` | app/strategy.py:46-59 | a buy comes only from a flat position on a golden cross, and its stop and target bracket a positive price |
| `SmaRsi.FlatSeriesNeverBuys` | app/strategy.py:46-47 | on a flat price series a flat strategy never buys, whatever the crossover says |
| `SmaRsi.SmaRsiStrategy.constructor` | app/strategy.py:16-23 | the parameters as given, no indicators yet, no orders |
| `SmaRsi.SmaRsiStrategy.Default` | app/strategy.py:18-23 | the class defaults 10, 60, 14, 70, 0, 0 |
| `SmaRsi.SmaRsiStrategy.Init` | app/strategy.py:25-28 | the SMA(n1), SMA(n2) and RSI(n_rsi) of the closes; position and orders untouched |
| `SmaRsi.SmaRsiStrategy.Next` | app/strategy.py:30-59 | keeps the indicators those of the closes; the order log grows by exactly the order `Decide` gives for bar t, and by nothing on a flat price series while no position is open |

## Left out

- The bar-by-bar simulation is left out: fills, commission, intrabar stop-loss and take-profit
  execution, and the position the broker keeps. These live in the `backtesting` package,
  which is not part of this model. `simulate` stands for it, and `SmaRsiStrategy.position`
  is read, never set, by the strategy.
- The library's statistics are left out: final equity, total and annual return, buy-and-hold
  return, win rate, trade count, drawdown, Sharpe ratio and the equity curve. They are
  library-computed floats.
- The monthly heatmap is left out. It uses pandas `resample`/`pct_change`.
- `safe_num` is left out: NaN/inf clean-up and float rounding. The rendering of a rounded
  value is the parameter `show`. Stored prices and PnL are kept unrounded. A NaN cell
  renders as `show(0.0)`, an index past the end as "0".
- Downloading, caching, CSV writing and the executor are network and file I/O. The column
  checks of `get_yfinance_data` are left out too. `download` returns `None` for every such
  failure.
- Date formatting (`strftime`) is left out. Times are strings already.
- FastAPI routing, templates, the global exception handler, the browser script and the
  launcher are left out.
- `crossover` is a library function and is passed in, never defined.
- Indicator lookups by attribute name are a map keyed by a structured key (`IndicatorKey`).
  The BB key holds the raw `std` parameter value. These keys are finer than the attribute
  names: the text `"2.0"` and the float `2.0` both render as `BB_20_2.0` but are two
  different keys here. An attribute of the wrong shape is not modelled.
- `IndicatorNote.Param` has no boolean case. Python's `int(True) == 1` is not modelled.
- Trade bar indices are non-negative (`nat`). Python's negative indexing is not modelled.
- `Text.IsSpace`, `Text.Upper` and `Text.IsDigits` follow Python on ASCII text and on
  Python's whitespace characters. Non-ASCII case mapping (`ß` to `SS`) and non-ASCII
  digits are not modelled.
- `Text.ParseInt` does not accept the underscores Python's `int()` allows between digits.
- `Backtest.JoinNotesNoEdgeSeparator` holds only for notes without whitespace at their
  ends. A strategy name such as `" |"` matches no keyword and comes back as its own
  note; followed by a second non-empty note, the joined note then starts with the
  separator.
- `SmaRsi.SmaRsiStrategy.Next` requires `Valid()`, the indicators of the closes, which
  `Init` establishes. The library skips the bars before all indicators are defined; that
  skipping is not modelled.
- RSI's float-only outcomes (infinity and NaN arithmetic) are modelled only through their
  exact limits: 100 for an infinite ratio, and `None` for NaN.
- `Backtest.RunBacktest` leaves the strategy to `simulate` and reads the finished
  strategy object through `StrategyView`, so it holds for any strategy; the `SmaRsi`
  module models `SmaRsiStrategy` on its own and is not wired into it. As written,
  `app/main.py` cannot run the handler: the import of `UniversalStrategy` (line 24) fails because
  `app/strategy.py` does not define it, and even past that, `params.strategy_mode`
  (line 171) raises `AttributeError` on a `BacktestRequest`, which the global handler
  (lines 48-52) turns into a 500 response.
- `Indicators.Sma` and `Indicators.Rsi` take the window as a `nat`. pandas `rolling(n)`
  raises `ValueError` for a negative window, and the request schema does not rule one out;
  that error path is not modelled.
- `SmaRsi.SmaRsiStrategy` takes its windows `n1`, `n2` and `nRsi` as `nat` for the same
  reason; a negative window, which would raise in `init`, is not modelled.
