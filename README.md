# Trading-signal engine: a verified model

This project models the signal engine of a forex analysis service in Dafny. It also
models the two table lookups of its market-data client.

- **Level detection** (`findSignificantLevels`, module `Levels`, levels.dfy). For each
  index with `period` bars on both sides, the scan pushes the high when it equals the
  maximum of its window. It pushes the low when it equals the minimum of its window.
  The collected levels are then sorted and deduplicated. The scan is a method with a
  loop, proved against the recursive specifications `PivotHighs` and `PivotLows`. The
  result is proved strictly ascending and to hold exactly the significant levels.
  "No high in the window exceeds it" is proved equivalent to the source's
  `highs[i] === Math.max(...window)` test.
- **Analysis** (`analyzeStrategy`, module `Strategy`, strategy.dfy). It runs three
  input gates: missing data, too short a series for the timeframe, and malformed bars.
  Each gate's rejection is a zeroed record with an error kind. Then come:
  - indicator readings with their fallbacks (RSI 50, ATR from 1% of the range, SMA
    from the close);
  - trend classification;
  - the ATR floor (0.1% of the close);
  - the nearest resistance and support (or the ±2% synthetic band);
  - breakout detection with retest and large-candle/high-volume confirmation;
  - the BUY/SELL/Hold decision with its stop-loss and take-profit.

  The RSI, ATR and SMA arrays come from an external indicator library. Here they are
  inputs (`Indicators`); `None` stands for a library call that threw.
- **Market-data client lookups** (`mapSymbolToPolygon`, `mapTimeframeToPolygon`, module
  `Polygon`, polygon.dfy). Each upper-cases its key, looks it up in a fixed table and
  falls back to a default.

A consequence proved along the way: every accepted bar has a positive close. So the
nearest resistance lies strictly above the close and the nearest support strictly below
it, whether they are real levels or the synthetic ±2% band. The breakout test therefore
never fires. Every accepted analysis reports no breakout level, no direction and no
confirmation, and its signal is the RSI fallback (`Strategy.AnalyzeValidated`,
`Strategy.AnalyzeStrategy`). The confirmed-breakout branch of the signal composition is
modelled and specified on its own (`Strategy.DetectBreakout`, `Strategy.ComposeSignal`).

## Model

| member | source | states |
|---|---|---|
| Levels.MaxIsLargest | strategy.js:14 | `Math.max` over a non-empty window returns one of its elements, and no element is larger |
| Levels.MinIsSmallest | strategy.js:18 | `Math.min` over a non-empty window returns one of its elements, and no element is smaller |
| Levels.Window | strategy.js:11-12 | the slice around index i has 2·period+1 bars, with bar i at its centre |
| Levels.MaxTestFindsPivotHighs | strategy.js:14-16 | `highs[i] === Math.max(...highWindow)` holds exactly when no high of the window exceeds highs[i] |
| Levels.MinTestFindsPivotLows | strategy.js:18-20 | `lows[i] === Math.min(...lowWindow)` holds exactly when no low of the window is below lows[i] |
| Levels.CollectedHighsArePivots | strategy.js:10-21 | every value pushed onto pivotHighs before index k is the high of a pivot high below k |
| Levels.PivotHighsAreCollected | strategy.js:10-21 | the high of every pivot high below k has been pushed onto pivotHighs |
| Levels.CollectedLowsArePivots | strategy.js:10-21 | every value pushed onto pivotLows before index k is the low of a pivot low below k |
| Levels.PivotLowsAreCollected | strategy.js:10-21 | the low of every pivot low below k has been pushed onto pivotLows |
| Levels.ScanStep | strategy.js:13-20 | one iteration appends highs[i] exactly when the max test passes, and lows[i] exactly when the min test passes |
| Levels.ScanPivots | strategy.js:10-21 | the loop leaves pivotHighs and pivotLows equal to the pivot highs and lows of every index with a full window, in index order |
| Levels.Insert | strategy.js:24-27 | inserting into a strictly ascending sequence keeps it strictly ascending and adds exactly the new value |
| Levels.SortedDistinct | strategy.js:24-27 | the result is strictly ascending (sorted, no duplicates) and has exactly the input's values |
| Levels.StrictlyIncreasingUnique | strategy.js:25-27 | two strictly ascending sequences with the same values are equal, so sort-then-deduplicate has one answer |
| Levels.CollectedAreLevels | strategy.js:10-24 | after the last full window, the combined pivot lists hold exactly the significant levels |
| Levels.ScanFindsExactlyTheLevels | strategy.js:10-28 | the sorted, deduplicated scan result holds exactly the levels, and is empty when no index has a full window |
| Levels.FindSignificantLevels | strategy.js:4-29 | the levels come back strictly ascending and hold exactly the pivot highs and pivot lows; a series of at most 2·period bars has none |
| Strategy.MinCandles | strategy.js:49-57 | the minimum history is 30 for M15, 40 for H1, 45 for H4 and 50 otherwise, so always 30..50 |
| Strategy.Filter | strategy.js:74-77 | the filtered sequence has exactly the kept elements and is no longer than the input |
| Strategy.SliceFromEnd | strategy.js:194 | `slice(-k)` returns the last k elements, and the whole array when k is 0 or at least the length |
| Strategy.RangeAtr | strategy.js:126-129 | the range-based ATR substitute is non-negative when every bar's low is at most its high |
| Strategy.NearestResistance | strategy.js:170-173 | the least level above the close, or 1.02·close when there is none; above the close whenever the close is positive |
| Strategy.NearestSupport | strategy.js:171-174 | the greatest level below the close, or 0.98·close when there is none; below the close whenever the close is positive |
| Strategy.NearestLevels | strategy.js:166-174 | resistance and support are the nearest significant levels on either side (or the synthetic band), and a positive close lies strictly between them |
| Strategy.DetectBreakout | strategy.js:176-215 | UP exactly when the close is above resistance, DOWN exactly when it is below support and not above resistance; no breakout inside the band; confirmed exactly when the level is truthy, retested within 0.5% and the bar is large or high-volume |
| Strategy.ComposeSignal | strategy.js:217-243 | BUY needs an uptrend and SELL a downtrend; a confirmed breakout trades at 1:2 risk/reward with a 1.5·ATR stop; otherwise RSI < 40 buys and RSI > 60 sells with a 2·ATR stop and 3·ATR target; Hold is zeroed; stops and targets sit on the right sides for a positive ATR |
| Strategy.AnalyzeValidated | strategy.js:93-256 | `ValidatedResult`: no error; the trend is Uptrend, Downtrend or Sideways by the close/SMA20/SMA50 ordering with the library fallbacks; RSI is the latest reading or 50; ATR is the raw reading or, when that is zero, 0.1% of the close, never zero and positive for non-negative library output; no breakout is reported; the signal is BUY, SELL or Hold by the RSI fallback, Hold is zeroed, and BUY/SELL carry the 2·ATR stop and 3·ATR target on the right sides |
| Strategy.AnalyzeStrategy | strategy.js:31-91 | the three gates reject in order with zeroed records and their error kinds; the analysis succeeds exactly when all three pass, and then the record satisfies the whole of `ValidatedResult` |
| Polygon.ToUpper | polygon-client.js:31 | upper-casing keeps the length and maps each character on its own |
| Polygon.ToUpperIdempotent | polygon-client.js:31 | upper-casing twice is upper-casing once |
| Polygon.MapSymbolToPolygon | polygon-client.js:11-32 | every symbol maps to "C:" followed by the upper-cased symbol, whether or not it is in the table |
| Polygon.SymbolMappingIgnoresCase | polygon-client.js:31 | symbols that differ only in letter case map to the same ticker, which always starts with "C:" |
| Polygon.MapTimeframeToPolygon | polygon-client.js:35-45 | M1, M15, H1, H4 and D1 (in any case) give their table aggregation; any other label gives 1 hour; the multiplier is at least 1 and the timespan is minute, hour or day |
| Polygon.TimeframeMappingIgnoresCase | polygon-client.js:44 | timeframe labels that differ only in letter case give the same aggregation |

## Left out

- app.js and dukascopy.js (HTTP routes, the second data source) and the client's network methods (`getCandles`, `getCurrentPrice` and the like) are I/O and not part of this model.
- The indicator library's computations of RSI, ATR and SMA (and the periods passed to them) are not modelled. Their outputs are inputs, and the model relies only on ATR values being non-negative (`AtrOutputNonNegative`).
- `toFixed` rounding of the reported numbers is not modelled; the record carries the unrounded reals. Every property stated here (ATR never zero, `sl < entry < tp` for BUY, `tp < entry < sl` for SELL) is about the unrounded values: after rounding to 5 decimals a floored ATR below 0.000005 reports as 0, and stop, entry and target can coincide.
- NaN, `typeof` and null-element checks are not modelled. Prices are reals and every series element is a `Bar`, so the bar filter's `!c` (null element) and non-number tests, the `isNaN` arm of the ATR floor and the outer `catch` (no statement can throw on reals) are unreachable.
- Console logging, the timeframe default `'UNKNOWN'` and the text of the error messages are not modelled. A rejection carries its kind and, for short series, the two counts.
- The `closingPrices` argument of findSignificantLevels is never read and is not modelled.
- Strategy.AnalyzeStrategy: a rejected record has no breakout fields in the source. Here it carries None and false.
- Strategy.DetectBreakout: requires at least 5 bars, because with fewer the average candle size divides by zero. The gates guarantee at least 30.
- Strategy.AnalyzeValidated: requires at least 5 bars and every bar valid, which AnalyzeStrategy's gates establish.
- Polygon.ToUpper: upper-cases ASCII letters only. Locale and non-ASCII case mapping of `toUpperCase` are not modelled.
- The retest test writes the ±0.5% band once for UP and once for DOWN, and both arms test the same interval. It is modelled once (`Strategy.HasRetest`).
