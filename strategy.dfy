// The signal engine (analyzeStrategy in strategy.js): validation gates, indicator
// fallbacks, trend classification, ATR floor, nearest support/resistance, the
// breakout / retest / confirmation gate, and the BUY/SELL/Hold decision with its
// stop-loss and take-profit.
//
// RSI, ATR and SMA come from an external indicator library; their output arrays are
// inputs here, and only the rules the engine applies around them are modelled.

module Strategy {
  import Levels

  datatype Option<T> = None | Some(value: T)

  /** One price bar as the market-data client delivers it (the timestamp is never read). */
  datatype Bar = Bar(open: real, high: real, low: real, close: real, volume: real)

  /** The `trend` labels: 'Uptrend', 'Downtrend', 'Sideways', 'Insufficient Data', 'Error'. */
  datatype Trend = Uptrend | Downtrend | Sideways | InsufficientData | TrendError

  /** The `signal` labels: 'BUY', 'SELL', 'Hold', 'No Signal', 'Error'. */
  datatype Signal = Buy | Sell | Hold | NoSignal | SignalError

  /** The `breakout_direction` labels: "UP", "DOWN". */
  datatype Direction = Up | Down

  /** Why an analysis was rejected; the source reports these as `error` strings. */
  datatype Rejection =
    | InvalidCandlesData
    | InsufficientHistory(got: nat, need: nat)
    | InvalidCandleStructure

  /**
   * What the indicator library returned for one series: None when the call threw,
   * otherwise its output array (possibly empty).
   */
  datatype Indicators = Indicators(
    rsi: Option<seq<real>>,
    atr: Option<seq<real>>,
    sma20: Option<seq<real>>,
    sma50: Option<seq<real>>)

  /** The analysis record. A rejected analysis carries no breakout fields in the source: here None and false. */
  datatype Analysis = Analysis(
    trend: Trend,
    signal: Signal,
    entry: real,
    sl: real,
    tp: real,
    rsi: real,
    atr: real,
    breakoutLevel: Option<real>,
    breakoutDirection: Option<Direction>,
    breakoutConfirmed: bool,
    error: Option<Rejection>)

  function Rejected(trend: Trend, signal: Signal, why: Rejection): Analysis
  {
    Analysis(trend, signal, 0.0, 0.0, 0.0, 0.0, 0.0, None, None, false, Some(why))
  }

  /** Every numeric field of the record is zero. */
  predicate Zeroed(r: Analysis)
  {
    r.entry == 0.0 && r.sl == 0.0 && r.tp == 0.0 && r.rsi == 0.0 && r.atr == 0.0
  }

  // ---------------------------------------------------------------------------
  // Small sequence helpers (Array.prototype.filter, slice(-k), reduce(+), Math.min)

  function MinNat(a: nat, b: nat): nat
  {
    if a <= b then a else b
  }

  function Abs(x: real): real
  {
    if x < 0.0 then -x else x
  }

  function Filter<T(!new)>(s: seq<T>, keep: T -> bool): (r: seq<T>)
    ensures |r| <= |s|
    ensures forall x :: x in r <==> x in s && keep(x)
  {
    if s == [] then []
    else
      assert forall x :: x in s <==> x == s[0] || x in s[1..];
      (if keep(s[0]) then [s[0]] else []) + Filter(s[1..], keep)
  }

  /** s.slice(-k): the last k elements; slice(-0) is slice(0), the whole array. */
  function SliceFromEnd(s: seq<real>, k: nat): (r: seq<real>)
    ensures 0 < k <= |s| ==> |r| == k && r == s[|s| - k..]
    ensures k == 0 || k >= |s| ==> r == s
  {
    if k == 0 || k >= |s| then s else s[|s| - k..]
  }

  function Sum(s: seq<real>): real
  {
    if s == [] then 0.0 else s[0] + Sum(s[1..])
  }

  /** `xs.length > 0 ? xs[xs.length - 1] : fallback`, with a call that threw giving the fallback too. */
  function Latest(output: Option<seq<real>>, fallback: real): real
  {
    if output.Some? && |output.value| > 0 then output.value[|output.value| - 1] else fallback
  }

  // ---------------------------------------------------------------------------
  // Columns of a bar series

  function Closes(bars: seq<Bar>): seq<real>
  {
    seq(|bars|, i requires 0 <= i < |bars| => bars[i].close)
  }

  function Highs(bars: seq<Bar>): seq<real>
  {
    seq(|bars|, i requires 0 <= i < |bars| => bars[i].high)
  }

  function Lows(bars: seq<Bar>): seq<real>
  {
    seq(|bars|, i requires 0 <= i < |bars| => bars[i].low)
  }

  /** `c.volume || 0`: with real volumes this is the volume itself. */
  function Volumes(bars: seq<Bar>): seq<real>
  {
    seq(|bars|, i requires 0 <= i < |bars| => bars[i].volume)
  }

  // ---------------------------------------------------------------------------
  // Validation gates

  /** Minimum number of bars per timeframe label (compared case-sensitively). */
  function MinCandles(timeframe: string): (m: nat)
    ensures 30 <= m <= 50
    ensures timeframe == "M15" ==> m == 30
    ensures timeframe == "H1" ==> m == 40
    ensures timeframe == "H4" ==> m == 45
    ensures timeframe != "M15" && timeframe != "H1" && timeframe != "H4" ==> m == 50
  {
    if timeframe == "M15" then 30
    else if timeframe == "H1" then 40
    else if timeframe == "H4" then 45
    else 50
  }

  /** A bar passes the structure check: its high is not below its low and its close is positive. */
  predicate ValidBar(b: Bar)
  {
    !(b.high < b.low) && !(b.close <= 0.0)
  }

  /** The input passes all three gates, so the analysis proper runs. */
  predicate Accepted(candles: Option<seq<Bar>>, timeframe: string)
  {
    && candles.Some?
    && |candles.value| >= MinCandles(timeframe)
    && forall b :: b in candles.value ==> ValidBar(b)
  }

  // ---------------------------------------------------------------------------
  // Indicator readings and their fallbacks

  /** ATR substitute when the library gives nothing: 1% of the whole series' high-low range. */
  function RangeAtr(highs: seq<real>, lows: seq<real>): (a: real)
    requires |highs| > 0 && |lows| > 0
    ensures |highs| == |lows| && (forall k :: 0 <= k < |highs| ==> lows[k] <= highs[k]) ==> a >= 0.0
  {
    Levels.MaxIsLargest(highs);
    Levels.MinIsSmallest(lows);
    (Levels.Max(highs) - Levels.Min(lows)) * 0.01
  }

  /** The latest SMA20, or the close when the library gave none. */
  function Sma20Reading(ind: Indicators, close: real): real
  {
    Latest(ind.sma20, close)
  }

  /** The latest SMA50, or the close when the library gave none or the SMA20 call already threw. */
  function Sma50Reading(ind: Indicators, close: real): real
  {
    if ind.sma20.None? then close else Latest(ind.sma50, close)
  }

  /** The ATR before the zero floor: the library's latest value, else the range substitute. */
  function RawAtr(ind: Indicators, bars: seq<Bar>): real
    requires |bars| > 0
  {
    Latest(ind.atr, RangeAtr(Highs(bars), Lows(bars)))
  }

  /** The library's ATR values are never negative (true ranges are non-negative). */
  predicate AtrOutputNonNegative(ind: Indicators)
  {
    ind.atr.Some? ==> forall k :: 0 <= k < |ind.atr.value| ==> ind.atr.value[k] >= 0.0
  }

  // ---------------------------------------------------------------------------
  // Nearest levels

  /** The lowest level above the close, or a synthetic level 2% above it. */
  function NearestResistance(levels: seq<real>, close: real): (r: real)
    ensures (exists l :: l in levels && l > close) ==>
              r in levels && r > close && forall l :: l in levels && l > close ==> r <= l
    ensures (forall l :: l in levels ==> l <= close) ==> r == close * 1.02
    ensures close > 0.0 ==> r > close
  {
    var above := Filter(levels, l => l > close);
    if |above| > 0 then Levels.MinIsSmallest(above); Levels.Min(above) else close * 1.02
  }

  /** The highest level below the close, or a synthetic level 2% below it. */
  function NearestSupport(levels: seq<real>, close: real): (r: real)
    ensures (exists l :: l in levels && l < close) ==>
              r in levels && r < close && forall l :: l in levels && l < close ==> l <= r
    ensures (forall l :: l in levels ==> l >= close) ==> r == close * 0.98
    ensures close > 0.0 ==> r < close
  {
    var below := Filter(levels, l => l < close);
    if |below| > 0 then Levels.MaxIsLargest(below); Levels.Max(below) else close * 0.98
  }

  /** The window radius of the level detector: min(20, n/4). */
  function LevelPeriod(bars: seq<Bar>): nat
  {
    MinNat(20, |bars| / 4)
  }

  /**
   * Steps 1 and 2 of the engine: the significant levels of the series, and the
   * nearest one on each side of the close (or the synthetic ±2% band).
   */
  method NearestLevels(bars: seq<Bar>, close: real) returns (nearestResistance: real, nearestSupport: real)
    ensures close > 0.0 ==> nearestSupport < close < nearestResistance
    ensures (exists x :: Levels.IsLevel(Highs(bars), Lows(bars), LevelPeriod(bars), x) && x > close) ==>
              && Levels.IsLevel(Highs(bars), Lows(bars), LevelPeriod(bars), nearestResistance)
              && nearestResistance > close
              && forall x :: Levels.IsLevel(Highs(bars), Lows(bars), LevelPeriod(bars), x) && x > close ==> nearestResistance <= x
    ensures (forall x :: Levels.IsLevel(Highs(bars), Lows(bars), LevelPeriod(bars), x) ==> x <= close) ==>
              nearestResistance == close * 1.02
    ensures (exists x :: Levels.IsLevel(Highs(bars), Lows(bars), LevelPeriod(bars), x) && x < close) ==>
              && Levels.IsLevel(Highs(bars), Lows(bars), LevelPeriod(bars), nearestSupport)
              && nearestSupport < close
              && forall x :: Levels.IsLevel(Highs(bars), Lows(bars), LevelPeriod(bars), x) && x < close ==> x <= nearestSupport
    ensures (forall x :: Levels.IsLevel(Highs(bars), Lows(bars), LevelPeriod(bars), x) ==> x >= close) ==>
              nearestSupport == close * 0.98
  {
    var significantLevels := Levels.FindSignificantLevels(Highs(bars), Lows(bars), LevelPeriod(bars));
    nearestResistance := NearestResistance(significantLevels, close);
    nearestSupport := NearestSupport(significantLevels, close);
  }

  // ---------------------------------------------------------------------------
  // Breakout, retest and confirmation

  /** JavaScript truthiness of a breakout level: null and 0 are both falsy. */
  predicate Truthy(level: Option<real>)
  {
    level.Some? && level.value != 0.0
  }

  /**
   * Some close of the most recent min(5, n/10) lies within 0.5% of the level. The
   * source writes the band once for an upward and once for a downward breakout;
   * both arms test the same interval.
   */
  predicate HasRetest(closes: seq<real>, level: real)
  {
    var recent := SliceFromEnd(closes, MinNat(5, |closes| / 10));
    exists p :: p in recent && level * 0.995 <= p <= level * 1.005
  }

  /** The last bar's range exceeds 1.5 times the average range of the last min(10, n/5) bars. */
  predicate IsLargeCandle(bars: seq<Bar>)
    requires |bars| >= 5
  {
    var k := MinNat(10, |bars| / 5);
    var hs := SliceFromEnd(Highs(bars), k);
    var ls := SliceFromEnd(Lows(bars), k);
    var ranges := seq(k, i requires 0 <= i < k => hs[i] - ls[i]);
    var average := Sum(ranges) / (k as real);
    var current := bars[|bars| - 1];
    current.high - current.low > average * 1.5
  }

  /** The last bar's volume exceeds 1.5 times the average volume of the last min(10, n) bars. */
  predicate IsHighVolume(bars: seq<Bar>)
  {
    var volumes := Volumes(bars);
    var m := MinNat(10, |volumes|);
    var recent := SliceFromEnd(volumes, m);
    if |volumes| > 0 && |recent| > 0 then bars[|bars| - 1].volume > Sum(recent) / (m as real) * 1.5
    else false
  }

  /**
   * Step 3 and 4 of the engine: a breakout above the nearest resistance or below the
   * nearest support, and whether a retest and a large or high-volume bar confirm it.
   * A breakout level of 0 is falsy in the source and is never confirmed.
   */
  method DetectBreakout(bars: seq<Bar>, close: real, nearestResistance: real, nearestSupport: real)
    returns (level: Option<real>, direction: Option<Direction>, confirmed: bool)
    requires |bars| >= 5
    ensures direction == Some(Up) <==> close > nearestResistance
    ensures direction == Some(Down) <==> !(close > nearestResistance) && close < nearestSupport
    ensures direction == Some(Up) ==> level == Some(nearestResistance)
    ensures direction == Some(Down) ==> level == Some(nearestSupport)
    ensures direction.None? ==> level.None?
    ensures nearestSupport <= close <= nearestResistance ==> level.None? && direction.None? && !confirmed
    ensures confirmed ==> Truthy(level) && HasRetest(Closes(bars), level.value)
    ensures confirmed <==>
              && Truthy(level)
              && HasRetest(Closes(bars), level.value)
              && (IsLargeCandle(bars) || IsHighVolume(bars))
  {
    level, direction := None, None;
    if close > nearestResistance {
      level, direction := Some(nearestResistance), Some(Up);
    } else if close < nearestSupport {
      level, direction := Some(nearestSupport), Some(Down);
    }
    confirmed := false;
    if Truthy(level) {
      var hasRetest := HasRetest(Closes(bars), level.value);
      var isLargeCandle := IsLargeCandle(bars);
      var isHighVolume := IsHighVolume(bars);
      confirmed := hasRetest && (isLargeCandle || isHighVolume);
    }
  }

  // ---------------------------------------------------------------------------
  // Signal composition

  /**
   * Step 5: a confirmed breakout in the trend's direction gives a 1:2 risk/reward
   * trade with a 1.5·ATR stop; otherwise an oversold uptrend buys and an overbought
   * downtrend sells with a 2·ATR stop and a 3·ATR target; anything else holds.
   */
  method ComposeSignal(confirmed: bool, direction: Option<Direction>, trend: Trend, rsi: real, close: real, atr: real)
    returns (signal: Signal, entry: real, sl: real, tp: real)
    ensures signal == Buy || signal == Sell || signal == Hold
    ensures signal == Hold ==> entry == 0.0 && sl == 0.0 && tp == 0.0
    ensures signal == Buy ==> trend == Uptrend && entry == close
    ensures signal == Sell ==> trend == Downtrend && entry == close
    ensures confirmed ==> (signal == Buy <==> direction == Some(Up) && trend == Uptrend)
    ensures confirmed ==> (signal == Sell <==> direction == Some(Down) && trend == Downtrend)
    ensures !confirmed ==> (signal == Buy <==> trend == Uptrend && rsi < 40.0)
    ensures !confirmed ==> (signal == Sell <==> trend == Downtrend && rsi > 60.0)
    ensures confirmed && signal == Buy ==> sl == entry - 1.5 * atr && tp - entry == 2.0 * (entry - sl)
    ensures confirmed && signal == Sell ==> sl == entry + 1.5 * atr && entry - tp == 2.0 * (sl - entry)
    ensures !confirmed && signal == Buy ==> sl == entry - 2.0 * atr && tp == entry + 3.0 * atr
    ensures !confirmed && signal == Sell ==> sl == entry + 2.0 * atr && tp == entry - 3.0 * atr
    ensures atr > 0.0 && signal == Buy ==> sl < entry < tp
    ensures atr > 0.0 && signal == Sell ==> tp < entry < sl
  {
    signal := Hold;
    entry, sl, tp := 0.0, 0.0, 0.0;
    if confirmed {
      if direction == Some(Up) && trend == Uptrend {
        signal := Buy;
        entry := close;
        sl := entry - atr * 1.5;
        tp := entry + (entry - sl) * 2.0;
      } else if direction == Some(Down) && trend == Downtrend {
        signal := Sell;
        entry := close;
        sl := entry + atr * 1.5;
        tp := entry - (sl - entry) * 2.0;
      }
    } else {
      if trend == Uptrend && rsi < 40.0 {
        signal := Buy;
        entry := close;
        sl := entry - atr * 2.0;
        tp := entry + atr * 3.0;
      } else if trend == Downtrend && rsi > 60.0 {
        signal := Sell;
        entry := close;
        sl := entry + atr * 2.0;
        tp := entry - atr * 3.0;
      }
    }
  }

  // ---------------------------------------------------------------------------
  // The engine

  /**
   * What the analysis of an accepted series promises. The trend follows the
   * close/SMA20/SMA50 ordering and the ATR is the floored reading, never zero.
   * Because every close is positive, the nearest resistance lies above the close and
   * the nearest support below it. So no breakout is ever reported, and the signal is
   * the RSI fallback with its stop and target.
   */
  predicate ValidatedResult(bars: seq<Bar>, ind: Indicators, r: Analysis)
  {
    && |bars| > 0
    && r.error.None?
    && (var close := bars[|bars| - 1].close;
        var sma20 := Sma20Reading(ind, close);
        var sma50 := Sma50Reading(ind, close);
        && (r.trend == Uptrend <==> close > sma20 > sma50)
        && (r.trend == Downtrend <==> close < sma20 < sma50)
        && (r.trend == Sideways <==> !(close > sma20 > sma50) && !(close < sma20 < sma50)))
    && (var raw := RawAtr(ind, bars);
        && r.rsi == Latest(ind.rsi, 50.0)
        && (raw != 0.0 ==> r.atr == raw)
        && (raw == 0.0 ==> r.atr == 0.001 * bars[|bars| - 1].close)
        && r.atr != 0.0
        && (AtrOutputNonNegative(ind) ==> r.atr > 0.0))
    && r.breakoutLevel.None? && r.breakoutDirection.None? && !r.breakoutConfirmed
    && (var close := bars[|bars| - 1].close;
        && (r.signal == Buy || r.signal == Sell || r.signal == Hold)
        && (r.signal == Buy <==> r.trend == Uptrend && r.rsi < 40.0)
        && (r.signal == Sell <==> r.trend == Downtrend && r.rsi > 60.0)
        && (r.signal == Hold ==> r.entry == 0.0 && r.sl == 0.0 && r.tp == 0.0)
        && (r.signal == Buy ==> r.entry == close && r.sl == close - 2.0 * r.atr && r.tp == close + 3.0 * r.atr)
        && (r.signal == Sell ==> r.entry == close && r.sl == close + 2.0 * r.atr && r.tp == close - 3.0 * r.atr)
        && (AtrOutputNonNegative(ind) && r.signal == Buy ==> r.sl < r.entry < r.tp)
        && (AtrOutputNonNegative(ind) && r.signal == Sell ==> r.tp < r.entry < r.sl))
  }

  /** The analysis proper of a series that passed the gates. */
  method AnalyzeValidated(bars: seq<Bar>, ind: Indicators) returns (r: Analysis)
    requires |bars| >= 5
    requires forall b :: b in bars ==> ValidBar(b)
    ensures ValidatedResult(bars, ind, r)
  {
    var closes, highs, lows := Closes(bars), Highs(bars), Lows(bars);
    var currentClose := closes[|closes| - 1];
    assert bars[|bars| - 1] in bars;
    assert currentClose > 0.0;

    // Indicator readings with the engine's fallbacks.
    var currentRsi := Latest(ind.rsi, 50.0);
    var currentAtr := Latest(ind.atr, RangeAtr(highs, lows));
    var currentSma20 := Sma20Reading(ind, currentClose);
    var currentSma50 := Sma50Reading(ind, currentClose);
    assert AtrOutputNonNegative(ind) ==> currentAtr >= 0.0 by {
      forall k | 0 <= k < |bars| ensures lows[k] <= highs[k] {
        assert bars[k] in bars;
      }
    }

    var trend := Sideways;
    if currentClose > currentSma20 && currentSma20 > currentSma50 {
      trend := Uptrend;
    } else if currentClose < currentSma20 && currentSma20 < currentSma50 {
      trend := Downtrend;
    }

    // The floor keeps a zero ATR out of the stop and target arithmetic.
    if currentAtr == 0.0 {
      currentAtr := Abs(currentClose * 0.001);
    }

    var nearestResistance, nearestSupport := NearestLevels(bars, currentClose);

    var breakoutLevel, breakoutDirection, confirmedBreakout :=
      DetectBreakout(bars, currentClose, nearestResistance, nearestSupport);

    var signal, entry, sl, tp :=
      ComposeSignal(confirmedBreakout, breakoutDirection, trend, currentRsi, currentClose, currentAtr);

    var reportedLevel := if Truthy(breakoutLevel) then breakoutLevel else None;
    r := Analysis(trend, signal, entry, sl, tp, currentRsi, currentAtr,
                  reportedLevel, breakoutDirection, confirmedBreakout, None);
  }

  /**
   * Analyses one bar series for one timeframe. The gates run in order: a missing
   * series, then a series shorter than the timeframe's minimum (before any bar is
   * inspected), then a malformed bar; each gives a zeroed record. A series that
   * passes all three is analysed by AnalyzeValidated.
   */
  method AnalyzeStrategy(candles: Option<seq<Bar>>, timeframe: string, ind: Indicators) returns (r: Analysis)
    ensures candles.None? ==>
              r.trend == TrendError && r.signal == SignalError && Zeroed(r) && r.error == Some(InvalidCandlesData)
    ensures candles.Some? && |candles.value| < MinCandles(timeframe) ==>
              && r.trend == InsufficientData && r.signal == NoSignal && Zeroed(r)
              && r.error == Some(InsufficientHistory(|candles.value|, MinCandles(timeframe)))
    ensures candles.Some? && |candles.value| >= MinCandles(timeframe) && (exists b :: b in candles.value && !ValidBar(b)) ==>
              r.trend == TrendError && r.signal == SignalError && Zeroed(r) && r.error == Some(InvalidCandleStructure)
    ensures r.error.None? <==> Accepted(candles, timeframe)
    ensures Accepted(candles, timeframe) ==> ValidatedResult(candles.value, ind, r)
  {
    if candles.None? {
      return Rejected(TrendError, SignalError, InvalidCandlesData);
    }
    var bars := candles.value;

    var minCandles := MinCandles(timeframe);
    if |bars| < minCandles {
      return Rejected(InsufficientData, NoSignal, InsufficientHistory(|bars|, minCandles));
    }

    var invalidCandles := Filter(bars, b => !ValidBar(b));
    if |invalidCandles| > 0 {
      assert invalidCandles[0] in invalidCandles;
      return Rejected(TrendError, SignalError, InvalidCandleStructure);
    }

    r := AnalyzeValidated(bars, ind);
  }
}
