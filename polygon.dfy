// The two table lookups of the market-data client (PolygonClient in
// polygon-client.js): a trading symbol to the provider's ticker, and a timeframe
// label to the provider's aggregation (multiplier and timespan). Both upper-case
// their input first and fall back to a default for keys not in the table.

module Polygon {

  /** String.prototype.toUpperCase on one character, for the ASCII letters. */
  function UpperChar(c: char): char
  {
    if 'a' <= c <= 'z' then (c as int - 32) as char else c
  }

  /** String.prototype.toUpperCase, character by character. */
  function ToUpper(s: string): (u: string)
    ensures |u| == |s|
    ensures forall i :: 0 <= i < |s| ==> u[i] == UpperChar(s[i])
  {
    if s == [] then [] else [UpperChar(s[0])] + ToUpper(s[1..])
  }

  lemma {:induction false} ToUpperIdempotent(s: string)
    ensures ToUpper(ToUpper(s)) == ToUpper(s)
  {
    if s != [] {
      ToUpperIdempotent(s[1..]);
      assert ToUpper(s)[1..] == ToUpper(s[1..]);
    }
  }

  /** The symbols the client knows by name, each with its forex ticker. */
  const SymbolTable: map<string, string> := map[
    "XAUUSD" := "C:XAUUSD",
    "EURUSD" := "C:EURUSD",
    "GBPUSD" := "C:GBPUSD",
    "USDJPY" := "C:USDJPY",
    "USDCHF" := "C:USDCHF",
    "AUDUSD" := "C:AUDUSD",
    "USDCAD" := "C:USDCAD",
    "NZDUSD" := "C:NZDUSD",
    "EURJPY" := "C:EURJPY",
    "GBPJPY" := "C:GBPJPY",
    "EURGBP" := "C:EURGBP",
    "EURCHF" := "C:EURCHF",
    "GBPCHF" := "C:GBPCHF",
    "AUDJPY" := "C:AUDJPY",
    "CADJPY" := "C:CADJPY",
    "CHFJPY" := "C:CHFJPY"
  ]

  /** Every ticker in the symbol table is "C:" followed by its own key. */
  lemma SymbolTableEntriesArePrefixed(key: string)
    requires key in SymbolTable
    ensures SymbolTable[key] == "C:" + key
  {
  }

  /**
   * The provider ticker of a symbol: the table entry of the upper-cased symbol, or
   * "C:" followed by the upper-cased symbol. Every table entry is itself "C:" plus
   * its key, so the result is always the fallback's string.
   */
  function MapSymbolToPolygon(symbol: string): (ticker: string)
    ensures ticker == "C:" + ToUpper(symbol)
  {
    var key := ToUpper(symbol);
    if key in SymbolTable then
      SymbolTableEntriesArePrefixed(key);
      SymbolTable[key]
    else "C:" + key
  }

  /** Symbols that differ only in the case of their letters map to the same ticker. */
  lemma SymbolMappingIgnoresCase(symbol: string)
    ensures MapSymbolToPolygon(symbol) == MapSymbolToPolygon(ToUpper(symbol))
    ensures |MapSymbolToPolygon(symbol)| >= 2 && MapSymbolToPolygon(symbol)[..2] == "C:"
  {
    ToUpperIdempotent(symbol);
  }

  /** A provider aggregation: bars of `multiplier` units of `timespan`. */
  datatype Aggregation = Aggregation(multiplier: nat, timespan: string)

  const TimeframeTable: map<string, Aggregation> := map[
    "M1" := Aggregation(1, "minute"),
    "M15" := Aggregation(15, "minute"),
    "H1" := Aggregation(1, "hour"),
    "H4" := Aggregation(4, "hour"),
    "D1" := Aggregation(1, "day")
  ]

  /** The aggregation of a timeframe label, looked up upper-cased; unknown labels give one hour. */
  function MapTimeframeToPolygon(timeframe: string): (a: Aggregation)
    ensures ToUpper(timeframe) == "M1" ==> a == Aggregation(1, "minute")
    ensures ToUpper(timeframe) == "M15" ==> a == Aggregation(15, "minute")
    ensures ToUpper(timeframe) == "H1" ==> a == Aggregation(1, "hour")
    ensures ToUpper(timeframe) == "H4" ==> a == Aggregation(4, "hour")
    ensures ToUpper(timeframe) == "D1" ==> a == Aggregation(1, "day")
    ensures ToUpper(timeframe) !in {"M1", "M15", "H1", "H4", "D1"} ==> a == Aggregation(1, "hour")
    ensures a.multiplier >= 1 && a.timespan in {"minute", "hour", "day"}
  {
    var key := ToUpper(timeframe);
    if key in TimeframeTable then TimeframeTable[key] else Aggregation(1, "hour")
  }

  /** Timeframe labels that differ only in the case of their letters give the same aggregation. */
  lemma TimeframeMappingIgnoresCase(timeframe: string)
    ensures MapTimeframeToPolygon(timeframe) == MapTimeframeToPolygon(ToUpper(timeframe))
  {
    ToUpperIdempotent(timeframe);
  }
}
