// Pivot-based support/resistance detection (findSignificantLevels in strategy.js).
//
// For every index with `period` bars on both sides, a high that is the maximum of
// its window and a low that is the minimum of its window become levels; the levels
// are then sorted ascending and duplicates dropped.

module Levels {

  /** Largest element of a non-empty sequence (Math.max over a spread array). */
  function Max(s: seq<real>): real
    requires |s| > 0
  {
    if |s| == 1 then s[0]
    else
      var rest := Max(s[1..]);
      if s[0] >= rest then s[0] else rest
  }

  /** Smallest element of a non-empty sequence (Math.min over a spread array). */
  function Min(s: seq<real>): real
    requires |s| > 0
  {
    if |s| == 1 then s[0]
    else
      var rest := Min(s[1..]);
      if s[0] <= rest then s[0] else rest
  }

  /** Max picks one of the elements, and none is larger. */
  lemma {:induction false} MaxIsLargest(s: seq<real>)
    requires |s| > 0
    ensures Max(s) in s
    ensures forall k :: 0 <= k < |s| ==> s[k] <= Max(s)
  {
    if |s| > 1 {
      MaxIsLargest(s[1..]);
      forall k | 1 <= k < |s|
        ensures s[k] <= Max(s)
      {
        assert s[k] == s[1..][k - 1];
      }
    }
  }

  /** Min picks one of the elements, and none is smaller. */
  lemma {:induction false} MinIsSmallest(s: seq<real>)
    requires |s| > 0
    ensures Min(s) in s
    ensures forall k :: 0 <= k < |s| ==> Min(s) <= s[k]
  {
    if |s| > 1 {
      MinIsSmallest(s[1..]);
      forall k | 1 <= k < |s|
        ensures Min(s) <= s[k]
      {
        assert s[k] == s[1..][k - 1];
      }
    }
  }

  /** The bars within `period` of index i, both ends included (highs.slice(i - period, i + period + 1)). */
  function Window(s: seq<real>, period: nat, i: int): (w: seq<real>)
    requires period <= i < |s| - period
    ensures |w| == 2 * period + 1 && w[period] == s[i]
  {
    s[i - period .. i + period + 1]
  }

  /** Index i has `period` bars on both sides and no high of its window exceeds highs[i]. */
  predicate IsPivotHigh(highs: seq<real>, period: nat, i: int)
  {
    period <= i < |highs| - period &&
    forall v :: v in Window(highs, period, i) ==> v <= highs[i]
  }

  /** Index i has `period` bars on both sides and no low of its window is below lows[i]. */
  predicate IsPivotLow(lows: seq<real>, period: nat, i: int)
  {
    period <= i < |lows| - period &&
    forall v :: v in Window(lows, period, i) ==> lows[i] <= v
  }

  /** The scan's test, highs[i] === Math.max(...window), holds exactly at the pivot highs. */
  lemma MaxTestFindsPivotHighs(highs: seq<real>, period: nat, i: int)
    requires period <= i < |highs| - period
    ensures highs[i] == Max(Window(highs, period, i)) <==> IsPivotHigh(highs, period, i)
  {
    MaxIsLargest(Window(highs, period, i));
  }

  /** The scan's test, lows[i] === Math.min(...window), holds exactly at the pivot lows. */
  lemma MinTestFindsPivotLows(lows: seq<real>, period: nat, i: int)
    requires period <= i < |lows| - period
    ensures lows[i] == Min(Window(lows, period, i)) <==> IsPivotLow(lows, period, i)
  {
    MinIsSmallest(Window(lows, period, i));
  }

  /** The pivot highs found at indexes period .. k-1, in the order the scan pushes them. */
  function PivotHighs(highs: seq<real>, period: nat, k: int): seq<real>
    decreases k - period
  {
    if k <= period then []
    else PivotHighs(highs, period, k - 1) + (if IsPivotHigh(highs, period, k - 1) then [highs[k - 1]] else [])
  }

  /** The pivot lows found at indexes period .. k-1, in the order the scan pushes them. */
  function PivotLows(lows: seq<real>, period: nat, k: int): seq<real>
    decreases k - period
  {
    if k <= period then []
    else PivotLows(lows, period, k - 1) + (if IsPivotLow(lows, period, k - 1) then [lows[k - 1]] else [])
  }

  /** One step of the scan: index k contributes its high when it is a pivot high. */
  lemma PivotHighsStep(highs: seq<real>, period: nat, k: int)
    requires period <= k
    ensures PivotHighs(highs, period, k + 1) ==
            PivotHighs(highs, period, k) + (if IsPivotHigh(highs, period, k) then [highs[k]] else [])
  {
  }

  /** One step of the scan: index k contributes its low when it is a pivot low. */
  lemma PivotLowsStep(lows: seq<real>, period: nat, k: int)
    requires period <= k
    ensures PivotLows(lows, period, k + 1) ==
            PivotLows(lows, period, k) + (if IsPivotLow(lows, period, k) then [lows[k]] else [])
  {
  }

  /** Everything collected from the indexes below k is the high of a pivot high below k. */
  lemma {:induction false} CollectedHighsArePivots(highs: seq<real>, period: nat, k: int, x: real)
    requires x in PivotHighs(highs, period, k)
    ensures exists j :: IsPivotHigh(highs, period, j) && j < k && x == highs[j]
    decreases k - period
  {
    var prev := PivotHighs(highs, period, k - 1);
    assert PivotHighs(highs, period, k) ==
           prev + (if IsPivotHigh(highs, period, k - 1) then [highs[k - 1]] else []);
    if x in prev {
      CollectedHighsArePivots(highs, period, k - 1, x);
    } else {
      assert IsPivotHigh(highs, period, k - 1) && x == highs[k - 1];
    }
  }

  /** The high of every pivot high below k has been collected. */
  lemma {:induction false} PivotHighsAreCollected(highs: seq<real>, period: nat, k: int, j: int)
    requires IsPivotHigh(highs, period, j) && j < k
    ensures highs[j] in PivotHighs(highs, period, k)
    decreases k - period
  {
    var prev := PivotHighs(highs, period, k - 1);
    assert PivotHighs(highs, period, k) ==
           prev + (if IsPivotHigh(highs, period, k - 1) then [highs[k - 1]] else []);
    if j < k - 1 {
      PivotHighsAreCollected(highs, period, k - 1, j);
    }
  }

  /** Everything collected from the indexes below k is the low of a pivot low below k. */
  lemma {:induction false} CollectedLowsArePivots(lows: seq<real>, period: nat, k: int, x: real)
    requires x in PivotLows(lows, period, k)
    ensures exists j :: IsPivotLow(lows, period, j) && j < k && x == lows[j]
    decreases k - period
  {
    var prev := PivotLows(lows, period, k - 1);
    assert PivotLows(lows, period, k) ==
           prev + (if IsPivotLow(lows, period, k - 1) then [lows[k - 1]] else []);
    if x in prev {
      CollectedLowsArePivots(lows, period, k - 1, x);
    } else {
      assert IsPivotLow(lows, period, k - 1) && x == lows[k - 1];
    }
  }

  /** The low of every pivot low below k has been collected. */
  lemma {:induction false} PivotLowsAreCollected(lows: seq<real>, period: nat, k: int, j: int)
    requires IsPivotLow(lows, period, j) && j < k
    ensures lows[j] in PivotLows(lows, period, k)
    decreases k - period
  {
    var prev := PivotLows(lows, period, k - 1);
    assert PivotLows(lows, period, k) ==
           prev + (if IsPivotLow(lows, period, k - 1) then [lows[k - 1]] else []);
    if j < k - 1 {
      PivotLowsAreCollected(lows, period, k - 1, j);
    }
  }

  /** x is a significant level: the high of some pivot high or the low of some pivot low. */
  ghost predicate IsLevel(highs: seq<real>, lows: seq<real>, period: nat, x: real)
  {
    (exists i :: IsPivotHigh(highs, period, i) && x == highs[i]) ||
    (exists i :: IsPivotLow(lows, period, i) && x == lows[i])
  }

  predicate StrictlyIncreasing(s: seq<real>)
  {
    forall i, j :: 0 <= i < j < |s| ==> s[i] < s[j]
  }

  /** Places x into a strictly ascending sequence, unless it is already there. */
  function Insert(s: seq<real>, x: real): (r: seq<real>)
    requires StrictlyIncreasing(s)
    ensures StrictlyIncreasing(r)
    ensures forall y :: y in r <==> y in s || y == x
  {
    if s == [] then [x]
    else if x < s[0] then [x] + s
    else if x == s[0] then s
    else
      var tail := Insert(s[1..], x);
      forall y | y in tail ensures s[0] < y {
        if y != x {
          var k :| 0 <= k < |s[1..]| && s[1..][k] == y;
          assert s[k + 1] == y;
        }
      }
      var r := [s[0]] + tail;
      forall i, j | 0 <= i < j < |r| ensures r[i] < r[j] {
        assert r[j] == tail[j - 1] && tail[j - 1] in tail;
        if i > 0 {
          assert r[i] == tail[i - 1] && tail[i - 1] < tail[j - 1];
        }
      }
      r
  }

  /**
   * The distinct elements of xs in ascending order: what sorting numerically and
   * then keeping the first occurrence of each value yields.
   */
  function SortedDistinct(xs: seq<real>): (r: seq<real>)
    ensures StrictlyIncreasing(r)
    ensures forall y :: y in r <==> y in xs
  {
    if xs == [] then []
    else
      var init := xs[..|xs| - 1];
      assert xs == init + [xs[|xs| - 1]];
      Insert(SortedDistinct(init), xs[|xs| - 1])
  }

  lemma TailMembers(s: seq<real>, y: real)
    requires StrictlyIncreasing(s) && |s| > 0
    ensures y in s[1..] <==> y in s && y != s[0]
  {
    if y in s && y != s[0] {
      var k :| 0 <= k < |s| && s[k] == y;
      assert s[1..][k - 1] == y;
    }
  }

  /**
   * A strictly ascending sequence is determined by its elements, so SortedDistinct
   * returns the same sequence as any sort followed by duplicate removal.
   */
  lemma {:induction false} StrictlyIncreasingUnique(a: seq<real>, b: seq<real>)
    requires StrictlyIncreasing(a) && StrictlyIncreasing(b)
    requires forall y :: y in a <==> y in b
    ensures a == b
  {
    assert |a| == 0 <==> |b| == 0 by {
      if |a| > 0 { assert a[0] in a; }
      if |b| > 0 { assert b[0] in b; }
    }
    if |a| > 0 {
      assert a[0] == b[0] by {
        assert a[0] in a && b[0] in b;
        var i :| 0 <= i < |b| && b[i] == a[0];
        assert b[0] in a;
        var j :| 0 <= j < |a| && a[j] == b[0];
        assert b[0] <= b[i] && a[0] <= a[j];
      }
      forall y ensures y in a[1..] <==> y in b[1..] {
        TailMembers(a, y);
        TailMembers(b, y);
      }
      StrictlyIncreasingUnique(a[1..], b[1..]);
      assert a == [a[0]] + a[1..];
      assert b == [b[0]] + b[1..];
    }
  }

  /** Once the scan has passed every index with a full window, it has collected exactly the levels. */
  lemma CollectedAreLevels(highs: seq<real>, lows: seq<real>, period: nat, k: int, x: real)
    requires |lows| == |highs|
    requires k >= |highs| - period
    ensures x in PivotHighs(highs, period, k) + PivotLows(lows, period, k) <==> IsLevel(highs, lows, period, x)
  {
    if x in PivotHighs(highs, period, k) {
      CollectedHighsArePivots(highs, period, k, x);
    }
    if x in PivotLows(lows, period, k) {
      CollectedLowsArePivots(lows, period, k, x);
    }
    if exists j :: IsPivotHigh(highs, period, j) && x == highs[j] {
      var j :| IsPivotHigh(highs, period, j) && x == highs[j];
      PivotHighsAreCollected(highs, period, k, j);
    }
    if exists j :: IsPivotLow(lows, period, j) && x == lows[j] {
      var j :| IsPivotLow(lows, period, j) && x == lows[j];
      PivotLowsAreCollected(lows, period, k, j);
    }
  }

  /** The index at which the scan stops: |highs| - period, or period when no index has a full window. */
  function ScanEnd(n: nat, period: nat): int
  {
    if n - period < period then period else n - period
  }

  /** What the scan leaves behind, sorted and deduplicated, is the level set. */
  lemma ScanFindsExactlyTheLevels(highs: seq<real>, lows: seq<real>, period: nat, levels: seq<real>)
    requires |lows| == |highs|
    requires levels == SortedDistinct(PivotHighs(highs, period, ScanEnd(|highs|, period)) +
                                      PivotLows(lows, period, ScanEnd(|highs|, period)))
    ensures forall x :: x in levels <==> IsLevel(highs, lows, period, x)
    ensures |highs| <= 2 * period ==> levels == []
  {
    var k := ScanEnd(|highs|, period);
    forall x ensures x in levels <==> IsLevel(highs, lows, period, x) {
      CollectedAreLevels(highs, lows, period, k, x);
    }
    if |highs| <= 2 * period {
      assert PivotHighs(highs, period, k) + PivotLows(lows, period, k) == [];
    }
  }

  /** One iteration of the scan, stated with the scan's own Math.max / Math.min tests. */
  lemma ScanStep(highs: seq<real>, lows: seq<real>, period: nat, i: int)
    requires |lows| == |highs| && period <= i < |highs| - period
    ensures PivotHighs(highs, period, i + 1) == PivotHighs(highs, period, i) +
      (if highs[i] == Max(Window(highs, period, i)) then [highs[i]] else [])
    ensures PivotLows(lows, period, i + 1) == PivotLows(lows, period, i) +
      (if lows[i] == Min(Window(lows, period, i)) then [lows[i]] else [])
  {
    PivotHighsStep(highs, period, i);
    PivotLowsStep(lows, period, i);
    MaxTestFindsPivotHighs(highs, period, i);
    MinTestFindsPivotLows(lows, period, i);
  }

  /**
   * The loop of findSignificantLevels: for each index with a full window it pushes
   * the high when it equals the window's maximum and the low when it equals the
   * window's minimum.
   */
  method ScanPivots(highs: seq<real>, lows: seq<real>, period: nat) returns (pivotHighs: seq<real>, pivotLows: seq<real>)
    requires |lows| == |highs|
    ensures pivotHighs == PivotHighs(highs, period, ScanEnd(|highs|, period))
    ensures pivotLows == PivotLows(lows, period, ScanEnd(|highs|, period))
  {
    pivotHighs, pivotLows := [], [];
    var i := period;
    while i < |highs| - period
      invariant period <= i <= ScanEnd(|highs|, period)
      invariant pivotHighs == PivotHighs(highs, period, i)
      invariant pivotLows == PivotLows(lows, period, i)
    {
      var highWindow := Window(highs, period, i);
      var lowWindow := Window(lows, period, i);
      ScanStep(highs, lows, period, i);
      if highs[i] == Max(highWindow) {
        pivotHighs := pivotHighs + [highs[i]];
      }
      if lows[i] == Min(lowWindow) {
        pivotLows := pivotLows + [lows[i]];
      }
      i := i + 1;
    }
  }

  /**
   * Support/resistance levels of a bar series: every pivot high and pivot low with a
   * window radius of `period`, sorted ascending without duplicates. The
   * closingPrices argument of findSignificantLevels is never read and is left out.
   */
  method FindSignificantLevels(highs: seq<real>, lows: seq<real>, period: nat) returns (levels: seq<real>)
    requires |lows| == |highs|
    ensures StrictlyIncreasing(levels)
    ensures forall x :: x in levels <==> IsLevel(highs, lows, period, x)
    ensures |highs| <= 2 * period ==> levels == []
  {
    var pivotHighs, pivotLows := ScanPivots(highs, lows, period);
    levels := SortedDistinct(pivotHighs + pivotLows);
    ScanFindsExactlyTheLevels(highs, lows, period, levels);
  }
}
