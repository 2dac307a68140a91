/**
 * The indicator formulas of crypto_trading_bot/indicators/dinapoli.py that
 * are exact over the reals: the simple moving average, on-balance volume,
 * the Fibonacci support and resistance levels, OP/XOP/COP, and the shape of
 * the indicator list `calculate_indicators_for_data` returns.
 */
module DinapoliIndicators {
  import opened Wrappers
  import opened Models

  function Sum(s: seq<real>): real {
    if s == [] then 0.0 else Sum(s[..|s| - 1]) + s[|s| - 1]
  }

  lemma {:induction false} SumCons(x: real, s: seq<real>)
    ensures Sum([x] + s) == x + Sum(s)
  {
    if s != [] {
      assert ([x] + s)[..|[x] + s| - 1] == [x] + s[..|s| - 1];
      SumCons(x, s[..|s| - 1]);
    }
  }

  lemma {:induction false} SumBounds(s: seq<real>, lo: real, hi: real)
    requires forall k :: 0 <= k < |s| ==> lo <= s[k] <= hi
    ensures |s| as real * lo <= Sum(s) <= |s| as real * hi
  {
    if s != [] {
      SumBounds(s[..|s| - 1], lo, hi);
    }
  }

  predicate AllVal(s: seq<Num>) {
    forall k :: 0 <= k < |s| ==> s[k].Val?
  }

  function Values(s: seq<Num>): (r: seq<real>)
    requires AllVal(s)
    ensures |r| == |s| && forall k :: 0 <= k < |s| ==> r[k] == s[k].v
  {
    seq(|s|, k requires 0 <= k < |s| => s[k].v)
  }

  /** The `window` values ending at position `i`. */
  function Window(s: seq<Num>, window: nat, i: nat): (w: seq<Num>)
    requires 0 < window <= i + 1 <= |s|
    ensures |w| == window && forall k :: 0 <= k < window ==> w[k] == s[i + 1 - window + k]
  {
    s[i + 1 - window..i + 1]
  }

  /**
   * `rolling(window).mean()` at position `i`: NaN before `window` values
   * exist and whenever the window holds a NaN, else the window's mean.
   */
  function RollingMeanAt(s: seq<Num>, window: nat, i: nat): Num
    requires window > 0 && i < |s|
  {
    if i + 1 < window then NaN
    else
      var w := Window(s, window, i);
      if AllVal(w) then Val(Sum(Values(w)) / window as real) else NaN
  }

  /** `calculate_sma`: the rolling mean at every position. */
  function CalculateSma(s: seq<Num>, window: nat): (r: seq<Num>)
    requires window > 0
    ensures |r| == |s|
    ensures forall i :: 0 <= i < |s| ==> r[i] == RollingMeanAt(s, window, i)
  {
    seq(|s|, i requires 0 <= i < |s| => RollingMeanAt(s, window, i))
  }

  /**
   * The average is undefined for the first `window - 1` entries; from there
   * on, over numbers, it is the mean of the `window` values ending there.
   */
  lemma SmaDefinedExactly(s: seq<Num>, window: nat, i: nat)
    requires window > 0 && i < |s|
    ensures i + 1 < window ==> CalculateSma(s, window)[i] == NaN
    ensures i + 1 >= window ==>
      (CalculateSma(s, window)[i].Val? <==> forall k :: i + 1 - window <= k <= i ==> s[k].Val?)
    ensures i + 1 >= window && AllVal(s) ==>
      CalculateSma(s, window)[i] == Val(Sum(Values(s[i + 1 - window..i + 1])) / window as real)
  {
    if i + 1 >= window {
      var w := Window(s, window, i);
      if forall k :: i + 1 - window <= k <= i ==> s[k].Val? {
        assert AllVal(w);
      }
      if AllVal(w) {
        forall k | i + 1 - window <= k <= i ensures s[k].Val? {
          assert w[k - (i + 1 - window)] == s[k];
        }
      }
    }
  }

  /** A defined average lies between the smallest and the largest value of its window. */
  lemma SmaWithinWindow(s: seq<Num>, window: nat, i: nat, lo: real, hi: real)
    requires window > 0 && i < |s| && CalculateSma(s, window)[i].Val?
    requires forall k :: i + 1 - window <= k <= i && k < |s| ==> s[k].Val? && lo <= s[k].v <= hi
    ensures lo <= CalculateSma(s, window)[i].v <= hi
  {
    var w := Window(s, window, i);
    var vs := Values(w);
    forall k | 0 <= k < |vs| ensures lo <= vs[k] <= hi {
      assert w[k] == s[i + 1 - window + k];
    }
    SumBounds(vs, lo, hi);
    MeanBounds(Sum(vs), window as real, lo, hi);
  }

  /** A sum of `n` values each between `lo` and `hi`, divided by `n`, lies between them. */
  lemma MeanBounds(sum: real, n: real, lo: real, hi: real)
    requires n > 0.0 && n * lo <= sum <= n * hi
    ensures lo <= sum / n <= hi
  {
    assert n * lo / n == lo && n * hi / n == hi;
  }

  /**
   * Moving one step on: the average changes by the entering value minus the
   * leaving value, over the window length.
   */
  lemma SmaSlides(s: seq<Num>, window: nat, i: nat)
    requires window > 0 && window <= i < |s| && AllVal(s)
    ensures CalculateSma(s, window)[i].Val? && CalculateSma(s, window)[i - 1].Val?
    ensures CalculateSma(s, window)[i].v ==
      CalculateSma(s, window)[i - 1].v + (s[i].v - s[i - window].v) / window as real
  {
    SmaOverNumbers(s, window, i - 1);
    SmaOverNumbers(s, window, i);
    WindowSumSlides(s, window, i);
    SlideMean(WindowSum(s, window, i - 1), WindowSum(s, window, i), s[i - window].v, s[i].v, window as real);
  }

  /** The sum of the `window` numbers ending at position `i`. */
  function WindowSum(s: seq<Num>, window: nat, i: nat): real
    requires 0 < window <= i + 1 <= |s| && AllVal(s)
  {
    var w := Window(s, window, i);
    assert AllVal(w);
    Sum(Values(w))
  }

  /** Over numbers, a full window's average is the window's sum over its length. */
  lemma SmaOverNumbers(s: seq<Num>, window: nat, i: nat)
    requires 0 < window <= i + 1 <= |s| && AllVal(s)
    ensures CalculateSma(s, window)[i] == Val(WindowSum(s, window, i) / window as real)
  {
  }

  /** The window at `i` is the window at `i - 1` without its first value and with `s[i]` added. */
  lemma WindowSlides(s: seq<Num>, window: nat, i: nat)
    requires window > 0 && window <= i < |s| && AllVal(s)
    ensures AllVal(Window(s, window, i)) && AllVal(Window(s, window, i - 1))
    ensures var prev := Values(Window(s, window, i - 1));
      Values(Window(s, window, i)) == prev[1..] + [s[i].v] && prev[0] == s[i - window].v
  {
  }

  /** The window's sum moves by the entering value minus the leaving one. */
  lemma WindowSumSlides(s: seq<Num>, window: nat, i: nat)
    requires window > 0 && window <= i < |s| && AllVal(s)
    ensures WindowSum(s, window, i) == WindowSum(s, window, i - 1) - s[i - window].v + s[i].v
  {
    WindowSlides(s, window, i);
    SumSlide(Values(Window(s, window, i - 1)), Values(Window(s, window, i)), s[i].v);
  }

  lemma SumSlide(prev: seq<real>, cur: seq<real>, x: real)
    requires |prev| > 0 && cur == prev[1..] + [x]
    ensures Sum(cur) == Sum(prev) - prev[0] + x
  {
    assert prev == [prev[0]] + prev[1..];
    SumCons(prev[0], prev[1..]);
    assert cur[..|cur| - 1] == prev[1..];
  }

  /** When one value leaves a sum and another enters, the mean moves by their difference over the length. */
  lemma SlideMean(before: real, after: real, leaving: real, entering: real, w: real)
    requires w > 0.0 && after == before - leaving + entering
    ensures after / w == before / w + (entering - leaving) / w
  {
  }

  /** The change in on-balance volume on one candle: plus the volume on a higher close, minus on a lower, else nothing. */
  function SignedVolume(prevClose: real, close: real, volume: real): real {
    if close > prevClose then volume
    else if close < prevClose then -volume
    else 0.0
  }

  /**
   * The list `calculate_obv` has built after its first `n` candles: it
   * starts at 0 and adds one entry per further candle.
   */
  function ObvUpTo(closes: seq<real>, volumes: seq<real>, n: nat): (r: seq<real>)
    requires |closes| == |volumes| && n <= |closes|
    ensures |r| == if n == 0 then 1 else n
    ensures r[0] == 0.0
  {
    if n <= 1 then [0.0]
    else
      var prev := ObvUpTo(closes, volumes, n - 1);
      prev + [prev[n - 2] + SignedVolume(closes[n - 2], closes[n - 1], volumes[n - 1])]
  }

  /** The list `calculate_obv` returns: one entry per row, except that an empty frame still gives `[0]`. */
  function Obv(closes: seq<real>, volumes: seq<real>): (r: seq<real>)
    requires |closes| == |volumes|
    ensures |r| == if |closes| == 0 then 1 else |closes|
    ensures r[0] == 0.0
  {
    ObvUpTo(closes, volumes, |closes|)
  }

  /** The signed volumes of candles 1 to `n - 1`. */
  function SignedVolumes(closes: seq<real>, volumes: seq<real>, n: nat): (r: seq<real>)
    requires |closes| == |volumes| && n <= |closes|
    ensures |r| == if n == 0 then 0 else n - 1
  {
    if n <= 1 then []
    else SignedVolumes(closes, volumes, n - 1) + [SignedVolume(closes[n - 2], closes[n - 1], volumes[n - 1])]
  }

  /** Adding a candle adds its signed volume to the running sum. */
  lemma SignedVolumesSum(closes: seq<real>, volumes: seq<real>, n: nat)
    requires |closes| == |volumes| && 1 < n <= |closes|
    ensures Sum(SignedVolumes(closes, volumes, n)) ==
      Sum(SignedVolumes(closes, volumes, n - 1)) + SignedVolume(closes[n - 2], closes[n - 1], volumes[n - 1])
  {
    var before := SignedVolumes(closes, volumes, n - 1);
    var last := SignedVolume(closes[n - 2], closes[n - 1], volumes[n - 1]);
    assert (before + [last])[..|before|] == before;
  }

  /** One more candle keeps the earlier entries and appends the last one plus the new signed volume. */
  lemma ObvUpToStep(closes: seq<real>, volumes: seq<real>, n: nat)
    requires |closes| == |volumes| && 1 < n <= |closes|
    ensures forall k :: 0 <= k < n - 1 ==> ObvUpTo(closes, volumes, n)[k] == ObvUpTo(closes, volumes, n - 1)[k]
    ensures ObvUpTo(closes, volumes, n)[n - 1] ==
      ObvUpTo(closes, volumes, n - 1)[n - 2] + SignedVolume(closes[n - 2], closes[n - 1], volumes[n - 1])
  {
  }

  /** Every entry after `n` candles is the running sum of the signed volumes up to it. */
  lemma {:induction false} ObvUpToIsRunningSum(closes: seq<real>, volumes: seq<real>, n: nat, i: nat)
    requires |closes| == |volumes| && i < n <= |closes|
    ensures ObvUpTo(closes, volumes, n)[i] == Sum(SignedVolumes(closes, volumes, i + 1))
  {
    if n > 1 {
      ObvUpToStep(closes, volumes, n);
      if i < n - 1 {
        ObvUpToIsRunningSum(closes, volumes, n - 1, i);
      } else {
        ObvUpToIsRunningSum(closes, volumes, n - 1, i - 1);
        SignedVolumesSum(closes, volumes, n);
      }
    }
  }

  /** Every on-balance volume entry is the running sum of the signed volumes up to it. */
  lemma ObvIsRunningSum(closes: seq<real>, volumes: seq<real>, i: nat)
    requires |closes| == |volumes| && i < |closes|
    ensures Obv(closes, volumes)[i] == Sum(SignedVolumes(closes, volumes, i + 1))
  {
    ObvUpToIsRunningSum(closes, volumes, |closes|, i);
  }

  /** `calculate_obv`: the loop that appends one entry per candle. */
  method CalculateObv(closes: seq<real>, volumes: seq<real>) returns (obv: seq<real>)
    requires |closes| == |volumes|
    ensures obv == Obv(closes, volumes)
  {
    obv := [0.0];
    if |closes| == 0 {
      return;
    }
    var i := 1;
    while i < |closes|
      invariant 1 <= i <= |closes|
      invariant obv == ObvUpTo(closes, volumes, i)
    {
      if closes[i] > closes[i - 1] {
        obv := obv + [obv[|obv| - 1] + volumes[i]];
      } else if closes[i] < closes[i - 1] {
        obv := obv + [obv[|obv| - 1] - volumes[i]];
      } else {
        obv := obv + [obv[|obv| - 1]];
      }
      i := i + 1;
    }
  }

  function MaxOf(s: seq<real>): (m: real)
    requires |s| > 0
    ensures forall k :: 0 <= k < |s| ==> s[k] <= m
    ensures exists k :: 0 <= k < |s| && s[k] == m
  {
    if |s| == 1 then s[0]
    else
      var m := MaxOf(s[..|s| - 1]);
      if s[|s| - 1] > m then s[|s| - 1] else m
  }

  function MinOf(s: seq<real>): (m: real)
    requires |s| > 0
    ensures forall k :: 0 <= k < |s| ==> m <= s[k]
    ensures exists k :: 0 <= k < |s| && s[k] == m
  {
    if |s| == 1 then s[0]
    else
      var m := MinOf(s[..|s| - 1]);
      if s[|s| - 1] < m then s[|s| - 1] else m
  }

  /** Python `s[-n:]`. */
  function LastN<T>(s: seq<T>, n: nat): (r: seq<T>)
    ensures |r| == if |s| <= n then |s| else n
    ensures forall k :: 0 <= k < |r| ==> r[k] == s[|s| - |r| + k]
  {
    if |s| <= n then s else s[|s| - n..]
  }

  const Lookback: nat := 50

  /** Levels at 23.6%, 38.2%, 50% and 61.8% of the range above the low. */
  function SupportLevels(lo: real, hi: real): (r: seq<real>)
    ensures |r| == 4
  {
    var range := hi - lo;
    [lo + range * 0.236, lo + range * 0.382, lo + range * 0.5, lo + range * 0.618]
  }

  /** Levels at 23.6%, 38.2%, 50% and 61.8% of the range below the high. */
  function ResistanceLevels(lo: real, hi: real): (r: seq<real>)
    ensures |r| == 4
  {
    var range := hi - lo;
    [hi - range * 0.236, hi - range * 0.382, hi - range * 0.5, hi - range * 0.618]
  }

  /**
   * For a range with low ≤ high the support levels climb and the resistance
   * levels descend, all inside the range; each support and resistance pair
   * adds up to low + high, and the two 50% levels coincide.
   */
  lemma LevelsOrdered(lo: real, hi: real)
    requires lo <= hi
    ensures var s, r := SupportLevels(lo, hi), ResistanceLevels(lo, hi);
      (forall j, k :: 0 <= j < k < 4 ==> s[j] <= s[k] && r[k] <= r[j]) &&
      (forall k :: 0 <= k < 4 ==> lo <= s[k] <= hi && lo <= r[k] <= hi) &&
      (forall k :: 0 <= k < 4 ==> s[k] + r[k] == lo + hi) &&
      s[2] == r[2]
  {
    var s, r := SupportLevels(lo, hi), ResistanceLevels(lo, hi);
    assert s[0] <= s[1] <= s[2] <= s[3] && r[3] <= r[2] <= r[1] <= r[0];
    assert lo <= s[0] && s[3] <= hi && lo <= r[3] && r[0] <= hi;
    forall k | 0 <= k < 4 ensures s[k] + r[k] == lo + hi {
      if k == 0 {} else if k == 1 {} else if k == 2 {} else {}
    }
  }

  datatype SupportResistance = SupportResistance(support: seq<real>, resistance: seq<real>)

  /**
   * `calculate_fibonacci_levels_support_resisstance` over the last 50 bars,
   * between the lowest low and the highest high there. Over no rows pandas
   * yields NaN levels, modelled as `None`.
   */
  function FibonacciSupportResistance(highs: seq<real>, lows: seq<real>): (r: Option<SupportResistance>)
    requires |highs| == |lows|
    ensures r.None? <==> |highs| == 0
    ensures r.Some? ==>
      var hs, ls := LastN(highs, Lookback), LastN(lows, Lookback);
      |hs| > 0 && |ls| > 0 &&
      (forall k :: 0 <= k < |ls| ==> MinOf(ls) <= ls[k]) && (forall k :: 0 <= k < |hs| ==> hs[k] <= MaxOf(hs)) &&
      r.value == SupportResistance(SupportLevels(MinOf(ls), MaxOf(hs)), ResistanceLevels(MinOf(ls), MaxOf(hs)))
  {
    if |highs| == 0 then None
    else
      var hi := MaxOf(LastN(highs, Lookback));
      var lo := MinOf(LastN(lows, Lookback));
      Some(SupportResistance(SupportLevels(lo, hi), ResistanceLevels(lo, hi)))
  }

  /**
   * When every bar's low is at most its high, the lowest of the last 50 lows
   * is at most the highest of the last 50 highs, so the levels are ordered
   * as `LevelsOrdered` states.
   */
  lemma FibonacciLevelsOrdered(highs: seq<real>, lows: seq<real>)
    requires |highs| == |lows| > 0
    requires forall i :: 0 <= i < |highs| ==> lows[i] <= highs[i]
    ensures var r := FibonacciSupportResistance(highs, lows).value;
      var hi, lo := MaxOf(LastN(highs, Lookback)), MinOf(LastN(lows, Lookback));
      lo <= hi && (forall j, k :: 0 <= j < k < 4 ==> r.support[j] <= r.support[k] && r.resistance[k] <= r.resistance[j]) &&
      (forall k :: 0 <= k < 4 ==> lo <= r.support[k] <= hi && lo <= r.resistance[k] <= hi) &&
      (forall k :: 0 <= k < 4 ==> r.support[k] + r.resistance[k] == lo + hi)
  {
    var hs, ls := LastN(highs, Lookback), LastN(lows, Lookback);
    assert ls[0] == lows[|lows| - |ls|] && hs[0] == highs[|highs| - |hs|];
    assert MinOf(ls) <= ls[0] <= hs[0] <= MaxOf(hs);
    LevelsOrdered(MinOf(ls), MaxOf(hs));
  }

  datatype FibonacciRange = FibonacciRange(levels: seq<real>, extremes: seq<real>)

  /**
   * `calculate_fibonacci_levels`: the resistance levels of the whole
   * frame's range, from its lowest low to its highest high, and
   * `[highest, lowest]`.
   */
  function FibonacciLevels(highs: seq<real>, lows: seq<real>): (r: Option<FibonacciRange>)
    requires |highs| == |lows|
    ensures r.None? <==> |highs| == 0
    ensures r.Some? ==>
      r.value.levels == ResistanceLevels(MinOf(lows), MaxOf(highs)) && r.value.extremes == [MaxOf(highs), MinOf(lows)]
  {
    if |highs| == 0 then None
    else
      var hi := MaxOf(highs);
      var lo := MinOf(lows);
      Some(FibonacciRange(ResistanceLevels(lo, hi), [hi, lo]))
  }

  /**
   * When every bar's low is at most its high, the whole-frame levels
   * descend from the highest high towards the lowest low and stay between
   * the two extremes.
   */
  lemma FibonacciLevelsWithinExtremes(highs: seq<real>, lows: seq<real>)
    requires |highs| == |lows| > 0
    requires forall i :: 0 <= i < |highs| ==> lows[i] <= highs[i]
    ensures var r := FibonacciLevels(highs, lows).value;
      (forall j, k :: 0 <= j < k < 4 ==> r.levels[k] <= r.levels[j]) &&
      (forall k :: 0 <= k < 4 ==> r.extremes[1] <= r.levels[k] <= r.extremes[0])
  {
    assert MinOf(lows) <= lows[0] <= highs[0] <= MaxOf(highs);
    LevelsOrdered(MinOf(lows), MaxOf(highs));
  }

  /** Up to 50 bars the whole-frame levels are the resistance levels of the last-50-bars variant. */
  lemma FibonacciLevelsAreResistance(highs: seq<real>, lows: seq<real>)
    requires |highs| == |lows| && 0 < |highs| <= Lookback
    ensures FibonacciLevels(highs, lows).value.levels == FibonacciSupportResistance(highs, lows).value.resistance
  {
    assert LastN(highs, Lookback) == highs && LastN(lows, Lookback) == lows;
  }

  datatype Points = Points(op: real, xop: real, cop: real)

  /**
   * `calculate_op_xop_cop` on the last bar: OP is the close, XOP extends the
   * bar's range by 161.8% above its high, COP lies 50% of the range below the
   * high. `iloc[-1]` on an empty frame raises, modelled as `None`.
   */
  function OpXopCop(highs: seq<real>, lows: seq<real>, closes: seq<real>): (r: Option<Points>)
    requires |highs| == |lows| == |closes|
    ensures r.None? <==> |closes| == 0
    ensures r.Some? ==> r.value.op == closes[|closes| - 1]
  {
    if |closes| == 0 then None
    else
      var h, l := highs[|highs| - 1], lows[|lows| - 1];
      Some(Points(closes[|closes| - 1], h + 1.618 * (h - l), h - 0.5 * (h - l)))
  }

  /** COP is the midpoint of the last bar; on a bar with low ≤ high, low ≤ COP ≤ high ≤ XOP. */
  lemma OpXopCopOrdered(highs: seq<real>, lows: seq<real>, closes: seq<real>)
    requires |highs| == |lows| == |closes| > 0
    ensures var p := OpXopCop(highs, lows, closes).value;
      var h, l := highs[|highs| - 1], lows[|lows| - 1];
      p.cop == (h + l) / 2.0 &&
      (l <= h ==> l <= p.cop <= h <= p.xop)
  {
  }

  /** The value stored under one indicator name: a number, or a list of levels. */
  datatype IndicatorValue = Scalar(x: Num) | Levels(xs: seq<real>)

  /** The indicators computed by pandas' exponential and rolling float routines, which this model takes as given. */
  datatype FloatIndicators = FloatIndicators(
    ema9: Num, rsi14: Num, ama14: Num, macd: Num, signal: Num, histogram: Num,
    stochK: Num, stochD: Num, prediction: Num, cci: Num, atr: Num, williams: Num)

  const IndicatorNames: seq<string> := [
    "SMA 14", "SMA 50", "EMA 9", "RSI 14", "AMA 14", "MACD", "Signal Line", "MACD Histogram",
    "Stochastic %K", "Stochastic %D", "Prediction Signal", "OP", "XOP", "COP", "Support",
    "Resistance", "CCI", "OBV", "ATR", "Williams %R"]

  function Lift(s: seq<real>): (r: seq<Num>)
    ensures |r| == |s| && forall k :: 0 <= k < |s| ==> r[k] == Val(s[k])
  {
    seq(|s|, k requires 0 <= k < |s| => Val(s[k]))
  }

  /** The indicators of one frame, each at its last row. */
  datatype Indicators = Indicators(
    sma14: Num, sma50: Num, floats: FloatIndicators, points: Points, levels: SupportResistance, obv: real)

  /** The list `calculate_indicators_for_data` returns: twenty named entries, in this order. */
  function AsList(d: Indicators): (r: seq<(string, IndicatorValue)>)
    ensures |r| == |IndicatorNames|
    ensures forall k :: 0 <= k < |IndicatorNames| ==> r[k].0 == IndicatorNames[k]
  {
    var f := d.floats;
    var values := [
      Scalar(d.sma14), Scalar(d.sma50), Scalar(f.ema9), Scalar(f.rsi14), Scalar(f.ama14), Scalar(f.macd),
      Scalar(f.signal), Scalar(f.histogram), Scalar(f.stochK), Scalar(f.stochD), Scalar(f.prediction),
      Scalar(Val(d.points.op)), Scalar(Val(d.points.xop)), Scalar(Val(d.points.cop)),
      Levels(d.levels.support), Levels(d.levels.resistance), Scalar(f.cci), Scalar(Val(d.obv)),
      Scalar(f.atr), Scalar(f.williams)];
    seq(|IndicatorNames|, k requires 0 <= k < |IndicatorNames| => (IndicatorNames[k], values[k]))
  }

  /**
   * `calculate_indicators_for_data`: the last value of each indicator;
   * `iloc[-1]` on an empty frame raises, modelled as `None`.
   */
  function IndicatorsForData(highs: seq<real>, lows: seq<real>, closes: seq<real>, volumes: seq<real>,
                             floats: FloatIndicators): (r: Option<Indicators>)
    requires |highs| == |lows| == |closes| == |volumes|
    ensures r.None? <==> |closes| == 0
    ensures r.Some? ==>
      var n := |closes|;
      r.value.sma14 == CalculateSma(Lift(closes), 14)[n - 1] &&
      r.value.sma50 == CalculateSma(Lift(closes), 50)[n - 1] &&
      r.value.points.op == closes[n - 1] &&
      r.value.levels == FibonacciSupportResistance(highs, lows).value &&
      r.value.obv == Obv(closes, volumes)[n - 1]
  {
    if |closes| == 0 then None
    else
      var n := |closes|;
      Some(Indicators(CalculateSma(Lift(closes), 14)[n - 1], CalculateSma(Lift(closes), 50)[n - 1], floats,
        OpXopCop(highs, lows, closes).value, FibonacciSupportResistance(highs, lows).value,
        Obv(closes, volumes)[n - 1]))
  }
}
