/**
 * Candle width and plot payload preparation for the chart
 * (gui/chart_calculators.py).
 */
module ChartCalculators {
  import opened Models
  import opened Frames
  import opened Text

  /** Sum of the consecutive index gaps, i.e. of `df.index.to_series().diff().dropna()`. */
  function GapSum(index: seq<Time>): real
    decreases |index|
  {
    if |index| < 2 then 0.0 else (index[1] - index[0]) + GapSum(index[1..])
  }

  lemma {:induction false} GapSumTelescopes(index: seq<Time>)
    requires |index| >= 1
    ensures GapSum(index) == index[|index| - 1] - index[0]
  {
    if |index| >= 2 {
      GapSumTelescopes(index[1..]);
    }
  }

  /** The width used when fewer than two candles are known: an ordered chain of substring tests. */
  function FallbackWidth(code: string): real {
    if Contains(code, "1m") then 1.0 / 60.0 / 24.0 * 0.7
    else if Contains(code, "3m") then 3.0 / 60.0 / 24.0 * 0.7
    else if Contains(code, "5m") then 5.0 / 60.0 / 24.0 * 0.7
    else if Contains(code, "15m") then 15.0 / 60.0 / 24.0 * 0.7
    else if Contains(code, "30m") then 30.0 / 60.0 / 24.0 * 0.7
    else if Contains(code, "1h") then 1.0 / 24.0 * 0.7
    else if Contains(code, "1d") || Contains(code, "1D") then 0.7
    else if Contains(code, "1w") then 7.0 * 0.7
    else if Contains(code, "1mo") then 30.0 * 0.7
    else 0.6
  }

  /** `calculate_candle_width`: 70% of the mean candle spacing in days, or the code-based fallback. */
  function CandleWidth(code: string, index: seq<Time>): real {
    if |index| > 1 then GapSum(index) / ((|index| - 1) as real) / 86400.0 * 0.7
    else FallbackWidth(code)
  }

  /** With two or more candles the width only depends on the first and last time and the candle count. */
  lemma CandleWidthFromSpan(code: string, index: seq<Time>)
    requires |index| > 1
    ensures CandleWidth(code, index) == (index[|index| - 1] - index[0]) / ((|index| - 1) as real) / 86400.0 * 0.7
  {
    GapSumTelescopes(index);
  }

  /** A substring needs each of its characters: a code without one of them does not contain it. */
  lemma {:induction false} MissingChar(s: string, sub: string, k: nat)
    requires k < |sub| && forall i :: 0 <= i < |s| ==> s[i] != sub[k]
    ensures !Contains(s, sub)
    decreases |s|
  {
    if |sub| <= |s| {
      assert s[..|sub|][k] == s[k];
    }
    if |s| > 0 {
      assert forall i :: 0 <= i < |s| - 1 ==> s[1..][i] == s[i + 1];
      MissingChar(s[1..], sub, k);
    }
  }

  /**
   * Consequences of the order of the substring tests: "1mo" contains "1m" and
   * gets the one-minute width, and "15m" contains "5m" and gets the
   * five-minute width.
   */
  lemma FallbackWidthMinuteQuirks()
    ensures FallbackWidth("1mo") == 1.0 / 60.0 / 24.0 * 0.7
    ensures FallbackWidth("15m") == 5.0 / 60.0 / 24.0 * 0.7
  {
    assert StartsWith("1mo", "1m");
    MissingChar("15m", "3m", 0);
    assert "15m"[1..] == "5m" && "5m"[1..] == "m" && "m"[1..] == "";
    assert !Contains("15m", "1m") && StartsWith("5m", "5m");
  }

  /** The 2h, 4h, 6h and 12h codes match none of the tests and get 0.6. */
  lemma FallbackWidthHourQuirks(code: string)
    requires code == "2h" || code == "4h" || code == "6h" || code == "12h"
    ensures FallbackWidth(code) == 0.6
  {
    MissingChar(code, "1m", 1);
    MissingChar(code, "3m", 1);
    MissingChar(code, "5m", 1);
    MissingChar(code, "15m", 2);
    MissingChar(code, "30m", 2);
    MissingChar(code, "1d", 1);
    MissingChar(code, "1D", 1);
    MissingChar(code, "1w", 1);
    MissingChar(code, "1mo", 1);
    if code == "12h" {
      assert !Contains("12h", "1h");
    } else {
      MissingChar(code, "1h", 0);
    }
  }

  datatype Colour = Bullish | Bearish

  /** matplotlib `date2num`: days since 1970-01-01. */
  function DateNum(t: Time): real {
    t / 86400.0
  }

  /** `list(range(start, stop, step))` for a positive step. */
  function Range(start: nat, stop: nat, step: nat): seq<nat>
    requires step > 0
    decreases stop - start
  {
    if start >= stop then [] else [start] + Range(start + step, stop, step)
  }

  lemma {:induction false} RangeAt(start: nat, stop: nat, step: nat, k: nat)
    requires step > 0 && start + k * step < stop
    ensures |Range(start, stop, step)| > k && Range(start, stop, step)[k] == start + k * step
    decreases k
  {
    if k > 0 {
      assert start + step + (k - 1) * step == start + k * step;
      RangeAt(start + step, stop, step, k - 1);
    }
  }

  lemma {:induction false} RangeBelowStop(start: nat, stop: nat, step: nat)
    requires step > 0
    ensures forall j :: 0 <= j < |Range(start, stop, step)| ==> Range(start, stop, step)[j] < stop
    decreases stop - start
  {
    if start < stop {
      RangeBelowStop(start + step, stop, step);
    }
  }

  /** Python `s[:k]`. */
  function Take<T>(s: seq<T>, k: nat): (r: seq<T>)
    ensures |r| == if |s| <= k then |s| else k
  {
    if |s| <= k then s else s[..k]
  }

  /** At most this many candles are drawn. */
  const MaxDraw: nat := 500

  /** The positions kept for drawing: all of them up to 500, else every `n // 500`-th, at most 500. */
  function DrawIndices(n: nat): seq<nat> {
    if n > MaxDraw then Take(Range(0, n, n / MaxDraw), MaxDraw) else Range(0, n, 1)
  }

  lemma {:induction false} MulMonotone(k: nat, m: nat, step: nat)
    requires k <= m
    ensures k * step <= m * step
    decreases m - k
  {
    if k < m {
      MulMonotone(k, m - 1, step);
      assert (m - 1) * step + step == m * step;
    }
  }

  lemma StepBelowCount(n: nat, k: nat)
    requires n > 500 && k < 500
    ensures k * (n / 500) < n
  {
    var step := n / 500;
    MulMonotone(k, 499, step);
    assert 499 * step < 500 * step <= n;
  }

  /** Above 500 candles exactly 500 positions are kept: 0, step, 2·step, …, all below n. */
  lemma DrawIndicesLarge(n: nat)
    requires n > MaxDraw
    ensures |DrawIndices(n)| == MaxDraw
    ensures forall k :: 0 <= k < MaxDraw ==> DrawIndices(n)[k] == k * (n / MaxDraw) && DrawIndices(n)[k] < n
  {
    var step := n / MaxDraw;
    forall k | 0 <= k < MaxDraw
      ensures |Range(0, n, step)| > k && Range(0, n, step)[k] == k * step && k * step < n
    {
      StepBelowCount(n, k);
      RangeAt(0, n, step, k);
    }
    StepBelowCount(n, MaxDraw - 1);
    RangeAt(0, n, step, MaxDraw - 1);
  }

  /** Up to 500 candles every position is kept, in order. */
  lemma DrawIndicesSmall(n: nat)
    requires n <= MaxDraw
    ensures |DrawIndices(n)| == n && forall k :: 0 <= k < n ==> DrawIndices(n)[k] == k
  {
    RangeLength(0, n);
    forall k | 0 <= k < n ensures Range(0, n, 1)[k] == k {
      RangeAt(0, n, 1, k);
    }
  }

  /** The kept positions are strictly increasing and all below `n`. */
  lemma DrawIndicesShape(n: nat)
    ensures |DrawIndices(n)| == if n > MaxDraw then MaxDraw else n
    ensures forall j, k :: 0 <= j < k < |DrawIndices(n)| ==> DrawIndices(n)[j] < DrawIndices(n)[k]
    ensures forall k :: 0 <= k < |DrawIndices(n)| ==> DrawIndices(n)[k] < n
  {
    var r := DrawIndices(n);
    if n > MaxDraw {
      DrawIndicesLarge(n);
      forall j, k | 0 <= j < k < |r| ensures r[j] < r[k] {
        var step := n / MaxDraw;
        MulMonotone(j + 1, k, step);
        assert j * step + step == (j + 1) * step;
      }
    } else {
      DrawIndicesSmall(n);
    }
  }

  lemma {:induction false} RangeLength(start: nat, stop: nat)
    ensures |Range(start, stop, 1)| == if start < stop then stop - start else 0
    decreases stop - start
  {
    if start < stop {
      RangeLength(start + 1, stop);
    }
  }

  datatype PlotPayload = PlotPayload(
    timestamps: seq<real>, opens: seq<Num>, closes: seq<Num>, highs: seq<Num>,
    lows: seq<Num>, volumes: seq<Num>, colours: seq<Colour>, widthDays: real)

  function ColourOf(open: Num, close: Num): Colour {
    if GreaterOrEqual(close, open) then Bullish else Bearish
  }

  /** `np.where(closes >= opens, bullish, bearish)`. */
  function Colours(opens: seq<Num>, closes: seq<Num>): (cs: seq<Colour>)
    requires |opens| == |closes|
    ensures |cs| == |opens|
    ensures forall i :: 0 <= i < |cs| ==> (cs[i] == Bullish <==> GreaterOrEqual(closes[i], opens[i]))
  {
    seq(|opens|, i requires 0 <= i < |opens| => ColourOf(opens[i], closes[i]))
  }

  function DateNums(index: seq<Time>): (ts: seq<real>)
    ensures |ts| == |index|
  {
    seq(|index|, i requires 0 <= i < |index| => DateNum(index[i]))
  }

  /**
   * `prepare_plot_payload`: the seven arrays are all taken at the same draw
   * positions, so they have one length; entry `k` of each is the candle at
   * the k-th draw position, and its colour is bullish exactly when that
   * candle closed at or above its open. The width is the candle width of
   * the whole frame, thinned or not.
   */
  function PreparePlotPayload(f: Frame, code: string): (p: PlotPayload)
    requires WellFormed(f) && HasOhlcv(f)
    ensures |p.timestamps| == |p.opens| == |p.closes| == |p.highs| == |p.lows| == |p.volumes| == |p.colours|
    ensures |p.colours| == |DrawIndices(Len(f))| == if Len(f) > MaxDraw then MaxDraw else Len(f)
    ensures forall k :: 0 <= k < |p.colours| ==>
      (p.colours[k] == Bullish <==> GreaterOrEqual(p.closes[k], p.opens[k]))
    ensures forall k :: 0 <= k < |p.opens| ==> DrawIndices(Len(f))[k] < Len(f)
    ensures forall k :: 0 <= k < |p.timestamps| ==> p.timestamps[k] == DateNum(f.index[DrawIndices(Len(f))[k]])
    ensures forall k :: 0 <= k < |p.opens| ==> p.opens[k] == f.cols["Open"][DrawIndices(Len(f))[k]]
    ensures forall k :: 0 <= k < |p.closes| ==> p.closes[k] == f.cols["Close"][DrawIndices(Len(f))[k]]
    ensures forall k :: 0 <= k < |p.highs| ==> p.highs[k] == f.cols["High"][DrawIndices(Len(f))[k]]
    ensures forall k :: 0 <= k < |p.lows| ==> p.lows[k] == f.cols["Low"][DrawIndices(Len(f))[k]]
    ensures forall k :: 0 <= k < |p.volumes| ==> p.volumes[k] == f.cols["Volume"][DrawIndices(Len(f))[k]]
    ensures p.widthDays == CandleWidth(code, f.index)
  {
    var n := Len(f);
    var idx := DrawIndices(n);
    DrawIndicesShape(n);
    var cs := Colours(f.cols["Open"], f.cols["Close"]);
    PlotPayload(Pick(DateNums(f.index), idx), Pick(f.cols["Open"], idx), Pick(f.cols["Close"], idx),
      Pick(f.cols["High"], idx), Pick(f.cols["Low"], idx), Pick(f.cols["Volume"], idx), Pick(cs, idx),
      CandleWidth(code, f.index))
  }

  /** Up to 500 candles the payload arrays are the frame's own columns. */
  lemma PlotPayloadUnchangedWhenSmall(f: Frame, code: string)
    requires WellFormed(f) && HasOhlcv(f) && Len(f) <= MaxDraw
    ensures PreparePlotPayload(f, code).opens == f.cols["Open"]
    ensures PreparePlotPayload(f, code).closes == f.cols["Close"]
    ensures PreparePlotPayload(f, code).volumes == f.cols["Volume"]
  {
    DrawIndicesSmall(Len(f));
  }
}
