/**
 * Checks applied to a candle frame before it is drawn
 * (gui/chart_data_validator.py): NaN removal and price sanity, the
 * per-timeframe candle limit, and the OHLCV column rename.
 */
module ChartDataValidator {
  import opened Wrappers
  import opened Models
  import opened Frames

  /** No column holds NaN at row `i`. */
  predicate RowClean(f: Frame, i: nat) {
    forall c :: c in f.cols && i < |f.cols[c]| ==> f.cols[c][i].Val?
  }

  /** `df.isnull().any().any()`. */
  predicate HasNaN(f: Frame) {
    exists i :: 0 <= i < Len(f) && !RowClean(f, i)
  }

  /** The positions below `n` of the rows without NaN, ascending. */
  function CleanRows(f: Frame, n: nat): (r: seq<nat>)
    requires n <= Len(f)
    ensures |r| <= n
    ensures forall j :: 0 <= j < |r| ==> r[j] < n && RowClean(f, r[j])
    ensures forall i :: 0 <= i < n && RowClean(f, i) ==> i in r
    ensures forall j, k :: 0 <= j < k < |r| ==> r[j] < r[k]
  {
    if n == 0 then [] else CleanRows(f, n - 1) + (if RowClean(f, n - 1) then [n - 1] else [])
  }

  /** `df.dropna()`: the rows without NaN in any column, in their order. */
  function DropNaN(f: Frame): (r: Frame)
    requires WellFormed(f)
    ensures WellFormed(r) && r.cols.Keys == f.cols.Keys && !HasNaN(r)
    ensures Len(r) <= Len(f)
  {
    var idx := CleanRows(f, Len(f));
    var r := SelectRows(f, idx);
    assert forall i :: 0 <= i < Len(r) ==> RowClean(r, i) by {
      forall i | 0 <= i < Len(r) ensures RowClean(r, i) {
        assert RowClean(f, idx[i]);
      }
    }
    r
  }

  lemma {:induction false} CleanRowsAll(f: Frame, n: nat)
    requires n <= Len(f) && forall i :: 0 <= i < n ==> RowClean(f, i)
    ensures |CleanRows(f, n)| == n && forall j :: 0 <= j < n ==> CleanRows(f, n)[j] == j
  {
    if n > 0 {
      CleanRowsAll(f, n - 1);
    }
  }

  /** Dropping NaN rows from a frame without NaN gives back the same frame. */
  lemma DropNaNNoop(f: Frame)
    requires WellFormed(f) && !HasNaN(f)
    ensures DropNaN(f) == f
  {
    var idx := CleanRows(f, Len(f));
    CleanRowsAll(f, Len(f));
    var r := DropNaN(f);
    assert r.index == f.index;
    forall c | c in f.cols ensures r.cols[c] == f.cols[c] {
      assert |r.cols[c]| == |f.cols[c]|;
    }
  }

  /** Python `x <= 0` on a float: false for NaN. */
  predicate NonPositive(x: Num) {
    x.Val? && x.v <= 0.0
  }

  /** `(df[['Open', 'High', 'Low', 'Close']] <= 0).any().any()`. */
  predicate AnyNonPositivePrice(f: Frame)
    requires WellFormed(f) && HasPrices(f)
  {
    exists i :: 0 <= i < Len(f) &&
      (NonPositive(f.cols["Open"][i]) || NonPositive(f.cols["High"][i]) ||
       NonPositive(f.cols["Low"][i]) || NonPositive(f.cols["Close"][i]))
  }

  /** Every price is a number above zero. */
  predicate AllPricesPositive(f: Frame)
    requires WellFormed(f) && HasPrices(f)
  {
    forall i :: 0 <= i < Len(f) ==>
      (f.cols["Open"][i].Val? && f.cols["Open"][i].v > 0.0 &&
       f.cols["High"][i].Val? && f.cols["High"][i].v > 0.0 &&
       f.cols["Low"][i].Val? && f.cols["Low"][i].v > 0.0 &&
       f.cols["Close"][i].Val? && f.cols["Close"][i].v > 0.0)
  }

  /**
   * `validate_data`: `Ok(None)` for a missing or empty frame, for a frame
   * whose every row holds a NaN, and for one with a price at or below zero;
   * otherwise the frame without its NaN rows. Selecting the price columns of
   * a frame that lacks them raises `KeyError`, modelled as `Err`.
   */
  function ValidateData(df: Option<Frame>): (r: Result<Option<Frame>>)
    requires df.Some? ==> WellFormed(df.value)
    ensures df.None? || IsEmpty(df.value) ==> r == Ok(None)
    ensures r.Ok? && r.value.Some? ==>
      var g := r.value.value;
      WellFormed(g) && HasPrices(g) && !IsEmpty(g) && !HasNaN(g) && AllPricesPositive(g) &&
      g == DropNaN(df.value)
    ensures r.Err? <==>
      (df.Some? && !IsEmpty(df.value) && !IsEmpty(DropNaN(df.value)) && !HasPrices(df.value))
    ensures (df.Some? && !IsEmpty(df.value) && !IsEmpty(DropNaN(df.value)) && HasPrices(df.value) &&
             !AnyNonPositivePrice(DropNaN(df.value))) ==> r.Ok? && r.value.Some?
  {
    if df.None? || IsEmpty(df.value) then Ok(None)
    else
      var f := df.value;
      if !HasNaN(f) then
        DropNaNNoop(f);
        Checked(f)
      else
        var g := DropNaN(f);
        if IsEmpty(g) then Ok(None) else Checked(g)
  }

  /** The price check that ends `validate_data`. */
  function Checked(g: Frame): (r: Result<Option<Frame>>)
    requires WellFormed(g) && !HasNaN(g)
    ensures r.Err? <==> !HasPrices(g)
    ensures r.Ok? && r.value.Some? ==> r.value.value == g && HasPrices(g) && AllPricesPositive(g)
    ensures HasPrices(g) && !AnyNonPositivePrice(g) ==> r == Ok(Some(g))
  {
    if !HasPrices(g) then Err("KeyError: price columns missing")
    else if AnyNonPositivePrice(g) then Ok(None)
    else
      assert AllPricesPositive(g) by {
        forall i | 0 <= i < Len(g)
          ensures g.cols["Open"][i].Val? && g.cols["High"][i].Val? && g.cols["Low"][i].Val? && g.cols["Close"][i].Val?
        {
          assert RowClean(g, i);
        }
      }
      Ok(Some(g))
  }

  /** A validated frame passes validation again unchanged. */
  lemma ValidateDataIdempotent(df: Option<Frame>)
    requires df.Some? ==> WellFormed(df.value)
    requires ValidateData(df).Ok? && ValidateData(df).value.Some?
    ensures ValidateData(Some(ValidateData(df).value.value)) == ValidateData(df)
  {
    var g := ValidateData(df).value.value;
    DropNaNNoop(g);
    assert !AnyNonPositivePrice(g);
  }

  /** The table of `limit_candles`; codes missing from it get 500. */
  const CandleLimits: map<string, nat> := map[
    "1m" := 500, "3m" := 500, "5m" := 500, "15m" := 500, "30m" := 500,
    "1h" := 500, "2h" := 400, "4h" := 300, "6h" := 300, "12h" := 300,
    "1d" := 500, "1w" := 200, "1mo" := 100]

  function MaxCandles(code: string): (n: nat)
    ensures code !in CandleLimits ==> n == 500
    ensures code in CandleLimits ==> n == CandleLimits[code]
    ensures 100 <= n <= 500
  {
    if code in CandleLimits then CandleLimits[code] else 500
  }

  /** `limit_candles`: the last `min(len, limit)` rows. */
  function LimitCandles(f: Frame, code: string): (r: Frame)
    requires WellFormed(f)
    ensures WellFormed(r) && r.cols.Keys == f.cols.Keys
    ensures Len(r) == if Len(f) > MaxCandles(code) then MaxCandles(code) else Len(f)
    ensures r.index == f.index[Len(f) - Len(r)..]
    ensures forall c :: c in r.cols ==> r.cols[c] == f.cols[c][Len(f) - Len(r)..]
  {
    if Len(f) > MaxCandles(code) then Tail(f, MaxCandles(code)) else f
  }

  /** Limiting twice is limiting once. */
  lemma LimitCandlesIdempotent(f: Frame, code: string)
    requires WellFormed(f)
    ensures LimitCandles(LimitCandles(f, code), code) == LimitCandles(f, code)
  {
  }

  /** The five column labels a drawable frame needs. */
  const RequiredColumns: seq<string> := ["Open", "High", "Low", "Close", "Volume"]

  /**
   * `prepare_columns`: renames the lower-case OHLCV columns of the frame in
   * place, then hands the same frame back when all five required labels
   * exist and `null` (Python's None) otherwise; the rename stays visible to
   * the caller either way.
   */
  method PrepareColumns(df: FrameRef) returns (r: FrameRef?)
    modifies df
    ensures df.frame == RenameOhlcv(old(df.frame))
    ensures r == (if HasOhlcv(df.frame) then df else null)
  {
    df.frame := RenameOhlcv(df.frame);
    var missing: seq<string> := [];
    for i := 0 to |RequiredColumns|
      invariant missing == [] <==> forall j :: 0 <= j < i ==> RequiredColumns[j] in df.frame.cols
    {
      if RequiredColumns[i] !in df.frame.cols {
        missing := missing + [RequiredColumns[i]];
      }
    }
    HasOhlcvAsList(df.frame);
    if missing != [] {
      r := null;
    } else {
      r := df;
    }
  }

  lemma HasOhlcvAsList(f: Frame)
    ensures HasOhlcv(f) <==> forall j :: 0 <= j < |RequiredColumns| ==> RequiredColumns[j] in f.cols
  {
    assert RequiredColumns[0] == "Open" && RequiredColumns[1] == "High" && RequiredColumns[2] == "Low";
    assert RequiredColumns[3] == "Close" && RequiredColumns[4] == "Volume";
  }

  lemma RenamedHas(f: Frame, n: string)
    requires n == "Open" || n == "High" || n == "Low" || n == "Close" || n == "Volume"
    ensures n in RenameOhlcv(f).cols <==> (n in f.cols || Lower5(n) in f.cols)
  {
    var keys := set c | c in f.cols :: RenameOne(c);
    var cols := RenameOhlcv(f).cols;
    assert cols.Keys == keys;
    if n in cols {
      assert n in keys;
      var c :| c in f.cols && RenameOne(c) == n;
      RenameOnePreimage(c, n);
    }
    if n in f.cols {
      RequiredLabelKept(n);
      assert RenameOne(n) in keys;
      assert n in cols;
    }
    if Lower5(n) in f.cols {
      LowerLabelRenamed(n);
      assert RenameOne(Lower5(n)) in keys;
      assert n in cols;
    }
  }

  /** A required label exists after the rename exactly when the frame had it in either case. */
  lemma RenamedColumnsPresent(f: Frame)
    ensures HasOhlcv(RenameOhlcv(f)) <==>
      (("Open" in f.cols || "open" in f.cols) && ("High" in f.cols || "high" in f.cols) &&
       ("Low" in f.cols || "low" in f.cols) && ("Close" in f.cols || "close" in f.cols) &&
       ("Volume" in f.cols || "volume" in f.cols))
  {
    RenamedHas(f, "Open");
    RenamedHas(f, "High");
    RenamedHas(f, "Low");
    RenamedHas(f, "Close");
    RenamedHas(f, "Volume");
  }

  /** Only the label itself and its lower-case spelling are renamed to a required label. */
  lemma RenameOnePreimage(c: string, n: string)
    requires n == "Open" || n == "High" || n == "Low" || n == "Close" || n == "Volume"
    requires RenameOne(c) == n
    ensures c == n || c == Lower5(n)
  {
    if c == "open" || c == "high" || c == "low" || c == "close" || c == "volume" {
      assert RenameOne(c)[0] == n[0];
    }
  }

  /** The rename leaves a required label as it is. */
  lemma RequiredLabelKept(n: string)
    requires n == "Open" || n == "High" || n == "Low" || n == "Close" || n == "Volume"
    ensures RenameOne(n) == n
  {
    assert n[0] != 'o' && n[0] != 'h' && n[0] != 'l' && n[0] != 'c' && n[0] != 'v';
  }

  /** The rename turns the lower-case spelling of a required label into the label. */
  lemma LowerLabelRenamed(n: string)
    requires n == "Open" || n == "High" || n == "Low" || n == "Close" || n == "Volume"
    ensures RenameOne(Lower5(n)) == n
  {
  }

  /** The lower-case spelling of one of the five required labels. */
  function Lower5(n: string): string {
    if n == "Open" then "open"
    else if n == "High" then "high"
    else if n == "Low" then "low"
    else if n == "Close" then "close"
    else if n == "Volume" then "volume"
    else n
  }
}
