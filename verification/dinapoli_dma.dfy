/**
 * Displaced moving averages after DiNapoli
 * (crypto_trading_bot/analytics/dinapoli_dma.py): a simple moving average
 * of the closes, each defined value stored in `analytics_metrics` under its
 * candle time shifted forward by `displacement` candle steps, with an
 * overwrite-on-conflict upsert; and the stored series read back in time
 * order.
 */
module DinapoliDma {
  import opened Wrappers
  import opened Models
  import opened Frames
  import opened Text
  import opened Sorting
  import opened DbSchema
  import opened DinapoliIndicators

  /** `DMA_COMBINATIONS`: (period, displacement) of the 3×3, 7×5 and 25×5 averages. */
  const DmaCombinations: seq<(nat, nat)> := [(3, 3), (7, 5), (25, 5)]

  /**
   * `calculate_dma`: a series without any defined value when there are
   * fewer prices than the period, otherwise the rolling mean.
   */
  function CalculateDma(closes: seq<Num>, period: nat, displacement: nat): (r: seq<Num>)
    requires period > 0
    ensures |r| == |closes|
    ensures |closes| < period ==> forall i :: 0 <= i < |r| ==> r[i] == NaN
  {
    if |closes| < period then seq(|closes|, i => NaN) else CalculateSma(closes, period)
  }

  /**
   * The early return of `calculate_dma` changes nothing: its result is the
   * rolling mean in every case, so position `i` holds the mean of the
   * `period` closes ending at `i` and nothing before `period - 1`.
   */
  lemma CalculateDmaIsSma(closes: seq<Num>, period: nat, displacement: nat)
    requires period > 0
    ensures CalculateDma(closes, period, displacement) == CalculateSma(closes, period)
  {
    if |closes| < period {
      forall i | 0 <= i < |closes| ensures CalculateSma(closes, period)[i] == NaN {
        SmaDefinedExactly(closes, period, i);
      }
    }
  }

  /** A window of `q` values inside a defined window of `p ≥ q` values is itself defined. */
  lemma SmaDefinedShrinks(s: seq<Num>, p: nat, q: nat, i: nat)
    requires 0 < q <= p && i < |s| && CalculateSma(s, p)[i].Val?
    ensures CalculateSma(s, q)[i].Val?
  {
    SmaDefinedExactly(s, p, i);
    SmaDefinedExactly(s, q, i);
  }

  /** `'Close' if 'Close' in df.columns else 'close'`. */
  function CloseColumn(f: Frame): string {
    if "Close" in f.cols then "Close" else "close"
  }

  /**
   * The checks `calculate_dma_from_dataframe` makes before touching the
   * database: a frame that is present and not empty, a close column, at
   * least one defined average, and at least two rows to measure the candle
   * step.
   */
  predicate DmaInputOk(df: Option<Frame>, period: nat)
    requires period > 0
  {
    df.Some? && !IsEmpty(df.value) && CloseColumn(df.value) in df.value.cols &&
    (exists i :: 0 <= i < |df.value.cols[CloseColumn(df.value)]| &&
      CalculateSma(df.value.cols[CloseColumn(df.value)], period)[i].Val?) &&
    Len(df.value) >= 2
  }

  /** The `metric_type` label, `f"DMA_{period}x{displacement}"`. */
  function MetricType(period: nat, displacement: nat): string {
    "DMA_" + NatToString(period) + "x" + NatToString(displacement)
  }

  lemma MetricTypeExamples()
    ensures MetricType(3, 3) == "DMA_3x3"
    ensures MetricType(25, 5) == "DMA_25x5"
  {
    assert NatToString(25) == NatToString(2) + ['5'];
  }

  /** Candle time `i` moved forward by `displacement` steps of the first two candles' spacing. */
  function Shifted(index: seq<Time>, i: nat, displacement: nat): Time
    requires 2 <= |index| && i < |index|
  {
    index[i] + (index[1] - index[0]) * displacement as real
  }

  /** One upsert into `analytics_metrics`. */
  datatype MetricWrite = MetricWrite(key: MetricKey, value: real)

  /** The write for the defined average at position `p`. */
  function WriteAt(index: seq<Time>, sma: seq<Num>, p: nat, inst: int, tf: Cell, period: nat, displacement: nat): MetricWrite
    requires 2 <= |index| == |sma| && p < |sma| && sma[p].Val?
  {
    MetricWrite(MetricKey(inst, tf, MetricType(period, displacement), period, displacement,
      Shifted(index, p, displacement)), sma[p].v)
  }

  predicate StrictlyIncreasing(index: seq<Time>) {
    forall i, j :: 0 <= i < j < |index| ==> index[i] < index[j]
  }

  /** The positions below `n` where the average is defined, ascending: the index of `sma.dropna()`. */
  function ValidPositions(sma: seq<Num>, n: nat): (ps: seq<nat>)
    requires n <= |sma|
    ensures forall j :: 0 <= j < |ps| ==> ps[j] < n && sma[ps[j]].Val?
  {
    if n == 0 then [] else ValidPositions(sma, n - 1) + (if sma[n - 1].Val? then [n - 1] else [])
  }

  predicate Ascending(ps: seq<nat>) {
    forall j, k :: 0 <= j < k < |ps| ==> ps[j] < ps[k]
  }

  /** The positions come in ascending order. */
  lemma {:induction false} ValidPositionsIncreasing(sma: seq<Num>, n: nat)
    requires n <= |sma|
    ensures Ascending(ValidPositions(sma, n))
  {
    if n > 0 {
      ValidPositionsIncreasing(sma, n - 1);
      var ps := ValidPositions(sma, n - 1);
      var qs := ValidPositions(sma, n);
      if sma[n - 1].Val? {
        assert qs == ps + [n - 1];
        forall j, k | 0 <= j < k < |qs| ensures qs[j] < qs[k] {
          if k == |ps| {
            assert qs[j] == ps[j] < n - 1;
          } else {
            assert qs[j] == ps[j] && qs[k] == ps[k];
          }
        }
      } else {
        assert qs == ps;
      }
    }
  }

  /** Every defined position below `n` is among them, so no defined average is skipped. */
  lemma {:induction false} ValidPositionsComplete(sma: seq<Num>, n: nat, p: nat)
    requires n <= |sma| && p < n && sma[p].Val?
    ensures p in ValidPositions(sma, n)
  {
    if p < n - 1 {
      ValidPositionsComplete(sma, n - 1, p);
    }
  }

  /**
   * The writes the loop over `valid_sma.items()` makes for the positions
   * below `n`: one per defined average, in index order.
   */
  function DmaWrites(index: seq<Time>, sma: seq<Num>, n: nat, inst: int, tf: Cell, period: nat, displacement: nat): seq<MetricWrite>
    requires 2 <= |index| == |sma| && n <= |sma|
  {
    if n == 0 then []
    else
      var rest := DmaWrites(index, sma, n - 1, inst, tf, period, displacement);
      if sma[n - 1].Val? then rest + [WriteAt(index, sma, n - 1, inst, tf, period, displacement)] else rest
  }

  /** Write `j` of `w` is the write for position `ps[j]`. */
  predicate WritesAt(w: seq<MetricWrite>, ps: seq<nat>, index: seq<Time>, sma: seq<Num>, inst: int, tf: Cell,
                     period: nat, displacement: nat)
    requires 2 <= |index| == |sma|
  {
    |w| == |ps| &&
    forall j :: 0 <= j < |w| ==>
      (ps[j] < |sma| && sma[ps[j]].Val? && w[j] == WriteAt(index, sma, ps[j], inst, tf, period, displacement))
  }

  /** Write `j` is the write for the `j`-th defined position: nothing is written for a NaN and nothing twice. */
  lemma {:induction false} DmaWritesAt(index: seq<Time>, sma: seq<Num>, n: nat, inst: int, tf: Cell, period: nat, displacement: nat)
    requires 2 <= |index| == |sma| && n <= |sma|
    ensures WritesAt(DmaWrites(index, sma, n, inst, tf, period, displacement), ValidPositions(sma, n),
      index, sma, inst, tf, period, displacement)
  {
    if n > 0 {
      DmaWritesAt(index, sma, n - 1, inst, tf, period, displacement);
    }
  }

  predicate TimesIncreasing(w: seq<MetricWrite>) {
    forall j, k :: 0 <= j < k < |w| ==> w[j].key.time < w[k].key.time
  }

  /** With strictly increasing candle times the written keys have strictly increasing times, so they are distinct. */
  lemma DmaWritesIncreasing(index: seq<Time>, sma: seq<Num>, n: nat, inst: int, tf: Cell, period: nat, displacement: nat)
    requires 2 <= |index| == |sma| && n <= |sma| && StrictlyIncreasing(index)
    ensures TimesIncreasing(DmaWrites(index, sma, n, inst, tf, period, displacement))
  {
    var w := DmaWrites(index, sma, n, inst, tf, period, displacement);
    var ps := ValidPositions(sma, n);
    DmaWritesAt(index, sma, n, inst, tf, period, displacement);
    ValidPositionsIncreasing(sma, n);
    forall j, k | 0 <= j < k < |w| ensures w[j].key.time < w[k].key.time {
      assert ps[j] < ps[k];
      assert index[ps[j]] < index[ps[k]];
    }
  }

  /** `ps` counts up by one from `from`. */
  predicate Consecutive(ps: seq<nat>, from: nat) {
    forall j :: 0 <= j < |ps| ==> ps[j] == from + j
  }

  /** Over closes without NaN, the defined positions below `n` are `period - 1` to `n - 1`. */
  lemma {:induction false} ValidPositionsNoNaN(closes: seq<Num>, n: nat, period: nat)
    requires 0 < period && n <= |closes| && AllVal(closes)
    ensures |ValidPositions(CalculateSma(closes, period), n)| == (if n < period then 0 else n - period + 1)
    ensures Consecutive(ValidPositions(CalculateSma(closes, period), n), period - 1)
  {
    if n > 0 {
      ValidPositionsNoNaN(closes, n - 1, period);
      SmaDefinedExactly(closes, period, n - 1);
    }
  }

  /**
   * Write `j` is labelled `DMA_{period}x{displacement}`, goes under candle
   * `period - 1 + j` shifted by `displacement` steps and holds the mean of
   * the `period` closes ending at that candle.
   */
  predicate Shaped(w: seq<MetricWrite>, index: seq<Time>, closes: seq<Num>, period: nat, displacement: nat)
    requires 2 <= |index| == |closes| && 0 < period && AllVal(closes)
  {
    forall j :: 0 <= j < |w| ==>
      (period - 1 + j < |closes| &&
       w[j].key.metricType == MetricType(period, displacement) &&
       w[j].key.time == Shifted(index, period - 1 + j, displacement) &&
       w[j].value == Sum(Values(closes[j..j + period])) / period as real)
  }

  /**
   * Over `len ≥ period` closes without NaN, `len - period + 1` values are
   * written, all labelled `DMA_{period}x{displacement}`; write `j` goes
   * under candle `period - 1 + j` shifted by `displacement` steps and holds
   * the mean of the `period` closes ending at that candle.
   */
  lemma DmaWritesShape(index: seq<Time>, closes: seq<Num>, inst: int, tf: Cell, period: nat, displacement: nat)
    requires 2 <= |index| == |closes| && 0 < period <= |closes| && AllVal(closes)
    ensures |DmaWrites(index, CalculateSma(closes, period), |closes|, inst, tf, period, displacement)| == |closes| - period + 1
    ensures Shaped(DmaWrites(index, CalculateSma(closes, period), |closes|, inst, tf, period, displacement),
      index, closes, period, displacement)
  {
    var sma := CalculateSma(closes, period);
    var w := DmaWrites(index, sma, |closes|, inst, tf, period, displacement);
    DmaWritesAt(index, sma, |closes|, inst, tf, period, displacement);
    ValidPositionsNoNaN(closes, |closes|, period);
    forall j | 0 <= j < |w|
      ensures period - 1 + j < |closes|
      ensures w[j].key.metricType == MetricType(period, displacement)
      ensures w[j].key.time == Shifted(index, period - 1 + j, displacement)
      ensures w[j].value == Sum(Values(closes[j..j + period])) / period as real
    {
      DmaWriteIs(index, closes, inst, tf, period, displacement, j);
      WriteAtMean(index, closes, period - 1 + j, inst, tf, period, displacement);
    }
  }

  /** Write `j` over closes without NaN is the write for candle `period - 1 + j`. */
  lemma DmaWriteIs(index: seq<Time>, closes: seq<Num>, inst: int, tf: Cell, period: nat, displacement: nat, j: nat)
    requires 2 <= |index| == |closes| && 0 < period <= |closes| && AllVal(closes)
    requires j < |DmaWrites(index, CalculateSma(closes, period), |closes|, inst, tf, period, displacement)|
    ensures period - 1 + j < |closes| && CalculateSma(closes, period)[period - 1 + j].Val?
    ensures DmaWrites(index, CalculateSma(closes, period), |closes|, inst, tf, period, displacement)[j] ==
      WriteAt(index, CalculateSma(closes, period), period - 1 + j, inst, tf, period, displacement)
  {
    var sma := CalculateSma(closes, period);
    var ps := ValidPositions(sma, |closes|);
    DmaWritesAt(index, sma, |closes|, inst, tf, period, displacement);
    ValidPositionsNoNaN(closes, |closes|, period);
    assert ps[j] == period - 1 + j;
  }

  /** The write at a position `p ≥ period - 1` of closes without NaN holds the mean of the window ending at `p`. */
  lemma WriteAtMean(index: seq<Time>, closes: seq<Num>, p: nat, inst: int, tf: Cell, period: nat, displacement: nat)
    requires 2 <= |index| == |closes| && 0 < period <= p + 1 && p < |closes| && AllVal(closes)
    ensures CalculateSma(closes, period)[p].Val?
    ensures WriteAt(index, CalculateSma(closes, period), p, inst, tf, period, displacement).value
      == Sum(Values(closes[p + 1 - period..p + 1])) / period as real
  {
    SmaDefinedExactly(closes, period, p);
  }

  /**
   * The first value goes `displacement` steps after candle `period - 1`, the
   * last `displacement` steps past the last candle, into the future.
   */
  lemma DmaWritesEnds(index: seq<Time>, closes: seq<Num>, inst: int, tf: Cell, period: nat, displacement: nat)
    requires 2 <= |index| == |closes| && 0 < period <= |closes| && AllVal(closes)
    ensures var w := DmaWrites(index, CalculateSma(closes, period), |closes|, inst, tf, period, displacement);
      |w| > 0 &&
      w[0].key.time == index[period - 1] + (index[1] - index[0]) * displacement as real &&
      w[|w| - 1].key.time == index[|index| - 1] + (index[1] - index[0]) * displacement as real
  {
    DmaWritesShape(index, closes, inst, tf, period, displacement);
  }

  /** The value of the last write to `k`, if any. */
  function LastWrite(w: seq<MetricWrite>, k: MetricKey): (r: Option<real>)
    ensures r.Some? <==> exists j :: 0 <= j < |w| && w[j].key == k
    ensures r.Some? ==> exists j :: (0 <= j < |w| && w[j].key == k && w[j].value == r.value &&
      (forall i :: j < i < |w| ==> w[i].key != k))
  {
    if w == [] then None
    else if w[|w| - 1].key == k then Some(w[|w| - 1].value)
    else LastWrite(w[..|w| - 1], k)
  }

  /**
   * The writes applied one after the other, each `INSERT ... ON CONFLICT DO
   * UPDATE SET value = EXCLUDED.value`. A key ends up in the table when it
   * was there or was written; its value is the last one written, and every
   * key the run does not write keeps its old value.
   */
  function UpsertAll(m: map<MetricKey, real>, w: seq<MetricWrite>): (r: map<MetricKey, real>)
    ensures forall k :: k in r <==> k in m || LastWrite(w, k).Some?
    ensures forall k :: k in r ==> r[k] == if LastWrite(w, k).Some? then LastWrite(w, k).value else m[k]
  {
    if w == [] then m
    else
      var x := w[|w| - 1];
      var r := UpsertAll(m, w[..|w| - 1])[x.key := x.value];
      assert forall k :: k != x.key ==> LastWrite(w, k) == LastWrite(w[..|w| - 1], k);
      r
  }

  /** Upserting the same writes again changes nothing. */
  lemma UpsertAllIdempotent(m: map<MetricKey, real>, w: seq<MetricWrite>)
    ensures UpsertAll(UpsertAll(m, w), w) == UpsertAll(m, w)
  {
  }

  /** Two runs of upserts one after the other are one run of all the writes. */
  lemma {:induction false} UpsertAllConcat(m: map<MetricKey, real>, a: seq<MetricWrite>, b: seq<MetricWrite>)
    ensures UpsertAll(UpsertAll(m, a), b) == UpsertAll(m, a + b)
  {
    if b == [] {
      assert a + b == a;
    } else {
      var x := b[|b| - 1];
      UpsertAllConcat(m, a, b[..|b| - 1]);
      assert (a + b)[..|a + b| - 1] == a + b[..|b| - 1];
      assert (a + b)[|a + b| - 1] == x;
    }
  }

  /** Every write's key holds that write's value in `table`. */
  predicate Landed(table: map<MetricKey, real>, w: seq<MetricWrite>) {
    forall j :: 0 <= j < |w| ==> w[j].key in table && table[w[j].key] == w[j].value
  }

  /** With distinct keys every write's own value is what the table holds afterwards. */
  lemma UpsertAllDistinct(m: map<MetricKey, real>, w: seq<MetricWrite>)
    requires forall i, j :: 0 <= i < j < |w| ==> w[i].key != w[j].key
    ensures Landed(UpsertAll(m, w), w)
  {
    forall j | 0 <= j < |w| ensures LastWrite(w, w[j].key) == Some(w[j].value) {
      var r := LastWrite(w, w[j].key);
      var i :| 0 <= i < |w| && w[i].key == w[j].key && w[i].value == r.value &&
        forall l :: i < l < |w| ==> w[l].key != w[j].key;
    }
  }

  /** The writes `calculate_dma_from_dataframe` makes for a frame that passed its checks. */
  function DmaWritesFor(f: Frame, period: nat, displacement: nat, inst: int, tf: Cell): seq<MetricWrite>
    requires period > 0 && WellFormed(f) && Len(f) >= 2 && CloseColumn(f) in f.cols
  {
    DmaWrites(f.index, CalculateSma(f.cols[CloseColumn(f)], period), Len(f), inst, tf, period, displacement)
  }

  /**
   * On a frame with strictly increasing candle times, the run writes
   * distinct keys, and afterwards each written key holds its own average.
   */
  lemma DmaWritesLand(m: map<MetricKey, real>, f: Frame, period: nat, displacement: nat, inst: int, tf: Cell)
    requires period > 0 && WellFormed(f) && Len(f) >= 2 && CloseColumn(f) in f.cols && StrictlyIncreasing(f.index)
    ensures Landed(UpsertAll(m, DmaWritesFor(f, period, displacement, inst, tf)), DmaWritesFor(f, period, displacement, inst, tf))
  {
    var w := DmaWritesFor(f, period, displacement, inst, tf);
    DmaWritesIncreasing(f.index, CalculateSma(f.cols[CloseColumn(f)], period), Len(f), inst, tf, period, displacement);
    forall i, j | 0 <= i < j < |w| ensures w[i].key != w[j].key {
      assert w[i].key.time < w[j].key.time;
    }
    UpsertAllDistinct(m, w);
  }

  /** One more position: the table gains the write for it when its average is defined. */
  lemma UpsertDmaStep(m: map<MetricKey, real>, index: seq<Time>, sma: seq<Num>, n: nat, inst: int, tf: Cell,
                      period: nat, displacement: nat)
    requires 2 <= |index| == |sma| && n < |sma|
    ensures var before := UpsertAll(m, DmaWrites(index, sma, n, inst, tf, period, displacement));
      var after := UpsertAll(m, DmaWrites(index, sma, n + 1, inst, tf, period, displacement));
      after == (if sma[n].Val? then before[WriteAt(index, sma, n, inst, tf, period, displacement).key := sma[n].v]
                else before)
  {
    var w := DmaWrites(index, sma, n, inst, tf, period, displacement);
    if sma[n].Val? {
      var x := WriteAt(index, sma, n, inst, tf, period, displacement);
      assert (w + [x])[..|w|] == w;
    }
  }

  /** The upsert loop of `calculate_dma_from_dataframe`, one statement per defined average. */
  method UpsertDma(db: Database, index: seq<Time>, sma: seq<Num>, inst: int, tf: Cell, period: nat, displacement: nat)
    requires 2 <= |index| == |sma|
    modifies db`metrics
    ensures db.metrics == UpsertAll(old(db.metrics), DmaWrites(index, sma, |sma|, inst, tf, period, displacement))
  {
    for i := 0 to |sma|
      invariant db.metrics == UpsertAll(old(db.metrics), DmaWrites(index, sma, i, inst, tf, period, displacement))
    {
      UpsertDmaStep(old(db.metrics), index, sma, i, inst, tf, period, displacement);
      if sma[i].Val? {
        var write := WriteAt(index, sma, i, inst, tf, period, displacement);
        db.metrics := db.metrics[write.key := write.value];
      }
    }
  }

  /** `sma.dropna()` is not empty. */
  method AnyDefined(sma: seq<Num>) returns (found: bool)
    ensures found <==> exists j :: 0 <= j < |sma| && sma[j].Val?
  {
    found := false;
    for i := 0 to |sma|
      invariant found <==> exists j :: 0 <= j < i && sma[j].Val?
    {
      if sma[i].Val? {
        found := true;
      }
    }
  }

  /**
   * The instrument id and timeframe id of a run: `ensure_instrument` then
   * `ensure_timeframe`; `None` when either raises.
   */
  method EnsureKeys(db: Database, symbol: string, code: string) returns (r: Option<(int, Cell)>)
    requires db.Valid()
    modifies db`instruments, db`nextInstrumentId, db`timeframes, db`nextTimeframeId
    ensures db.Valid()
    ensures r.Some? <==> old(db.online) && old(db.CanEnsureTimeframe(code))
    ensures r.Some? ==> FindInstrument(db.instruments, symbol) == Some(r.value.0)
    ensures r.Some? ==> db.LookupTimeframe(code) == Some(r.value.1)
    ensures db.CanEnsureTimeframe(code) == old(db.CanEnsureTimeframe(code))
    ensures old(FindInstrument(db.instruments, symbol)).Some? ==> db.instruments == old(db.instruments)
    ensures old(db.online) && old(db.LookupTimeframe(code)).Some? ==> db.timeframes == old(db.timeframes)
  {
    ghost var can := db.CanEnsureTimeframe(code);
    var inst := db.EnsureInstrument(symbol);
    if inst.Err? {
      return None;
    }
    assert db.CanEnsureTimeframe(code) == can;
    var tf := db.EnsureTimeframe(code);
    if tf.Err? {
      assert !can;
      return None;
    }
    r := Some((inst.value, tf.value));
  }

  /**
   * `calculate_dma_from_dataframe`: when the frame passes its checks and the
   * instrument and timeframe rows can be got or created, every defined
   * average is upserted under its shifted time and the call succeeds;
   * otherwise it fails and no metric is written.
   */
  method CalculateDmaFromDataframe(db: Database, df: Option<Frame>, symbol: string, code: string,
                                   period: nat, displacement: nat) returns (ok: bool)
    requires db.Valid() && period > 0
    requires df.Some? ==> WellFormed(df.value)
    modifies db`instruments, db`nextInstrumentId, db`timeframes, db`nextTimeframeId, db`metrics
    ensures db.Valid()
    ensures ok <==> DmaInputOk(df, period) && old(db.online) && old(db.CanEnsureTimeframe(code))
    ensures ok ==> FindInstrument(db.instruments, symbol).Some? && db.LookupTimeframe(code).Some?
    ensures ok ==> db.metrics == UpsertAll(old(db.metrics),
      DmaWritesFor(df.value, period, displacement, FindInstrument(db.instruments, symbol).value,
        db.LookupTimeframe(code).value))
    ensures !ok ==> db.metrics == old(db.metrics)
    ensures db.CanEnsureTimeframe(code) == old(db.CanEnsureTimeframe(code))
    ensures old(FindInstrument(db.instruments, symbol)).Some? ==> db.instruments == old(db.instruments)
    ensures old(db.online) && old(db.LookupTimeframe(code)).Some? ==> db.timeframes == old(db.timeframes)
  {
    var sma := CheckDmaInput(df, period);
    if sma.None? {
      return false;
    }
    var keys := EnsureKeys(db, symbol, code);
    if keys.None? {
      return false;
    }
    UpsertDma(db, df.value.index, sma.value, keys.value.0, keys.value.1, period, displacement);
    ok := true;
  }

  /** The checks of `calculate_dma_from_dataframe` before the database is touched; the averages when they pass. */
  method CheckDmaInput(df: Option<Frame>, period: nat) returns (sma: Option<seq<Num>>)
    requires period > 0
    requires df.Some? ==> WellFormed(df.value)
    ensures sma.Some? <==> DmaInputOk(df, period)
    ensures sma.Some? ==>
      Len(df.value) >= 2 && CloseColumn(df.value) in df.value.cols &&
      sma.value == CalculateSma(df.value.cols[CloseColumn(df.value)], period) && |sma.value| == Len(df.value)
  {
    if df.None? || IsEmpty(df.value) {
      return None;
    }
    var f := df.value;
    var closeCol := CloseColumn(f);
    if closeCol !in f.cols {
      return None;
    }
    var averages := CalculateSma(f.cols[closeCol], period);
    var anyValid := AnyDefined(averages);
    if !anyValid || Len(f) < 2 {
      return None;
    }
    sma := Some(averages);
  }

  /** The writes of the first `k` standard combinations, in the order they run. */
  function AllDmaWrites(f: Frame, k: nat, inst: int, tf: Cell): seq<MetricWrite>
    requires WellFormed(f) && Len(f) >= 2 && CloseColumn(f) in f.cols && k <= |DmaCombinations|
  {
    if k == 0 then []
    else AllDmaWrites(f, k - 1, inst, tf) + DmaWritesFor(f, DmaCombinations[k - 1].0, DmaCombinations[k - 1].1, inst, tf)
  }

  /** The checks pass for each of the first `k` standard combinations. */
  predicate AllOk(df: Option<Frame>, k: nat)
    requires k <= |DmaCombinations|
  {
    k == 0 || (AllOk(df, k - 1) && DmaInputOk(df, DmaCombinations[k - 1].0))
  }

  /**
   * A frame that passes the checks for the 25-candle average passes them
   * for the 3- and 7-candle ones too, so all three succeed exactly when
   * the longest one does.
   */
  lemma AllCombinationsOk(df: Option<Frame>)
    ensures AllOk(df, 3) <==> DmaInputOk(df, 25)
  {
    assert DmaCombinations[0].0 == 3 && DmaCombinations[1].0 == 7 && DmaCombinations[2].0 == 25;
    assert AllOk(df, 1) <==> DmaInputOk(df, 3);
    assert AllOk(df, 2) <==> AllOk(df, 1) && DmaInputOk(df, 7);
    assert AllOk(df, 3) <==> AllOk(df, 2) && DmaInputOk(df, 25);
    if DmaInputOk(df, 25) {
      var closes := df.value.cols[CloseColumn(df.value)];
      var i :| 0 <= i < |closes| && CalculateSma(closes, 25)[i].Val?;
      SmaDefinedShrinks(closes, 25, 7, i);
      SmaDefinedShrinks(closes, 25, 3, i);
    }
  }

  /** `metrics` is `m0` after the writes of the first `k` combinations. */
  ghost predicate Accumulated(metrics: map<MetricKey, real>, m0: map<MetricKey, real>, f: Frame, k: nat, inst: int, tf: Cell)
    requires WellFormed(f) && Len(f) >= 2 && CloseColumn(f) in f.cols && k <= |DmaCombinations|
  {
    metrics == UpsertAll(m0, AllDmaWrites(f, k, inst, tf))
  }

  /**
   * After the first `k` combinations: `successCount` of them succeeded,
   * all of them exactly when the database could take them and the frame
   * passed each check; while all succeeded, the instrument and timeframe
   * are `inst` and `tf` and the table holds every write so far.
   */
  ghost predicate Progress(df: Option<Frame>, k: nat, successCount: nat, up: bool,
                           found: Option<int>, tfFound: Option<Cell>,
                           metrics: map<MetricKey, real>, m0: map<MetricKey, real>, inst: int, tf: Cell)
    requires k <= |DmaCombinations| && (df.Some? ==> WellFormed(df.value))
  {
    successCount <= k &&
    (successCount == 0 ==> metrics == m0) &&
    (successCount == k <==> (k == 0 || up) && AllOk(df, k)) &&
    (0 < k == successCount ==>
      df.Some? && Len(df.value) >= 2 && CloseColumn(df.value) in df.value.cols &&
      found == Some(inst) && tfFound == Some(tf) && Accumulated(metrics, m0, df.value, k, inst, tf))
  }

  /**
   * One more combination run: given what `CalculateDmaFromDataframe`
   * promises about the run, the progress moves from `k` to `k + 1`.
   */
  lemma ProgressStep(df: Option<Frame>, k: nat, successCount: nat, up: bool,
                     found: Option<int>, tfFound: Option<Cell>, metrics: map<MetricKey, real>,
                     m0: map<MetricKey, real>, inst: int, tf: Cell,
                     done: bool, found': Option<int>, tfFound': Option<Cell>, metrics': map<MetricKey, real>)
    requires k < |DmaCombinations| && (df.Some? ==> WellFormed(df.value))
    requires Progress(df, k, successCount, up, found, tfFound, metrics, m0, inst, tf)
    requires done <==> DmaInputOk(df, DmaCombinations[k].0) && up
    requires done ==> found'.Some? && tfFound'.Some?
    requires done ==> metrics' == UpsertAll(metrics,
      DmaWritesFor(df.value, DmaCombinations[k].0, DmaCombinations[k].1, found'.value, tfFound'.value))
    requires !done ==> metrics' == metrics
    requires found.Some? ==> found' == found
    requires up && tfFound.Some? ==> tfFound' == tfFound
    ensures var accumulating := done && successCount == k;
      Progress(df, k + 1, if done then successCount + 1 else successCount, up, found', tfFound', metrics', m0,
        if accumulating then found'.value else inst, if accumulating then tfFound'.value else tf)
  {
    if done && successCount == k {
      AccumulateStep(m0, metrics, metrics', df.value, k, found'.value, tfFound'.value);
    }
  }

  /** Running combination `k` after the first `k` extends the accumulated writes by its own. */
  lemma {:induction false} AccumulateStep(m0: map<MetricKey, real>, before: map<MetricKey, real>, after: map<MetricKey, real>,
                                          f: Frame, k: nat, inst: int, tf: Cell)
    requires WellFormed(f) && Len(f) >= 2 && CloseColumn(f) in f.cols && k < |DmaCombinations|
    requires before == UpsertAll(m0, AllDmaWrites(f, k, inst, tf))
    requires after == UpsertAll(before, DmaWritesFor(f, DmaCombinations[k].0, DmaCombinations[k].1, inst, tf))
    ensures after == UpsertAll(m0, AllDmaWrites(f, k + 1, inst, tf))
  {
    UpsertAllConcat(m0, AllDmaWrites(f, k, inst, tf), DmaWritesFor(f, DmaCombinations[k].0, DmaCombinations[k].1, inst, tf));
  }

  /** The loop state of `calculate_all_dma_from_dataframe` after `k` combinations. */
  ghost predicate LoopState(db: Database, df: Option<Frame>, symbol: string, code: string, k: nat, successCount: nat,
                            up: bool, m0: map<MetricKey, real>, inst: int, tf: Cell)
    reads db
  {
    k <= |DmaCombinations| && (df.Some? ==> WellFormed(df.value)) &&
    db.Valid() && db.CanEnsureTimeframe(code) == up &&
    Progress(df, k, successCount, up, FindInstrument(db.instruments, symbol), db.LookupTimeframe(code), db.metrics, m0, inst, tf)
  }

  /** One pass of the loop of `calculate_all_dma_from_dataframe`: run combination `k` and count it when it succeeds. */
  method RunCombination(db: Database, df: Option<Frame>, symbol: string, code: string, k: nat, successCount: nat,
                        ghost up: bool, ghost m0: map<MetricKey, real>, ghost inst: int, ghost tf: Cell)
    returns (successCount': nat, ghost inst': int, ghost tf': Cell)
    requires k < |DmaCombinations| && LoopState(db, df, symbol, code, k, successCount, up, m0, inst, tf)
    modifies db`instruments, db`nextInstrumentId, db`timeframes, db`nextTimeframeId, db`metrics
    ensures LoopState(db, df, symbol, code, k + 1, successCount', up, m0, inst', tf')
  {
    var (period, displacement) := DmaCombinations[k];
    ghost var found, tfFound, before := FindInstrument(db.instruments, symbol), db.LookupTimeframe(code), db.metrics;
    var done := CalculateDmaFromDataframe(db, df, symbol, code, period, displacement);
    ghost var found', tfFound', after := FindInstrument(db.instruments, symbol), db.LookupTimeframe(code), db.metrics;
    ProgressStep(df, k, successCount, up, found, tfFound, before, m0, inst, tf, done, found', tfFound', after);
    successCount', inst', tf' := successCount, inst, tf;
    if done {
      if successCount == k {
        inst', tf' := found'.value, tfFound'.value;
      }
      successCount' := successCount + 1;
    }
  }

  /**
   * What `calculate_all_dma_from_dataframe` achieves on a frame that is not
   * empty: success exactly when the 25-candle checks pass and the database
   * can take the rows, and then the table holds every write of the three runs.
   */
  ghost predicate AllDmaOutcome(db: Database, df: Option<Frame>, symbol: string, code: string, ok: bool,
                                m0: map<MetricKey, real>, up: bool)
    reads db
    requires df.Some? ==> WellFormed(df.value)
  {
    db.Valid() &&
    (ok <==> up && DmaInputOk(df, 25)) &&
    (ok ==>
      df.Some? && Len(df.value) >= 2 && CloseColumn(df.value) in df.value.cols &&
      FindInstrument(db.instruments, symbol).Some? && db.LookupTimeframe(code).Some? &&
      db.metrics == UpsertAll(m0, AllDmaWrites(df.value, |DmaCombinations|, FindInstrument(db.instruments, symbol).value,
        db.LookupTimeframe(code).value)))
  }

  /** After the three combinations the loop state gives the outcome. */
  lemma LoopDone(db: Database, df: Option<Frame>, symbol: string, code: string, successCount: nat,
                 up: bool, m0: map<MetricKey, real>, inst: int, tf: Cell)
    requires LoopState(db, df, symbol, code, |DmaCombinations|, successCount, up, m0, inst, tf)
    ensures AllDmaOutcome(db, df, symbol, code, successCount == |DmaCombinations|, m0, up)
  {
    AllCombinationsOk(df);
  }

  /**
   * `calculate_all_dma_from_dataframe`: runs the three standard
   * combinations and succeeds when all three do, which is when the frame
   * supports the 25-candle average and the instrument and timeframe can be
   * got or created; the table then holds every write of the three runs.
   */
  method CalculateAllDmaFromDataframe(db: Database, df: Option<Frame>, symbol: string, code: string) returns (ok: bool)
    requires db.Valid()
    requires df.Some? ==> WellFormed(df.value)
    modifies db`instruments, db`nextInstrumentId, db`timeframes, db`nextTimeframeId, db`metrics
    ensures db.Valid()
    ensures ok <==> DmaInputOk(df, 25) && old(db.online) && old(db.CanEnsureTimeframe(code))
    ensures ok ==> Len(df.value) >= 2 && CloseColumn(df.value) in df.value.cols
    ensures ok ==> FindInstrument(db.instruments, symbol).Some? && db.LookupTimeframe(code).Some?
    ensures ok ==> db.metrics == UpsertAll(old(db.metrics),
      AllDmaWrites(df.value, |DmaCombinations|, FindInstrument(db.instruments, symbol).value, db.LookupTimeframe(code).value))
  {
    if df.None? || IsEmpty(df.value) {
      return false;
    }
    ok := RunCombinations(db, df, symbol, code, db.metrics, db.CanEnsureTimeframe(code));
  }

  /** The loop over the three standard combinations, for a frame that is not empty. */
  method RunCombinations(db: Database, df: Option<Frame>, symbol: string, code: string,
                         ghost m0: map<MetricKey, real>, ghost up: bool) returns (ok: bool)
    requires db.Valid() && df.Some? && WellFormed(df.value)
    requires m0 == db.metrics && up == db.CanEnsureTimeframe(code)
    modifies db`instruments, db`nextInstrumentId, db`timeframes, db`nextTimeframeId, db`metrics
    ensures AllDmaOutcome(db, df, symbol, code, ok, m0, up)
  {
    ghost var inst: int := 0;
    ghost var tf: Cell := NullCell;
    var successCount := 0;
    for k := 0 to |DmaCombinations|
      invariant LoopState(db, df, symbol, code, k, successCount, up, m0, inst, tf)
    {
      successCount, inst, tf := RunCombination(db, df, symbol, code, k, successCount, up, m0, inst, tf);
    }
    LoopDone(db, df, symbol, code, successCount, up, m0, inst, tf);
    ok := successCount == |DmaCombinations|;
  }

  /** The stored values of one average: the keys of this instrument, timeframe, label, period and displacement. */
  function MatchingKeys(metrics: map<MetricKey, real>, inst: int, tf: Cell, period: nat, displacement: nat): set<MetricKey> {
    set k | k in metrics && k.instrumentId == inst && k.timeframeId == tf &&
      k.metricType == MetricType(period, displacement) && k.window == period && k.displacement == displacement
  }

  /** The (time, value) pairs stored under the keys of one average. */
  function StoredSeries(metrics: map<MetricKey, real>, inst: int, tf: Cell, period: nat, displacement: nat): set<(Time, real)> {
    set k | k in MatchingKeys(metrics, inst, tf, period, displacement) :: (k.time, metrics[k])
  }

  /**
   * Keys of one average agree on everything but the time, so their stored
   * pairs have distinct times; there are pairs exactly when there are keys.
   */
  lemma StoredSeriesDistinct(metrics: map<MetricKey, real>, inst: int, tf: Cell, period: nat, displacement: nat)
    ensures DistinctTimes(StoredSeries(metrics, inst, tf, period, displacement))
    ensures StoredSeries(metrics, inst, tf, period, displacement) == {} <==>
      MatchingKeys(metrics, inst, tf, period, displacement) == {}
  {
    var keys := MatchingKeys(metrics, inst, tf, period, displacement);
    var series := StoredSeries(metrics, inst, tf, period, displacement);
    forall e, e' | e in series && e' in series && e.0 == e'.0
      ensures e == e'
    {
      var k :| k in keys && e == (k.time, metrics[k]);
      var k' :| k' in keys && e' == (k'.time, metrics[k']);
      assert k == k';
    }
    if keys != {} {
      var k :| k in keys;
      assert (k.time, metrics[k]) in series;
    }
  }

  /**
   * `get_dma_from_db`: the (time, value) pairs stored for the instrument,
   * timeframe, period and displacement, in ascending time; `None` when the
   * instrument or timeframe cannot be got or created, or nothing is stored.
   */
  method GetDmaFromDb(db: Database, symbol: string, code: string, period: nat, displacement: nat)
    returns (r: Option<seq<(Time, real)>>)
    requires db.Valid()
    modifies db`instruments, db`nextInstrumentId, db`timeframes, db`nextTimeframeId
    ensures db.Valid()
    ensures old(db.online) && old(db.CanEnsureTimeframe(code)) ==>
      FindInstrument(db.instruments, symbol).Some? && db.LookupTimeframe(code).Some?
    ensures r.Some? <==> (old(db.online) && old(db.CanEnsureTimeframe(code)) &&
      StoredSeries(db.metrics, FindInstrument(db.instruments, symbol).value,
        db.LookupTimeframe(code).value, period, displacement) != {})
    ensures r.Some? ==> Listing(r.value, StoredSeries(db.metrics, FindInstrument(db.instruments, symbol).value,
        db.LookupTimeframe(code).value, period, displacement))
  {
    var ids := EnsureKeys(db, symbol, code);
    if ids.None? {
      return None;
    }
    var (inst, tf) := ids.value;
    StoredSeriesDistinct(db.metrics, inst, tf, period, displacement);
    if MatchingKeys(db.metrics, inst, tf, period, displacement) == {} {
      return None;
    }
    var rows := OrderByTime(StoredSeries(db.metrics, inst, tf, period, displacement));
    r := Some(rows);
  }
}
