/**
 * The batch DMA run (crypto_trading_bot/analytics/calculate_all_dma.py):
 * pick the attribute that names a timeframe, then visit every instrument and
 * timeframe once, counting each pair as processed and the failed ones as
 * errors. What converting a pair's candles and running the three DMA
 * combinations on them gives is a parameter; both are modelled in their own
 * modules.
 */
module CalculateAllDma {
  import opened Wrappers
  import opened Models
  import opened DbSchema
  import DataImport
  import GuiDataFetcher

  /** The attributes that may name a timeframe, in the order they are tried. */
  const NameAttributes: seq<string> := ["interval_name", "name", "code"]

  /** The naming attribute a timeframe offers, by precedence. */
  function OwnNameAttr(tf: Obj): Option<string> {
    if HasAttr(tf, "interval_name") then Some("interval_name")
    else if HasAttr(tf, "name") then Some("name")
    else if HasAttr(tf, "code") then Some("code")
    else None
  }

  /** The attribute of the first of the first `n` timeframes that offers one. */
  function NameAttrIn(timeframes: seq<Obj>, n: nat): (r: Option<string>)
    requires n <= |timeframes|
    ensures r.Some? <==> exists j :: 0 <= j < n && OwnNameAttr(timeframes[j]).Some?
    ensures r.Some? ==> r.value in NameAttributes
  {
    if n == 0 then None
    else
      var before := NameAttrIn(timeframes, n - 1);
      if before.Some? then before else OwnNameAttr(timeframes[n - 1])
  }

  /** The attribute comes from the first timeframe offering any, and is the first of the three it has. */
  lemma {:induction false} NameAttrFirst(timeframes: seq<Obj>, n: nat, j: nat)
    requires j < n <= |timeframes|
    requires OwnNameAttr(timeframes[j]).Some?
    requires forall k :: 0 <= k < j ==> OwnNameAttr(timeframes[k]).None?
    ensures NameAttrIn(timeframes, n) == OwnNameAttr(timeframes[j])
  {
    if n - 1 > j {
      NameAttrFirst(timeframes, n - 1, j);
    } else {
      assert NameAttrIn(timeframes, j).None?;
    }
  }

  /** The loop over the timeframes that stops at the first one offering a naming attribute. */
  method ResolveNameAttr(timeframes: seq<Obj>) returns (attr: Option<string>)
    ensures attr == NameAttrIn(timeframes, |timeframes|)
  {
    attr := None;
    var j := 0;
    while j < |timeframes|
      invariant j <= |timeframes|
      invariant attr == NameAttrIn(timeframes, j)
      invariant attr.None?
    {
      var tf := timeframes[j];
      if HasAttr(tf, "interval_name") {
        attr := Some("interval_name");
      } else if HasAttr(tf, "name") {
        attr := Some("name");
      } else if HasAttr(tf, "code") {
        attr := Some("code");
      }
      if attr.Some? {
        NameAttrKept(timeframes, j + 1, |timeframes|);
        return;
      }
      j := j + 1;
    }
  }

  /** Once found, the attribute stays the same however many more timeframes are looked at. */
  lemma {:induction false} NameAttrKept(timeframes: seq<Obj>, k: nat, n: nat)
    requires k <= n <= |timeframes|
    requires NameAttrIn(timeframes, k).Some?
    ensures NameAttrIn(timeframes, n) == NameAttrIn(timeframes, k)
    decreases n - k
  {
    if k < n {
      NameAttrKept(timeframes, k, n - 1);
    }
  }

  /**
   * What converting a pair's candles and running the DMA combinations
   * gives: no frame, all combinations stored, some failed, or a raise.
   */
  datatype Run = Unconverted | DmaDone | DmaFailed | RunRaised

  /** The fate of one (instrument, timeframe) pair. */
  datatype Outcome = NoData | Ran(run: Run) | IdRaised

  /** The pairs the run counts as errors: a failed DMA run or an exception. */
  predicate IsError(o: Outcome) {
    o == IdRaised || o == Ran(DmaFailed) || o == Ran(RunRaised)
  }

  /**
   * One pair: reading `timeframe.id` raises when it is missing; no stored
   * candles skip the pair; otherwise `run` decides.
   */
  function PairOutcome(online: bool, candles: map<CandleKey, Ohlcv>, inst: Instrument, tf: Obj,
                       run: (Instrument, Cell, Cell) -> Run, code: Cell): (o: Outcome)
    ensures IsError(o) ==> (!HasAttr(tf, "id") ||
                            (online && DataImport.CandleSeries(candles, inst.id, GetAttr(tf, "id")) != {}))
  {
    if !HasAttr(tf, "id") then IdRaised
    else if !online || DataImport.CandleSeries(candles, inst.id, GetAttr(tf, "id")) == {} then NoData
    else Ran(run(inst, GetAttr(tf, "id"), code))
  }

  /** `getattr(timeframe, attr)`, outside the `try`: a timeframe without it stops the whole run. */
  predicate AllNamed(timeframes: seq<Obj>, attr: string) {
    forall j :: 0 <= j < |timeframes| ==> HasAttr(timeframes[j], attr)
  }

  /** The errors among the first `n` timeframes paired with one instrument. */
  function RowErrors(online: bool, candles: map<CandleKey, Ohlcv>, inst: Instrument, timeframes: seq<Obj>,
                     attr: string, run: (Instrument, Cell, Cell) -> Run, n: nat): (e: nat)
    requires n <= |timeframes|
    ensures e <= n
  {
    if n == 0 then 0
    else
      var tf := timeframes[n - 1];
      RowErrors(online, candles, inst, timeframes, attr, run, n - 1) +
      (if IsError(PairOutcome(online, candles, inst, tf, run, GetAttr(tf, attr))) then 1 else 0)
  }

  /** The errors over the first `m` instruments, each paired with every timeframe. */
  function Errors(online: bool, candles: map<CandleKey, Ohlcv>, instruments: seq<Instrument>, timeframes: seq<Obj>,
                  attr: string, run: (Instrument, Cell, Cell) -> Run, m: nat): nat
    requires m <= |instruments|
  {
    if m == 0 then 0
    else
      Errors(online, candles, instruments, timeframes, attr, run, m - 1) +
      RowErrors(online, candles, instruments[m - 1], timeframes, attr, run, |timeframes|)
  }

  /** Never more errors than pairs. */
  lemma {:induction false} ErrorsBounded(online: bool, candles: map<CandleKey, Ohlcv>, instruments: seq<Instrument>,
                                        timeframes: seq<Obj>, attr: string, run: (Instrument, Cell, Cell) -> Run, m: nat)
    requires m <= |instruments|
    ensures Errors(online, candles, instruments, timeframes, attr, run, m) <= m * |timeframes|
  {
    if m > 0 {
      ErrorsBounded(online, candles, instruments, timeframes, attr, run, m - 1);
      assert m * |timeframes| == (m - 1) * |timeframes| + |timeframes|;
    }
  }

  /** No stored candles for one instrument: none of its pairs with an id is an error. */
  lemma {:induction false} RowWithoutData(online: bool, candles: map<CandleKey, Ohlcv>, inst: Instrument, timeframes: seq<Obj>,
                                         attr: string, run: (Instrument, Cell, Cell) -> Run, n: nat)
    requires n <= |timeframes|
    requires forall j :: 0 <= j < |timeframes| ==> HasAttr(timeframes[j], "id")
    requires forall k :: k in candles ==> k.instrumentId != inst.id
    ensures RowErrors(online, candles, inst, timeframes, attr, run, n) == 0
  {
    if n > 0 {
      RowWithoutData(online, candles, inst, timeframes, attr, run, n - 1);
    }
  }

  /** Pairs without data are skipped, not counted as errors: with no candles stored for the instruments there are none. */
  lemma {:induction false} NoDataNoErrors(online: bool, candles: map<CandleKey, Ohlcv>, instruments: seq<Instrument>,
                                         timeframes: seq<Obj>, attr: string, run: (Instrument, Cell, Cell) -> Run, m: nat)
    requires m <= |instruments|
    requires forall j :: 0 <= j < |timeframes| ==> HasAttr(timeframes[j], "id")
    requires forall i, k :: 0 <= i < |instruments| && k in candles ==> k.instrumentId != instruments[i].id
    ensures Errors(online, candles, instruments, timeframes, attr, run, m) == 0
  {
    if m > 0 {
      NoDataNoErrors(online, candles, instruments, timeframes, attr, run, m - 1);
      RowWithoutData(online, candles, instruments[m - 1], timeframes, attr, run, |timeframes|);
    }
  }

  /** One pair's body of the loop: the price data, then the run when there is some. */
  method ProcessPair(db: Database, inst: Instrument, tf: Obj, run: (Instrument, Cell, Cell) -> Run, code: Cell)
    returns (o: Outcome)
    ensures o == PairOutcome(db.online, db.candles, inst, tf, run, code)
  {
    if !HasAttr(tf, "id") {
      return IdRaised;
    }
    var tfId := GetAttr(tf, "id");
    var priceData := DataImport.GetPriceData(db, inst.id, tfId);
    if priceData == [] {
      assert db.online ==> |DataImport.CandleSeries(db.candles, inst.id, tfId)| == 0;
      return NoData;
    }
    if !db.online {
      assert false;
    }
    assert |DataImport.CandleSeries(db.candles, inst.id, tfId)| == |priceData|;
    o := Ran(run(inst, tfId, code));
  }

  /** The inner loop for one instrument; `None` when a timeframe lacks the naming attribute. */
  method ProcessRow(db: Database, inst: Instrument, timeframes: seq<Obj>, attr: string, run: (Instrument, Cell, Cell) -> Run)
    returns (r: Option<(nat, nat)>)
    ensures r.None? <==> !AllNamed(timeframes, attr)
    ensures r.Some? ==> r.value == (|timeframes|, RowErrors(db.online, db.candles, inst, timeframes, attr, run, |timeframes|))
  {
    var processed, errors := 0, 0;
    for j := 0 to |timeframes|
      invariant processed == j
      invariant errors == RowErrors(db.online, db.candles, inst, timeframes, attr, run, j)
      invariant forall k :: 0 <= k < j ==> HasAttr(timeframes[k], attr)
    {
      var tf := timeframes[j];
      if !HasAttr(tf, attr) {
        return None;
      }
      var code := GetAttr(tf, attr);
      var o := ProcessPair(db, inst, tf, run, code);
      if IsError(o) {
        errors := errors + 1;
      }
      processed := processed + 1;
    }
    r := Some((processed, errors));
  }

  /** How a run ends: one of the early returns, the uncaught `AttributeError`, or the final counts. */
  datatype Report =
    | NoInstruments
    | NoTimeframes
    | NoNameAttribute
    | Crashed
    | Done(total: nat, processed: nat, errors: nat)

  /** The loops over every instrument and timeframe. */
  method ProcessAll(db: Database, instruments: seq<Instrument>, timeframes: seq<Obj>, attr: string,
                    run: (Instrument, Cell, Cell) -> Run)
    returns (r: Report)
    requires instruments != []
    ensures r.Crashed? <==> !AllNamed(timeframes, attr)
    ensures !r.Crashed? ==> r == Done(|instruments| * |timeframes|, |instruments| * |timeframes|,
      Errors(db.online, db.candles, instruments, timeframes, attr, run, |instruments|))
  {
    var totalCombinations := |instruments| * |timeframes|;
    var processed, errors := 0, 0;
    for i := 0 to |instruments|
      invariant processed == i * |timeframes|
      invariant errors == Errors(db.online, db.candles, instruments, timeframes, attr, run, i)
      invariant i > 0 ==> AllNamed(timeframes, attr)
    {
      var row := ProcessRow(db, instruments[i], timeframes, attr, run);
      if row.None? {
        return Crashed;
      }
      assert (i + 1) * |timeframes| == i * |timeframes| + |timeframes|;
      processed := processed + row.value.0;
      errors := errors + row.value.1;
    }
    r := Done(totalCombinations, processed, errors);
  }

  /** `calculate_all_dma` over the instruments and timeframes the fetcher lists. */
  method CalculateAllDma(db: Database, run: (Instrument, Cell, Cell) -> Run) returns (r: Report)
    ensures var instruments := GuiDataFetcher.GetInstruments(db);
      var n := |DataImport.TimeframesListing(db.online, db.timeframeColumns, db.timeframes)|;
      if instruments == [] then r == NoInstruments
      else if n == 0 then r == NoTimeframes
      else r.Done? && r.processed == r.total == |instruments| * n && r.errors <= r.processed
  {
    var instruments := GuiDataFetcher.GetInstruments(db);
    if instruments == [] {
      return NoInstruments;
    }
    var timeframes := GuiDataFetcher.GetTimeframes(db);
    if timeframes == [] {
      return NoTimeframes;
    }
    var attr := ResolveNameAttr(timeframes);
    assert OwnNameAttr(timeframes[0]) == Some("interval_name");
    NameAttrFirst(timeframes, |timeframes|, 0);
    assert attr == Some("interval_name");
    assert AllNamed(timeframes, "interval_name");
    r := ProcessAll(db, instruments, timeframes, attr.value, run);
    ErrorsBounded(db.online, db.candles, instruments, timeframes, attr.value, run, |instruments|);
  }
}
