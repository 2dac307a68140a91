/**
 * The chart pipeline (gui/chart_data_processor.py, `ChartDataProcessor`):
 * price rows become a frame that is limited, renamed and validated; a
 * chart request additionally recomputes the displaced moving averages on
 * the whole validated history before limiting what is drawn.
 */
module ChartDataProcessor {
  import opened Wrappers
  import opened Models
  import opened Frames
  import opened Sorting
  import opened DbSchema
  import ChartDataConverter
  import ChartDataValidator
  import ChartDataLoader
  import DataImport
  import GuiDataFetcher
  import DinapoliDma

  /** A frame ready to draw: the five labels, at least one row, no NaN, every price above zero. */
  predicate Drawable(f: Frame) {
    WellFormed(f) && HasOhlcv(f) && !IsEmpty(f) && !ChartDataValidator.HasNaN(f) && ChartDataValidator.AllPricesPositive(f)
  }

  /** The frame the converter builds from price rows: the convertible rows sorted by time, `None` when there are none. */
  function Converted(priceData: seq<ChartDataConverter.PriceRow>): (r: Option<Frame>)
    ensures r.Some? ==> WellFormed(r.value) && r.value.cols.Keys == {"open", "close", "high", "low", "volume"}
  {
    var rows := ChartDataConverter.ConvertedRows(priceData);
    if rows == [] then None
    else Some(ChartDataConverter.FrameOf(SortBy(rows, ChartDataConverter.CandleTime)))
  }

  /** A frame with the lower-case OHLCV columns gets all five labels from the rename. */
  lemma RenameGivesOhlcv(f: Frame)
    requires f.cols.Keys == {"open", "close", "high", "low", "volume"}
    ensures HasOhlcv(RenameOhlcv(f))
  {
    ChartDataValidator.RenamedColumnsPresent(f);
  }

  /**
   * `prepare_columns` on a fresh frame handle: the renamed frame when the
   * five labels are there, `None` otherwise.
   */
  method PrepareColumnsOf(f: Frame) returns (r: Option<Frame>)
    ensures r.Some? <==> HasOhlcv(RenameOhlcv(f))
    ensures r.Some? ==> r.value == RenameOhlcv(f)
  {
    var handle := new FrameRef(f);
    var prepared := ChartDataValidator.PrepareColumns(handle);
    if prepared == null {
      return None;
    }
    return Some(prepared.frame);
  }

  /**
   * `process_price_data`: convert, limit to the timeframe's candle count,
   * rename, then validate. Because the limit comes first, the frame drawn
   * holds at most the limit and is validated only over the kept rows.
   */
  method ProcessPriceData(priceData: seq<ChartDataConverter.PriceRow>, code: string) returns (r: Option<Frame>)
    ensures r.Some? ==> Drawable(r.value) && Len(r.value) <= ChartDataValidator.MaxCandles(code)
    ensures Converted(priceData).None? ==> r.None?
    ensures Converted(priceData).Some? ==>
      var limited := ChartDataValidator.LimitCandles(Converted(priceData).value, code);
      ChartDataValidator.ValidateData(Some(RenameOhlcv(limited))) == Ok(r)
  {
    if priceData == [] {
      return None;
    }
    var df := ChartDataConverter.ProcessPriceData(priceData);
    if df.None? {
      return None;
    }
    var limited := ChartDataValidator.LimitCandles(df.value, code);
    RenameGivesOhlcv(limited);
    var prepared := PrepareColumnsOf(limited);
    if prepared.None? {
      return None;
    }
    var validated := ChartDataValidator.ValidateData(prepared);
    r := validated.value;
  }

  /** The last rows of a frame without NaN hold no NaN. */
  lemma LimitKeepsClean(f: Frame, code: string)
    requires WellFormed(f) && !ChartDataValidator.HasNaN(f)
    ensures !ChartDataValidator.HasNaN(ChartDataValidator.LimitCandles(f, code))
  {
    var g := ChartDataValidator.LimitCandles(f, code);
    var off := Len(f) - Len(g);
    forall i | 0 <= i < Len(g)
      ensures ChartDataValidator.RowClean(g, i)
    {
      assert ChartDataValidator.RowClean(f, off + i);
    }
  }

  /** The last rows of a frame with positive prices have positive prices. */
  lemma LimitKeepsPositive(f: Frame, code: string)
    requires WellFormed(f) && HasPrices(f) && ChartDataValidator.AllPricesPositive(f)
    ensures HasPrices(ChartDataValidator.LimitCandles(f, code))
    ensures ChartDataValidator.AllPricesPositive(ChartDataValidator.LimitCandles(f, code))
  {
    var g := ChartDataValidator.LimitCandles(f, code);
    var off := Len(f) - Len(g);
    forall i | 0 <= i < Len(g)
      ensures g.cols["Open"][i] == f.cols["Open"][off + i] && g.cols["High"][i] == f.cols["High"][off + i] &&
        g.cols["Low"][i] == f.cols["Low"][off + i] && g.cols["Close"][i] == f.cols["Close"][off + i]
    {
    }
  }

  /** The last rows of a drawable frame are drawable. */
  lemma LimitKeepsDrawable(f: Frame, code: string)
    requires Drawable(f)
    ensures Drawable(ChartDataValidator.LimitCandles(f, code))
  {
    LimitKeepsClean(f, code);
    LimitKeepsPositive(f, code);
  }

  /** A loaded candle as the row `(candle_time, open, close, high, low, volume)` the converter reads. */
  function AsPriceRows(data: seq<(Time, Ohlcv)>): (r: seq<ChartDataConverter.PriceRow>)
    ensures |r| == |data|
  {
    seq(|data|, i requires 0 <= i < |data| =>
      ChartDataConverter.PriceRow(ChartDataConverter.DateLike(data[i].0), data[i].1.open, data[i].1.close,
        data[i].1.high, data[i].1.low, data[i].1.volume))
  }

  /** Loaded candles all carry their time, so none is dropped on conversion. */
  lemma {:induction false} AsPriceRowsConvert(data: seq<(Time, Ohlcv)>)
    ensures |ChartDataConverter.ConvertedRows(AsPriceRows(data))| == |data|
  {
    if data != [] {
      assert AsPriceRows(data)[..|data| - 1] == AsPriceRows(data[..|data| - 1]);
      AsPriceRowsConvert(data[..|data| - 1]);
    }
  }

  /**
   * Price rows converted, renamed and validated as a whole: `None` when no
   * timestamp converts or validation finds nothing left.
   */
  function ValidatedFrame(priceData: seq<ChartDataConverter.PriceRow>): (r: Option<Frame>)
    ensures r.Some? ==> Drawable(r.value)
    ensures r.Some? ==>
      Converted(priceData).Some? && r.value == ChartDataValidator.DropNaN(RenameOhlcv(Converted(priceData).value))
  {
    var converted := Converted(priceData);
    if converted.None? then None
    else
      RenameGivesOhlcv(converted.value);
      var validated := ChartDataValidator.ValidateData(Some(RenameOhlcv(converted.value)));
      if validated.Ok? then validated.value else None
  }

  /**
   * The whole drawable history of a symbol and timeframe code: the stored
   * candles by ascending time, converted, renamed and validated; `None`
   * when the store is unreachable, the instrument or timeframe is missing,
   * the pair has no candles, or validation finds nothing left.
   */
  ghost function FullFrame(online: bool, instruments: seq<InstrumentRow>, columns: seq<string>, timeframes: seq<Row>,
                           candles: map<CandleKey, Ohlcv>, symbol: string, code: string): (r: Option<Frame>)
    ensures r.Some? ==> Drawable(r.value)
  {
    var tf := GuiDataFetcher.TimeframeIdOf(online, columns, timeframes, code);
    if !online || FindInstrument(instruments, symbol).None? || tf.None? then None
    else
      var series := DataImport.CandleSeries(candles, FindInstrument(instruments, symbol).value, tf.value);
      if series == {} then None else ValidatedFrame(AsPriceRows(OrderedEntries(series)))
  }

  /** The history the stored candles give, once they are listed by ascending time. */
  lemma FullFrameOfListing(online: bool, instruments: seq<InstrumentRow>, columns: seq<string>, timeframes: seq<Row>,
                           candles: map<CandleKey, Ohlcv>, symbol: string, code: string, data: seq<(Time, Ohlcv)>)
    requires online && FindInstrument(instruments, symbol).Some?
    requires GuiDataFetcher.TimeframeIdOf(online, columns, timeframes, code).Some?
    requires var series := DataImport.CandleSeries(candles, FindInstrument(instruments, symbol).value,
      GuiDataFetcher.TimeframeIdOf(online, columns, timeframes, code).value);
      series != {} && Listing(data, series)
    ensures FullFrame(online, instruments, columns, timeframes, candles, symbol, code) == ValidatedFrame(AsPriceRows(data))
  {
    var inst := FindInstrument(instruments, symbol).value;
    var tf := GuiDataFetcher.TimeframeIdOf(online, columns, timeframes, code).value;
    DataImport.CandleSeriesDistinct(candles, inst, tf);
    ListingIsOrdered(data, DataImport.CandleSeries(candles, inst, tf));
  }

  /** Price rows converted, renamed and validated: the second half of the history's preparation. */
  method ValidateRows(priceData: seq<ChartDataConverter.PriceRow>) returns (r: Option<Frame>)
    ensures r == ValidatedFrame(priceData)
  {
    var converted := ChartDataConverter.ProcessPriceData(priceData);
    if converted.None? {
      return None;
    }
    RenameGivesOhlcv(converted.value);
    var prepared := PrepareColumnsOf(converted.value);
    if prepared.None? {
      return None;
    }
    var validated := ChartDataValidator.ValidateData(prepared);
    r := validated.value;
  }

  /**
   * The first half of `prepare_chart_data`: the candles of the symbol and
   * timeframe converted, renamed and validated as a whole.
   */
  method LoadFullFrame(db: Database, symbol: string, code: string) returns (full: Option<Frame>)
    ensures full == FullFrame(db.online, db.instruments, db.timeframeColumns, db.timeframes, db.candles, symbol, code)
    ensures full.Some? ==> Drawable(full.value)
  {
    var pair := ChartDataLoader.GetInstrumentAndTimeframe(db, symbol, code);
    if pair.None? {
      return None;
    }
    var (instrument, timeframe) := pair.value;
    var priceData := ChartDataLoader.LoadPriceData(db, instrument.id, GetAttr(timeframe, "id"));
    if priceData.None? {
      return None;
    }
    FullFrameOfListing(db.online, db.instruments, db.timeframeColumns, db.timeframes, db.candles, symbol, code,
      priceData.value);
    full := ValidateRows(AsPriceRows(priceData.value));
  }

  /**
   * What a chart request leaves behind when the history was drawable: when
   * the averages could be computed the metric store holds them, upserted
   * over the previous store.
   */
  ghost predicate DmaStored(full: Frame, ensurable: bool, m0: map<MetricKey, real>, m: map<MetricKey, real>,
                            inst: Option<int>, tf: Option<Cell>)
  {
    WellFormed(full) &&
    (DinapoliDma.DmaInputOk(Some(full), 25) && ensurable ==>
      inst.Some? && tf.Some? && m == DinapoliDma.UpsertAll(m0, DinapoliDma.AllDmaWrites(full, |DinapoliDma.DmaCombinations|, inst.value, tf.value)))
  }

  /**
   * `prepare_chart_data`: the averages are recomputed on the whole
   * validated history (a failure there is swallowed), and only then is the
   * history limited for drawing. The answer is the limited history
   * whatever the averaging step does; without a history nothing is
   * written.
   */
  method PrepareChartData(db: Database, symbol: string, code: string) returns (r: Option<Frame>)
    requires db.Valid()
    modifies db`instruments, db`nextInstrumentId, db`timeframes, db`nextTimeframeId, db`metrics
    ensures db.Valid()
    ensures var full := FullFrame(old(db.online), old(db.instruments), old(db.timeframeColumns), old(db.timeframes), old(db.candles),
        symbol, code);
      r == if full.Some? then Some(ChartDataValidator.LimitCandles(full.value, code)) else None
    ensures r.None? ==>
      db.instruments == old(db.instruments) && db.timeframes == old(db.timeframes) && db.metrics == old(db.metrics) &&
      db.nextInstrumentId == old(db.nextInstrumentId) && db.nextTimeframeId == old(db.nextTimeframeId)
    ensures var full := FullFrame(old(db.online), old(db.instruments), old(db.timeframeColumns), old(db.timeframes), old(db.candles),
        symbol, code);
      full.Some? ==> DmaStored(full.value, old(db.CanEnsureTimeframe(code)), old(db.metrics), db.metrics,
        FindInstrument(db.instruments, symbol), db.LookupTimeframe(code))
    ensures r.Some? ==> Drawable(r.value) && Len(r.value) <= ChartDataValidator.MaxCandles(code)
  {
    var full := LoadFullFrame(db, symbol, code);
    if full.None? {
      return None;
    }
    var shown := DrawAfterDma(db, full.value, symbol, code);
    r := Some(shown);
  }

  /**
   * The second half of `prepare_chart_data`: recompute the averages on the
   * whole history, swallowing a failure, then limit the history for drawing.
   */
  method DrawAfterDma(db: Database, full: Frame, symbol: string, code: string) returns (shown: Frame)
    requires db.Valid() && Drawable(full)
    modifies db`instruments, db`nextInstrumentId, db`timeframes, db`nextTimeframeId, db`metrics
    ensures db.Valid()
    ensures shown == ChartDataValidator.LimitCandles(full, code)
    ensures Drawable(shown) && Len(shown) <= ChartDataValidator.MaxCandles(code)
    ensures DmaStored(full, old(db.CanEnsureTimeframe(code)), old(db.metrics), db.metrics,
      FindInstrument(db.instruments, symbol), db.LookupTimeframe(code))
  {
    var ok := DinapoliDma.CalculateAllDmaFromDataframe(db, Some(full), symbol, code);
    shown := ChartDataValidator.LimitCandles(full, code);
    LimitKeepsDrawable(full, code);
  }

  /**
   * `_has_dma_in_db`: whether the 3x3 displaced average has at least one
   * stored value for the pair; a pair whose ids cannot be obtained has none.
   */
  method HasDmaInDb(db: Database, symbol: string, code: string) returns (b: bool)
    requires db.Valid()
    modifies db`instruments, db`nextInstrumentId, db`timeframes, db`nextTimeframeId
    ensures db.Valid()
    ensures b <==> (old(db.online) && old(db.CanEnsureTimeframe(code)) &&
      FindInstrument(db.instruments, symbol).Some? && db.LookupTimeframe(code).Some? &&
      DinapoliDma.StoredSeries(db.metrics, FindInstrument(db.instruments, symbol).value,
        db.LookupTimeframe(code).value, 3, 3) != {})
  {
    var series := DinapoliDma.GetDmaFromDb(db, symbol, code, 3, 3);
    b := series.Some? && series.value != [];
  }
}
