/**
 * Keeping the candle store up to date (crypto_trading_bot/trading/data_updater.py,
 * `DataUpdater`): for each instrument and timeframe code it works out the
 * window of missing candles after the last stored one, fetches it from a
 * data provider, keeps only rows newer than the last candle and hands them
 * to the insert-if-absent candle writer. A cached symbol listing and a
 * per-code "last update" map decide what is attempted.
 *
 * The clock reading `now`, the exchange's listings and the data provider
 * are parameters: `fetch` gives the frame the provider returns for a
 * request, or `None`.
 */
module DataUpdater {
  import opened Wrappers
  import opened Models
  import opened Frames
  import opened Sorting
  import opened DbSchema
  import DataImport
  import DataExport
  import GuiDataFetcher
  import ChartDataLoader
  import ChartDataValidator
  import BinanceSymbolChecker
  import CryptoDataProvider

  // ---------------------------------------------------------------- tables

  /** `TIMEFRAME_MAPPING`: database timeframe code to the provider's timeframe name. */
  const TimeframeMapping: map<string, string> := map[
    "1m" := "1min", "3m" := "3min", "5m" := "5min", "15m" := "15min", "30m" := "30min",
    "1h" := "1hour", "2h" := "1hour", "4h" := "4hour", "6h" := "4hour", "12h" := "4hour",
    "1d" := "1day", "1w" := "1week", "1mo" := "1day"]

  /** The provider timeframe for a code: the mapped name, `1hour` for an unmapped code. */
  function ProviderTimeframe(code: string): string {
    if code in TimeframeMapping then TimeframeMapping[code] else "1hour"
  }

  /** Every code the updater asks the provider for names a timeframe the provider's own table lists. */
  lemma ProviderTimeframesListed(code: string)
    ensures ProviderTimeframe(code) in CryptoDataProvider.TimeframeMapping
  {
  }

  /** The candle period table of `calculate_missing_candles`, in minutes. */
  const PeriodMinutes: map<string, int> := map[
    "1m" := 1, "3m" := 3, "5m" := 5, "15m" := 15, "30m" := 30,
    "1h" := 60, "2h" := 120, "4h" := 240, "6h" := 360, "12h" := 720,
    "1d" := 1440, "1w" := 10080, "1mo" := 43200]

  /** A code's candle period in seconds; an unknown code counts as 60 minutes. */
  function PeriodSeconds(code: string): (r: real)
    ensures r > 0.0
  {
    60.0 * (if code in PeriodMinutes then PeriodMinutes[code] else 60) as real
  }

  /** The refresh interval table of `get_timeframe_update_interval`, in seconds. */
  const UpdateIntervals: map<string, int> := map[
    "1m" := 60, "3m" := 60, "5m" := 60, "15m" := 900, "30m" := 900,
    "1h" := 3600, "2h" := 3600, "4h" := 14400, "6h" := 14400, "12h" := 14400,
    "1d" := 86400, "1w" := 86400, "1mo" := 86400]

  /** `get_timeframe_update_interval`: the table's interval, 60 seconds for an unknown code. */
  function UpdateInterval(code: string): (r: int)
    ensures r >= 60
  {
    if code in UpdateIntervals then UpdateIntervals[code] else 60
  }

  /**
   * Every mapped code is refreshed at least once per candle period, so no
   * candle of a mapped timeframe waits longer than one period for its pass.
   */
  lemma UpdateIntervalWithinPeriod(code: string)
    requires code in TimeframeMapping
    ensures UpdateInterval(code) as real <= PeriodSeconds(code)
  {
    assert code in {"1m", "3m", "5m", "15m", "30m", "1h", "2h", "4h", "6h", "12h", "1d", "1w", "1mo"};
  }

  /** The codes of the three tables are the same thirteen codes. */
  lemma TablesAgree()
    ensures TimeframeMapping.Keys == PeriodMinutes.Keys == UpdateIntervals.Keys
  {
    var codes := {"1m", "3m", "5m", "15m", "30m", "1h", "2h", "4h", "6h", "12h", "1d", "1w", "1mo"};
    assert TimeframeMapping.Keys == codes;
    assert PeriodMinutes.Keys == codes;
    assert UpdateIntervals.Keys == codes;
  }

  // ---------------------------------------------------------------- the window

  /**
   * `calculate_missing_candles`: after a stored candle the window starts
   * one period after it; with none it starts 100 periods back. It always
   * ends now.
   */
  function CalculateMissingCandles(last: Option<Time>, code: string, now: Time): (r: (Time, Time))
    ensures r.1 == now
    ensures last.Some? ==> r.0 - last.value == PeriodSeconds(code) && r.0 > last.value
    ensures last.None? ==> now - r.0 == 100.0 * PeriodSeconds(code) && r.0 < now
  {
    if last.Some? then (last.value + PeriodSeconds(code), now)
    else (now - 100.0 * PeriodSeconds(code), now)
  }

  /** The longest window fetched after a stored candle, in days. */
  function MaxDays(code: string): (r: int)
    ensures r in {7, 30, 90, 365}
  {
    if code in ["1m", "3m", "5m"] then 7
    else if code in ["15m", "30m"] then 30
    else if code in ["1h", "2h"] then 90
    else 365
  }

  /**
   * The clamp of `load_missing_candles`: a window longer than `max_days`
   * starts `max_days` before its end instead. The start only moves later
   * and the window never exceeds `max_days`.
   */
  function ClampStart(start: Time, end: Time, code: string): (r: Time)
    ensures r >= start
    ensures end - r <= MaxDays(code) as real * 86400.0
    ensures end - start <= MaxDays(code) as real * 86400.0 ==> r == start
    ensures r != start ==> end - r == MaxDays(code) as real * 86400.0
  {
    if (end - start) / 86400.0 > MaxDays(code) as real then end - MaxDays(code) as real * 86400.0 else start
  }

  /** Clamping a clamped window changes nothing. */
  lemma ClampIdempotent(start: Time, end: Time, code: string)
    ensures ClampStart(ClampStart(start, end, code), end, code) == ClampStart(start, end, code)
  {
  }

  /** What `load_missing_candles` asks the provider for. */
  datatype Request =
    | Historical(symbol: string, timeframe: string, start: Time, end: Time)  // `get_historical_data`
    | Recent(symbol: string, timeframe: string, limit: nat)                  // `get_recent_data`

  /**
   * The request for a symbol and code given the last stored candle time:
   * `None` when a candle is stored and the window is empty (nothing to
   * fetch); the last 100 candles on a cold start; otherwise the clamped
   * window up to now.
   */
  function Plan(symbol: string, code: string, last: Option<Time>, now: Time): (r: Option<Request>)
    ensures r.None? <==> last.Some? && last.value + PeriodSeconds(code) >= now
    ensures last.None? ==> r == Some(Recent(symbol, ProviderTimeframe(code), 100))
    ensures last.Some? && r.Some? ==>
      r.value.Historical? && r.value.symbol == symbol && r.value.timeframe == ProviderTimeframe(code) &&
      r.value.end == now && last.value + PeriodSeconds(code) <= r.value.start < now &&
      now - r.value.start <= MaxDays(code) as real * 86400.0
  {
    var (start, end) := CalculateMissingCandles(last, code, now);
    if last.Some? && start >= end then None
    else if last.Some? then Some(Historical(symbol, ProviderTimeframe(code), ClampStart(start, end, code), end))
    else Some(Recent(symbol, ProviderTimeframe(code), 100))
  }

  // ---------------------------------------------------------------- the fetched frame

  /** A frame the provider returns: pandas keeps every column as long as the index. */
  type ProviderFrame = CryptoDataProvider.ProviderFrame

  /** The positions among the first `n` whose time is after `last`, in order. */
  function PositionsAfter(index: seq<Time>, last: Time, n: nat): (r: seq<nat>)
    requires n <= |index|
    ensures |r| <= n
    ensures forall j :: 0 <= j < |r| ==> r[j] < n && index[r[j]] > last
    ensures forall i :: 0 <= i < n && index[i] > last ==> i in r
    ensures forall j, j' :: 0 <= j < j' < |r| ==> r[j] < r[j']
  {
    if n == 0 then []
    else PositionsAfter(index, last, n - 1) + (if index[n - 1] > last then [n - 1] else [])
  }

  /**
   * `df[df.index > last_candle_time]` when a candle is stored, the frame as
   * it is otherwise: exactly the rows after the last candle, in order.
   */
  function NewerRows(f: Frame, last: Option<Time>): (r: Frame)
    requires WellFormed(f)
    ensures WellFormed(r) && r.cols.Keys == f.cols.Keys && Len(r) <= Len(f)
    ensures last.None? ==> r == f
    ensures last.Some? ==> forall i :: 0 <= i < Len(r) ==> r.index[i] > last.value
    ensures last.Some? ==> forall i :: 0 <= i < Len(f) && f.index[i] > last.value ==> f.index[i] in r.index
  {
    if last.None? then f
    else
      var positions := PositionsAfter(f.index, last.value, Len(f));
      var r := SelectRows(f, positions);
      assert forall i :: 0 <= i < Len(f) && f.index[i] > last.value ==> f.index[i] in r.index by {
        forall i | 0 <= i < Len(f) && f.index[i] > last.value
          ensures f.index[i] in r.index
        {
          var j :| 0 <= j < |positions| && positions[j] == i;
          assert r.index[j] == f.index[i];
        }
      }
      r
  }

  /** `_convert_dataframe_for_db`: an empty frame as it is, otherwise the OHLCV columns capitalised. */
  function ConvertDataframeForDb(f: Frame): (r: Frame)
    ensures r.index == f.index
    ensures WellFormed(f) ==> WellFormed(r)
  {
    if IsEmpty(f) then f else RenameOhlcv(f)
  }

  /** The value of column `c` in row `i`, `None` when the frame has no such column. */
  function Column(f: Frame, c: string, i: nat): Option<Num>
    requires WellFormed(f) && i < Len(f)
  {
    if c in f.cols then Some(f.cols[c][i]) else None
  }

  /** The rows the candle writer reads from a frame: index as time, capitalised columns as prices. */
  function AsFrameRows(f: Frame): (rows: seq<DataExport.FrameRow>)
    requires WellFormed(f)
    ensures |rows| == Len(f)
    ensures forall i :: 0 <= i < |rows| ==> rows[i].time == Some(f.index[i])
  {
    seq(Len(f), i requires 0 <= i < Len(f) =>
      DataExport.FrameRow(Some(f.index[i]), Column(f, "Open", i), Column(f, "High", i), Column(f, "Low", i),
        Column(f, "Close", i), Column(f, "Volume", i)))
  }

  /**
   * A provider frame with lower-case OHLCV columns, once converted, gives
   * the writer a full candle for every row, so no row makes the insert raise.
   */
  lemma ConvertedRowsPriced(f: Frame)
    requires WellFormed(f) && !IsEmpty(f)
    requires "open" in f.cols && "high" in f.cols && "low" in f.cols && "close" in f.cols && "volume" in f.cols
    ensures var rows := AsFrameRows(ConvertDataframeForDb(f));
      forall i :: 0 <= i < |rows| ==> DataExport.FrameCandle(rows[i]).Some?
  {
    ChartDataValidator.RenamedColumnsPresent(f);
  }

  // ---------------------------------------------------------------- the store

  /** `after` holds every candle of `before`, unchanged. */
  predicate Keeps(before: map<CandleKey, Ohlcv>, after: map<CandleKey, Ohlcv>) {
    forall k :: k in before ==> k in after && after[k] == before[k]
  }

  /**
   * `last` is `MAX(candle_time)` of the series: `None` when it has no
   * candle, else the time of one of its candles and no earlier than any.
   */
  ghost predicate LastCandle(series: set<(Time, Ohlcv)>, last: Option<Time>) {
    (last.None? <==> series == {}) &&
    (last.Some? ==> (exists e :: e in series && e.0 == last.value) && (forall e :: e in series ==> e.0 <= last.value))
  }

  /** A series has one last candle time at most: `LastCandle` pins it down. */
  lemma LastCandleUnique(series: set<(Time, Ohlcv)>, a: Option<Time>, b: Option<Time>)
    requires LastCandle(series, a) && LastCandle(series, b)
    ensures a == b
  {
    if a.Some? {
      var ea :| ea in series && ea.0 == a.value;
      var eb :| eb in series && eb.0 == b.value;
      assert ea.0 <= b.value && eb.0 <= a.value;
    }
  }

  /** Every series has a last candle time: the latest of its candles' times, or `None` when it has none. */
  lemma {:induction false} LastCandleExists(series: set<(Time, Ohlcv)>)
    ensures exists last :: LastCandle(series, last)
    decreases |series|
  {
    if series == {} {
      assert LastCandle(series, None);
    } else {
      var e :| e in series;
      var rest := series - {e};
      LastCandleExists(rest);
      var last :| LastCandle(rest, last);
      if last.None? || last.value <= e.0 {
        assert forall x :: x in series ==> x == e || x in rest;
        assert LastCandle(series, Some(e.0));
      } else {
        var w :| w in rest && w.0 == last.value;
        assert w in series;
        assert LastCandle(series, last);
      }
    }
  }

  /** The time `get_last_candle_time` reads for a series: the last candle time `LastCandle` describes. */
  ghost function LastTime(series: set<(Time, Ohlcv)>): (r: Option<Time>)
    ensures LastCandle(series, r)
  {
    LastCandleExists(series);
    var last :| LastCandle(series, last);
    last
  }

  /** Every candle added to the store is later than every candle the series held. */
  ghost predicate AllNewer(before: map<CandleKey, Ohlcv>, after: map<CandleKey, Ohlcv>, series: set<(Time, Ohlcv)>) {
    forall k, e :: k in after && k !in before && e in series ==> e.0 < k.time
  }

  /** `get_last_candle_time`: the latest candle time of the series, `None` without candles or when the query raises. */
  method GetLastCandleTime(db: Database, inst: int, tf: Cell) returns (r: Option<Time>)
    ensures !db.online ==> r.None?
    ensures db.online ==> LastCandle(DataImport.CandleSeries(db.candles, inst, tf), r)
  {
    if !db.online {
      return None;
    }
    ghost var series := DataImport.CandleSeries(db.candles, inst, tf);
    DataImport.CandleSeriesDistinct(db.candles, inst, tf);
    var rows := OrderByTime(DataImport.CandleSeries(db.candles, inst, tf));
    if rows == [] {
      assert forall e :: e in series ==> e in rows;
      return None;
    }
    r := Some(rows[|rows| - 1].0);
    forall e | e in series
      ensures e.0 <= r.value
    {
      var i :| 0 <= i < |rows| && rows[i] == e;
      assert i == |rows| - 1 || rows[i].0 < rows[|rows| - 1].0;
    }
    assert rows[|rows| - 1] in series;
  }

  /**
   * What the fetching half of `load_missing_candles` returns and leaves in
   * the store, given the last stored candle time: true with no write when
   * there is nothing to fetch or nothing newer arrived; false with no
   * write when the provider gave nothing; otherwise the writer's outcome
   * for the rows after the last candle.
   */
  function FetchOutcome(online: bool, instruments: seq<InstrumentRow>, columns: seq<string>, timeframes: seq<Row>,
                        candles: map<CandleKey, Ohlcv>, symbol: string, code: string, last: Option<Time>, now: Time,
                        fetch: Request -> Option<ProviderFrame>): (r: (bool, map<CandleKey, Ohlcv>))
    ensures Keeps(candles, r.1)
  {
    match Plan(symbol, code, last, now)
    case None => (true, candles)
    case Some(request) =>
      match fetch(request)
      case None => (false, candles)
      case Some(f) =>
        if IsEmpty(f) then (false, candles)
        else
          var newer := NewerRows(f, last);
          if IsEmpty(newer) then (true, candles)
          else
            DataExport.PriceDataOutcome(online, instruments, columns, timeframes, candles, symbol, code,
              DataExport.FrameData(AsFrameRows(ConvertDataframeForDb(newer))))
  }

  /** The rows handed to the writer after filtering all lie after the last candle. */
  lemma RowsToWriteAfter(f: Frame, last: Time)
    requires WellFormed(f)
    ensures var rows := AsFrameRows(ConvertDataframeForDb(NewerRows(f, Some(last))));
      forall i :: 0 <= i < |rows| ==> rows[i].time.Some? && rows[i].time.value > last
  {
    var newer := NewerRows(f, Some(last));
    assert ConvertDataframeForDb(newer).index == newer.index;
  }

  /** Only rows after the last stored candle reach the store. */
  lemma FetchOutcomeNewer(online: bool, instruments: seq<InstrumentRow>, columns: seq<string>, timeframes: seq<Row>,
                          candles: map<CandleKey, Ohlcv>, symbol: string, code: string, last: Option<Time>, now: Time,
                          fetch: Request -> Option<ProviderFrame>)
    requires last.Some?
    ensures var after := FetchOutcome(online, instruments, columns, timeframes, candles, symbol, code, last, now, fetch).1;
      forall k :: k in after && k !in candles ==> k.time > last.value
  {
    var after := FetchOutcome(online, instruments, columns, timeframes, candles, symbol, code, last, now, fetch).1;
    var plan := Plan(symbol, code, last, now);
    if plan.Some? && fetch(plan.value).Some? && !IsEmpty(fetch(plan.value).value) {
      var f := fetch(plan.value).value;
      var rows := AsFrameRows(ConvertDataframeForDb(NewerRows(f, last)));
      DataExport.PriceDataFrameOrigin(online, instruments, columns, timeframes, candles, symbol, code, rows);
      RowsToWriteAfter(f, last.value);
      forall k | k in after && k !in candles
        ensures k.time > last.value
      {
        var i :| 0 <= i < |rows| && rows[i].time == Some(k.time);
      }
    }
  }

  /** The fetching half of `load_missing_candles`, from the window to the write. */
  method FetchMissing(db: Database, symbol: string, code: string, last: Option<Time>, now: Time,
                      fetch: Request -> Option<ProviderFrame>) returns (ok: bool)
    modifies db`candles
    ensures (ok, db.candles) ==
      FetchOutcome(db.online, db.instruments, db.timeframeColumns, db.timeframes, old(db.candles), symbol, code, last, now, fetch)
  {
    var (start, end) := CalculateMissingCandles(last, code, now);
    if last.Some? && start >= end {
      return true;
    }
    var providerTimeframe := ProviderTimeframe(code);
    var df: Option<ProviderFrame>;
    if last.Some? {
      var maxDays := MaxDays(code);
      var daysDiff := (end - start) / 86400.0;
      if daysDiff > maxDays as real {
        start := end - maxDays as real * 86400.0;
      }
      df := fetch(Historical(symbol, providerTimeframe, start, end));
    } else {
      df := fetch(Recent(symbol, providerTimeframe, 100));
    }
    if df.None? || IsEmpty(df.value) {
      return false;
    }
    var frame := df.value;
    if last.Some? {
      frame := NewerRows(frame, last);
    }
    if IsEmpty(frame) {
      return true;
    }
    var forDb := ConvertDataframeForDb(frame);
    ok := DataExport.InsertPriceData(db, symbol, code, DataExport.FrameData(AsFrameRows(forDb)));
  }

  // ---------------------------------------------------------------- resolution

  /** The name the updater reads from a timeframe record: `interval_name or name`. */
  function CodeOf(tf: Obj): Cell {
    Or(GetAttr(tf, "interval_name"), GetAttr(tf, "name"))
  }

  /** The loop with `break` over the timeframe records: the first whose name is the code. */
  method FindByCode(timeframes: seq<Obj>, code: string) returns (tf: Option<Obj>)
    ensures tf.Some? <==> exists i :: 0 <= i < |timeframes| && CodeOf(timeframes[i]) == TextCell(code)
    ensures tf.Some? ==>
      exists i :: (0 <= i < |timeframes| && CodeOf(timeframes[i]) == TextCell(code) && tf.value == timeframes[i] &&
        forall k :: 0 <= k < i ==> CodeOf(timeframes[k]) != TextCell(code))
  {
    tf := None;
    var j := 0;
    while j < |timeframes|
      invariant 0 <= j <= |timeframes|
      invariant forall k :: 0 <= k < j ==> CodeOf(timeframes[k]) != TextCell(code)
    {
      if CodeOf(timeframes[j]) == TextCell(code) {
        tf := Some(timeframes[j]);
        break;
      }
      j := j + 1;
    }
  }

  /**
   * The instrument id and timeframe id `load_missing_candles` works with:
   * the first instrument with the symbol and the id of the first timeframe
   * row named by the code; `None` when either is missing.
   */
  function Resolve(online: bool, instruments: seq<InstrumentRow>, columns: seq<string>, timeframes: seq<Row>,
                   symbol: string, code: string): (r: Option<(int, Cell)>)
    ensures r.Some? ==>
      (online && FindInstrument(instruments, symbol) == Some(r.value.0) &&
       GuiDataFetcher.TimeframeIdOf(online, columns, timeframes, code) == Some(r.value.1))
  {
    if !online then None
    else
      match FindInstrument(instruments, symbol)
      case None => None
      case Some(inst) =>
        match GuiDataFetcher.TimeframeIdOf(online, columns, timeframes, code)
        case None => None
        case Some(tf) => Some((inst, tf))
  }

  /**
   * Over the records listed for a timeframe table, the first record named
   * by the code carries the id the table lookup finds, and no such record
   * means the lookup finds nothing.
   */
  lemma ListedCodeResolves(online: bool, columns: seq<string>, rows: seq<Row>, timeframes: seq<Obj>, code: string,
                           tf: Option<Obj>)
    requires var listing := DataImport.TimeframesListing(online, columns, rows);
      |timeframes| == |listing| &&
      forall i :: 0 <= i < |listing| ==> timeframes[i] == TimeframeRecord(listing[i].0, listing[i].1)
    requires tf.Some? <==> exists i :: 0 <= i < |timeframes| && CodeOf(timeframes[i]) == TextCell(code)
    requires tf.Some? ==>
      exists i :: (0 <= i < |timeframes| && CodeOf(timeframes[i]) == TextCell(code) && tf.value == timeframes[i] &&
        forall k :: 0 <= k < i ==> CodeOf(timeframes[k]) != TextCell(code))
    ensures GuiDataFetcher.TimeframeIdOf(online, columns, rows, code) ==
      if tf.Some? then Some(GetAttr(tf.value, "id")) else None
  {
    var listing := DataImport.TimeframesListing(online, columns, rows);
    forall i | 0 <= i < |timeframes|
      ensures CodeOf(timeframes[i]) == listing[i].1
    {
      assert GetAttr(TimeframeRecord(listing[i].0, listing[i].1), "interval_name") == listing[i].1;
      assert GetAttr(TimeframeRecord(listing[i].0, listing[i].1), "name") == listing[i].1;
    }
    if tf.Some? {
      var i :| 0 <= i < |timeframes| && CodeOf(timeframes[i]) == TextCell(code) && tf.value == timeframes[i] &&
        forall k :: 0 <= k < i ==> CodeOf(timeframes[k]) != TextCell(code);
      GuiDataFetcher.FindTimeframeAt(rows, i, columns[0], DataImport.TimeframeNameColumn(columns).value, TextCell(code));
    }
  }

  /** The timeframe loop of `load_missing_candles`: the id of the first record whose name is the code. */
  method ResolveTimeframe(db: Database, code: string) returns (id: Option<Cell>)
    ensures id == GuiDataFetcher.TimeframeIdOf(db.online, db.timeframeColumns, db.timeframes, code)
  {
    var timeframes := GuiDataFetcher.GetTimeframes(db);
    var timeframe := FindByCode(timeframes, code);
    ListedCodeResolves(db.online, db.timeframeColumns, db.timeframes, timeframes, code, timeframe);
    if timeframe.None? {
      return None;
    }
    return Some(GetAttr(timeframe.value, "id"));
  }

  /** The ids of the first instrument and timeframe records matching the symbol and code. */
  method ResolveIds(db: Database, symbol: string, code: string) returns (ids: Option<(int, Cell)>)
    ensures ids == Resolve(db.online, db.instruments, db.timeframeColumns, db.timeframes, symbol, code)
  {
    var instruments := GuiDataFetcher.GetInstruments(db);
    ChartDataLoader.FirstWithSymbolListed(db.instruments, symbol);
    var instrument := ChartDataLoader.FirstWithSymbol(instruments, symbol);
    if instrument.None? {
      return None;
    }
    var timeframe := ResolveTimeframe(db, code);
    if timeframe.None? {
      return None;
    }
    return Some((instrument.value.id, timeframe.value));
  }

  // ---------------------------------------------------------------- cadence

  /** `should_update_timeframe`: a code never updated is due; otherwise it is due once its interval has passed. */
  predicate ShouldUpdate(code: string, lastUpdate: map<string, Time>, now: Time) {
    code !in lastUpdate || now - lastUpdate[code] >= UpdateInterval(code) as real
  }

  /** Right after a code's update it is not due again until its interval has passed. */
  lemma JustUpdatedNotDue(code: string, lastUpdate: map<string, Time>, t: Time, now: Time)
    ensures ShouldUpdate(code, lastUpdate[code := t], now) <==> now - t >= UpdateInterval(code) as real
    ensures !ShouldUpdate(code, lastUpdate[code := now], now)
  {
  }

  /** The symbol cache needs a refresh: never filled, or filled more than an hour before `now`. */
  predicate Stale(cache: Option<set<string>>, cacheTime: Option<Time>, now: Time) {
    cache.None? || cacheTime.None? || now - cacheTime.value > 3600.0
  }

  /** The cache `_is_symbol_available` answers from at `now`: the exchange's listing when stale, else as it was. */
  function Refresh(cache: Option<set<string>>, cacheTime: Option<Time>, now: Time,
                   replies: BinanceSymbolChecker.Replies): (r: (Option<set<string>>, Option<Time>))
    ensures r.0.Some? && !Stale(r.0, r.1, now)
    ensures Stale(cache, cacheTime, now) ==> r.0.value == BinanceSymbolChecker.Available(replies)
    ensures !Stale(cache, cacheTime, now) ==> r == (cache, cacheTime)
  {
    if Stale(cache, cacheTime, now) then (Some(BinanceSymbolChecker.Available(replies)), Some(now))
    else (cache, cacheTime)
  }

  /**
   * What `load_missing_candles` returns and leaves in the store, given the
   * symbol listing it answers from: false with no write for a symbol the
   * listing lacks or an instrument or timeframe not found; otherwise the
   * fetching half for the series' last stored candle time.
   */
  ghost function LoadOutcome(online: bool, instruments: seq<InstrumentRow>, columns: seq<string>, timeframes: seq<Row>,
                             candles: map<CandleKey, Ohlcv>, available: set<string>, symbol: string, code: string,
                             now: Time, fetch: Request -> Option<ProviderFrame>): (r: (bool, map<CandleKey, Ohlcv>))
    ensures Keeps(candles, r.1)
    ensures symbol !in available || Resolve(online, instruments, columns, timeframes, symbol, code).None? ==>
      r == (false, candles)
  {
    if symbol !in available then (false, candles)
    else
      match Resolve(online, instruments, columns, timeframes, symbol, code)
      case None => (false, candles)
      case Some(ids) =>
        FetchOutcome(online, instruments, columns, timeframes, candles, symbol, code,
          LastTime(DataImport.CandleSeries(candles, ids.0, ids.1)), now, fetch)
  }

  // ---------------------------------------------------------------- the clock of a pass

  /**
   * The wall clock during a pass: `clock(i)` is the i-th reading of
   * `datetime.now()`. The pair the pass visits at tick `t` owns three
   * readings: the due check of `should_update_timeframe`, the load (the
   * cache age and the fetch window of `load_missing_candles`) and the
   * update time recorded after a success.
   */
  function CheckTime(clock: nat -> Time, t: nat): Time { clock(3 * t) }

  function LoadTime(clock: nat -> Time, t: nat): Time { clock(3 * t + 1) }

  function RecordTime(clock: nat -> Time, t: nat): Time { clock(3 * t + 2) }

  /** A clock that never runs backwards. */
  ghost predicate Monotone(clock: nat -> Time) {
    forall i, j :: i <= j ==> clock(i) <= clock(j)
  }

  /** One successful load of a pass: the timeframe code and the tick of the pair that made it. */
  datatype Success = Success(code: string, tick: nat)

  /** The update times after recording a pass's successes, in order, on the times the pass started from. */
  function Replay(lastUpdate0: map<string, Time>, log: seq<Success>, clock: nat -> Time): map<string, Time>
    decreases |log|
  {
    if log == [] then lastUpdate0
    else Replay(lastUpdate0, log[..|log| - 1], clock)[log[|log| - 1].code := RecordTime(clock, log[|log| - 1].tick)]
  }

  /**
   * The successes of a pass, in order: each is for a mapped code, at a
   * later tick than every earlier success, and (unless forced) the code was
   * due at its check on the update times recorded so far.
   */
  ghost predicate Logged(forceAll: bool, clock: nat -> Time, lastUpdate0: map<string, Time>, log: seq<Success>)
    decreases |log|
  {
    log == [] ||
    (var prefix := log[..|log| - 1];
     var s := log[|log| - 1];
     Logged(forceAll, clock, lastUpdate0, prefix) && s.code in TimeframeMapping &&
     (forall k :: 0 <= k < |prefix| ==> prefix[k].tick < s.tick) &&
     (!forceAll ==> ShouldUpdate(s.code, Replay(lastUpdate0, prefix, clock), CheckTime(clock, s.tick))))
  }

  /** A pass's bookkeeping before the pair at `tick`: the successes so far and the update times they leave. */
  ghost predicate PassState(forceAll: bool, clock: nat -> Time, lastUpdate0: map<string, Time>, log: seq<Success>,
                            lastUpdate: map<string, Time>, tick: nat) {
    Logged(forceAll, clock, lastUpdate0, log) && lastUpdate == Replay(lastUpdate0, log, clock) &&
    forall k :: 0 <= k < |log| ==> log[k].tick < tick
  }

  /** What a pass reads and never changes: the tables, the mode, the clock, the exchange's listings and the provider. */
  datatype PassEnv = PassEnv(online: bool, instruments: seq<InstrumentRow>, columns: seq<string>, timeframes: seq<Row>,
                             forceAll: bool, clock: nat -> Time, replies: BinanceSymbolChecker.Replies,
                             fetch: Request -> Option<ProviderFrame>)

  /** What a pass changes: the candle store, the update times and the symbol cache with its time. */
  datatype Store = Store(candles: map<CandleKey, Ohlcv>, lastUpdate: map<string, Time>,
                         cache: Option<set<string>>, cacheTime: Option<Time>)

  /** A pass under way: the successes logged so far and the state reached. */
  datatype Pass = Pass(log: seq<Success>, store: Store)

  /**
   * One pair of `update_all_instruments`, at tick `tick`: a record whose
   * code is empty, unmapped or (unless forced) not due at the check's
   * reading leaves everything as it was; otherwise the load runs at the
   * next reading, on the refreshed cache, and a success records the code's
   * update at the reading after that.
   */
  ghost function PairOutcome(env: PassEnv, symbol: string, tf: Obj, tick: nat, s: Store): (r: (bool, Store))
    ensures Keeps(s.candles, r.1.candles)
    ensures !r.0 ==> r.1.lastUpdate == s.lastUpdate
    ensures r.0 ==>
      CodeOf(tf).TextCell? && CodeOf(tf).s in TimeframeMapping &&
      (!env.forceAll ==> ShouldUpdate(CodeOf(tf).s, s.lastUpdate, CheckTime(env.clock, tick))) &&
      r.1.lastUpdate == s.lastUpdate[CodeOf(tf).s := RecordTime(env.clock, tick)]
  {
    var code := CodeOf(tf);
    if !Truthy(code) || !code.TextCell? || code.s !in TimeframeMapping then (false, s)
    else if !env.forceAll && !ShouldUpdate(code.s, s.lastUpdate, CheckTime(env.clock, tick)) then (false, s)
    else
      var now := LoadTime(env.clock, tick);
      var cached := Refresh(s.cache, s.cacheTime, now, env.replies);
      var load := LoadOutcome(env.online, env.instruments, env.columns, env.timeframes, s.candles, cached.0.value,
        symbol, code.s, now, env.fetch);
      (load.0, Store(load.1, if load.0 then s.lastUpdate[code.s := RecordTime(env.clock, tick)] else s.lastUpdate,
        cached.0, cached.1))
  }

  /**
   * The inner loop for one instrument's symbol after its first `n`
   * timeframe records, visited at ticks `tick0`, `tick0 + 1`, ...: each
   * success is appended to the log. It never adds more successes than
   * records and never loses a candle.
   */
  ghost function InstrumentPass(env: PassEnv, symbol: string, timeframes: seq<Obj>, n: nat, tick0: nat, p: Pass): (r: Pass)
    requires n <= |timeframes|
    ensures |p.log| <= |r.log| <= |p.log| + n
    ensures Keeps(p.store.candles, r.store.candles)
    decreases n
  {
    if n == 0 then p
    else
      var q := InstrumentPass(env, symbol, timeframes, n - 1, tick0, p);
      var step := PairOutcome(env, symbol, timeframes[n - 1], tick0 + (n - 1), q.store);
      Pass(if step.0 then q.log + [Success(CodeOf(timeframes[n - 1]).s, tick0 + (n - 1))] else q.log, step.1)
  }

  /**
   * The outer loop of `update_all_instruments` after its first `m`
   * instruments: each runs the inner loop over the same records, the
   * ticks continuing where the previous instrument stopped.
   */
  ghost function PassOutcome(env: PassEnv, instruments: seq<Instrument>, timeframes: seq<Obj>, m: nat, p: Pass): (r: Pass)
    requires m <= |instruments|
    ensures |p.log| <= |r.log| <= |p.log| + Capacity(m, |timeframes|)
    ensures Keeps(p.store.candles, r.store.candles)
    decreases m
  {
    if m == 0 then p
    else
      InstrumentPass(env, instruments[m - 1].symbol, timeframes, |timeframes|, Capacity(m - 1, |timeframes|),
        PassOutcome(env, instruments, timeframes, m - 1, p))
  }

  /** The records `get_timeframes` builds from the table's `(id, name)` listing. */
  function ListedRecords(listing: seq<(Cell, Cell)>): seq<Obj> {
    seq(|listing|, i requires 0 <= i < |listing| => TimeframeRecord(listing[i].0, listing[i].1))
  }

  class Updater {
    /** `_available_symbols_cache`: the last symbol listing fetched, if any. */
    var availableSymbols: Option<set<string>>
    /** `_symbols_cache_time`: when that listing was fetched. */
    var symbolsCacheTime: Option<Time>
    /** `last_update_times`: when each timeframe code was last updated successfully. */
    var lastUpdateTimes: map<string, Time>

    /** A new updater has no cached listing and no recorded update. */
    constructor ()
      ensures availableSymbols == None && symbolsCacheTime == None && lastUpdateTimes == map[]
    {
      availableSymbols := None;
      symbolsCacheTime := None;
      lastUpdateTimes := map[];
    }

    /**
     * `_is_symbol_available`: refresh the listing when it is stale, then
     * answer membership. Afterwards the cache is fresh at `now`.
     */
    method IsSymbolAvailable(symbol: string, now: Time, replies: BinanceSymbolChecker.Replies) returns (b: bool)
      modifies this`availableSymbols, this`symbolsCacheTime
      ensures old(Stale(availableSymbols, symbolsCacheTime, now)) ==>
        availableSymbols == Some(BinanceSymbolChecker.Available(replies)) && symbolsCacheTime == Some(now)
      ensures !old(Stale(availableSymbols, symbolsCacheTime, now)) ==>
        availableSymbols == old(availableSymbols) && symbolsCacheTime == old(symbolsCacheTime)
      ensures !Stale(availableSymbols, symbolsCacheTime, now)
      ensures availableSymbols.Some? && (b <==> symbol in availableSymbols.value)
    {
      if availableSymbols.None? || symbolsCacheTime.None? || now - symbolsCacheTime.value > 3600.0 {
        var listing := BinanceSymbolChecker.GetAvailableSymbols(replies);
        availableSymbols := Some(listing);
        symbolsCacheTime := Some(now);
      }
      b := symbol in availableSymbols.value;
    }

    /**
     * `load_missing_candles`: false with no write for a symbol the listing
     * lacks or an instrument or timeframe not found; otherwise the fetching
     * half for the last stored candle time. Stored candles are never
     * changed, and every candle added is later than every candle the
     * series held.
     */
    method LoadMissingCandles(db: Database, symbol: string, code: string, now: Time,
                              replies: BinanceSymbolChecker.Replies, fetch: Request -> Option<ProviderFrame>)
      returns (ok: bool)
      modifies this`availableSymbols, this`symbolsCacheTime, db`candles
      ensures old(Stale(availableSymbols, symbolsCacheTime, now)) ==>
        availableSymbols == Some(BinanceSymbolChecker.Available(replies)) && symbolsCacheTime == Some(now)
      ensures !old(Stale(availableSymbols, symbolsCacheTime, now)) ==>
        availableSymbols == old(availableSymbols) && symbolsCacheTime == old(symbolsCacheTime)
      ensures !Stale(availableSymbols, symbolsCacheTime, now)
      ensures Keeps(old(db.candles), db.candles)
      ensures ok ==> symbol in availableSymbols.value
      ensures var ids := Resolve(db.online, db.instruments, db.timeframeColumns, db.timeframes, symbol, code);
        symbol !in availableSymbols.value || ids.None? ==> !ok && db.candles == old(db.candles)
      ensures var ids := Resolve(db.online, db.instruments, db.timeframeColumns, db.timeframes, symbol, code);
        ids.Some? ==> AllNewer(old(db.candles), db.candles, DataImport.CandleSeries(old(db.candles), ids.value.0, ids.value.1))
      ensures var ids := Resolve(db.online, db.instruments, db.timeframeColumns, db.timeframes, symbol, code);
        symbol in availableSymbols.value && ids.Some? ==>
          exists last :: LastCandle(DataImport.CandleSeries(old(db.candles), ids.value.0, ids.value.1), last) &&
            (ok, db.candles) == FetchOutcome(db.online, db.instruments, db.timeframeColumns, db.timeframes,
              old(db.candles), symbol, code, last, now, fetch)
      ensures (availableSymbols, symbolsCacheTime) == Refresh(old(availableSymbols), old(symbolsCacheTime), now, replies)
      ensures (ok, db.candles) == LoadOutcome(db.online, db.instruments, db.timeframeColumns, db.timeframes,
        old(db.candles), availableSymbols.value, symbol, code, now, fetch)
    {
      var available := IsSymbolAvailable(symbol, now, replies);
      if !available {
        return false;
      }
      var ids := ResolveIds(db, symbol, code);
      if ids.None? {
        return false;
      }
      var (inst, tf) := ids.value;
      var last := GetLastCandleTime(db, inst, tf);
      ghost var before := db.candles;
      ghost var series := DataImport.CandleSeries(before, inst, tf);
      LastCandleUnique(series, last, LastTime(series));
      ok := FetchMissing(db, symbol, code, last, now, fetch);
      if last.Some? {
        FetchOutcomeNewer(db.online, db.instruments, db.timeframeColumns, db.timeframes, before, symbol, code, last, now, fetch);
      }
      assert AllNewer(before, db.candles, series);
    }

    /**
     * One step of the pass, for an instrument's symbol and a timeframe
     * record at tick `tick`: skipped when the record's code is empty,
     * unmapped or (unless forced) not due at the check's clock reading;
     * otherwise the missing candles are loaded at the next reading, and on
     * success the code's update time becomes the reading after that.
     */
    method UpdatePair(db: Database, env: PassEnv, symbol: string, tf: Obj, tick: nat, ghost s0: Store)
      returns (success: bool)
      requires ReadsFrom(env, db)
      requires s0 == Store(db.candles, lastUpdateTimes, availableSymbols, symbolsCacheTime)
      modifies this`availableSymbols, this`symbolsCacheTime, this`lastUpdateTimes, db`candles
      ensures Keeps(old(db.candles), db.candles)
      ensures !success ==> lastUpdateTimes == old(lastUpdateTimes)
      ensures success ==>
        CodeOf(tf).TextCell? && CodeOf(tf).s in TimeframeMapping &&
        (!env.forceAll ==> ShouldUpdate(CodeOf(tf).s, old(lastUpdateTimes), CheckTime(env.clock, tick))) &&
        lastUpdateTimes == old(lastUpdateTimes)[CodeOf(tf).s := RecordTime(env.clock, tick)]
      ensures (success, Store(db.candles, lastUpdateTimes, availableSymbols, symbolsCacheTime)) ==
        PairOutcome(env, symbol, tf, tick, s0)
    {
      var code := CodeOf(tf);
      if !Truthy(code) || !code.TextCell? || code.s !in TimeframeMapping {
        return false;
      }
      if !env.forceAll && !ShouldUpdate(code.s, lastUpdateTimes, CheckTime(env.clock, tick)) {
        return false;
      }
      success := LoadMissingCandles(db, symbol, code.s, LoadTime(env.clock, tick), env.replies, env.fetch);
      if success {
        lastUpdateTimes := lastUpdateTimes[code.s := RecordTime(env.clock, tick)];
      }
    }

    /**
     * The inner loop of `update_all_instruments` for one instrument: every
     * timeframe record in turn, at ticks `tick0`, `tick0 + 1`, ..., counting
     * the successful loads and appending them to the pass's successes.
     */
    method UpdateInstrument(db: Database, env: PassEnv, symbol: string, timeframes: seq<Obj>, tick0: nat,
                            ghost lastUpdate0: map<string, Time>, ghost log0: seq<Success>)
      returns (count: nat, ghost log: seq<Success>)
      requires ReadsFrom(env, db)
      requires PassState(env.forceAll, env.clock, lastUpdate0, log0, lastUpdateTimes, tick0)
      modifies this`availableSymbols, this`symbolsCacheTime, this`lastUpdateTimes, db`candles
      ensures count <= |timeframes| && |log| == |log0| + count
      ensures Keeps(old(db.candles), db.candles)
      ensures PassState(env.forceAll, env.clock, lastUpdate0, log, lastUpdateTimes, tick0 + |timeframes|)
      ensures Pass(log, Store(db.candles, lastUpdateTimes, availableSymbols, symbolsCacheTime)) ==
        InstrumentPass(env, symbol, timeframes, |timeframes|, tick0,
          Pass(log0, Store(old(db.candles), old(lastUpdateTimes), old(availableSymbols), old(symbolsCacheTime))))
    {
      ghost var p0 := Pass(log0, Store(db.candles, lastUpdateTimes, availableSymbols, symbolsCacheTime));
      count := 0;
      log := log0;
      for j := 0 to |timeframes|
        invariant InstrumentProgress(env, symbol, timeframes, tick0, lastUpdate0, p0, j, count,
          Pass(log, Store(db.candles, lastUpdateTimes, availableSymbols, symbolsCacheTime)))
      {
        ghost var q := Pass(log, Store(db.candles, lastUpdateTimes, availableSymbols, symbolsCacheTime));
        var success := UpdatePair(db, env, symbol, timeframes[j], tick0 + j, q.store);
        ghost var st := Store(db.candles, lastUpdateTimes, availableSymbols, symbolsCacheTime);
        InstrumentStep(env, symbol, timeframes, tick0, lastUpdate0, p0, j, count, q, success, st);
        if success {
          count := count + 1;
          log := log + [Success(CodeOf(timeframes[j]).s, tick0 + j)];
        }
      }
    }

    /**
     * `update_all_instruments`: every instrument against every timeframe
     * record, counting the successful loads. The pairs are visited at ticks
     * 0, 1, 2, ... of the clock. The count, the successes, the candle store,
     * the update times and the symbol cache are those of PassOutcome over
     * the listed instruments and records. The cadence is kept per code, not
     * per instrument (see SuccessesSpaced).
     */
    method UpdateAllInstruments(db: Database, forceAll: bool, clock: nat -> Time,
                                replies: BinanceSymbolChecker.Replies, fetch: Request -> Option<ProviderFrame>)
      returns (successCount: nat, ghost log: seq<Success>)
      modifies this`availableSymbols, this`symbolsCacheTime, this`lastUpdateTimes, db`candles
      ensures Keeps(old(db.candles), db.candles)
      ensures successCount == |log|
      ensures successCount <=
        |GuiDataFetcher.GetInstruments(db)| * |DataImport.TimeframesListing(db.online, db.timeframeColumns, db.timeframes)|
      ensures Logged(forceAll, clock, old(lastUpdateTimes), log)
      ensures lastUpdateTimes == Replay(old(lastUpdateTimes), log, clock)
      ensures var instruments := GuiDataFetcher.GetInstruments(db);
        Pass(log, Store(db.candles, lastUpdateTimes, availableSymbols, symbolsCacheTime)) ==
          PassOutcome(PassEnv(db.online, db.instruments, db.timeframeColumns, db.timeframes, forceAll, clock, replies, fetch),
            instruments, ListedRecords(DataImport.TimeframesListing(db.online, db.timeframeColumns, db.timeframes)),
            |instruments|, Pass([], Store(old(db.candles), old(lastUpdateTimes), old(availableSymbols), old(symbolsCacheTime))))
    {
      var env := PassEnv(db.online, db.instruments, db.timeframeColumns, db.timeframes, forceAll, clock, replies, fetch);
      var instruments := GuiDataFetcher.GetInstruments(db);
      var timeframes := GuiDataFetcher.GetTimeframes(db);
      assert timeframes == ListedRecords(DataImport.TimeframesListing(db.online, db.timeframeColumns, db.timeframes));
      successCount, log := UpdatePass(db, env, instruments, timeframes, db.candles, lastUpdateTimes);
    }

    /**
     * The outer loop of `update_all_instruments` over the listed
     * instruments, with the store and the update times it started from.
     */
    method UpdatePass(db: Database, env: PassEnv, instruments: seq<Instrument>, timeframes: seq<Obj>,
                      ghost candles0: map<CandleKey, Ohlcv>, ghost lastUpdate0: map<string, Time>)
      returns (successCount: nat, ghost log: seq<Success>)
      requires ReadsFrom(env, db)
      requires candles0 == db.candles && lastUpdate0 == lastUpdateTimes
      modifies this`availableSymbols, this`symbolsCacheTime, this`lastUpdateTimes, db`candles
      ensures Keeps(candles0, db.candles)
      ensures successCount == |log| && successCount <= |instruments| * |timeframes|
      ensures Logged(env.forceAll, env.clock, lastUpdate0, log) && lastUpdateTimes == Replay(lastUpdate0, log, env.clock)
      ensures Pass(log, Store(db.candles, lastUpdateTimes, availableSymbols, symbolsCacheTime)) ==
        PassOutcome(env, instruments, timeframes, |instruments|,
          Pass([], Store(candles0, lastUpdate0, old(availableSymbols), old(symbolsCacheTime))))
    {
      ghost var p0 := Pass([], Store(candles0, lastUpdate0, availableSymbols, symbolsCacheTime));
      successCount := 0;
      log := [];
      var tick: nat := 0;
      for i := 0 to |instruments|
        invariant successCount == |log| && tick == Capacity(i, |timeframes|)
        invariant PassState(env.forceAll, env.clock, lastUpdate0, log, lastUpdateTimes, tick)
        invariant Pass(log, Store(db.candles, lastUpdateTimes, availableSymbols, symbolsCacheTime)) ==
          PassOutcome(env, instruments, timeframes, i, p0)
      {
        var count;
        count, log := UpdateInstrument(db, env, instruments[i].symbol, timeframes, tick, lastUpdate0, log);
        successCount := successCount + count;
        tick := tick + |timeframes|;
      }
      CapacityIsProduct(|instruments|, |timeframes|);
    }
  }

  /** The pass's view of the tables is the database's. */
  predicate ReadsFrom(env: PassEnv, db: Database)
    reads db`online, db`instruments, db`timeframeColumns, db`timeframes
  {
    env.online == db.online && env.instruments == db.instruments && env.columns == db.timeframeColumns &&
    env.timeframes == db.timeframes
  }

  /**
   * The inner loop's bookkeeping after `j` records: `cur` is the fold's
   * state, it has `count` more successes than the pass started the
   * instrument with, and the pass's successes are logged and recorded.
   */
  ghost predicate InstrumentProgress(env: PassEnv, symbol: string, timeframes: seq<Obj>, tick0: nat,
                                     lastUpdate0: map<string, Time>, p: Pass, j: nat, count: nat, cur: Pass) {
    j <= |timeframes| && |cur.log| == |p.log| + count &&
    PassState(env.forceAll, env.clock, lastUpdate0, cur.log, cur.store.lastUpdate, tick0 + j) &&
    cur == InstrumentPass(env, symbol, timeframes, j, tick0, p)
  }

  /** The inner loop's bookkeeping one record on, given the pair's outcome. */
  lemma InstrumentStep(env: PassEnv, symbol: string, timeframes: seq<Obj>, tick0: nat, lastUpdate0: map<string, Time>,
                       p: Pass, j: nat, count: nat, q: Pass, success: bool, st: Store)
    requires InstrumentProgress(env, symbol, timeframes, tick0, lastUpdate0, p, j, count, q) && j < |timeframes|
    requires (success, st) == PairOutcome(env, symbol, timeframes[j], tick0 + j, q.store)
    ensures success ==> CodeOf(timeframes[j]).TextCell?
    ensures InstrumentProgress(env, symbol, timeframes, tick0, lastUpdate0, p, j + 1,
      if success then count + 1 else count,
      Pass(if success then q.log + [Success(CodeOf(timeframes[j]).s, tick0 + j)] else q.log, st))
  {
    InstrumentPassStep(env, symbol, timeframes, j, tick0, p, q, success, st);
    PairOutcomeState(env, symbol, timeframes[j], tick0 + j, tick0 + (j + 1), q.store, success, st, lastUpdate0, q.log);
  }

  /** A pair's outcome keeps a pass's bookkeeping one tick on. */
  lemma PairOutcomeState(env: PassEnv, symbol: string, tf: Obj, tick: nat, tick': nat, s: Store, ok: bool, st: Store,
                         lastUpdate0: map<string, Time>, log: seq<Success>)
    requires (ok, st) == PairOutcome(env, symbol, tf, tick, s) && tick' == tick + 1
    requires PassState(env.forceAll, env.clock, lastUpdate0, log, s.lastUpdate, tick)
    ensures ok ==> CodeOf(tf).TextCell?
    ensures PassState(env.forceAll, env.clock, lastUpdate0, if ok then log + [Success(CodeOf(tf).s, tick)] else log,
      st.lastUpdate, tick')
  {
    PairOutcomeFacts(env, symbol, tf, tick, s, ok, st);
    PairStepState(env.forceAll, env.clock, lastUpdate0, log, s.lastUpdate, tick, tick', ok, CodeOf(tf), st.lastUpdate);
  }

  /** What a pair's outcome promises, stated on its values. */
  lemma PairOutcomeFacts(env: PassEnv, symbol: string, tf: Obj, tick: nat, s: Store, ok: bool, st: Store)
    requires (ok, st) == PairOutcome(env, symbol, tf, tick, s)
    ensures !ok ==> st.lastUpdate == s.lastUpdate
    ensures ok ==>
      CodeOf(tf).TextCell? && CodeOf(tf).s in TimeframeMapping &&
      (!env.forceAll ==> ShouldUpdate(CodeOf(tf).s, s.lastUpdate, CheckTime(env.clock, tick))) &&
      st.lastUpdate == s.lastUpdate[CodeOf(tf).s := RecordTime(env.clock, tick)]
  {
  }

  /** The inner loop one record on: the pair's outcome on the state reached so far. */
  lemma InstrumentPassStep(env: PassEnv, symbol: string, timeframes: seq<Obj>, j: nat, tick0: nat, p: Pass,
                           q: Pass, success: bool, st: Store)
    requires j < |timeframes| && q == InstrumentPass(env, symbol, timeframes, j, tick0, p)
    requires (success, st) == PairOutcome(env, symbol, timeframes[j], tick0 + j, q.store)
    ensures success ==> CodeOf(timeframes[j]).TextCell?
    ensures InstrumentPass(env, symbol, timeframes, j + 1, tick0, p) ==
      Pass(if success then q.log + [Success(CodeOf(timeframes[j]).s, tick0 + j)] else q.log, st)
  {
  }

  /** One pair's outcome, stated on its values, keeps a pass's bookkeeping one tick on. */
  lemma PairStepState(forceAll: bool, clock: nat -> Time, lastUpdate0: map<string, Time>, log: seq<Success>,
                      lastUpdate: map<string, Time>, tick: nat, tick': nat, ok: bool, code: Cell,
                      lastUpdate': map<string, Time>)
    requires PassState(forceAll, clock, lastUpdate0, log, lastUpdate, tick) && tick' == tick + 1
    requires !ok ==> lastUpdate' == lastUpdate
    requires ok ==>
      code.TextCell? && code.s in TimeframeMapping &&
      (!forceAll ==> ShouldUpdate(code.s, lastUpdate, CheckTime(clock, tick))) &&
      lastUpdate' == lastUpdate[code.s := RecordTime(clock, tick)]
    ensures PassState(forceAll, clock, lastUpdate0, if ok then log + [Success(code.s, tick)] else log, lastUpdate', tick')
  {
    if ok {
      PassStep(forceAll, clock, lastUpdate0, log, lastUpdate, tick, code.s);
    }
  }

  /** With the database down no instrument resolves, so the inner loop loads nothing and records no update. */
  lemma {:induction false} OfflineInstrumentPass(env: PassEnv, symbol: string, timeframes: seq<Obj>, n: nat, tick0: nat,
                                                 p: Pass)
    requires !env.online && n <= |timeframes|
    ensures var q := InstrumentPass(env, symbol, timeframes, n, tick0, p);
      q.log == p.log && q.store.candles == p.store.candles && q.store.lastUpdate == p.store.lastUpdate
    decreases n
  {
    if n > 0 {
      OfflineInstrumentPass(env, symbol, timeframes, n - 1, tick0, p);
    }
  }

  /**
   * With the database down a whole pass counts no success, writes no
   * candle and records no update time; only the symbol cache may be
   * refreshed.
   */
  lemma {:induction false} OfflinePassLoadsNothing(env: PassEnv, instruments: seq<Instrument>, timeframes: seq<Obj>,
                                                   m: nat, p: Pass)
    requires !env.online && m <= |instruments|
    ensures var q := PassOutcome(env, instruments, timeframes, m, p);
      q.log == p.log && q.store.candles == p.store.candles && q.store.lastUpdate == p.store.lastUpdate
    decreases m
  {
    if m > 0 {
      OfflinePassLoadsNothing(env, instruments, timeframes, m - 1, p);
      OfflineInstrumentPass(env, instruments[m - 1].symbol, timeframes, |timeframes|, Capacity(m - 1, |timeframes|),
        PassOutcome(env, instruments, timeframes, m - 1, p));
    }
  }

  /** A successful load for a mapped code that was due extends the pass's successes by that code. */
  lemma PassStep(forceAll: bool, clock: nat -> Time, lastUpdate0: map<string, Time>, log: seq<Success>,
                 lastUpdate: map<string, Time>, tick: nat, code: string)
    requires PassState(forceAll, clock, lastUpdate0, log, lastUpdate, tick)
    requires code in TimeframeMapping && (!forceAll ==> ShouldUpdate(code, lastUpdate, CheckTime(clock, tick)))
    ensures PassState(forceAll, clock, lastUpdate0, log + [Success(code, tick)],
      lastUpdate[code := RecordTime(clock, tick)], tick + 1)
  {
    var log' := log + [Success(code, tick)];
    assert log'[..|log'| - 1] == log;
  }

  /** Every prefix of a pass's successes is a pass's successes. */
  lemma {:induction false} LoggedPrefix(forceAll: bool, clock: nat -> Time, lastUpdate0: map<string, Time>,
                                        log: seq<Success>, n: nat)
    requires Logged(forceAll, clock, lastUpdate0, log) && n <= |log|
    ensures Logged(forceAll, clock, lastUpdate0, log[..n])
    decreases |log|
  {
    if n < |log| {
      LoggedPrefix(forceAll, clock, lastUpdate0, log[..|log| - 1], n);
      assert log[..|log| - 1][..n] == log[..n];
    } else {
      assert log[..n] == log;
    }
  }

  /**
   * After a pass's successes are recorded, a code that succeeded at some
   * point holds an update time no earlier than that success's record.
   */
  lemma {:induction false} ReplayAtLeast(forceAll: bool, clock: nat -> Time, lastUpdate0: map<string, Time>,
                                         log: seq<Success>, i: nat)
    requires Monotone(clock) && Logged(forceAll, clock, lastUpdate0, log) && i < |log|
    ensures log[i].code in Replay(lastUpdate0, log, clock)
    ensures Replay(lastUpdate0, log, clock)[log[i].code] >= RecordTime(clock, log[i].tick)
    decreases |log|
  {
    var prefix := log[..|log| - 1];
    var s := log[|log| - 1];
    if i < |log| - 1 {
      assert prefix[i] == log[i];
      ReplayAtLeast(forceAll, clock, lastUpdate0, prefix, i);
      if s.code == log[i].code {
        assert 3 * log[i].tick + 2 <= 3 * s.tick + 2;
      }
    }
  }

  /**
   * The cadence of an unforced pass on a clock that never runs backwards:
   * when a code succeeds twice, the second success's due check comes at
   * least the code's update interval after the first success's record.
   */
  lemma SuccessesSpaced(clock: nat -> Time, lastUpdate0: map<string, Time>, log: seq<Success>, i: nat, j: nat)
    requires Monotone(clock) && Logged(false, clock, lastUpdate0, log)
    requires i < j < |log| && log[i].code == log[j].code
    ensures CheckTime(clock, log[j].tick) - RecordTime(clock, log[i].tick) >= UpdateInterval(log[i].code) as real
  {
    LoggedPrefix(false, clock, lastUpdate0, log, j + 1);
    LoggedPrefix(false, clock, lastUpdate0, log, j);
    var prefix := log[..j + 1];
    assert prefix[..|prefix| - 1] == log[..j];
    assert log[..j][i] == log[i];
    ReplayAtLeast(false, clock, lastUpdate0, log[..j], i);
  }

  /**
   * A quick unforced pass succeeds at most once per code: when less than a
   * minute (the shortest update interval) passes from the first success's
   * record to the last success's check, no code succeeds twice, and so
   * there are at most as many successes as mapped codes.
   */
  lemma QuickPassOncePerCode(clock: nat -> Time, lastUpdate0: map<string, Time>, log: seq<Success>)
    requires Monotone(clock) && Logged(false, clock, lastUpdate0, log) && |log| > 0
    requires CheckTime(clock, log[|log| - 1].tick) - RecordTime(clock, log[0].tick) < 60.0
    ensures forall i, j :: 0 <= i < j < |log| ==> log[i].code != log[j].code
    ensures |log| <= |TimeframeMapping.Keys|
  {
    forall i, j | 0 <= i < j < |log|
      ensures log[i].code != log[j].code
    {
      if log[i].code == log[j].code {
        SuccessesSpaced(clock, lastUpdate0, log, i, j);
        TicksIncrease(false, clock, lastUpdate0, log, 0, i);
        TicksIncrease(false, clock, lastUpdate0, log, j, |log| - 1);
      }
    }
    DistinctCodes(log);
    LoggedCodesMapped(false, clock, lastUpdate0, log);
    SubsetCard(set k | 0 <= k < |log| :: log[k].code, TimeframeMapping.Keys);
  }

  /** Later successes of a pass have later ticks. */
  lemma TicksIncrease(forceAll: bool, clock: nat -> Time, lastUpdate0: map<string, Time>, log: seq<Success>,
                      i: nat, j: nat)
    requires Logged(forceAll, clock, lastUpdate0, log) && i <= j < |log|
    ensures log[i].tick <= log[j].tick
  {
    if i < j {
      LoggedPrefix(forceAll, clock, lastUpdate0, log, j + 1);
      var prefix := log[..j + 1];
      assert prefix[..|prefix| - 1][i] == log[i];
    }
  }

  /** Successes with pairwise distinct codes name as many codes as there are successes. */
  lemma {:induction false} DistinctCodes(log: seq<Success>)
    requires forall i, j :: 0 <= i < j < |log| ==> log[i].code != log[j].code
    ensures |set k | 0 <= k < |log| :: log[k].code| == |log|
  {
    if log != [] {
      var prefix := log[..|log| - 1];
      DistinctCodes(prefix);
      var codes := set k | 0 <= k < |log| :: log[k].code;
      var before := set k | 0 <= k < |prefix| :: prefix[k].code;
      assert codes == before + {log[|log| - 1].code};
      assert log[|log| - 1].code !in before;
    }
  }

  /** Every success of a pass is for a mapped code. */
  lemma {:induction false} LoggedCodesMapped(forceAll: bool, clock: nat -> Time, lastUpdate0: map<string, Time>,
                                             log: seq<Success>)
    requires Logged(forceAll, clock, lastUpdate0, log)
    ensures forall k :: 0 <= k < |log| ==> log[k].code in TimeframeMapping
    decreases |log|
  {
    if log != [] {
      var prefix := log[..|log| - 1];
      LoggedCodesMapped(forceAll, clock, lastUpdate0, prefix);
      assert forall k :: 0 <= k < |prefix| ==> prefix[k] == log[k];
    }
  }

  /** The most loads `i` instruments can add when each has `n` timeframe records: one per pair. */
  function Capacity(i: nat, n: nat): nat {
    if i == 0 then 0 else Capacity(i - 1, n) + n
  }

  lemma {:induction false} CapacityIsProduct(i: nat, n: nat)
    ensures Capacity(i, n) == i * n
  {
    if i > 0 {
      CapacityIsProduct(i - 1, n);
    }
  }

  lemma {:induction false} SubsetCard(a: set<string>, b: set<string>)
    requires a <= b
    ensures |a| <= |b|
    decreases |a|
  {
    if a != {} {
      var x :| x in a;
      SubsetCard(a - {x}, b - {x});
    }
  }
}
