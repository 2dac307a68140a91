/**
 * The console entry point (main.py): the table from database timeframe
 * names to provider timeframes, the download period per timeframe, the
 * column rename before storing, the download loop that counts every
 * (instrument, timeframe) task as a success or an error, and the choice of
 * instruments from the market-cap list restricted to what Binance trades.
 * Console output, the progress bar and the GUI start are left out.
 */
module MainScript {
  import opened Wrappers
  import opened Models
  import opened Frames
  import opened DbSchema
  import Lists
  import DataImport
  import DataExport
  import GuiDataFetcher
  import CryptoDataProvider
  import CoinGeckoFetcher
  import BinanceSymbolChecker

  /** `TIMEFRAME_MAPPING`: database timeframe names and the provider timeframe each is downloaded as. */
  const TimeframeMapping: map<string, string> := map[
    "1m" := "1min", "3m" := "3min", "5m" := "5min", "15m" := "15min", "30m" := "30min",
    "1h" := "1hour", "2h" := "1hour", "4h" := "4hour", "6h" := "4hour", "12h" := "4hour",
    "1d" := "1day", "1w" := "1week", "1mo" := "1day", "midw" := "1week"]

  /** Every provider timeframe the table names is one the provider converts for each source. */
  lemma MappedTimeframesKnownToProvider(name: string)
    requires name in TimeframeMapping
    ensures TimeframeMapping[name] in CryptoDataProvider.TimeframeMapping
  {
  }

  // ---------------------------------------------------------------- period and rename

  /** The timeframe names whose download period is shortened. */
  const ShortenedNames: set<string> := {"1m", "3m", "5m", "15m", "30m", "1h", "2h"}

  /**
   * `get_timeframe_period`: half a year for 1m/3m/5m, a year for 15m/30m,
   * a year and a half for 1h/2h, `default_years` for every other name.
   */
  function GetTimeframePeriod(tfName: string, defaultYears: int): (r: real)
    ensures tfName !in ShortenedNames ==> r == defaultYears as real
    ensures tfName in ShortenedNames ==> 0.5 <= r <= 1.5
  {
    if tfName in ["1m", "3m", "5m"] then 0.5
    else if tfName in ["15m", "30m"] then 1.0
    else if tfName in ["1h", "2h"] then 1.5
    else defaultYears as real
  }

  /** Minutes per candle of the shortened timeframes. */
  function Minutes(tfName: string): nat
    requires tfName in ShortenedNames
  {
    match tfName
    case "1m" => 1
    case "3m" => 3
    case "5m" => 5
    case "15m" => 15
    case "30m" => 30
    case "1h" => 60
    case _ => 120
  }

  /** A finer timeframe never gets a longer period, and with the default of two years no name gets more than the default. */
  lemma FinerTimeframesShorterPeriods(a: string, b: string, defaultYears: int)
    requires a in ShortenedNames && b in ShortenedNames && Minutes(a) <= Minutes(b)
    ensures GetTimeframePeriod(a, defaultYears) <= GetTimeframePeriod(b, defaultYears)
    ensures defaultYears >= 2 ==> GetTimeframePeriod(a, defaultYears) < defaultYears as real
  {
  }

  /**
   * `convert_dataframe_for_db`: `None` and an empty frame come back as
   * they are; otherwise lower-case OHLCV labels are capitalised, values
   * and index untouched.
   */
  function ConvertDataframeForDb(df: Option<Frame>): (r: Option<Frame>)
    ensures df.None? || IsEmpty(df.value) ==> r == df
    ensures df.Some? ==> r.Some? && r.value.index == df.value.index
  {
    if df.None? || IsEmpty(df.value) then df else Some(RenameOhlcv(df.value))
  }

  /**
   * A non-empty frame comes back with each lower-case OHLCV label
   * capitalised, holding the values it held, and no label besides the
   * renamed ones.
   */
  lemma ConvertRenames(f: Frame)
    requires !IsEmpty(f)
    ensures var r := ConvertDataframeForDb(Some(f)).value;
      r.cols.Keys == (set c | c in f.cols :: RenameOne(c)) &&
      forall c :: c in f.cols && RenameOne(c) != c ==> r.cols[RenameOne(c)] == f.cols[c]
  {
  }

  /** The lower-case OHLCV labels the rename replaces. */
  const LowerLabels: set<string> := {"open", "high", "low", "close", "volume"}

  /** A renamed label is left alone by a second rename. */
  lemma RenameOneSettled(c: string)
    ensures RenameOne(RenameOne(c)) == RenameOne(c)
    ensures RenameOne(c) !in LowerLabels
  {
  }

  /** A renamed frame has no lower-case OHLCV label left. */
  lemma NoLowerLabels(f: Frame)
    ensures forall n :: n in RenameOhlcv(f).cols ==> RenameOne(n) == n && n !in LowerLabels
  {
    forall n | n in RenameOhlcv(f).cols
      ensures RenameOne(n) == n && n !in LowerLabels
    {
      var c :| c in f.cols && n == RenameOne(c);
      RenameOneSettled(c);
    }
  }

  /** A label the rename leaves alone, with no lower-case label competing for it, keeps its values. */
  lemma SettledKept(f: Frame, n: string)
    requires n in f.cols && RenameOne(n) == n && RenameSource(f.cols, n) == n
    ensures n in RenameOhlcv(f).cols && RenameOhlcv(f).cols[n] == f.cols[n]
  {
  }

  /** Renaming an already renamed frame changes nothing. */
  lemma {:induction false} RenameTwice(f: Frame)
    ensures RenameOhlcv(RenameOhlcv(f)) == RenameOhlcv(f)
  {
    var g := RenameOhlcv(f);
    var h := RenameOhlcv(g);
    NoLowerLabels(f);
    assert forall n :: n in LowerLabels ==> n !in g.cols;
    forall n | n in g.cols
      ensures n in h.cols && h.cols[n] == g.cols[n]
    {
      SettledKept(g, n);
    }
    assert forall n :: n in h.cols ==> n in g.cols;
    assert h.cols == g.cols;
  }

  /** A non-empty frame stays non-empty under the rename. */
  lemma RenamedNonEmpty(f: Frame)
    requires !IsEmpty(f)
    ensures !IsEmpty(RenameOhlcv(f))
  {
    var c :| c in f.cols;
    assert RenameOne(c) in RenameOhlcv(f).cols;
  }

  /** Converting twice is converting once. */
  lemma {:induction false} ConvertIdempotent(df: Option<Frame>)
    ensures ConvertDataframeForDb(ConvertDataframeForDb(df)) == ConvertDataframeForDb(df)
  {
    if df.Some? && !IsEmpty(df.value) {
      var f := df.value;
      var g := RenameOhlcv(f);
      assert ConvertDataframeForDb(df) == Some(g);
      RenamedNonEmpty(f);
      RenameTwice(f);
      assert ConvertDataframeForDb(Some(g)) == Some(g);
    } else {
      assert ConvertDataframeForDb(df) == df;
    }
  }

  /** The value of column `c` at row `i`, `None` for a missing column. */
  function ColumnAt(f: Frame, c: string, i: nat): Option<Num>
    requires WellFormed(f) && i < Len(f)
  {
    if c in f.cols then Some(f.cols[c][i]) else None
  }

  /** The frame handed to `insert_price_data`, row by row as `_insert_dataframe` reads it. */
  function FrameRows(f: Frame): (r: seq<DataExport.FrameRow>)
    requires WellFormed(f)
    ensures |r| == Len(f)
  {
    seq(Len(f), i requires 0 <= i < Len(f) =>
      DataExport.FrameRow(Some(f.index[i]), ColumnAt(f, "Open", i), ColumnAt(f, "High", i), ColumnAt(f, "Low", i),
                          ColumnAt(f, "Close", i), ColumnAt(f, "Volume", i)))
  }

  /** After the rename, a provider frame's lower-case prices reach the exporter as the capitalised columns it reads. */
  lemma ConvertedRowsHavePrices(f: Frame)
    requires WellFormed(f) && !IsEmpty(f)
    requires "open" in f.cols && "high" in f.cols && "low" in f.cols && "close" in f.cols
    ensures var g := ConvertDataframeForDb(Some(f)).value;
      WellFormed(g) &&
      forall i :: 0 <= i < Len(f) ==>
        FrameRows(g)[i].open == Some(f.cols["open"][i]) && FrameRows(g)[i].high == Some(f.cols["high"][i]) &&
        FrameRows(g)[i].low == Some(f.cols["low"][i]) && FrameRows(g)[i].close == Some(f.cols["close"][i])
  {
    var g := RenameOhlcv(f);
    assert RenameOne("open") == "Open" && RenameOne("high") == "High";
    assert RenameOne("low") == "Low" && RenameOne("close") == "Close";
  }

  // ---------------------------------------------------------------- timeframe filter

  /** `getattr(tf, 'interval_name', None) or getattr(tf, 'name', 'Unknown')`. */
  function TfName(tf: Obj): Cell {
    Or(GetAttr(tf, "interval_name"), if HasAttr(tf, "name") then GetAttr(tf, "name") else TextCell("Unknown"))
  }

  /** A timeframe whose name is a key of `TIMEFRAME_MAPPING`. */
  predicate Supported(tf: Obj) {
    TfName(tf).TextCell? && TfName(tf).s in TimeframeMapping
  }

  /** A stored timeframe record with a non-empty name is kept exactly when the table lists that name. */
  lemma RecordSupported(id: Cell, name: string)
    requires name != ""
    ensures Supported(TimeframeRecord(id, TextCell(name))) <==> name in TimeframeMapping
  {
    assert HasAttr(TimeframeRecord(id, TextCell(name)), "interval_name");
  }

  /** The filter keeps the supported timeframes, in their order, and no other. */
  lemma KeptTimeframes(timeframes: seq<Obj>)
    ensures var kept := Lists.Filter(timeframes, Supported);
      Lists.IsSubsequence(kept, timeframes) &&
      forall tf :: tf in kept <==> tf in timeframes && Supported(tf)
  {
    Lists.FilterSubsequence(timeframes, Supported);
  }

  /** The loop that keeps each supported timeframe together with its name. */
  method FilterTimeframes(timeframes: seq<Obj>) returns (valid: seq<(Obj, string)>)
    ensures var kept := Lists.Filter(timeframes, Supported);
      |valid| == |kept| &&
      forall i :: 0 <= i < |valid| ==> valid[i].0 == kept[i] && TfName(kept[i]) == TextCell(valid[i].1)
    ensures forall i :: 0 <= i < |valid| ==> valid[i].1 in TimeframeMapping
  {
    valid := [];
    for j := 0 to |timeframes|
      invariant var kept := Lists.Filter(timeframes[..j], Supported);
        |valid| == |kept| &&
        forall i :: 0 <= i < |valid| ==> valid[i].0 == kept[i] && TfName(kept[i]) == TextCell(valid[i].1)
      invariant forall i :: 0 <= i < |valid| ==> valid[i].1 in TimeframeMapping
    {
      var tf := timeframes[j];
      var tfName := TfName(tf);
      assert timeframes[..j + 1][..j] == timeframes[..j];
      if tfName.TextCell? && tfName.s in TimeframeMapping {
        valid := valid + [(tf, tfName.s)];
      }
    }
    assert timeframes[..|timeframes|] == timeframes;
  }

  // ---------------------------------------------------------------- downloads

  /** `if limit:`: a limit other than `None` and 0. */
  predicate LimitMode(limit: Option<int>) {
    limit.Some? && limit.value != 0
  }

  /**
   * The frame one task downloads: the last `limit` candles in limit mode,
   * otherwise the history over the timeframe's period, each asked for in
   * the provider's timeframe.
   */
  function FetchFor(env: CryptoDataProvider.Environment, symbol: string, tfName: string, years: int,
                    limit: Option<int>, now: Time): (r: Option<CryptoDataProvider.ProviderFrame>)
    requires tfName in TimeframeMapping
    ensures LimitMode(limit) && limit.value > 0 && r.Some? ==> 0 < Len(r.value) <= limit.value
  {
    var providerTimeframe := TimeframeMapping[tfName];
    if LimitMode(limit) then
      var r := CryptoDataProvider.RecentOutcome(env, symbol, providerTimeframe, limit.value, None);
      assert limit.value > 0 && r.Some? ==> 0 < Len(r.value) <= limit.value by {
        if limit.value > 0 {
          CryptoDataProvider.RecentOutcomeBounded(env, symbol, providerTimeframe, limit.value, None);
        }
      }
      r
    else
      CryptoDataProvider.HistoryOutcome(env, symbol, providerTimeframe, GetTimeframePeriod(tfName, years),
                                        None, None, None, now)
  }

  /** In limit mode the years play no part; otherwise only through the timeframe's period. */
  lemma LimitModeIgnoresYears(env: CryptoDataProvider.Environment, symbol: string, tfName: string,
                              years: int, years': int, limit: Option<int>, now: Time)
    requires tfName in TimeframeMapping
    requires LimitMode(limit) || tfName in ShortenedNames
    ensures FetchFor(env, symbol, tfName, years, limit, now) == FetchFor(env, symbol, tfName, years', limit, now)
  {
    var providerTimeframe := TimeframeMapping[tfName];
    if LimitMode(limit) {
      var recent := CryptoDataProvider.RecentOutcome(env, symbol, providerTimeframe, limit.value, None);
      assert FetchFor(env, symbol, tfName, years, limit, now) == recent;
      assert FetchFor(env, symbol, tfName, years', limit, now) == recent;
    } else {
      assert GetTimeframePeriod(tfName, years) == GetTimeframePeriod(tfName, years');
    }
  }

  /** Old candles are kept with their prices. */
  predicate Keeps(before: map<CandleKey, Ohlcv>, after: map<CandleKey, Ohlcv>) {
    forall k :: k in before ==> k in after && after[k] == before[k]
  }

  /** The download of one task, as `FetchFor` describes it. */
  method FetchTask(env: CryptoDataProvider.Environment, symbol: string, tfName: string, years: int,
                   limit: Option<int>, now: Time)
    returns (df: Option<CryptoDataProvider.ProviderFrame>)
    requires tfName in TimeframeMapping
    ensures df == FetchFor(env, symbol, tfName, years, limit, now)
  {
    var providerTimeframe := TimeframeMapping[tfName];
    if limit.Some? && limit.value != 0 {
      df := CryptoDataProvider.GetRecentData(env, symbol, providerTimeframe, limit.value, None);
    } else {
      var periodYears := GetTimeframePeriod(tfName, years);
      df := CryptoDataProvider.GetHistoricalData(env, symbol, providerTimeframe, periodYears, None, None, None, now);
    }
  }

  /** What storing a downloaded frame does: the exporter's outcome for its renamed rows. */
  function Stored(online: bool, instruments: seq<InstrumentRow>, columns: seq<string>, timeframes: seq<Row>,
                  candles: map<CandleKey, Ohlcv>, symbol: string, tfName: string, f: CryptoDataProvider.ProviderFrame):
    (r: (bool, map<CandleKey, Ohlcv>))
    ensures Keeps(candles, r.1)
  {
    DataExport.PriceDataOutcome(online, instruments, columns, timeframes, candles, symbol, tfName,
                                DataExport.FrameData(FrameRows(RenameOhlcv(f))))
  }

  /**
   * A task ready to store: the instrument and timeframe ids the exporter
   * resolves (none while the database is down, for an unknown symbol, or
   * for a timeframe no query finds with a truthy id), and the renamed rows
   * of a non-empty download.
   */
  datatype Task = Task(target: Option<(int, Cell)>, rows: Option<seq<DataExport.FrameRow>>)

  /** The task for one instrument and timeframe, given the tables and its download. */
  function PreparedTask(online: bool, rows: seq<InstrumentRow>, columns: seq<string>, timeframes: seq<Row>,
                        symbol: string, tfName: string, df: Option<CryptoDataProvider.ProviderFrame>): (r: Task)
    ensures !online ==> r.target.None?
    ensures r.rows.Some? <==> df.Some? && !IsEmpty(df.value)
  {
    var inst := DataExport.FindInstrumentCaseless(rows, symbol);
    var tf := DataExport.FirstTimeframeHit(online, columns, timeframes, tfName, DataExport.TimeframeQueryColumns);
    Task(if online && inst.Some? && tf.Some? && Truthy(tf.value) then Some((inst.value, tf.value)) else None,
         if df.Some? && !IsEmpty(df.value) then Some(FrameRows(RenameOhlcv(df.value))) else None)
  }

  /** Storing one task: its rows go under its ids; a task without ids or without rows is an error. */
  function TaskStore(candles: map<CandleKey, Ohlcv>, task: Task): (r: (bool, map<CandleKey, Ohlcv>))
    ensures Keeps(candles, r.1)
    ensures r.0 ==> task.target.Some? && task.rows.Some?
    ensures task.target.None? || task.rows.None? ==> r == (false, candles)
  {
    if task.target.Some? && task.rows.Some? then
      var s := DataExport.InsertFrameRows(candles, true, task.target.value.0, task.target.value.1, task.rows.value);
      DataExport.InsertFrameRowsKeeps(candles, true, task.target.value.0, task.target.value.1, task.rows.value);
      (s.ok, s.candles)
    else (false, candles)
  }

  /** Storing a prepared task is what the exporter does with the renamed download, and an error without one. */
  lemma PreparedTaskStores(online: bool, rows: seq<InstrumentRow>, columns: seq<string>, timeframes: seq<Row>,
                           candles: map<CandleKey, Ohlcv>, symbol: string, tfName: string,
                           df: Option<CryptoDataProvider.ProviderFrame>)
    ensures TaskStore(candles, PreparedTask(online, rows, columns, timeframes, symbol, tfName, df)) ==
      if df.Some? && !IsEmpty(df.value) then Stored(online, rows, columns, timeframes, candles, symbol, tfName, df.value)
      else (false, candles)
  {
  }

  /** The names of the kept timeframes, in order. */
  function NamesOf(valid: seq<(Obj, string)>): (r: seq<string>)
    ensures |r| == |valid|
    ensures forall i :: 0 <= i < |valid| ==> r[i] == valid[i].1
  {
    seq(|valid|, i requires 0 <= i < |valid| => valid[i].1)
  }

  /** Every name in the sequence is a key of the table. */
  predicate AllMapped(names: seq<string>) {
    forall i :: 0 <= i < |names| ==> names[i] in TimeframeMapping
  }

  /** A download for each `(symbol, timeframe name)` task. */
  type Downloads = ((string, string)) -> Option<CryptoDataProvider.ProviderFrame>

  /**
   * The downloads are the provider's: every task over a mapped timeframe
   * gets the frame FetchFor describes.
   */
  ghost predicate FetchesLike(fetch: Downloads, env: CryptoDataProvider.Environment, years: int, limit: Option<int>,
                        now: Time) {
    forall symbol, name {:trigger FetchFor(env, symbol, name, years, limit, now)} ::
      name in TimeframeMapping ==> fetch((symbol, name)) == FetchFor(env, symbol, name, years, limit, now)
  }

  /** The provider's downloads as a function of the task. */
  function ProviderFetch(env: CryptoDataProvider.Environment, years: int, limit: Option<int>, now: Time): Downloads {
    (task: (string, string)) => if task.1 in TimeframeMapping then FetchFor(env, task.0, task.1, years, limit, now) else None
  }

  /** The provider's own downloads satisfy FetchesLike. */
  lemma ProviderFetchFetches(env: CryptoDataProvider.Environment, years: int, limit: Option<int>, now: Time)
    ensures FetchesLike(ProviderFetch(env, years, limit, now), env, years, limit, now)
  {
  }

  /** The tasks of one instrument, timeframe by timeframe, each with its download. */
  function Tasks(online: bool, rows: seq<InstrumentRow>, columns: seq<string>, timeframes: seq<Row>,
                 symbol: string, names: seq<string>, fetch: Downloads): (r: seq<Task>)
    ensures |r| == |names|
  {
    seq(|names|, j requires 0 <= j < |names| =>
      PreparedTask(online, rows, columns, timeframes, symbol, names[j], fetch((symbol, names[j]))))
  }

  /** No task of the sequence has ids to store under. */
  predicate NoTargets(tasks: seq<Task>) {
    forall i :: 0 <= i < |tasks| ==> tasks[i].target.None?
  }

  /**
   * Tasks stored one after another: the number that succeeded and the
   * candle table after the last.
   */
  function TasksOutcome(candles: map<CandleKey, Ohlcv>, tasks: seq<Task>): (r: (nat, map<CandleKey, Ohlcv>))
    ensures r.0 <= |tasks|
    ensures Keeps(candles, r.1)
    decreases |tasks|
  {
    if tasks == [] then (0, candles)
    else
      var n := |tasks| - 1;
      var before := TasksOutcome(candles, tasks[..n]);
      var step := TaskStore(before.1, tasks[n]);
      (before.0 + (if step.0 then 1 else 0), step.1)
  }

  /** Tasks without ids store nothing and succeed nowhere. */
  lemma {:induction false} UntargetedStoreNothing(candles: map<CandleKey, Ohlcv>, tasks: seq<Task>)
    ensures NoTargets(tasks) ==> TasksOutcome(candles, tasks) == (0, candles)
    decreases |tasks|
  {
    if tasks != [] && NoTargets(tasks) {
      var n := |tasks| - 1;
      assert NoTargets(tasks[..n]);
      UntargetedStoreNothing(candles, tasks[..n]);
    }
  }

  /** One more task adds its success and leaves the table it leaves. */
  lemma TaskStep(candles: map<CandleKey, Ohlcv>, tasks: seq<Task>, j: nat, count: nat,
                 before: map<CandleKey, Ohlcv>, ok: bool, after: map<CandleKey, Ohlcv>)
    requires j < |tasks|
    requires (count, before) == TasksOutcome(candles, tasks[..j])
    requires (ok, after) == TaskStore(before, tasks[j])
    ensures (count + (if ok then 1 else 0), after) == TasksOutcome(candles, tasks[..j + 1])
  {
    assert tasks[..j + 1][..j] == tasks[..j];
  }

  /** Storing two runs of tasks one after the other adds their successes and ends where the second ends. */
  lemma {:induction false} OutcomeAppend(candles: map<CandleKey, Ohlcv>, first: seq<Task>, second: seq<Task>)
    ensures var mid := TasksOutcome(candles, first);
      var end := TasksOutcome(mid.1, second);
      TasksOutcome(candles, first + second) == (mid.0 + end.0, end.1)
    decreases |second|
  {
    if second == [] {
      assert first + second == first;
    } else {
      var n := |second| - 1;
      OutcomeAppend(candles, first, second[..n]);
      assert (first + second)[..|first| + n] == first + second[..n];
      assert (first + second)[|first| + n] == second[n];
    }
  }

  /** While the database is down no task has ids to store under. */
  lemma OfflineTasks(rows: seq<InstrumentRow>, columns: seq<string>, timeframes: seq<Row>, symbol: string,
                     names: seq<string>, fetch: Downloads)
    ensures NoTargets(Tasks(false, rows, columns, timeframes, symbol, names, fetch))
  {
    var tasks := Tasks(false, rows, columns, timeframes, symbol, names, fetch);
    forall i | 0 <= i < |tasks|
      ensures tasks[i].target.None?
    {
      assert tasks[i] == PreparedTask(false, rows, columns, timeframes, symbol, names[i], fetch((symbol, names[i])));
    }
  }

  /** One more instrument adds one more row of tasks; AllTasks' length follows from it. */
  lemma MulSucc(n: nat, m: nat)
    ensures (n + 1) * m == n * m + m
  {
  }

  /** The tasks of every instrument, instrument by instrument, each instrument's in the order of the names. */
  function AllTasks(online: bool, rows: seq<InstrumentRow>, columns: seq<string>, timeframes: seq<Row>,
                    instruments: seq<Instrument>, names: seq<string>, fetch: Downloads): (r: seq<Task>)
    ensures |r| == |instruments| * |names|
    decreases |instruments|
  {
    if instruments == [] then []
    else
      var n := |instruments| - 1;
      MulSucc(n, |names|);
      AllTasks(online, rows, columns, timeframes, instruments[..n], names, fetch) +
        Tasks(online, rows, columns, timeframes, instruments[n].symbol, names, fetch)
  }

  /** The tasks of one more instrument follow those of the instruments before it. */
  lemma AllTasksSnoc(online: bool, rows: seq<InstrumentRow>, columns: seq<string>, timeframes: seq<Row>,
                     instruments: seq<Instrument>, names: seq<string>, fetch: Downloads, i: nat)
    requires i < |instruments|
    ensures AllTasks(online, rows, columns, timeframes, instruments[..i + 1], names, fetch) ==
      AllTasks(online, rows, columns, timeframes, instruments[..i], names, fetch) +
      Tasks(online, rows, columns, timeframes, instruments[i].symbol, names, fetch)
  {
    assert instruments[..i + 1][..i] == instruments[..i];
  }

  /** While the database is down no task of any instrument has ids to store under. */
  lemma {:induction false} OfflineAllTasks(rows: seq<InstrumentRow>, columns: seq<string>, timeframes: seq<Row>,
                                           instruments: seq<Instrument>, names: seq<string>, fetch: Downloads)
    ensures NoTargets(AllTasks(false, rows, columns, timeframes, instruments, names, fetch))
    decreases |instruments|
  {
    if instruments != [] {
      var n := |instruments| - 1;
      OfflineAllTasks(rows, columns, timeframes, instruments[..n], names, fetch);
      OfflineTasks(rows, columns, timeframes, instruments[n].symbol, names, fetch);
    }
  }

  /** While the database is down the whole download stores nothing and counts no success. */
  lemma OfflineStoresNothing(rows: seq<InstrumentRow>, columns: seq<string>, timeframes: seq<Row>,
                             candles: map<CandleKey, Ohlcv>, instruments: seq<Instrument>, names: seq<string>,
                             fetch: Downloads)
    ensures TasksOutcome(candles, AllTasks(false, rows, columns, timeframes, instruments, names, fetch)) == (0, candles)
  {
    OfflineAllTasks(rows, columns, timeframes, instruments, names, fetch);
    UntargetedStoreNothing(candles, AllTasks(false, rows, columns, timeframes, instruments, names, fetch));
  }

  /** Storing one downloaded frame: rename and store a non-empty frame; anything else is an error. */
  method StoreTask(db: Database, symbol: string, tfName: string, df: Option<CryptoDataProvider.ProviderFrame>)
    returns (ok: bool)
    modifies db`candles
    ensures (ok, db.candles) == TaskStore(old(db.candles), PreparedTask(old(db.online), old(db.instruments),
      old(db.timeframeColumns), old(db.timeframes), symbol, tfName, df))
  {
    if df.Some? && !IsEmpty(df.value) {
      var dfForDb := ConvertDataframeForDb(Some(df.value));
      ok := DataExport.InsertPriceData(db, symbol, tfName, DataExport.FrameData(FrameRows(dfForDb.value)));
    } else {
      ok := false;
    }
  }

  /**
   * One task: the provider's download, then the store. `fetch` stands
   * for the provider's downloads, so the frame stored is
   * `FetchFor(env, symbol, tfName, years, limit, now)`.
   */
  method LoadTask(db: Database, env: CryptoDataProvider.Environment, symbol: string, tfName: string, years: int,
                  limit: Option<int>, now: Time, ghost fetch: Downloads)
    returns (ok: bool)
    requires tfName in TimeframeMapping
    requires FetchesLike(fetch, env, years, limit, now)
    modifies db`candles
    ensures (ok, db.candles) == TaskStore(old(db.candles), PreparedTask(old(db.online), old(db.instruments),
      old(db.timeframeColumns), old(db.timeframes), symbol, tfName, fetch((symbol, tfName))))
  {
    var df := FetchTask(env, symbol, tfName, years, limit, now);
    ok := StoreTask(db, symbol, tfName, df);
  }

  /** The inner loop for one instrument: every kept timeframe is one success or one error. */
  method LoadInstrument(db: Database, env: CryptoDataProvider.Environment, symbol: string, valid: seq<(Obj, string)>,
                        years: int, limit: Option<int>, now: Time, ghost fetch: Downloads)
    returns (successCount: nat, errorCount: nat)
    requires forall i :: 0 <= i < |valid| ==> valid[i].1 in TimeframeMapping
    requires FetchesLike(fetch, env, years, limit, now)
    modifies db`candles
    ensures (successCount, db.candles) == TasksOutcome(old(db.candles), Tasks(old(db.online), old(db.instruments),
      old(db.timeframeColumns), old(db.timeframes), symbol, NamesOf(valid), fetch))
    ensures successCount + errorCount == |valid|
    ensures Keeps(old(db.candles), db.candles)
  {
    successCount, errorCount := 0, 0;
    var names := NamesOf(valid);
    ghost var tasks := Tasks(db.online, db.instruments, db.timeframeColumns, db.timeframes, symbol, names, fetch);
    for j := 0 to |valid|
      invariant successCount + errorCount == j
      invariant (successCount, db.candles) == TasksOutcome(old(db.candles), tasks[..j])
    {
      ghost var before := db.candles;
      var ok := LoadTask(db, env, symbol, names[j], years, limit, now, fetch);
      TaskStep(old(db.candles), tasks, j, successCount, before, ok, db.candles);
      if ok {
        successCount := successCount + 1;
      } else {
        errorCount := errorCount + 1;
      }
    }
    assert tasks[..|valid|] == tasks;
  }

  /** The names FilterTimeframes keeps: those of the supported timeframes, in order. */
  function KeptNames(timeframes: seq<Obj>): (r: seq<string>)
    ensures AllMapped(r)
    ensures |r| == |Lists.Filter(timeframes, Supported)|
  {
    var kept := Lists.Filter(timeframes, Supported);
    seq(|kept|, i requires 0 <= i < |kept| => TfName(kept[i]).s)
  }

  /** One more instrument adds the successes of its tasks and leaves the table they leave. */
  lemma InstrumentsStep(online: bool, rows: seq<InstrumentRow>, columns: seq<string>, timeframes: seq<Row>,
                        instruments: seq<Instrument>, names: seq<string>, fetch: Downloads, i: nat,
                        candles: map<CandleKey, Ohlcv>, count: nat, mid: map<CandleKey, Ohlcv>, added: nat,
                        after: map<CandleKey, Ohlcv>)
    requires i < |instruments|
    requires (count, mid) ==
             TasksOutcome(candles, AllTasks(online, rows, columns, timeframes, instruments[..i], names, fetch))
    requires (added, after) ==
             TasksOutcome(mid, Tasks(online, rows, columns, timeframes, instruments[i].symbol, names, fetch))
    ensures (count + added, after) ==
            TasksOutcome(candles, AllTasks(online, rows, columns, timeframes, instruments[..i + 1], names, fetch))
    ensures |AllTasks(online, rows, columns, timeframes, instruments[..i + 1], names, fetch)| ==
            |AllTasks(online, rows, columns, timeframes, instruments[..i], names, fetch)| + |names|
  {
    AllTasksSnoc(online, rows, columns, timeframes, instruments, names, fetch, i);
    OutcomeAppend(candles, AllTasks(online, rows, columns, timeframes, instruments[..i], names, fetch),
                  Tasks(online, rows, columns, timeframes, instruments[i].symbol, names, fetch));
  }

  /** The outer loop: the tasks of every instrument, instrument by instrument. */
  method LoadInstruments(db: Database, env: CryptoDataProvider.Environment, instruments: seq<Instrument>,
                         valid: seq<(Obj, string)>, years: int, limit: Option<int>, now: Time, ghost fetch: Downloads)
    returns (successCount: nat, errorCount: nat)
    requires forall i :: 0 <= i < |valid| ==> valid[i].1 in TimeframeMapping
    requires FetchesLike(fetch, env, years, limit, now)
    modifies db`candles
    ensures (successCount, db.candles) == TasksOutcome(old(db.candles), AllTasks(old(db.online),
      old(db.instruments), old(db.timeframeColumns), old(db.timeframes), instruments, NamesOf(valid), fetch))
    ensures successCount + errorCount == |instruments| * |valid|
  {
    ghost var online, rows, columns, timeframes := db.online, db.instruments, db.timeframeColumns, db.timeframes;
    ghost var names := NamesOf(valid);
    successCount, errorCount := 0, 0;
    for i := 0 to |instruments|
      invariant db.online == online && db.instruments == rows
      invariant db.timeframeColumns == columns && db.timeframes == timeframes
      invariant successCount + errorCount == |AllTasks(online, rows, columns, timeframes, instruments[..i], names, fetch)|
      invariant (successCount, db.candles) ==
                TasksOutcome(old(db.candles), AllTasks(online, rows, columns, timeframes, instruments[..i], names, fetch))
    {
      ghost var before := db.candles;
      var s, e := LoadInstrument(db, env, instruments[i].symbol, valid, years, limit, now, fetch);
      InstrumentsStep(online, rows, columns, timeframes, instruments, names, fetch, i, old(db.candles),
                      successCount, before, s, db.candles);
      successCount, errorCount := successCount + s, errorCount + e;
    }
    assert instruments[..|instruments|] == instruments;
  }

  /**
   * `load_historical_data`: the supported timeframes, then one task per
   * instrument and timeframe, each counted once as a success or an error.
   * `fetch` stands for the provider's downloads (ProviderFetch is one).
   */
  method LoadHistoricalData(db: Database, env: CryptoDataProvider.Environment, instruments: seq<Instrument>,
                            timeframes: seq<Obj>, years: int, limit: Option<int>, now: Time, ghost fetch: Downloads)
    returns (totalTasks: nat, successCount: nat, errorCount: nat)
    requires FetchesLike(fetch, env, years, limit, now)
    modifies db`candles
    ensures (successCount, db.candles) == TasksOutcome(old(db.candles), AllTasks(old(db.online),
      old(db.instruments), old(db.timeframeColumns), old(db.timeframes), instruments, KeptNames(timeframes), fetch))
    ensures totalTasks == |instruments| * |Lists.Filter(timeframes, Supported)|
    ensures successCount + errorCount == totalTasks
    ensures Keeps(old(db.candles), db.candles)
  {
    var valid := FilterTimeframes(timeframes);
    assert NamesOf(valid) == KeptNames(timeframes);
    totalTasks := |instruments| * |valid|;
    successCount, errorCount := LoadInstruments(db, env, instruments, valid, years, limit, now, fetch);
  }

  // ---------------------------------------------------------------- instruments

  /** Some row of the table holds the symbol. */
  predicate Registered(rows: seq<InstrumentRow>, symbol: string) {
    exists i :: 0 <= i < |rows| && rows[i].symbol == symbol
  }

  /** `INSERT INTO instruments (symbol) ... ON CONFLICT (symbol) DO NOTHING`. */
  function AddSymbol(rows: seq<InstrumentRow>, nextId: int, symbol: string): (r: (seq<InstrumentRow>, int))
    ensures Registered(r.0, symbol)
    ensures rows <= r.0 && |r.0| <= |rows| + 1
    ensures FindInstrument(rows, symbol).Some? ==> r == (rows, nextId)
    ensures InstrumentsValid(rows, nextId) ==> InstrumentsValid(r.0, r.1)
  {
    if FindInstrument(rows, symbol).Some? then (rows, nextId)
    else
      var added := rows + [InstrumentRow(nextId, symbol, NullCell)];
      assert added[|rows|].symbol == symbol;
      (added, nextId + 1)
  }

  /** The inserts for the first `n` symbols, in order. */
  function AddSymbols(rows: seq<InstrumentRow>, nextId: int, symbols: seq<string>, n: nat): (r: (seq<InstrumentRow>, int))
    requires n <= |symbols|
    ensures rows <= r.0
    ensures InstrumentsValid(rows, nextId) ==> InstrumentsValid(r.0, r.1)
  {
    if n == 0 then (rows, nextId)
    else
      var before := AddSymbols(rows, nextId, symbols, n - 1);
      AddSymbol(before.0, before.1, symbols[n - 1])
  }

  /** A symbol held by a table is held by any table that extends it. */
  lemma RegisteredInLonger(rows: seq<InstrumentRow>, longer: seq<InstrumentRow>, symbol: string)
    requires rows <= longer && Registered(rows, symbol)
    ensures Registered(longer, symbol)
  {
    var i :| 0 <= i < |rows| && rows[i].symbol == symbol;
    assert longer[i].symbol == symbol;
  }

  /** After the inserts, every one of the symbols has a row. */
  lemma {:induction false} AddSymbolsRegisters(rows: seq<InstrumentRow>, nextId: int, symbols: seq<string>, n: nat)
    requires n <= |symbols|
    ensures forall j :: 0 <= j < n ==> Registered(AddSymbols(rows, nextId, symbols, n).0, symbols[j])
  {
    if n > 0 {
      AddSymbolsRegisters(rows, nextId, symbols, n - 1);
      var before := AddSymbols(rows, nextId, symbols, n - 1);
      var after := AddSymbol(before.0, before.1, symbols[n - 1]);
      assert AddSymbols(rows, nextId, symbols, n) == after;
      forall j | 0 <= j < n - 1
        ensures Registered(after.0, symbols[j])
      {
        RegisteredInLonger(before.0, after.0, symbols[j]);
      }
    }
  }

  /** `[inst for inst in all_instruments if inst.symbol in available_symbols]`. */
  function Restrict(all: seq<Instrument>, available: seq<string>): seq<Instrument> {
    Lists.Filter(all, (inst: Instrument) => inst.symbol in available)
  }

  /**
   * With the database up, the inserts followed by the restriction give
   * an instrument for every available symbol and none for any other.
   */
  lemma RestrictedCoversAvailable(rows: seq<InstrumentRow>, nextId: int, available: seq<string>)
    ensures var table := AddSymbols(rows, nextId, available, |available|).0;
      var chosen := Restrict(DataImport.Listed(table), available);
      (forall i :: 0 <= i < |chosen| ==> chosen[i].symbol in available) &&
      (forall s :: s in available ==> exists i :: 0 <= i < |chosen| && chosen[i].symbol == s)
  {
    var table := AddSymbols(rows, nextId, available, |available|).0;
    var listed := DataImport.Listed(table);
    AddSymbolsRegisters(rows, nextId, available, |available|);
    forall s | s in available
      ensures exists i :: 0 <= i < |Restrict(listed, available)| && Restrict(listed, available)[i].symbol == s
    {
      var j :| 0 <= j < |available| && available[j] == s;
      assert Registered(table, available[j]);
      var k :| 0 <= k < |table| && table[k].symbol == s;
      assert listed[k].symbol == s;
      var inst := listed[k];
      assert inst in Restrict(listed, available);
    }
  }

  /** The symbols of the market-cap list that Binance trades, in the list's order. */
  function AvailableOf(filtered: seq<string>, replies: BinanceSymbolChecker.Replies): seq<string> {
    Lists.Filter(filtered, s => s in BinanceSymbolChecker.Available(replies))
  }

  /**
   * The instruments `main` chooses, with the instruments table and the
   * next serial id it leaves behind, from the market-cap symbols (`None`
   * when the conversion raised) and the Binance replies.
   */
  function Selection(filtered: Option<seq<string>>, replies: BinanceSymbolChecker.Replies, online: bool,
                     rows: seq<InstrumentRow>, nextId: int): (r: (seq<Instrument>, seq<InstrumentRow>, int))
    ensures rows <= r.1
    ensures InstrumentsValid(rows, nextId) ==> InstrumentsValid(r.1, r.2)
    ensures !online ==> r == ([], rows, nextId)
    ensures online && (filtered.None? || AvailableOf(filtered.value, replies) == []) ==>
      r == (DataImport.Listed(rows), rows, nextId)
    ensures online && filtered.Some? && AvailableOf(filtered.value, replies) != [] ==>
      var available := AvailableOf(filtered.value, replies);
      (forall i :: 0 <= i < |r.0| ==> r.0[i].symbol in available) &&
      (forall s :: s in available ==> exists i :: 0 <= i < |r.0| && r.0[i].symbol == s)
  {
    if filtered.None? || filtered.value == [] || AvailableOf(filtered.value, replies) == [] then
      (if online then DataImport.Listed(rows) else [], rows, nextId)
    else if !online then
      (Restrict([], AvailableOf(filtered.value, replies)), rows, nextId)
    else
      var available := AvailableOf(filtered.value, replies);
      var table := AddSymbols(rows, nextId, available, |available|);
      RestrictedCoversAvailable(rows, nextId, available);
      (Restrict(DataImport.Listed(table.0), available), table.0, table.1)
  }

  /**
   * The instrument choice of `main`: every database instrument when the
   * market-cap list failed or is empty or when Binance trades none of it;
   * otherwise register the traded symbols and keep the instruments among
   * them.
   */
  method SelectInstruments(db: Database, filtered: Result<seq<string>>, replies: BinanceSymbolChecker.Replies)
    returns (instruments: seq<Instrument>)
    modifies db`instruments, db`nextInstrumentId
    ensures (instruments, db.instruments, db.nextInstrumentId) ==
            Selection(if filtered.Ok? then Some(filtered.value) else None, replies, old(db.online),
                      old(db.instruments), old(db.nextInstrumentId))
    ensures filtered.Err? || filtered.value == [] || AvailableOf(filtered.value, replies) == [] ==>
      instruments == DataImport.GetInstruments(db) &&
      db.instruments == old(db.instruments) && db.nextInstrumentId == old(db.nextInstrumentId)
    ensures filtered.Ok? && AvailableOf(filtered.value, replies) != [] ==>
      var available := AvailableOf(filtered.value, replies);
      instruments == Restrict(DataImport.GetInstruments(db), available) &&
      (db.online ==>
         (db.instruments, db.nextInstrumentId) == AddSymbols(old(db.instruments), old(db.nextInstrumentId), available, |available|)) &&
      (!db.online ==> db.instruments == old(db.instruments) && db.nextInstrumentId == old(db.nextInstrumentId))
  {
    if filtered.Err? || filtered.value == [] {
      return DataImport.GetInstruments(db);
    }
    var available := BinanceSymbolChecker.FilterAvailableSymbols(filtered.value, replies);
    if available == [] {
      return DataImport.GetInstruments(db);
    }
    for j := 0 to |available|
      invariant db.online ==>
                  (db.instruments, db.nextInstrumentId) == AddSymbols(old(db.instruments), old(db.nextInstrumentId), available, j)
      invariant !db.online ==> db.instruments == old(db.instruments) && db.nextInstrumentId == old(db.nextInstrumentId)
    {
      if db.online {
        var symbol := available[j];
        if FindInstrument(db.instruments, symbol).None? {
          db.instruments := db.instruments + [InstrumentRow(db.nextInstrumentId, symbol, NullCell)];
          db.nextInstrumentId := db.nextInstrumentId + 1;
        }
      }
    }
    var allInstruments := DataImport.GetInstruments(db);
    instruments := Lists.Filter(allInstruments, (inst: Instrument) => inst.symbol in available);
  }

  /** `main` up to the GUI start: the instruments chosen with the market-cap ratio 5 and limit 100, and the timeframes. */
  method StartApplication(db: Database, price: CoinGeckoFetcher.PriceReply, markets: int -> CoinGeckoFetcher.MarketsReply,
              replies: BinanceSymbolChecker.Replies)
    returns (instruments: seq<Instrument>, timeframes: seq<Obj>)
    modifies db`instruments, db`nextInstrumentId
    ensures var coins := CoinGeckoFetcher.CoinsBelowEthCapRatio(price, 5.0, 100, markets);
      var filtered := if exists i :: 0 <= i < |coins| && CoinGeckoFetcher.SymbolRaises(coins[i]) then None
                      else Some(CoinGeckoFetcher.BinanceSymbols(coins));
      (instruments, db.instruments, db.nextInstrumentId) ==
      Selection(filtered, replies, old(db.online), old(db.instruments), old(db.nextInstrumentId))
    ensures var listing := DataImport.TimeframesListing(db.online, db.timeframeColumns, db.timeframes);
      |timeframes| == |listing| &&
      forall i :: 0 <= i < |listing| ==> timeframes[i] == TimeframeRecord(listing[i].0, listing[i].1)
  {
    var filtered := CoinGeckoFetcher.GetFilteredSymbols(price, 5.0, 100, markets);
    instruments := SelectInstruments(db, filtered, replies);
    timeframes := GuiDataFetcher.GetTimeframes(db);
  }
}
