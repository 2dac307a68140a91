/**
 * Writing candles into the shared `candles` table
 * (crypto_trading_bot/database/data_export.py, `DataExporter`): the
 * case-insensitive instrument lookup, the timeframe id tried through five
 * columns, and the insert-if-absent loops over a Yahoo Finance frame and
 * over a list of exchange ticks.
 */
module DataExport {
  import opened Wrappers
  import opened Models
  import opened Text
  import opened DbSchema

  /** `SELECT id FROM instruments WHERE LOWER(symbol) = LOWER(%s)`: the first row matching up to case. */
  function FindInstrumentCaseless(rows: seq<InstrumentRow>, symbol: string): (r: Option<int>)
    ensures r.Some? <==> exists i :: 0 <= i < |rows| && Lower(rows[i].symbol) == Lower(symbol)
    ensures r.Some? ==> exists i :: 0 <= i < |rows| && Lower(rows[i].symbol) == Lower(symbol) && rows[i].id == r.value
  {
    if rows == [] then None
    else if Lower(rows[0].symbol) == Lower(symbol) then Some(rows[0].id)
    else
      var r := FindInstrumentCaseless(rows[1..], symbol);
      assert forall i :: 0 < i < |rows| ==> rows[i] == rows[1..][i - 1];
      r
  }

  /** Two symbols that differ only in letter case find the same instrument. */
  lemma {:induction false} FindInstrumentCaselessIgnoresCase(rows: seq<InstrumentRow>, a: string, b: string)
    requires Lower(a) == Lower(b)
    ensures FindInstrumentCaseless(rows, a) == FindInstrumentCaseless(rows, b)
  {
    if rows != [] {
      FindInstrumentCaselessIgnoresCase(rows[1..], a, b);
    }
  }

  /** Every instrument the exact lookup of the schema manager finds, this lookup finds too. */
  lemma FindInstrumentCaselessWidens(rows: seq<InstrumentRow>, symbol: string)
    requires FindInstrument(rows, symbol).Some?
    ensures FindInstrumentCaseless(rows, symbol).Some?
  {
    var i :| 0 <= i < |rows| && rows[i].symbol == symbol;
    assert Lower(rows[i].symbol) == Lower(symbol);
  }

  /** The columns `insert_price_data` matches the timeframe against, in order. */
  const TimeframeQueryColumns: seq<string> := ["code", "api_value", "interval_name", "name", "timeframe_name"]

  /**
   * `SELECT id FROM timeframes WHERE col = %s`, first row: raises when the
   * database is down or the table lacks `id` or `col`.
   */
  function QueryTimeframeId(online: bool, columns: seq<string>, rows: seq<Row>, col: string, value: string): Result<Option<Cell>> {
    if !online then Err("database error")
    else if "id" !in columns || col !in columns then Err("UndefinedColumn")
    else Ok(FindTimeframe(rows, "id", col, TextCell(value)))
  }

  /** A query that returned a row. */
  predicate Hit(q: Result<Option<Cell>>) {
    q.Ok? && q.value.Some?
  }

  /**
   * The timeframe id as the fallback chain intends it: the answer of the
   * first query in `cols` that returns a row, a failing query being
   * skipped.
   */
  function FirstTimeframeHit(online: bool, columns: seq<string>, rows: seq<Row>, value: string, cols: seq<string>): (r: Option<Cell>)
    ensures r.Some? <==> exists j :: 0 <= j < |cols| && Hit(QueryTimeframeId(online, columns, rows, cols[j], value))
    ensures r.Some? ==> exists j :: (0 <= j < |cols| && QueryTimeframeId(online, columns, rows, cols[j], value) == Ok(r) &&
      forall j' :: 0 <= j' < j ==> !Hit(QueryTimeframeId(online, columns, rows, cols[j'], value)))
  {
    if cols == [] then None
    else
      var q := QueryTimeframeId(online, columns, rows, cols[0], value);
      if Hit(q) then q.value
      else
        var r := FirstTimeframeHit(online, columns, rows, value, cols[1..]);
        assert forall j :: 0 < j < |cols| ==> cols[j] == cols[1..][j - 1];
        if r.Some? then
          var j :| 0 <= j < |cols[1..]| && QueryTimeframeId(online, columns, rows, cols[1..][j], value) == Ok(r) &&
            forall j' :: 0 <= j' < j ==> !Hit(QueryTimeframeId(online, columns, rows, cols[1..][j'], value));
          assert forall j' :: 0 <= j' < j + 1 ==> !Hit(QueryTimeframeId(online, columns, rows, cols[j'], value)) by {
            forall j' | 0 <= j' < j + 1
              ensures !Hit(QueryTimeframeId(online, columns, rows, cols[j'], value))
            {
              if j' > 0 {
                assert cols[j'] == cols[1..][j' - 1];
              }
            }
          }
          r
        else r
  }

  /**
   * The fallback chain as the code runs against PostgreSQL: `fetch_one`
   * re-raises without a rollback, so after the first failing query the
   * transaction is aborted and every later query in it fails as well.
   */
  function FirstTimeframeHitAsWritten(online: bool, columns: seq<string>, rows: seq<Row>, value: string,
                                      cols: seq<string>, aborted: bool): Option<Cell>
  {
    if cols == [] then None
    else
      var q := if aborted then Err("InFailedSqlTransaction") else QueryTimeframeId(online, columns, rows, cols[0], value);
      if Hit(q) then q.value
      else FirstTimeframeHitAsWritten(online, columns, rows, value, cols[1..], aborted || q.Err?)
  }

  /**
   * A timeframes table without `code` and `api_value` columns, holding "1h"
   * under `interval_name`: the code as written finds no timeframe, the
   * intended chain finds id 1.
   */
  lemma AbortedTransactionHidesTimeframe()
    ensures var columns := ["id", "interval_name"];
      var rows := [map["id" := IntCell(1), "interval_name" := TextCell("1h")]];
      FirstTimeframeHitAsWritten(true, columns, rows, "1h", TimeframeQueryColumns, false).None? &&
      FirstTimeframeHit(true, columns, rows, "1h", TimeframeQueryColumns) == Some(IntCell(1))
  {
    var columns := ["id", "interval_name"];
    var rows := [map["id" := IntCell(1), "interval_name" := TextCell("1h")]];
    assert "code" !in columns && "api_value" !in columns;
    assert QueryTimeframeId(true, columns, rows, "interval_name", "1h") == Ok(Some(IntCell(1))) by {
      assert CellAt(rows[0], "interval_name") == TextCell("1h");
    }
    assert TimeframeQueryColumns[1..] == ["api_value", "interval_name", "name", "timeframe_name"];
    assert TimeframeQueryColumns[1..][1..] == ["interval_name", "name", "timeframe_name"];
  }

  /**
   * The loop over the five queries with its `break`: the id of the first
   * query that returns a row.
   */
  method ResolveTimeframeId(db: Database, value: string) returns (id: Option<Cell>)
    ensures id == FirstTimeframeHit(db.online, db.timeframeColumns, db.timeframes, value, TimeframeQueryColumns)
  {
    id := None;
    var j := 0;
    while j < |TimeframeQueryColumns|
      invariant 0 <= j <= |TimeframeQueryColumns|
      invariant FirstTimeframeHit(db.online, db.timeframeColumns, db.timeframes, value, TimeframeQueryColumns) ==
        FirstTimeframeHit(db.online, db.timeframeColumns, db.timeframes, value, TimeframeQueryColumns[j..])
    {
      var q := QueryTimeframeId(db.online, db.timeframeColumns, db.timeframes, TimeframeQueryColumns[j], value);
      if Hit(q) {
        id := q.value;
        break;
      }
      assert TimeframeQueryColumns[j..][1..] == TimeframeQueryColumns[j + 1..];
      j := j + 1;
    }
  }

  // ---------------------------------------------------------------- frames

  /**
   * A row of a Yahoo Finance frame: its index as a time (`None` when
   * `pd.to_datetime` raises) and its price columns (`None` for a missing
   * column).
   */
  datatype FrameRow = FrameRow(time: Option<Time>, open: Option<Num>, high: Option<Num>, low: Option<Num>,
                               close: Option<Num>, volume: Option<Num>)

  /** The candle table after a run of inserts, whether the run finished, and the two counts it logs. */
  datatype FrameInsert = FrameInsert(candles: map<CandleKey, Ohlcv>, ok: bool, inserted: nat, skipped: nat)

  /** The prices a frame row inserts: `Volume` defaults to 0, a missing price column raises. */
  function FrameCandle(row: FrameRow): Option<Ohlcv> {
    if row.open.Some? && row.high.Some? && row.low.Some? && row.close.Some? then
      Some(Ohlcv(row.open.value, row.high.value, row.low.value, row.close.value,
        if row.volume.Some? then row.volume.value else Val(0.0)))
    else None
  }

  /** One iteration of `_insert_dataframe`: check the key, then insert or count a skip. */
  function InsertFrameRow(s: FrameInsert, online: bool, inst: int, tf: Cell, row: FrameRow): FrameInsert {
    if row.time.None? || !online then s.(ok := false)
    else
      var key := CandleKey(inst, tf, row.time.value);
      if key in s.candles then s.(skipped := s.skipped + 1)
      else
        match FrameCandle(row)
        case None => s.(ok := false)
        case Some(c) => s.(candles := s.candles[key := c], inserted := s.inserted + 1)
  }

  /**
   * `_insert_dataframe` over `rows`: each row's candle is inserted when its
   * key is absent and counted as skipped otherwise; the first row that
   * raises ends the run, keeping what was committed before it.
   */
  function InsertFrameRows(candles: map<CandleKey, Ohlcv>, online: bool, inst: int, tf: Cell, rows: seq<FrameRow>): (r: FrameInsert)
    ensures r.inserted + r.skipped <= |rows|
    ensures r.ok ==> r.inserted + r.skipped == |rows|
    decreases |rows|
  {
    if rows == [] then FrameInsert(candles, true, 0, 0)
    else
      var s := InsertFrameRows(candles, online, inst, tf, rows[..|rows| - 1]);
      if s.ok then InsertFrameRow(s, online, inst, tf, rows[|rows| - 1]) else s
  }

  /**
   * A run never modifies or removes a stored candle, and each candle it
   * adds belongs to this instrument and timeframe and to the time of one
   * of the rows.
   */
  lemma {:induction false} InsertFrameRowsKeeps(candles: map<CandleKey, Ohlcv>, online: bool, inst: int, tf: Cell, rows: seq<FrameRow>)
    ensures var r := InsertFrameRows(candles, online, inst, tf, rows);
      (forall k :: k in candles ==> k in r.candles && r.candles[k] == candles[k]) &&
      (forall k :: k in r.candles && k !in candles ==>
        k.instrumentId == inst && k.timeframeId == tf && exists i :: 0 <= i < |rows| && rows[i].time == Some(k.time))
    decreases |rows|
  {
    if rows != [] {
      var prefix := rows[..|rows| - 1];
      InsertFrameRowsKeeps(candles, online, inst, tf, prefix);
      assert forall i :: 0 <= i < |prefix| ==> prefix[i] == rows[i];
    }
  }

  /** The table grows by exactly the number of inserts the run counts. */
  lemma {:induction false} InsertFrameRowsGrowth(candles: map<CandleKey, Ohlcv>, online: bool, inst: int, tf: Cell, rows: seq<FrameRow>)
    ensures |InsertFrameRows(candles, online, inst, tf, rows).candles.Keys| ==
      |candles.Keys| + InsertFrameRows(candles, online, inst, tf, rows).inserted
    decreases |rows|
  {
    if rows != [] {
      var s := InsertFrameRows(candles, online, inst, tf, rows[..|rows| - 1]);
      InsertFrameRowsGrowth(candles, online, inst, tf, rows[..|rows| - 1]);
      var row := rows[|rows| - 1];
      if s.ok && row.time.Some? && online {
        var key := CandleKey(inst, tf, row.time.value);
        if key !in s.candles && FrameCandle(row).Some? {
          assert s.candles[key := FrameCandle(row).value].Keys == s.candles.Keys + {key};
        }
      }
    }
  }

  /** Once a run has stopped, the rows after the failing one change nothing. */
  lemma {:induction false} InsertFrameRowsStopped(candles: map<CandleKey, Ohlcv>, online: bool, inst: int, tf: Cell,
                                                  rows: seq<FrameRow>, n: nat)
    requires n <= |rows| && !InsertFrameRows(candles, online, inst, tf, rows[..n]).ok
    ensures InsertFrameRows(candles, online, inst, tf, rows) == InsertFrameRows(candles, online, inst, tf, rows[..n])
    decreases |rows|
  {
    if n < |rows| {
      assert rows[..|rows| - 1][..n] == rows[..n];
      InsertFrameRowsStopped(candles, online, inst, tf, rows[..|rows| - 1], n);
    } else {
      assert rows[..n] == rows;
    }
  }

  /** A finished run leaves a candle under the key of every row. */
  lemma {:induction false} InsertFrameRowsCovers(candles: map<CandleKey, Ohlcv>, online: bool, inst: int, tf: Cell, rows: seq<FrameRow>)
    requires InsertFrameRows(candles, online, inst, tf, rows).ok
    ensures online || rows == []
    ensures forall i :: 0 <= i < |rows| ==>
      rows[i].time.Some? && CandleKey(inst, tf, rows[i].time.value) in InsertFrameRows(candles, online, inst, tf, rows).candles
    decreases |rows|
  {
    if rows != [] {
      var prefix := rows[..|rows| - 1];
      InsertFrameRowsCovers(candles, online, inst, tf, prefix);
      assert forall i :: 0 <= i < |prefix| ==> prefix[i] == rows[i];
    }
  }

  /** Rows whose keys are all present are all skipped and change nothing. */
  lemma {:induction false} InsertFramePresentSkips(candles: map<CandleKey, Ohlcv>, online: bool, inst: int, tf: Cell, rows: seq<FrameRow>)
    requires online || rows == []
    requires forall i :: 0 <= i < |rows| ==> rows[i].time.Some? && CandleKey(inst, tf, rows[i].time.value) in candles
    ensures InsertFrameRows(candles, online, inst, tf, rows) == FrameInsert(candles, true, 0, |rows|)
    decreases |rows|
  {
    if rows != [] {
      var prefix := rows[..|rows| - 1];
      assert forall i :: 0 <= i < |prefix| ==> prefix[i] == rows[i];
      InsertFramePresentSkips(candles, online, inst, tf, prefix);
    }
  }

  /** Re-inserting the frame a finished run inserted adds nothing and skips every row. */
  lemma InsertFrameRowsIdempotent(candles: map<CandleKey, Ohlcv>, online: bool, inst: int, tf: Cell, rows: seq<FrameRow>)
    requires InsertFrameRows(candles, online, inst, tf, rows).ok
    ensures var after := InsertFrameRows(candles, online, inst, tf, rows).candles;
      InsertFrameRows(after, online, inst, tf, rows) == FrameInsert(after, true, 0, |rows|)
  {
    InsertFrameRowsCovers(candles, online, inst, tf, rows);
    InsertFramePresentSkips(InsertFrameRows(candles, online, inst, tf, rows).candles, online, inst, tf, rows);
  }

  /** The first row with time `t` among `rows`. */
  predicate FirstWithTime(rows: seq<FrameRow>, i: nat)
    requires i < |rows|
  {
    rows[i].time.Some? && forall j :: 0 <= j < i ==> rows[j].time != rows[i].time
  }

  /**
   * Within one frame a repeated time is stored once, from its first row:
   * the insert of the first row is committed before the later row's check
   * runs, so the later row is skipped.
   */
  lemma {:induction false} FirstOccurrenceWins(candles: map<CandleKey, Ohlcv>, online: bool, inst: int, tf: Cell,
                                               rows: seq<FrameRow>, i: nat)
    requires InsertFrameRows(candles, online, inst, tf, rows).ok
    requires i < |rows| && FirstWithTime(rows, i) && CandleKey(inst, tf, rows[i].time.value) !in candles
    ensures FrameCandle(rows[i]).Some?
    ensures CandleKey(inst, tf, rows[i].time.value) in InsertFrameRows(candles, online, inst, tf, rows).candles
    ensures InsertFrameRows(candles, online, inst, tf, rows).candles[CandleKey(inst, tf, rows[i].time.value)] ==
      FrameCandle(rows[i]).value
    decreases |rows|
  {
    var prefix := rows[..|rows| - 1];
    var key := CandleKey(inst, tf, rows[i].time.value);
    var s := InsertFrameRows(candles, online, inst, tf, prefix);
    assert s.ok;
    if i < |prefix| {
      assert prefix[i] == rows[i];
      assert FirstWithTime(prefix, i) by {
        assert forall j :: 0 <= j < i ==> prefix[j] == rows[j];
      }
      FirstOccurrenceWins(candles, online, inst, tf, prefix, i);
    } else {
      InsertFrameRowsKeeps(candles, online, inst, tf, prefix);
    }
  }

  /**
   * `_insert_dataframe`: the same run, row by row, against the table; the
   * counts are the ones the method logs.
   */
  method InsertDataframe(db: Database, inst: int, tf: Cell, rows: seq<FrameRow>) returns (ok: bool, inserted: nat, skipped: nat)
    modifies db`candles
    ensures FrameInsert(db.candles, ok, inserted, skipped) == InsertFrameRows(old(db.candles), db.online, inst, tf, rows)
  {
    inserted, skipped := 0, 0;
    for i := 0 to |rows|
      invariant FrameInsert(db.candles, true, inserted, skipped) == InsertFrameRows(old(db.candles), db.online, inst, tf, rows[..i])
    {
      assert rows[..i + 1][..i] == rows[..i];
      var row := rows[i];
      if row.time.None? || !db.online {
        InsertFrameRowsStopped(old(db.candles), db.online, inst, tf, rows, i + 1);
        return false, inserted, skipped;
      }
      var key := CandleKey(inst, tf, row.time.value);
      if key !in db.candles {
        var c := FrameCandle(row);
        if c.None? {
          InsertFrameRowsStopped(old(db.candles), db.online, inst, tf, rows, i + 1);
          return false, inserted, skipped;
        }
        db.candles := db.candles[key := c.value];
        inserted := inserted + 1;
      } else {
        skipped := skipped + 1;
      }
    }
    assert rows[..|rows|] == rows;
    ok := true;
  }

  // ---------------------------------------------------------------- tick lists

  /**
   * A tick of an exchange feed: its `timestamp` and `id` fields when
   * present, and its numeric fields by name.
   */
  datatype Tick = Tick(timestamp: Option<Time>, id: Option<Time>, fields: map<string, Num>)

  /** `timestamp` when present, else `id` read as UTC seconds; `None` skips the tick. */
  function TickTime(t: Tick): Option<Time> {
    if t.timestamp.Some? then t.timestamp else t.id
  }

  /** `tick.get(names[0], tick.get(names[1], ... 0))`: the first field present, else 0. */
  function Field(fields: map<string, Num>, names: seq<string>): (r: Num)
    ensures (forall j :: 0 <= j < |names| ==> names[j] !in fields) ==> r == Val(0.0)
    ensures forall j :: 0 <= j < |names| && names[j] in fields && (forall j' :: 0 <= j' < j ==> names[j'] !in fields) ==>
      r == fields[names[j]]
  {
    if names == [] then Val(0.0)
    else if names[0] in fields then fields[names[0]]
    else
      var r := Field(fields, names[1..]);
      assert forall j :: 0 < j < |names| ==> names[j] == names[1..][j - 1];
      r
  }

  /**
   * The prices a tick inserts: each price from its lower-case field, else
   * its capitalised field, else 0; volume from `vol`, `Volume`, `volume`.
   */
  function TickCandle(t: Tick): Ohlcv {
    Ohlcv(Field(t.fields, ["open", "Open"]), Field(t.fields, ["high", "High"]), Field(t.fields, ["low", "Low"]),
      Field(t.fields, ["close", "Close"]), Field(t.fields, ["vol", "Volume", "volume"]))
  }

  /** The candle table after a run over ticks and whether the run finished. */
  datatype ListInsert = ListInsert(candles: map<CandleKey, Ohlcv>, ok: bool)

  /**
   * `_insert_list_data` over `ticks`: a tick without a time is skipped, any
   * other tick's candle is inserted when its key is absent; a query that
   * raises ends the run.
   */
  function InsertTicks(candles: map<CandleKey, Ohlcv>, online: bool, inst: int, tf: Cell, ticks: seq<Tick>): (r: ListInsert)
    ensures forall k :: k in candles ==> k in r.candles && r.candles[k] == candles[k]
    ensures forall k :: k in r.candles && k !in candles ==>
      k.instrumentId == inst && k.timeframeId == tf && exists i :: 0 <= i < |ticks| && TickTime(ticks[i]) == Some(k.time)
    ensures r.ok ==> forall i :: 0 <= i < |ticks| && TickTime(ticks[i]).Some? ==>
      CandleKey(inst, tf, TickTime(ticks[i]).value) in r.candles
    decreases |ticks|
  {
    if ticks == [] then ListInsert(candles, true)
    else
      var prefix := ticks[..|ticks| - 1];
      var s := InsertTicks(candles, online, inst, tf, prefix);
      assert forall i :: 0 <= i < |prefix| ==> prefix[i] == ticks[i];
      var t := ticks[|ticks| - 1];
      if !s.ok then s
      else if TickTime(t).None? then s
      else if !online then s.(ok := false)
      else
        var key := CandleKey(inst, tf, TickTime(t).value);
        if key in s.candles then s else s.(candles := s.candles[key := TickCandle(t)])
  }

  /** Once a run over ticks has stopped, the later ticks change nothing. */
  lemma {:induction false} InsertTicksStopped(candles: map<CandleKey, Ohlcv>, online: bool, inst: int, tf: Cell,
                                              ticks: seq<Tick>, n: nat)
    requires n <= |ticks| && !InsertTicks(candles, online, inst, tf, ticks[..n]).ok
    ensures InsertTicks(candles, online, inst, tf, ticks) == InsertTicks(candles, online, inst, tf, ticks[..n])
    decreases |ticks|
  {
    if n < |ticks| {
      assert ticks[..|ticks| - 1][..n] == ticks[..n];
      InsertTicksStopped(candles, online, inst, tf, ticks[..|ticks| - 1], n);
    } else {
      assert ticks[..n] == ticks;
    }
  }

  /** With the database down, a run over ticks fails exactly when some tick has a time. */
  lemma {:induction false} InsertTicksOffline(candles: map<CandleKey, Ohlcv>, inst: int, tf: Cell, ticks: seq<Tick>)
    ensures !InsertTicks(candles, false, inst, tf, ticks).ok <==> exists i :: 0 <= i < |ticks| && TickTime(ticks[i]).Some?
    ensures InsertTicks(candles, false, inst, tf, ticks).candles == candles
    decreases |ticks|
  {
    if ticks != [] {
      var prefix := ticks[..|ticks| - 1];
      InsertTicksOffline(candles, inst, tf, prefix);
      assert forall i :: 0 <= i < |prefix| ==> prefix[i] == ticks[i];
    }
  }

  /** Tick `i` has a time no earlier tick has. */
  predicate FirstTickWithTime(ticks: seq<Tick>, i: nat)
    requires i < |ticks|
  {
    TickTime(ticks[i]).Some? && forall j :: 0 <= j < i ==> TickTime(ticks[j]) != TickTime(ticks[i])
  }

  /**
   * Within one list a repeated time is stored once, with the prices of its
   * first tick: the later tick finds the key present and is skipped.
   */
  lemma {:induction false} FirstTickWins(candles: map<CandleKey, Ohlcv>, online: bool, inst: int, tf: Cell,
                                         ticks: seq<Tick>, i: nat)
    requires InsertTicks(candles, online, inst, tf, ticks).ok
    requires i < |ticks| && FirstTickWithTime(ticks, i) && CandleKey(inst, tf, TickTime(ticks[i]).value) !in candles
    ensures CandleKey(inst, tf, TickTime(ticks[i]).value) in InsertTicks(candles, online, inst, tf, ticks).candles
    ensures InsertTicks(candles, online, inst, tf, ticks).candles[CandleKey(inst, tf, TickTime(ticks[i]).value)] ==
      TickCandle(ticks[i])
    decreases |ticks|
  {
    var prefix := ticks[..|ticks| - 1];
    var s := InsertTicks(candles, online, inst, tf, prefix);
    assert s.ok;
    if i < |prefix| {
      assert prefix[i] == ticks[i];
      assert FirstTickWithTime(prefix, i) by {
        assert forall j :: 0 <= j < i ==> prefix[j] == ticks[j];
      }
      FirstTickWins(candles, online, inst, tf, prefix, i);
    } else {
      assert forall j :: 0 <= j < |prefix| ==> prefix[j] == ticks[j];
    }
  }

  /** `_insert_list_data`: the same run against the table. */
  method InsertListData(db: Database, inst: int, tf: Cell, ticks: seq<Tick>) returns (ok: bool)
    modifies db`candles
    ensures ListInsert(db.candles, ok) == InsertTicks(old(db.candles), db.online, inst, tf, ticks)
  {
    for i := 0 to |ticks|
      invariant ListInsert(db.candles, true) == InsertTicks(old(db.candles), db.online, inst, tf, ticks[..i])
    {
      assert ticks[..i + 1][..i] == ticks[..i];
      var t := ticks[i];
      var time := TickTime(t);
      if time.None? {
        continue;
      }
      if !db.online {
        InsertTicksStopped(old(db.candles), db.online, inst, tf, ticks, i + 1);
        return false;
      }
      var key := CandleKey(inst, tf, time.value);
      if key !in db.candles {
        db.candles := db.candles[key := TickCandle(t)];
      }
    }
    assert ticks[..|ticks|] == ticks;
    ok := true;
  }

  // ---------------------------------------------------------------- entry point

  /** The data `insert_price_data` receives: a DataFrame, or anything else, read as a list of ticks. */
  datatype PriceData = FrameData(rows: seq<FrameRow>) | ListData(ticks: seq<Tick>)

  /**
   * What `insert_price_data` returns and leaves in the candle table: false
   * and nothing written when the database is down, the instrument is
   * unknown or no timeframe query yields a truthy id; otherwise the run
   * the data's type selects.
   */
  function PriceDataOutcome(online: bool, instruments: seq<InstrumentRow>, columns: seq<string>, timeframes: seq<Row>,
                            candles: map<CandleKey, Ohlcv>, symbol: string, timeframe: string, data: PriceData): (r: (bool, map<CandleKey, Ohlcv>))
    ensures forall k :: k in candles ==> k in r.1 && r.1[k] == candles[k]
    ensures !online || FindInstrumentCaseless(instruments, symbol).None? ==> r == (false, candles)
    ensures var tf := FirstTimeframeHit(online, columns, timeframes, timeframe, TimeframeQueryColumns);
      tf.None? || !Truthy(tf.value) ==> r == (false, candles)
    ensures var tf := FirstTimeframeHit(online, columns, timeframes, timeframe, TimeframeQueryColumns);
      online && FindInstrumentCaseless(instruments, symbol).Some? && tf.Some? && Truthy(tf.value) && data.ListData? ==> r.0
  {
    var inst := FindInstrumentCaseless(instruments, symbol);
    var tf := FirstTimeframeHit(online, columns, timeframes, timeframe, TimeframeQueryColumns);
    if !online || inst.None? || tf.None? || !Truthy(tf.value) then (false, candles)
    else
      match data
      case FrameData(rows) =>
        var s := InsertFrameRows(candles, online, inst.value, tf.value, rows);
        InsertFrameRowsKeeps(candles, online, inst.value, tf.value, rows);
        (s.ok, s.candles)
      case ListData(ticks) =>
        var s := InsertTicks(candles, online, inst.value, tf.value, ticks);
        InsertTicksOnline(candles, inst.value, tf.value, ticks);
        (s.ok, s.candles)
  }

  /**
   * A frame handed to `insert_price_data` adds only candles whose time is
   * the time of one of its rows.
   */
  lemma PriceDataFrameOrigin(online: bool, instruments: seq<InstrumentRow>, columns: seq<string>, timeframes: seq<Row>,
                             candles: map<CandleKey, Ohlcv>, symbol: string, timeframe: string, rows: seq<FrameRow>)
    ensures var after := PriceDataOutcome(online, instruments, columns, timeframes, candles, symbol, timeframe, FrameData(rows)).1;
      forall k :: k in after && k !in candles ==> exists i :: 0 <= i < |rows| && rows[i].time == Some(k.time)
  {
    var inst := FindInstrumentCaseless(instruments, symbol);
    var tf := FirstTimeframeHit(online, columns, timeframes, timeframe, TimeframeQueryColumns);
    if online && inst.Some? && tf.Some? && Truthy(tf.value) {
      InsertFrameRowsKeeps(candles, online, inst.value, tf.value, rows);
    }
  }

  /** With the database up, a run over ticks always finishes. */
  lemma {:induction false} InsertTicksOnline(candles: map<CandleKey, Ohlcv>, inst: int, tf: Cell, ticks: seq<Tick>)
    ensures InsertTicks(candles, true, inst, tf, ticks).ok
    decreases |ticks|
  {
    if ticks != [] {
      InsertTicksOnline(candles, inst, tf, ticks[..|ticks| - 1]);
    }
  }

  /** `insert_price_data`: resolve the instrument and timeframe ids, then dispatch on the data's type. */
  method InsertPriceData(db: Database, symbol: string, timeframe: string, data: PriceData) returns (ok: bool)
    modifies db`candles
    ensures (ok, db.candles) == PriceDataOutcome(db.online, db.instruments, db.timeframeColumns, db.timeframes,
      old(db.candles), symbol, timeframe, data)
  {
    if !db.online {
      return false;
    }
    var inst := FindInstrumentCaseless(db.instruments, symbol);
    if inst.None? {
      return false;
    }
    var tf := ResolveTimeframeId(db, timeframe);
    if tf.None? || !Truthy(tf.value) {
      return false;
    }
    match data
    case FrameData(rows) =>
      var inserted, skipped;
      ok, inserted, skipped := InsertDataframe(db, inst.value, tf.value, rows);
    case ListData(ticks) =>
      ok := InsertListData(db, inst.value, tf.value, ticks);
  }
}
