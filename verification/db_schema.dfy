/**
 * The PostgreSQL state the system shares (the instruments, timeframes,
 * candles and analytics_metrics tables) and the analytics schema manager of
 * crypto_trading_bot/analytics/db_schema.py: get-or-create of instruments
 * and timeframes, timeframe-name parsing and the discovery of which
 * timeframe columns hold the id and the name.
 */
module DbSchema {
  import opened Wrappers
  import opened Models
  import opened Text

  /** A row of `instruments`: `id SERIAL`, `symbol TEXT UNIQUE NOT NULL`, `name TEXT`. */
  datatype InstrumentRow = InstrumentRow(id: int, symbol: string, name: Cell)

  /** The price columns of a row of `candles`. */
  datatype Ohlcv = Ohlcv(open: Num, high: Num, low: Num, close: Num, volume: Num)

  /** A candle is identified by instrument, timeframe and candle time. */
  datatype CandleKey = CandleKey(instrumentId: int, timeframeId: Cell, time: Time)

  /** The UNIQUE key of `analytics_metrics`. */
  datatype MetricKey = MetricKey(
    instrumentId: int, timeframeId: Cell, metricType: string, window: int, displacement: int, time: Time)

  /** A row of `timeframes`, whose columns vary between installations. */
  type Row = map<string, Cell>

  /** The value a row holds in a column, NULL when the row has no such column. */
  function CellAt(row: Row, col: string): Cell {
    if col in row then row[col] else NullCell
  }

  /** `SELECT id FROM instruments WHERE symbol = %s`: the id of the first row with that exact symbol. */
  function FindInstrument(rows: seq<InstrumentRow>, symbol: string): (r: Option<int>)
    ensures r.Some? <==> exists i :: 0 <= i < |rows| && rows[i].symbol == symbol
    ensures r.Some? ==> exists i :: 0 <= i < |rows| && rows[i].symbol == symbol && rows[i].id == r.value
  {
    if rows == [] then None
    else if rows[0].symbol == symbol then Some(rows[0].id)
    else FindInstrument(rows[1..], symbol)
  }

  lemma {:induction false} FindInstrumentAppend(rows: seq<InstrumentRow>, row: InstrumentRow, symbol: string)
    requires FindInstrument(rows, symbol).None? && row.symbol == symbol
    ensures FindInstrument(rows + [row], symbol) == Some(row.id)
  {
    if rows != [] {
      assert (rows + [row])[1..] == rows[1..] + [row];
      FindInstrumentAppend(rows[1..], row, symbol);
    }
  }

  /**
   * `SELECT idCol FROM timeframes WHERE nameCol = value`, first row: the id
   * cell of the first row whose name column holds `value`.
   */
  function FindTimeframe(rows: seq<Row>, idCol: string, nameCol: string, value: Cell): (r: Option<Cell>)
    ensures r.Some? <==> exists i :: 0 <= i < |rows| && CellAt(rows[i], nameCol) == value
    ensures r.Some? ==>
      (exists i :: 0 <= i < |rows| && CellAt(rows[i], nameCol) == value &&
        (forall j :: 0 <= j < i ==> CellAt(rows[j], nameCol) != value) && r.value == CellAt(rows[i], idCol))
  {
    if rows == [] then None
    else if CellAt(rows[0], nameCol) == value then
      Some(CellAt(rows[0], idCol))
    else
      var r := FindTimeframe(rows[1..], idCol, nameCol, value);
      if r.Some? then
        var i :| 0 <= i < |rows[1..]| && CellAt(rows[1..][i], nameCol) == value &&
          (forall j :: 0 <= j < i ==> CellAt(rows[1..][j], nameCol) != value) && r.value == CellAt(rows[1..][i], idCol);
        assert forall j :: 0 <= j < i + 1 ==> CellAt(rows[j], nameCol) != value by {
          forall j | 0 <= j < i + 1 ensures CellAt(rows[j], nameCol) != value {
            if j > 0 {
              assert rows[j] == rows[1..][j - 1];
            }
          }
        }
        r
      else
        r
  }

  lemma {:induction false} FindTimeframeAppend(rows: seq<Row>, row: Row, idCol: string, nameCol: string, value: Cell)
    requires FindTimeframe(rows, idCol, nameCol, value).None? && CellAt(row, nameCol) == value
    ensures FindTimeframe(rows + [row], idCol, nameCol, value) == Some(CellAt(row, idCol))
  {
    if rows != [] {
      assert (rows + [row])[1..] == rows[1..] + [row];
      FindTimeframeAppend(rows[1..], row, idCol, nameCol, value);
    }
  }

  /** The column names `_resolve_timeframe_name_column` tries, in order. */
  const PreferredNameColumns: seq<string> := ["name", "interval_name", "timeframe_name", "code", "api_value", "timeframe"]

  /** The first preferred name that is a column, if any. */
  function FirstPreferred(preferred: seq<string>, columns: seq<string>): (r: Option<string>)
    ensures r.Some? <==> exists k :: 0 <= k < |preferred| && preferred[k] in columns
    ensures r.Some? ==>
      (exists k :: 0 <= k < |preferred| && preferred[k] == r.value && r.value in columns &&
        forall j :: 0 <= j < k ==> preferred[j] !in columns)
  {
    if preferred == [] then None
    else if preferred[0] in columns then
      Some(preferred[0])
    else
      var r := FirstPreferred(preferred[1..], columns);
      if r.Some? then
        var k :| 0 <= k < |preferred[1..]| && preferred[1..][k] == r.value && r.value in columns &&
          forall j :: 0 <= j < k ==> preferred[1..][j] !in columns;
        assert preferred[k + 1] == r.value;
        assert forall j :: 0 <= j < k + 1 ==> preferred[j] !in columns by {
          forall j | 0 <= j < k + 1 ensures preferred[j] !in columns {
            if j > 0 {
              assert preferred[j] == preferred[1..][j - 1];
            }
          }
        }
        r
      else
        r
  }

  /**
   * `_resolve_timeframe_name_column`: the first of name, interval_name,
   * timeframe_name, code, api_value, timeframe present among the columns;
   * failing that the second column; a table with one unmatched column raises.
   */
  function ResolveNameColumn(columns: seq<string>): (r: Result<string>)
    ensures r.Ok? ==> r.value in columns
    ensures r.Err? <==> (|columns| <= 1 && forall k :: 0 <= k < |PreferredNameColumns| ==> PreferredNameColumns[k] !in columns)
    ensures (exists k :: 0 <= k < |PreferredNameColumns| && PreferredNameColumns[k] in columns) ==>
      (r.Ok? &&
        (exists k :: 0 <= k < |PreferredNameColumns| && PreferredNameColumns[k] == r.value &&
          forall j :: 0 <= j < k ==> PreferredNameColumns[j] !in columns))
    ensures (forall k :: 0 <= k < |PreferredNameColumns| ==> PreferredNameColumns[k] !in columns) && |columns| > 1 ==>
      r == Ok(columns[1])
  {
    var p := FirstPreferred(PreferredNameColumns, columns);
    if p.Some? then Ok(p.value)
    else if |columns| > 1 then Ok(columns[1])
    else Err("ValueError: cannot determine the timeframe name column")
  }

  /** `_resolve_timeframe_id_column`: `id` when present, else the first column. */
  function ResolveIdColumn(columns: seq<string>): (r: string)
    requires |columns| > 0
    ensures r in columns
    ensures r == "id" <==> "id" in columns || columns[0] == "id"
    ensures "id" !in columns ==> r == columns[0]
  {
    if "id" in columns then "id" else columns[0]
  }

  /**
   * `_timeframe_to_seconds`: after lower-casing, a number followed by m, h,
   * d or w (minutes, hours, days, weeks) or by "mo" (30-day months); any
   * other ending gives 0. A prefix that `int()` rejects raises, modelled as
   * `Err`. The suffixes are tested in that order, so "1M" is one minute.
   */
  function TimeframeToSeconds(name: string): (r: Result<int>)
    ensures (!EndsWith(Lower(name), "m") && !EndsWith(Lower(name), "h") && !EndsWith(Lower(name), "d") &&
             !EndsWith(Lower(name), "w") && !EndsWith(Lower(name), "mo")) ==> r == Ok(0)
  {
    LoweredToSeconds(Lower(name))
  }

  /** The suffix tests of `_timeframe_to_seconds`, on the already lower-cased code. */
  function LoweredToSeconds(s: string): Result<int> {
    if EndsWith(s, "m") then Scaled(ParseInt(DropLast(s, 1)), 60)
    else if EndsWith(s, "h") then Scaled(ParseInt(DropLast(s, 1)), 3600)
    else if EndsWith(s, "d") then Scaled(ParseInt(DropLast(s, 1)), 86400)
    else if EndsWith(s, "w") then Scaled(ParseInt(DropLast(s, 1)), 604800)
    else if EndsWith(s, "mo") then Scaled(ParseInt(DropLast(s, 2)), 2592000)
    else Ok(0)
  }

  function Scaled(n: Option<int>, unit: int): (r: Result<int>)
    ensures n.Some? <==> r.Ok?
    ensures n.Some? ==> r.value == n.value * unit
  {
    if n.Some? then Ok(n.value * unit) else Err("ValueError: invalid literal for int()")
  }

  lemma LowerDigitsThen(d: string, suffix: string)
    requires forall i :: 0 <= i < |d| ==> IsDigit(d[i])
    ensures Lower(d + suffix) == d + Lower(suffix)
  {
  }

  lemma EndsWithLast(s: string, c: char)
    ensures EndsWith(s, [c]) <==> |s| > 0 && s[|s| - 1] == c
  {
    if |s| > 0 && s[|s| - 1] == c {
      assert s[|s| - 1..] == [c];
    }
  }

  /** On a lower-cased code: digits and a one-letter unit. */
  lemma LoweredLetter(d: string, unit: char, seconds: int)
    requires |d| > 0 && forall i :: 0 <= i < |d| ==> IsDigit(d[i])
    requires (unit == 'm' && seconds == 60) || (unit == 'h' && seconds == 3600) ||
             (unit == 'd' && seconds == 86400) || (unit == 'w' && seconds == 604800)
    ensures LoweredToSeconds(d + [unit]) == Ok(DigitsValue(d) * seconds)
  {
    var s := d + [unit];
    assert DropLast(s, 1) == d;
    ParseIntDigits(d);
    EndsWithLast(s, 'm');
    EndsWithLast(s, 'h');
    EndsWithLast(s, 'd');
    EndsWithLast(s, 'w');
  }

  /** On a lower-cased code: digits and "mo". */
  lemma LoweredMonths(d: string)
    requires |d| > 0 && forall i :: 0 <= i < |d| ==> IsDigit(d[i])
    ensures LoweredToSeconds(d + "mo") == Ok(DigitsValue(d) * 2592000)
  {
    var s := d + "mo";
    assert s[|s| - 1] == 'o';
    EndsWithLast(s, 'm');
    EndsWithLast(s, 'h');
    EndsWithLast(s, 'd');
    EndsWithLast(s, 'w');
    assert s[|s| - 2..] == "mo";
    assert DropLast(s, 2) == d;
    ParseIntDigits(d);
  }

  /** Digits followed by a one-letter unit m, h, d or w (either case): the count times the unit. */
  lemma TimeframeToSecondsLetter(d: string, unit: char, seconds: int)
    requires |d| > 0 && forall i :: 0 <= i < |d| ==> IsDigit(d[i])
    requires (LowerChar(unit) == 'm' && seconds == 60) || (LowerChar(unit) == 'h' && seconds == 3600) ||
             (LowerChar(unit) == 'd' && seconds == 86400) || (LowerChar(unit) == 'w' && seconds == 604800)
    ensures TimeframeToSeconds(d + [unit]) == Ok(DigitsValue(d) * seconds)
  {
    LowerDigitsThen(d, [unit]);
    assert Lower(d + [unit]) == d + [LowerChar(unit)];
    LoweredLetter(d, LowerChar(unit), seconds);
  }

  /** Digits followed by "mo" (either case): the count times 30 days. */
  lemma TimeframeToSecondsMonths(d: string, mo: string)
    requires |d| > 0 && forall i :: 0 <= i < |d| ==> IsDigit(d[i])
    requires Lower(mo) == "mo"
    ensures TimeframeToSeconds(d + mo) == Ok(DigitsValue(d) * 2592000)
  {
    LowerDigitsThen(d, mo);
    LoweredMonths(d);
  }

  /** The usual codes: fifteen minutes and four hours. */
  lemma TimeframeToSecondsExamples()
    ensures TimeframeToSeconds("15m") == Ok(900)
    ensures TimeframeToSeconds("4h") == Ok(14400)
  {
    TimeframeToSecondsLetter("15", 'm', 60);
    assert "15" + ['m'] == "15m";
    TimeframeToSecondsLetter("4", 'h', 3600);
    assert "4" + ['h'] == "4h";
  }

  /** The code is lower-cased first and "m" is tested before "mo", so "1M" is one minute, not one month. */
  lemma TimeframeToSecondsCapitalM()
    ensures TimeframeToSeconds("1M") == Ok(60)
  {
    TimeframeToSecondsLetter("1", 'M', 60);
    assert "1" + ['M'] == "1M";
  }

  /** "1mo" is thirty days. */
  lemma TimeframeToSecondsMonth()
    ensures TimeframeToSeconds("1mo") == Ok(2592000)
  {
    assert Lower("mo") == "mo";
    assert "1" + "mo" == "1mo";
    assert DigitsValue("1") == 1;
    TimeframeToSecondsMonths("1", "mo");
  }

  /** A unit without a count makes `int('')` raise. */
  /** `int()` skips spaces around the count and reads underscores between its digits: " 5m" is 300 seconds, "1_0m" is 600. */
  lemma TimeframeToSecondsSpacedOrGrouped()
    ensures TimeframeToSeconds(" 5m") == Ok(300)
    ensures TimeframeToSeconds("1_0m") == Ok(600)
  {
    assert Lower(" 5m") == " 5m";
    EndsWithLast(" 5m", 'm');
    assert DropLast(" 5m", 1) == " " + "5" + "";
    ParseIntSpaced(" ", "5", "");
    ParseIntDigits("5");
    assert DigitsValue("5") == 5;
    assert Lower("1_0m") == "1_0m";
    EndsWithLast("1_0m", 'm');
    assert DropLast("1_0m", 1) == "1" + "_" + "0";
    ParseIntGrouped("1", "0");
    assert DigitsValue("1" + "0") == 10 by {
      assert ("1" + "0")[..1] == "1";
    }
  }

  lemma TimeframeToSecondsNoCount()
    ensures TimeframeToSeconds("m").Err?
  {
    assert Lower("m") == "m";
    EndsWithLast("m", 'm');
    assert DropLast("m", 1) == "";
  }

  /**
   * The row `INSERT INTO timeframes (nameCol[, seconds]) VALUES (...)`
   * creates: the name, the seconds when given, the next serial value in
   * `id`, NULL elsewhere.
   */
  function NewTimeframeRow(cols: seq<string>, nameCol: string, name: string, secs: Option<int>, nextId: int): (row: Row)
    requires nameCol in cols
    ensures row.Keys == set c | c in cols
    ensures CellAt(row, nameCol) == TextCell(name)
    ensures "id" in cols && nameCol != "id" ==> CellAt(row, "id") == IntCell(nextId)
    ensures "seconds" in cols && nameCol != "seconds" ==>
      CellAt(row, "seconds") == if secs.Some? then IntCell(secs.value) else NullCell
    ensures forall c :: c in cols && c != nameCol && c != "seconds" && c != "id" ==> CellAt(row, c) == NullCell
  {
    map c | c in cols ::
      if c == nameCol then TextCell(name)
      else if c == "seconds" && secs.Some? then IntCell(secs.value)
      else if c == "id" then IntCell(nextId)
      else NullCell
  }

  /** The `seconds` value `ensure_timeframe` inserts: given only when the table has that column. */
  function SecondsFor(cols: seq<string>, name: string): Option<int> {
    if "seconds" in cols && TimeframeToSeconds(name).Ok? then Some(TimeframeToSeconds(name).value) else None
  }

  /** Symbols are unique and every id is distinct and below the serial counter. */
  predicate InstrumentsValid(rows: seq<InstrumentRow>, nextId: int) {
    (forall i, j :: 0 <= i < j < |rows| ==> rows[i].symbol != rows[j].symbol && rows[i].id != rows[j].id) &&
    (forall i :: 0 <= i < |rows| ==> rows[i].id < nextId)
  }

  /** Inserting a new symbol under the next serial id keeps the table valid. */
  lemma InstrumentsValidAppend(rows: seq<InstrumentRow>, nextId: int, symbol: string)
    requires InstrumentsValid(rows, nextId) && FindInstrument(rows, symbol).None?
    ensures InstrumentsValid(rows + [InstrumentRow(nextId, symbol, TextCell(symbol))], nextId + 1)
  {
    var rows' := rows + [InstrumentRow(nextId, symbol, TextCell(symbol))];
    forall i, j | 0 <= i < j < |rows'| ensures rows'[i].symbol != rows'[j].symbol && rows'[i].id != rows'[j].id {
      assert rows'[i] == rows[i];
      if j < |rows| {
        assert rows'[j] == rows[j];
      }
    }
  }

  /** Every timeframe row has exactly the table's columns. */
  predicate TimeframesValid(rows: seq<Row>, columns: seq<string>) {
    forall k :: 0 <= k < |rows| ==> rows[k].Keys == set c | c in columns
  }

  lemma TimeframesValidAppend(rows: seq<Row>, columns: seq<string>, row: Row)
    requires TimeframesValid(rows, columns) && row.Keys == set c | c in columns
    ensures TimeframesValid(rows + [row], columns)
  {
    forall k | 0 <= k < |rows| + 1 ensures (rows + [row])[k].Keys == set c | c in columns {
      if k < |rows| {
        assert (rows + [row])[k] == rows[k];
      }
    }
  }

  /** The id stored for a timeframe name, looked up through the resolved id and name columns. */
  function LookupIn(columns: seq<string>, rows: seq<Row>, name: string): Option<Cell> {
    if columns == [] then None
    else
      var nameCol := ResolveNameColumn(columns);
      if nameCol.Err? then None
      else FindTimeframe(rows, ResolveIdColumn(columns), nameCol.value, TextCell(name))
  }

  lemma LookupInResolved(columns: seq<string>, rows: seq<Row>, name: string, idCol: string, nameCol: string)
    requires columns != [] && idCol == ResolveIdColumn(columns) && ResolveNameColumn(columns) == Ok(nameCol)
    ensures LookupIn(columns, rows, name) == FindTimeframe(rows, idCol, nameCol, TextCell(name))
  {
  }

  /** Appending a row with the table's columns and a new name keeps the table valid and makes the name found. */
  lemma TimeframeInserted(rows: seq<Row>, columns: seq<string>, name: string, idCol: string, nameCol: string, row: Row)
    requires TimeframesValid(rows, columns) && row.Keys == set c | c in columns
    requires columns != [] && idCol == ResolveIdColumn(columns) && ResolveNameColumn(columns) == Ok(nameCol)
    requires FindTimeframe(rows, idCol, nameCol, TextCell(name)).None? && CellAt(row, nameCol) == TextCell(name)
    ensures TimeframesValid(rows + [row], columns)
    ensures LookupIn(columns, rows + [row], name) == Some(CellAt(row, idCol))
    ensures (rows + [row])[..|rows|] == rows
  {
    FindTimeframeAppend(rows, row, idCol, nameCol, TextCell(name));
    TimeframesValidAppend(rows, columns, row);
    LookupInResolved(columns, rows + [row], name, idCol, nameCol);
  }

  /**
   * Whether `ensure_timeframe(name)` returns rather than raises, given the
   * connection, the table's columns and rows, and whether an insert is refused.
   */
  predicate TimeframeCreatable(online: bool, columns: seq<string>, rows: seq<Row>, insertFails: bool, name: string) {
    online && columns != [] && ResolveNameColumn(columns).Ok? &&
    (LookupIn(columns, rows, name).Some? ||
     (("seconds" in columns ==> TimeframeToSeconds(name).Ok?) && !insertFails))
  }

  /**
   * The shared database. `online` false makes every statement raise;
   * `timeframeInsertFails` stands for a `timeframes` table that refuses a
   * row carrying only a name and seconds (another NOT NULL column without a
   * default, say).
   */
  class Database {
    var online: bool
    var instruments: seq<InstrumentRow>
    var nextInstrumentId: int
    var timeframeColumns: seq<string>
    var timeframes: seq<Row>
    var nextTimeframeId: int
    var timeframeInsertFails: bool
    var candles: map<CandleKey, Ohlcv>
    var metrics: map<MetricKey, real>

    /** Symbols are unique, ids come from the serial counter, every timeframe row has the table's columns. */
    predicate Valid()
      reads this`instruments, this`nextInstrumentId, this`timeframes, this`timeframeColumns
    {
      InstrumentsValid(instruments, nextInstrumentId) && TimeframesValid(timeframes, timeframeColumns)
    }

    /** A database created by `ensure_schema`: empty tables, and the timeframes columns given. */
    constructor (columns: seq<string>)
      ensures Valid() && online && !timeframeInsertFails
      ensures instruments == [] && timeframes == [] && candles == map[] && metrics == map[]
      ensures timeframeColumns == columns
    {
      online := true;
      instruments := [];
      nextInstrumentId := 1;
      timeframeColumns := columns;
      timeframes := [];
      nextTimeframeId := 1;
      timeframeInsertFails := false;
      candles := map[];
      metrics := map[];
    }

    /** `_get_table_columns('timeframes')`: raises for a missing table. */
    function TableColumns(): (r: Result<seq<string>>)
      reads this`online, this`timeframeColumns
      ensures r.Ok? <==> online && timeframeColumns != []
      ensures r.Ok? ==> r.value == timeframeColumns
    {
      if !online then Err("database error")
      else if timeframeColumns == [] then Err("ValueError: table timeframes not found")
      else Ok(timeframeColumns)
    }

    /** The id stored for a timeframe name, looked up through the resolved id and name columns. */
    function LookupTimeframe(name: string): Option<Cell>
      reads this`timeframeColumns, this`timeframes
    {
      LookupIn(timeframeColumns, timeframes, name)
    }

    /** Whether `ensure_timeframe(name)` returns rather than raises in this state. */
    predicate CanEnsureTimeframe(name: string)
      reads this`online, this`timeframeColumns, this`timeframes, this`timeframeInsertFails
    {
      TimeframeCreatable(online, timeframeColumns, timeframes, timeframeInsertFails, name)
    }

    /**
     * `ensure_instrument`: the id of the row with exactly this symbol, or
     * the id of a newly inserted row `(symbol, name = symbol)`.
     */
    method EnsureInstrument(symbol: string) returns (r: Result<int>)
      requires Valid()
      modifies this`instruments, this`nextInstrumentId
      ensures Valid()
      ensures r.Ok? <==> old(online)
      ensures r.Ok? ==> FindInstrument(instruments, symbol) == Some(r.value)
      ensures old(FindInstrument(instruments, symbol)).Some? || !old(online) ==>
        instruments == old(instruments) && nextInstrumentId == old(nextInstrumentId)
      ensures old(online) && old(FindInstrument(instruments, symbol)).Some? ==>
        r == Ok(old(FindInstrument(instruments, symbol)).value)
      ensures old(online) && old(FindInstrument(instruments, symbol)).None? ==>
        instruments == old(instruments) + [InstrumentRow(old(nextInstrumentId), symbol, TextCell(symbol))] &&
        nextInstrumentId == old(nextInstrumentId) + 1 && r == Ok(old(nextInstrumentId))
    {
      if !online {
        return Err("database error");
      }
      var found := FindInstrument(instruments, symbol);
      if found.Some? {
        return Ok(found.value);
      }
      // INSERT ... ON CONFLICT (symbol) DO UPDATE ... RETURNING id always yields the row,
      // so the re-select fallback of the source is never reached here.
      var id := nextInstrumentId;
      var row := InstrumentRow(id, symbol, TextCell(symbol));
      FindInstrumentAppend(instruments, row, symbol);
      InstrumentsValidAppend(instruments, nextInstrumentId, symbol);
      instruments := instruments + [row];
      nextInstrumentId := nextInstrumentId + 1;
      r := Ok(id);
    }

    /**
     * `ensure_timeframe`: resolve the id and name columns, return the id of
     * the row holding the name, or insert a row (with `seconds` filled in
     * when the table has that column) and return the id the insert reports.
     * A refused insert is rolled back; the re-select then finds nothing and
     * the call raises.
     */
    method EnsureTimeframe(name: string) returns (r: Result<Cell>)
      requires Valid()
      modifies this`timeframes, this`nextTimeframeId
      ensures Valid()
      ensures r.Ok? <==> old(CanEnsureTimeframe(name))
      ensures r.Ok? ==> LookupTimeframe(name) == Some(r.value)
      ensures old(LookupTimeframe(name)).Some? && old(online) ==>
        r == Ok(old(LookupTimeframe(name)).value) && timeframes == old(timeframes)
      ensures r.Err? ==> timeframes == old(timeframes)
      ensures CanEnsureTimeframe(name) == old(CanEnsureTimeframe(name))
      ensures timeframes == old(timeframes) ==> nextTimeframeId == old(nextTimeframeId)
      ensures timeframes == old(timeframes) ||
        (timeframeColumns != [] && ResolveNameColumn(timeframeColumns).Ok? &&
         timeframes == old(timeframes) + [NewTimeframeRow(timeframeColumns, ResolveNameColumn(timeframeColumns).value,
           name, SecondsFor(timeframeColumns, name), old(nextTimeframeId))] &&
         nextTimeframeId == old(nextTimeframeId) + 1 && old(LookupTimeframe(name)).None? && r.Ok?)
    {
      ghost var can := CanEnsureTimeframe(name);
      var columns := TableColumns();
      if columns.Err? {
        assert !can;
        return Err(columns.error);
      }
      var cols := columns.value;
      var idCol := ResolveIdColumn(cols);
      var nameCol := ResolveNameColumn(cols);
      if nameCol.Err? {
        assert !can;
        return Err(nameCol.error);
      }
      var existing := FindTimeframe(timeframes, idCol, nameCol.value, TextCell(name));
      assert existing == LookupTimeframe(name);
      if existing.Some? {
        return Ok(existing.value);
      }
      var secs: Option<int> := None;
      if "seconds" in cols {
        var s := TimeframeToSeconds(name);
        if s.Err? {
          assert !can;
          return Err(s.error);
        }
        secs := Some(s.value);
      }
      if timeframeInsertFails {
        assert !can;
        return Err("ValueError: cannot create or fetch timeframe");
      }
      assert can;
      assert secs == SecondsFor(cols, name);
      var id := InsertTimeframe(cols, idCol, nameCol.value, name, secs);
      r := Ok(id);
    }

    /**
     * The `INSERT ... RETURNING` of `ensure_timeframe` for a name not yet
     * stored: the new row goes at the end and the lookup then finds its id.
     */
    method InsertTimeframe(cols: seq<string>, idCol: string, nameCol: string, name: string, secs: Option<int>)
      returns (id: Cell)
      requires Valid() && cols == timeframeColumns && cols != []
      requires idCol == ResolveIdColumn(cols) && ResolveNameColumn(cols) == Ok(nameCol)
      requires FindTimeframe(timeframes, idCol, nameCol, TextCell(name)).None?
      modifies this`timeframes, this`nextTimeframeId
      ensures Valid()
      ensures LookupTimeframe(name) == Some(id)
      ensures timeframes == old(timeframes) + [NewTimeframeRow(cols, nameCol, name, secs, old(nextTimeframeId))]
      ensures nextTimeframeId == old(nextTimeframeId) + 1
    {
      var row := NewTimeframeRow(cols, nameCol, name, secs, nextTimeframeId);
      TimeframeInserted(timeframes, cols, name, idCol, nameCol, row);
      timeframes := timeframes + [row];
      nextTimeframeId := nextTimeframeId + 1;
      id := CellAt(row, idCol);
      assert TimeframesValid(timeframes, timeframeColumns) && LookupIn(cols, timeframes, name) == Some(id);
    }
  }
}
