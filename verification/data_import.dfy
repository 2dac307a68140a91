/**
 * Reading the shared tables (crypto_trading_bot/database/data_import.py,
 * `DataImport`): the instrument list, the timeframe list with its own
 * discovery of the id and name columns, and the candles of one instrument
 * and timeframe in time order. Every read returns [] when its query raises.
 */
module DataImport {
  import opened Wrappers
  import opened Models
  import opened Text
  import opened Sorting
  import opened DbSchema

  /** The `(id, symbol)` pair of every instrument row, in table order. */
  function Listed(rows: seq<InstrumentRow>): (r: seq<Instrument>)
    ensures |r| == |rows|
  {
    seq(|rows|, i requires 0 <= i < |rows| => Instrument(rows[i].id, rows[i].symbol))
  }

  /** `get_instruments`: every instrument in table order, [] when the query raises. */
  function GetInstruments(db: Database): (r: seq<Instrument>)
    reads db`online, db`instruments
    ensures !db.online ==> r == []
    ensures db.online ==> |r| == |db.instruments|
  {
    if db.online then Listed(db.instruments) else []
  }

  /**
   * In a valid table the listing agrees with the symbol lookup: every
   * listed symbol looks up to its listed id, and every stored symbol is
   * listed.
   */
  lemma ListedAgreesWithLookup(rows: seq<InstrumentRow>, nextId: int)
    requires InstrumentsValid(rows, nextId)
    ensures forall i :: 0 <= i < |rows| ==> FindInstrument(rows, Listed(rows)[i].symbol) == Some(Listed(rows)[i].id)
    ensures forall s :: FindInstrument(rows, s).Some? ==>
      exists i :: 0 <= i < |rows| && Listed(rows)[i].symbol == s
  {
    var r := Listed(rows);
    forall i | 0 <= i < |rows|
      ensures FindInstrument(rows, r[i].symbol) == Some(r[i].id)
    {
      var found := FindInstrument(rows, r[i].symbol);
      assert r[i].symbol == rows[i].symbol;
      var k :| 0 <= k < |rows| && rows[k].symbol == r[i].symbol && rows[k].id == found.value;
      assert k == i;
    }
    forall s | FindInstrument(rows, s).Some?
      ensures exists i :: 0 <= i < |rows| && r[i].symbol == s
    {
      var k :| 0 <= k < |rows| && rows[k].symbol == s;
      assert r[k].symbol == s;
    }
  }

  /** The lower-cased names `get_timeframes` recognises as a name column. */
  const NameLike: seq<string> := ["name", "interval_name", "timeframe_name", "interval", "timeframe"]

  /** The first column, in table order, whose lower-cased name is recognised. */
  function FirstNameLike(columns: seq<string>): (r: Option<string>)
    ensures r.None? <==> forall j :: 0 <= j < |columns| ==> Lower(columns[j]) !in NameLike
    ensures r.Some? ==> exists j :: (0 <= j < |columns| && columns[j] == r.value && Lower(r.value) in NameLike &&
      forall j' :: 0 <= j' < j ==> Lower(columns[j']) !in NameLike)
  {
    if columns == [] then None
    else if Lower(columns[0]) in NameLike then Some(columns[0])
    else
      var r := FirstNameLike(columns[1..]);
      assert forall j :: 0 < j < |columns| ==> columns[j] == columns[1..][j - 1];
      if r.Some? then
        var j :| 0 <= j < |columns[1..]| && columns[1..][j] == r.value && Lower(r.value) in NameLike &&
          forall j' :: 0 <= j' < j ==> Lower(columns[1..][j']) !in NameLike;
        assert forall j' :: 0 <= j' < j + 1 ==> Lower(columns[j']) !in NameLike by {
          forall j' | 0 <= j' < j + 1
            ensures Lower(columns[j']) !in NameLike
          {
            if j' > 0 {
              assert columns[j'] == columns[1..][j' - 1];
            }
          }
        }
        r
      else r
  }

  /**
   * The name column `get_timeframes` settles on: the first recognised
   * column, else the second column; `None` (an empty name counting as
   * none) when neither exists.
   */
  function TimeframeNameColumn(columns: seq<string>): (r: Option<string>)
    ensures r.Some? ==> r.value in columns && r.value != ""
    ensures FirstNameLike(columns).None? && |columns| <= 1 ==> r.None?
  {
    var found := FirstNameLike(columns);
    if found.Some? then
      assert found.value != "" by {
        assert Lower(found.value) in NameLike;
      }
      found
    else if |columns| > 1 && columns[1] != "" then Some(columns[1])
    else None
  }

  /**
   * What `get_timeframes` returns for a state: [] when the query raises,
   * the table has no columns or no name column is found; otherwise the
   * `(id, name)` pair of every row, the id from the first column.
   */
  function TimeframesListing(online: bool, columns: seq<string>, rows: seq<Row>): (r: seq<(Cell, Cell)>)
    ensures !online || columns == [] || TimeframeNameColumn(columns).None? ==> r == []
    ensures online && columns != [] && TimeframeNameColumn(columns).Some? ==>
      |r| == |rows| &&
      forall i :: 0 <= i < |rows| ==>
        r[i] == (CellAt(rows[i], columns[0]), CellAt(rows[i], TimeframeNameColumn(columns).value))
  {
    if !online || columns == [] then []
    else
      match TimeframeNameColumn(columns)
      case None => []
      case Some(nameCol) =>
        seq(|rows|, i requires 0 <= i < |rows| => (CellAt(rows[i], columns[0]), CellAt(rows[i], nameCol)))
  }

  /**
   * `get_timeframes`: read the columns, take the first as the id, search
   * the columns for a name column, then list the pairs.
   */
  method GetTimeframes(db: Database) returns (r: seq<(Cell, Cell)>)
    ensures r == TimeframesListing(db.online, db.timeframeColumns, db.timeframes)
  {
    if !db.online {
      return [];
    }
    var columns := db.timeframeColumns;
    if columns == [] {
      return [];
    }
    var idCol := columns[0];
    var nameCol: Option<string> := None;
    var j := 0;
    while j < |columns|
      invariant 0 <= j <= |columns|
      invariant FirstNameLike(columns) == FirstNameLike(columns[j..])
    {
      if Lower(columns[j]) in NameLike {
        nameCol := Some(columns[j]);
        break;
      }
      assert columns[j..][1..] == columns[j + 1..];
      j := j + 1;
    }
    if nameCol.None? && |columns| > 1 {
      nameCol := Some(columns[1]);
    }
    if nameCol.None? || nameCol.value == "" {
      return [];
    }
    var rows := db.timeframes;
    r := seq(|rows|, i requires 0 <= i < |rows| => (CellAt(rows[i], idCol), CellAt(rows[i], nameCol.value)));
  }

  /**
   * The search is by table order, not by preference: with a `timeframe`
   * column before a `name` column this read takes `timeframe` while the
   * schema manager takes `name`, so the two can read different names.
   */
  lemma NameColumnByTableOrder()
    ensures TimeframeNameColumn(["id", "timeframe", "name"]) == Some("timeframe")
    ensures ResolveNameColumn(["id", "timeframe", "name"]) == Ok("name")
  {
    assert Lower("timeframe") == "timeframe";
    assert Lower("id") == "id";
    assert FirstNameLike(["id", "timeframe", "name"]) == Some("timeframe") by {
      assert ["id", "timeframe", "name"][1..] == ["timeframe", "name"];
    }
    assert FirstPreferred(PreferredNameColumns, ["id", "timeframe", "name"]) == Some("name");
  }

  /** The candles stored for one instrument and timeframe, as (time, prices) pairs. */
  function CandleSeries(candles: map<CandleKey, Ohlcv>, inst: int, tf: Cell): set<(Time, Ohlcv)> {
    set k | k in candles && k.instrumentId == inst && k.timeframeId == tf :: (k.time, candles[k])
  }

  /** Candles of one instrument and timeframe differ in time, so no two pairs share one. */
  lemma CandleSeriesDistinct(candles: map<CandleKey, Ohlcv>, inst: int, tf: Cell)
    ensures DistinctTimes(CandleSeries(candles, inst, tf))
  {
    var series := CandleSeries(candles, inst, tf);
    forall e, e' | e in series && e' in series && e.0 == e'.0
      ensures e == e'
    {
      var k :| k in candles && k.instrumentId == inst && k.timeframeId == tf && e == (k.time, candles[k]);
      var k' :| k' in candles && k'.instrumentId == inst && k'.timeframeId == tf && e' == (k'.time, candles[k']);
      assert k == k';
    }
  }

  /**
   * `get_price_data`: the candles of the instrument and timeframe by
   * ascending `candle_time`, each once; [] when the query raises.
   */
  method GetPriceData(db: Database, inst: int, tf: Cell) returns (r: seq<(Time, Ohlcv)>)
    ensures !db.online ==> r == []
    ensures db.online ==> Listing(r, CandleSeries(db.candles, inst, tf))
  {
    if !db.online {
      return [];
    }
    CandleSeriesDistinct(db.candles, inst, tf);
    r := OrderByTime(CandleSeries(db.candles, inst, tf));
  }
}
