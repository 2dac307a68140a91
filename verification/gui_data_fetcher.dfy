/**
 * The chart's view of the database (gui/data_fetcher.py, `DataFetcher`):
 * instruments and timeframes as records, and the linear searches that
 * turn a symbol or an interval name into an id.
 */
module GuiDataFetcher {
  import opened Wrappers
  import opened Models
  import opened DbSchema
  import DataImport

  /** `get_instruments`: one `Instrument` per `(id, symbol)` row, in order. */
  function GetInstruments(db: Database): (r: seq<Instrument>)
    reads db`online, db`instruments
    ensures !db.online ==> r == []
    ensures db.online ==> (|r| == |db.instruments| &&
      forall i :: 0 <= i < |r| ==> r[i].id == db.instruments[i].id && r[i].symbol == db.instruments[i].symbol)
  {
    DataImport.GetInstruments(db)
  }

  /** A raw timeframe row `get_timeframes` accepts: a tuple of two or more, or an object with `id` and `interval_name`. */
  predicate Accepted(o: Obj) {
    (o.TupleObj? && |o.items| >= 2) || (HasAttr(o, "id") && HasAttr(o, "interval_name"))
  }

  /** The `Timeframe` built from an accepted row. */
  function ToTimeframe(o: Obj): (tf: Obj)
    requires Accepted(o)
  {
    if o.TupleObj? then TimeframeRecord(o.items[0], o.items[1])
    else TimeframeRecord(GetAttr(o, "id"), GetAttr(o, "interval_name"))
  }

  /** The records `get_timeframes` builds from raw rows: accepted rows converted, the rest dropped, order kept. */
  function Timeframes(data: seq<Obj>): (r: seq<Obj>)
    ensures |r| <= |data|
  {
    if data == [] then []
    else
      var last := data[|data| - 1];
      Timeframes(data[..|data| - 1]) + (if Accepted(last) then [ToTimeframe(last)] else [])
  }

  /** When every row is accepted, each becomes the record at the same position. */
  lemma {:induction false} TimeframesKeepsAccepted(data: seq<Obj>)
    requires forall i :: 0 <= i < |data| ==> Accepted(data[i])
    ensures |Timeframes(data)| == |data|
    ensures forall i :: 0 <= i < |data| ==> Timeframes(data)[i] == ToTimeframe(data[i])
  {
    if data != [] {
      TimeframesKeepsAccepted(data[..|data| - 1]);
    }
  }

  /** `tf` is the record built from some accepted row of `data`. */
  predicate BuiltFrom(data: seq<Obj>, tf: Obj) {
    exists j :: 0 <= j < |data| && Accepted(data[j]) && tf == ToTimeframe(data[j])
  }

  /** Every record comes from an accepted row. */
  lemma {:induction false} TimeframesOrigin(data: seq<Obj>)
    ensures forall i :: 0 <= i < |Timeframes(data)| ==> BuiltFrom(data, Timeframes(data)[i])
  {
    if data != [] {
      var init := data[..|data| - 1];
      var last := data[|data| - 1];
      assert Timeframes(data) == Timeframes(init) + (if Accepted(last) then [ToTimeframe(last)] else []);
      TimeframesOrigin(init);
      forall i | 0 <= i < |Timeframes(data)|
        ensures BuiltFrom(data, Timeframes(data)[i])
      {
        if i < |Timeframes(init)| {
          assert BuiltFrom(init, Timeframes(init)[i]);
          var j :| 0 <= j < |init| && Accepted(init[j]) && Timeframes(init)[i] == ToTimeframe(init[j]);
          assert data[j] == init[j];
        } else {
          assert Accepted(last) && Timeframes(data)[i] == ToTimeframe(last);
          assert data[|data| - 1] == last;
        }
      }
    }
  }

  /** A record is itself accepted and converts to itself, so converting twice changes nothing. */
  lemma {:induction false} TimeframesIdempotent(data: seq<Obj>)
    ensures Timeframes(Timeframes(data)) == Timeframes(data)
  {
    var r := Timeframes(data);
    TimeframesOrigin(data);
    forall i | 0 <= i < |r|
      ensures Accepted(r[i]) && ToTimeframe(r[i]) == r[i]
    {
      assert BuiltFrom(data, r[i]);
    }
    TimeframesKeepsAccepted(r);
  }

  /** The loop of `get_timeframes` over raw rows. */
  method ConvertTimeframes(data: seq<Obj>) returns (result: seq<Obj>)
    ensures result == Timeframes(data)
  {
    result := [];
    for j := 0 to |data|
      invariant result == Timeframes(data[..j])
    {
      assert data[..j + 1][..j] == data[..j];
      if Accepted(data[j]) {
        result := result + [ToTimeframe(data[j])];
      }
    }
    assert data[..|data|] == data;
  }

  /** The `(id, name)` tuples `DataImport.get_timeframes` hands over, as raw rows. */
  function AsTuples(pairs: seq<(Cell, Cell)>): (r: seq<Obj>)
    ensures |r| == |pairs|
    ensures forall i :: 0 <= i < |pairs| ==> Accepted(r[i])
  {
    seq(|pairs|, i requires 0 <= i < |pairs| => TupleObj([pairs[i].0, pairs[i].1]))
  }

  /**
   * `get_timeframes`: every `(id, name)` pair of the table listing becomes
   * a `Timeframe(id, name)` record at the same position.
   */
  method GetTimeframes(db: Database) returns (result: seq<Obj>)
    ensures var listing := DataImport.TimeframesListing(db.online, db.timeframeColumns, db.timeframes);
      |result| == |listing| &&
      forall i :: 0 <= i < |listing| ==> result[i] == TimeframeRecord(listing[i].0, listing[i].1)
  {
    var pairs := DataImport.GetTimeframes(db);
    result := ConvertTimeframes(AsTuples(pairs));
    TimeframesKeepsAccepted(AsTuples(pairs));
  }

  lemma {:induction false} FindInstrumentAt(rows: seq<InstrumentRow>, j: int, symbol: string)
    requires 0 <= j < |rows| && rows[j].symbol == symbol
    requires forall k :: 0 <= k < j ==> rows[k].symbol != symbol
    ensures FindInstrument(rows, symbol) == Some(rows[j].id)
  {
    if j > 0 {
      FindInstrumentAt(rows[1..], j - 1, symbol);
    }
  }

  /**
   * `get_instrument_id`: the id of the first instrument with that symbol,
   * the same row the `WHERE symbol = %s` lookup finds; `None` when there is
   * none or the listing failed.
   */
  method GetInstrumentId(db: Database, symbol: string) returns (id: Option<int>)
    ensures id == (if db.online then FindInstrument(db.instruments, symbol) else None)
  {
    var instruments := GetInstruments(db);
    for j := 0 to |instruments|
      invariant db.online ==> forall k :: 0 <= k < j ==> db.instruments[k].symbol != symbol
    {
      if instruments[j].symbol == symbol {
        FindInstrumentAt(db.instruments, j, symbol);
        return Some(instruments[j].id);
      }
    }
    return None;
  }

  /**
   * The id the timeframe listing yields for an interval name: the id cell
   * of the first row whose name column holds it, with the id and name
   * columns the listing discovers; `None` when the listing is empty.
   */
  function TimeframeIdOf(online: bool, columns: seq<string>, rows: seq<Row>, name: string): (r: Option<Cell>)
    ensures r.Some? ==> online && columns != [] && DataImport.TimeframeNameColumn(columns).Some?
  {
    if !online || columns == [] then None
    else
      match DataImport.TimeframeNameColumn(columns)
      case None => None
      case Some(nameCol) => FindTimeframe(rows, columns[0], nameCol, TextCell(name))
  }

  lemma {:induction false} FindTimeframeAt(rows: seq<Row>, j: int, idCol: string, nameCol: string, value: Cell)
    requires 0 <= j < |rows| && CellAt(rows[j], nameCol) == value
    requires forall k :: 0 <= k < j ==> CellAt(rows[k], nameCol) != value
    ensures FindTimeframe(rows, idCol, nameCol, value) == Some(CellAt(rows[j], idCol))
  {
    if j > 0 {
      FindTimeframeAt(rows[1..], j - 1, idCol, nameCol, value);
    }
  }

  /** `get_timeframe_id`: the id of the first timeframe whose `interval_name` equals the name, else `None`. */
  method GetTimeframeId(db: Database, name: string) returns (id: Option<Cell>)
    ensures id == TimeframeIdOf(db.online, db.timeframeColumns, db.timeframes, name)
  {
    var timeframes := GetTimeframes(db);
    ghost var columns := db.timeframeColumns;
    ghost var rows := db.timeframes;
    for j := 0 to |timeframes|
      invariant |timeframes| > 0 ==> db.online && columns != [] && DataImport.TimeframeNameColumn(columns).Some?
      invariant |timeframes| > 0 ==> |timeframes| == |rows|
      invariant |timeframes| > 0 ==> forall k :: 0 <= k < j ==>
        CellAt(rows[k], DataImport.TimeframeNameColumn(columns).value) != TextCell(name)
    {
      if GetAttr(timeframes[j], "interval_name") == TextCell(name) {
        FindTimeframeAt(rows, j, columns[0], DataImport.TimeframeNameColumn(columns).value, TextCell(name));
        return Some(GetAttr(timeframes[j], "id"));
      }
    }
    return None;
  }
}
