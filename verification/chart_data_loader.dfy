/**
 * Loading what a chart needs (gui/chart_data_loader.py,
 * `ChartDataLoader`): the instrument and timeframe records for a symbol
 * and a timeframe code, and the candles for their ids.
 */
module ChartDataLoader {
  import opened Wrappers
  import opened Models
  import opened Sorting
  import opened DbSchema
  import DataImport
  import GuiDataFetcher

  /** `next((inst for inst in instruments if inst.symbol == symbol), None)`. */
  function FirstWithSymbol(instruments: seq<Instrument>, symbol: string): (r: Option<Instrument>)
    ensures r.Some? <==> exists i :: 0 <= i < |instruments| && instruments[i].symbol == symbol
    ensures r.Some? ==> r.value.symbol == symbol
  {
    if instruments == [] then None
    else if instruments[0].symbol == symbol then Some(instruments[0])
    else
      assert forall i :: 0 < i < |instruments| ==> instruments[i] == instruments[1..][i - 1];
      FirstWithSymbol(instruments[1..], symbol)
  }

  /** Over the instrument listing the search finds the row the symbol lookup finds. */
  lemma {:induction false} FirstWithSymbolListed(rows: seq<InstrumentRow>, symbol: string)
    ensures FirstWithSymbol(DataImport.Listed(rows), symbol) ==
      (match FindInstrument(rows, symbol)
       case Some(id) => Some(Instrument(id, symbol))
       case None => None)
  {
    if rows != [] {
      assert DataImport.Listed(rows)[1..] == DataImport.Listed(rows[1..]);
      FirstWithSymbolListed(rows[1..], symbol);
    }
  }

  /**
   * `getattr(tf, 'interval_name', None) or getattr(tf, 'name', None) or
   * getattr(tf, 'timeframe_name', None)`.
   */
  function DisplayName(tf: Obj): (r: Cell)
    ensures r == GetAttr(tf, "interval_name") || r == GetAttr(tf, "name") || r == GetAttr(tf, "timeframe_name")
    ensures Truthy(GetAttr(tf, "interval_name")) ==> r == GetAttr(tf, "interval_name")
  {
    Or(Or(GetAttr(tf, "interval_name"), GetAttr(tf, "name")), GetAttr(tf, "timeframe_name"))
  }

  /** A `Timeframe` record shows the name it was built with, truthy or not. */
  lemma DisplayNameOfRecord(id: Cell, name: Cell)
    ensures DisplayName(TimeframeRecord(id, name)) == name
  {
    assert GetAttr(TimeframeRecord(id, name), "interval_name") == name;
    assert GetAttr(TimeframeRecord(id, name), "name") == name;
    assert GetAttr(TimeframeRecord(id, name), "timeframe_name") == name;
  }

  /** The loop with `break`: the first timeframe whose displayed name equals the code. */
  method FindByDisplayName(timeframes: seq<Obj>, code: string) returns (tf: Option<Obj>)
    ensures tf.Some? <==> exists i :: 0 <= i < |timeframes| && DisplayName(timeframes[i]) == TextCell(code)
    ensures tf.Some? ==>
      exists i :: (0 <= i < |timeframes| && DisplayName(timeframes[i]) == TextCell(code) && tf.value == timeframes[i] &&
        forall k :: 0 <= k < i ==> DisplayName(timeframes[k]) != TextCell(code))
  {
    tf := None;
    var j := 0;
    while j < |timeframes|
      invariant 0 <= j <= |timeframes|
      invariant forall k :: 0 <= k < j ==> DisplayName(timeframes[k]) != TextCell(code)
    {
      if DisplayName(timeframes[j]) == TextCell(code) {
        tf := Some(timeframes[j]);
        break;
      }
      j := j + 1;
    }
  }

  /**
   * `get_instrument_and_timeframe`: the instrument with that symbol and
   * the first timeframe named by the code, or `None` when either is
   * missing; the timeframe's id is the one the listing's id lookup gives.
   */
  method GetInstrumentAndTimeframe(db: Database, symbol: string, code: string) returns (r: Option<(Instrument, Obj)>)
    ensures r.Some? <==>
      db.online && FindInstrument(db.instruments, symbol).Some? &&
      GuiDataFetcher.TimeframeIdOf(db.online, db.timeframeColumns, db.timeframes, code).Some?
    ensures r.Some? ==>
      r.value.0 == Instrument(FindInstrument(db.instruments, symbol).value, symbol) &&
      GetAttr(r.value.1, "id") == GuiDataFetcher.TimeframeIdOf(db.online, db.timeframeColumns, db.timeframes, code).value &&
      DisplayName(r.value.1) == TextCell(code)
  {
    var instruments := GuiDataFetcher.GetInstruments(db);
    FirstWithSymbolListed(db.instruments, symbol);
    var instrument := FirstWithSymbol(instruments, symbol);
    if instrument.None? {
      return None;
    }
    var timeframes := GuiDataFetcher.GetTimeframes(db);
    var timeframe := FindByDisplayName(timeframes, code);
    ListedNameResolves(db.online, db.timeframeColumns, db.timeframes, timeframes, code, timeframe);
    if timeframe.None? {
      return None;
    }
    r := Some((instrument.value, timeframe.value));
  }

  /**
   * Over the records listed for a timeframe table, the first record
   * showing the code carries the id the table lookup finds, and no such
   * record means the lookup finds nothing.
   */
  lemma ListedNameResolves(online: bool, columns: seq<string>, rows: seq<Row>, timeframes: seq<Obj>, code: string,
                           tf: Option<Obj>)
    requires var listing := DataImport.TimeframesListing(online, columns, rows);
      |timeframes| == |listing| &&
      forall i :: 0 <= i < |listing| ==> timeframes[i] == TimeframeRecord(listing[i].0, listing[i].1)
    requires tf.Some? <==> exists i :: 0 <= i < |timeframes| && DisplayName(timeframes[i]) == TextCell(code)
    requires tf.Some? ==>
      exists i :: (0 <= i < |timeframes| && DisplayName(timeframes[i]) == TextCell(code) && tf.value == timeframes[i] &&
        forall k :: 0 <= k < i ==> DisplayName(timeframes[k]) != TextCell(code))
    ensures GuiDataFetcher.TimeframeIdOf(online, columns, rows, code) ==
      if tf.Some? then Some(GetAttr(tf.value, "id")) else None
  {
    var listing := DataImport.TimeframesListing(online, columns, rows);
    forall i | 0 <= i < |timeframes|
      ensures DisplayName(timeframes[i]) == listing[i].1
    {
      DisplayNameOfRecord(listing[i].0, listing[i].1);
    }
    if tf.Some? {
      var i :| 0 <= i < |timeframes| && DisplayName(timeframes[i]) == TextCell(code) && tf.value == timeframes[i] &&
        forall k :: 0 <= k < i ==> DisplayName(timeframes[k]) != TextCell(code);
      GuiDataFetcher.FindTimeframeAt(rows, i, columns[0], DataImport.TimeframeNameColumn(columns).value, TextCell(code));
    }
  }

  /**
   * `load_price_data`: `None` when the read yields no candles (none stored
   * or the query raised), else the candles in time order.
   */
  method LoadPriceData(db: Database, inst: int, tf: Cell) returns (r: Option<seq<(Time, Ohlcv)>>)
    ensures r.None? <==> !db.online || DataImport.CandleSeries(db.candles, inst, tf) == {}
    ensures r.Some? ==> Listing(r.value, DataImport.CandleSeries(db.candles, inst, tf))
  {
    var data := DataImport.GetPriceData(db, inst, tf);
    if data == [] {
      return None;
    }
    return Some(data);
  }
}
