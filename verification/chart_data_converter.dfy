/**
 * Turning price rows read from the candle table into a time-indexed frame
 * (gui/chart_data_converter.py, `process_price_data`).
 */
module ChartDataConverter {
  import opened Wrappers
  import opened Models
  import opened Frames
  import opened Sorting

  /**
   * The first field of a price row, by the test that classifies it: a
   * datetime-like value, a string, a number, or anything else. Parsing a
   * string (or another object) by `pd.to_datetime` is external; `parsed` is
   * its outcome, `None` when it raises.
   */
  datatype RawTime =
    | DateLike(t: Time)
    | TextTime(parsed: Option<Time>)
    | NumericTime(x: real)
    | OtherTime(parsed: Option<Time>)

  /** A row `(candle_time, open, close, high, low, volume)`. */
  datatype PriceRow = PriceRow(ts: RawTime, open: Num, close: Num, high: Num, low: Num, volume: Num)

  /** A row whose timestamp converted. */
  datatype Candle = Candle(t: Time, open: Num, close: Num, high: Num, low: Num, volume: Num)

  /**
   * The numeric rule as the code writes it: above 1e12 the number is read
   * as microseconds, above 1e10 as milliseconds, otherwise as seconds.
   */
  function NumericSecondsAsWritten(x: real): real {
    if x > 1_000_000_000_000.0 then x / 1_000_000.0
    else if x > 10_000_000_000.0 then x / 1000.0
    else x
  }

  /**
   * A present-day timestamp in milliseconds (1.7e12, November 2023) lies
   * above 1e12, so the rule as written divides it by a million and lands in
   * January 1970.
   */
  lemma MillisecondsReadAsMicroseconds()
    ensures NumericSecondsAsWritten(1_700_000_000_000.0) == 1_700_000.0
    ensures NumericSecondsAsWritten(1_700_000_000.0) == 1_700_000_000.0
  {
  }

  /**
   * The numeric rule with the thresholds moved so that each unit keeps its
   * own band: above 1e14 microseconds, above 1e11 milliseconds, otherwise
   * seconds.
   */
  function NumericSeconds(x: real): real {
    if x > 100_000_000_000_000.0 then x / 1_000_000.0
    else if x > 100_000_000_000.0 then x / 1000.0
    else x
  }

  /**
   * For every instant between March 1973 and November 5138 the corrected
   * rule reads the same instant whether it is given in seconds,
   * milliseconds or microseconds.
   */
  lemma NumericSecondsUnitsAgree(s: real)
    requires 100_000_000.0 < s < 100_000_000_000.0
    ensures NumericSeconds(s) == s
    ensures NumericSeconds(s * 1000.0) == s
    ensures NumericSeconds(s * 1_000_000.0) == s
  {
  }

  /** The timestamp of one row as the loop converts it; `None` when the conversion raises. */
  function ConvertTimestamp(ts: RawTime): (r: Option<Time>)
    ensures ts.DateLike? ==> r == Some(ts.t)
    ensures ts.NumericTime? ==> r == Some(NumericSeconds(ts.x))
    ensures ts.TextTime? || ts.OtherTime? ==> r == ts.parsed
  {
    match ts
    case DateLike(t) => Some(t)
    case TextTime(p) => p
    case NumericTime(x) => Some(NumericSeconds(x))
    case OtherTime(p) => p
  }

  function ConvertTimestampAsWritten(ts: RawTime): Option<Time> {
    match ts
    case DateLike(t) => Some(t)
    case TextTime(p) => p
    case NumericTime(x) => Some(NumericSecondsAsWritten(x))
    case OtherTime(p) => p
  }

  /** The rows whose timestamp converts, in input order, each with its own prices. */
  function ConvertedRows(data: seq<PriceRow>): (r: seq<Candle>)
    ensures |r| <= |data|
    ensures r == [] <==> forall i :: 0 <= i < |data| ==> ConvertTimestamp(data[i].ts).None?
    ensures forall j :: 0 <= j < |r| ==>
      (exists i :: 0 <= i < |data| && Some(r[j].t) == ConvertTimestamp(data[i].ts) &&
        r[j].open == data[i].open && r[j].close == data[i].close && r[j].volume == data[i].volume)
  {
    if data == [] then []
    else
      var last := data[|data| - 1];
      var rest := ConvertedRows(data[..|data| - 1]);
      match ConvertTimestamp(last.ts)
      case None => rest
      case Some(t) => rest + [Candle(t, last.open, last.close, last.high, last.low, last.volume)]
  }

  /** The frame `pd.DataFrame({...}).set_index('timestamp')` builds from converted rows. */
  function FrameOf(rows: seq<Candle>): (f: Frame)
    ensures WellFormed(f) && Len(f) == |rows|
    ensures f.cols.Keys == {"open", "close", "high", "low", "volume"}
    ensures forall i :: 0 <= i < |rows| ==>
      (f.index[i] == rows[i].t && f.cols["open"][i] == rows[i].open &&
       f.cols["close"][i] == rows[i].close && f.cols["high"][i] == rows[i].high &&
       f.cols["low"][i] == rows[i].low && f.cols["volume"][i] == rows[i].volume)
  {
    Frame(
      seq(|rows|, i requires 0 <= i < |rows| => rows[i].t),
      map[
        "open" := seq(|rows|, i requires 0 <= i < |rows| => rows[i].open),
        "close" := seq(|rows|, i requires 0 <= i < |rows| => rows[i].close),
        "high" := seq(|rows|, i requires 0 <= i < |rows| => rows[i].high),
        "low" := seq(|rows|, i requires 0 <= i < |rows| => rows[i].low),
        "volume" := seq(|rows|, i requires 0 <= i < |rows| => rows[i].volume)])
  }

  function CandleTime(c: Candle): real {
    c.t
  }

  /**
   * `process_price_data` with each unconvertible row dropped from every
   * column: `None` for no rows or when no timestamp converts, otherwise the
   * converted rows as a frame sorted by time.
   */
  method ProcessPriceData(priceData: seq<PriceRow>) returns (r: Option<Frame>)
    ensures r.None? <==> ConvertedRows(priceData) == []
    ensures r.Some? ==> r.value == FrameOf(SortBy(ConvertedRows(priceData), CandleTime))
  {
    if priceData == [] {
      return None;
    }
    var rows: seq<Candle> := [];
    for i := 0 to |priceData|
      invariant rows == ConvertedRows(priceData[..i])
    {
      assert priceData[..i + 1][..i] == priceData[..i];
      var t := ConvertTimestamp(priceData[i].ts);
      if t.Some? {
        var d := priceData[i];
        rows := rows + [Candle(t.value, d.open, d.close, d.high, d.low, d.volume)];
      }
    }
    assert priceData[..|priceData|] == priceData;
    if rows == [] {
      return None;
    }
    r := Some(FrameOf(SortBy(rows, CandleTime)));
  }

  /**
   * The frame `process_price_data` returns is indexed in ascending time and
   * holds exactly the converted rows, as a multiset of candles.
   */
  lemma ProcessedFrameSorted(data: seq<PriceRow>)
    ensures var rows := SortBy(ConvertedRows(data), CandleTime);
      var f := FrameOf(rows);
      Len(f) == |ConvertedRows(data)| &&
      (forall i, j :: 0 <= i < j < Len(f) ==> f.index[i] <= f.index[j]) &&
      multiset(rows) == multiset(ConvertedRows(data))
  {
    var rows := SortBy(ConvertedRows(data), CandleTime);
    var f := FrameOf(rows);
    forall i, j | 0 <= i < j < Len(f) ensures f.index[i] <= f.index[j] {
      assert CandleTime(rows[i]) <= CandleTime(rows[j]);
    }
  }

  /**
   * `process_price_data` as written: the timestamp list skips failed rows
   * but the price lists are built from every row, so pandas raises
   * `ValueError` whenever some but not all timestamps fail.
   */
  function ProcessPriceDataAsWritten(priceData: seq<PriceRow>): (r: Result<Option<Frame>>)
    ensures priceData == [] ==> r == Ok(None)
    ensures r.Err? <==>
      (exists i :: 0 <= i < |priceData| && ConvertTimestampAsWritten(priceData[i].ts).None?) &&
      (exists i :: 0 <= i < |priceData| && ConvertTimestampAsWritten(priceData[i].ts).Some?)
  {
    if priceData == [] then Ok(None)
    else
      var converted := seq(|priceData|, i requires 0 <= i < |priceData| => ConvertTimestampAsWritten(priceData[i].ts));
      assert forall i :: 0 <= i < |priceData| ==> converted[i] == ConvertTimestampAsWritten(priceData[i].ts);
      var kept := CountSome(converted);
      if kept == 0 then Ok(None)
      else if kept != |priceData| then Err("ValueError: All arrays must be of the same length")
      else
        var rows := seq(|priceData|, i requires 0 <= i < |priceData| =>
          var d := priceData[i];
          Candle(converted[i].value, d.open, d.close, d.high, d.low, d.volume));
        Ok(Some(FrameOf(SortBy(rows, CandleTime))))
  }

  function CountSome(s: seq<Option<Time>>): (n: nat)
    ensures n <= |s|
    ensures n == |s| <==> forall i :: 0 <= i < |s| ==> s[i].Some?
    ensures n == 0 <==> forall i :: 0 <= i < |s| ==> s[i].None?
  {
    if s == [] then 0 else CountSome(s[..|s| - 1]) + (if s[|s| - 1].Some? then 1 else 0)
  }

  /**
   * One good row followed by one row whose string timestamp does not parse:
   * the code as written raises, the corrected conversion keeps the good row.
   */
  lemma PartialTimestampFailure()
    ensures var data := [PriceRow(DateLike(1_700_000_000.0), Val(1.0), Val(2.0), Val(3.0), Val(0.5), Val(10.0)),
                         PriceRow(TextTime(None), Val(1.0), Val(2.0), Val(3.0), Val(0.5), Val(10.0))];
      ProcessPriceDataAsWritten(data).Err? && |ConvertedRows(data)| == 1
  {
    var data := [PriceRow(DateLike(1_700_000_000.0), Val(1.0), Val(2.0), Val(3.0), Val(0.5), Val(10.0)),
                 PriceRow(TextTime(None), Val(1.0), Val(2.0), Val(3.0), Val(0.5), Val(10.0))];
    var converted := seq(|data|, i requires 0 <= i < |data| => ConvertTimestampAsWritten(data[i].ts));
    assert converted[1].None?;
    assert data[..1] == [data[0]];
    assert data[..0] == [];
  }
}
