/**
 * Loading full candle histories from Yahoo Finance
 * (crypto_trading_bot/trading/yahoo_data_loader.py, `YahooDataLoader`):
 * the exchange-to-Yahoo symbol and interval translation, the period cap of
 * intraday intervals, registering the instrument, and the per-timeframe and
 * per-symbol result maps. The history request is a parameter.
 */
module YahooDataLoader {
  import opened Wrappers
  import opened Models
  import opened Text
  import opened DbSchema
  import opened DataExport
  import DataImport

  /** `TIMEFRAME_MAPPING`: the repository's timeframe names and the Yahoo intervals they request. */
  const TimeframeMapping: map<string, string> := map[
    "1min" := "1m", "5min" := "5m", "15min" := "15m", "30min" := "30m", "1hour" := "1h",
    "4hour" := "4h", "1day" := "1d", "1week" := "1wk", "1month" := "1mo"]

  /** `SYMBOL_MAPPING`: exchange symbols with a fixed Yahoo ticker. */
  const SymbolMapping: map<string, string> := map["BTCUSDT" := "BTC-USD", "ETHUSDT" := "ETH-USD", "BNBUSDT" := "BNB-USD"]

  /** The intervals whose `"max"` period is cut to seven days. */
  const MinuteIntervals: seq<string> := ["1m", "5m", "15m", "30m"]

  /** The timeframes loaded when none are given. */
  const DefaultTimeframes: seq<string> := ["1day", "4hour", "1hour", "15min"]

  // ---------------------------------------------------------------- translation

  /** The Yahoo spelling of a USDT pair: the base followed by `-USD`. */
  function UsdTicker(symbol: string): string
    requires EndsWith(symbol, "USDT")
  {
    symbol[..|symbol| - 4] + "-USD"
  }

  /** `convert_symbol_to_yahoo`: the fixed ticker, else a USDT pair as `BASE-USD`, else the symbol itself. */
  function ConvertSymbolToYahoo(symbol: string): (r: string)
    ensures symbol in SymbolMapping ==> r == SymbolMapping[symbol]
    ensures !EndsWith(symbol, "USDT") ==> r == symbol
  {
    if symbol in SymbolMapping then SymbolMapping[symbol]
    else if EndsWith(symbol, "USDT") then UsdTicker(symbol)
    else symbol
  }

  /** Every fixed ticker is what the automatic rule would give, so every USDT pair becomes `BASE-USD`. */
  lemma UsdtPairTicker(symbol: string)
    requires EndsWith(symbol, "USDT")
    ensures ConvertSymbolToYahoo(symbol) == UsdTicker(symbol)
    ensures EndsWith(ConvertSymbolToYahoo(symbol), "-USD")
  {
    if symbol == "BTCUSDT" {
      assert UsdTicker(symbol) == "BTC" + "-USD";
    } else if symbol == "ETHUSDT" {
      assert UsdTicker(symbol) == "ETH" + "-USD";
    } else if symbol == "BNBUSDT" {
      assert UsdTicker(symbol) == "BNB" + "-USD";
    }
    var r := UsdTicker(symbol);
    assert r[|r| - 4..] == "-USD";
  }

  /** Two USDT pairs never share a Yahoo ticker, and no other symbol takes a USDT pair's ticker. */
  lemma ConvertSymbolInjective(a: string, b: string)
    requires EndsWith(a, "USDT")
    requires ConvertSymbolToYahoo(a) == ConvertSymbolToYahoo(b)
    ensures EndsWith(b, "USDT") ==> a == b
    ensures !EndsWith(b, "USDT") ==> b == UsdTicker(a)
  {
    UsdtPairTicker(a);
    if EndsWith(b, "USDT") {
      UsdtPairTicker(b);
      var ra, rb := UsdTicker(a), UsdTicker(b);
      assert |a| == |b|;
      assert a[..|a| - 4] == ra[..|ra| - 4] == rb[..|rb| - 4] == b[..|b| - 4];
      assert a == a[..|a| - 4] + a[|a| - 4..];
      assert b == b[..|b| - 4] + b[|b| - 4..];
    }
  }

  /** The Yahoo interval of a timeframe name; `1d` for a name the table lacks. */
  function YahooInterval(timeframe: string): (r: string)
    ensures timeframe in TimeframeMapping ==> r == TimeframeMapping[timeframe]
    ensures timeframe !in TimeframeMapping ==> r == "1d"
    ensures r in TimeframeMapping.Values
  {
    assert TimeframeMapping["1day"] == "1d";
    if timeframe in TimeframeMapping then TimeframeMapping[timeframe] else "1d"
  }

  /** The period actually requested: `"max"` becomes `7d` for minute intervals and `730d` for `1h`. */
  function EffectivePeriod(interval: string, period: string): (r: string)
    ensures period != "max" ==> r == period
    ensures r != "max" <==> period != "max" || interval in MinuteIntervals || interval == "1h"
  {
    if interval in MinuteIntervals && period == "max" then "7d"
    else if interval == "1h" && period == "max" then "730d"
    else period
  }

  /** The periods a `"max"` request ends up with, timeframe by timeframe. */
  lemma MaxPeriodByTimeframe(timeframe: string)
    ensures timeframe in ["1min", "5min", "15min", "30min"] ==> EffectivePeriod(YahooInterval(timeframe), "max") == "7d"
    ensures timeframe == "1hour" ==> EffectivePeriod(YahooInterval(timeframe), "max") == "730d"
    ensures timeframe !in ["1min", "5min", "15min", "30min", "1hour"] ==> EffectivePeriod(YahooInterval(timeframe), "max") == "max"
  {
  }

  // ---------------------------------------------------------------- one history request

  /** What `ticker.history(period=..., interval=...)` gives: an error, or the frame's rows. */
  datatype History = HistoryRaised | HistoryOk(rows: seq<FrameRow>)

  /**
   * The frame `load_historical_data` returns for a request of `period`:
   * the rows Yahoo gives for the translated ticker, the effective period
   * and the interval; `None` for a raised request or an empty frame.
   */
  function Fetched(symbol: string, timeframe: string, period: string,
                   history: (string, string, string) -> History): (r: Option<seq<FrameRow>>)
    ensures r.Some? ==> r.value != []
  {
    var interval := YahooInterval(timeframe);
    var reply := history(ConvertSymbolToYahoo(symbol), EffectivePeriod(interval, period), interval);
    if reply.HistoryOk? && reply.rows != [] then Some(reply.rows) else None
  }

  /** `load_historical_data`: translate, cap the period, request, and drop an empty frame. */
  method LoadHistoricalData(symbol: string, timeframe: string, period: string,
                            history: (string, string, string) -> History)
    returns (df: Option<seq<FrameRow>>)
    ensures df == Fetched(symbol, timeframe, period, history)
    ensures df.Some? ==> df.value == history(ConvertSymbolToYahoo(symbol),
      EffectivePeriod(YahooInterval(timeframe), period), YahooInterval(timeframe)).rows
  {
    var yahooSymbol := ConvertSymbolToYahoo(symbol);
    var interval := YahooInterval(timeframe);
    var requested := period;
    if interval in MinuteIntervals {
      if requested == "max" {
        requested := "7d";
      }
    } else if interval == "1h" {
      if requested == "max" {
        requested := "730d";
      }
    }
    var reply := history(yahooSymbol, requested, interval);
    if reply.HistoryRaised? || reply.rows == [] {
      return None;
    }
    df := Some(reply.rows);
  }

  /** `save_data_to_db`: hand the frame to `insert_price_data` and report its answer. */
  method SaveDataToDb(db: Database, symbol: string, timeframe: string, rows: seq<FrameRow>) returns (ok: bool)
    modifies db`candles
    ensures (ok, db.candles) == PriceDataOutcome(db.online, db.instruments, db.timeframeColumns, db.timeframes,
      old(db.candles), symbol, timeframe, FrameData(rows))
  {
    ok := InsertPriceData(db, symbol, timeframe, FrameData(rows));
  }

  // ---------------------------------------------------------------- registering the instrument

  /** The instrument table after `ensure_instrument_exists`, and its answer. */
  datatype Ensured = Ensured(ok: bool, rows: seq<InstrumentRow>, nextId: int)

  /**
   * `ensure_instrument_exists` with the stored symbol read from the row:
   * true at once when a stored symbol matches up to case, otherwise an
   * `INSERT ... ON CONFLICT (symbol) DO NOTHING` of the symbol with no
   * name; false only when the database is down.
   */
  function InstrumentEnsured(online: bool, rows: seq<InstrumentRow>, nextId: int, symbol: string): (r: Ensured)
    ensures r.ok <==> online
    ensures online ==> FindInstrumentCaseless(r.rows, symbol).Some?
    ensures |rows| <= |r.rows| <= |rows| + 1 && r.rows[..|rows|] == rows
    ensures FindInstrumentCaseless(rows, symbol).Some? ==> r.rows == rows
    ensures InstrumentsValid(rows, nextId) ==> InstrumentsValid(r.rows, r.nextId)
  {
    if !online then Ensured(false, rows, nextId)
    else if FindInstrumentCaseless(rows, symbol).Some? then Ensured(true, rows, nextId)
    else
      var row := InstrumentRow(nextId, symbol, NullCell);
      assert FindInstrument(rows, symbol).None? by {
        if FindInstrument(rows, symbol).Some? {
          FindInstrumentCaselessWidens(rows, symbol);
        }
      }
      assert (rows + [row])[|rows|] == row;
      assert (rows + [row])[..|rows|] == rows;
      Ensured(true, rows + [row], nextId + 1)
  }

  /** Registering twice changes nothing the first call did not. */
  lemma EnsureIdempotent(online: bool, rows: seq<InstrumentRow>, nextId: int, symbol: string)
    ensures var once := InstrumentEnsured(online, rows, nextId, symbol);
      InstrumentEnsured(online, once.rows, once.nextId, symbol) == once
  {
  }

  /**
   * `ensure_instrument_exists` as written: the rows `get_instruments`
   * returns are `(id, symbol)` tuples, so `inst.symbol` raises on the first
   * row and the handler answers false; only an empty table gets the insert.
   */
  function InstrumentEnsuredAsWritten(online: bool, rows: seq<InstrumentRow>, nextId: int, symbol: string): (r: Ensured)
    ensures r.ok <==> online && rows == []
    ensures online && rows != [] ==> r == Ensured(false, rows, nextId)
  {
    if online && rows != [] then Ensured(false, rows, nextId)
    else InstrumentEnsured(online, rows, nextId, symbol)
  }

  /**
   * With one other instrument stored, the as-written call neither finds nor
   * adds `ETHUSDT`, so saving its candles fails; the corrected call adds it.
   */
  lemma AsWrittenNeverRegisters(candles: map<CandleKey, Ohlcv>, columns: seq<string>, timeframes: seq<Row>, rows: seq<FrameRow>)
    ensures var stored := [InstrumentRow(1, "BTCUSDT", TextCell("BTCUSDT"))];
      var asWritten := InstrumentEnsuredAsWritten(true, stored, 2, "ETHUSDT");
      !asWritten.ok && FindInstrumentCaseless(asWritten.rows, "ETHUSDT").None? &&
      PriceDataOutcome(true, asWritten.rows, columns, timeframes, candles, "ETHUSDT", "1day", FrameData(rows)) == (false, candles) &&
      FindInstrumentCaseless(InstrumentEnsured(true, stored, 2, "ETHUSDT").rows, "ETHUSDT").Some?
  {
    var stored := [InstrumentRow(1, "BTCUSDT", TextCell("BTCUSDT"))];
    assert Lower(stored[0].symbol) == "btcusdt";
    assert Lower("ETHUSDT") == "ethusdt";
  }

  /** The loop over the listed instruments: true on the first match up to case, else the insert. */
  method EnsureInstrumentExists(db: Database, symbol: string) returns (ok: bool)
    modifies db`instruments, db`nextInstrumentId
    ensures Ensured(ok, db.instruments, db.nextInstrumentId) ==
      InstrumentEnsured(db.online, old(db.instruments), old(db.nextInstrumentId), symbol)
  {
    var instruments := DataImport.GetInstruments(db);
    assert instruments != [] ==> db.online && instruments == DataImport.Listed(db.instruments);
    for j := 0 to |instruments|
      invariant forall k :: 0 <= k < j ==> Lower(instruments[k].symbol) != Lower(symbol)
    {
      if Lower(instruments[j].symbol) == Lower(symbol) {
        assert Lower(db.instruments[j].symbol) == Lower(symbol);
        assert FindInstrumentCaseless(db.instruments, symbol).Some?;
        return true;
      }
    }
    if !db.online {
      return false;
    }
    assert forall k :: 0 <= k < |db.instruments| ==> instruments[k].symbol == db.instruments[k].symbol;
    assert FindInstrumentCaseless(db.instruments, symbol).None?;
    var row := InstrumentRow(db.nextInstrumentId, symbol, NullCell);
    db.instruments := db.instruments + [row];
    db.nextInstrumentId := db.nextInstrumentId + 1;
    ok := true;
  }

  // ---------------------------------------------------------------- result maps

  /** The timeframes a call works through: the ones given, or the default four. */
  function TimeframesOr(timeframes: Option<seq<string>>): seq<string> {
    if timeframes.Some? then timeframes.value else DefaultTimeframes
  }

  /**
   * What the results of one symbol promise: an entry for exactly the
   * requested timeframes; true only where Yahoo gave a non-empty frame;
   * all false when the database is down.
   */
  predicate Reported(results: map<string, bool>, symbol: string, timeframes: seq<string>,
                     history: (string, string, string) -> History, online: bool) {
    results.Keys == (set t | t in timeframes) &&
    (forall t :: t in results && results[t] ==> Fetched(symbol, t, "max", history).Some?) &&
    (!online ==> forall t :: t in results ==> !results[t])
  }

  /** The tables a load works on: the instrument table with its serial counter, and the candles. */
  datatype LoadState = LoadState(instruments: seq<InstrumentRow>, nextId: int, candles: map<CandleKey, Ohlcv>)

  /** Every candle of the first table is in the second, unchanged. */
  predicate KeepsCandles(before: map<CandleKey, Ohlcv>, after: map<CandleKey, Ohlcv>) {
    forall k :: k in before ==> k in after && after[k] == before[k]
  }

  /** The elements of a sequence with one more at the end. */
  lemma SnocElements(xs: seq<string>, x: string)
    ensures (set y | y in xs + [x]) == (set y | y in xs) + {x}
  {
  }

  /** One more timeframe's entry keeps the promise of the results. */
  lemma ReportedStep(results: map<string, bool>, symbol: string, tfs: seq<string>, t: string, ok: bool,
                     history: (string, string, string) -> History, online: bool)
    requires Reported(results, symbol, tfs, history, online)
    requires ok ==> online && Fetched(symbol, t, "max", history).Some?
    ensures Reported(results[t := ok], symbol, tfs + [t], history, online)
  {
    SnocElements(tfs, t);
  }

  /**
   * One timeframe's load: the full history is requested, and a non-empty
   * frame goes to `insert_price_data`; the entry and the candle table after
   * it. Nothing is stored for a raised request or an empty frame.
   */
  function TimeframeOutcome(online: bool, instruments: seq<InstrumentRow>, columns: seq<string>, timeframes: seq<Row>,
                            candles: map<CandleKey, Ohlcv>, symbol: string, timeframe: string,
                            history: (string, string, string) -> History): (r: (bool, map<CandleKey, Ohlcv>))
    ensures r.0 ==> online && Fetched(symbol, timeframe, "max", history).Some?
    ensures Fetched(symbol, timeframe, "max", history).None? ==> r == (false, candles)
    ensures KeepsCandles(candles, r.1)
  {
    var df := Fetched(symbol, timeframe, "max", history);
    if df.Some? then PriceDataOutcome(online, instruments, columns, timeframes, candles, symbol, timeframe, FrameData(df.value))
    else (false, candles)
  }

  /** The timeframes loaded one after another: the entry of each (a repeated one keeps its last), and the candles after the last. */
  function TimeframesOutcome(online: bool, instruments: seq<InstrumentRow>, columns: seq<string>, timeframes: seq<Row>,
                             candles: map<CandleKey, Ohlcv>, symbol: string, tfs: seq<string>,
                             history: (string, string, string) -> History): (r: (map<string, bool>, map<CandleKey, Ohlcv>))
    ensures Reported(r.0, symbol, tfs, history, online)
    ensures KeepsCandles(candles, r.1)
    decreases |tfs|
  {
    if tfs == [] then (map[], candles)
    else
      var init := tfs[..|tfs| - 1];
      var last := tfs[|tfs| - 1];
      var before := TimeframesOutcome(online, instruments, columns, timeframes, candles, symbol, init, history);
      var step := TimeframeOutcome(online, instruments, columns, timeframes, before.1, symbol, last, history);
      assert tfs == init + [last];
      ReportedStep(before.0, symbol, init, last, step.0, history, online);
      (before.0[last := step.0], step.1)
  }

  /**
   * `load_all_data_for_symbol` on the given tables: the symbol is
   * registered first, whatever the answer, and the timeframes are loaded
   * against the instrument table that leaves.
   */
  function SymbolOutcome(online: bool, columns: seq<string>, timeframes: seq<Row>, state: LoadState,
                         symbol: string, tfs: seq<string>, history: (string, string, string) -> History)
    : (r: (map<string, bool>, LoadState))
    ensures Reported(r.0, symbol, tfs, history, online)
    ensures KeepsCandles(state.candles, r.1.candles)
    ensures |state.instruments| <= |r.1.instruments| && r.1.instruments[..|state.instruments|] == state.instruments
    ensures online ==> FindInstrumentCaseless(r.1.instruments, symbol).Some?
  {
    var e := InstrumentEnsured(online, state.instruments, state.nextId, symbol);
    var loaded := TimeframesOutcome(online, e.rows, columns, timeframes, state.candles, symbol, tfs, history);
    (loaded.0, LoadState(e.rows, e.nextId, loaded.1))
  }

  /** A symbol found in an instrument table is still found once rows are appended to it. */
  lemma FoundInExtension(rows: seq<InstrumentRow>, longer: seq<InstrumentRow>, symbol: string)
    requires |rows| <= |longer| && longer[..|rows|] == rows
    requires FindInstrumentCaseless(rows, symbol).Some?
    ensures FindInstrumentCaseless(longer, symbol).Some?
  {
    var i :| 0 <= i < |rows| && Lower(rows[i].symbol) == Lower(symbol);
    assert longer[i] == rows[i];
  }

  /**
   * `load_data_for_top_coins` on the given tables: the symbols loaded one
   * after another, each under its own name (a repeated one keeps its last
   * results). With the database up, every symbol ends up registered.
   */
  function TopCoinsOutcome(online: bool, columns: seq<string>, timeframes: seq<Row>, state: LoadState,
                           symbols: seq<string>, tfs: seq<string>, history: (string, string, string) -> History)
    : (r: (map<string, map<string, bool>>, LoadState))
    ensures r.0.Keys == set s | s in symbols
    ensures forall s :: s in r.0 ==> Reported(r.0[s], s, tfs, history, online)
    ensures KeepsCandles(state.candles, r.1.candles)
    ensures |state.instruments| <= |r.1.instruments| && r.1.instruments[..|state.instruments|] == state.instruments
    ensures online ==> forall s :: s in symbols ==> FindInstrumentCaseless(r.1.instruments, s).Some?
    decreases |symbols|
  {
    if symbols == [] then (map[], state)
    else
      var init := symbols[..|symbols| - 1];
      var last := symbols[|symbols| - 1];
      var before := TopCoinsOutcome(online, columns, timeframes, state, init, tfs, history);
      var step := SymbolOutcome(online, columns, timeframes, before.1, last, tfs, history);
      SnocElements(init, last);
      assert symbols == init + [last];
      assert step.1.instruments[..|state.instruments|] == state.instruments by {
        assert step.1.instruments[..|before.1.instruments|][..|state.instruments|] == state.instruments;
      }
      assert online ==> forall s :: s in symbols ==> FindInstrumentCaseless(step.1.instruments, s).Some? by {
        if online {
          forall s | s in symbols
            ensures FindInstrumentCaseless(step.1.instruments, s).Some?
          {
            if s != last {
              FoundInExtension(before.1.instruments, step.1.instruments, s);
            }
          }
        }
      }
      (before.0[last := step.0], step.1)
  }

  /** Loading one timeframe: the entry it leaves, and the candle table it leaves behind. */
  method LoadTimeframe(db: Database, symbol: string, timeframe: string,
                       history: (string, string, string) -> History) returns (ok: bool)
    modifies db`candles
    ensures (ok, db.candles) == TimeframeOutcome(old(db.online), old(db.instruments), old(db.timeframeColumns),
      old(db.timeframes), old(db.candles), symbol, timeframe, history)
    ensures ok ==> Fetched(symbol, timeframe, "max", history).Some? && db.online
    ensures forall k :: k in old(db.candles) ==> k in db.candles && db.candles[k] == old(db.candles)[k]
  {
    var df := LoadHistoricalData(symbol, timeframe, "max", history);
    if df.Some? && df.value != [] {
      ok := SaveDataToDb(db, symbol, timeframe, df.value);
    } else {
      ok := false;
    }
  }

  /** The loop of `load_all_data_for_symbol`: one entry per timeframe, in order. */
  method LoadTimeframes(db: Database, symbol: string, tfs: seq<string>,
                        history: (string, string, string) -> History)
    returns (results: map<string, bool>)
    modifies db`candles
    ensures (results, db.candles) == TimeframesOutcome(old(db.online), old(db.instruments), old(db.timeframeColumns),
      old(db.timeframes), old(db.candles), symbol, tfs, history)
  {
    results := map[];
    for j := 0 to |tfs|
      invariant (results, db.candles) == TimeframesOutcome(db.online, db.instruments, db.timeframeColumns, db.timeframes,
        old(db.candles), symbol, tfs[..j], history)
    {
      assert tfs[..j + 1][..j] == tfs[..j];
      var ok := LoadTimeframe(db, symbol, tfs[j], history);
      results := results[tfs[j] := ok];
    }
    assert tfs[..|tfs|] == tfs;
  }

  /** `load_all_data_for_symbol`: register the symbol, then one entry per timeframe. */
  method LoadAllDataForSymbol(db: Database, symbol: string, timeframes: Option<seq<string>>,
                              history: (string, string, string) -> History)
    returns (results: map<string, bool>)
    modifies db`instruments, db`nextInstrumentId, db`candles
    ensures (results, LoadState(db.instruments, db.nextInstrumentId, db.candles)) ==
      SymbolOutcome(old(db.online), old(db.timeframeColumns), old(db.timeframes),
        LoadState(old(db.instruments), old(db.nextInstrumentId), old(db.candles)), symbol, TimeframesOr(timeframes), history)
    ensures Reported(results, symbol, TimeframesOr(timeframes), history, db.online)
    ensures forall k :: k in old(db.candles) ==> k in db.candles && db.candles[k] == old(db.candles)[k]
  {
    var _ := EnsureInstrumentExists(db, symbol);
    results := LoadTimeframes(db, symbol, TimeframesOr(timeframes), history);
  }

  /** `load_data_for_top_coins`: the results of every symbol, under that symbol. */
  method LoadDataForTopCoins(db: Database, symbols: seq<string>, timeframes: Option<seq<string>>,
                             history: (string, string, string) -> History)
    returns (all: map<string, map<string, bool>>)
    modifies db`instruments, db`nextInstrumentId, db`candles
    ensures (all, LoadState(db.instruments, db.nextInstrumentId, db.candles)) ==
      TopCoinsOutcome(old(db.online), old(db.timeframeColumns), old(db.timeframes),
        LoadState(old(db.instruments), old(db.nextInstrumentId), old(db.candles)), symbols, TimeframesOr(timeframes), history)
    ensures all.Keys == set s | s in symbols
    ensures forall s :: s in all ==> Reported(all[s], s, TimeframesOr(timeframes), history, db.online)
  {
    ghost var start := LoadState(db.instruments, db.nextInstrumentId, db.candles);
    all := map[];
    for i := 0 to |symbols|
      invariant (all, LoadState(db.instruments, db.nextInstrumentId, db.candles)) ==
        TopCoinsOutcome(db.online, db.timeframeColumns, db.timeframes, start, symbols[..i], TimeframesOr(timeframes), history)
    {
      assert symbols[..i + 1][..i] == symbols[..i];
      var results := LoadAllDataForSymbol(db, symbols[i], timeframes, history);
      all := all[symbols[i] := results];
    }
    assert symbols[..|symbols|] == symbols;
  }
}
