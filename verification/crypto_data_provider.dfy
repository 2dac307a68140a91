/**
 * The multi-source OHLCV provider (crypto_trading_bot/trading/crypto_data_provider.py,
 * `CryptoDataProvider`): symbol and timeframe spellings per source, the
 * per-source fetchers, the CCXT paging loop, and the fallback over an
 * ordered list of sources that returns the first non-empty frame.
 *
 * The network is a parameter: `Environment` says which client libraries
 * are installed and what each request would be answered with.
 */
module CryptoDataProvider {
  import opened Wrappers
  import opened Models
  import opened Frames
  import opened Text

  /** One entry of a conversion table: how ccxt, Binance and yfinance spell a name. */
  datatype Spellings = Spellings(ccxt: string, binance: string, yfinance: string)

  type Table = map<string, Spellings>

  /** `TIMEFRAME_MAPPING`: the provider's timeframe names and each source's spelling of them. */
  const TimeframeMapping: Table := map[
    "1min" := Spellings("1m", "1m", "1m"),
    "3min" := Spellings("3m", "3m", "5m"),
    "5min" := Spellings("5m", "5m", "5m"),
    "15min" := Spellings("15m", "15m", "15m"),
    "30min" := Spellings("30m", "30m", "30m"),
    "1hour" := Spellings("1h", "1h", "1h"),
    "4hour" := Spellings("4h", "4h", "4h"),
    "1day" := Spellings("1d", "1d", "1d"),
    "1week" := Spellings("1w", "1w", "1wk")]

  /** `SYMBOL_MAPPING`: six symbols spelled out per source. */
  const SymbolMapping: Table := map[
    "BTCUSDT" := Spellings("BTC/USDT", "BTCUSDT", "BTC-USD"),
    "ETHUSDT" := Spellings("ETH/USDT", "ETHUSDT", "ETH-USD"),
    "BNBUSDT" := Spellings("BNB/USDT", "BNBUSDT", "BNB-USD"),
    "ADAUSDT" := Spellings("ADA/USDT", "ADAUSDT", "ADA-USD"),
    "SOLUSDT" := Spellings("SOL/USDT", "SOLUSDT", "SOL-USD"),
    "XRPUSDT" := Spellings("XRP/USDT", "XRPUSDT", "XRP-USD")]

  /** `table[key].get(source, key)` for a key in the table, the key itself otherwise. */
  function Lookup(table: Table, key: string, source: string): string {
    if key !in table then key
    else if source == "ccxt" then table[key].ccxt
    else if source == "binance" then table[key].binance
    else if source == "yfinance" then table[key].yfinance
    else key
  }

  /**
   * `_convert_symbol`: the table entry for a listed symbol; otherwise a
   * `USDT` pair becomes `BASE/USDT` for ccxt and `BASE-USD` for yfinance,
   * and anything else is passed through. The six listed symbols follow
   * the same rule, so the result is that rule for every symbol.
   */
  function ConvertSymbol(symbol: string, source: string): (r: string)
    ensures EndsWith(symbol, "USDT") && source == "ccxt" ==> r == DropLast(symbol, 4) + "/USDT"
    ensures EndsWith(symbol, "USDT") && source == "yfinance" ==> r == DropLast(symbol, 4) + "-USD"
    ensures !EndsWith(symbol, "USDT") || (source != "ccxt" && source != "yfinance") ==> r == symbol
  {
    if symbol in SymbolMapping then
      MappedSymbolsFollowRule(symbol, source);
      Lookup(SymbolMapping, symbol, source)
    else SymbolRule(symbol, source)
  }

  /** The automatic spelling `_convert_symbol` falls back on for symbols outside the table. */
  function SymbolRule(symbol: string, source: string): string {
    if source == "ccxt" && EndsWith(symbol, "USDT") then DropLast(symbol, 4) + "/USDT"
    else if source == "yfinance" && EndsWith(symbol, "USDT") then DropLast(symbol, 4) + "-USD"
    else symbol
  }

  /** The six table entries spell their symbols exactly as the automatic rule would. */
  lemma MappedSymbolsFollowRule(symbol: string, source: string)
    requires symbol in SymbolMapping
    ensures Lookup(SymbolMapping, symbol, source) == SymbolRule(symbol, source)
  {
    MappedSymbolsAreUsdtPairs(symbol);
    MappedCcxtSpelling(symbol);
    MappedYahooSpelling(symbol);
  }

  /** Every listed symbol is a `USDT` pair that Binance spells as itself. */
  lemma MappedSymbolsAreUsdtPairs(symbol: string)
    requires symbol in SymbolMapping
    ensures EndsWith(symbol, "USDT") && SymbolMapping[symbol].binance == symbol
  {
  }

  lemma MappedCcxtSpelling(symbol: string)
    requires symbol in SymbolMapping
    ensures SymbolMapping[symbol].ccxt == DropLast(symbol, 4) + "/USDT"
  {
    if symbol == "BTCUSDT" { assert DropLast(symbol, 4) == "BTC"; }
    else if symbol == "ETHUSDT" { assert DropLast(symbol, 4) == "ETH"; }
    else if symbol == "BNBUSDT" { assert DropLast(symbol, 4) == "BNB"; }
    else if symbol == "ADAUSDT" { assert DropLast(symbol, 4) == "ADA"; }
    else if symbol == "SOLUSDT" { assert DropLast(symbol, 4) == "SOL"; }
    else { assert DropLast(symbol, 4) == "XRP"; }
  }

  lemma MappedYahooSpelling(symbol: string)
    requires symbol in SymbolMapping
    ensures SymbolMapping[symbol].yfinance == DropLast(symbol, 4) + "-USD"
  {
    if symbol == "BTCUSDT" { assert DropLast(symbol, 4) == "BTC"; }
    else if symbol == "ETHUSDT" { assert DropLast(symbol, 4) == "ETH"; }
    else if symbol == "BNBUSDT" { assert DropLast(symbol, 4) == "BNB"; }
    else if symbol == "ADAUSDT" { assert DropLast(symbol, 4) == "ADA"; }
    else if symbol == "SOLUSDT" { assert DropLast(symbol, 4) == "SOL"; }
    else { assert DropLast(symbol, 4) == "XRP"; }
  }

  /** The ccxt spelling of a `USDT` pair gives the pair back: drop `/USDT`, append `USDT`. */
  lemma CcxtSymbolRoundTrip(symbol: string)
    requires EndsWith(symbol, "USDT")
    ensures var r := ConvertSymbol(symbol, "ccxt");
      EndsWith(r, "/USDT") && DropLast(r, 5) + "USDT" == symbol
  {
    var r := ConvertSymbol(symbol, "ccxt");
    var base := DropLast(symbol, 4);
    assert r == base + "/USDT";
    assert r[|r| - 5..] == "/USDT";
    assert DropLast(r, 5) == base;
    assert symbol == base + "USDT";
  }

  /** Two `USDT` pairs with the same spelling at a source are the same pair. */
  lemma ConvertSymbolInjective(a: string, b: string, source: string)
    requires EndsWith(a, "USDT") && EndsWith(b, "USDT")
    requires ConvertSymbol(a, source) == ConvertSymbol(b, source)
    ensures a == b
  {
    assert a == DropLast(a, 4) + "USDT";
    assert b == DropLast(b, 4) + "USDT";
    if source == "ccxt" {
      var x, y := DropLast(a, 4) + "/USDT", DropLast(b, 4) + "/USDT";
      assert x[..|x| - 5] == DropLast(a, 4) && y[..|y| - 5] == DropLast(b, 4);
    } else if source == "yfinance" {
      var x, y := DropLast(a, 4) + "-USD", DropLast(b, 4) + "-USD";
      assert x[..|x| - 4] == DropLast(a, 4) && y[..|y| - 4] == DropLast(b, 4);
    }
  }

  /** `_convert_timeframe`: the table entry for a listed timeframe and source, the name itself otherwise. */
  function ConvertTimeframe(timeframe: string, source: string): (r: string)
    ensures timeframe !in TimeframeMapping ==> r == timeframe
    ensures source != "ccxt" && source != "binance" && source != "yfinance" ==> r == timeframe
    ensures source == "binance" ==> r == Lookup(TimeframeMapping, timeframe, "ccxt")
  {
    Lookup(TimeframeMapping, timeframe, source)
  }

  /** The intervals the Binance klines endpoint accepts (`interval_map`). */
  const BinanceIntervals: set<string> :=
    {"1m", "3m", "5m", "15m", "30m", "1h", "2h", "4h", "6h", "8h", "12h", "1d", "3d", "1w", "1M"}

  /** `interval_map.get(interval, '1h')`. */
  function BinanceInterval(interval: string): (r: string)
    ensures r in BinanceIntervals
    ensures interval in BinanceIntervals ==> r == interval
  {
    if interval in BinanceIntervals then interval else "1h"
  }

  /** Every listed timeframe reaches Binance as itself, never through the `1h` default. */
  lemma ListedTimeframesReachBinance(timeframe: string)
    requires timeframe in TimeframeMapping
    ensures ConvertTimeframe(timeframe, "binance") in BinanceIntervals
    ensures BinanceInterval(ConvertTimeframe(timeframe, "binance")) == ConvertTimeframe(timeframe, "binance")
  {
  }

  /** yfinance differs from ccxt only for `3min` (served as `5m`) and `1week` (`1wk`). */
  lemma YfinanceTimeframesDiffer(timeframe: string)
    requires timeframe in TimeframeMapping
    ensures ConvertTimeframe(timeframe, "yfinance") != ConvertTimeframe(timeframe, "ccxt") <==>
      timeframe == "3min" || timeframe == "1week"
  {
  }

  /** Python's `int(x)` on a float: truncation toward zero. */
  function Trunc(x: real): (r: int)
    ensures x >= 0.0 ==> r as real <= x < r as real + 1.0
    ensures x < 0.0 ==> r as real - 1.0 < x <= r as real
  {
    if x >= 0.0 then x.Floor else -((-x).Floor)
  }

  // ---------------------------------------------------------------------------
  // Replies and frames
  // ---------------------------------------------------------------------------

  /** A frame as the sources hand it over: every column as long as the index. */
  type ProviderFrame = f: Frame | WellFormed(f) witness Frame([], map[])

  /** One ccxt OHLCV row: the open time in milliseconds, then prices and volume. */
  datatype Kline = Kline(time: int, open: real, high: real, low: real, close: real, volume: real)

  /** A `fetch_ohlcv` call: symbol, timeframe, `since` (absent for the latest candles) and `limit`. */
  datatype CcxtQuery = CcxtQuery(symbol: string, timeframe: string, since: Option<int>, limit: int)

  datatype BatchReply = BatchRaised | Batch(rows: seq<Kline>)

  /** The requests to the other sources, each answered by a whole frame. */
  datatype FrameQuery =
    | BinanceHistory(symbol: string, interval: string, startMs: int, endMs: int)
    | BinanceRecent(symbol: string, interval: string, limit: int)
    | YahooHistory(symbol: string, interval: string, start: Time, end: Time)
    | YahooRecent(symbol: string, interval: string, period: string)

  datatype FrameReply = FrameRaised | FrameOk(frame: ProviderFrame)

  /**
   * Which clients are usable (ccxt installed with its exchange created,
   * `requests` installed, `yfinance` installed) and what the network
   * answers; a ccxt request also carries its attempt number, so a retry
   * may be answered differently.
   */
  datatype Environment = Environment(
    ccxtReady: bool, requestsReady: bool, yfinanceReady: bool,
    ccxt: (CcxtQuery, nat) -> BatchReply, other: FrameQuery -> FrameReply)

  /** One of the five value fields of a candle. */
  datatype Field = OpenField | HighField | LowField | CloseField | VolumeField

  function FieldOf(k: Kline, field: Field): real {
    match field
    case OpenField => k.open
    case HighField => k.high
    case LowField => k.low
    case CloseField => k.close
    case VolumeField => k.volume
  }

  /** One column of the candles' frame: the field of every row, in order. */
  function Column(rows: seq<Kline>, field: Field): (c: seq<Num>)
    ensures |c| == |rows|
    ensures forall i :: 0 <= i < |rows| ==> c[i] == Val(FieldOf(rows[i], field))
  {
    seq(|rows|, i requires 0 <= i < |rows| => Val(FieldOf(rows[i], field)))
  }

  /** The frame `pd.DataFrame(ohlcv, ...)` builds: indexed by the open time in seconds, lower-case OHLCV columns. */
  function KlinesFrame(rows: seq<Kline>): (r: ProviderFrame)
    ensures Len(r) == |rows| && r.cols.Keys == {"open", "high", "low", "close", "volume"}
    ensures forall i :: 0 <= i < |rows| ==> r.index[i] == rows[i].time as real / 1000.0
    ensures r.cols["open"] == Column(rows, OpenField) && r.cols["high"] == Column(rows, HighField)
    ensures r.cols["low"] == Column(rows, LowField) && r.cols["close"] == Column(rows, CloseField)
    ensures r.cols["volume"] == Column(rows, VolumeField)
  {
    var index := seq(|rows|, i requires 0 <= i < |rows| => rows[i].time as real / 1000.0);
    var cols := map["open" := Column(rows, OpenField), "high" := Column(rows, HighField),
                    "low" := Column(rows, LowField), "close" := Column(rows, CloseField),
                    "volume" := Column(rows, VolumeField)];
    assert forall c :: c in cols ==> |cols[c]| == |index|;
    Frame(index, cols)
  }

  /** The yfinance rename `{'Open': 'open', ...}`, one label at a time. */
  function LowerOne(c: string): string {
    if c == "Open" then "open"
    else if c == "High" then "high"
    else if c == "Low" then "low"
    else if c == "Close" then "close"
    else if c == "Volume" then "volume"
    else c
  }

  /** The column a lowered label takes its values from; a renamed column wins over a same-named one. */
  function LowerSource(cols: map<string, seq<Num>>, n: string): string {
    if n == "open" && "Open" in cols then "Open"
    else if n == "high" && "High" in cols then "High"
    else if n == "low" && "Low" in cols then "Low"
    else if n == "close" && "Close" in cols then "Close"
    else if n == "volume" && "Volume" in cols then "Volume"
    else n
  }

  /** A lowered label takes its values from the column it was lowered from. */
  lemma LoweredSource(cols: map<string, seq<Num>>, c: string)
    requires c in cols && LowerOne(c) != c
    ensures LowerSource(cols, LowerOne(c)) == c
  {
  }

  /** `df.rename(columns={'Open': 'open', ...})` on a yfinance frame. */
  function RenameLower(f: ProviderFrame): (r: ProviderFrame)
    ensures r.index == f.index
    ensures r.cols.Keys == set c | c in f.cols :: LowerOne(c)
    ensures forall c :: c in f.cols && LowerOne(c) != c ==> r.cols[LowerOne(c)] == f.cols[c]
  {
    var keys := set c | c in f.cols :: LowerOne(c);
    assert forall n :: n in keys ==> LowerSource(f.cols, n) in f.cols;
    var cols := map n | n in keys :: f.cols[LowerSource(f.cols, n)];
    assert forall c :: c in f.cols && LowerOne(c) != c ==> cols[LowerOne(c)] == f.cols[c] by {
      forall c | c in f.cols && LowerOne(c) != c
        ensures LowerOne(c) in cols && cols[LowerOne(c)] == f.cols[c]
      {
        assert LowerOne(c) in keys;
        LoweredSource(f.cols, c);
      }
    }
    Frame(f.index, cols)
  }

  /** A label the yfinance rename lowers is capitalised back to itself by the database rename. */
  lemma LowerThenCapitalise(c: string)
    requires LowerOne(c) != c
    ensures RenameOne(LowerOne(c)) == c && LowerOne(c) != RenameOne(LowerOne(c))
  {
  }

  /** A column the yfinance rename lowers survives the two renames with its values. */
  lemma RoundTripColumn(f: ProviderFrame, c: string)
    requires c in f.cols && LowerOne(c) != c
    ensures var h := RenameOhlcv(RenameLower(f));
      c in h.cols && h.cols[c] == f.cols[c]
  {
    var g := RenameLower(f);
    LowerThenCapitalise(c);
    assert LowerOne(c) in g.cols;
  }

  /** Every column of such a frame survives the two renames with its values. */
  lemma RoundTripValues(f: ProviderFrame)
    requires forall c :: c in f.cols ==> LowerOne(c) != c
    ensures var h := RenameOhlcv(RenameLower(f));
      forall c :: c in f.cols ==> c in h.cols && h.cols[c] == f.cols[c]
  {
    forall c | c in f.cols
      ensures c in RenameOhlcv(RenameLower(f)).cols && RenameOhlcv(RenameLower(f)).cols[c] == f.cols[c]
    {
      RoundTripColumn(f, c);
    }
  }

  /** Two column maps with the same labels and the same values under each are the same map. */
  lemma SameColumns(a: map<string, seq<Num>>, b: map<string, seq<Num>>)
    requires forall c :: c in b ==> c in a && a[c] == b[c]
    requires forall c :: c in a ==> c in b
    ensures a == b
  {
  }

  /** The two renames bring in no column the frame did not have. */
  lemma RoundTripKeys(f: ProviderFrame)
    requires forall c :: c in f.cols ==> LowerOne(c) != c
    ensures forall x :: x in RenameOhlcv(RenameLower(f)).cols ==> x in f.cols
  {
    var g := RenameLower(f);
    var h := RenameOhlcv(g);
    forall x | x in h.cols
      ensures x in f.cols
    {
      var l :| l in g.cols && x == RenameOne(l);
      var c :| c in f.cols && l == LowerOne(c);
      LowerThenCapitalise(c);
    }
  }

  /**
   * yfinance's capitalised OHLCV columns, lowered by the provider and
   * capitalised again for the database, come back as they were.
   */
  lemma RenameRoundTrip(f: ProviderFrame)
    requires forall c :: c in f.cols ==> LowerOne(c) != c
    ensures RenameOhlcv(RenameLower(f)) == f
  {
    var g := RenameLower(f);
    var h := RenameOhlcv(g);
    assert h.index == f.index;
    RoundTripKeys(f);
    RoundTripValues(f);
    SameColumns(h.cols, f.cols);
  }

  /** `df.tail(k)` for any integer: a negative `k` drops the first `-k` rows. */
  function PyTail(f: ProviderFrame, k: int): (r: ProviderFrame)
    ensures r.cols.Keys == f.cols.Keys && Len(r) <= Len(f)
    ensures r.index == f.index[Len(f) - Len(r)..]
    ensures k >= 0 ==> Len(r) == if k < Len(f) then k else Len(f)
    ensures k < 0 ==> Len(r) == if -k < Len(f) then Len(f) + k else 0
  {
    if k >= 0 then Tail(f, k) else Drop(f, if -k < Len(f) then -k else Len(f))
  }

  /** `if len(df) > limit: df = df.tail(limit)`: at most `limit` rows for a non-negative limit, the last ones kept. */
  function LimitRows(f: ProviderFrame, limit: int): (r: ProviderFrame)
    ensures r.cols.Keys == f.cols.Keys && Len(r) <= Len(f)
    ensures limit >= 0 ==> Len(r) == if Len(f) > limit then limit else Len(f)
    ensures r.index == f.index[Len(f) - Len(r)..]
  {
    if Len(f) > limit then PyTail(f, limit) else f
  }

  /** Limiting twice by the same non-negative limit is limiting once. */
  lemma LimitRowsIdempotent(f: ProviderFrame, limit: int)
    requires limit >= 0
    ensures LimitRows(LimitRows(f, limit), limit) == LimitRows(f, limit)
  {
  }

  function Min(a: int, b: int): int {
    if a < b then a else b
  }

  // ---------------------------------------------------------------------------
  // The most recent candles, per source
  // ---------------------------------------------------------------------------

  /** `_get_recent_data_via_ccxt`: one request for `min(limit, 1000)` of the latest candles, then the last `limit`. */
  function RecentViaCcxt(env: Environment, symbol: string, timeframe: string, limit: int): Option<ProviderFrame> {
    if !env.ccxtReady then None
    else
      match env.ccxt(CcxtQuery(ConvertSymbol(symbol, "ccxt"), ConvertTimeframe(timeframe, "ccxt"), None, Min(limit, 1000)), 1)
      case BatchRaised => None
      case Batch(rows) => if rows == [] then None else Some(LimitRows(KlinesFrame(rows), limit))
  }

  /** `_get_recent_data_via_binance_api`: one klines request, then the last `limit` rows. */
  function RecentViaBinance(env: Environment, symbol: string, timeframe: string, limit: int): Option<ProviderFrame> {
    if !env.requestsReady then None
    else
      var interval := BinanceInterval(ConvertTimeframe(timeframe, "binance"));
      match env.other(BinanceRecent(ConvertSymbol(symbol, "binance"), interval, Min(limit, 1000)))
      case FrameRaised => None
      case FrameOk(f) => if Len(f) == 0 then None else Some(LimitRows(f, limit))
  }

  /** The minute intervals yfinance serves for seven days only. */
  predicate YahooMinuteInterval(interval: string) {
    interval == "1m" || interval == "5m" || interval == "15m" || interval == "30m"
  }

  /**
   * The number of days of the yfinance `period` for the latest candles:
   * seven for minute intervals; for `1h`, a day per 24 candles plus one,
   * at least 7; otherwise a day per candle plus one, at least 30; never
   * more than 730.
   */
  function YahooRecentDays(interval: string, limit: int): (days: nat)
    ensures 7 <= days <= 730
    ensures YahooMinuteInterval(interval) ==> days == 7
    ensures !YahooMinuteInterval(interval) && interval != "1h" ==> days >= 30
  {
    if YahooMinuteInterval(interval) then 7
    else if interval == "1h" then
      var d := if 7 > limit / 24 + 1 then 7 else limit / 24 + 1;
      if d < 730 then d else 730
    else
      var d := if 30 > limit + 1 then 30 else limit + 1;
      if d < 730 then d else 730
  }

  /** The `period` string: the day count followed by `d`. */
  function YahooRecentPeriod(interval: string, limit: int): (period: string)
    ensures |period| >= 2 && period[|period| - 1] == 'd'
  {
    NatToString(YahooRecentDays(interval, limit)) + "d"
  }

  /** The period string reads back as the day count. */
  lemma YahooRecentPeriodParses(interval: string, limit: int)
    ensures var p := YahooRecentPeriod(interval, limit);
      ParseInt(DropLast(p, 1)) == Some(YahooRecentDays(interval, limit) as int)
  {
    var p := YahooRecentPeriod(interval, limit);
    var digits := NatToString(YahooRecentDays(interval, limit));
    assert DropLast(p, 1) == digits;
    ParseIntDigits(digits);
  }

  /** Below the 730-day cap, the requested period spans more time than `limit` candles of the interval. */
  lemma YahooRecentPeriodCovers(interval: string, limit: int)
    ensures interval == "1h" && limit < 730 * 24 ==> YahooRecentDays(interval, limit) * 24 > limit
    ensures (interval == "1d" || interval == "4h") && limit < 730 ==> YahooRecentDays(interval, limit) > limit
  {
  }

  /** `_get_recent_data_via_yfinance`: one history request for the period, renamed, then the last `limit` rows. */
  function RecentViaYahoo(env: Environment, symbol: string, timeframe: string, limit: int): Option<ProviderFrame> {
    if !env.yfinanceReady then None
    else
      var interval := ConvertTimeframe(timeframe, "yfinance");
      match env.other(YahooRecent(ConvertSymbol(symbol, "yfinance"), interval, YahooRecentPeriod(interval, limit)))
      case FrameRaised => None
      case FrameOk(f) => if IsEmpty(f) then None else Some(LimitRows(RenameLower(f), limit))
  }

  // ---------------------------------------------------------------------------
  // Fallback over sources
  // ---------------------------------------------------------------------------

  /** The default order of sources. */
  const DefaultSources: seq<string> := ["ccxt", "binance", "yfinance"]

  function SourcesOrDefault(sources: Option<seq<string>>): seq<string> {
    if sources.Some? then sources.value else DefaultSources
  }

  predicate KnownSource(name: string) {
    name == "ccxt" || name == "binance" || name == "yfinance"
  }

  /** A fetch result the fallback accepts: a frame that is not empty. */
  predicate Usable(r: Option<ProviderFrame>) {
    r.Some? && !IsEmpty(r.value)
  }

  /**
   * What one call asks every source for: the latest `limit` candles
   * (`get_recent_data`) or the candles of a window (`get_historical_data`).
   */
  datatype Fetcher =
    | RecentFetcher(env: Environment, symbol: string, timeframe: string, limit: int)
    | HistoryFetcher(env: Environment, symbol: string, timeframe: string, start: Time, end: Time)

  /** What the named source answers to the fetcher's request; an unknown name answers nothing. */
  function Fetch(fetcher: Fetcher, name: string): Option<ProviderFrame> {
    match fetcher
    case RecentFetcher(env, symbol, timeframe, limit) => RecentFrom(env, symbol, timeframe, limit, name)
    case HistoryFetcher(env, symbol, timeframe, start, end) => HistoryFrom(env, symbol, timeframe, start, end, name)
  }

  /** What each named source answers, in the order of the names. */
  function Responses(names: seq<string>, fetcher: Fetcher): (a: seq<Option<ProviderFrame>>)
    ensures |a| == |names|
    ensures forall j :: 0 <= j < |names| ==> a[j] == Fetch(fetcher, names[j])
  {
    seq(|names|, j requires 0 <= j < |names| => Fetch(fetcher, names[j]))
  }

  /** Position `j` names a known source whose answer is a usable frame. */
  predicate Answers(names: seq<string>, answers: seq<Option<ProviderFrame>>, j: nat)
    requires j < |names| == |answers|
  {
    KnownSource(names[j]) && Usable(answers[j])
  }

  /**
   * The position and frame of the first source from position `i` on that
   * is known and yields a usable frame; unknown names are skipped.
   */
  function FirstUsable(names: seq<string>, i: nat, answers: seq<Option<ProviderFrame>>):
    (r: Option<(nat, ProviderFrame)>)
    requires i <= |names| == |answers|
    ensures r.Some? ==>
      i <= r.value.0 < |names| && KnownSource(names[r.value.0]) &&
      answers[r.value.0] == Some(r.value.1) && !IsEmpty(r.value.1)
    decreases |names| - i
  {
    if i == |names| then None
    else if Answers(names, answers, i) then Some((i, answers[i].value))
    else FirstUsable(names, i + 1, answers)
  }

  /** The result is the first usable source: no known source before it gives a usable frame. */
  lemma {:induction false} FirstUsableIsFirst(names: seq<string>, i: nat, answers: seq<Option<ProviderFrame>>)
    requires i <= |names| == |answers|
    ensures var r := FirstUsable(names, i, answers);
      forall j :: i <= j < |names| && (r.None? || j < r.value.0) ==> !Answers(names, answers, j)
    decreases |names| - i
  {
    if i < |names| {
      FirstUsableIsFirst(names, i + 1, answers);
    }
  }

  /** Sources after the one that answers are never consulted: changing what they would return changes nothing. */
  lemma {:induction false} FirstUsableIgnoresLater(names: seq<string>, i: nat,
                                                   answers: seq<Option<ProviderFrame>>,
                                                   answers': seq<Option<ProviderFrame>>)
    requires i <= |names| == |answers| == |answers'|
    requires FirstUsable(names, i, answers).Some?
    requires forall j :: i <= j <= FirstUsable(names, i, answers).value.0 ==> answers[j] == answers'[j]
    ensures FirstUsable(names, i, answers') == FirstUsable(names, i, answers)
    decreases |names| - i
  {
    if !Answers(names, answers, i) {
      FirstUsableIgnoresLater(names, i + 1, answers, answers');
    }
  }

  /** The fetcher of one known source for the latest candles. */
  function RecentFrom(env: Environment, symbol: string, timeframe: string, limit: int, name: string):
    Option<ProviderFrame>
  {
    if name == "ccxt" then RecentViaCcxt(env, symbol, timeframe, limit)
    else if name == "binance" then RecentViaBinance(env, symbol, timeframe, limit)
    else if name == "yfinance" then RecentViaYahoo(env, symbol, timeframe, limit)
    else None
  }

  /** One known source's fetcher for the latest candles, called by name. */
  method RecentVia(env: Environment, symbol: string, timeframe: string, limit: int, source: string)
    returns (df: Option<ProviderFrame>)
    requires KnownSource(source)
    ensures df == RecentFrom(env, symbol, timeframe, limit, source)
  {
    if source == "ccxt" {
      df := RecentViaCcxt(env, symbol, timeframe, limit);
    } else if source == "binance" {
      df := RecentViaBinance(env, symbol, timeframe, limit);
    } else {
      df := RecentViaYahoo(env, symbol, timeframe, limit);
    }
  }

  /** One pass of the fallback loop of `get_recent_data`: the named source's frame when it is known and usable. */
  method TryRecent(env: Environment, symbol: string, timeframe: string, limit: int,
                   names: seq<string>, i: nat, ghost answers: seq<Option<ProviderFrame>>)
    returns (found: Option<ProviderFrame>)
    requires i < |names| == |answers|
    requires answers == Responses(names, RecentFetcher(env, symbol, timeframe, limit))
    ensures found.Some? <==> Answers(names, answers, i)
    ensures found.Some? ==> answers[i] == found
  {
    var source := names[i];
    if !KnownSource(source) {
      return None;
    }
    var df := RecentVia(env, symbol, timeframe, limit, source);
    assert answers[i] == df;
    if df.Some? && !IsEmpty(df.value) {
      return df;
    }
    return None;
  }

  /** What `get_recent_data` returns: the first usable source's frame, cut to the last `limit` rows. */
  function RecentOutcome(env: Environment, symbol: string, timeframe: string, limit: int, sources: Option<seq<string>>):
    Option<ProviderFrame>
  {
    var names := SourcesOrDefault(sources);
    var first := FirstUsable(names, 0, Responses(names, RecentFetcher(env, symbol, timeframe, limit)));
    if first.None? then None else Some(LimitRows(first.value.1, limit))
  }

  /** A result holds at most `limit` rows, and at least one when the limit is positive. */
  lemma RecentOutcomeBounded(env: Environment, symbol: string, timeframe: string, limit: int, sources: Option<seq<string>>)
    requires limit >= 0
    ensures var r := RecentOutcome(env, symbol, timeframe, limit, sources);
      r.Some? ==> Len(r.value) <= limit && (limit > 0 ==> Len(r.value) > 0)
  {
  }

  /** `get_recent_data`: try each source in order and return the first non-empty frame; `None` when all fail. */
  method GetRecentData(env: Environment, symbol: string, timeframe: string, limit: int, sources: Option<seq<string>>)
    returns (r: Option<ProviderFrame>)
    ensures r == RecentOutcome(env, symbol, timeframe, limit, sources)
  {
    var names := SourcesOrDefault(sources);
    ghost var answers := Responses(names, RecentFetcher(env, symbol, timeframe, limit));
    for i := 0 to |names|
      invariant FirstUsable(names, 0, answers) == FirstUsable(names, i, answers)
    {
      var found := TryRecent(env, symbol, timeframe, limit, names, i, answers);
      if found.Some? {
        return Some(LimitRows(found.value, limit));
      }
    }
    return None;
  }

  // ---------------------------------------------------------------------------
  // History over a window, per source
  // ---------------------------------------------------------------------------

  /** The largest number of CCXT requests one download makes (`max_batches`). */
  const MaxBatches: nat := 1000

  /** The rows one CCXT round at `cursor` yields: the request, retried once when it raises; `None` when both raise. */
  function BatchAt(env: Environment, symbol: string, timeframe: string, cursor: int): Option<seq<Kline>> {
    var q := CcxtQuery(symbol, timeframe, Some(cursor), 1000);
    match env.ccxt(q, 1)
    case Batch(rows) => Some(rows)
    case BatchRaised =>
      match env.ccxt(q, 2)
      case Batch(rows) => Some(rows)
      case BatchRaised => None
  }

  /**
   * The rows the CCXT paging loop collects from `cursor` with `left`
   * rounds allowed, and the rounds it uses: it stops at the end of the
   * window, after the last allowed round, on a round that fails twice,
   * on an empty batch, or after a batch shorter than 1000 rows, and
   * otherwise resumes one millisecond after the batch's last candle.
   */
  function Paged(env: Environment, symbol: string, timeframe: string, cursor: int, endMs: int, left: nat):
    (r: (seq<Kline>, nat))
    ensures r.1 <= left
    ensures r.0 != [] ==> r.1 > 0
    decreases left
  {
    if cursor >= endMs || left == 0 then ([], 0)
    else
      var batch := BatchAt(env, symbol, timeframe, cursor);
      if batch.None? || batch.value == [] then ([], 1)
      else
        var rows := batch.value;
        if |rows| < 1000 then (rows, 1)
        else
          var rest := Paged(env, symbol, timeframe, rows[|rows| - 1].time + 1, endMs, left - 1);
          (rows + rest.0, 1 + rest.1)
  }

  /** Candle times strictly increasing. */
  predicate Ascending(rows: seq<Kline>) {
    forall i, j :: 0 <= i < j < |rows| ==> rows[i].time < rows[j].time
  }

  /** Every candle opens at or after `since`. */
  predicate NotBefore(rows: seq<Kline>, since: int) {
    forall i :: 0 <= i < |rows| ==> rows[i].time >= since
  }

  /** Ascending rows followed by ascending rows that open after the last of them are ascending. */
  lemma AscendingConcat(rows: seq<Kline>, rest: seq<Kline>, since: int)
    requires rows != [] && Ascending(rows) && NotBefore(rows, since)
    requires Ascending(rest) && NotBefore(rest, rows[|rows| - 1].time + 1)
    ensures Ascending(rows + rest) && NotBefore(rows + rest, since)
  {
    forall i, j | 0 <= i < j < |rows + rest|
      ensures (rows + rest)[i].time < (rows + rest)[j].time
    {
      if j >= |rows| && i < |rows| {
        assert rows[i].time <= rows[|rows| - 1].time;
        assert rest[j - |rows|].time >= rows[|rows| - 1].time + 1;
      }
    }
  }

  /** The exchange answers a `since` request with ascending candles that open no earlier than `since`. */
  ghost predicate HonoursSince(env: Environment, symbol: string, timeframe: string) {
    forall c: int, attempt: nat :: env.ccxt(CcxtQuery(symbol, timeframe, Some(c), 1000), attempt).Batch? ==>
      Ascending(env.ccxt(CcxtQuery(symbol, timeframe, Some(c), 1000), attempt).rows) &&
      NotBefore(env.ccxt(CcxtQuery(symbol, timeframe, Some(c), 1000), attempt).rows, c)
  }

  /** Such an exchange's round at `cursor`, retried or not, yields ascending candles from `cursor` on. */
  lemma BatchHonoursSince(env: Environment, symbol: string, timeframe: string, cursor: int)
    requires HonoursSince(env, symbol, timeframe)
    ensures var batch := BatchAt(env, symbol, timeframe, cursor);
      batch.Some? ==> Ascending(batch.value) && NotBefore(batch.value, cursor)
  {
    var q := CcxtQuery(symbol, timeframe, Some(cursor), 1000);
    assert env.ccxt(q, 1).Batch? ==> Ascending(env.ccxt(q, 1).rows) && NotBefore(env.ccxt(q, 1).rows, cursor);
    assert env.ccxt(q, 2).Batch? ==> Ascending(env.ccxt(q, 2).rows) && NotBefore(env.ccxt(q, 2).rows, cursor);
  }

  /** With such an exchange, paging never repeats or reorders a candle: the collected rows ascend from the start cursor. */
  lemma {:induction false} PagedAscending(env: Environment, symbol: string, timeframe: string, cursor: int, endMs: int, left: nat)
    requires HonoursSince(env, symbol, timeframe)
    ensures Ascending(Paged(env, symbol, timeframe, cursor, endMs, left).0)
    ensures NotBefore(Paged(env, symbol, timeframe, cursor, endMs, left).0, cursor)
    decreases left
  {
    if cursor < endMs && left > 0 {
      var batch := BatchAt(env, symbol, timeframe, cursor);
      BatchHonoursSince(env, symbol, timeframe, cursor);
      if batch.Some? && batch.value != [] && |batch.value| >= 1000 {
        var rows := batch.value;
        var next := rows[|rows| - 1].time + 1;
        PagedAscending(env, symbol, timeframe, next, endMs, left - 1);
        var rest := Paged(env, symbol, timeframe, next, endMs, left - 1).0;
        assert Paged(env, symbol, timeframe, cursor, endMs, left).0 == rows + rest;
        AscendingConcat(rows, rest, cursor);
      }
    }
  }

  /** The paging loop's progress: the rows and rounds so far, followed by what paging from `cursor` still yields, make up `total`. */
  predicate PagingFrom(env: Environment, symbol: string, timeframe: string, endMs: int, total: (seq<Kline>, nat),
                       rows: seq<Kline>, batches: nat, cursor: int)
    requires batches <= MaxBatches
  {
    var rest := Paged(env, symbol, timeframe, cursor, endMs, MaxBatches - batches);
    total.0 == rows + rest.0 && total.1 == batches + rest.1
  }

  /** Once the loop has stopped, by a `break` or at the end of the window or the round budget, it holds `total`. */
  lemma PagingStopped(env: Environment, symbol: string, timeframe: string, endMs: int, total: (seq<Kline>, nat),
                      rows: seq<Kline>, batches: nat, cursor: int)
    requires batches <= MaxBatches
    requires total == (rows, batches) ||
      (PagingFrom(env, symbol, timeframe, endMs, total, rows, batches, cursor) && (cursor >= endMs || batches == MaxBatches))
    ensures total == (rows, batches)
  {
    if cursor >= endMs || batches == MaxBatches {
      assert rows + [] == rows;
    }
  }

  /** One round of the paging loop: the request at `cursor`, and its retry when it raises. */
  method FetchRound(env: Environment, symbol: string, timeframe: string, cursor: int) returns (got: Option<seq<Kline>>)
    ensures got == BatchAt(env, symbol, timeframe, cursor)
  {
    var q := CcxtQuery(symbol, timeframe, Some(cursor), 1000);
    var reply := env.ccxt(q, 1);
    if reply.BatchRaised? {
      reply := env.ccxt(q, 2);
      if reply.BatchRaised? {
        return None;
      }
    }
    return Some(reply.rows);
  }

  /**
   * One round of paging, seen from the loop: a failed or empty round ends
   * it with the rows so far, a short batch ends it with that batch added,
   * and a full batch leaves the loop to go on after the batch's last candle.
   */
  lemma PagingRound(env: Environment, symbol: string, timeframe: string, endMs: int, total: (seq<Kline>, nat),
                    rows: seq<Kline>, batches: nat, cursor: int, got: Option<seq<Kline>>)
    requires batches < MaxBatches && cursor < endMs
    requires PagingFrom(env, symbol, timeframe, endMs, total, rows, batches, cursor)
    requires got == BatchAt(env, symbol, timeframe, cursor)
    ensures got.None? || got.value == [] ==> total == (rows, batches + 1)
    ensures got.Some? && 0 < |got.value| < 1000 ==> total == (rows + got.value, batches + 1)
    ensures got.Some? && |got.value| >= 1000 ==>
      PagingFrom(env, symbol, timeframe, endMs, total, rows + got.value, batches + 1,
                 got.value[|got.value| - 1].time + 1)
  {
    if got.None? || got.value == [] {
      assert rows + [] == rows;
    } else if |got.value| >= 1000 {
      var next := Paged(env, symbol, timeframe, got.value[|got.value| - 1].time + 1, endMs, MaxBatches - (batches + 1));
      assert rows + (got.value + next.0) == (rows + got.value) + next.0;
    }
  }

  /**
   * The body of the paging loop: one round at `cursor`, the rows it adds,
   * where the next round starts, and whether the loop breaks off.
   */
  method PagingStep(env: Environment, symbol: string, timeframe: string, endMs: int, ghost total: (seq<Kline>, nat),
                    rows: seq<Kline>, batches: nat, cursor: int)
    returns (rows': seq<Kline>, batches': nat, cursor': int, stop: bool)
    requires batches < MaxBatches && cursor < endMs
    requires PagingFrom(env, symbol, timeframe, endMs, total, rows, batches, cursor)
    ensures batches' == batches + 1
    ensures stop ==> total == (rows', batches')
    ensures !stop ==> PagingFrom(env, symbol, timeframe, endMs, total, rows', batches', cursor')
  {
    var got := FetchRound(env, symbol, timeframe, cursor);
    PagingRound(env, symbol, timeframe, endMs, total, rows, batches, cursor, got);
    batches' := batches + 1;
    if got.None? || got.value == [] {
      return rows, batches', cursor, true;
    }
    var batch := got.value;
    rows' := rows + batch;
    cursor' := batch[|batch| - 1].time + 1;
    stop := |batch| < 1000;
  }

  /** The CCXT paging loop of `get_data_via_ccxt`: the rows collected and the rounds used. */
  method FetchCcxtBatches(env: Environment, symbol: string, timeframe: string, since: int, endMs: int)
    returns (rows: seq<Kline>, batches: nat)
    ensures rows == Paged(env, symbol, timeframe, since, endMs, MaxBatches).0
    ensures batches == Paged(env, symbol, timeframe, since, endMs, MaxBatches).1
    ensures batches <= MaxBatches
  {
    rows := [];
    batches := 0;
    var cursor := since;
    ghost var total := Paged(env, symbol, timeframe, since, endMs, MaxBatches);
    assert total.0 == rows + total.0;
    while cursor < endMs && batches < MaxBatches
      invariant batches <= MaxBatches
      invariant PagingFrom(env, symbol, timeframe, endMs, total, rows, batches, cursor)
      decreases MaxBatches - batches
    {
      var stop;
      rows, batches, cursor, stop := PagingStep(env, symbol, timeframe, endMs, total, rows, batches, cursor);
      if stop {
        break;
      }
    }
    PagingStopped(env, symbol, timeframe, endMs, total, rows, batches, cursor);
  }

  /**
   * `get_data_via_ccxt`: the window's ends in milliseconds, the paging
   * loop, and the collected rows as a frame; `None` when ccxt is not
   * usable or nothing was collected.
   */
  function CcxtHistory(env: Environment, symbol: string, timeframe: string, start: Time, end: Time):
    Option<ProviderFrame>
  {
    if !env.ccxtReady then None
    else
      var rows := Paged(env, ConvertSymbol(symbol, "ccxt"), ConvertTimeframe(timeframe, "ccxt"),
        Trunc(start * 1000.0), Trunc(end * 1000.0), MaxBatches).0;
      if rows == [] then None else Some(KlinesFrame(rows))
  }

  method GetDataViaCcxt(env: Environment, symbol: string, timeframe: string, start: Time, end: Time)
    returns (r: Option<ProviderFrame>)
    ensures r == CcxtHistory(env, symbol, timeframe, start, end)
  {
    if !env.ccxtReady {
      return None;
    }
    var ccxtSymbol := ConvertSymbol(symbol, "ccxt");
    var ccxtTimeframe := ConvertTimeframe(timeframe, "ccxt");
    var since := Trunc(start * 1000.0);
    var endMs := Trunc(end * 1000.0);
    var rows, batches := FetchCcxtBatches(env, ccxtSymbol, ccxtTimeframe, since, endMs);
    if rows == [] {
      return None;
    }
    r := Some(KlinesFrame(rows));
  }

  /** `get_data_via_binance_api`: the whole paged klines download, as one reply. */
  function BinanceHistoryOf(env: Environment, symbol: string, timeframe: string, start: Time, end: Time):
    Option<ProviderFrame>
  {
    if !env.requestsReady then None
    else
      var interval := BinanceInterval(ConvertTimeframe(timeframe, "binance"));
      match env.other(BinanceHistory(ConvertSymbol(symbol, "binance"), interval, Trunc(start * 1000.0), Trunc(end * 1000.0)))
      case FrameRaised => None
      case FrameOk(f) => if Len(f) == 0 then None else Some(f)
  }

  /** The start yfinance is asked for: for a minute interval, a window of more than seven whole days is cut to the last seven. */
  function YahooStart(start: Time, end: Time, interval: string): (r: Time)
    ensures !YahooMinuteInterval(interval) ==> r == start
    ensures r >= start
    ensures YahooMinuteInterval(interval) ==> end - r < 8.0 * 86400.0
  {
    if YahooMinuteInterval(interval) && ((end - start) / 86400.0).Floor > 7 then end - 7.0 * 86400.0 else start
  }

  /** `get_data_via_yfinance`: one history request over the (possibly shortened) window, renamed. */
  function YahooHistoryOf(env: Environment, symbol: string, timeframe: string, start: Time, end: Time):
    Option<ProviderFrame>
  {
    if !env.yfinanceReady then None
    else
      var interval := ConvertTimeframe(timeframe, "yfinance");
      match env.other(YahooHistory(ConvertSymbol(symbol, "yfinance"), interval, YahooStart(start, end, interval), end))
      case FrameRaised => None
      case FrameOk(f) => if IsEmpty(f) then None else Some(RenameLower(f))
  }

  /** The fetcher of one known source for a window. */
  function HistoryFrom(env: Environment, symbol: string, timeframe: string, start: Time, end: Time, name: string):
    Option<ProviderFrame>
  {
    if name == "ccxt" then CcxtHistory(env, symbol, timeframe, start, end)
    else if name == "binance" then BinanceHistoryOf(env, symbol, timeframe, start, end)
    else if name == "yfinance" then YahooHistoryOf(env, symbol, timeframe, start, end)
    else None
  }

  /** One known source's fetcher for a window, called by name. */
  method HistoryVia(env: Environment, symbol: string, timeframe: string, start: Time, end: Time, source: string)
    returns (df: Option<ProviderFrame>)
    requires KnownSource(source)
    ensures df == HistoryFrom(env, symbol, timeframe, start, end, source)
  {
    if source == "ccxt" {
      df := GetDataViaCcxt(env, symbol, timeframe, start, end);
    } else if source == "binance" {
      df := BinanceHistoryOf(env, symbol, timeframe, start, end);
    } else {
      df := YahooHistoryOf(env, symbol, timeframe, start, end);
    }
  }

  /** One pass of the fallback loop of `get_historical_data`: the named source's frame when it is known and usable. */
  method TryHistory(env: Environment, symbol: string, timeframe: string, start: Time, end: Time,
                    names: seq<string>, i: nat, ghost answers: seq<Option<ProviderFrame>>)
    returns (found: Option<ProviderFrame>)
    requires i < |names| == |answers|
    requires answers == Responses(names, HistoryFetcher(env, symbol, timeframe, start, end))
    ensures found.Some? <==> Answers(names, answers, i)
    ensures found.Some? ==> answers[i] == found
  {
    var source := names[i];
    if !KnownSource(source) {
      return None;
    }
    var df := HistoryVia(env, symbol, timeframe, start, end, source);
    assert answers[i] == df;
    if df.Some? && !IsEmpty(df.value) {
      return df;
    }
    return None;
  }

  /** The window of `get_historical_data`: the end defaults to now, the start to `years` of 365 days before the end. */
  function HistoryWindow(years: real, start: Option<Time>, end: Option<Time>, now: Time): (w: (Time, Time))
    ensures w.1 == if end.Some? then end.value else now
    ensures start.Some? ==> w.0 == start.value
    ensures start.None? ==> w.1 - w.0 == years * 365.0 * 86400.0
  {
    var e := if end.Some? then end.value else now;
    (if start.Some? then start.value else e - years * 365.0 * 86400.0, e)
  }

  /** What `get_historical_data` returns: the first usable source's frame for the window. */
  function HistoryOutcome(env: Environment, symbol: string, timeframe: string, years: real,
                          start: Option<Time>, end: Option<Time>, sources: Option<seq<string>>, now: Time):
    Option<ProviderFrame>
  {
    var w := HistoryWindow(years, start, end, now);
    var names := SourcesOrDefault(sources);
    var first := FirstUsable(names, 0, Responses(names, HistoryFetcher(env, symbol, timeframe, w.0, w.1)));
    if first.None? then None else Some(first.value.1)
  }

  /** `get_historical_data`: try each source in order over the window and return the first non-empty frame. */
  method GetHistoricalData(env: Environment, symbol: string, timeframe: string, years: real,
                           start: Option<Time>, end: Option<Time>, sources: Option<seq<string>>, now: Time)
    returns (r: Option<ProviderFrame>)
    ensures r == HistoryOutcome(env, symbol, timeframe, years, start, end, sources, now)
  {
    var names := SourcesOrDefault(sources);
    var w := HistoryWindow(years, start, end, now);
    var startDate, endDate := w.0, w.1;
    ghost var answers := Responses(names, HistoryFetcher(env, symbol, timeframe, startDate, endDate));
    for i := 0 to |names|
      invariant FirstUsable(names, 0, answers) == FirstUsable(names, i, answers)
    {
      var found := TryHistory(env, symbol, timeframe, startDate, endDate, names, i, answers);
      if found.Some? {
        return found;
      }
    }
    return None;
  }

  /** The five columns a candlestick chart needs, lower-case as the sources deliver them. */
  const ChartColumns: seq<string> := ["open", "high", "low", "close", "volume"]

  /** The selected columns, each capitalised (`[col.capitalize() for col in required_columns]`). */
  function CandlestickFrame(f: ProviderFrame): (r: ProviderFrame)
    requires HasColumns(f, ChartColumns)
    ensures r.index == f.index && r.cols.Keys == {"Open", "High", "Low", "Close", "Volume"}
    ensures forall c :: c in f.cols && RenameOne(c) != c ==> r.cols[RenameOne(c)] == f.cols[c]
  {
    assert "open" in f.cols && "high" in f.cols && "low" in f.cols && "close" in f.cols && "volume" in f.cols by {
      assert ChartColumns[0] == "open" && ChartColumns[1] == "high" && ChartColumns[2] == "low";
      assert ChartColumns[3] == "close" && ChartColumns[4] == "volume";
    }
    Frame(f.index, map["Open" := f.cols["open"], "High" := f.cols["high"], "Low" := f.cols["low"],
                       "Close" := f.cols["close"], "Volume" := f.cols["volume"]])
  }

  /**
   * `get_data_for_candlestick_chart`: the history for `years` up to now,
   * cut to the five OHLCV columns and capitalised; `None` without data or
   * with a column missing.
   */
  method GetDataForCandlestickChart(env: Environment, symbol: string, timeframe: string, years: real, now: Time)
    returns (r: Option<ProviderFrame>)
    ensures var h := HistoryOutcome(env, symbol, timeframe, years, None, None, None, now);
      r.Some? <==> h.Some? && HasColumns(h.value, ChartColumns)
    ensures r.Some? ==> HasOhlcv(r.value) && r.value.index == HistoryOutcome(env, symbol, timeframe, years, None, None, None, now).value.index
    ensures var h := HistoryOutcome(env, symbol, timeframe, years, None, None, None, now);
      r.Some? ==> h.Some? && HasColumns(h.value, ChartColumns) && r.value == CandlestickFrame(h.value)
  {
    var df := GetHistoricalData(env, symbol, timeframe, years, None, None, None, now);
    if df.None? || IsEmpty(df.value) {
      return None;
    }
    if !HasColumns(df.value, ChartColumns) {
      return None;
    }
    r := Some(CandlestickFrame(df.value));
  }
}
