/**
 * The most traded coins on Huobi (crypto_trading_bot/trading/top_coins_fetcher.py,
 * `TopCoinsFetcher`): the online USDT pairs, each with its 24-hour ticker,
 * sorted by volume and cut to a limit; the symbol list derived from it;
 * the requests made to load their history; and the symbols the database
 * does not list yet. The exchange's replies are parameters.
 */
module TopCoinsFetcher {
  import opened Wrappers
  import opened Models
  import opened Text
  import opened Sorting
  import DbSchema
  import DataImport
  import Lists

  /** An exchange symbol record: the pair's name, its quote currency and its state. */
  datatype PairInfo = PairInfo(symbol: string, quoteCurrency: string, state: string)

  /** The 24-hour ticker request for a pair: it raised, it gave nothing, or it gave fields that may be `null`. */
  datatype TickerReply = TickerRaised | NoTicker | TickerOk(vol: Option<real>, close: Option<real>, open: Option<real>)

  /** One collected coin, as the dictionary appended to `coins_data`. */
  datatype CoinData = CoinData(symbol: string, volume: real, price: real, priceChange: real, priceChangePercent: real)

  /** `self.top_coins_count`. */
  const TopCoinsCount: int := 30

  /** The timeframes loaded when none are given. */
  const DefaultTimeframes: seq<string> := ["1day", "4hour", "1hour", "15min"]

  /** A pair the fetcher considers: quoted in USDT in any letter case, and online. */
  predicate UsdtPair(p: PairInfo) {
    Lower(p.quoteCurrency) == "usdt" && p.state == "online"
  }

  /** The change in percent of the opening price; 0 when the opening price is not positive. */
  function ChangePercent(close: real, open: real): real {
    if open > 0.0 then (close - open) / open * 100.0 else 0.0
  }

  /** A ticker the loop keeps: it answered with a non-zero volume and both prices (`float(None)` raises). */
  predicate Usable(t: TickerReply) {
    t.TickerOk? && t.vol.Some? && t.vol.value != 0.0 && t.close.Some? && t.open.Some?
  }

  /** The dictionary the loop appends for a pair whose ticker is usable. */
  function CoinOf(p: PairInfo, t: TickerReply): (c: CoinData)
    requires Usable(t)
    ensures c.symbol == Lower(p.symbol) && c.volume == t.vol.value && c.price == t.close.value
    ensures c.price - c.priceChange == t.open.value
    ensures t.open.value <= 0.0 ==> c.priceChangePercent == 0.0
    ensures t.open.value > 0.0 ==> c.priceChangePercent * t.open.value == c.priceChange * 100.0
  {
    var close := t.close.value;
    var open := t.open.value;
    CoinData(Lower(p.symbol), t.vol.value, close, close - open, ChangePercent(close, open))
  }

  /** `coins_data` after the loop over `pairs`: one entry per pair whose ticker is usable, in order. */
  function CoinsData(pairs: seq<PairInfo>, tickers: string -> TickerReply): (r: seq<CoinData>)
    ensures |r| <= |pairs|
  {
    if pairs == [] then []
    else
      var p := pairs[|pairs| - 1];
      var t := tickers(Lower(p.symbol));
      CoinsData(pairs[..|pairs| - 1], tickers) + (if Usable(t) then [CoinOf(p, t)] else [])
  }

  /** A collected coin: a non-zero volume, under the lower-cased name of one of the pairs. */
  predicate FromPairs(c: CoinData, pairs: seq<PairInfo>) {
    c.volume != 0.0 && exists p :: p in pairs && c.symbol == Lower(p.symbol)
  }

  /** Every collected coin has a non-zero volume and the lower-cased name of one of the pairs. */
  lemma {:induction false} CoinsDataFrom(pairs: seq<PairInfo>, tickers: string -> TickerReply)
    ensures forall c :: c in CoinsData(pairs, tickers) ==> FromPairs(c, pairs)
  {
    if pairs != [] {
      var init := pairs[..|pairs| - 1];
      var last := pairs[|pairs| - 1];
      CoinsDataFrom(init, tickers);
      forall c | c in CoinsData(pairs, tickers)
        ensures FromPairs(c, pairs)
      {
        if c in CoinsData(init, tickers) {
          var p :| p in init && c.symbol == Lower(p.symbol);
          assert p in pairs;
        } else {
          assert c.symbol == Lower(last.symbol);
        }
      }
    }
  }

  /** The sort key of `sort(key=volume, reverse=True)`: ascending in the negated volume is descending in the volume. */
  function NegVolume(c: CoinData): real {
    -c.volume
  }

  /**
   * `get_top_coins_by_volume`: `[]` when the symbol request raised or gave
   * nothing; otherwise the coins of the online USDT pairs, sorted by
   * volume from the largest (ties in listing order) and cut to `limit`.
   */
  function TopCoins(symbols: Option<seq<PairInfo>>, tickers: string -> TickerReply, limit: int): (r: seq<CoinData>)
    ensures symbols.None? || symbols.value == [] ==> r == []
    ensures limit >= 0 ==> |r| <= limit
  {
    if symbols.None? || symbols.value == [] then []
    else Lists.SliceTo(SortBy(CoinsData(Lists.Filter(symbols.value, UsdtPair), tickers), NegVolume), limit)
  }

  /**
   * `get_top_coins_by_volume` as the source runs it: the comprehension
   * over the pairs, the loop collecting tickers, the in-place sort and the
   * slice.
   */
  method GetTopCoinsByVolume(symbols: Option<seq<PairInfo>>, tickers: string -> TickerReply, limit: int)
    returns (top: seq<CoinData>)
    ensures top == TopCoins(symbols, tickers, limit)
  {
    if symbols.None? || symbols.value == [] {
      return [];
    }
    var usdtPairs := Lists.Filter(symbols.value, UsdtPair);
    var coinsData: seq<CoinData> := [];
    for j := 0 to |usdtPairs|
      invariant coinsData == CoinsData(usdtPairs[..j], tickers)
    {
      var pair := usdtPairs[j];
      var symbol := Lower(pair.symbol);
      var ticker := tickers(symbol);
      assert usdtPairs[..j + 1][..j] == usdtPairs[..j];
      if ticker.TickerOk? && ticker.vol.Some? && ticker.vol.value != 0.0 && ticker.close.Some? && ticker.open.Some? {
        coinsData := coinsData + [CoinOf(pair, ticker)];
      }
    }
    assert usdtPairs[..|usdtPairs|] == usdtPairs;
    coinsData := SortBy(coinsData, NegVolume);
    top := Lists.SliceTo(coinsData, limit);
  }

  /** The top coins are in order of volume, the largest first. */
  lemma TopCoinsByVolumeDescending(symbols: Option<seq<PairInfo>>, tickers: string -> TickerReply, limit: int)
    ensures var r := TopCoins(symbols, tickers, limit);
      forall i, j :: 0 <= i < j < |r| ==> r[i].volume >= r[j].volume
  {
    if symbols.Some? && symbols.value != [] {
      var sorted := SortBy(CoinsData(Lists.Filter(symbols.value, UsdtPair), tickers), NegVolume);
      var r := TopCoins(symbols, tickers, limit);
      forall i, j | 0 <= i < j < |r|
        ensures r[i].volume >= r[j].volume
      {
        assert r[i] == sorted[i] && r[j] == sorted[j];
        assert NegVolume(sorted[i]) <= NegVolume(sorted[j]);
      }
    }
  }

  /** The top coins are the first ones of the collected coins sorted by volume. */
  lemma TopIsSortedPrefix(symbols: seq<PairInfo>, tickers: string -> TickerReply, limit: int)
    requires symbols != []
    ensures var sorted := SortBy(CoinsData(Lists.Filter(symbols, UsdtPair), tickers), NegVolume);
      var top := TopCoins(Some(symbols), tickers, limit);
      |top| <= |sorted| && top == sorted[..|top|]
  {
  }

  /**
   * A prefix of a sequence sorted by volume from the largest takes its
   * coins from the whole, and no coin left out traded more than any in
   * the prefix.
   */
  lemma PrefixLargest(all: seq<CoinData>, sorted: seq<CoinData>, top: seq<CoinData>)
    requires multiset(sorted) == multiset(all) && SortedBy(sorted, NegVolume)
    requires |top| <= |sorted| && top == sorted[..|top|]
    ensures multiset(top) <= multiset(all)
    ensures forall c :: c in multiset(all) - multiset(top) ==> forall i :: 0 <= i < |top| ==> c.volume <= top[i].volume
  {
    var rest := sorted[|top|..];
    assert sorted == top + rest;
    assert multiset(all) - multiset(top) == multiset(rest);
    forall c: CoinData | c in multiset(rest)
      ensures forall i :: 0 <= i < |top| ==> c.volume <= top[i].volume
    {
      var j :| 0 <= j < |rest| && rest[j] == c;
      forall i | 0 <= i < |top|
        ensures c.volume <= top[i].volume
      {
        assert NegVolume(sorted[i]) <= NegVolume(sorted[|top| + j]);
      }
    }
  }

  /**
   * The top coins are taken from the collected ones, and none of the
   * collected coins left out traded more than any coin kept.
   */
  lemma TopCoinsAreLargest(symbols: seq<PairInfo>, tickers: string -> TickerReply, limit: int)
    ensures var all := CoinsData(Lists.Filter(symbols, UsdtPair), tickers);
      var top := TopCoins(Some(symbols), tickers, limit);
      multiset(top) <= multiset(all) &&
      forall c :: c in multiset(all) - multiset(top) ==> forall i :: 0 <= i < |top| ==> c.volume <= top[i].volume
  {
    if symbols == [] {
      assert Lists.Filter(symbols, UsdtPair) == [];
    } else {
      var all := CoinsData(Lists.Filter(symbols, UsdtPair), tickers);
      TopIsSortedPrefix(symbols, tickers, limit);
      PrefixLargest(all, SortBy(all, NegVolume), TopCoins(Some(symbols), tickers, limit));
    }
  }

  /** Every top coin comes from an online USDT pair, under its lower-cased name, with a non-zero volume. */
  lemma TopCoinsFromUsdtPairs(symbols: seq<PairInfo>, tickers: string -> TickerReply, limit: int)
    ensures forall c :: c in TopCoins(Some(symbols), tickers, limit) ==>
      c.volume != 0.0 && exists p :: p in symbols && UsdtPair(p) && c.symbol == Lower(p.symbol)
  {
    var pairs := Lists.Filter(symbols, UsdtPair);
    var all := CoinsData(pairs, tickers);
    var top := TopCoins(Some(symbols), tickers, limit);
    TopCoinsAreLargest(symbols, tickers, limit);
    CoinsDataFrom(pairs, tickers);
    forall c | c in top
      ensures c.volume != 0.0 && exists p :: p in symbols && UsdtPair(p) && c.symbol == Lower(p.symbol)
    {
      assert c in multiset(top);
      assert c in all;
      var p :| p in pairs && c.symbol == Lower(p.symbol);
    }
  }

  /** Lower-casing leaves no ASCII capital letter. */
  lemma LowerHasNoUpper(s: string)
    ensures forall k :: 0 <= k < |Lower(s)| ==> !('A' <= Lower(s)[k] <= 'Z')
  {
  }

  /** The `symbol` of each coin, in order. */
  function Symbols(coins: seq<CoinData>): (r: seq<string>)
    ensures |r| == |coins| && forall i :: 0 <= i < |r| ==> r[i] == coins[i].symbol
  {
    seq(|coins|, i requires 0 <= i < |coins| => coins[i].symbol)
  }

  /** `get_top_coins_by_market_cap`: the symbols of the top coins by volume, in their order. */
  function TopSymbols(symbols: Option<seq<PairInfo>>, tickers: string -> TickerReply, limit: int): (r: seq<string>) {
    Symbols(TopCoins(symbols, tickers, limit))
  }

  /** At most `limit` symbols, none with an upper-case letter, each from an online USDT pair. */
  lemma TopSymbolsLower(symbols: Option<seq<PairInfo>>, tickers: string -> TickerReply, limit: int)
    ensures var r := TopSymbols(symbols, tickers, limit);
      (limit >= 0 ==> |r| <= limit) &&
      forall i :: 0 <= i < |r| ==>
        (forall k :: 0 <= k < |r[i]| ==> !('A' <= r[i][k] <= 'Z')) &&
        exists p :: p in symbols.value && UsdtPair(p) && r[i] == Lower(p.symbol)
  {
    var top := TopCoins(symbols, tickers, limit);
    if symbols.Some? {
      TopCoinsFromUsdtPairs(symbols.value, tickers, limit);
      forall i | 0 <= i < |top|
        ensures (forall k :: 0 <= k < |top[i].symbol| ==> !('A' <= top[i].symbol[k] <= 'Z')) &&
          exists p :: p in symbols.value && UsdtPair(p) && top[i].symbol == Lower(p.symbol)
      {
        assert top[i] in top;
        var p :| p in symbols.value && UsdtPair(p) && top[i].symbol == Lower(p.symbol);
        LowerHasNoUpper(p.symbol);
      }
    }
  }

  // ---------------------------------------------------------------- loading

  /** The load requests for one symbol: the symbol with each of the first `n` timeframes, in order. */
  function SymbolRequests(symbol: string, timeframes: seq<string>, n: nat): (r: seq<(string, string)>)
    requires n <= |timeframes|
    ensures |r| == n
    ensures forall j :: 0 <= j < n ==> r[j] == (symbol, timeframes[j])
  {
    if n == 0 then [] else SymbolRequests(symbol, timeframes, n - 1) + [(symbol, timeframes[n - 1])]
  }

  /** The load requests for the symbols, symbol by symbol, each with every timeframe. */
  function Requests(symbols: seq<string>, timeframes: seq<string>): (r: seq<(string, string)>) {
    if symbols == [] then []
    else Requests(symbols[..|symbols| - 1], timeframes) + SymbolRequests(symbols[|symbols| - 1], timeframes, |timeframes|)
  }

  /** One request per symbol and timeframe. */
  lemma {:induction false} RequestsCount(symbols: seq<string>, timeframes: seq<string>)
    ensures |Requests(symbols, timeframes)| == |symbols| * |timeframes|
  {
    if symbols != [] {
      RequestsCount(symbols[..|symbols| - 1], timeframes);
      assert (|symbols| - 1) * |timeframes| + |timeframes| == |symbols| * |timeframes|;
    }
  }

  /** The requests are exactly the pairs of a top symbol and a timeframe. */
  lemma {:induction false} RequestsCover(symbols: seq<string>, timeframes: seq<string>, s: string, t: string)
    ensures (s, t) in Requests(symbols, timeframes) <==> s in symbols && t in timeframes
  {
    if symbols != [] {
      var init := symbols[..|symbols| - 1];
      var last := symbols[|symbols| - 1];
      RequestsCover(init, timeframes, s, t);
      assert symbols == init + [last];
      var row := SymbolRequests(last, timeframes, |timeframes|);
      if (s, t) in row {
        var j :| 0 <= j < |row| && row[j] == (s, t);
      }
      if s == last && t in timeframes {
        var j :| 0 <= j < |timeframes| && timeframes[j] == t;
        assert row[j] == (s, t);
      }
    }
  }

  lemma RequestsStep(symbols: seq<string>, timeframes: seq<string>, i: nat)
    requires i < |symbols|
    ensures Requests(symbols[..i + 1], timeframes) ==
      Requests(symbols[..i], timeframes) + SymbolRequests(symbols[i], timeframes, |timeframes|)
  {
    assert symbols[..i + 1][..i] == symbols[..i];
  }

  /** What one history load of the loop does: it stores the pair's history, or it raises. */
  datatype LoadOutcome = Stored | Raised(error: string)

  /**
   * The call at the heart of the loop, as written: neither
   * `HuobiHistoricalData` nor its base `HuobiConnector` defines
   * `fetch_and_store_symbol_data`, so looking the method up raises
   * `AttributeError` before anything is fetched.
   */
  function FetchAndStoreSymbolDataAsWritten(request: (string, string)): LoadOutcome {
    Raised("AttributeError: 'HuobiHistoricalData' object has no attribute 'fetch_and_store_symbol_data'")
  }

  /** The requests whose load stored the history, in request order; a load that raised is logged and skipped. */
  function StoredLoads(requests: seq<(string, string)>, load: ((string, string)) -> LoadOutcome): (r: seq<(string, string)>)
    ensures |r| <= |requests|
  {
    if requests == [] then []
    else
      var init := requests[..|requests| - 1];
      var last := requests[|requests| - 1];
      assert requests == init + [last];
      StoredLoads(init, load) + (if load(last).Stored? then [last] else [])
  }

  /** A request is among those stored exactly when it was requested and its load stored the history. */
  lemma {:induction false} StoredLoadsMembers(requests: seq<(string, string)>, load: ((string, string)) -> LoadOutcome,
                                              x: (string, string))
    ensures x in StoredLoads(requests, load) <==> x in requests && load(x).Stored?
  {
    if requests != [] {
      var init := requests[..|requests| - 1];
      assert requests == init + [requests[|requests| - 1]];
      StoredLoadsMembers(init, load, x);
    }
  }

  lemma {:induction false} StoredLoadsAppend(a: seq<(string, string)>, b: seq<(string, string)>,
                                             load: ((string, string)) -> LoadOutcome)
    ensures StoredLoads(a + b, load) == StoredLoads(a, load) + StoredLoads(b, load)
    decreases |b|
  {
    if b == [] {
      assert a + b == a;
    } else {
      var init := b[..|b| - 1];
      assert (a + b)[..|a + b| - 1] == a + init;
      StoredLoadsAppend(a, init, load);
    }
  }

  lemma SymbolLoadStep(symbol: string, timeframes: seq<string>, j: nat, load: ((string, string)) -> LoadOutcome)
    requires j < |timeframes|
    ensures SymbolRequests(symbol, timeframes, j + 1) == SymbolRequests(symbol, timeframes, j) + [(symbol, timeframes[j])]
    ensures StoredLoads(SymbolRequests(symbol, timeframes, j + 1), load) ==
      StoredLoads(SymbolRequests(symbol, timeframes, j), load) +
      (if load((symbol, timeframes[j])).Stored? then [(symbol, timeframes[j])] else [])
  {
    var next := SymbolRequests(symbol, timeframes, j + 1);
    assert next[..|next| - 1] == SymbolRequests(symbol, timeframes, j);
  }

  /** The inner loop of the load: one load per timeframe for the symbol, keeping those that stored. */
  method RequestSymbol(requests: seq<(string, string)>, stored: seq<(string, string)>, symbol: string,
                       timeframes: seq<string>, load: ((string, string)) -> LoadOutcome)
    returns (requests': seq<(string, string)>, stored': seq<(string, string)>)
    ensures requests' == requests + SymbolRequests(symbol, timeframes, |timeframes|)
    ensures stored' == stored + StoredLoads(SymbolRequests(symbol, timeframes, |timeframes|), load)
  {
    var made: seq<(string, string)> := [];
    var kept: seq<(string, string)> := [];
    for j := 0 to |timeframes|
      invariant made == SymbolRequests(symbol, timeframes, j)
      invariant kept == StoredLoads(made, load)
    {
      var request := (symbol, timeframes[j]);
      var outcome := load(request);
      SymbolLoadStep(symbol, timeframes, j, load);
      made := made + [request];
      if outcome.Stored? {
        kept := kept + [request];
      }
    }
    requests' := requests + made;
    stored' := stored + kept;
  }

  /**
   * `fetch_and_store_top_coins_data`, with `load` standing for the history
   * load it makes per symbol and timeframe: the loads requested, in
   * request order (none when there are no top coins, otherwise each top
   * symbol with each timeframe, by default 1day, 4hour, 1hour and 15min),
   * and those that stored their history. A load that raises is logged and
   * skipped. As written every load raises (see AsWrittenStoresNothing).
   */
  method FetchAndStoreTopCoinsData(symbols: Option<seq<PairInfo>>, tickers: string -> TickerReply,
                                   timeframes: Option<seq<string>>, load: ((string, string)) -> LoadOutcome)
    returns (requests: seq<(string, string)>, stored: seq<(string, string)>)
    ensures var tfs := if timeframes.None? then DefaultTimeframes else timeframes.value;
      requests == Requests(TopSymbols(symbols, tickers, TopCoinsCount), tfs)
    ensures stored == StoredLoads(requests, load)
  {
    var tfs := if timeframes.None? then DefaultTimeframes else timeframes.value;
    var topCoins := GetTopCoinsByVolume(symbols, tickers, TopCoinsCount);
    requests := [];
    stored := [];
    if topCoins == [] {
      return;
    }
    var names := Symbols(topCoins);
    for i := 0 to |names|
      invariant requests == Requests(names[..i], tfs)
      invariant stored == StoredLoads(requests, load)
    {
      RequestsStep(names, tfs, i);
      StoredLoadsAppend(requests, SymbolRequests(names[i], tfs, |tfs|), load);
      requests, stored := RequestSymbol(requests, stored, names[i], tfs, load);
    }
    assert names[..|names|] == names;
  }

  /** As written no load ever stores anything, however many are requested. */
  lemma {:induction false} AsWrittenStoresNothing(requests: seq<(string, string)>)
    ensures StoredLoads(requests, FetchAndStoreSymbolDataAsWritten) == []
  {
    if requests != [] {
      AsWrittenStoresNothing(requests[..|requests| - 1]);
    }
  }

  /**
   * With a loader that exists, the history stored is that of exactly the
   * top symbols and timeframes whose load succeeded.
   */
  lemma StoredCoversTopCoins(symbols: seq<string>, timeframes: seq<string>, load: ((string, string)) -> LoadOutcome,
                             s: string, t: string)
    ensures (s, t) in StoredLoads(Requests(symbols, timeframes), load) <==>
      s in symbols && t in timeframes && load((s, t)).Stored?
  {
    RequestsCover(symbols, timeframes, s, t);
    StoredLoadsMembers(Requests(symbols, timeframes), load, (s, t));
  }

  // ---------------------------------------------------------------- new symbols

  /** The lower-cased symbols of the listed instruments, read from the row's second field. */
  function DbSymbols(rows: seq<Instrument>): (r: set<string>)
    ensures forall i :: 0 <= i < |rows| ==> Lower(rows[i].symbol) in r
  {
    set i | 0 <= i < |rows| :: Lower(rows[i].symbol)
  }

  /** The top symbols the database lacks, in their order. */
  function NewSymbols(top: seq<string>, known: set<string>): (r: seq<string>) {
    Lists.Filter(top, s => s !in known)
  }

  /** A new symbol is a top symbol the database lacks, every such symbol is new, and the order is kept. */
  lemma NewSymbolsExactly(top: seq<string>, known: set<string>)
    ensures var r := NewSymbols(top, known);
      Lists.IsSubsequence(r, top) &&
      (forall i :: 0 <= i < |r| ==> r[i] !in known) &&
      (forall i :: 0 <= i < |top| && top[i] !in known ==> top[i] in r)
  {
    Lists.FilterSubsequence(top, s => s !in known);
  }

  /** The loop appending each top symbol absent from `known`. */
  method CollectNewSymbols(top: seq<string>, known: set<string>) returns (newSymbols: seq<string>)
    ensures newSymbols == NewSymbols(top, known)
  {
    newSymbols := [];
    for j := 0 to |top|
      invariant newSymbols == NewSymbols(top[..j], known)
    {
      Lists.FilterConcat(top[..j], [top[j]], s => s !in known);
      assert top[..j + 1] == top[..j] + [top[j]];
      if top[j] !in known {
        newSymbols := newSymbols + [top[j]];
      }
    }
    assert top[..|top|] == top;
  }

  /**
   * The instrument set `update_top_coins_list` builds as written:
   * `inst.symbol` on the plain `(id, symbol)` tuples the query returns
   * raises `AttributeError` as soon as there is one row.
   */
  function DbSymbolsAsWritten(rows: seq<Instrument>): (r: Result<set<string>>)
    ensures r.Err? <==> rows != []
  {
    if rows != [] then Err("AttributeError: 'tuple' object has no attribute 'symbol'") else Ok({})
  }

  /** One stored instrument is enough to make the as-written update raise, though the symbol is known. */
  lemma AsWrittenRaisesOnAnyInstrument()
    ensures DbSymbolsAsWritten([Instrument(1, "BTCUSDT")]).Err?
    ensures "btcusdt" in DbSymbols([Instrument(1, "BTCUSDT")])
  {
    var rows := [Instrument(1, "BTCUSDT")];
    assert Lower(rows[0].symbol) == "btcusdt";
  }

  /**
   * `update_top_coins_list` as written: the error re-raised whenever the
   * database lists an instrument, otherwise every top symbol counts as new.
   */
  method UpdateTopCoinsListAsWritten(db: DbSchema.Database, symbols: Option<seq<PairInfo>>,
                                     tickers: string -> TickerReply)
    returns (r: Result<seq<string>>)
    ensures r.Err? <==> DataImport.GetInstruments(db) != []
    ensures r.Ok? ==> r.value == TopSymbols(symbols, tickers, TopCoinsCount)
  {
    var currentTop := GetTopCoinsByVolume(symbols, tickers, TopCoinsCount);
    var names := Symbols(currentTop);
    var known := DbSymbolsAsWritten(DataImport.GetInstruments(db));
    if known.Err? {
      return Err(known.error);
    }
    var newSymbols := CollectNewSymbols(names, known.value);
    Lists.FilterAll(names, s => s !in known.value);
    r := Ok(newSymbols);
  }

  /**
   * `update_top_coins_list` with the symbol read from the tuple's second
   * field: the top symbols whose lower-cased form no stored instrument
   * has. Adding them is not implemented, so nothing is written.
   */
  method UpdateTopCoinsList(db: DbSchema.Database, symbols: Option<seq<PairInfo>>, tickers: string -> TickerReply)
    returns (newSymbols: seq<string>)
    ensures newSymbols == NewSymbols(TopSymbols(symbols, tickers, TopCoinsCount), DbSymbols(DataImport.GetInstruments(db)))
  {
    var currentTop := GetTopCoinsByVolume(symbols, tickers, TopCoinsCount);
    var names := Symbols(currentTop);
    var known := DbSymbols(DataImport.GetInstruments(db));
    newSymbols := CollectNewSymbols(names, known);
  }
}
