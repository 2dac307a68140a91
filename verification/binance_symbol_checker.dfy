/**
 * Which symbols Binance trades (crypto_trading_bot/trading/binance_symbol_checker.py,
 * `BinanceSymbolChecker`): two parsers of the exchange's market listings,
 * their union, and the membership checks built on it. The network replies
 * are parameters; a failed request is a reply of its own.
 */
module BinanceSymbolChecker {
  import opened Text
  import Lists

  /** A JSON object with string values; a missing key reads as "" (`dict.get(key, '')`). */
  type Json = map<string, string>

  function Get(o: Json, key: string): string {
    if key in o then o[key] else ""
  }

  /** The `exchangeInfo` reply: the request or its decoding raised, or the decoded object. */
  datatype ApiReply = ApiFailed | ApiOk(hasSymbols: bool, symbols: seq<Json>)

  /** A ccxt market: a missing `active` reads as false, a missing `quote` or `base` as "". */
  datatype Market = Market(active: bool, quote: string, base: string)

  /** What `load_markets` gives: ccxt absent or not initialised, a raised error, or the markets by ccxt symbol. */
  datatype CcxtReply = CcxtUnavailable | CcxtFailed | CcxtOk(markets: map<string, Market>)

  /** Both replies one `get_available_symbols` call receives. */
  datatype Replies = Replies(ccxt: CcxtReply, api: ApiReply)

  /** An `exchangeInfo` entry the API parser keeps: trading, and quoted in USDT. */
  predicate Trading(info: Json) {
    Get(info, "status") == "TRADING" && EndsWith(Get(info, "symbol"), "USDT")
  }

  /** The symbols the API parser collects from the first `n` entries of a reply, in the order it visits them. */
  function TradingSymbols(infos: seq<Json>, n: nat): set<string>
    requires n <= |infos|
  {
    if n == 0 then {}
    else TradingSymbols(infos, n - 1) + (if Trading(infos[n - 1]) then {Get(infos[n - 1], "symbol")} else {})
  }

  /** A symbol is collected from the first `n` entries iff one of them is trading under that symbol. */
  lemma {:induction false} TradingSymbolsIff(infos: seq<Json>, n: nat, s: string)
    requires n <= |infos|
    ensures s in TradingSymbols(infos, n) <==> exists i :: 0 <= i < n && Trading(infos[i]) && Get(infos[i], "symbol") == s
  {
    if n > 0 {
      TradingSymbolsIff(infos, n - 1, s);
    }
  }

  /** The API parser's set for a reply: empty on failure or without a `symbols` key. */
  function ApiSymbols(reply: ApiReply): set<string> {
    if reply.ApiOk? && reply.hasSymbols then TradingSymbols(reply.symbols, |reply.symbols|) else {}
  }

  /** A ccxt market the parser keeps: active, quoted in USDT, with a base. */
  predicate Eligible(m: Market) {
    m.active && m.quote == "USDT" && m.base != ""
  }

  /** The Binance spelling of the markets the ccxt parser keeps: base followed by `USDT`. */
  function MarketSymbols(markets: map<string, Market>): set<string> {
    set k | k in markets && Eligible(markets[k]) :: markets[k].base + "USDT"
  }

  /** The ccxt parser's set for a reply: empty when ccxt is unavailable or raised. */
  function CcxtSymbols(reply: CcxtReply): set<string> {
    if reply.CcxtOk? then MarketSymbols(reply.markets) else {}
  }

  /** `get_available_symbols`: the union of both parsers' sets. */
  function Available(replies: Replies): set<string> {
    CcxtSymbols(replies.ccxt) + ApiSymbols(replies.api)
  }

  /** `get_available_symbols_binance_api`: the loop over `data['symbols']`. */
  method GetAvailableSymbolsBinanceApi(reply: ApiReply) returns (symbols: set<string>)
    ensures symbols == ApiSymbols(reply)
  {
    symbols := {};
    if reply.ApiFailed? || !reply.hasSymbols {
      return;
    }
    var infos := reply.symbols;
    for j := 0 to |infos|
      invariant symbols == TradingSymbols(infos, j)
    {
      var symbol := Get(infos[j], "symbol");
      var status := Get(infos[j], "status");
      if status == "TRADING" && EndsWith(symbol, "USDT") {
        symbols := symbols + {symbol};
      }
    }
  }

  /** The markets among `done` that the ccxt parser keeps, spelled the Binance way. */
  function DoneSymbols(markets: map<string, Market>, done: set<string>): set<string> {
    set k | k in markets && k in done && Eligible(markets[k]) :: markets[k].base + "USDT"
  }

  /** Visiting one more market adds its spelling exactly when the parser keeps it. */
  lemma DoneSymbolsAdd(markets: map<string, Market>, done: set<string>, k: string)
    requires k in markets
    ensures DoneSymbols(markets, done + {k}) ==
      DoneSymbols(markets, done) + (if Eligible(markets[k]) then {markets[k].base + "USDT"} else {})
  {
  }

  /** `get_available_symbols_ccxt`: the loop over `markets.items()`, in whatever order the map yields. */
  method GetAvailableSymbolsCcxt(reply: CcxtReply) returns (symbols: set<string>)
    ensures symbols == CcxtSymbols(reply)
  {
    symbols := {};
    if !reply.CcxtOk? {
      return;
    }
    var markets := reply.markets;
    var remaining := markets.Keys;
    ghost var done: set<string> := {};
    while remaining != {}
      invariant remaining <= markets.Keys && done == markets.Keys - remaining
      invariant symbols == DoneSymbols(markets, done)
      decreases |remaining|
    {
      var k :| k in remaining;
      var market := markets[k];
      if market.active && market.quote == "USDT" {
        var base := market.base;
        if base != "" {
          symbols := symbols + {base + "USDT"};
        }
      }
      DoneSymbolsAdd(markets, done, k);
      remaining := remaining - {k};
      done := done + {k};
    }
    assert done == markets.Keys;
  }

  /** `get_available_symbols`: ccxt first, then the API, joined. */
  method GetAvailableSymbols(replies: Replies) returns (symbols: set<string>)
    ensures symbols == Available(replies)
  {
    var fromCcxt := GetAvailableSymbolsCcxt(replies.ccxt);
    var fromApi := GetAvailableSymbolsBinanceApi(replies.api);
    symbols := fromCcxt + fromApi;
  }

  /** Every available symbol is quoted in USDT; a ccxt one also has a non-empty base before it. */
  lemma AvailableQuotedInUsdt(replies: Replies)
    ensures forall s :: s in Available(replies) ==> EndsWith(s, "USDT")
    ensures forall s :: s in CcxtSymbols(replies.ccxt) ==> |s| > 4
  {
    forall s | s in Available(replies)
      ensures EndsWith(s, "USDT")
    {
      if s in CcxtSymbols(replies.ccxt) {
        var k :| k in replies.ccxt.markets && Eligible(replies.ccxt.markets[k]) && s == replies.ccxt.markets[k].base + "USDT";
        assert s[|s| - 4..] == "USDT";
      } else {
        var infos := replies.api.symbols;
        TradingSymbolsIff(infos, |infos|, s);
        var i :| 0 <= i < |infos| && Trading(infos[i]) && Get(infos[i], "symbol") == s;
      }
    }
  }

  /** A symbol is available iff one of the two listings offers it. */
  lemma AvailableIff(replies: Replies, s: string)
    ensures s in Available(replies) <==>
      (replies.ccxt.CcxtOk? &&
       (exists k :: k in replies.ccxt.markets && Eligible(replies.ccxt.markets[k]) &&
          replies.ccxt.markets[k].base + "USDT" == s)) ||
      (replies.api.ApiOk? && replies.api.hasSymbols &&
       (exists i :: 0 <= i < |replies.api.symbols| && Trading(replies.api.symbols[i]) &&
          Get(replies.api.symbols[i], "symbol") == s))
  {
    if replies.api.ApiOk? {
      TradingSymbolsIff(replies.api.symbols, |replies.api.symbols|, s);
    }
  }

  /** When both requests fail, nothing is available and no error escapes. */
  lemma BothFailedEmpty(ccxt: CcxtReply, api: ApiReply)
    requires !ccxt.CcxtOk? && !api.ApiOk?
    ensures Available(Replies(ccxt, api)) == {}
  {
  }

  /** `filter_available_symbols`: the requested symbols the exchange offers, in the order given. */
  method FilterAvailableSymbols(symbols: seq<string>, replies: Replies) returns (filtered: seq<string>)
    ensures filtered == Lists.Filter(symbols, s => s in Available(replies))
  {
    var available := GetAvailableSymbols(replies);
    filtered := Lists.Filter(symbols, s => s in available);
  }

  /** The filter keeps exactly the available symbols, in their order, and never grows the list. */
  lemma FilteredSymbols(symbols: seq<string>, replies: Replies)
    ensures var r := Lists.Filter(symbols, s => s in Available(replies));
      |r| <= |symbols| && Lists.IsSubsequence(r, symbols) &&
      (forall i :: 0 <= i < |r| ==> r[i] in Available(replies)) &&
      (forall i :: 0 <= i < |symbols| && symbols[i] in Available(replies) ==> symbols[i] in r)
  {
    Lists.FilterSubsequence(symbols, s => s in Available(replies));
  }

  /** `check_symbol_available`: membership in the available set. */
  method CheckSymbolAvailable(symbol: string, replies: Replies) returns (b: bool)
    ensures b <==> symbol in Available(replies)
  {
    var available := GetAvailableSymbols(replies);
    b := symbol in available;
  }
}
