/**
 * Coins below a fraction of Ethereum's market capitalisation
 * (crypto_trading_bot/trading/coin_gecko_fetcher.py, `CoinGeckoFetcher`):
 * Ethereum's capitalisation, the capitalisation filter over one page of
 * the markets listing, and the conversion of the kept coins to Binance
 * symbols. The two HTTP replies are parameters; a request that raised is
 * a reply of its own.
 */
module CoinGeckoFetcher {
  import opened Wrappers
  import opened Text
  import Lists

  /** A JSON number field: absent, `null`, or a number. */
  datatype CapField = NoCap | NullCap | Cap(x: real)

  /** A JSON string field: absent, `null`, or a string. */
  datatype SymbolField = NoSymbol | NullSymbol | Symbol(s: string)

  /** One entry of the `/coins/markets` listing, reduced to the two fields the fetcher reads. */
  datatype Coin = Coin(marketCap: CapField, symbol: SymbolField)

  /** The `/simple/price` reply: the request raised, or the decoded object's `ethereum` entry, if any. */
  datatype PriceReply = PriceFailed | PriceOk(ethereum: Option<map<string, CapField>>)

  /** The `/coins/markets` reply: the request raised, or the decoded list of coins. */
  datatype MarketsReply = MarketsFailed | MarketsOk(coins: seq<Coin>)

  /** CoinGecko's largest page. */
  const MaxPerPage: int := 250

  /** The capitalisation assumed for Ethereum when its own cannot be had: about 400 billion dollars. */
  const DefaultEthCap: real := 400000000000.0

  /**
   * `get_ethereum_market_cap`: the `usd_market_cap` of the `ethereum`
   * entry; `None` when the request raised, either key is missing or the
   * value is `null`.
   */
  function EthereumMarketCap(reply: PriceReply): (r: Option<real>)
    ensures reply.PriceFailed? ==> r.None?
    ensures r.Some? <==>
      reply.PriceOk? && reply.ethereum.Some? && "usd_market_cap" in reply.ethereum.value &&
      reply.ethereum.value["usd_market_cap"].Cap?
    ensures r.Some? ==> r.value == reply.ethereum.value["usd_market_cap"].x
  {
    if reply.PriceOk? && reply.ethereum.Some? && "usd_market_cap" in reply.ethereum.value then
      match reply.ethereum.value["usd_market_cap"]
      case Cap(x) => Some(x)
      case _ => None
    else None
  }

  /** The `per_page` the listing is requested with: `min(limit, 250)`. */
  function PerPage(limit: int): (r: int)
    ensures r <= limit && r <= MaxPerPage
    ensures r == limit || r == MaxPerPage
  {
    if limit < MaxPerPage then limit else MaxPerPage
  }

  /** `coin.get('market_cap', 0) > 0` raises `TypeError` on a `null` capitalisation. */
  predicate CapRaises(c: Coin) {
    c.marketCap.NullCap?
  }

  /** A coin the filter keeps: a capitalisation above zero and at most `maxCap`; an absent one reads as 0. */
  predicate WithinCap(c: Coin, maxCap: real) {
    c.marketCap.Cap? && 0.0 < c.marketCap.x <= maxCap
  }

  /**
   * `get_coins_by_market_cap`: the listing's coins within the cap, in the
   * listing's order; `[]` when the request raised or the comprehension
   * met a `null` capitalisation.
   */
  function CoinsByMarketCap(maxCap: real, limit: int, markets: int -> MarketsReply): (r: seq<Coin>)
    ensures markets(PerPage(limit)).MarketsFailed? ==> r == []
    ensures forall i :: 0 <= i < |r| ==> WithinCap(r[i], maxCap)
  {
    match markets(PerPage(limit))
    case MarketsFailed => []
    case MarketsOk(coins) =>
      if exists i :: 0 <= i < |coins| && CapRaises(coins[i]) then []
      else Lists.Filter(coins, c => WithinCap(c, maxCap))
  }

  /**
   * Without a `null` capitalisation the filter keeps exactly the coins
   * within the cap, in the listing's order, and never grows the list.
   */
  lemma CoinsByMarketCapKeeps(maxCap: real, limit: int, markets: int -> MarketsReply)
    requires markets(PerPage(limit)).MarketsOk?
    requires var coins := markets(PerPage(limit)).coins;
      forall i :: 0 <= i < |coins| ==> !CapRaises(coins[i])
    ensures var coins := markets(PerPage(limit)).coins;
      var r := CoinsByMarketCap(maxCap, limit, markets);
      |r| <= |coins| && Lists.IsSubsequence(r, coins) &&
      (forall i :: 0 <= i < |coins| && WithinCap(coins[i], maxCap) ==> coins[i] in r)
  {
    var coins := markets(PerPage(limit)).coins;
    Lists.FilterSubsequence(coins, c => WithinCap(c, maxCap));
  }

  /** One `null` capitalisation anywhere in the listing empties the whole answer. */
  lemma NullCapEmpties(maxCap: real, limit: int, markets: int -> MarketsReply, i: int)
    requires markets(PerPage(limit)).MarketsOk?
    requires 0 <= i < |markets(PerPage(limit)).coins| && CapRaises(markets(PerPage(limit)).coins[i])
    ensures CoinsByMarketCap(maxCap, limit, markets) == []
  {
  }

  /**
   * The cap of `get_coins_below_eth_cap_ratio`: Ethereum's capitalisation
   * divided by the ratio, the default capitalisation standing in for a
   * missing or zero one; `None` for a zero ratio, whose division raises.
   */
  function MaxMarketCap(ethCap: Option<real>, ratio: real): (r: Option<real>)
    ensures r.None? <==> ratio == 0.0
    ensures r.Some? ==>
      r.value * ratio == (if ethCap.Some? && ethCap.value != 0.0 then ethCap.value else DefaultEthCap)
  {
    if ratio == 0.0 then None
    else
      var eth := if ethCap.None? || ethCap.value == 0.0 then DefaultEthCap else ethCap.value;
      Some(eth / ratio)
  }

  /**
   * `get_coins_below_eth_cap_ratio` (and `get_coins_with_market_cap`,
   * which only calls it): the coins within Ethereum's capitalisation over
   * the ratio; `[]` when the division raises.
   */
  function CoinsBelowEthCapRatio(price: PriceReply, ratio: real, limit: int, markets: int -> MarketsReply)
    : (r: seq<Coin>)
    ensures ratio == 0.0 ==> r == []
    ensures ratio != 0.0 ==>
      r == CoinsByMarketCap(MaxMarketCap(EthereumMarketCap(price), ratio).value, limit, markets)
  {
    match MaxMarketCap(EthereumMarketCap(price), ratio)
    case None => []
    case Some(maxCap) => CoinsByMarketCap(maxCap, limit, markets)
  }

  /** With a positive ratio every coin kept has at most the ratio's share of Ethereum's capitalisation. */
  lemma BelowRatioBound(price: PriceReply, ratio: real, limit: int, markets: int -> MarketsReply)
    requires ratio > 0.0
    ensures var eth := EthereumMarketCap(price);
      var ethCap := if eth.Some? && eth.value != 0.0 then eth.value else DefaultEthCap;
      forall c :: c in CoinsBelowEthCapRatio(price, ratio, limit, markets) ==>
        0.0 < c.marketCap.x && c.marketCap.x * ratio <= ethCap
  {
    var maxCap := MaxMarketCap(EthereumMarketCap(price), ratio).value;
    var r := CoinsBelowEthCapRatio(price, ratio, limit, markets);
    forall c | c in r
      ensures 0.0 < c.marketCap.x && c.marketCap.x * ratio <= maxCap * ratio
    {
      var i :| 0 <= i < |r| && r[i] == c;
      MulMonotone(c.marketCap.x, maxCap, ratio);
    }
  }

  lemma MulMonotone(a: real, b: real, k: real)
    requires a <= b && k > 0.0
    ensures a * k <= b * k
  {
  }

  // ---------------------------------------------------------------- conversion

  /** `coin.get('symbol', '').upper()` raises `AttributeError` on a `null` symbol. */
  predicate SymbolRaises(c: Coin) {
    c.symbol.NullSymbol?
  }

  /** A coin the conversion keeps: its symbol is present and not empty. */
  predicate HasSymbol(c: Coin) {
    c.symbol.Symbol? && c.symbol.s != ""
  }

  /** The Binance spelling of a coin's symbol: upper-cased, followed by `USDT`. */
  function BinanceSymbol(c: Coin): string
    requires HasSymbol(c)
  {
    Upper(c.symbol.s) + "USDT"
  }

  /** The conversion of a listing without `null` symbols: each coin with a symbol, spelled the Binance way, in order. */
  function BinanceSymbols(coins: seq<Coin>): (r: seq<string>) {
    var kept := Lists.Filter(coins, HasSymbol);
    seq(|kept|, i requires 0 <= i < |kept| => BinanceSymbol(kept[i]))
  }

  /** Converting one more coin appends its spelling exactly when it has a symbol. */
  lemma BinanceSymbolsAppend(coins: seq<Coin>, c: Coin)
    ensures BinanceSymbols(coins + [c]) == BinanceSymbols(coins) + (if HasSymbol(c) then [BinanceSymbol(c)] else [])
  {
    Lists.FilterConcat(coins, [c], HasSymbol);
    assert Lists.Filter([c], HasSymbol) == if HasSymbol(c) then [c] else [] by {
      assert [c][..0] == [];
    }
  }

  /**
   * `convert_to_binance_symbols`: the loop appending each non-empty,
   * upper-cased symbol with `USDT`. A `null` symbol raises, and nothing
   * catches it.
   */
  method ConvertToBinanceSymbols(coins: seq<Coin>) returns (r: Result<seq<string>>)
    ensures r.Err? <==> exists i :: 0 <= i < |coins| && SymbolRaises(coins[i])
    ensures r.Ok? ==> r.value == BinanceSymbols(coins)
  {
    var symbols: seq<string> := [];
    for j := 0 to |coins|
      invariant forall i :: 0 <= i < j ==> !SymbolRaises(coins[i])
      invariant symbols == BinanceSymbols(coins[..j])
    {
      var coin := coins[j];
      if coin.symbol.NullSymbol? {
        return Err("AttributeError: 'NoneType' object has no attribute 'upper'");
      }
      var symbol := if coin.symbol.Symbol? then Upper(coin.symbol.s) else "";
      BinanceSymbolsAppend(coins[..j], coin);
      assert coins[..j + 1] == coins[..j] + [coin];
      if symbol != "" {
        symbols := symbols + [symbol + "USDT"];
      }
    }
    assert coins[..|coins|] == coins;
    r := Ok(symbols);
  }

  /** No ASCII lower-case letter survives `upper()`. */
  lemma UpperHasNoLower(s: string)
    ensures forall k :: 0 <= k < |Upper(s)| ==> !('a' <= Upper(s)[k] <= 'z')
  {
  }

  /** A Binance symbol from the conversion: a non-empty base without lower-case letters, then `USDT`. */
  predicate SpelledForBinance(s: string) {
    EndsWith(s, "USDT") && |s| > 4 && forall k :: 0 <= k < |s| - 4 ==> !('a' <= s[k] <= 'z')
  }

  /**
   * The converted symbols never outnumber the coins, each ends in `USDT`
   * after a non-empty upper-case base, and every coin with a symbol is
   * represented.
   */
  lemma BinanceSymbolsShape(coins: seq<Coin>)
    ensures var r := BinanceSymbols(coins);
      |r| <= |coins| &&
      (forall i :: 0 <= i < |r| ==> SpelledForBinance(r[i])) &&
      (forall i :: 0 <= i < |coins| && HasSymbol(coins[i]) ==> BinanceSymbol(coins[i]) in r)
  {
    var kept := Lists.Filter(coins, HasSymbol);
    var r := BinanceSymbols(coins);
    forall i | 0 <= i < |r|
      ensures SpelledForBinance(r[i])
    {
      var base := Upper(kept[i].symbol.s);
      UpperHasNoLower(kept[i].symbol.s);
      assert r[i] == base + "USDT";
      assert r[i][|r[i]| - 4..] == "USDT";
      assert forall k :: 0 <= k < |base| ==> r[i][k] == base[k];
    }
    forall i | 0 <= i < |coins| && HasSymbol(coins[i])
      ensures BinanceSymbol(coins[i]) in r
    {
      var j :| 0 <= j < |kept| && kept[j] == coins[i];
      assert r[j] == BinanceSymbol(coins[i]);
    }
  }

  /**
   * `get_filtered_symbols`: the conversion of the coins below Ethereum's
   * capitalisation over the ratio.
   */
  method GetFilteredSymbols(price: PriceReply, ratio: real, limit: int, markets: int -> MarketsReply)
    returns (r: Result<seq<string>>)
    ensures var coins := CoinsBelowEthCapRatio(price, ratio, limit, markets);
      (r.Err? <==> exists i :: 0 <= i < |coins| && SymbolRaises(coins[i])) &&
      (r.Ok? ==> r.value == BinanceSymbols(coins))
  {
    var coins := CoinsBelowEthCapRatio(price, ratio, limit, markets);
    r := ConvertToBinanceSymbols(coins);
  }
}
