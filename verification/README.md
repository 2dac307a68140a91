# traiding_pilot — a verified model of the candle store and its analytics

This project models the core of *traiding_pilot*, a crypto-trading application. The application:

- keeps a PostgreSQL store of market candles for many (instrument, timeframe) pairs;
- fills that store from exchanges and data services (CCXT, the Binance REST API, Yahoo Finance, Huobi, CoinGecko);
- derives Joe DiNapoli's displaced moving averages (DMA) and other indicators from the candles;
- draws them on a chart.

The model is written in Dafny, one module per source file. Each module's header names the file it models.

## Store and schema

The database is one class, `DbSchema.Database`. Its fields are:

- the instruments table;
- the timeframes table, with columns discovered at run time;
- the candle table, a map keyed by (instrument, timeframe, time) with insert-if-absent semantics;
- the analytics-metrics table, a map keyed by (instrument, timeframe, metric type, window, displacement, time) with upsert semantics;
- the id counters.

A flag `online` stands for a connection on which every statement raises.

## Operations on the store

- **Get-or-create:** `ensure_instrument` and `ensure_timeframe`.
- **Timeframe parsing:** the timeframe-to-seconds parser.
- **Column resolution:** the name and id columns of the timeframes table.
- **Insert paths:** `insert_price_data`, with its DataFrame and list-of-dicts paths.

These are methods that state the whole new state of the tables.

## The synchroniser

The synchroniser (`data_updater.py`) is the class `DataUpdater.Updater`. Its fields are the symbol cache and the per-timeframe-code last-update map. Its methods prove:

- the fetch window and its clamp to a per-timeframe lookback;
- the strictly-newer filter;
- the cache's TTL rule;
- the cadence rule;
- the pass's log of successes: at most one per (instrument, timeframe) pair, each for a mapped code that was due at its own due check unless the pass is forced;
- the cadence: in an unforced pass two successes of one code are at least the code's update interval apart, and a pass shorter than a minute succeeds at most once per code;
- that the update times are the successes' clock readings, recorded in order.

`datetime.now()` is a clock parameter, a function from reading number to time. The pair visited at tick `t` owns three readings:

- its due check (crypto_trading_bot/trading/data_updater.py:356);
- its load reading, which stands for every `datetime.now()` inside `load_missing_candles`: the cache's age and refresh time (:131, :133) and the end of the fetch window (:95);
- its recorded update time (:402).

A pass's results are stated as a fold over the pairs in loop order (`PassOutcome`). The cadence lemmas assume only that the clock never runs backwards.

## The DMA engine

The DMA engine (`dinapoli_dma.py`) is modelled as a function and a loop:

1. The rolling mean is a function.
2. The write loop is proved to leave the metric table as the upsert of every defined average under its time shifted forward by `displacement` steps.
3. `get_dma_from_db` is proved to list the stored values in ascending time.

## The surrounding functions

The model also covers:

- the source chain with first-non-empty fallback;
- the CCXT, Binance and Huobi pagination cursors;
- the symbol conversions;
- the symbol-set filters of the Binance, CoinGecko and Huobi clients;
- the chart's validation, limiting, downsampling and timestamp conversion;
- the extended-indicator task and chunk arithmetic;
- the SMA, OBV and Fibonacci formulas;
- the console entry point;
- the strategy builder.

## Modelling conventions

**External inputs are parameters.** This covers exchange replies, Yahoo histories, the CPU count, and the indicator service, as well as the CoinGecko replies and the clock (`now`). Each source is a reply or a function from request to reply, with a raised request as a reply of its own. This makes every loop deterministic.

**Numbers:**

- Prices are `real`.
- Times are `real` seconds, which is exact for Python's microsecond datetimes.
- Exchange cursors (milliseconds, ids) are `int`.

**Behaviour of the code worth noting:**

- *The DMA engine fills nothing.* Each defined SMA value is stored under the time of its own candle plus `displacement` candle steps. So the last stored DMA lies `displacement` steps after the last candle (`DinapoliDma.DmaWritesEnds`), and positions without a full window are not stored at all.
- *Cadence is recorded only after success.* The last-update time of a timeframe code is recorded only after a pass over it succeeds (`data_updater.py:399-402`). A failed attempt does not consume its turn.
- *Cadence is keyed by timeframe code alone.* It is not keyed by (instrument, timeframe).

## Model

| member | source | states |
|---|---|---|
| BinanceSymbolChecker.TradingSymbolsIff | crypto_trading_bot/trading/binance_symbol_checker.py:62-69 | a symbol is collected from the exchange-info entries iff some entry is TRADING under that symbol and the symbol ends in USDT |
| BinanceSymbolChecker.GetAvailableSymbolsBinanceApi | crypto_trading_bot/trading/binance_symbol_checker.py:49-76 | the REST loop returns exactly the trading USDT symbols of the reply; a reply without `symbols` or a failed request gives the empty set |
| BinanceSymbolChecker.DoneSymbolsAdd | crypto_trading_bot/trading/binance_symbol_checker.py:92-99 | visiting one more ccxt market adds `base + "USDT"` exactly when the market is active, quoted in USDT and has a non-empty base |
| BinanceSymbolChecker.GetAvailableSymbolsCcxt | crypto_trading_bot/trading/binance_symbol_checker.py:78-106 | the loop over the markets, in any order, yields the set of eligible spellings; no ccxt client or a failed load gives the empty set |
| BinanceSymbolChecker.GetAvailableSymbols | crypto_trading_bot/trading/binance_symbol_checker.py:108-123 | the result is the union of the ccxt and the REST listings |
| BinanceSymbolChecker.AvailableQuotedInUsdt | crypto_trading_bot/trading/binance_symbol_checker.py:116-120 | every available symbol ends in USDT, and a ccxt symbol also has a non-empty base before it |
| BinanceSymbolChecker.AvailableIff | crypto_trading_bot/trading/binance_symbol_checker.py:116-120 | a symbol is available iff an eligible ccxt market or a trading REST entry offers it (both directions) |
| BinanceSymbolChecker.BothFailedEmpty | crypto_trading_bot/trading/binance_symbol_checker.py:116-120 | when both requests fail nothing is available and no error escapes |
| BinanceSymbolChecker.FilterAvailableSymbols | crypto_trading_bot/trading/binance_symbol_checker.py:125-146 | the result is the requested symbols that are available, in the order given |
| BinanceSymbolChecker.FilteredSymbols | crypto_trading_bot/trading/binance_symbol_checker.py:138 | the filtered list is a subsequence of the request, holds only available symbols and keeps every available one |
| BinanceSymbolChecker.CheckSymbolAvailable | crypto_trading_bot/trading/binance_symbol_checker.py:148-159 | true iff the symbol is in the available set |
| CalculateAllDma.NameAttrIn | crypto_trading_bot/analytics/calculate_all_dma.py:44-54 | a naming attribute is found iff some timeframe offers `interval_name`, `name` or `code`, and it is one of those three |
| CalculateAllDma.NameAttrFirst | crypto_trading_bot/analytics/calculate_all_dma.py:45-54 | the attribute comes from the first timeframe offering any, with `interval_name` before `name` before `code` |
| CalculateAllDma.ResolveNameAttr | crypto_trading_bot/analytics/calculate_all_dma.py:44-54 | the loop with its early `break` returns the attribute of the first timeframe offering one |
| CalculateAllDma.NameAttrKept | crypto_trading_bot/analytics/calculate_all_dma.py:45-54 | once found the attribute does not change however many more timeframes are looked at |
| CalculateAllDma.PairOutcome | crypto_trading_bot/analytics/calculate_all_dma.py:74-121 | a pair counts as an error only when `timeframe.id` is missing or candles are stored and the conversion or DMA run fails |
| CalculateAllDma.RowErrors | crypto_trading_bot/analytics/calculate_all_dma.py:71-121 | the errors for one instrument never exceed the number of timeframes visited |
| CalculateAllDma.ErrorsBounded | crypto_trading_bot/analytics/calculate_all_dma.py:60-121 | the error count never exceeds the number of instrument/timeframe combinations |
| CalculateAllDma.RowWithoutData | crypto_trading_bot/analytics/calculate_all_dma.py:78-82 | an instrument without stored candles produces no errors: each pair is skipped |
| CalculateAllDma.NoDataNoErrors | crypto_trading_bot/analytics/calculate_all_dma.py:78-82 | with no candles stored for any listed instrument the whole run reports zero errors |
| CalculateAllDma.ProcessPair | crypto_trading_bot/analytics/calculate_all_dma.py:74-121 | the loop body's outcome for one pair equals `PairOutcome` on the current store |
| CalculateAllDma.ProcessRow | crypto_trading_bot/analytics/calculate_all_dma.py:71-121 | the inner loop crashes iff some timeframe lacks the naming attribute (the `getattr` outside the `try`); otherwise it processes every timeframe and counts the row's errors |
| CalculateAllDma.ProcessAll | crypto_trading_bot/analytics/calculate_all_dma.py:60-121 | the nested loops crash iff some timeframe lacks the attribute; otherwise processed equals the number of combinations and the errors are their sum |
| CalculateAllDma.CalculateAllDma | crypto_trading_bot/analytics/calculate_all_dma.py:16-126 | no instruments or no timeframes end the run early; otherwise every combination is processed and errors never exceed it |
| ChartCalculators.GapSumTelescopes | gui/chart_calculators.py:18-20 | the successive index differences sum to last minus first, so their mean is the span over the number of gaps |
| ChartCalculators.CandleWidthFromSpan | gui/chart_calculators.py:17-21 | with two or more candles the width is 0.7 of the mean gap in days, which depends only on the first and last time and the count |
| ChartCalculators.FallbackWidthMinuteQuirks | gui/chart_calculators.py:23-30 | because of the order of the substring tests "1mo" gets the one-minute width and "15m" the five-minute width |
| ChartCalculators.FallbackWidthHourQuirks | gui/chart_calculators.py:23-41 | the 2h, 4h, 6h and 12h codes match no test and get the default 0.6 |
| ChartCalculators.DrawIndicesLarge | gui/chart_calculators.py:58-61 | above 500 candles exactly 500 positions are kept, the multiples of `n // 500`, all below n |
| ChartCalculators.DrawIndicesSmall | gui/chart_calculators.py:58-61 | up to 500 candles every position is kept in order |
| ChartCalculators.DrawIndicesShape | gui/chart_calculators.py:58-61 | the kept positions number min(n, 500), strictly increase and stay below n |
| ChartCalculators.Colours | gui/chart_calculators.py:56 | one colour per candle, bullish exactly when the close is at or above the open |
| ChartCalculators.PreparePlotPayload | gui/chart_calculators.py:44-79 | the seven arrays share one length, min(rows, 500); entry k holds the time (as a date number), open, close, high, low and volume of the k-th drawn row, and its colour is bullish exactly when that candle closed at or above its open; the width is the timeframe's candle width |
| ChartCalculators.PlotPayloadUnchangedWhenSmall | gui/chart_calculators.py:58-68 | up to 500 candles the payload holds the frame's own Open, Close and Volume columns unthinned |
| ChartDataConverter.MillisecondsReadAsMicroseconds | gui/chart_data_converter.py:40-46 | as written, a present-day millisecond timestamp (1.7e12) is read as microseconds and lands in January 1970, while seconds are read correctly |
| ChartDataConverter.NumericSecondsUnitsAgree | gui/chart_data_converter.py:40-46 | with the corrected thresholds every instant from 1973 to 5138 reads the same whether given in seconds, milliseconds or microseconds |
| ChartDataConverter.ConvertTimestamp | gui/chart_data_converter.py:33-56 | a date-like value is kept, a number goes through the unit rule, a string or other value is parsed, and a failed parse yields no timestamp |
| ChartDataConverter.ConvertedRows | gui/chart_data_converter.py:31-60 | the kept rows are those whose timestamp converts, in input order with their own prices; none are kept iff every conversion fails |
| ChartDataConverter.FrameOf | gui/chart_data_converter.py:62-71 | the frame has the five price columns, one entry per row, indexed by the row's timestamp |
| ChartDataConverter.ProcessPriceData | gui/chart_data_converter.py:18-78 | no frame iff no row converts (including no rows at all); otherwise the converted rows sorted by time as a frame |
| ChartDataConverter.ProcessedFrameSorted | gui/chart_data_converter.py:71-76 | the returned frame is in ascending time order and holds exactly the converted rows as a multiset |
| ChartDataConverter.ProcessPriceDataAsWritten | gui/chart_data_converter.py:18-78 | as written, empty input gives None and the frame constructor raises iff some but not all timestamps fail |
| ChartDataConverter.PartialTimestampFailure | gui/chart_data_converter.py:54-69 | one good row plus one unparsable string: the code as written raises, the corrected conversion keeps the good row |
| ChartDataLoader.FirstWithSymbol | gui/chart_data_loader.py:31 | an instrument is found iff one in the list has that symbol, and the one found has it |
| ChartDataLoader.FirstWithSymbolListed | gui/chart_data_loader.py:30-31 | over the instrument listing the search returns the row the table's symbol lookup finds, or nothing when it finds none |
| ChartDataLoader.DisplayName | gui/chart_data_loader.py:40 | the shown name is one of the three attributes, and a truthy `interval_name` wins |
| ChartDataLoader.DisplayNameOfRecord | gui/chart_data_loader.py:40 | a timeframe record shows the name it was built with |
| ChartDataLoader.FindByDisplayName | gui/chart_data_loader.py:37-43 | the loop with `break` finds a timeframe iff one shows the code, and returns the first such |
| ChartDataLoader.GetInstrumentAndTimeframe | gui/chart_data_loader.py:23-49 | a pair is returned iff the symbol and a timeframe named by the code both exist; the timeframe's id is the one the table lookup gives |
| ChartDataLoader.ListedNameResolves | gui/chart_data_loader.py:37-43 | over the listed records, the first showing the code carries the id the table lookup finds, and no such record means the lookup finds none |
| ChartDataLoader.LoadPriceData | gui/chart_data_loader.py:51-61 | nothing iff no candles are stored for the pair or the read fails; otherwise the stored candles in time order |
| ChartDataProcessor.Converted | gui/chart_data_processor.py:48 | the converter's frame, when there is one, is well formed with the five lower-case price columns |
| ChartDataProcessor.RenameGivesOhlcv | gui/chart_data_processor.py:56 | renaming a converter frame always yields the five capitalised OHLCV columns |
| ChartDataProcessor.PrepareColumnsOf | gui/chart_data_processor.py:56-58 | the renamed frame is returned iff it carries the five labels, otherwise nothing |
| ChartDataProcessor.ProcessPriceData | gui/chart_data_processor.py:36-66 | convert, limit, rename, validate: the result is drawable and at most the timeframe's candle limit, and equals validation of the renamed limited frame |
| ChartDataProcessor.LimitKeepsClean | gui/chart_data_processor.py:128 | the last rows of a NaN-free frame are NaN-free |
| ChartDataProcessor.LimitKeepsPositive | gui/chart_data_processor.py:128 | the last rows of a frame with positive prices have positive prices |
| ChartDataProcessor.LimitKeepsDrawable | gui/chart_data_processor.py:128 | limiting a validated frame for display keeps it drawable |
| ChartDataProcessor.AsPriceRows | gui/chart_data_processor.py:95-100 | one converter row per loaded candle |
| ChartDataProcessor.AsPriceRowsConvert | gui/chart_data_processor.py:95-100 | loaded candles all carry a time, so conversion drops none of them |
| ChartDataProcessor.ValidatedFrame | gui/chart_data_processor.py:100-115 | a frame comes back only when the rows convert, and it is then the NaN-free part of the renamed converted frame, drawable |
| ChartDataProcessor.FullFrame | gui/chart_data_processor.py:91-115 | the whole history of a pair, when there is one, is drawable |
| ChartDataProcessor.FullFrameOfListing | gui/chart_data_processor.py:95-115 | any listing of the pair's stored candles by ascending time yields the same whole history |
| ChartDataProcessor.ValidateRows | gui/chart_data_processor.py:100-115 | conversion, the column check and validation return ValidatedFrame of the rows |
| ChartDataProcessor.LoadFullFrame | gui/chart_data_processor.py:91-115 | the frame is the pair's whole history: None when the store is down, the instrument or timeframe is missing, the pair has no candles or nothing survives validation; otherwise the validated candles by ascending time, drawable |
| ChartDataProcessor.DrawAfterDma | gui/chart_data_processor.py:117-130 | the shown frame is the whole history limited for the timeframe, drawable and within the limit; when the averages can be computed the metric store is the previous one with every average upserted |
| ChartDataProcessor.PrepareChartData | gui/chart_data_processor.py:84-130 | the answer is the whole history limited for the timeframe, None without one (and then no table changes); when the averages can be computed on the whole history the metric store is the previous one with every average upserted; the answer is drawable and within the candle limit |
| ChartDataProcessor.HasDmaInDb | gui/chart_data_processor.py:68-82 | true iff both ids are obtained and the 3x3 displaced average has a stored value for the pair |
| ChartDataValidator.CleanRows | gui/chart_data_validator.py:28 | the positions kept by `dropna` are exactly the rows without NaN, ascending |
| ChartDataValidator.DropNaN | gui/chart_data_validator.py:26-28 | the result keeps the columns, holds no NaN and never has more rows |
| ChartDataValidator.DropNaNNoop | gui/chart_data_validator.py:26-28 | dropping NaN rows from a frame without NaN gives back the same frame |
| ChartDataValidator.ValidateData | gui/chart_data_validator.py:15-37 | a missing or empty frame, one that is all NaN, or one with a non-positive price gives None; a frame lacking the price columns raises; otherwise the NaN-free frame with positive prices |
| ChartDataValidator.Checked | gui/chart_data_validator.py:33-37 | the final price check raises iff the price columns are missing and passes a frame with only positive prices unchanged |
| ChartDataValidator.ValidateDataIdempotent | gui/chart_data_validator.py:15-37 | a validated frame passes validation again unchanged |
| ChartDataValidator.MaxCandles | gui/chart_data_validator.py:43-52 | the limit is the table's entry for a listed code and 500 otherwise, always between 100 and 500 |
| ChartDataValidator.LimitCandles | gui/chart_data_validator.py:39-57 | the result is the last min(len, limit) rows of every column and of the index |
| ChartDataValidator.LimitCandlesIdempotent | gui/chart_data_validator.py:39-57 | limiting twice is limiting once |
| ChartDataValidator.PrepareColumns | gui/chart_data_validator.py:59-77 | the frame is renamed in place; the same frame is returned when all five labels are present and None otherwise |
| ChartDataValidator.RenamedColumnsPresent | gui/chart_data_validator.py:63-73 | a required label exists after the rename iff the frame had it in either spelling |
| ChartDataValidator.RenameOnePreimage | gui/chart_data_validator.py:63-69 | only the label itself or its lower-case spelling is renamed to a required label |
| ChartDataValidator.RequiredLabelKept | gui/chart_data_validator.py:63-69 | the rename leaves a capitalised required label unchanged |
| ChartDataValidator.LowerLabelRenamed | gui/chart_data_validator.py:63-69 | the rename maps each lower-case spelling to its capitalised label |
| CoinGeckoFetcher.EthereumMarketCap | crypto_trading_bot/trading/coin_gecko_fetcher.py:29-57 | a capitalisation is returned iff the request succeeded and the `ethereum` entry holds a non-null `usd_market_cap`, and it is that value |
| CoinGeckoFetcher.PerPage | crypto_trading_bot/trading/coin_gecko_fetcher.py:75 | the page size is the smaller of the limit and 250 |
| CoinGeckoFetcher.CoinsByMarketCap | crypto_trading_bot/trading/coin_gecko_fetcher.py:59-95 | a failed request gives the empty list, and every coin returned has a positive capitalisation within the cap |
| CoinGeckoFetcher.CoinsByMarketCapKeeps | crypto_trading_bot/trading/coin_gecko_fetcher.py:85-88 | without a null capitalisation the filter keeps exactly the coins within the cap, as a subsequence of the listing |
| CoinGeckoFetcher.NullCapEmpties | crypto_trading_bot/trading/coin_gecko_fetcher.py:85-95 | one null capitalisation makes the comparison raise and empties the whole answer |
| CoinGeckoFetcher.MaxMarketCap | crypto_trading_bot/trading/coin_gecko_fetcher.py:110-118 | the cap times the ratio is Ethereum's capitalisation, or the 400-billion default for a missing or zero one; a zero ratio raises |
| CoinGeckoFetcher.CoinsBelowEthCapRatio | crypto_trading_bot/trading/coin_gecko_fetcher.py:97-129 | a zero ratio gives the empty list; otherwise the coins within Ethereum's capitalisation over the ratio |
| CoinGeckoFetcher.BelowRatioBound | crypto_trading_bot/trading/coin_gecko_fetcher.py:97-129 | with a positive ratio every coin kept has a positive capitalisation at most Ethereum's over the ratio |
| CoinGeckoFetcher.BinanceSymbolsAppend | crypto_trading_bot/trading/coin_gecko_fetcher.py:143-148 | one more coin appends its upper-cased symbol plus USDT exactly when the symbol is non-empty |
| CoinGeckoFetcher.ConvertToBinanceSymbols | crypto_trading_bot/trading/coin_gecko_fetcher.py:131-151 | the loop raises iff some coin has a null symbol; otherwise it yields the Binance spellings in order |
| CoinGeckoFetcher.BinanceSymbolsShape | crypto_trading_bot/trading/coin_gecko_fetcher.py:143-148 | never more symbols than coins, each an upper-case non-empty base followed by USDT, and every coin with a symbol represented |
| CoinGeckoFetcher.GetFilteredSymbols | crypto_trading_bot/trading/coin_gecko_fetcher.py:153-167 | the conversion of the coins below Ethereum's capitalisation over the ratio, raising iff one of them has a null symbol |
| CryptoDataProvider.ConvertSymbol | crypto_trading_bot/trading/crypto_data_provider.py:90-112 | a USDT pair becomes BASE/USDT for ccxt and BASE-USD for yfinance; any other symbol or source is passed through, listed symbols included |
| CryptoDataProvider.MappedSymbolsFollowRule | crypto_trading_bot/trading/crypto_data_provider.py:62-69 | the six table entries spell their symbols exactly as the automatic rule would |
| CryptoDataProvider.MappedSymbolsAreUsdtPairs | crypto_trading_bot/trading/crypto_data_provider.py:62-69 | every listed symbol is a USDT pair that Binance spells as itself |
| CryptoDataProvider.MappedCcxtSpelling | crypto_trading_bot/trading/crypto_data_provider.py:62-69 | each listed ccxt spelling is the base followed by /USDT |
| CryptoDataProvider.MappedYahooSpelling | crypto_trading_bot/trading/crypto_data_provider.py:62-69 | each listed yfinance spelling is the base followed by -USD |
| CryptoDataProvider.CcxtSymbolRoundTrip | crypto_trading_bot/trading/crypto_data_provider.py:105-107 | the ccxt spelling of a USDT pair gives the pair back once /USDT is replaced by USDT |
| CryptoDataProvider.ConvertSymbolInjective | crypto_trading_bot/trading/crypto_data_provider.py:90-112 | two USDT pairs with the same spelling at a source are the same pair |
| CryptoDataProvider.ConvertTimeframe | crypto_trading_bot/trading/crypto_data_provider.py:114-127 | an unlisted timeframe or unknown source is passed through, and Binance gets the same interval as ccxt |
| CryptoDataProvider.BinanceInterval | crypto_trading_bot/trading/crypto_data_provider.py:267-273 | the interval sent is always a Binance interval, and a Binance interval is sent as itself |
| CryptoDataProvider.ListedTimeframesReachBinance | crypto_trading_bot/trading/crypto_data_provider.py:49-59 | every listed timeframe reaches Binance as itself, never through the 1h default |
| CryptoDataProvider.YfinanceTimeframesDiffer | crypto_trading_bot/trading/crypto_data_provider.py:49-59 | yfinance differs from ccxt exactly for 3min and 1week |
| CryptoDataProvider.Trunc | crypto_trading_bot/trading/crypto_data_provider.py:153-154 | Python's int() on a float truncates toward zero |
| CryptoDataProvider.Column | crypto_trading_bot/trading/crypto_data_provider.py:226 | one column of the candles' frame holds the field of every row, in order |
| CryptoDataProvider.KlinesFrame | crypto_trading_bot/trading/crypto_data_provider.py:226-228 | the candle frame is indexed by open time in seconds and has the five lower-case columns from the rows |
| CryptoDataProvider.LoweredSource | crypto_trading_bot/trading/crypto_data_provider.py:391-397 | a lowered label takes its values from the column it was lowered from |
| CryptoDataProvider.RenameLower | crypto_trading_bot/trading/crypto_data_provider.py:391-397 | the yfinance rename keeps the index, lowers the five labels and keeps each column's values |
| CryptoDataProvider.LowerThenCapitalise | crypto_trading_bot/trading/crypto_data_provider.py:391-397 | a label the provider lowers is capitalised back to itself by the database rename |
| CryptoDataProvider.RoundTripColumn | crypto_trading_bot/trading/crypto_data_provider.py:391-397 | a lowered column survives lowering and capitalising with its values |
| CryptoDataProvider.RoundTripValues | crypto_trading_bot/trading/crypto_data_provider.py:391-397 | every column survives the two renames with its values |
| CryptoDataProvider.RoundTripKeys | crypto_trading_bot/trading/crypto_data_provider.py:391-397 | the two renames bring in no column the frame did not have |
| CryptoDataProvider.RenameRoundTrip | crypto_trading_bot/trading/crypto_data_provider.py:391-397 | yfinance's capitalised OHLCV frame, lowered and capitalised again, comes back unchanged |
| CryptoDataProvider.PyTail | crypto_trading_bot/trading/crypto_data_provider.py:444-445 | tail(k) keeps the last k rows, and for negative k drops the first -k |
| CryptoDataProvider.LimitRows | crypto_trading_bot/trading/crypto_data_provider.py:444-445 | at most limit rows remain for a non-negative limit, the last ones |
| CryptoDataProvider.LimitRowsIdempotent | crypto_trading_bot/trading/crypto_data_provider.py:444-445 | limiting twice by the same limit is limiting once |
| CryptoDataProvider.YahooRecentDays | crypto_trading_bot/trading/crypto_data_provider.py:585-592 | the period is 7 days for minute intervals, at least 30 for intervals other than 1h, and always between 7 and 730 |
| CryptoDataProvider.YahooRecentPeriod | crypto_trading_bot/trading/crypto_data_provider.py:586-592 | the period string is a day count followed by d |
| CryptoDataProvider.YahooRecentPeriodParses | crypto_trading_bot/trading/crypto_data_provider.py:586-592 | the period string reads back as the day count |
| CryptoDataProvider.YahooRecentPeriodCovers | crypto_trading_bot/trading/crypto_data_provider.py:587-592 | below the 730-day cap the period spans more than limit candles of the hourly, 4h or daily interval |
| CryptoDataProvider.Responses | crypto_trading_bot/trading/crypto_data_provider.py:431-440 | one answer per named source, in order |
| CryptoDataProvider.FirstUsable | crypto_trading_bot/trading/crypto_data_provider.py:431-454 | the chosen source is known and answered a non-empty frame, and it is that frame |
| CryptoDataProvider.FirstUsableIsFirst | crypto_trading_bot/trading/crypto_data_provider.py:431-454 | no known source before the chosen one answered a usable frame |
| CryptoDataProvider.FirstUsableIgnoresLater | crypto_trading_bot/trading/crypto_data_provider.py:442-447 | sources after the one that answers are never consulted |
| CryptoDataProvider.RecentVia | crypto_trading_bot/trading/crypto_data_provider.py:433-438 | dispatching on the source name calls that source's recent-candles fetcher |
| CryptoDataProvider.TryRecent | crypto_trading_bot/trading/crypto_data_provider.py:431-451 | one pass of the fallback loop finds a frame iff that source is known and usable |
| CryptoDataProvider.RecentOutcomeBounded | crypto_trading_bot/trading/crypto_data_provider.py:409-454 | a recent-data result holds at most limit rows, and at least one when the limit is positive |
| CryptoDataProvider.GetRecentData | crypto_trading_bot/trading/crypto_data_provider.py:409-454 | the loop returns the first usable source's frame cut to the limit, or None when every source fails |
| CryptoDataProvider.Paged | crypto_trading_bot/trading/crypto_data_provider.py:164-216 | the paging recursion uses no more rounds than allowed, and collecting rows takes at least one round |
| CryptoDataProvider.AscendingConcat | crypto_trading_bot/trading/crypto_data_provider.py:201-204 | ascending rows followed by ascending rows after the last of them stay ascending |
| CryptoDataProvider.BatchHonoursSince | crypto_trading_bot/trading/crypto_data_provider.py:175-195 | with an exchange honouring since, a round's batch ascends from the cursor |
| CryptoDataProvider.PagedAscending | crypto_trading_bot/trading/crypto_data_provider.py:164-216 | with such an exchange the collected candles ascend strictly from the start, never repeated or reordered |
| CryptoDataProvider.PagingStopped | crypto_trading_bot/trading/crypto_data_provider.py:164-216 | once the loop has stopped it holds the paging function's total |
| CryptoDataProvider.FetchRound | crypto_trading_bot/trading/crypto_data_provider.py:175-195 | one round is the request at the cursor and its single retry when the first raises |
| CryptoDataProvider.PagingRound | crypto_trading_bot/trading/crypto_data_provider.py:197-209 | a failed or empty round stops with the rows so far, a short batch stops with it added, a full batch resumes one millisecond after its last candle |
| CryptoDataProvider.PagingStep | crypto_trading_bot/trading/crypto_data_provider.py:165-216 | the loop body counts one more round and either stops at the total or keeps the paging invariant |
| CryptoDataProvider.FetchCcxtBatches | crypto_trading_bot/trading/crypto_data_provider.py:156-216 | the loop collects exactly the paging function's rows and rounds, at most 1000 rounds |
| CryptoDataProvider.GetDataViaCcxt | crypto_trading_bot/trading/crypto_data_provider.py:129-241 | the method returns the ccxt history function of the window: None without a client or rows, else the candle frame |
| CryptoDataProvider.YahooStart | crypto_trading_bot/trading/crypto_data_provider.py:374-378 | for a minute interval a window of more than seven whole days is cut to the last seven; other intervals keep the start |
| CryptoDataProvider.HistoryVia | crypto_trading_bot/trading/crypto_data_provider.py:657-662 | dispatching on the source name calls that source's window fetcher |
| CryptoDataProvider.TryHistory | crypto_trading_bot/trading/crypto_data_provider.py:655-672 | one pass of the fallback loop finds a frame iff that source is known and usable |
| CryptoDataProvider.HistoryWindow | crypto_trading_bot/trading/crypto_data_provider.py:646-650 | the end defaults to now and the start to years of 365 days before the end |
| CryptoDataProvider.GetHistoricalData | crypto_trading_bot/trading/crypto_data_provider.py:623-675 | the loop returns the first usable source's frame over the window, or None |
| CryptoDataProvider.CandlestickFrame | crypto_trading_bot/trading/crypto_data_provider.py:702-703 | the five selected columns are capitalised with their values and the index is kept |
| CryptoDataProvider.GetDataForCandlestickChart | crypto_trading_bot/trading/crypto_data_provider.py:677-705 | a chart frame exists iff the history has data and all five columns, and then it is CandlestickFrame of that history: the OHLCV columns capitalised, on the history's index |
| DataExport.FindInstrumentCaseless | crypto_trading_bot/database/data_export.py:58-63 | an instrument is found iff some stored symbol equals the given one up to letter case, and its id is returned |
| DataExport.FindInstrumentCaselessIgnoresCase | crypto_trading_bot/database/data_export.py:58 | two symbols differing only in letter case find the same instrument |
| DataExport.FindInstrumentCaselessWidens | crypto_trading_bot/database/data_export.py:58 | every instrument the exact symbol lookup finds, the case-insensitive lookup finds too |
| DataExport.FirstTimeframeHit | crypto_trading_bot/database/data_export.py:66-81 | an id is found iff some query in the order code, api_value, interval_name, name, timeframe_name returns a row, and it is the first such query's answer with failing queries skipped |
| DataExport.AbortedTransactionHidesTimeframe | crypto_trading_bot/database/data_export.py:74-81 | on a table without code and api_value columns holding "1h" under interval_name, the chain as written finds nothing while the intended chain finds id 1 |
| DataExport.ResolveTimeframeId | crypto_trading_bot/database/data_export.py:73-81 | the loop with its break returns the first query's hit |
| DataExport.InsertFrameRows | crypto_trading_bot/database/data_export.py:112-155 | inserted plus skipped never exceeds the rows, and equals them when the run finishes |
| DataExport.InsertFrameRowsKeeps | crypto_trading_bot/database/data_export.py:124-148 | no stored candle is modified or removed, and each new candle belongs to this instrument, timeframe and a row's time |
| DataExport.InsertFrameRowsGrowth | crypto_trading_bot/database/data_export.py:130-146 | the table grows by exactly the number of inserts counted |
| DataExport.InsertFrameRowsStopped | crypto_trading_bot/database/data_export.py:115-155 | once a row raises, the rows after it change nothing |
| DataExport.InsertFrameRowsCovers | crypto_trading_bot/database/data_export.py:116-148 | a finished run leaves a candle under the key of every row |
| DataExport.InsertFramePresentSkips | crypto_trading_bot/database/data_export.py:147-148 | rows whose keys are all present are all skipped and change nothing |
| DataExport.InsertFrameRowsIdempotent | crypto_trading_bot/database/data_export.py:112-150 | re-inserting the frame a finished run inserted adds nothing and skips every row |
| DataExport.FirstOccurrenceWins | crypto_trading_bot/database/data_export.py:124-146 | within one frame a repeated time is stored once, with the first row's prices |
| DataExport.InsertDataframe | crypto_trading_bot/database/data_export.py:99-155 | the loop's counts and the new candle table are those of the insert-if-absent run over the rows |
| DataExport.Field | crypto_trading_bot/database/data_export.py:189-193 | a price field is the first of the names present in the tick, else 0 |
| DataExport.InsertTicks | crypto_trading_bot/database/data_export.py:170-209 | a tick without a time is skipped, existing candles are kept, new ones belong to a tick's time, and a finished run covers every tick with a time |
| DataExport.FirstTickWins | crypto_trading_bot/database/data_export.py:187-200 | within one list a new time is stored once, with the prices of its first tick; later ticks with that time are skipped |
| DataExport.InsertTicksStopped | crypto_trading_bot/database/data_export.py:170-209 | once a query raises, the later ticks change nothing |
| DataExport.InsertTicksOffline | crypto_trading_bot/database/data_export.py:182-186 | with the database down a run fails iff some tick has a time, and nothing is written |
| DataExport.InsertTicksOnline | crypto_trading_bot/database/data_export.py:170-206 | with the database up a run over ticks always finishes |
| DataExport.InsertListData | crypto_trading_bot/database/data_export.py:157-209 | the loop's result and the new candle table are those of the tick run |
| DataExport.PriceDataOutcome | crypto_trading_bot/database/data_export.py:47-97 | False with no write when the database is down, the instrument is unknown or no timeframe id is truthy; otherwise the run the data's type selects, never modifying a stored candle |
| DataExport.PriceDataFrameOrigin | crypto_trading_bot/database/data_export.py:88-90 | a frame adds only candles whose time is one of its rows' times |
| DataExport.InsertPriceData | crypto_trading_bot/database/data_export.py:47-97 | the result and the candle table are those of the resolved outcome |
| HuobiHistoricalData.ToParam | crypto_trading_bot/trading/data_fetcher_historical.py:51-52 | the to parameter is sent iff the last candle id is present and non-zero, and it is that id |
| HuobiHistoricalData.ReadBatch | crypto_trading_bot/trading/data_fetcher_historical.py:62-88 | one loop turn raises iff the request raises, stops with the batch kept on a refused, empty, id-less or short reply, and goes on with the last candle id otherwise |
| HuobiHistoricalData.FetchFrom | crypto_trading_bot/trading/data_fetcher_historical.py:42-88 | a run sends at most the budget of requests, at least one when the budget is positive, and the first has size 2000 and no to parameter unless a candle id is known |
| HuobiHistoricalData.FetchChained | crypto_trading_bot/trading/data_fetcher_historical.py:77-83 | each request after the first asks for candles up to the last id of the previous batch |
| HuobiHistoricalData.FetchStops | crypto_trading_bot/trading/data_fetcher_historical.py:65-88 | a run ends before its budget only on a reply that does not continue, and raises exactly when its last reply raises |
| HuobiHistoricalData.FetchCollects | crypto_trading_bot/trading/data_fetcher_historical.py:71-77 | a run that does not raise collects the accepted batches in fetch order |
| HuobiHistoricalData.BatchBudget | crypto_trading_bot/trading/data_fetcher_historical.py:42 | range(max_batches) runs max_batches turns, none for a negative count |
| HuobiHistoricalData.RunFromFetch | crypto_trading_bot/trading/data_fetcher_historical.py:39-96 | the loop from any point returns what was collected before it followed by what the rest collects, or [] when a request raises |
| HuobiHistoricalData.HistoricalDataIsBatches | crypto_trading_bot/trading/data_fetcher_historical.py:26-96 | the call returns the accepted batches in fetch order, or [] when a request raised, after at most max_batches requests |
| HuobiHistoricalData.GetHistoricalData | crypto_trading_bot/trading/data_fetcher_historical.py:26-96 | the loop returns exactly the batch function's result |
| HuobiHistoricalData.AvailableInstruments | crypto_trading_bot/trading/data_fetcher_historical.py:182-205 | one pair per listed currency, each ending in usdt; [] on failure or without data |
| HuobiHistoricalData.PairsRoundTrip | crypto_trading_bot/trading/data_fetcher_historical.py:196 | dropping the usdt suffix gives back each currency |
| HuobiHistoricalData.Volume24h | crypto_trading_bot/trading/data_fetcher_historical.py:207-225 | a failed request or a reply without tick gives volume 0 |
| HuobiHistoricalData.FilterByVolume | crypto_trading_bot/trading/data_fetcher_historical.py:227-239 | the filter raises iff some instrument's volume is null |
| HuobiHistoricalData.FilterByVolumeKeeps | crypto_trading_bot/trading/data_fetcher_historical.py:234-237 | the filter keeps exactly the instruments whose volume reaches the minimum, in order |
| HuobiHistoricalData.FilterInstrumentsByVolume | crypto_trading_bot/trading/data_fetcher_historical.py:227-239 | the loop returns the volume filter's result |
| HuobiHistoricalData.GetFilteredInstruments | crypto_trading_bot/trading/data_fetcher_historical.py:241-251 | the configured symbols filtered with the default minimum of one million |
| DataImport.Listed | crypto_trading_bot/database/data_import.py:25-27 | one (id, symbol) pair per instrument row |
| DataImport.GetInstruments | crypto_trading_bot/database/data_import.py:18-34 | every instrument in table order, [] when the query raises |
| DataImport.ListedAgreesWithLookup | crypto_trading_bot/database/data_import.py:25-30 | every listed symbol looks up to its listed id, and every stored symbol is listed |
| DataImport.FirstNameLike | crypto_trading_bot/database/data_import.py:62-65 | the first column, in table order, whose lower-cased name is one of the five recognised names, or none iff no column is |
| DataImport.TimeframeNameColumn | crypto_trading_bot/database/data_import.py:58-73 | the name column is a non-empty column of the table: the first recognised one, else the second; none with no recognised column and at most one column |
| DataImport.TimeframesListing | crypto_trading_bot/database/data_import.py:36-90 | [] when the query raises, the table has no columns or no name column; otherwise the (first column, name column) pair of every row |
| DataImport.GetTimeframes | crypto_trading_bot/database/data_import.py:36-90 | the method returns the listing function's result |
| DataImport.NameColumnByTableOrder | crypto_trading_bot/database/data_import.py:62-65 | the search follows table order, so with timeframe before name this read uses timeframe while the schema manager uses name |
| DataImport.CandleSeriesDistinct | crypto_trading_bot/database/data_import.py:113-117 | the candles of one instrument and timeframe have distinct times |
| DataImport.GetPriceData | crypto_trading_bot/database/data_import.py:108-124 | the candles of the pair in ascending time, each once; [] when the query raises |
| DataUpdater.ProviderTimeframesListed | crypto_trading_bot/trading/data_updater.py:48-52 | every provider timeframe the updater asks for, including the 1hour default, is listed in the provider's own table |
| DataUpdater.PeriodSeconds | crypto_trading_bot/trading/data_updater.py:98-104 | a code's candle period is positive, 60 minutes for an unknown code |
| DataUpdater.UpdateInterval | crypto_trading_bot/trading/data_updater.py:299-339 | the refresh interval is positive, 60 seconds for an unknown code |
| DataUpdater.UpdateIntervalWithinPeriod | crypto_trading_bot/trading/data_updater.py:310-339 | every code is refreshed at least once per candle period |
| DataUpdater.TablesAgree | crypto_trading_bot/trading/data_updater.py:48-52 | the timeframe mapping, the minutes table and the interval table cover the same thirteen codes |
| DataUpdater.CalculateMissingCandles | crypto_trading_bot/trading/data_updater.py:81-115 | the window ends now; it starts one period after the last candle, or 100 periods back when there is none |
| DataUpdater.MaxDays | crypto_trading_bot/trading/data_updater.py:198-205 | the longest window fetched after a stored candle is 7, 30, 90 or 365 days |
| DataUpdater.ClampStart | crypto_trading_bot/trading/data_updater.py:208-211 | the clamp only moves the start later, leaves a short window alone and makes a long one exactly max_days |
| DataUpdater.ClampIdempotent | crypto_trading_bot/trading/data_updater.py:208-211 | clamping a clamped window changes nothing |
| DataUpdater.Plan | crypto_trading_bot/trading/data_updater.py:176-225 | nothing to fetch iff a candle is stored and the window is empty; the last 100 candles on a cold start; else a clamped historical window ending now |
| DataUpdater.PositionsAfter | crypto_trading_bot/trading/data_updater.py:246 | the positions kept by the filter are exactly those after the last candle, ascending |
| DataUpdater.NewerRows | crypto_trading_bot/trading/data_updater.py:232-246 | after a stored candle the frame keeps exactly the rows after it, in order; without one the frame is unchanged |
| DataUpdater.ConvertDataframeForDb | crypto_trading_bot/trading/data_updater.py:271-297 | the conversion keeps the index and a well-formed frame |
| DataUpdater.AsFrameRows | crypto_trading_bot/trading/data_updater.py:253-256 | one writer row per frame row, timed by the index |
| DataUpdater.ConvertedRowsPriced | crypto_trading_bot/trading/data_updater.py:253-256 | a provider frame, once converted, gives the writer a full candle for every row |
| DataUpdater.GetLastCandleTime | crypto_trading_bot/trading/data_updater.py:54-79 | the latest stored candle time of the pair, None without candles or when the query raises |
| DataUpdater.FetchOutcome | crypto_trading_bot/trading/data_updater.py:176-263 | the fetching half never changes or removes a stored candle |
| DataUpdater.RowsToWriteAfter | crypto_trading_bot/trading/data_updater.py:246-256 | every row handed to the writer lies after the last stored candle |
| DataUpdater.FetchOutcomeNewer | crypto_trading_bot/trading/data_updater.py:176-263 | only candles after the last stored one reach the store |
| DataUpdater.FetchMissing | crypto_trading_bot/trading/data_updater.py:176-263 | the method's result and store are the fetching outcome |
| DataUpdater.FindByCode | crypto_trading_bot/trading/data_updater.py:164-169 | the loop with break finds a record iff one is named by the code, and returns the first |
| DataUpdater.Resolve | crypto_trading_bot/trading/data_updater.py:156-173 | resolved ids are the first instrument with the symbol and the table id of the first timeframe named by the code |
| DataUpdater.ListedCodeResolves | crypto_trading_bot/trading/data_updater.py:164-169 | over the listed records the first named by the code carries the table lookup's id, and none means no id |
| DataUpdater.ResolveTimeframe | crypto_trading_bot/trading/data_updater.py:163-173 | the loop returns the timeframe id the table lookup gives |
| DataUpdater.ResolveIds | crypto_trading_bot/trading/data_updater.py:156-173 | the method returns the resolved ids |
| DataUpdater.JustUpdatedNotDue | crypto_trading_bot/trading/data_updater.py:341-358 | right after a code's update it is due again only once its interval has passed, and never at the same instant |
| DataUpdater.Updater.constructor | crypto_trading_bot/trading/data_updater.py:29-52 | a new updater has no cached listing and no recorded update |
| DataUpdater.Updater.IsSymbolAvailable | crypto_trading_bot/trading/data_updater.py:117-136 | a stale or missing cache is refreshed from the exchange at now, a fresh one kept, and the answer is membership in it |
| DataUpdater.Updater.LoadMissingCandles | crypto_trading_bot/trading/data_updater.py:138-269 | the symbol cache afterwards is Refresh of the one before at now, and the result and candle store are LoadOutcome on that listing: False with no write for an unlisted symbol or a missing instrument or timeframe, otherwise the fetching outcome for the series' last stored time; stored candles never change and every new candle is later than the series held |
| DataUpdater.Updater.UpdatePair | crypto_trading_bot/trading/data_updater.py:383-402 | the success, candle store, update times and symbol cache after one pair are PairOutcome's: an empty, unmapped or (unforced) not-due code at the check's reading is skipped with nothing changed; otherwise the load at the pair's load reading decides, and a success records the pair's third reading as the code's update time |
| DataUpdater.Updater.UpdateInstrument | crypto_trading_bot/trading/data_updater.py:384-402 | the inner loop's successes, candle store, update times and symbol cache are InstrumentPass over the records at consecutive ticks; it counts at most one success per record, appends exactly its successes to the pass's log at increasing ticks and keeps the stored candles |
| DataUpdater.Updater.UpdateAllInstruments | crypto_trading_bot/trading/data_updater.py:360-408 | the successes, candle store, update times and symbol cache are PassOutcome over the listed instruments and the records built from the timeframe listing; success_count is the number of logged successes, at most instruments times timeframes; each success was for a mapped code due at its own check (unless forced); the update times are the successes' clock readings recorded in order; no stored candle is lost |
| DataUpdater.Updater.UpdatePass | crypto_trading_bot/trading/data_updater.py:383-408 | the outer loop's successes, candle store, update times and symbol cache are PassOutcome over the instruments, with the same bounds, due checks and recorded update times |
| DataUpdater.LastCandleUnique | crypto_trading_bot/trading/data_updater.py:54-79 | a series has at most one last candle time |
| DataUpdater.LastTime | crypto_trading_bot/trading/data_updater.py:54-79 | the last stored time of a series is None iff it has no candle, else the time of one of its candles and no earlier than any |
| DataUpdater.Refresh | crypto_trading_bot/trading/data_updater.py:117-136 | the cache answered from is always filled and fresh at now; a stale or empty cache becomes the exchange's listing stamped now, a fresh one is kept as it was |
| DataUpdater.LoadOutcome | crypto_trading_bot/trading/data_updater.py:138-269 | an unlisted symbol, or one whose instrument or timeframe is not found, gives False with the store unchanged; any outcome keeps every stored candle |
| DataUpdater.PairOutcome | crypto_trading_bot/trading/data_updater.py:383-402 | one pair never loses a candle; a failure leaves the update times alone; a success is for a mapped code, due at the check's reading unless forced, and records the pair's third reading |
| DataUpdater.InstrumentPass | crypto_trading_bot/trading/data_updater.py:384-402 | one instrument's inner loop logs between none and one success per record and keeps every stored candle |
| DataUpdater.PassOutcome | crypto_trading_bot/trading/data_updater.py:383-408 | a pass logs at most instruments times records successes and keeps every stored candle |
| DataUpdater.InstrumentStep | crypto_trading_bot/trading/data_updater.py:384-402 | one more pair keeps the pass's bookkeeping: the log is a pass's successes and the update times are their replay, one tick on |
| DataUpdater.OfflineInstrumentPass | crypto_trading_bot/trading/data_updater.py:156-173 | with the database down one instrument's inner loop logs no success, writes no candle and records no update time |
| DataUpdater.OfflinePassLoadsNothing | crypto_trading_bot/trading/data_updater.py:156-173 | with the database down a whole pass logs no success, writes no candle and records no update time |
| DataUpdater.PassStep | crypto_trading_bot/trading/data_updater.py:395-402 | a successful load for a due mapped code extends the pass's log and update times by that code at the pair's clock reading |
| DataUpdater.LoggedPrefix | crypto_trading_bot/trading/data_updater.py:383-402 | every prefix of a pass's successes is a pass's successes |
| DataUpdater.ReplayAtLeast | crypto_trading_bot/trading/data_updater.py:399-402 | on a clock that never runs backwards, a code that succeeded holds an update time no earlier than that success's reading |
| DataUpdater.SuccessesSpaced | crypto_trading_bot/trading/data_updater.py:341-402 | in an unforced pass, two successes of one code are at least the code's update interval apart, from the first's recorded time to the second's due check |
| DataUpdater.QuickPassOncePerCode | crypto_trading_bot/trading/data_updater.py:310-402 | an unforced pass lasting under a minute from its first record to its last check succeeds at most once per code, so at most as many times as there are mapped codes |
| DataUpdater.TicksIncrease | crypto_trading_bot/trading/data_updater.py:383-384 | later successes of a pass come from later pairs |
| DataUpdater.DistinctCodes | crypto_trading_bot/trading/data_updater.py:395-402 | successes with pairwise distinct codes name as many codes as there are successes |
| DataUpdater.LoggedCodesMapped | crypto_trading_bot/trading/data_updater.py:391-392 | every success of a pass is for a mapped code |
| DbSchema.FindInstrument | crypto_trading_bot/analytics/db_schema.py:112-116 | an id is found iff some row has exactly that symbol, and it is that row's id |
| DbSchema.FindInstrumentAppend | crypto_trading_bot/analytics/db_schema.py:119-128 | after a row is appended for a symbol not yet stored, the lookup finds the new row's id |
| DbSchema.FindTimeframe | crypto_trading_bot/analytics/db_schema.py:152-155 | an id is found iff some row's name column holds the value, and it is the id cell of the first such row |
| DbSchema.FindTimeframeAppend | crypto_trading_bot/analytics/db_schema.py:167-183 | after a row is appended for a name not yet stored, the lookup finds the new row's id |
| DbSchema.FirstPreferred | crypto_trading_bot/analytics/db_schema.py:249-252 | the first preferred name that is a column, found iff any is |
| DbSchema.ResolveNameColumn | crypto_trading_bot/analytics/db_schema.py:245-255 | the first preferred name present, else the second column; raises iff no preferred name is present and there is at most one column |
| DbSchema.ResolveIdColumn | crypto_trading_bot/analytics/db_schema.py:257-263 | id when present, else the first column, always a column of the table |
| DbSchema.TimeframeToSeconds | crypto_trading_bot/analytics/db_schema.py:198-227 | a lower-cased name with none of the m, h, d, w or mo endings gives 0 |
| DbSchema.LoweredLetter | crypto_trading_bot/analytics/db_schema.py:210-221 | on a lower-cased code, digits and a one-letter unit give the count times the unit |
| DbSchema.LoweredMonths | crypto_trading_bot/analytics/db_schema.py:222-224 | on a lower-cased code, digits and mo give the count times 30 days |
| DbSchema.TimeframeToSecondsLetter | crypto_trading_bot/analytics/db_schema.py:208-221 | digits followed by m, h, d or w in either case give the count times the unit's seconds |
| DbSchema.TimeframeToSecondsMonths | crypto_trading_bot/analytics/db_schema.py:208-224 | digits followed by mo in either case give the count times 2592000 |
| DbSchema.TimeframeToSecondsExamples | crypto_trading_bot/analytics/db_schema.py:208-215 | 15m is 900 seconds and 4h is 14400 |
| DbSchema.TimeframeToSecondsCapitalM | crypto_trading_bot/analytics/db_schema.py:208-212 | 1M is lower-cased and tested for m first, so it is one minute |
| DbSchema.TimeframeToSecondsMonth | crypto_trading_bot/analytics/db_schema.py:222-224 | 1mo is thirty days |
| DbSchema.TimeframeToSecondsSpacedOrGrouped | crypto_trading_bot/analytics/db_schema.py:208-212 | `int()` skips the spaces around the count and reads underscores between its digits, so " 5m" is 300 seconds and "1_0m" 600 |
| Text.ParseIntDigits | crypto_trading_bot/analytics/db_schema.py:211 | a plain run of decimal digits reads as its value |
| Text.ParseIntSpaced | crypto_trading_bot/analytics/db_schema.py:211 | spaces around a number do not change what `int()` reads |
| Text.ParseIntGrouped | crypto_trading_bot/analytics/db_schema.py:211 | two digit groups joined by one underscore read as their digits run together |
| Text.ParseIntRejects | crypto_trading_bot/analytics/db_schema.py:211 | a doubled, leading or trailing underscore, or a space inside the number, makes `int()` raise |
| DbSchema.TimeframeToSecondsNoCount | crypto_trading_bot/analytics/db_schema.py:210-212 | a unit without a count makes int('') raise |
| DbSchema.NewTimeframeRow | crypto_trading_bot/analytics/db_schema.py:157-170 | the inserted row has exactly the table's columns: the name in the name column, the parsed seconds (or NULL) in a `seconds` column, the serial value in an `id` column, NULL elsewhere |
| DbSchema.InstrumentsValidAppend | crypto_trading_bot/analytics/db_schema.py:119-123 | inserting a new symbol under the next serial id keeps the instrument table valid |
| DbSchema.TimeframesValidAppend | crypto_trading_bot/analytics/db_schema.py:167-177 | appending a row for a new name keeps the timeframe table valid |
| DbSchema.LookupInResolved | crypto_trading_bot/analytics/db_schema.py:147-155 | the lookup through the resolved columns is the first-row search on them |
| DbSchema.TimeframeInserted | crypto_trading_bot/analytics/db_schema.py:167-183 | appending a row with a new name keeps the table valid, keeps the old rows and makes the name found with the new id |
| DbSchema.Database.constructor | crypto_trading_bot/analytics/db_schema.py:31-98 | a fresh schema has empty tables, the given timeframe columns and is valid |
| DbSchema.Database.TableColumns | crypto_trading_bot/analytics/db_schema.py:229-243 | the columns are returned iff the database is up and the table has columns; otherwise it raises |
| DbSchema.Database.EnsureInstrument | crypto_trading_bot/analytics/db_schema.py:101-134 | succeeds iff the database is up; returns the stored id, or appends (symbol, symbol) under the next id and returns it; the symbol then looks up to the result |
| DbSchema.Database.EnsureTimeframe | crypto_trading_bot/analytics/db_schema.py:136-196 | succeeds iff the name can be ensured, and the name then looks up to the returned id; a stored name returns its id without writing; otherwise either nothing is written or exactly NewTimeframeRow for the name and its seconds is appended and the serial advances by one; a failure writes nothing |
| DbSchema.Database.InsertTimeframe | crypto_trading_bot/analytics/db_schema.py:167-183 | the insert appends exactly NewTimeframeRow for the name, keeps the other rows, advances the serial by one and makes the name look up to the returned id |
| DinapoliDma.CalculateDma | crypto_trading_bot/analytics/dinapoli_dma.py:48-76 | one value per close, and no defined value when there are fewer closes than the period |
| DinapoliDma.CalculateDmaIsSma | crypto_trading_bot/analytics/dinapoli_dma.py:64-76 | the early return changes nothing: the result is always the rolling mean |
| DinapoliDma.SmaDefinedShrinks | crypto_trading_bot/analytics/dinapoli_dma.py:152 | a shorter window inside a defined window is defined |
| DinapoliDma.MetricTypeExamples | crypto_trading_bot/analytics/dinapoli_dma.py:173 | the metric type is spelled DMA_{period}x{displacement}, e.g. DMA_3x3 and DMA_25x5 |
| DinapoliDma.ValidPositions | crypto_trading_bot/analytics/dinapoli_dma.py:155 | every position kept by dropna is below the length and holds a defined average |
| DinapoliDma.ValidPositionsIncreasing | crypto_trading_bot/analytics/dinapoli_dma.py:155 | the kept positions ascend |
| DinapoliDma.ValidPositionsComplete | crypto_trading_bot/analytics/dinapoli_dma.py:155 | every defined position is kept |
| DinapoliDma.DmaWritesAt | crypto_trading_bot/analytics/dinapoli_dma.py:176-212 | write j is the write for the j-th defined position, so nothing is written for NaN and nothing twice |
| DinapoliDma.DmaWritesIncreasing | crypto_trading_bot/analytics/dinapoli_dma.py:176-179 | with strictly increasing candle times the written keys have strictly increasing times |
| DinapoliDma.ValidPositionsNoNaN | crypto_trading_bot/analytics/dinapoli_dma.py:152-155 | over closes without NaN the defined positions are exactly period-1 to len-1 |
| DinapoliDma.DmaWritesShape | crypto_trading_bot/analytics/dinapoli_dma.py:152-212 | for len at least the period, exactly len-period+1 values are written, labelled DMA_{period}x{displacement}, each the window mean under its candle shifted by displacement steps |
| DinapoliDma.DmaWriteIs | crypto_trading_bot/analytics/dinapoli_dma.py:176-179 | write j goes to candle period-1+j |
| DinapoliDma.WriteAtMean | crypto_trading_bot/analytics/dinapoli_dma.py:152 | the value written at a position is the mean of the period closes ending there |
| DinapoliDma.DmaWritesEnds | crypto_trading_bot/analytics/dinapoli_dma.py:166-179 | the first key is candle period-1 shifted by displacement steps of index[1]-index[0]; the last lies displacement steps past the last candle |
| DinapoliDma.LastWrite | crypto_trading_bot/analytics/dinapoli_dma.py:189-198 | the value of the last write to a key, present iff some write targets it |
| DinapoliDma.UpsertAll | crypto_trading_bot/analytics/dinapoli_dma.py:189-212 | after the upserts a key is present iff it was stored or written, with the last written value, and unwritten keys keep their value |
| DinapoliDma.UpsertAllIdempotent | crypto_trading_bot/analytics/dinapoli_dma.py:189-198 | rerunning the same upserts changes nothing |
| DinapoliDma.UpsertAllConcat | crypto_trading_bot/analytics/dinapoli_dma.py:189-198 | two runs of upserts are one run of all the writes |
| DinapoliDma.UpsertAllDistinct | crypto_trading_bot/analytics/dinapoli_dma.py:189-198 | with distinct keys every write's value is what the table holds afterwards |
| DinapoliDma.DmaWritesLand | crypto_trading_bot/analytics/dinapoli_dma.py:166-212 | on a frame with increasing times each written key holds its own average afterwards |
| DinapoliDma.UpsertDmaStep | crypto_trading_bot/analytics/dinapoli_dma.py:176-212 | one more position adds its write exactly when its average is defined |
| DinapoliDma.UpsertDma | crypto_trading_bot/analytics/dinapoli_dma.py:176-217 | the loop leaves the metric table as the upsert of all the run's writes |
| DinapoliDma.AnyDefined | crypto_trading_bot/analytics/dinapoli_dma.py:155-159 | true iff some average is defined |
| DinapoliDma.EnsureKeys | crypto_trading_bot/analytics/dinapoli_dma.py:169-170 | both ids are obtained iff the database is up and the timeframe can be ensured; they then look up to the symbol and code |
| DinapoliDma.CalculateDmaFromDataframe | crypto_trading_bot/analytics/dinapoli_dma.py:120-227 | succeeds iff the frame passes its checks and both ids are obtained; the metric table is then the upsert of every defined average under its shifted time, and unchanged on failure |
| DinapoliDma.CheckDmaInput | crypto_trading_bot/analytics/dinapoli_dma.py:141-164 | the averages are returned iff the frame is non-empty, has a close column, a defined average and two rows |
| DinapoliDma.AllCombinationsOk | crypto_trading_bot/analytics/dinapoli_dma.py:28-32 | a frame passing the checks for 25 candles passes them for 3 and 7, so all three succeed exactly when the longest does |
| DinapoliDma.ProgressStep | crypto_trading_bot/analytics/dinapoli_dma.py:343-345 | one more combination moves the loop's progress from k to k+1 |
| DinapoliDma.AccumulateStep | crypto_trading_bot/analytics/dinapoli_dma.py:343-345 | running combination k extends the accumulated writes by its own |
| DinapoliDma.RunCombination | crypto_trading_bot/analytics/dinapoli_dma.py:343-345 | one loop pass runs a combination and counts it when it succeeds |
| DinapoliDma.LoopDone | crypto_trading_bot/analytics/dinapoli_dma.py:352 | after the three combinations the loop state gives the outcome |
| DinapoliDma.CalculateAllDmaFromDataframe | crypto_trading_bot/analytics/dinapoli_dma.py:322-352 | succeeds iff the frame supports the 25-candle average and both ids are obtained; the table then holds every write of the three runs |
| DinapoliDma.RunCombinations | crypto_trading_bot/analytics/dinapoli_dma.py:342-352 | the loop over the three combinations reaches the outcome |
| DinapoliDma.StoredSeriesDistinct | crypto_trading_bot/analytics/dinapoli_dma.py:286-293 | the stored pairs of one average have distinct times, and exist iff matching keys exist |
| DinapoliDma.GetDmaFromDb | crypto_trading_bot/analytics/dinapoli_dma.py:261-320 | the stored (time, value) pairs in ascending time, or None when an id cannot be obtained or nothing is stored |
| DinapoliIndicators.CalculateSma | crypto_trading_bot/indicators/dinapoli.py:165-167 | one entry per close, each the rolling mean of the window ending there |
| DinapoliIndicators.SmaDefinedExactly | crypto_trading_bot/indicators/dinapoli.py:165-167 | undefined for the first window-1 entries; from there defined iff the whole window is, and then the window's sum over its length |
| DinapoliIndicators.SmaWithinWindow | crypto_trading_bot/indicators/dinapoli.py:165-167 | a defined average lies between the least and the greatest value of its window |
| DinapoliIndicators.SmaSlides | crypto_trading_bot/indicators/dinapoli.py:165-167 | one step on, the average moves by the entering minus the leaving value over the window length |
| DinapoliIndicators.SmaOverNumbers | crypto_trading_bot/indicators/dinapoli.py:165-167 | over numbers a full window's average is its sum over its length |
| DinapoliIndicators.WindowSlides | crypto_trading_bot/indicators/dinapoli.py:165-167 | the window at i is the window at i-1 without its first value and with the new one appended |
| DinapoliIndicators.ObvUpTo | crypto_trading_bot/indicators/dinapoli.py:331-340 | the list after n candles starts at 0 and has one entry per candle (one entry for none) |
| DinapoliIndicators.Obv | crypto_trading_bot/indicators/dinapoli.py:331-340 | one entry per row, and [0] for an empty frame |
| DinapoliIndicators.ObvUpToStep | crypto_trading_bot/indicators/dinapoli.py:333-339 | one more candle keeps the earlier entries and appends the last entry plus the signed volume: up adds, down subtracts, flat keeps |
| DinapoliIndicators.ObvIsRunningSum | crypto_trading_bot/indicators/dinapoli.py:331-340 | each entry is the running sum of the signed volumes up to it |
| DinapoliIndicators.CalculateObv | crypto_trading_bot/indicators/dinapoli.py:331-340 | the appending loop returns exactly the on-balance volume list |
| DinapoliIndicators.LastN | crypto_trading_bot/indicators/dinapoli.py:286 | df[-n:] keeps the last min(n, len) rows in order |
| DinapoliIndicators.LevelsOrdered | crypto_trading_bot/indicators/dinapoli.py:293-311 | with low at most high the support levels climb and the resistance levels descend inside the range, each pair sums to low+high, and the 50% levels meet |
| DinapoliIndicators.FibonacciSupportResistance | crypto_trading_bot/indicators/dinapoli.py:281-311 | over the last 50 bars, levels at 23.6/38.2/50/61.8% of the range above the lowest low and below the highest high; none for an empty frame |
| DinapoliIndicators.FibonacciLevelsOrdered | crypto_trading_bot/indicators/dinapoli.py:281-311 | when each bar's low is at most its high, the lowest low is at most the highest high and the levels are ordered inside the range |
| DinapoliIndicators.FibonacciLevels | crypto_trading_bot/indicators/dinapoli.py:313-321 | None exactly for an empty frame; otherwise the 23.6/38.2/50/61.8% levels below the whole frame's highest high over its range down to the lowest low, and [highest, lowest] |
| DinapoliIndicators.FibonacciLevelsWithinExtremes | crypto_trading_bot/indicators/dinapoli.py:313-321 | when each bar's low is at most its high, the four levels descend and lie between the lowest low and the highest high |
| DinapoliIndicators.FibonacciLevelsAreResistance | crypto_trading_bot/indicators/dinapoli.py:281-321 | up to 50 bars the whole-frame levels are the resistance levels of the 50-bar variant |
| DinapoliIndicators.OpXopCop | crypto_trading_bot/indicators/dinapoli.py:257-279 | OP is the last close; none for an empty frame |
| DinapoliIndicators.OpXopCopOrdered | crypto_trading_bot/indicators/dinapoli.py:262-277 | COP is the last bar's midpoint, and on a bar with low at most high, low <= COP <= high <= XOP |
| DinapoliIndicators.AsList | crypto_trading_bot/indicators/dinapoli.py:124-145 | exactly twenty entries, named in the fixed order |
| DinapoliIndicators.IndicatorsForData | crypto_trading_bot/indicators/dinapoli.py:97-145 | for a non-empty frame the last SMA 14 and SMA 50, OP/XOP/COP, the 50-bar levels and the last OBV entry; none for an empty frame |
| ExtendedIndicators.TimeframeName | crypto_trading_bot/analytics/calculate_extended_indicators.py:24-44 | interval_name first, then name, then code, as stored; else the text of a two-item tuple's second item; none only for an object with none of these |
| ExtendedIndicators.TimeframeNameAgrees | crypto_trading_bot/analytics/calculate_extended_indicators.py:34-42 | a Timeframe record and the (id, name) tuple it was built from give the same name |
| ExtendedIndicators.TimeframeId | crypto_trading_bot/analytics/calculate_extended_indicators.py:157-159 | the id attribute unless it is None, else a tuple's first item; an empty tuple raises IndexError |
| ExtendedIndicators.TasksForLength | crypto_trading_bot/analytics/calculate_extended_indicators.py:155-163 | each instrument gets one task per timeframe with an id |
| ExtendedIndicators.TasksCount | crypto_trading_bot/analytics/calculate_extended_indicators.py:152-165 | the task count is the instrument count times the number of timeframes with an id |
| ExtendedIndicators.TasksForCover | crypto_trading_bot/analytics/calculate_extended_indicators.py:155-163 | a task of one instrument comes from a timeframe with an id, and each such timeframe gives one |
| ExtendedIndicators.TasksCover | crypto_trading_bot/analytics/calculate_extended_indicators.py:152-163 | a task is listed iff it pairs a listed instrument with a timeframe that has an id |
| ExtendedIndicators.InstrumentTasks | crypto_trading_bot/analytics/calculate_extended_indicators.py:155-163 | the inner loop gives the instrument's tasks, or fails exactly when a timeframe is an empty tuple |
| ExtendedIndicators.BuildTasks | crypto_trading_bot/analytics/calculate_extended_indicators.py:152-163 | the loops give all tasks, or fail exactly when there is an instrument and an empty-tuple timeframe |
| ExtendedIndicators.ChunkCount | crypto_trading_bot/analytics/calculate_extended_indicators.py:82-86 | the chunk count is the ceiling of total over CHUNK_SIZE and the last chunk ends at the last row |
| ExtendedIndicators.ChunksOverlap | crypto_trading_bot/analytics/calculate_extended_indicators.py:84-96 | no chunk is empty, each starts at or before its own share, and consecutive chunks leave no gap and overlap by at most 500 rows |
| ExtendedIndicators.ChunksCover | crypto_trading_bot/analytics/calculate_extended_indicators.py:84-96 | every row lies in the chunk of its own share |
| ExtendedIndicators.TaskOutcome | crypto_trading_bot/analytics/calculate_extended_indicators.py:47-125 | no rows gives success with 0 saved; up to CHUNK_SIZE rows one call; more rows the sum over the chunks; any raise gives failure with 0 saved; the symbol and name are echoed |
| ExtendedIndicators.ChunkingAgreesWhenSmall | crypto_trading_bot/analytics/calculate_extended_indicators.py:74-116 | a frame that fits in one chunk gives the same result chunked or whole |
| ExtendedIndicators.ProcessChunks | crypto_trading_bot/analytics/calculate_extended_indicators.py:81-112 | the chunk loop sums what each chunk saves and stops at the first raise |
| ExtendedIndicators.MissingChunkStays | crypto_trading_bot/analytics/calculate_extended_indicators.py:84-100 | once a chunk raises, every longer run of chunks raises |
| ExtendedIndicators.ProcessSingleTask | crypto_trading_bot/analytics/calculate_extended_indicators.py:57-125 | reads the task's candles and returns the outcome for that many rows |
| ExtendedIndicators.MaxWorkers | crypto_trading_bot/analytics/calculate_extended_indicators.py:140-143 | the given worker count, else the CPU count (4 when unknown or 0) capped at 8 |
| ExtendedIndicators.Succeeded | crypto_trading_bot/analytics/calculate_extended_indicators.py:181-194 | the successes among the first n tasks are at most n |
| ExtendedIndicators.RunTasks | crypto_trading_bot/analytics/calculate_extended_indicators.py:169-204 | every task counts once, as completed or failed, and completed is the number that succeed |
| ExtendedIndicators.TimeframeRecords | crypto_trading_bot/analytics/calculate_extended_indicators.py:149 | one Timeframe record per listed timeframe |
| ExtendedIndicators.CalculateExtendedIndicators | crypto_trading_bot/analytics/calculate_extended_indicators.py:128-211 | the worker count, the tasks of every listed instrument and timeframe, and counters that add up to the task count with completed the successes |
| GuiDataFetcher.GetInstruments | gui/data_fetcher.py:27-35 | one Instrument per (id, symbol) row with that id and symbol, in order; none when the listing fails |
| GuiDataFetcher.Timeframes | gui/data_fetcher.py:46-54 | the converted rows are at most as many as the raw rows |
| GuiDataFetcher.TimeframesKeepsAccepted | gui/data_fetcher.py:46-54 | when every row is a two-item tuple or a record with id and interval_name, each becomes the record at its own position |
| GuiDataFetcher.TimeframesOrigin | gui/data_fetcher.py:47-53 | every record comes from an accepted row |
| GuiDataFetcher.TimeframesIdempotent | gui/data_fetcher.py:52-53 | converting the records again changes nothing |
| GuiDataFetcher.ConvertTimeframes | gui/data_fetcher.py:46-54 | the loop returns exactly the converted accepted rows |
| GuiDataFetcher.AsTuples | gui/data_fetcher.py:44 | the (id, name) pairs handed over are all accepted rows |
| GuiDataFetcher.GetTimeframes | gui/data_fetcher.py:37-54 | each listed (id, name) pair becomes Timeframe(id, name) at the same position |
| GuiDataFetcher.FindInstrumentAt | gui/data_fetcher.py:105-107 | the search returns the id of the first row with the symbol |
| GuiDataFetcher.GetInstrumentId | gui/data_fetcher.py:94-108 | the id of the first instrument with the symbol, None when there is none or the listing failed |
| GuiDataFetcher.TimeframeIdOf | gui/data_fetcher.py:120-124 | an id is found only when the listing succeeds and has a name column |
| GuiDataFetcher.FindTimeframeAt | gui/data_fetcher.py:121-123 | the search returns the id of the first row with the name |
| GuiDataFetcher.GetTimeframeId | gui/data_fetcher.py:110-124 | the loop returns the id of the first timeframe whose interval_name equals the name, else None |
| MainScript.MappedTimeframesKnownToProvider | main.py:20-38 | every provider timeframe the table names is one the data provider accepts |
| MainScript.GetTimeframePeriod | main.py:138-160 | 0.5 years for 1m/3m/5m, 1 for 15m/30m, 1.5 for 1h/2h, default_years for any other name |
| MainScript.FinerTimeframesShorterPeriods | main.py:152-160 | a finer timeframe never gets a longer period, and with the default of 2 years none of the shortened names reaches the default |
| MainScript.ConvertDataframeForDb | main.py:107-135 | None and an empty frame come back unchanged; otherwise a frame with the same index |
| MainScript.ConvertRenames | main.py:124-133 | the labels are the old ones with open/high/low/close/volume capitalised, each renamed label holding the old values |
| MainScript.RenameOneSettled | main.py:124-133 | a renamed label is not renamed again and is no longer lower-case OHLCV |
| MainScript.NoLowerLabels | main.py:133 | no lower-case OHLCV label is left after the rename |
| MainScript.SettledKept | main.py:133 | a label the rename leaves alone and no lower-case label competes for keeps its values |
| MainScript.RenameTwice | main.py:133 | renaming twice is renaming once |
| MainScript.RenamedNonEmpty | main.py:117-133 | a non-empty frame stays non-empty |
| MainScript.ConvertIdempotent | main.py:107-135 | converting twice is converting once |
| MainScript.FrameRows | main.py:236-242 | the rows handed to the exporter are as many as the frame's |
| MainScript.ConvertedRowsHavePrices | main.py:236-242 | after the rename a provider frame's lower-case prices reach the exporter as the capitalised columns it reads |
| MainScript.RecordSupported | main.py:180-183 | a timeframe record with a non-empty name is kept iff the table lists the name |
| MainScript.KeptTimeframes | main.py:179-185 | the kept timeframes are the supported ones, in their order, and no other |
| MainScript.FilterTimeframes | main.py:179-185 | the loop keeps exactly the supported timeframes, in order, each with its name, every name in the table |
| MainScript.FetchFor | main.py:223-234 | in limit mode a successful download holds between 1 and limit candles |
| MainScript.LimitModeIgnoresYears | main.py:226-234 | in limit mode the years play no part |
| MainScript.FetchTask | main.py:223-234 | one task downloads the frame FetchFor describes |
| MainScript.Stored | main.py:236-242 | storing a renamed download keeps every candle already stored |
| MainScript.PreparedTask | main.py:236-242 | while the database is down a task has no ids to store under, and it carries rows exactly when its download is a non-empty frame |
| MainScript.TaskStore | main.py:236-256 | storing a task never loses a candle; a success needs both ids and rows, and a task lacking either is an error that changes nothing |
| MainScript.PreparedTaskStores | main.py:236-256 | storing a prepared task is the exporter's outcome for the renamed non-empty download, and an error with the candles unchanged for a missing or empty one |
| MainScript.ProviderFetchFetches | main.py:223-234 | the provider's own downloads, FetchFor for every task, meet the download requirement of the loading methods |
| MainScript.Tasks | main.py:220-222 | one task per kept timeframe of the instrument |
| MainScript.TasksOutcome | main.py:218-256 | storing tasks in turn succeeds at most once per task and never loses a candle |
| MainScript.UntargetedStoreNothing | main.py:236-256 | tasks without ids store nothing and count no success |
| MainScript.TaskStep | main.py:220-256 | one more task adds one success exactly when its store succeeds, and the table is the one its store leaves |
| MainScript.OutcomeAppend | main.py:218-256 | storing two runs of tasks one after the other adds their successes and ends with the table the second run leaves |
| MainScript.OfflineTasks | main.py:236-242 | while the database is down no task of an instrument has ids |
| MainScript.AllTasks | main.py:218-222 | instruments times kept timeframes tasks, instrument-major |
| MainScript.AllTasksSnoc | main.py:218-222 | the tasks of one more instrument follow those of the instruments before it |
| MainScript.OfflineAllTasks | main.py:218-242 | while the database is down no task of any instrument has ids |
| MainScript.OfflineStoresNothing | main.py:163-256 | while the database is down the whole download stores nothing and counts no success |
| MainScript.InstrumentsStep | main.py:218-256 | one more instrument adds the successes of its own tasks, in order, and adds as many tasks as there are kept timeframes |
| MainScript.StoreTask | main.py:236-256 | the store step's success and candle table are TaskStore of the task prepared from the download |
| MainScript.LoadTask | main.py:221-256 | the success and candle table after one task are TaskStore of the task prepared from the provider's download for that symbol and timeframe |
| MainScript.LoadInstrument | main.py:220-259 | the successes and candle table after one instrument are TasksOutcome of its tasks; successes plus errors equal the kept timeframes; no candle is lost |
| MainScript.KeptNames | main.py:179-185 | the kept names are table keys, one per supported timeframe |
| MainScript.LoadInstruments | main.py:216-256 | the successes and candle table are TasksOutcome of every instrument's tasks in loop order; successes plus errors equal instruments times kept timeframes |
| MainScript.LoadHistoricalData | main.py:163-259 | success_count and the candle table are TasksOutcome of every instrument's tasks in loop order; total_tasks is instruments times kept timeframes and equals success_count plus error_count; no candle is lost |
| MainScript.AddSymbol | main.py:320-331 | ON CONFLICT DO NOTHING: the symbol ends up registered, the table only grows by at most one row, and an existing symbol changes nothing |
| MainScript.AddSymbols | main.py:320-331 | the inserts only add rows and keep the table valid |
| MainScript.RegisteredInLonger | main.py:320-331 | a registered symbol stays registered as the table grows |
| MainScript.AddSymbolsRegisters | main.py:320-331 | after the loop every available symbol has a row |
| MainScript.RestrictedCoversAvailable | main.py:320-345 | with the database up, the chosen instruments are exactly one or more per available symbol and none for any other |
| MainScript.Selection | main.py:288-352 | the table only grows and stays valid; offline: no instruments and nothing changes; a failed or empty market-cap list or nothing on Binance: every database instrument and nothing changes; otherwise every chosen instrument has an available symbol and every available symbol has a chosen instrument |
| MainScript.SelectInstruments | main.py:288-352 | the instruments, table and next id are Selection's for the market-cap list (None when it failed) |
| MainScript.StartApplication | main.py:270-362 | the instruments, table and next id are Selection's for the coins at most ETH/5 among the first 100 (no list when some coin has no symbol), and the timeframes are every listed timeframe record, in the table's order |
| StrategyBuilder.CheckEntrySignal | gui/strategy_builder.py:33-45 | there is never an entry signal |
| StrategyBuilder.CheckExitSignal | gui/strategy_builder.py:47-60 | there is never an exit signal |
| StrategyBuilder.Removed | gui/strategy_builder.py:168-169 | pop(i) for an index in range shifts the later strategies down by one; any other index leaves the list as it was |
| StrategyBuilder.RemovedMultiset | gui/strategy_builder.py:168-169 | popping an index in range removes exactly that strategy and keeps every other |
| StrategyBuilder.RemovedAppended | gui/strategy_builder.py:93-169 | deleting the strategy just appended gives back the list as it was |
| StrategyBuilder.Builder.constructor | gui/strategy_builder.py:68-72 | a new builder holds no strategy |
| StrategyBuilder.Builder.CreateStrategyFromPattern | gui/strategy_builder.py:74-96 | a strategy of the pattern's type, with the pattern and rules, is appended and returned; a pattern without type raises KeyError and nothing is appended |
| StrategyBuilder.Builder.CreateLineBreakoutStrategy | gui/strategy_builder.py:98-124 | appends a strategy entering on a breakout in the given direction and leaving on a price_target with the take-profit and stop-loss fractions |
| StrategyBuilder.Builder.CreateRectangleRangeStrategy | gui/strategy_builder.py:126-150 | appends a strategy entering by the given type and leaving on a range_exit with the take-profit fraction |
| StrategyBuilder.Builder.DeleteStrategy | gui/strategy_builder.py:161-170 | the list afterwards is the old one with the index popped when it is in range, else unchanged |
| TopCoinsFetcher.CoinOf | crypto_trading_bot/trading/top_coins_fetcher.py:64-76 | the coin carries the lower-cased symbol, the volume and the close; price minus change is the open; the percent is 0 when the open is not positive and change/open*100 otherwise |
| TopCoinsFetcher.CoinsData | crypto_trading_bot/trading/top_coins_fetcher.py:61-79 | at most one coin per pair |
| TopCoinsFetcher.CoinsDataFrom | crypto_trading_bot/trading/top_coins_fetcher.py:62-79 | every collected coin has a non-zero volume and the lower-cased name of a pair |
| TopCoinsFetcher.TopCoins | crypto_trading_bot/trading/top_coins_fetcher.py:34-93 | [] when the pair request raised or gave nothing; otherwise at most limit coins |
| TopCoinsFetcher.GetTopCoinsByVolume | crypto_trading_bot/trading/top_coins_fetcher.py:34-93 | the comprehension, the collecting loop, the in-place sort and the slice compute the top coins |
| TopCoinsFetcher.TopCoinsByVolumeDescending | crypto_trading_bot/trading/top_coins_fetcher.py:82-83 | the top coins are ordered by volume, largest first |
| TopCoinsFetcher.TopIsSortedPrefix | crypto_trading_bot/trading/top_coins_fetcher.py:82-83 | the top coins are a prefix of the collected coins sorted by volume |
| TopCoinsFetcher.PrefixLargest | crypto_trading_bot/trading/top_coins_fetcher.py:82-83 | a prefix of a volume-sorted list is drawn from it and no coin left out traded more than one kept |
| TopCoinsFetcher.TopCoinsAreLargest | crypto_trading_bot/trading/top_coins_fetcher.py:56-83 | the top coins come from the collected ones and no collected coin left out traded more than any kept |
| TopCoinsFetcher.TopCoinsFromUsdtPairs | crypto_trading_bot/trading/top_coins_fetcher.py:56-76 | every top coin comes from an online USDT pair, under its lower-cased name, with a non-zero volume |
| TopCoinsFetcher.LowerHasNoUpper | crypto_trading_bot/trading/top_coins_fetcher.py:64 | lower-casing leaves no ASCII capital |
| TopCoinsFetcher.Symbols | crypto_trading_bot/trading/top_coins_fetcher.py:109 | the symbol of each coin, in order |
| TopCoinsFetcher.TopSymbolsLower | crypto_trading_bot/trading/top_coins_fetcher.py:95-109 | at most limit symbols, none with a capital, each the lower-cased name of an online USDT pair |
| TopCoinsFetcher.SymbolRequests | crypto_trading_bot/trading/top_coins_fetcher.py:143-154 | the symbol with each timeframe, in order |
| TopCoinsFetcher.RequestsCount | crypto_trading_bot/trading/top_coins_fetcher.py:140-154 | one request per symbol and timeframe |
| TopCoinsFetcher.RequestsCover | crypto_trading_bot/trading/top_coins_fetcher.py:140-154 | the requests are exactly the pairs of a top symbol and a timeframe |
| TopCoinsFetcher.StoredLoads | crypto_trading_bot/trading/top_coins_fetcher.py:143-154 | the loads that stored, in request order, never more than were requested |
| TopCoinsFetcher.StoredLoadsMembers | crypto_trading_bot/trading/top_coins_fetcher.py:143-154 | a request is among the stored ones exactly when it was requested and its load stored; a load that raised is skipped |
| TopCoinsFetcher.StoredLoadsAppend | crypto_trading_bot/trading/top_coins_fetcher.py:140-154 | the stored loads of two request runs are those of each run, one after the other |
| TopCoinsFetcher.SymbolLoadStep | crypto_trading_bot/trading/top_coins_fetcher.py:143-154 | one more timeframe adds one request, and adds it to the stored ones exactly when its load stored |
| TopCoinsFetcher.RequestSymbol | crypto_trading_bot/trading/top_coins_fetcher.py:143-154 | the inner loop adds one request per timeframe for the symbol, and keeps those whose load stored |
| TopCoinsFetcher.FetchAndStoreTopCoinsData | crypto_trading_bot/trading/top_coins_fetcher.py:111-160 | the loads requested, in order (each top symbol with each timeframe, by default 1day/4hour/1hour/15min, none when there are no top coins), and the stored ones are exactly the requested loads that did not raise |
| TopCoinsFetcher.AsWrittenStoresNothing | crypto_trading_bot/trading/top_coins_fetcher.py:146-154 | with the call as written, which raises `AttributeError` every time, no load stores anything |
| TopCoinsFetcher.StoredCoversTopCoins | crypto_trading_bot/trading/top_coins_fetcher.py:140-154 | with a loader that exists, the stored history is that of exactly the top symbols and timeframes whose load succeeded |
| TopCoinsFetcher.DbSymbols | crypto_trading_bot/trading/top_coins_fetcher.py:175-176 | the lower-cased symbol of every listed instrument is in the set |
| TopCoinsFetcher.NewSymbolsExactly | crypto_trading_bot/trading/top_coins_fetcher.py:179-184 | the new symbols are the top symbols the set lacks, all of them, in order |
| TopCoinsFetcher.CollectNewSymbols | crypto_trading_bot/trading/top_coins_fetcher.py:179-184 | the loop collects exactly the new symbols |
| TopCoinsFetcher.DbSymbolsAsWritten | crypto_trading_bot/trading/top_coins_fetcher.py:175-176 | reading .symbol from the (id, symbol) tuples raises as soon as there is a row |
| TopCoinsFetcher.AsWrittenRaisesOnAnyInstrument | crypto_trading_bot/trading/top_coins_fetcher.py:175-176 | one stored instrument makes the as-written set raise though its symbol is known |
| TopCoinsFetcher.UpdateTopCoinsListAsWritten | crypto_trading_bot/trading/top_coins_fetcher.py:162-196 | as written the update re-raises whenever the database lists an instrument, and otherwise treats every top symbol as new |
| TopCoinsFetcher.UpdateTopCoinsList | crypto_trading_bot/trading/top_coins_fetcher.py:162-196 | with the symbol read from the tuple, the new symbols are the top symbols no stored instrument has in lower case |
| YahooDataLoader.ConvertSymbolToYahoo | crypto_trading_bot/trading/yahoo_data_loader.py:53-73 | the fixed ticker when listed, a symbol not ending in USDT unchanged |
| YahooDataLoader.UsdtPairTicker | crypto_trading_bot/trading/yahoo_data_loader.py:39-73 | every USDT pair, listed or not, becomes BASE-USD |
| YahooDataLoader.ConvertSymbolInjective | crypto_trading_bot/trading/yahoo_data_loader.py:53-73 | two USDT pairs never share a ticker, and another symbol matches a pair's ticker only by already being it |
| YahooDataLoader.YahooInterval | crypto_trading_bot/trading/yahoo_data_loader.py:26-36 | the table's interval for a listed timeframe, 1d for any other |
| YahooDataLoader.EffectivePeriod | crypto_trading_bot/trading/yahoo_data_loader.py:100-106 | an explicit period passes through; max becomes a bounded period exactly for minute intervals and 1h |
| YahooDataLoader.MaxPeriodByTimeframe | crypto_trading_bot/trading/yahoo_data_loader.py:26-106 | a max request asks 7d for 1min/5min/15min/30min, 730d for 1hour, and max for every other timeframe |
| YahooDataLoader.Fetched | crypto_trading_bot/trading/yahoo_data_loader.py:109-120 | a frame is returned only when it is non-empty |
| YahooDataLoader.LoadHistoricalData | crypto_trading_bot/trading/yahoo_data_loader.py:75-120 | the rows Yahoo gives for the translated ticker, capped period and interval; None for a raised request or an empty frame |
| YahooDataLoader.SaveDataToDb | crypto_trading_bot/trading/yahoo_data_loader.py:122-148 | the answer and the candle table are those of insert_price_data on the frame |
| YahooDataLoader.InstrumentEnsured | crypto_trading_bot/trading/yahoo_data_loader.py:150-186 | true iff the database is up; the symbol then matches a stored one up to case; a match inserts nothing, otherwise at most one row is appended |
| YahooDataLoader.EnsureIdempotent | crypto_trading_bot/trading/yahoo_data_loader.py:150-186 | ensuring twice changes nothing beyond the first call |
| YahooDataLoader.InstrumentEnsuredAsWritten | crypto_trading_bot/trading/yahoo_data_loader.py:162-166 | as written, reading .symbol from a tuple row raises, so with any stored row the answer is false and nothing is inserted |
| YahooDataLoader.AsWrittenNeverRegisters | crypto_trading_bot/trading/yahoo_data_loader.py:162-186 | with BTCUSDT stored, the as-written call neither finds nor adds ETHUSDT and its candles cannot be saved, while the corrected call adds it |
| YahooDataLoader.EnsureInstrumentExists | crypto_trading_bot/trading/yahoo_data_loader.py:150-186 | the loop returns true on the first case-insensitive match, otherwise inserts, as InstrumentEnsured states |
| YahooDataLoader.KeepsCandles | crypto_trading_bot/trading/yahoo_data_loader.py:211-217 | every stored candle is still there, unchanged |
| YahooDataLoader.ReportedStep | crypto_trading_bot/trading/yahoo_data_loader.py:209-227 | one more timeframe's entry, true only with data and the database up, keeps the promise of the results map |
| YahooDataLoader.TimeframeOutcome | crypto_trading_bot/trading/yahoo_data_loader.py:211-217 | the entry is true only with a non-empty frame and the database up; without data it is false and nothing is stored; stored candles are kept |
| YahooDataLoader.TimeframesOutcome | crypto_trading_bot/trading/yahoo_data_loader.py:207-227 | an entry for exactly the requested timeframes, true only where data came back, all false with the database down; stored candles are kept |
| YahooDataLoader.SymbolOutcome | crypto_trading_bot/trading/yahoo_data_loader.py:188-230 | registering comes first and only appends to the instrument table; with the database up the symbol is then listed; the entries are as TimeframesOutcome states |
| YahooDataLoader.FoundInExtension | crypto_trading_bot/trading/yahoo_data_loader.py:160-166 | a symbol found among the instruments is still found once rows are appended |
| YahooDataLoader.TopCoinsOutcome | crypto_trading_bot/trading/yahoo_data_loader.py:232-256 | an entry for exactly the input symbols, each with that symbol's promised results; the instrument table is only appended to, and with the database up every symbol ends up registered |
| YahooDataLoader.LoadTimeframe | crypto_trading_bot/trading/yahoo_data_loader.py:211-227 | the entry and the candle table are TimeframeOutcome's on the tables before the call |
| YahooDataLoader.LoadTimeframes | crypto_trading_bot/trading/yahoo_data_loader.py:207-227 | the loop leaves the entries and the candle table TimeframesOutcome gives for the timeframes in order |
| YahooDataLoader.LoadAllDataForSymbol | crypto_trading_bot/trading/yahoo_data_loader.py:188-230 | the results, the instrument table, its counter and the candle table are SymbolOutcome's: InstrumentEnsured followed by the timeframes in order (by default 1day/4hour/1hour/15min) |
| YahooDataLoader.LoadDataForTopCoins | crypto_trading_bot/trading/yahoo_data_loader.py:232-256 | the results, the instrument table, its counter and the candle table are TopCoinsOutcome's, symbol by symbol; one entry per input symbol |
| Sorting.OrderByTime | crypto_trading_bot/database/data_import.py:117 | ORDER BY candle_time lists every stored entry once, by ascending time |
| Sorting.OrderedEntries | crypto_trading_bot/database/data_import.py:117 | the listing of a non-empty set starts with an earliest entry and lists the rest after it |
| Sorting.ListingHeadEarliest | crypto_trading_bot/database/data_import.py:117 | the first row of an ascending listing is an earliest entry |
| Sorting.ListingTail | crypto_trading_bot/database/data_import.py:117 | without its first row an ascending listing lists the other entries |
| Sorting.ListingIsOrdered | crypto_trading_bot/database/data_import.py:117 | entries with distinct times have exactly one listing by ascending time |
| Frames.RenameOhlcv | main.py:124-133 | the rename keeps the index, capitalises the lower-case OHLCV labels, moves their values along and keeps the frame well formed |

## Left out

*Concurrency and time*

- **Background updating:** `start_background_update`, its `update_loop` and `stop_background_update` (crypto_trading_bot/trading/data_updater.py:416-486). These are a thread, a stop flag and sleeps; a pass is modelled as one sequential call, and the time between passes is not modelled. Within a pass, each pair takes three readings of the clock parameter: one for its due check, one shared by all the reads inside `load_missing_candles`, and one for its recorded update time.
- DataUpdater.Updater.LoadMissingCandles: the cache's age (crypto_trading_bot/trading/data_updater.py:131), the cache's refresh time (:133) and the end of the fetch window (:95) share one reading `now`. The code reads the clock for each of them, so a refresh can be stamped a little later than the age it checked, and the window can end a little later still.
- MainScript.LoadTask: every task of a run fetches up to the same `now`. `get_historical_data` reads `datetime.now()` afresh on each call (crypto_trading_bot/trading/crypto_data_provider.py:646-647), so a later task's window may end later.
- MainScript.LoadInstrument: its tasks share the one `now` of the run, as for MainScript.LoadTask.
- MainScript.LoadInstruments: all instruments' tasks share the one `now` of the run, as for MainScript.LoadTask.
- MainScript.LoadHistoricalData: all tasks share the one `now` of the run, as for MainScript.LoadTask.
- **Process pool:** the `ProcessPoolExecutor` of crypto_trading_bot/analytics/calculate_extended_indicators.py:172-204 runs the tasks one after another here.
  - A `future.result()` that raises outside the task itself is not modelled. Such a failure would also count as failed.
- ExtendedIndicators.MaxWorkers: a given worker count of 0 or below is passed through as it is; `ProcessPoolExecutor` (crypto_trading_bot/analytics/calculate_extended_indicators.py:172) raises `ValueError` on it, and that raise is not modelled.
- **Sleeps and logging:** every `time.sleep`, log line and tqdm progress bar.
- **Timezones:** left out throughout.
  - `convert_timezone` (gui/chart_data_converter.py:80-114) is not modelled.
  - The time-zone alignment before the newer-rows filter (crypto_trading_bot/trading/data_updater.py:232-244) is not modelled either: all times are one UTC timeline.
- MainScript.LoadHistoricalData: the downloads are a ghost `fetch` parameter that the requires clause pins to `FetchFor` for every mapped timeframe (ProviderFetch is such a function). The same holds for MainScript.LoadInstruments, MainScript.LoadInstrument and MainScript.LoadTask. An exception inside the task's `try` other than a failed download or a failed store (main.py:254-256) is not modelled.
- **Date-only windows:** the yfinance request window is passed as exact times. The model does not truncate them to dates with `strftime('%Y-%m-%d')` (crypto_trading_bot/trading/crypto_data_provider.py:381-382).

*Network and external code*

- **Replies are parameters:** every HTTP, CCXT, Binance, Huobi, CoinGecko and yfinance request is a parameter or a reply.
- **Binance history paging:** `get_data_via_binance_api` (crypto_trading_bot/trading/crypto_data_provider.py:243-342) is one reply for the whole window. Its own paging of klines is not modelled; the CCXT and Huobi paging loops are.
- **Indicator service internals:** crypto_trading_bot/analytics/indicators_ext/service.py is not part of this model. The service is a parameter that saves a count or raises.
- **Per-pair DMA conversion:** in the batch DMA run, converting a pair's candles and running the DMA combinations is a parameter. Both are modelled in their own modules.
- TopCoinsFetcher.FetchAndStoreTopCoinsData: the one-year window (`days_back=365`, crypto_trading_bot/trading/top_coins_fetcher.py:149) is not modelled. The `load` parameter stands for the whole per-pair load, which as written does not exist (see Findings).
- **Import error:** crypto_trading_bot/trading/top_coins_fetcher.py:11 imports `DataExport`, but crypto_trading_bot/database/data_export.py defines `DataExporter`. The model treats the fetcher as constructible.

*Database*

- **Transactions:** every statement is visible at once.
  - The aborted-transaction behaviour after a failed query is modelled only for the timeframe lookup chain (see Findings).
  - PostgreSQL sequence gaps after `ON CONFLICT DO NOTHING` are not modelled: new ids are consecutive.
- **Volume rounding:** `round(volume, 2)` in the list-of-dicts insert (crypto_trading_bot/database/data_export.py:193) is not applied; the volume is stored as given.
- DbSchema.NewTimeframeRow: only a column named `id` gets the serial value. A timeframes table without an `id` column takes its first column as the id column (crypto_trading_bot/analytics/db_schema.py:257-263); the model stores NULL there, where `RETURNING` would give whatever default the database fills in. Installations with such a table are not modelled beyond that.
- **Trades column:** the `trades` column the provider adds is not kept: the candle store holds OHLCV only.
- **Log-only counters:** `added_count` (main.py:319-336) and the DMA `saved_count` only feed log lines.
- **Indicator tables:** the operations that read or write the indicator tables are not modelled:
  - `export_symbols_to_db`, `update_last_indicator_timestamp` and `save_indicator` in crypto_trading_bot/database/data_export.py;
  - `get_indicator_types`, `get_last_indicator_timestamp`, `get_indicator_data` and `get_combined_data` in crypto_trading_bot/database/data_import.py;
  - the forwarding `get_price_data`, `get_indicator_types` and `get_indicator_data` of gui/data_fetcher.py.

*Indicators*

- **Float indicators:** EMA, RSI, AMA, MACD, the stochastic, CCI, ATR and Williams %R (crypto_trading_bot/indicators/dinapoli.py:169-354) depend on floating-point rounding. They are not modelled. SMA, OBV, OP/XOP/COP and the Fibonacci levels are modelled over exact reals.
- DinapoliIndicators.FibonacciLevels: an empty frame gives None here. pandas gives NaN for the levels and the extremes, which the model over exact reals does not represent.
- DinapoliIndicators.IndicatorsForData: states the SMA, OP/XOP/COP, Fibonacci and OBV entries only. The float indicators above are unspecified values at their places in the list.
- **Indicator pipeline:** `convert_to_dataframe`, `calculate_and_save_indicators` and `run` of crypto_trading_bot/indicators/dinapoli.py load, loop and save through the indicator table, which is not modelled.

*Text and ordering*

- Text.ParseInt: only ASCII digits are read, and only the ASCII whitespace characters and U+001C to U+001F are skipped around a number. Python's `int()` also reads every other Unicode decimal digit and skips every other Unicode space. So DbSchema.TimeframeToSeconds, DbSchema.Database.EnsureTimeframe, DinapoliDma.EnsureKeys, DinapoliDma.CalculateDmaFromDataframe and DinapoliDma.GetDmaFromDb fail here on a timeframe name whose count uses such characters, where the code goes on.
- Text.Lower and Text.Upper: case mapping is ASCII-only. Python's `str.lower`/`str.upper` map every Unicode letter and can change the length (`"ß".upper() == "SS"`). This weakens DataExport.FindInstrumentCaseless, YahooDataLoader.InstrumentEnsured, CoinGeckoFetcher.BinanceSymbolsAppend and TopCoinsFetcher.CoinOf for symbols with non-ASCII letters.
- Sorting.SortBy: a stable sort. pandas `sort_index` (gui/chart_data_converter.py:76) defaults to quicksort, which is not stable, so rows with equal timestamps may come out in another order there than in the model.
- ChartDataProcessor.PrepareChartData: when the averages cannot be computed (too short a history, or a timeframe that cannot be ensured) the contract does not say what the metric store holds; the averaging step may have written some averages before it failed. When there is a history, the instrument and timeframe tables and their counters after the averaging step are stated only to stay valid: that step may register the pair's instrument or timeframe.

*Wrappers and console code*

- **DMA wrappers:** `fetch_price_data`, `calculate_and_save_dma`, `calculate_all_dma_combinations` and `run` (crypto_trading_bot/analytics/dinapoli_dma.py:78-118, 229-259, 354-402) load candles and call the modelled `calculate_dma_from_dataframe` / `calculate_all_dma_from_dataframe`.
- **Huobi console code:** `display_data` and `fetch_and_store_data_with_progress` (crypto_trading_bot/trading/data_fetcher_historical.py:98-180) are console output and a progress bar around the modelled fetch and insert.
- **Trivial forwarders:** `get_coins_with_market_cap` (crypto_trading_bot/trading/coin_gecko_fetcher.py:169-180) only forwards to `get_coins_below_eth_cap_ratio`, which `CoinGeckoFetcher.CoinsBelowEthCapRatio` models. `get_strategies` (gui/strategy_builder.py:152-159) returns the `strategies` field, which the model reads directly.
- **main.py console output:** `print_instruments`, `print_timeframes`, `print_summary` and the GUI start (main.py:41-104, 368-378).
- ExtendedIndicators.TimeframeName: `str()` of an object without a name attribute is `None`. The model does not spell Python's text for arbitrary objects.

## Findings

Nothing was executed; each row rests on the cited code and on the lemma named.

| source | as written | input that shows it | evidently intended | confidence | as-written member | corrected member |
|---|---|---|---|---|---|---|
| gui/chart_data_converter.py:40-46 | a number above 1e12 is read as microseconds and one above 1e10 as milliseconds | a present-day millisecond timestamp, 1.7e12 (November 2023), becomes 1.7e6 seconds, i.e. January 1970 | each unit keeps its own band: above 1e14 microseconds, above 1e11 milliseconds, else seconds, so one instant reads the same in all three units | high, not executed | ChartDataConverter.MillisecondsReadAsMicroseconds | ChartDataConverter.NumericSecondsUnitsAgree |
| gui/chart_data_converter.py:54-69 | a row whose timestamp fails is skipped from `timestamps` but still contributes its prices to the price columns, built from every row | one good row plus one row with an unparsable string timestamp: the columns have lengths 1 and 2, and the frame constructor raises | a failed row is dropped from every column, so the good rows are kept | high, not executed | ChartDataConverter.PartialTimestampFailure | ChartDataConverter.ProcessPriceData |
| crypto_trading_bot/database/data_export.py:74-81 | each timeframe query that fails is skipped with `continue`, but `fetch_one` (crypto_trading_bot/database/db_connection.py:118-125) re-raises without a rollback, so PostgreSQL aborts the transaction and every later query fails too | a timeframes table without `code` and `api_value` columns holding "1h" under `interval_name`: no id is found | the first query that matches gives the id, whatever failed before it | medium, not executed | DataExport.AbortedTransactionHidesTimeframe | DataExport.FirstTimeframeHit |
| crypto_trading_bot/trading/top_coins_fetcher.py:146-150 | each load calls `historical_fetcher.fetch_and_store_symbol_data`, which neither `HuobiHistoricalData` (crypto_trading_bot/trading/data_fetcher_historical.py:13-268) nor its base `HuobiConnector` (crypto_trading_bot/trading/exchange_connection.py:12-66) defines; the `AttributeError` is logged and skipped at :152-154 | any run with one top coin: four loads are requested and none stores anything | each top symbol's history is fetched and stored per timeframe | high, not executed | TopCoinsFetcher.AsWrittenStoresNothing | TopCoinsFetcher.StoredCoversTopCoins |
| crypto_trading_bot/trading/top_coins_fetcher.py:175-176 | `inst.symbol` is read from the plain `(id, symbol)` tuples `get_instruments` returns, which raises `AttributeError` | one stored instrument (1, "BTCUSDT"): `update_top_coins_list` re-raises | the symbol is read from the tuple's second field and lower-cased | high, not executed | TopCoinsFetcher.AsWrittenRaisesOnAnyInstrument | TopCoinsFetcher.UpdateTopCoinsList |
| crypto_trading_bot/trading/yahoo_data_loader.py:163-164 | the same `inst.symbol` on `(id, symbol)` tuples raises on the first row, and the handler answers false before any insert | BTCUSDT stored, ETHUSDT requested: ETHUSDT is neither found nor added, so its candles cannot be saved | a case-insensitive match on the tuple's second field, else the insert | high, not executed | YahooDataLoader.AsWrittenNeverRegisters | YahooDataLoader.InstrumentEnsured |
