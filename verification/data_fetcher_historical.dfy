/**
 * Huobi candle history and instrument lists
 * (crypto_trading_bot/trading/data_fetcher_historical.py,
 * `HuobiHistoricalData`): the batched `market/history/kline` requests that
 * walk back through a symbol's history, the USDT pairs built from the
 * currency list, and the 24-hour volume filter. Every reply of the exchange
 * is a parameter: a function from the request to what it returned.
 */
module HuobiHistoricalData {
  import opened Wrappers
  import opened Models
  import opened Text
  import DataExport
  import Lists

  /** The `size` of every kline request, and the batch length below which the history has ended. */
  const BatchSize: int := 2000

  /** The default `max_batches`. */
  const DefaultMaxBatches: int := 10

  /** The default `min_volume` of `get_filtered_instruments`. */
  const DefaultMinVolume: real := 1000000.0

  // ---------------------------------------------------------------- kline batches

  /** One kline request: symbol, period, size, and the `to` parameter when one is sent. */
  datatype KlineRequest = KlineRequest(symbol: string, period: string, size: int, to: Option<Time>)

  /**
   * The reply to a kline request: the request raised (`_get` re-raises every
   * error), it decoded to a falsy value, or it is an object whose missing
   * `status` reads as "" and missing `data` as [].
   */
  datatype KlineReply = KlineRaised | KlineFalsy | KlineReply(status: string, data: seq<DataExport.Tick>)

  /** `if current_end:` — the `to` parameter is sent only for a present, non-zero candle id. */
  function ToParam(end: Option<Time>): (r: Option<Time>)
    ensures r.Some? <==> end.Some? && end.value != 0.0
    ensures r.Some? ==> r == end
  {
    if end.Some? && end.value != 0.0 then end else None
  }

  /** The candles an accepted reply contributes: its data when the status is `ok`, else none. */
  function Kept(reply: KlineReply): seq<DataExport.Tick> {
    if reply.KlineReply? && reply.status == "ok" then reply.data else []
  }

  /** A reply that makes the call raise: the request itself, or a last candle without `id`. */
  predicate Raises(reply: KlineReply) {
    reply.KlineRaised? ||
    (reply.KlineReply? && reply.status == "ok" && reply.data != [] && reply.data[|reply.data| - 1].id.None?)
  }

  /** A reply after which the loop asks for the next batch: accepted, full, and ending in a candle with an id. */
  predicate Continues(reply: KlineReply) {
    reply.KlineReply? && reply.status == "ok" && |reply.data| >= BatchSize && reply.data[|reply.data| - 1].id.Some?
  }

  /** The id of the last candle of a batch that continues. */
  function LastId(reply: KlineReply): Option<Time>
    requires Continues(reply)
  {
    reply.data[|reply.data| - 1].id
  }

  /** What one reply tells the loop: the call raises, the loop stops after keeping `data`, or it goes on from `lastId`. */
  datatype Step = Raise | Stop(data: seq<DataExport.Tick>) | Go(data: seq<DataExport.Tick>, lastId: Time)

  /**
   * The checks of one loop turn, in the order the loop makes them: a
   * raised request, a falsy or refused reply, an empty batch, a last candle
   * without `id`, a batch shorter than the request size.
   */
  function ReadBatch(reply: KlineReply): (s: Step)
    ensures s.Raise? <==> Raises(reply)
    ensures s.Stop? ==> !Continues(reply) && s.data == Kept(reply)
    ensures s.Go? ==> Continues(reply) && s.data == reply.data && Some(s.lastId) == LastId(reply)
  {
    if reply.KlineRaised? then Raise
    else if reply.KlineFalsy? || reply.status != "ok" then Stop([])
    else if reply.data == [] then Stop([])
    else if reply.data[|reply.data| - 1].id.None? then Raise
    else if |reply.data| < BatchSize then Stop(reply.data)
    else Go(reply.data, reply.data[|reply.data| - 1].id.value)
  }

  /** The requests a run sends and what it collects: the candles, or the error that ended it. */
  datatype Fetch = Fetch(sent: seq<KlineRequest>, data: Result<seq<DataExport.Tick>>)

  /**
   * The batch loop with `left` batches to go and `end` as the last candle
   * id seen: one request, then stop or go on as its reply says.
   */
  function FetchFrom(symbol: string, period: string, api: KlineRequest -> KlineReply,
                     end: Option<Time>, left: nat): (r: Fetch)
    ensures |r.sent| <= left
    ensures left > 0 <==> r.sent != []
    ensures left > 0 ==> r.sent[0] == KlineRequest(symbol, period, BatchSize, ToParam(end))
    decreases left
  {
    if left == 0 then Fetch([], Ok([]))
    else
      var request := KlineRequest(symbol, period, BatchSize, ToParam(end));
      match ReadBatch(api(request))
      case Raise => Fetch([request], Err("request failed"))
      case Stop(data) => Fetch([request], Ok(data))
      case Go(data, lastId) =>
        var rest := FetchFrom(symbol, period, api, Some(lastId), left - 1);
        Fetch([request] + rest.sent, if rest.data.Ok? then Ok(data + rest.data.value) else rest.data)
  }

  /** The candles of the replies to `sent`, in the order they were requested. */
  function KeptAll(api: KlineRequest -> KlineReply, sent: seq<KlineRequest>): seq<DataExport.Tick>
    decreases |sent|
  {
    if sent == [] then [] else Kept(api(sent[0])) + KeptAll(api, sent[1..])
  }

  /** A request answered with a full batch, followed by the request that carries that batch's last id as `to`. */
  predicate Linked(api: KlineRequest -> KlineReply, a: KlineRequest, b: KlineRequest) {
    Continues(api(a)) && b.to == ToParam(LastId(api(a)))
  }

  /** Every request but the last got a full batch, and the next one carries that batch's last id. */
  predicate Chained(api: KlineRequest -> KlineReply, sent: seq<KlineRequest>) {
    forall i :: 0 <= i < |sent| - 1 ==> Linked(api, sent[i], sent[i + 1])
  }

  /** The requests of a run form a chain. */
  lemma {:induction false} FetchChained(symbol: string, period: string, api: KlineRequest -> KlineReply,
                                        end: Option<Time>, left: nat)
    ensures Chained(api, FetchFrom(symbol, period, api, end, left).sent)
    decreases left
  {
    if left > 0 {
      var reply := api(KlineRequest(symbol, period, BatchSize, ToParam(end)));
      if ReadBatch(reply).Go? {
        var r := FetchFrom(symbol, period, api, end, left);
        var rest := FetchFrom(symbol, period, api, LastId(reply), left - 1);
        FetchChained(symbol, period, api, LastId(reply), left - 1);
        assert r.sent == [KlineRequest(symbol, period, BatchSize, ToParam(end))] + rest.sent;
        forall i | 0 <= i < |r.sent| - 1
          ensures Linked(api, r.sent[i], r.sent[i + 1])
        {
          if i > 0 {
            assert Linked(api, rest.sent[i - 1], rest.sent[i]);
          }
        }
      }
    }
  }

  /**
   * The run ends before its budget only on a reply that does not continue,
   * and it raises exactly when its last reply raises.
   */
  lemma {:induction false} FetchStops(symbol: string, period: string, api: KlineRequest -> KlineReply,
                                      end: Option<Time>, left: nat)
    ensures var r := FetchFrom(symbol, period, api, end, left);
      (0 < |r.sent| < left ==> !Continues(api(r.sent[|r.sent| - 1]))) &&
      (r.data.Err? <==> r.sent != [] && Raises(api(r.sent[|r.sent| - 1])))
    decreases left
  {
    if left > 0 {
      var reply := api(KlineRequest(symbol, period, BatchSize, ToParam(end)));
      if ReadBatch(reply).Go? {
        var r := FetchFrom(symbol, period, api, end, left);
        var rest := FetchFrom(symbol, period, api, LastId(reply), left - 1);
        FetchStops(symbol, period, api, LastId(reply), left - 1);
        if rest.sent != [] {
          assert r.sent[|r.sent| - 1] == rest.sent[|rest.sent| - 1];
        }
      }
    }
  }

  /** What a run that does not raise collects is the accepted batches, in fetch order. */
  lemma {:induction false} FetchCollects(symbol: string, period: string, api: KlineRequest -> KlineReply,
                                         end: Option<Time>, left: nat)
    ensures var r := FetchFrom(symbol, period, api, end, left);
      r.data.Ok? ==> r.data.value == KeptAll(api, r.sent)
    decreases left
  {
    if left > 0 {
      var reply := api(KlineRequest(symbol, period, BatchSize, ToParam(end)));
      var r := FetchFrom(symbol, period, api, end, left);
      if !ReadBatch(reply).Go? {
        assert KeptAll(api, r.sent) == Kept(reply) + KeptAll(api, []);
      } else {
        var rest := FetchFrom(symbol, period, api, LastId(reply), left - 1);
        FetchCollects(symbol, period, api, LastId(reply), left - 1);
        assert r.sent[1..] == rest.sent;
      }
    }
  }

  /** `range(max_batches)`: a negative count runs no batch. */
  function BatchBudget(maxBatches: int): (n: nat)
    ensures maxBatches >= 0 ==> n == maxBatches
    ensures maxBatches < 0 ==> n == 0
  {
    if maxBatches < 0 then 0 else maxBatches
  }

  /**
   * The batch loop as it runs, with the candles `collected` so far: a
   * raised reply discards everything, a stopping reply adds its candles
   * and ends, a full batch adds its candles and goes on from its last id.
   */
  function RunFrom(symbol: string, period: string, api: KlineRequest -> KlineReply,
                   collected: seq<DataExport.Tick>, end: Option<Time>, left: nat): seq<DataExport.Tick>
    decreases left
  {
    if left == 0 then collected
    else
      match ReadBatch(api(KlineRequest(symbol, period, BatchSize, ToParam(end))))
      case Raise => []
      case Stop(data) => collected + data
      case Go(data, lastId) => RunFrom(symbol, period, api, collected + data, Some(lastId), left - 1)
  }

  /** The loop from any point returns what was collected before it followed by what the rest of the run collects. */
  lemma {:induction false} RunFromFetch(symbol: string, period: string, api: KlineRequest -> KlineReply,
                                        collected: seq<DataExport.Tick>, end: Option<Time>, left: nat)
    ensures var f := FetchFrom(symbol, period, api, end, left).data;
      RunFrom(symbol, period, api, collected, end, left) == if f.Ok? then collected + f.value else []
    decreases left
  {
    if left == 0 {
      assert collected + [] == collected;
    } else {
      match ReadBatch(api(KlineRequest(symbol, period, BatchSize, ToParam(end))))
      case Raise =>
      case Stop(data) =>
      case Go(data, lastId) =>
        RunFromFetch(symbol, period, api, collected + data, Some(lastId), left - 1);
        var f := FetchFrom(symbol, period, api, Some(lastId), left - 1).data;
        if f.Ok? {
          assert (collected + data) + f.value == collected + (data + f.value);
        }
    }
  }

  /** `get_historical_data`: the batch loop from nothing collected and no `to`. */
  function HistoricalData(symbol: string, period: string, maxBatches: int, api: KlineRequest -> KlineReply)
    : (r: seq<DataExport.Tick>)
  {
    RunFrom(symbol, period, api, [], None, BatchBudget(maxBatches))
  }

  /**
   * The call returns the accepted batches in fetch order, or [] when some
   * request raised, and it sends at most `max_batches` requests.
   */
  lemma HistoricalDataIsBatches(symbol: string, period: string, maxBatches: int, api: KlineRequest -> KlineReply)
    ensures var f := FetchFrom(symbol, period, api, None, BatchBudget(maxBatches));
      |f.sent| <= BatchBudget(maxBatches) &&
      HistoricalData(symbol, period, maxBatches, api) ==
        if f.sent != [] && Raises(api(f.sent[|f.sent| - 1])) then [] else KeptAll(api, f.sent)
  {
    var f := FetchFrom(symbol, period, api, None, BatchBudget(maxBatches));
    RunFromFetch(symbol, period, api, [], None, BatchBudget(maxBatches));
    FetchStops(symbol, period, api, None, BatchBudget(maxBatches));
    FetchCollects(symbol, period, api, None, BatchBudget(maxBatches));
    if f.data.Ok? {
      assert [] + f.data.value == f.data.value;
    }
  }

  /** The batch loop of `get_historical_data`, with `current_end` advanced after every batch. */
  method GetHistoricalData(symbol: string, period: string, maxBatches: int, api: KlineRequest -> KlineReply)
    returns (allData: seq<DataExport.Tick>)
    ensures allData == HistoricalData(symbol, period, maxBatches, api)
  {
    var n := BatchBudget(maxBatches);
    allData := [];
    var currentEnd: Option<Time> := None;
    for batch := 0 to n
      invariant RunFrom(symbol, period, api, allData, currentEnd, n - batch) == HistoricalData(symbol, period, maxBatches, api)
    {
      var to := if currentEnd.Some? && currentEnd.value != 0.0 then currentEnd else None;
      var step := ReadBatch(api(KlineRequest(symbol, period, BatchSize, to)));
      if step.Raise? {
        return [];
      }
      allData := allData + step.data;
      if step.Stop? {
        break;
      }
      currentEnd := Some(step.lastId);
    }
  }

  // ---------------------------------------------------------------- instrument lists

  /** The reply of `/v1/common/currencys`: raised, or decoded with or without a `data` list. */
  datatype CurrencysReply = CurrencysRaised | CurrencysReply(data: Option<seq<string>>)

  /** `get_available_instruments`: each listed currency followed by `usdt`; [] on failure or without `data`. */
  function AvailableInstruments(reply: CurrencysReply): (r: seq<string>)
    ensures reply.CurrencysReply? && reply.data.Some? ==> |r| == |reply.data.value|
    ensures reply.CurrencysRaised? || reply.data.None? ==> r == []
    ensures forall i :: 0 <= i < |r| ==> EndsWith(r[i], "usdt")
  {
    if reply.CurrencysReply? && reply.data.Some? then
      var currencies := reply.data.value;
      seq(|currencies|, i requires 0 <= i < |currencies| => currencies[i] + "usdt")
    else []
  }

  /** Dropping the `usdt` suffix gives back the currency each pair was built from. */
  lemma PairsRoundTrip(currencies: seq<string>)
    ensures var pairs := AvailableInstruments(CurrencysReply(Some(currencies)));
      forall i :: 0 <= i < |currencies| ==> DropLast(pairs[i], 4) == currencies[i]
  {
    var pairs := AvailableInstruments(CurrencysReply(Some(currencies)));
    forall i | 0 <= i < |currencies|
      ensures DropLast(pairs[i], 4) == currencies[i]
    {
      assert pairs[i] == currencies[i] + "usdt";
      assert (currencies[i] + "usdt")[..|currencies[i]|] == currencies[i];
    }
  }

  /** The reply of `/market/detail/merged`: raised, without a `tick`, or a tick whose `vol` may be `null`. */
  datatype VolumeReply = VolumeRaised | NoTick | TickVolume(vol: Option<real>)

  /** `get_24h_trade_volume`: the tick's volume (`None` for `null`); 0 when the request raised or had no tick. */
  function Volume24h(reply: VolumeReply): (r: Option<real>)
    ensures reply.VolumeRaised? || reply.NoTick? ==> r == Some(0.0)
  {
    match reply
    case VolumeRaised => Some(0.0)
    case NoTick => Some(0.0)
    case TickVolume(vol) => vol
  }

  /** The comparison `volume >= min_volume` holds for a number, and raises for `None`. */
  predicate Liquid(reply: VolumeReply, minVolume: real) {
    Volume24h(reply).Some? && Volume24h(reply).value >= minVolume
  }

  /** Some instrument's volume is `null`, so the comparison raises and the filter does not return. */
  predicate HasNullVolume(instruments: seq<string>, volumes: string -> VolumeReply) {
    exists i :: 0 <= i < |instruments| && Volume24h(volumes(instruments[i])).None?
  }

  /** `filter_instruments_by_volume`: the instruments with enough volume, in order; an error for a `null` volume. */
  function FilterByVolume(instruments: seq<string>, volumes: string -> VolumeReply, minVolume: real): (r: Result<seq<string>>)
    ensures r.Err? <==> HasNullVolume(instruments, volumes)
  {
    if HasNullVolume(instruments, volumes) then Err("TypeError: '>=' not supported for 'NoneType'")
    else Ok(Lists.Filter(instruments, s => Liquid(volumes(s), minVolume)))
  }

  /**
   * The filter keeps the instruments whose volume reaches the minimum, and
   * only those, in their order; with a non-positive minimum a failed
   * lookup (volume 0) passes, with a positive one it does not.
   */
  lemma FilterByVolumeKeeps(instruments: seq<string>, volumes: string -> VolumeReply, minVolume: real)
    requires !HasNullVolume(instruments, volumes)
    ensures var r := FilterByVolume(instruments, volumes, minVolume).value;
      Lists.IsSubsequence(r, instruments) &&
      (forall i :: 0 <= i < |r| ==> Volume24h(volumes(r[i])).value >= minVolume) &&
      (forall i :: 0 <= i < |instruments| && Volume24h(volumes(instruments[i])).value >= minVolume ==> instruments[i] in r) &&
      (forall i :: 0 <= i < |instruments| && (volumes(instruments[i]).VolumeRaised? || volumes(instruments[i]).NoTick?) ==>
        (instruments[i] in r <==> minVolume <= 0.0))
  {
    var p := (s: string) => Liquid(volumes(s), minVolume);
    Lists.FilterSubsequence(instruments, p);
  }

  /** The loop appending every instrument whose volume reaches the minimum. */
  method FilterInstrumentsByVolume(instruments: seq<string>, volumes: string -> VolumeReply, minVolume: real)
    returns (r: Result<seq<string>>)
    ensures r == FilterByVolume(instruments, volumes, minVolume)
  {
    var p := (s: string) => Liquid(volumes(s), minVolume);
    var filtered := [];
    for j := 0 to |instruments|
      invariant filtered == Lists.Filter(instruments[..j], p)
      invariant !HasNullVolume(instruments[..j], volumes)
    {
      var volume := Volume24h(volumes(instruments[j]));
      assert instruments[..j + 1] == instruments[..j] + [instruments[j]];
      if volume.None? {
        assert HasNullVolume(instruments, volumes);
        return Err("TypeError: '>=' not supported for 'NoneType'");
      }
      if volume.value >= minVolume {
        filtered := filtered + [instruments[j]];
      }
    }
    assert instruments[..|instruments|] == instruments;
    r := Ok(filtered);
  }

  /** `get_filtered_instruments`: the configured symbols filtered with the default minimum of one million. */
  method GetFilteredInstruments(configured: seq<string>, volumes: string -> VolumeReply) returns (r: Result<seq<string>>)
    ensures r == FilterByVolume(configured, volumes, DefaultMinVolume)
  {
    r := FilterInstrumentsByVolume(configured, volumes, DefaultMinVolume);
  }
}
