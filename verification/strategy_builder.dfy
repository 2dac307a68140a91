/**
 * Strategies built from drawn chart patterns (gui/strategy_builder.py):
 * a `PatternStrategy` record and the `StrategyBuilder` list that new
 * strategies are appended to and deleted from by index.
 */
module StrategyBuilder {
  import opened Wrappers
  import opened Models

  /** A value held in a pattern or rules dictionary. */
  datatype Value = Str(s: string) | Number(x: real) | Dict(d: map<string, Value>)

  type Dictionary = map<string, Value>

  /**
   * `PatternStrategy`: the pattern's type, the pattern itself, the entry
   * and exit rules, and the creation time (the clock reading is passed in).
   */
  datatype PatternStrategy = PatternStrategy(
    patternType: Value, patternData: Dictionary, entryConditions: Dictionary, exitConditions: Dictionary,
    createdAt: Time)

  /** A trading signal; no strategy produces one yet. */
  datatype Signal = Signal(info: Dictionary)

  /** `check_entry_signal`: not implemented in the application, so there is never an entry signal. */
  function CheckEntrySignal(s: PatternStrategy, prices: seq<real>, timestamps: seq<Time>): (r: Option<Signal>)
    ensures r.None?
  {
    None
  }

  /** `check_exit_signal`: not implemented either, so there is never an exit signal. */
  function CheckExitSignal(s: PatternStrategy, entryPrice: real, currentPrice: real, entryTime: Time): (r: Option<Signal>)
    ensures r.None?
  {
    None
  }

  /** The list after `pop(i)` for an index in range; any other index leaves it as it was. */
  function Removed(s: seq<PatternStrategy>, i: int): (r: seq<PatternStrategy>)
    ensures 0 <= i < |s| ==> |r| == |s| - 1
    ensures !(0 <= i < |s|) ==> r == s
    ensures 0 <= i < |s| ==>
      (forall j :: 0 <= j < i ==> r[j] == s[j]) && (forall j :: i <= j < |r| ==> r[j] == s[j + 1])
  {
    if 0 <= i < |s| then s[..i] + s[i + 1..] else s
  }

  /** Popping an index in range removes exactly that strategy and keeps the others. */
  lemma RemovedMultiset(s: seq<PatternStrategy>, i: int)
    requires 0 <= i < |s|
    ensures multiset(Removed(s, i)) + multiset{s[i]} == multiset(s)
  {
    assert s == s[..i] + [s[i]] + s[i + 1..];
  }

  /** Deleting the strategy just appended gives back the list as it was. */
  lemma RemovedAppended(s: seq<PatternStrategy>, x: PatternStrategy)
    ensures Removed(s + [x], |s|) == s
  {
    assert (s + [x])[..|s|] == s;
  }

  class Builder {
    /** `self.strategies`: every strategy created and not deleted, oldest first. */
    var strategies: seq<PatternStrategy>

    /** A new builder holds no strategy. */
    constructor ()
      ensures strategies == []
    {
      strategies := [];
    }

    /**
     * `create_strategy_from_pattern`: a strategy of the pattern's `type`
     * appended at the end and returned. A pattern without `type` raises
     * `KeyError` before anything is appended.
     */
    method CreateStrategyFromPattern(pattern: Dictionary, entryRules: Dictionary, exitRules: Dictionary, now: Time)
      returns (r: Result<PatternStrategy>)
      modifies this`strategies
      ensures r.Err? <==> "type" !in pattern
      ensures r.Err? ==> strategies == old(strategies)
      ensures r.Ok? ==> strategies == old(strategies) + [r.value]
      ensures r.Ok? ==> r.value == PatternStrategy(pattern["type"], pattern, entryRules, exitRules, now)
    {
      if "type" !in pattern {
        return Err("KeyError: 'type'");
      }
      var strategy := PatternStrategy(pattern["type"], pattern, entryRules, exitRules, now);
      strategies := strategies + [strategy];
      r := Ok(strategy);
    }

    /**
     * `create_line_breakout_strategy`: enter on a `breakout` in the given
     * direction, leave on a `price_target` with take-profit and stop-loss
     * fractions (by default up, 0.02 and 0.01).
     */
    method CreateLineBreakoutStrategy(linePattern: Dictionary, now: Time, direction: string := "up",
                                      profitTarget: real := 0.02, stopLoss: real := 0.01)
      returns (r: Result<PatternStrategy>)
      modifies this`strategies
      ensures r.Err? <==> "type" !in linePattern
      ensures r.Err? ==> strategies == old(strategies)
      ensures r.Ok? ==> strategies == old(strategies) + [r.value]
      ensures r.Ok? ==>
        r.value.patternType == linePattern["type"] && r.value.patternData == linePattern &&
        r.value.entryConditions ==
          map["type" := Str("breakout"), "direction" := Str(direction), "pattern" := Dict(linePattern)] &&
        r.value.exitConditions ==
          map["type" := Str("price_target"), "take_profit_percent" := Number(profitTarget),
              "stop_loss_percent" := Number(stopLoss)]
    {
      var entryRules := map["type" := Str("breakout"), "direction" := Str(direction), "pattern" := Dict(linePattern)];
      var exitRules := map["take_profit_percent" := Number(profitTarget), "stop_loss_percent" := Number(stopLoss),
                           "type" := Str("price_target")];
      r := CreateStrategyFromPattern(linePattern, entryRules, exitRules, now);
    }

    /**
     * `create_rectangle_range_strategy`: enter by the given type (`bounce`
     * by default), leave on a `range_exit` with a take-profit fraction
     * (0.015 by default) and no stop-loss.
     */
    method CreateRectangleRangeStrategy(rectanglePattern: Dictionary, now: Time, entryType: string := "bounce",
                                        profitTarget: real := 0.015)
      returns (r: Result<PatternStrategy>)
      modifies this`strategies
      ensures r.Err? <==> "type" !in rectanglePattern
      ensures r.Err? ==> strategies == old(strategies)
      ensures r.Ok? ==> strategies == old(strategies) + [r.value]
      ensures r.Ok? ==>
        r.value.patternType == rectanglePattern["type"] && r.value.patternData == rectanglePattern &&
        r.value.entryConditions == map["type" := Str(entryType), "pattern" := Dict(rectanglePattern)] &&
        r.value.exitConditions == map["type" := Str("range_exit"), "take_profit_percent" := Number(profitTarget)]
    {
      var entryRules := map["type" := Str(entryType), "pattern" := Dict(rectanglePattern)];
      var exitRules := map["take_profit_percent" := Number(profitTarget), "type" := Str("range_exit")];
      r := CreateStrategyFromPattern(rectanglePattern, entryRules, exitRules, now);
    }

    /** `delete_strategy`: pops the indexed strategy when `0 <= i < len`, otherwise does nothing. */
    method DeleteStrategy(i: int)
      modifies this`strategies
      ensures strategies == Removed(old(strategies), i)
    {
      if 0 <= i < |strategies| {
        strategies := strategies[..i] + strategies[i + 1..];
      }
    }
  }
}
