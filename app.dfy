/** calculate_signal of app.py: a three-way rule over growth, inflation and
    the real rate of a fetched snapshot. */
module App {
  import opened Wrappers
  import opened DataFetcher

  datatype Action = Buy | Sell

  /** The {'action': ..., 'reason': ...} record. */
  datatype Signal = Signal(action: Action, reason: string)

  const BuyReason: string := "Strong growth, low inflation, low real rates"
  const SellReason: string := "Negative growth or high inflation"

  const BuySignal: Signal := Signal(Buy, BuyReason)
  const SellSignal: Signal := Signal(Sell, SellReason)

  /** The rule on three present readings: BUY when growth > 2, inflation < 3
      and the real rate < 1; otherwise SELL when growth < 0 or inflation > 4;
      otherwise no signal. */
  function Classify(growth: real, inflation: real, realRate: real): (s: Option<Signal>)
    ensures s == Some(BuySignal) <==> growth > 2.0 && inflation < 3.0 && realRate < 1.0
    ensures s == Some(SellSignal) <==> growth < 0.0 || inflation > 4.0
    ensures s == None <==> !(growth > 2.0 && inflation < 3.0 && realRate < 1.0)
                           && !(growth < 0.0 || inflation > 4.0)
    ensures s.Some? ==> s == Some(BuySignal) || s == Some(SellSignal)
  {
    if growth > 2.0 && inflation < 3.0 && realRate < 1.0 then Some(BuySignal)
    else if growth < 0.0 || inflation > 4.0 then Some(SellSignal)
    else None
  }

  /** The same rule with the SELL test first: an independent reading of the
      two conditions. */
  function ClassifySellFirst(growth: real, inflation: real, realRate: real): Option<Signal> {
    if growth < 0.0 || inflation > 4.0 then Some(SellSignal)
    else if growth > 2.0 && inflation < 3.0 && realRate < 1.0 then Some(BuySignal)
    else None
  }

  /** The BUY and SELL conditions never hold together, so the order of the two
      branches does not matter. */
  lemma BranchOrderIrrelevant(growth: real, inflation: real, realRate: real)
    ensures !((growth > 2.0 && inflation < 3.0 && realRate < 1.0) && (growth < 0.0 || inflation > 4.0))
    ensures Classify(growth, inflation, realRate) == ClassifySellFirst(growth, inflation, realRate)
  {
  }

  /** Every threshold is strict. */
  lemma StrictThresholds(growth: real, inflation: real, realRate: real)
    ensures Classify(2.0, inflation, realRate) != Some(BuySignal)
    ensures Classify(growth, 3.0, realRate) != Some(BuySignal)
    ensures Classify(growth, inflation, 1.0) != Some(BuySignal)
    ensures Classify(0.0, inflation, realRate) == Some(SellSignal) <==> inflation > 4.0
    ensures Classify(growth, 4.0, realRate) == Some(SellSignal) <==> growth < 0.0
  {
  }

  /** Python compares None with a number by raising TypeError. */
  function Greater(x: Option<real>, bound: real): Outcome<bool> {
    if x.None? then Raises(TypeError) else Returns(x.value > bound)
  }

  function Less(x: Option<real>, bound: real): Outcome<bool> {
    if x.None? then Raises(TypeError) else Returns(x.value < bound)
  }

  /** calculate_signal, with `and`/`or` short-circuiting as in Python: a
      missing reading raises TypeError only when the rule reaches it. */
  function CalculateSignal(data: Snapshot): (r: Outcome<Option<Signal>>)
    ensures data.gdpGrowth.Some? && data.inflation.Some? && data.realRate.Some? ==>
              r == Returns(Classify(data.gdpGrowth.value, data.inflation.value, data.realRate.value))
    ensures data.gdpGrowth.None? ==> r == Raises(TypeError)
    ensures data.gdpGrowth.Some? && data.gdpGrowth.value < 0.0 ==> r == Returns(Some(SellSignal))
    ensures r.Raises? ==> r.error == TypeError
    ensures r.Returns? ==>
              (r.value == Some(BuySignal) <==>
                 data.gdpGrowth.value > 2.0 && data.inflation.Some? && data.inflation.value < 3.0
                 && data.realRate.Some? && data.realRate.value < 1.0)
    ensures r.Returns? ==>
              (r.value == Some(SellSignal) <==>
                 !(data.gdpGrowth.value > 2.0 && data.inflation.Some? && data.inflation.value < 3.0
                   && data.realRate.Some? && data.realRate.value < 1.0)
                 && (data.gdpGrowth.value < 0.0 || (data.inflation.Some? && data.inflation.value > 4.0)))
    ensures r.Returns? ==> r.value == None || r.value == Some(BuySignal) || r.value == Some(SellSignal)
    ensures r.Raises? <==>
              || data.gdpGrowth.None?
              || (data.gdpGrowth.value >= 0.0 && data.inflation.None?)
              || (data.gdpGrowth.value > 2.0 && data.inflation.Some? && data.inflation.value < 3.0
                  && data.realRate.None?)
  {
    var growthHigh :- Greater(data.gdpGrowth, 2.0);
    var buy :-
      if !growthHigh then Returns(false)
      else
        var inflationLow :- Less(data.inflation, 3.0);
        if !inflationLow then Returns(false) else Less(data.realRate, 1.0);
    if buy then Returns(Some(BuySignal))
    else if data.gdpGrowth.value < 0.0 then Returns(Some(SellSignal))
    else
      var inflationHigh :- Greater(data.inflation, 4.0);
      Returns(if inflationHigh then Some(SellSignal) else None)
  }
}
