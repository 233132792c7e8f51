/** RSI mean reversion: BUY when RSI climbs back above the oversold level,
    SELL when it falls back below the overbought level. No exits; the
    position is ignored. */
module RsiMeanReversion {
  import opened Base
  import opened Signals
  import opened Overlays

  /** The label the attachment step writes (length with a default). */
  function AttachRsiCol(p: Params): ColKey { Ind("RSI", [Some(Get(p, "rsi_length", 14.0))]) }

  /** The label the rule and the overlay read (length without a default). */
  function RsiCol(p: Params): ColKey { Ind("RSI", [GetOpt(p, "rsi_length")]) }

  /** The levels are read without defaults. */
  function OversoldLevel(p: Params): Option<real> { GetOpt(p, "rsi_oversold_level") }
  function OverboughtLevel(p: Params): Option<real> { GetOpt(p, "rsi_overbought_level") }

  /** `calculate_strategy_indicators`: the library call is a parameter and is
      not guarded; a None result writes nothing. */
  method CalculateIndicators(t: Table, p: Params, rsi: SeriesCall) returns (c: Completion)
    requires t.Valid() && SeriesAligned(rsi, t.rows)
    modifies t
    ensures t.Valid()
    ensures Close !in old(t.columns) ==> t.columns == old(t.columns) && c == Done
    ensures Close in old(t.columns) && rsi.SeriesRaises? ==> t.columns == old(t.columns) && c == Raised
    ensures Close in old(t.columns) && !rsi.SeriesRaises? ==>
              c == Done &&
              t.columns == if rsi.SeriesOf? then old(t.columns)[AttachRsiCol(p) := rsi.values] else old(t.columns)
  {
    c := Done;
    if Close !in t.columns {
      return;
    }
    if rsi.SeriesRaises? {
      return Raised;
    }
    if rsi.SeriesOf? {
      t.Set(AttachRsiCol(p), rsi.values);
    }
  }

  /** `run_strategy` either returns a decision or lets a `TypeError` escape
      (comparing an RSI value with an absent level). */
  datatype RunOutcome = Returns(decision: Decision) | RaisesTypeError

  predicate BuyCondition(prev: real, latest: real, oversold: real)
  {
    prev <= oversold && latest > oversold
  }

  predicate SellCondition(prev: real, latest: real, overbought: real)
  {
    prev >= overbought && latest < overbought
  }

  /** The re-cross rule; BUY takes precedence, and the HOLD reason keeps its
      initial value between the levels. */
  function Decide(prev: real, latest: real, oversold: real, overbought: real): (d: Decision)
    ensures d.signal == Buy <==> BuyCondition(prev, latest, oversold)
    ensures d.signal == Sell <==> !BuyCondition(prev, latest, oversold) && SellCondition(prev, latest, overbought)
    ensures d.signal in {Hold, Buy, Sell}
    ensures d.signal != Hold ==> d.reason == Fired
    ensures d.signal == Hold ==>
              d.reason == (if latest < oversold then Context(Oversold)
                           else if latest > overbought then Context(Overbought) else Initial)
    ensures d.bias == None
  {
    if BuyCondition(prev, latest, oversold) then Decision(Buy, Fired, None)
    else if SellCondition(prev, latest, overbought) then Decision(Sell, Fired, None)
    else if latest < oversold then HoldFor(Context(Oversold))
    else if latest > overbought then HoldFor(Context(Overbought))
    else HoldFor(Initial)
  }

  /** The two re-crosses exclude each other for any levels: both would need
      `overbought <= prev <= oversold` and `oversold < latest < overbought`. */
  lemma CrossesExclusive(prev: real, latest: real, oversold: real, overbought: real)
    ensures !(BuyCondition(prev, latest, oversold) && SellCondition(prev, latest, overbought))
  {
  }

  /** The worked examples with levels 30 and 70. */
  lemma ReCrossExamples()
    ensures Decide(28.0, 31.0, 30.0, 70.0).signal == Buy
    ensures Decide(72.0, 69.0, 30.0, 70.0).signal == Sell
    ensures Decide(50.0, 51.0, 30.0, 70.0) == HoldFor(Initial)
  {
  }

  predicate Ready(t: Table, p: Params)
    requires t.Valid()
    reads t
  {
    RsiCol(p) in t.columns && t.rows >= 2 && LastTwoPresent(t.columns[RsiCol(p)])
  }

  /** `run_strategy`: one combined data guard; past it, an absent level
      raises; `position` is ignored. */
  function RunStrategy(t: Table, p: Params, position: Option<string>): (r: RunOutcome)
    requires t.Valid()
    reads t
    ensures !Ready(t, p) ==> r == Returns(HoldFor(DataIncomplete))
    ensures r.RaisesTypeError? <==> Ready(t, p) && (OversoldLevel(p).None? || OverboughtLevel(p).None?)
    ensures r.Returns? ==> r.decision.signal in {Hold, Buy, Sell}
    ensures Ready(t, p) && OversoldLevel(p).Some? && OverboughtLevel(p).Some? ==>
              var rsi := t.columns[RsiCol(p)];
              r == Returns(Decide(Previous(rsi).value, Latest(rsi).value,
                                  OversoldLevel(p).value, OverboughtLevel(p).value))
  {
    if !Ready(t, p) then Returns(HoldFor(DataIncomplete))
    else if OversoldLevel(p).None? || OverboughtLevel(p).None? then RaisesTypeError
    else
      var rsi := t.columns[RsiCol(p)];
      Returns(Decide(Previous(rsi).value, Latest(rsi).value, OversoldLevel(p).value, OverboughtLevel(p).value))
  }

  /** The outcome is the same whatever position the caller reports. */
  lemma PositionIgnored(t: Table, p: Params, a: Option<string>, b: Option<string>)
    requires t.Valid()
    ensures RunStrategy(t, p, a) == RunStrategy(t, p, b)
  {
  }

  /** The rule reads the label the attachment writes exactly when the length
      is given; with it omitted, and no label spelled with `None` in the
      table, the rule reports incomplete data. */
  lemma DefaultMismatch(t: Table, p: Params, position: Option<string>)
    requires t.Valid()
    ensures "rsi_length" in p <==> RsiCol(p) == AttachRsiCol(p)
    ensures "rsi_length" !in p && (forall k :: k in t.columns && k.Ind? ==> None !in k.args) ==>
              RunStrategy(t, p, position) == Returns(HoldFor(DataIncomplete))
  {
    assert "rsi_length" !in p ==> None in RsiCol(p).args;
  }

  /** Only the last two RSI values are consulted. */
  lemma LastTwoRowsOnly(t1: Table, t2: Table, p: Params, position: Option<string>)
    requires t1.Valid() && t2.Valid()
    requires SameWindow(t1, t2, {RsiCol(p)}, 2)
    ensures RunStrategy(t1, p, position) == RunStrategy(t2, p, position)
  {
    if RsiCol(p) in t1.columns && t1.rows >= 2 {
      WindowValues(t1, t2, {RsiCol(p)}, 2, RsiCol(p));
    }
  }

  /** `get_chart_overlay_data`: the RSI line, with the `timestamp` fallback;
      emitted whenever its column exists. */
  function ChartOverlay(t: Table, p: Params): (chart: Chart)
    requires t.Valid()
    reads t
    ensures chart.Keys <= {"rsi_line"}
    ensures "rsi_line" in chart <==> HasTimeRef(t, true) && RsiCol(p) in t.columns
    ensures "rsi_line" in chart ==> chart["rsi_line"] == Line(t, RsiCol(p))
  {
    if HasTimeRef(t, true) && RsiCol(p) in t.columns then map["rsi_line" := Line(t, RsiCol(p))]
    else map[]
  }
}
