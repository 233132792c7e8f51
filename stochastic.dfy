/** Stochastic oscillator momentum: %K crossing %D, gated by the oversold and
    overbought zones on the previous bar. */
module Stochastic {
  import opened Base
  import opened Signals
  import opened Overlays

  function KPeriod(p: Params): real { Get(p, "stoch_k_period", 14.0) }
  function DPeriod(p: Params): real { Get(p, "stoch_d_period", 3.0) }
  function SmoothK(p: Params): real { Get(p, "stoch_smooth_k_period", 3.0) }
  function OversoldLevel(p: Params): real { Get(p, "stoch_oversold_level", 20.0) }
  function OverboughtLevel(p: Params): real { Get(p, "stoch_overbought_level", 80.0) }

  function KCol(p: Params): ColKey { Ind("STOCHk", [Some(KPeriod(p)), Some(DPeriod(p)), Some(SmoothK(p))]) }
  function DCol(p: Params): ColKey { Ind("STOCHd", [Some(KPeriod(p)), Some(DPeriod(p)), Some(SmoothK(p))]) }

  predicate HasInputs(cols: map<ColKey, Column>)
  {
    High in cols && Low in cols && Close in cols
  }

  /** `calculate_strategy_indicators`: the library call is a parameter and is
      not guarded, so its exceptions, and a `KeyError` for a label its output
      lacks, escape. */
  method CalculateIndicators(t: Table, p: Params, stoch: FrameCall) returns (c: Completion)
    requires t.Valid() && FrameAligned(stoch, t.rows)
    modifies t
    ensures t.Valid()
    ensures !HasInputs(old(t.columns)) ==> t.columns == old(t.columns) && c == Done
    ensures HasInputs(old(t.columns)) && stoch.FrameRaises? ==> t.columns == old(t.columns) && c == Raised
    ensures HasInputs(old(t.columns)) && !stoch.FrameRaises? && !FrameUsable(stoch, t.rows) ==>
              t.columns == old(t.columns) && c == Done
    ensures HasInputs(old(t.columns)) && FrameUsable(stoch, t.rows) ==>
              var out := stoch.produced;
              (c == Done <==> KCol(p) in out && DCol(p) in out) &&
              (KCol(p) !in out ==> t.columns == old(t.columns)) &&
              (KCol(p) in out && DCol(p) !in out ==> t.columns == old(t.columns)[KCol(p) := out[KCol(p)]]) &&
              (KCol(p) in out && DCol(p) in out ==>
                 t.columns == old(t.columns)[KCol(p) := out[KCol(p)]][DCol(p) := out[DCol(p)]])
  {
    c := Done;
    if !(High in t.columns && Low in t.columns && Close in t.columns) {
      return;
    }
    if stoch.FrameRaises? {
      return Raised;
    }
    if FrameUsable(stoch, t.rows) {
      var ok := t.CopyFrom(stoch.produced, KCol(p));
      if !ok {
        return Raised;
      }
      ok := t.CopyFrom(stoch.produced, DCol(p));
      if !ok {
        return Raised;
      }
    }
  }

  predicate BuyCondition(prevK: real, prevD: real, k: real, d: real, oversold: real)
  {
    CrossAbove(prevK, prevD, k, d) && prevK < oversold && prevD < oversold
  }

  predicate SellCondition(prevK: real, prevD: real, k: real, d: real, overbought: real)
  {
    CrossBelow(prevK, prevD, k, d) && prevK > overbought && prevD > overbought
  }

  /** The zone-gated crossover rule. The buy condition needs the latest %K
      above %D and the sell condition needs it below, so they never both hold. */
  function Decide(prevK: real, prevD: real, k: real, d: real, oversold: real, overbought: real,
                  pos: Position): (r: Decision)
    ensures r.signal == Buy <==> pos == NoPosition && BuyCondition(prevK, prevD, k, d, oversold)
    ensures r.signal == Sell <==> pos == NoPosition && SellCondition(prevK, prevD, k, d, overbought)
    ensures r.signal == CloseLong <==> pos == Long && SellCondition(prevK, prevD, k, d, overbought)
    ensures r.signal == CloseShort <==> pos == Short && BuyCondition(prevK, prevD, k, d, oversold)
    ensures r.signal != Hold ==> r.reason == Fired
    ensures r.signal == Hold && k < oversold ==> r.reason == Context(Oversold)
    ensures r.signal == Hold && oversold <= k && k > overbought ==> r.reason == Context(Overbought)
    ensures r.signal == Hold && oversold <= k <= overbought && k > d ==> r.reason == Context(Bullish)
    ensures r.signal == Hold && oversold <= k <= overbought && k <= d ==> r.reason == Context(Bearish)
  {
    var context :=
      if k < oversold then Oversold
      else if k > overbought then Overbought
      else if k > d then Bullish
      else Bearish;
    Gated(pos, BuyCondition(prevK, prevD, k, d, oversold), SellCondition(prevK, prevD, k, d, overbought), context)
  }

  predicate HasColumns(t: Table, p: Params)
    reads t
  {
    KCol(p) in t.columns && DCol(p) in t.columns
  }

  predicate Ready(t: Table, p: Params)
    requires t.Valid()
    reads t
  {
    HasColumns(t, p) && t.rows >= 2 &&
    LastTwoPresent(t.columns[KCol(p)]) && LastTwoPresent(t.columns[DCol(p)])
  }

  /** `run_strategy` */
  function RunStrategy(t: Table, p: Params, position: Option<string>): (r: Decision)
    requires t.Valid()
    reads t
    ensures !HasColumns(t, p) ==> r == HoldFor(ColumnsMissing)
    ensures HasColumns(t, p) && t.rows < 2 ==> r == HoldFor(TooFewRows)
    ensures HasColumns(t, p) && t.rows >= 2 && !Ready(t, p) ==> r == HoldFor(ValuesMissing)
    ensures r.signal != Hold ==> Ready(t, p)
    ensures Ready(t, p) ==>
              var k, d := t.columns[KCol(p)], t.columns[DCol(p)];
              r == Decide(Previous(k).value, Previous(d).value, Latest(k).value, Latest(d).value,
                          OversoldLevel(p), OverboughtLevel(p), PositionOf(position))
  {
    if !HasColumns(t, p) then HoldFor(ColumnsMissing)
    else if t.rows < 2 then HoldFor(TooFewRows)
    else if !Ready(t, p) then HoldFor(ValuesMissing)
    else
      var k, d := t.columns[KCol(p)], t.columns[DCol(p)];
      Decide(Previous(k).value, Previous(d).value, Latest(k).value, Latest(d).value,
             OversoldLevel(p), OverboughtLevel(p), PositionOf(position))
  }

  /** Only the last two rows of %K and %D are consulted. */
  lemma LastTwoRowsOnly(t1: Table, t2: Table, p: Params, position: Option<string>)
    requires t1.Valid() && t2.Valid()
    requires SameWindow(t1, t2, {KCol(p), DCol(p)}, 2)
    ensures RunStrategy(t1, p, position) == RunStrategy(t2, p, position)
  {
    if HasColumns(t1, p) && t1.rows >= 2 {
      WindowValues(t1, t2, {KCol(p), DCol(p)}, 2, KCol(p));
      WindowValues(t1, t2, {KCol(p), DCol(p)}, 2, DCol(p));
    }
  }

  /** `get_chart_overlay_data`: needs a datetime index (no `timestamp`
      fallback); each line is emitted whenever its column exists. */
  function ChartOverlay(t: Table, p: Params): (chart: Chart)
    requires t.Valid()
    reads t
    ensures chart.Keys <= {"stoch_k_line", "stoch_d_line"}
    ensures "stoch_k_line" in chart <==> HasTimeRef(t, false) && KCol(p) in t.columns
    ensures "stoch_d_line" in chart <==> HasTimeRef(t, false) && DCol(p) in t.columns
    ensures "stoch_k_line" in chart ==> chart["stoch_k_line"] == Line(t, KCol(p))
    ensures "stoch_d_line" in chart ==> chart["stoch_d_line"] == Line(t, DCol(p))
  {
    if !HasTimeRef(t, false) then map[]
    else
      (if KCol(p) in t.columns then map["stoch_k_line" := Line(t, KCol(p))] else map[]) +
      (if DCol(p) in t.columns then map["stoch_d_line" := Line(t, DCol(p))] else map[])
  }
}
