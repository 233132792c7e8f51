/** Supertrend following: BUY when the direction flips from -1 to 1, SELL
    when it flips from 1 to -1. */
module Supertrend {
  import opened Base
  import opened Signals
  import opened Overlays

  function AtrLength(p: Params): real { Get(p, "supertrend_atr_length", 10.0) }
  function Multiplier(p: Params): real { Get(p, "supertrend_multiplier", 3.0) }

  function LineCol(p: Params): ColKey { Ind("SUPERT", [Some(AtrLength(p)), Some(Multiplier(p))]) }
  function DirectionCol(p: Params): ColKey { Ind("SUPERTd", [Some(AtrLength(p)), Some(Multiplier(p))]) }

  predicate HasInputs(cols: map<ColKey, Column>)
  {
    High in cols && Low in cols && Close in cols
  }

  /** `calculate_strategy_indicators`: the library call is a parameter and is
      not guarded; the line and the direction are copied from its output, and
      a label missing from it raises `KeyError`. */
  method CalculateIndicators(t: Table, p: Params, st: FrameCall) returns (c: Completion)
    requires t.Valid() && FrameAligned(st, t.rows)
    modifies t
    ensures t.Valid()
    ensures !HasInputs(old(t.columns)) ==> t.columns == old(t.columns) && c == Done
    ensures HasInputs(old(t.columns)) && st.FrameRaises? ==> t.columns == old(t.columns) && c == Raised
    ensures HasInputs(old(t.columns)) && !st.FrameRaises? && !FrameUsable(st, t.rows) ==>
              t.columns == old(t.columns) && c == Done
    ensures HasInputs(old(t.columns)) && FrameUsable(st, t.rows) ==>
              var out := st.produced;
              (c == Done <==> LineCol(p) in out && DirectionCol(p) in out) &&
              (LineCol(p) !in out ==> t.columns == old(t.columns)) &&
              (LineCol(p) in out && DirectionCol(p) !in out ==>
                 t.columns == old(t.columns)[LineCol(p) := out[LineCol(p)]]) &&
              (LineCol(p) in out && DirectionCol(p) in out ==>
                 t.columns == old(t.columns)[LineCol(p) := out[LineCol(p)]][DirectionCol(p) := out[DirectionCol(p)]])
    ensures c == Done && HasInputs(old(t.columns)) && FrameUsable(st, t.rows) ==>
              HasColumns(t, p) &&
              t.columns.Keys == old(t.columns).Keys + {LineCol(p), DirectionCol(p)} &&
              forall k :: k in old(t.columns) && k != LineCol(p) && k != DirectionCol(p) ==> t.columns[k] == old(t.columns)[k]
  {
    c := Done;
    if !(High in t.columns && Low in t.columns && Close in t.columns) {
      return;
    }
    if st.FrameRaises? {
      return Raised;
    }
    if FrameUsable(st, t.rows) {
      var ok := t.CopyFrom(st.produced, LineCol(p));
      if !ok {
        return Raised;
      }
      ok := t.CopyFrom(st.produced, DirectionCol(p));
      if !ok {
        return Raised;
      }
    }
  }

  predicate BuyCondition(prev: real, latest: real) { prev == -1.0 && latest == 1.0 }
  predicate SellCondition(prev: real, latest: real) { prev == 1.0 && latest == -1.0 }

  /** The flip rule on the last two directions. */
  function Decide(prev: real, latest: real, pos: Position): (d: Decision)
    ensures d.signal == Buy <==> pos == NoPosition && BuyCondition(prev, latest)
    ensures d.signal == Sell <==> pos == NoPosition && SellCondition(prev, latest)
    ensures d.signal == CloseLong <==> pos == Long && SellCondition(prev, latest)
    ensures d.signal == CloseShort <==> pos == Short && BuyCondition(prev, latest)
    ensures d.signal != Hold ==> d.reason == Fired
    ensures d.signal == Hold ==>
              d.reason == Context(if latest == 1.0 then Bullish else if latest == -1.0 then Bearish else Unclear)
  {
    Gated(pos, BuyCondition(prev, latest), SellCondition(prev, latest),
          if latest == 1.0 then Bullish else if latest == -1.0 then Bearish else Unclear)
  }

  /** An unchanged direction never fires, and a flip is never both ways. */
  lemma UnchangedDirectionHolds(prev: real, latest: real, pos: Position)
    ensures prev == latest ==> Decide(prev, latest, pos).signal == Hold
    ensures !(BuyCondition(prev, latest) && SellCondition(prev, latest))
  {
  }

  /** The close column is required but its value is only reported. */
  predicate HasColumns(t: Table, p: Params)
    reads t
  {
    DirectionCol(p) in t.columns && Close in t.columns
  }

  predicate Ready(t: Table, p: Params)
    requires t.Valid()
    reads t
  {
    HasColumns(t, p) && t.rows >= 2 && LastTwoPresent(t.columns[DirectionCol(p)])
  }

  /** `run_strategy` */
  function RunStrategy(t: Table, p: Params, position: Option<string>): (d: Decision)
    requires t.Valid()
    reads t
    ensures !HasColumns(t, p) ==> d == HoldFor(ColumnsMissing)
    ensures HasColumns(t, p) && t.rows < 2 ==> d == HoldFor(TooFewRows)
    ensures HasColumns(t, p) && t.rows >= 2 && !Ready(t, p) ==> d == HoldFor(ValuesMissing)
    ensures d.signal != Hold ==> Ready(t, p)
    ensures Ready(t, p) ==>
              var dir := t.columns[DirectionCol(p)];
              d == Decide(Previous(dir).value, Latest(dir).value, PositionOf(position))
  {
    if !HasColumns(t, p) then HoldFor(ColumnsMissing)
    else if t.rows < 2 then HoldFor(TooFewRows)
    else if !Ready(t, p) then HoldFor(ValuesMissing)
    else
      var dir := t.columns[DirectionCol(p)];
      Decide(Previous(dir).value, Latest(dir).value, PositionOf(position))
  }

  /** Only the last two directions (and whether close exists) are consulted. */
  lemma LastTwoRowsOnly(t1: Table, t2: Table, p: Params, position: Option<string>)
    requires t1.Valid() && t2.Valid()
    requires SameWindow(t1, t2, {DirectionCol(p), Close}, 2)
    ensures RunStrategy(t1, p, position) == RunStrategy(t2, p, position)
  {
    if HasColumns(t1, p) && t1.rows >= 2 {
      WindowValues(t1, t2, {DirectionCol(p), Close}, 2, DirectionCol(p));
    }
  }

  /** `get_chart_overlay_data`: the Supertrend line, given a datetime index. */
  function ChartOverlay(t: Table, p: Params): (chart: Chart)
    requires t.Valid()
    reads t
    ensures chart.Keys <= {"supertrend_line"}
    ensures "supertrend_line" in chart <==> HasTimeRef(t, false) && LineCol(p) in t.columns
    ensures "supertrend_line" in chart ==> chart["supertrend_line"] == Line(t, LineCol(p))
  {
    if HasTimeRef(t, false) && LineCol(p) in t.columns then map["supertrend_line" := Line(t, LineCol(p))]
    else map[]
  }
}
