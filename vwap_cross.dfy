/** VWAP cross: BUY when the close crosses above the rolling VWAP, SELL when
    it crosses below. */
module VwapCross {
  import opened Base
  import opened Signals
  import opened Overlays

  function Length(p: Params): real { Get(p, "vwap_length", 20.0) }

  function VwapCol(p: Params): ColKey { Ind("VWAP", [Some(Length(p))]) }

  predicate HasInputs(cols: map<ColKey, Column>)
  {
    High in cols && Low in cols && Close in cols && Volume in cols
  }

  /** `calculate_strategy_indicators`: the library call is a parameter and is
      not guarded; a None or empty result writes nothing. */
  method CalculateIndicators(t: Table, p: Params, vwap: SeriesCall) returns (c: Completion)
    requires t.Valid() && SeriesAligned(vwap, t.rows)
    modifies t
    ensures t.Valid()
    ensures !HasInputs(old(t.columns)) ==> t.columns == old(t.columns) && c == Done
    ensures HasInputs(old(t.columns)) && vwap.SeriesRaises? ==> t.columns == old(t.columns) && c == Raised
    ensures HasInputs(old(t.columns)) && !vwap.SeriesRaises? ==>
              c == Done &&
              t.columns == if SeriesUsable(vwap) then old(t.columns)[VwapCol(p) := vwap.values] else old(t.columns)
  {
    c := Done;
    if !(High in t.columns && Low in t.columns && Close in t.columns && Volume in t.columns) {
      return;
    }
    if vwap.SeriesRaises? {
      return Raised;
    }
    if SeriesUsable(vwap) {
      t.Set(VwapCol(p), vwap.values);
    }
  }

  /** The crossover rule of the close against the VWAP. */
  function Decide(prevClose: real, prevVwap: real, close: real, vwap: real, pos: Position): (d: Decision)
    ensures d.signal == Buy <==> pos == NoPosition && CrossAbove(prevClose, prevVwap, close, vwap)
    ensures d.signal == Sell <==> pos == NoPosition && CrossBelow(prevClose, prevVwap, close, vwap)
    ensures d.signal == CloseLong <==> pos == Long && CrossBelow(prevClose, prevVwap, close, vwap)
    ensures d.signal == CloseShort <==> pos == Short && CrossAbove(prevClose, prevVwap, close, vwap)
    ensures d.signal != Hold ==> d.reason == Fired
    ensures d.signal == Hold ==>
              d.reason == Context(if close > vwap then Above else if close < vwap then Below else Equal)
  {
    CrossesExclusive(prevClose, prevVwap, close, vwap);
    Gated(pos, CrossAbove(prevClose, prevVwap, close, vwap), CrossBelow(prevClose, prevVwap, close, vwap),
          if close > vwap then Above else if close < vwap then Below else Equal)
  }

  predicate HasColumns(t: Table, p: Params)
    reads t
  {
    VwapCol(p) in t.columns && Close in t.columns
  }

  predicate Ready(t: Table, p: Params)
    requires t.Valid()
    reads t
  {
    HasColumns(t, p) && t.rows >= 2 &&
    LastTwoPresent(t.columns[VwapCol(p)]) && LastTwoPresent(t.columns[Close])
  }

  /** `run_strategy` */
  function RunStrategy(t: Table, p: Params, position: Option<string>): (d: Decision)
    requires t.Valid()
    reads t
    ensures !HasColumns(t, p) ==> d == HoldFor(ColumnsMissing)
    ensures HasColumns(t, p) && t.rows < 2 ==> d == HoldFor(TooFewRows)
    ensures HasColumns(t, p) && t.rows >= 2 && !Ready(t, p) ==> d == HoldFor(ValuesMissing)
    ensures d.signal != Hold ==> Ready(t, p)
    ensures Ready(t, p) ==>
              var c, v := t.columns[Close], t.columns[VwapCol(p)];
              d == Decide(Previous(c).value, Previous(v).value, Latest(c).value, Latest(v).value,
                          PositionOf(position))
  {
    if !HasColumns(t, p) then HoldFor(ColumnsMissing)
    else if t.rows < 2 then HoldFor(TooFewRows)
    else if !Ready(t, p) then HoldFor(ValuesMissing)
    else
      var c, v := t.columns[Close], t.columns[VwapCol(p)];
      Decide(Previous(c).value, Previous(v).value, Latest(c).value, Latest(v).value, PositionOf(position))
  }

  /** Only the last two rows of the close and the VWAP are consulted. */
  lemma LastTwoRowsOnly(t1: Table, t2: Table, p: Params, position: Option<string>)
    requires t1.Valid() && t2.Valid()
    requires SameWindow(t1, t2, {VwapCol(p), Close}, 2)
    ensures RunStrategy(t1, p, position) == RunStrategy(t2, p, position)
  {
    if HasColumns(t1, p) && t1.rows >= 2 {
      WindowValues(t1, t2, {VwapCol(p), Close}, 2, VwapCol(p));
      WindowValues(t1, t2, {VwapCol(p), Close}, 2, Close);
    }
  }

  /** `get_chart_overlay_data`: the VWAP line, given a datetime index. */
  function ChartOverlay(t: Table, p: Params): (chart: Chart)
    requires t.Valid()
    reads t
    ensures chart.Keys <= {"vwap_line"}
    ensures "vwap_line" in chart <==> HasTimeRef(t, false) && VwapCol(p) in t.columns
    ensures "vwap_line" in chart ==> chart["vwap_line"] == Line(t, VwapCol(p))
  {
    if HasTimeRef(t, false) && VwapCol(p) in t.columns then map["vwap_line" := Line(t, VwapCol(p))]
    else map[]
  }
}
