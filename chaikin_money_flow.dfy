/** Chaikin Money Flow threshold: BUY when CMF crosses above the threshold,
    SELL when it crosses below its negative. */
module ChaikinMoneyFlow {
  import opened Base
  import opened Signals
  import opened Overlays

  function Length(p: Params): real { Get(p, "cmf_length", 20.0) }
  function Threshold(p: Params): real { Get(p, "cmf_entry_threshold", 0.05) }

  function CmfCol(p: Params): ColKey { Ind("CMF", [Some(Length(p))]) }

  predicate HasInputs(cols: map<ColKey, Column>)
  {
    High in cols && Low in cols && Close in cols && Volume in cols
  }

  /** `calculate_strategy_indicators`: the library call is a parameter and is
      not guarded; a None or empty result writes nothing. */
  method CalculateIndicators(t: Table, p: Params, cmf: SeriesCall) returns (c: Completion)
    requires t.Valid() && SeriesAligned(cmf, t.rows)
    modifies t
    ensures t.Valid()
    ensures !HasInputs(old(t.columns)) ==> t.columns == old(t.columns) && c == Done
    ensures HasInputs(old(t.columns)) && cmf.SeriesRaises? ==> t.columns == old(t.columns) && c == Raised
    ensures HasInputs(old(t.columns)) && !cmf.SeriesRaises? ==>
              c == Done &&
              t.columns == if SeriesUsable(cmf) then old(t.columns)[CmfCol(p) := cmf.values] else old(t.columns)
  {
    c := Done;
    if !(High in t.columns && Low in t.columns && Close in t.columns && Volume in t.columns) {
      return;
    }
    if cmf.SeriesRaises? {
      return Raised;
    }
    if SeriesUsable(cmf) {
      t.Set(CmfCol(p), cmf.values);
    }
  }

  predicate BuyCondition(prev: real, latest: real, threshold: real)
  {
    prev <= threshold && latest > threshold
  }

  predicate SellCondition(prev: real, latest: real, threshold: real)
  {
    prev >= -threshold && latest < -threshold
  }

  /** The two crosses exclude each other for any threshold: both would need
      `-threshold <= prev <= threshold` and `threshold < latest < -threshold`. */
  lemma CrossesExclusive(prev: real, latest: real, threshold: real)
    ensures !(BuyCondition(prev, latest, threshold) && SellCondition(prev, latest, threshold))
  {
  }

  /** The threshold-cross rule on the last two CMF values. */
  function Decide(prev: real, latest: real, threshold: real, pos: Position): (d: Decision)
    ensures !(threshold > 0.0) ==> d == HoldFor(InvalidParams)
    ensures d.signal == Buy <==> threshold > 0.0 && pos == NoPosition && BuyCondition(prev, latest, threshold)
    ensures d.signal == Sell <==> threshold > 0.0 && pos == NoPosition && SellCondition(prev, latest, threshold)
    ensures d.signal == CloseLong <==> threshold > 0.0 && pos == Long && SellCondition(prev, latest, threshold)
    ensures d.signal == CloseShort <==> threshold > 0.0 && pos == Short && BuyCondition(prev, latest, threshold)
    ensures d.signal != Hold ==> d.reason == Fired
    ensures threshold > 0.0 && d.signal == Hold ==>
              d.reason == Context(if latest > threshold then Bullish else if latest < -threshold then Bearish else Between)
  {
    if !(threshold > 0.0) then HoldFor(InvalidParams)
    else
      CrossesExclusive(prev, latest, threshold);
      Gated(pos, BuyCondition(prev, latest, threshold), SellCondition(prev, latest, threshold),
            if latest > threshold then Bullish else if latest < -threshold then Bearish else Between)
  }

  predicate HasColumns(t: Table, p: Params)
    reads t
  {
    CmfCol(p) in t.columns
  }

  predicate Ready(t: Table, p: Params)
    requires t.Valid()
    reads t
  {
    HasColumns(t, p) && t.rows >= 2 && LastTwoPresent(t.columns[CmfCol(p)])
  }

  /** `run_strategy`: the data guards come before the threshold check. */
  function RunStrategy(t: Table, p: Params, position: Option<string>): (d: Decision)
    requires t.Valid()
    reads t
    ensures !HasColumns(t, p) ==> d == HoldFor(ColumnsMissing)
    ensures HasColumns(t, p) && t.rows < 2 ==> d == HoldFor(TooFewRows)
    ensures HasColumns(t, p) && t.rows >= 2 && !Ready(t, p) ==> d == HoldFor(ValuesMissing)
    ensures d.signal != Hold ==> Ready(t, p) && Threshold(p) > 0.0
    ensures Ready(t, p) ==>
              var cmf := t.columns[CmfCol(p)];
              d == Decide(Previous(cmf).value, Latest(cmf).value, Threshold(p), PositionOf(position))
  {
    if !HasColumns(t, p) then HoldFor(ColumnsMissing)
    else if t.rows < 2 then HoldFor(TooFewRows)
    else if !Ready(t, p) then HoldFor(ValuesMissing)
    else
      var cmf := t.columns[CmfCol(p)];
      Decide(Previous(cmf).value, Latest(cmf).value, Threshold(p), PositionOf(position))
  }

  /** Only the last two CMF values are consulted. */
  lemma LastTwoRowsOnly(t1: Table, t2: Table, p: Params, position: Option<string>)
    requires t1.Valid() && t2.Valid()
    requires SameWindow(t1, t2, {CmfCol(p)}, 2)
    ensures RunStrategy(t1, p, position) == RunStrategy(t2, p, position)
  {
    if HasColumns(t1, p) && t1.rows >= 2 {
      WindowValues(t1, t2, {CmfCol(p)}, 2, CmfCol(p));
    }
  }

  /** `get_chart_overlay_data`: the CMF line, given a datetime index. */
  function ChartOverlay(t: Table, p: Params): (chart: Chart)
    requires t.Valid()
    reads t
    ensures chart.Keys <= {"cmf_line"}
    ensures "cmf_line" in chart <==> HasTimeRef(t, false) && CmfCol(p) in t.columns
    ensures "cmf_line" in chart ==> chart["cmf_line"] == Line(t, CmfCol(p))
  {
    if HasTimeRef(t, false) && CmfCol(p) in t.columns then map["cmf_line" := Line(t, CmfCol(p))]
    else map[]
  }
}
