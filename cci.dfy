/** CCI cyclical trade: BUY when CCI climbs back above the lower threshold,
    SELL when it falls back below the upper threshold. */
module Cci {
  import opened Base
  import opened Signals
  import opened Overlays

  function Length(p: Params): real { Get(p, "cci_length", 20.0) }
  function LowerThreshold(p: Params): real { Get(p, "cci_lower_threshold", -100.0) }
  function UpperThreshold(p: Params): real { Get(p, "cci_upper_threshold", 100.0) }

  /** `CCI_{length}_0.015`: the library's default constant is part of the label. */
  function CciCol(p: Params): ColKey { Ind("CCI", [Some(Length(p)), Some(0.015)]) }

  predicate HasInputs(cols: map<ColKey, Column>)
  {
    High in cols && Low in cols && Close in cols
  }

  /** `calculate_strategy_indicators`: the library call is a parameter. A
      None or empty result writes nothing; an exception fills the column with
      missing values. */
  method CalculateIndicators(t: Table, p: Params, cci: SeriesCall) returns (c: Completion)
    requires t.Valid() && SeriesAligned(cci, t.rows)
    modifies t
    ensures t.Valid() && c == Done
    ensures !HasInputs(old(t.columns)) ==> t.columns == old(t.columns)
    ensures HasInputs(old(t.columns)) && cci.SeriesRaises? ==>
              t.columns == old(t.columns)[CciCol(p) := MissingColumn(t.rows)]
    ensures HasInputs(old(t.columns)) && SeriesUsable(cci) ==>
              t.columns == old(t.columns)[CciCol(p) := cci.values]
    ensures HasInputs(old(t.columns)) && !cci.SeriesRaises? && !SeriesUsable(cci) ==>
              t.columns == old(t.columns)
    ensures HasInputs(old(t.columns)) && (cci.SeriesRaises? || SeriesUsable(cci)) ==>
              HasColumns(t, p) && forall position :: RunStrategy(t, p, position).reason != ColumnsMissing
  {
    c := Done;
    if !(High in t.columns && Low in t.columns && Close in t.columns) {
      return;
    }
    if cci.SeriesRaises? {
      t.FillMissing(CciCol(p));
    } else if SeriesUsable(cci) {
      t.Set(CciCol(p), cci.values);
    }
  }

  /** `lower < 0 < upper and lower < upper` */
  predicate ValidThresholds(lower: real, upper: real)
  {
    lower < 0.0 < upper && lower < upper
  }

  predicate BuyCondition(prev: real, latest: real, lower: real)
  {
    prev <= lower && latest > lower
  }

  predicate SellCondition(prev: real, latest: real, upper: real)
  {
    prev >= upper && latest < upper
  }

  /** The two threshold crosses exclude each other for any thresholds: both
      would need `upper <= prev <= lower` and `lower < latest < upper`. */
  lemma CrossesExclusive(prev: real, latest: real, lower: real, upper: real)
    ensures !(BuyCondition(prev, latest, lower) && SellCondition(prev, latest, upper))
  {
  }

  /** The rule on the last two CCI values, after the data guards. */
  function Decide(prev: real, latest: real, lower: real, upper: real, pos: Position): (d: Decision)
    ensures !ValidThresholds(lower, upper) ==> d == HoldFor(InvalidParams)
    ensures d.signal == Buy <==>
              ValidThresholds(lower, upper) && pos == NoPosition && BuyCondition(prev, latest, lower)
    ensures d.signal == Sell <==>
              ValidThresholds(lower, upper) && pos == NoPosition && SellCondition(prev, latest, upper)
    ensures d.signal == CloseLong <==>
              ValidThresholds(lower, upper) && pos == Long && SellCondition(prev, latest, upper)
    ensures d.signal == CloseShort <==>
              ValidThresholds(lower, upper) && pos == Short && BuyCondition(prev, latest, lower)
    ensures d.signal != Hold ==> d.reason == Fired
    ensures ValidThresholds(lower, upper) && d.signal == Hold ==>
              d.reason == Context(if latest < lower then Below else if latest > upper then Above else Between)
  {
    if !ValidThresholds(lower, upper) then HoldFor(InvalidParams)
    else
      CrossesExclusive(prev, latest, lower, upper);
      Gated(pos, BuyCondition(prev, latest, lower), SellCondition(prev, latest, upper),
            if latest < lower then Below else if latest > upper then Above else Between)
  }

  predicate HasColumns(t: Table, p: Params)
    reads t
  {
    CciCol(p) in t.columns
  }

  predicate Ready(t: Table, p: Params)
    requires t.Valid()
    reads t
  {
    HasColumns(t, p) && t.rows >= 2 && LastTwoPresent(t.columns[CciCol(p)])
  }

  /** `run_strategy`: the data guards come before the threshold check. */
  function RunStrategy(t: Table, p: Params, position: Option<string>): (d: Decision)
    requires t.Valid()
    reads t
    ensures !HasColumns(t, p) ==> d == HoldFor(ColumnsMissing)
    ensures HasColumns(t, p) && t.rows < 2 ==> d == HoldFor(TooFewRows)
    ensures HasColumns(t, p) && t.rows >= 2 && !Ready(t, p) ==> d == HoldFor(ValuesMissing)
    ensures d.signal != Hold ==> Ready(t, p) && ValidThresholds(LowerThreshold(p), UpperThreshold(p))
    ensures Ready(t, p) ==>
              var cci := t.columns[CciCol(p)];
              d == Decide(Previous(cci).value, Latest(cci).value,
                          LowerThreshold(p), UpperThreshold(p), PositionOf(position))
  {
    if !HasColumns(t, p) then HoldFor(ColumnsMissing)
    else if t.rows < 2 then HoldFor(TooFewRows)
    else if !Ready(t, p) then HoldFor(ValuesMissing)
    else
      var cci := t.columns[CciCol(p)];
      Decide(Previous(cci).value, Latest(cci).value, LowerThreshold(p), UpperThreshold(p), PositionOf(position))
  }

  /** Only the last two CCI values are consulted. */
  lemma LastTwoRowsOnly(t1: Table, t2: Table, p: Params, position: Option<string>)
    requires t1.Valid() && t2.Valid()
    requires SameWindow(t1, t2, {CciCol(p)}, 2)
    ensures RunStrategy(t1, p, position) == RunStrategy(t2, p, position)
  {
    if HasColumns(t1, p) && t1.rows >= 2 {
      WindowValues(t1, t2, {CciCol(p)}, 2, CciCol(p));
    }
  }

  /** `get_chart_overlay_data`: the CCI line, given a datetime index. */
  function ChartOverlay(t: Table, p: Params): (chart: Chart)
    requires t.Valid()
    reads t
    ensures chart.Keys <= {"cci_line"}
    ensures "cci_line" in chart <==> HasTimeRef(t, false) && CciCol(p) in t.columns
    ensures "cci_line" in chart ==> chart["cci_line"] == Line(t, CciCol(p))
  {
    if HasTimeRef(t, false) && CciCol(p) in t.columns then map["cci_line" := Line(t, CciCol(p))]
    else map[]
  }
}
