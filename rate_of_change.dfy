/** Rate of Change threshold breakout: a level test on the latest ROC value
    against a symmetric band of plus or minus the threshold. */
module RateOfChange {
  import opened Base
  import opened Signals
  import opened Overlays

  function Length(p: Params): real { Get(p, "roc_length", 12.0) }
  function Threshold(p: Params): real { Get(p, "roc_threshold_percent", 0.5) }

  function RocCol(p: Params): ColKey { Ind("ROC", [Some(Length(p))]) }

  /** `calculate_strategy_indicators`: the library call is a parameter and is
      not guarded; a None result fills the column with missing values. */
  method CalculateIndicators(t: Table, p: Params, roc: SeriesCall) returns (c: Completion)
    requires t.Valid() && SeriesAligned(roc, t.rows)
    modifies t
    ensures t.Valid()
    ensures Close !in old(t.columns) ==> t.columns == old(t.columns) && c == Done
    ensures Close in old(t.columns) && roc.SeriesRaises? ==> t.columns == old(t.columns) && c == Raised
    ensures Close in old(t.columns) && !roc.SeriesRaises? ==>
              c == Done &&
              t.columns == old(t.columns)[RocCol(p) := if roc.SeriesOf? then roc.values else MissingColumn(t.rows)]
  {
    c := Done;
    if Close !in t.columns {
      return;
    }
    if roc.SeriesRaises? {
      return Raised;
    }
    if roc.SeriesOf? {
      t.Set(RocCol(p), roc.values);
    } else {
      t.FillMissing(RocCol(p));
    }
  }

  /** The level rule on the latest ROC value; a threshold that is not
      positive is rejected. */
  function Decide(latest: real, threshold: real, pos: Position): (d: Decision)
    ensures !(threshold > 0.0) ==> d == HoldFor(InvalidParams)
    ensures d.signal == Buy <==> threshold > 0.0 && pos == NoPosition && latest > threshold
    ensures d.signal == Sell <==> threshold > 0.0 && pos == NoPosition && latest < -threshold
    ensures d.signal == CloseLong <==> threshold > 0.0 && pos == Long && latest < -threshold
    ensures d.signal == CloseShort <==> threshold > 0.0 && pos == Short && latest > threshold
    ensures d.signal != Hold ==> d.reason == Fired
    ensures threshold > 0.0 && d.signal == Hold ==>
              d.reason == Context(if latest > threshold then Above else if latest < -threshold then Below else Between)
  {
    if !(threshold > 0.0) then HoldFor(InvalidParams)
    else
      Gated(pos, latest > threshold, latest < -threshold,
            if latest > threshold then Above else if latest < -threshold then Below else Between)
  }

  /** With a positive threshold the two levels cannot both be passed; with a
      negative one a zero ROC passes both, and the threshold check turns
      that case into a HOLD. */
  lemma LevelsExclusive(latest: real, threshold: real, pos: Position)
    ensures threshold > 0.0 ==> !(latest > threshold && latest < -threshold)
    ensures threshold < 0.0 ==> 0.0 > threshold && 0.0 < -threshold
    ensures threshold < 0.0 ==> Decide(0.0, threshold, pos) == HoldFor(InvalidParams)
  {
  }

  predicate HasColumns(t: Table, p: Params)
    reads t
  {
    RocCol(p) in t.columns
  }

  predicate Ready(t: Table, p: Params)
    requires t.Valid()
    reads t
  {
    HasColumns(t, p) && t.rows >= 1 && Latest(t.columns[RocCol(p)]).Some?
  }

  /** `run_strategy`: the data guards come before the threshold check. */
  function RunStrategy(t: Table, p: Params, position: Option<string>): (d: Decision)
    requires t.Valid()
    reads t
    ensures !HasColumns(t, p) ==> d == HoldFor(ColumnsMissing)
    ensures HasColumns(t, p) && t.rows < 1 ==> d == HoldFor(TooFewRows)
    ensures HasColumns(t, p) && t.rows >= 1 && !Ready(t, p) ==> d == HoldFor(ValuesMissing)
    ensures d.signal != Hold ==> Ready(t, p) && Threshold(p) > 0.0
    ensures Ready(t, p) ==>
              d == Decide(Latest(t.columns[RocCol(p)]).value, Threshold(p), PositionOf(position))
  {
    if !HasColumns(t, p) then HoldFor(ColumnsMissing)
    else if t.rows < 1 then HoldFor(TooFewRows)
    else if !Ready(t, p) then HoldFor(ValuesMissing)
    else Decide(Latest(t.columns[RocCol(p)]).value, Threshold(p), PositionOf(position))
  }

  /** A level test, not a crossover: only the latest ROC value is consulted. */
  lemma LatestRowOnly(t1: Table, t2: Table, p: Params, position: Option<string>)
    requires t1.Valid() && t2.Valid()
    requires SameWindow(t1, t2, {RocCol(p)}, 1)
    ensures RunStrategy(t1, p, position) == RunStrategy(t2, p, position)
  {
    if HasColumns(t1, p) && t1.rows >= 1 {
      WindowValues(t1, t2, {RocCol(p)}, 1, RocCol(p));
    }
  }

  /** `get_chart_overlay_data`: the ROC line, with the `timestamp` fallback. */
  function ChartOverlay(t: Table, p: Params): (chart: Chart)
    requires t.Valid()
    reads t
    ensures chart.Keys <= {"roc_line"}
    ensures "roc_line" in chart <==> HasTimeRef(t, true) && RocCol(p) in t.columns
    ensures "roc_line" in chart ==> chart["roc_line"] == Line(t, RocCol(p))
  {
    if HasTimeRef(t, true) && RocCol(p) in t.columns then map["roc_line" := Line(t, RocCol(p))]
    else map[]
  }
}
