/** Awesome Oscillator zero cross: BUY when AO crosses above zero, SELL when
    it crosses below. */
module AwesomeOscillator {
  import opened Base
  import opened Signals
  import opened Overlays

  function FastLength(p: Params): real { Get(p, "ao_fast_length", 5.0) }
  function SlowLength(p: Params): real { Get(p, "ao_slow_length", 34.0) }

  function AoCol(p: Params): ColKey { Ind("AO", [Some(FastLength(p)), Some(SlowLength(p))]) }

  /** `calculate_strategy_indicators`: the library call is a parameter and is
      not guarded; a None or empty result fills the column with missing values. */
  method CalculateIndicators(t: Table, p: Params, ao: SeriesCall) returns (c: Completion)
    requires t.Valid() && SeriesAligned(ao, t.rows)
    modifies t
    ensures t.Valid()
    ensures !(High in old(t.columns) && Low in old(t.columns)) ==> t.columns == old(t.columns) && c == Done
    ensures High in old(t.columns) && Low in old(t.columns) && ao.SeriesRaises? ==>
              t.columns == old(t.columns) && c == Raised
    ensures High in old(t.columns) && Low in old(t.columns) && !ao.SeriesRaises? ==>
              c == Done &&
              t.columns == old(t.columns)[AoCol(p) := if SeriesUsable(ao) then ao.values else MissingColumn(t.rows)]
  {
    c := Done;
    if !(High in t.columns && Low in t.columns) {
      return;
    }
    if ao.SeriesRaises? {
      return Raised;
    }
    if SeriesUsable(ao) {
      t.Set(AoCol(p), ao.values);
    } else {
      t.FillMissing(AoCol(p));
    }
  }

  predicate BuyCondition(prev: real, latest: real) { prev <= 0.0 && latest > 0.0 }
  predicate SellCondition(prev: real, latest: real) { prev >= 0.0 && latest < 0.0 }

  /** The zero-line rule on the last two AO values. */
  function Decide(prev: real, latest: real, pos: Position): (d: Decision)
    ensures d.signal == Buy <==> pos == NoPosition && BuyCondition(prev, latest)
    ensures d.signal == Sell <==> pos == NoPosition && SellCondition(prev, latest)
    ensures d.signal == CloseLong <==> pos == Long && SellCondition(prev, latest)
    ensures d.signal == CloseShort <==> pos == Short && BuyCondition(prev, latest)
    ensures d.signal != Hold ==> d.reason == Fired
    ensures d.signal == Hold ==>
              d.reason == Context(if latest > 0.0 then Above else if latest < 0.0 then Below else Equal)
  {
    CrossesExclusive(prev, 0.0, latest, 0.0);
    Gated(pos, BuyCondition(prev, latest), SellCondition(prev, latest),
          if latest > 0.0 then Above else if latest < 0.0 then Below else Equal)
  }

  /** Staying at zero holds and reports the at-zero context. */
  lemma AtZeroHolds(pos: Position)
    ensures Decide(0.0, 0.0, pos) == HoldFor(Context(Equal))
  {
  }

  predicate HasColumns(t: Table, p: Params)
    reads t
  {
    AoCol(p) in t.columns
  }

  predicate Ready(t: Table, p: Params)
    requires t.Valid()
    reads t
  {
    HasColumns(t, p) && t.rows >= 2 && LastTwoPresent(t.columns[AoCol(p)])
  }

  /** `run_strategy` */
  function RunStrategy(t: Table, p: Params, position: Option<string>): (d: Decision)
    requires t.Valid()
    reads t
    ensures !HasColumns(t, p) ==> d == HoldFor(ColumnsMissing)
    ensures HasColumns(t, p) && t.rows < 2 ==> d == HoldFor(TooFewRows)
    ensures HasColumns(t, p) && t.rows >= 2 && !Ready(t, p) ==> d == HoldFor(ValuesMissing)
    ensures d.signal != Hold ==> Ready(t, p)
    ensures Ready(t, p) ==>
              var ao := t.columns[AoCol(p)];
              d == Decide(Previous(ao).value, Latest(ao).value, PositionOf(position))
  {
    if !HasColumns(t, p) then HoldFor(ColumnsMissing)
    else if t.rows < 2 then HoldFor(TooFewRows)
    else if !Ready(t, p) then HoldFor(ValuesMissing)
    else
      var ao := t.columns[AoCol(p)];
      Decide(Previous(ao).value, Latest(ao).value, PositionOf(position))
  }

  /** Only the last two AO values are consulted. */
  lemma LastTwoRowsOnly(t1: Table, t2: Table, p: Params, position: Option<string>)
    requires t1.Valid() && t2.Valid()
    requires SameWindow(t1, t2, {AoCol(p)}, 2)
    ensures RunStrategy(t1, p, position) == RunStrategy(t2, p, position)
  {
    if HasColumns(t1, p) && t1.rows >= 2 {
      WindowValues(t1, t2, {AoCol(p)}, 2, AoCol(p));
    }
  }

  /** `get_chart_overlay_data`: the AO line, with the `timestamp` fallback. */
  function ChartOverlay(t: Table, p: Params): (chart: Chart)
    requires t.Valid()
    reads t
    ensures chart.Keys <= {"ao_line"}
    ensures "ao_line" in chart <==> HasTimeRef(t, true) && AoCol(p) in t.columns
    ensures "ao_line" in chart ==> chart["ao_line"] == Line(t, AoCol(p))
  {
    if HasTimeRef(t, true) && AoCol(p) in t.columns then map["ao_line" := Line(t, AoCol(p))]
    else map[]
  }
}
