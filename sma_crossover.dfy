/** SMA crossover: BUY when the short SMA crosses above the long SMA, SELL
    when it crosses below; exits on the opposite cross. */
module SmaCrossover {
  import opened Base
  import opened Signals
  import opened Overlays

  function ShortPeriod(p: Params): real { Get(p, "short_sma_period", 10.0) }
  function LongPeriod(p: Params): real { Get(p, "long_sma_period", 20.0) }

  function ShortCol(p: Params): ColKey { Ind("SMA", [Some(ShortPeriod(p))]) }
  function LongCol(p: Params): ColKey { Ind("SMA", [Some(LongPeriod(p))]) }

  /** The column written for one SMA call: its series, or missing values when
      the library returns None. */
  function SmaValues(call: SeriesCall, n: nat): Column
  {
    if call.SeriesOf? then call.values else MissingColumn(n)
  }

  /** `calculate_strategy_indicators`: both library calls are parameters and
      run before any column is written; neither is guarded. */
  method CalculateIndicators(t: Table, p: Params, short: SeriesCall, long: SeriesCall) returns (c: Completion)
    requires t.Valid() && SeriesAligned(short, t.rows) && SeriesAligned(long, t.rows)
    modifies t
    ensures t.Valid()
    ensures Close !in old(t.columns) ==> t.columns == old(t.columns) && c == Done
    ensures Close in old(t.columns) && (short.SeriesRaises? || long.SeriesRaises?) ==>
              t.columns == old(t.columns) && c == Raised
    ensures Close in old(t.columns) && !short.SeriesRaises? && !long.SeriesRaises? ==>
              c == Done &&
              t.columns == old(t.columns)[ShortCol(p) := SmaValues(short, t.rows)][LongCol(p) := SmaValues(long, t.rows)]
    ensures Close in old(t.columns) && c == Done ==>
              HasColumns(t, p) && forall position :: RunStrategy(t, p, position).reason != ColumnsMissing
  {
    c := Done;
    if Close !in t.columns {
      return;
    }
    if short.SeriesRaises? || long.SeriesRaises? {
      return Raised;
    }
    if short.SeriesOf? {
      t.Set(ShortCol(p), short.values);
    } else {
      t.FillMissing(ShortCol(p));
    }
    if long.SeriesOf? {
      t.Set(LongCol(p), long.values);
    } else {
      t.FillMissing(LongCol(p));
    }
  }

  /** The crossover rule on the last two values of both SMAs. */
  function Decide(prevShort: real, prevLong: real, short: real, long: real, pos: Position): (d: Decision)
    ensures d.signal == Buy <==> pos == NoPosition && CrossAbove(prevShort, prevLong, short, long)
    ensures d.signal == Sell <==> pos == NoPosition && CrossBelow(prevShort, prevLong, short, long)
    ensures d.signal == CloseLong <==> pos == Long && CrossBelow(prevShort, prevLong, short, long)
    ensures d.signal == CloseShort <==> pos == Short && CrossAbove(prevShort, prevLong, short, long)
    ensures d.signal != Hold ==> d.reason == Fired
    ensures d.signal == Hold ==>
              d.reason == Context(if short > long then Above else if short < long then Below else Equal)
  {
    CrossesExclusive(prevShort, prevLong, short, long);
    Gated(pos, CrossAbove(prevShort, prevLong, short, long), CrossBelow(prevShort, prevLong, short, long),
          if short > long then Above else if short < long then Below else Equal)
  }

  predicate HasColumns(t: Table, p: Params)
    reads t
  {
    ShortCol(p) in t.columns && LongCol(p) in t.columns
  }

  predicate Ready(t: Table, p: Params)
    requires t.Valid()
    reads t
  {
    HasColumns(t, p) && t.rows >= 2 &&
    LastTwoPresent(t.columns[ShortCol(p)]) && LastTwoPresent(t.columns[LongCol(p)])
  }

  /** `run_strategy` */
  function RunStrategy(t: Table, p: Params, position: Option<string>): (d: Decision)
    requires t.Valid()
    reads t
    ensures !HasColumns(t, p) ==> d == HoldFor(ColumnsMissing)
    ensures HasColumns(t, p) && t.rows < 2 ==> d == HoldFor(TooFewRows)
    ensures HasColumns(t, p) && t.rows >= 2 && !Ready(t, p) ==> d == HoldFor(ValuesMissing)
    ensures d.signal != Hold ==> Ready(t, p)
    ensures Ready(t, p) ==>
              var s, l := t.columns[ShortCol(p)], t.columns[LongCol(p)];
              d == Decide(Previous(s).value, Previous(l).value, Latest(s).value, Latest(l).value,
                          PositionOf(position))
  {
    if !HasColumns(t, p) then HoldFor(ColumnsMissing)
    else if t.rows < 2 then HoldFor(TooFewRows)
    else if !Ready(t, p) then HoldFor(ValuesMissing)
    else
      var s, l := t.columns[ShortCol(p)], t.columns[LongCol(p)];
      Decide(Previous(s).value, Previous(l).value, Latest(s).value, Latest(l).value, PositionOf(position))
  }

  /** The worked example: short 19.8 -> 20.3 against long 20.0 -> 20.1 buys
      when flat. */
  lemma CrossUpExample()
    ensures Decide(19.8, 20.0, 20.3, 20.1, NoPosition).signal == Buy
    ensures Decide(19.8, 20.0, 20.3, 20.1, Short).signal == CloseShort
    ensures Decide(19.8, 20.0, 20.3, 20.1, Long) == HoldFor(Context(Above))
  {
  }

  /** Only the last two rows of both SMAs are consulted. */
  lemma LastTwoRowsOnly(t1: Table, t2: Table, p: Params, position: Option<string>)
    requires t1.Valid() && t2.Valid()
    requires SameWindow(t1, t2, {ShortCol(p), LongCol(p)}, 2)
    ensures RunStrategy(t1, p, position) == RunStrategy(t2, p, position)
  {
    if HasColumns(t1, p) && t1.rows >= 2 {
      WindowValues(t1, t2, {ShortCol(p), LongCol(p)}, 2, ShortCol(p));
      WindowValues(t1, t2, {ShortCol(p), LongCol(p)}, 2, LongCol(p));
    }
  }

  /** `get_chart_overlay_data`: both SMA lines, with the `timestamp` fallback. */
  function ChartOverlay(t: Table, p: Params): (chart: Chart)
    requires t.Valid()
    reads t
    ensures chart.Keys <= {"sma_short", "sma_long"}
    ensures "sma_short" in chart <==> HasTimeRef(t, true) && ShortCol(p) in t.columns
    ensures "sma_long" in chart <==> HasTimeRef(t, true) && LongCol(p) in t.columns
    ensures "sma_short" in chart ==> chart["sma_short"] == Line(t, ShortCol(p))
    ensures "sma_long" in chart ==> chart["sma_long"] == Line(t, LongCol(p))
  {
    if !HasTimeRef(t, true) then map[]
    else
      (if ShortCol(p) in t.columns then map["sma_short" := Line(t, ShortCol(p))] else map[]) +
      (if LongCol(p) in t.columns then map["sma_long" := Line(t, LongCol(p))] else map[])
  }
}
