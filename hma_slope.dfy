/** HMA slope trend: BUY on a rising Hull Moving Average, SELL on a falling
    one. The rule reads the slope between two bars, not a crossover. */
module HmaSlope {
  import opened Base
  import opened Signals
  import opened Overlays

  function Length(p: Params): real { Get(p, "hma_length", 20.0) }

  function HmaCol(p: Params): ColKey { Ind("HMA", [Some(Length(p))]) }

  /** `calculate_strategy_indicators`: the library call is a parameter and is
      not guarded; a None or empty result writes nothing. */
  method CalculateIndicators(t: Table, p: Params, hma: SeriesCall) returns (c: Completion)
    requires t.Valid() && SeriesAligned(hma, t.rows)
    modifies t
    ensures t.Valid()
    ensures Close !in old(t.columns) ==> t.columns == old(t.columns) && c == Done
    ensures Close in old(t.columns) && hma.SeriesRaises? ==> t.columns == old(t.columns) && c == Raised
    ensures Close in old(t.columns) && !hma.SeriesRaises? ==>
              c == Done &&
              t.columns == if SeriesUsable(hma) then old(t.columns)[HmaCol(p) := hma.values] else old(t.columns)
  {
    c := Done;
    if Close !in t.columns {
      return;
    }
    if hma.SeriesRaises? {
      return Raised;
    }
    if SeriesUsable(hma) {
      t.Set(HmaCol(p), hma.values);
    }
  }

  /** The slope rule: the buy flag is set on a rising HMA, otherwise the sell
      flag on a falling one. */
  function Decide(prev: real, latest: real, pos: Position): (d: Decision)
    ensures d.signal == Buy <==> pos == NoPosition && latest > prev
    ensures d.signal == Sell <==> pos == NoPosition && latest < prev
    ensures d.signal == CloseLong <==> pos == Long && latest < prev
    ensures d.signal == CloseShort <==> pos == Short && latest > prev
    ensures d.signal != Hold ==> d.reason == Fired
    ensures d.signal == Hold ==>
              d.reason == Context(if latest > prev then Rising else if latest < prev then Falling else Flat)
  {
    var rising := latest > prev;
    var falling := latest < prev;
    var buy := rising;
    var sell := !rising && falling;
    Gated(pos, buy, sell, if rising then Rising else if falling then Falling else Flat)
  }

  /** A flat HMA always holds; with no position any other slope enters. */
  lemma SlopeOutcomes(prev: real, latest: real, pos: Position)
    ensures latest == prev ==> Decide(prev, latest, pos) == HoldFor(Context(Flat))
    ensures latest != prev && pos == NoPosition ==> Decide(prev, latest, pos).signal in {Buy, Sell}
  {
  }

  predicate HasColumns(t: Table, p: Params)
    reads t
  {
    HmaCol(p) in t.columns
  }

  predicate Ready(t: Table, p: Params)
    requires t.Valid()
    reads t
  {
    HasColumns(t, p) && t.rows >= 2 && LastTwoPresent(t.columns[HmaCol(p)])
  }

  /** `run_strategy` */
  function RunStrategy(t: Table, p: Params, position: Option<string>): (d: Decision)
    requires t.Valid()
    reads t
    ensures !HasColumns(t, p) ==> d == HoldFor(ColumnsMissing)
    ensures HasColumns(t, p) && t.rows < 2 ==> d == HoldFor(TooFewRows)
    ensures HasColumns(t, p) && t.rows >= 2 && !Ready(t, p) ==> d == HoldFor(ValuesMissing)
    ensures d.signal != Hold ==> Ready(t, p)
    ensures Ready(t, p) ==>
              var h := t.columns[HmaCol(p)];
              d == Decide(Previous(h).value, Latest(h).value, PositionOf(position))
  {
    if !HasColumns(t, p) then HoldFor(ColumnsMissing)
    else if t.rows < 2 then HoldFor(TooFewRows)
    else if !Ready(t, p) then HoldFor(ValuesMissing)
    else
      var h := t.columns[HmaCol(p)];
      Decide(Previous(h).value, Latest(h).value, PositionOf(position))
  }

  /** Only the last two HMA values are consulted. */
  lemma LastTwoRowsOnly(t1: Table, t2: Table, p: Params, position: Option<string>)
    requires t1.Valid() && t2.Valid()
    requires SameWindow(t1, t2, {HmaCol(p)}, 2)
    ensures RunStrategy(t1, p, position) == RunStrategy(t2, p, position)
  {
    if HasColumns(t1, p) && t1.rows >= 2 {
      WindowValues(t1, t2, {HmaCol(p)}, 2, HmaCol(p));
    }
  }

  /** `get_chart_overlay_data`: the HMA line, given a datetime index. */
  function ChartOverlay(t: Table, p: Params): (chart: Chart)
    requires t.Valid()
    reads t
    ensures chart.Keys <= {"hma_line"}
    ensures "hma_line" in chart <==> HasTimeRef(t, false) && HmaCol(p) in t.columns
    ensures "hma_line" in chart ==> chart["hma_line"] == Line(t, HmaCol(p))
  {
    if HasTimeRef(t, false) && HmaCol(p) in t.columns then map["hma_line" := Line(t, HmaCol(p))]
    else map[]
  }
}
