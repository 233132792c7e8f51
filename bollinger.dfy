/** Bollinger Band mean reversion: BUY at or below the lower band, SELL at or
    above the upper band, and exit signals when the close crosses the middle
    band. The rule never looks at the caller's position. */
module Bollinger {
  import opened Base
  import opened Signals
  import opened Overlays

  function Length(p: Params): real { Get(p, "bbands_length", 20.0) }
  function StdDev(p: Params): real { Get(p, "bbands_std_dev", 2.0) }

  datatype BandNames = BandNames(lower: ColKey, middle: ColKey, upper: ColKey)

  /** `construct_bband_col_names`: the one place the band labels are built,
      shared by the rule and the overlay. */
  function ColNames(p: Params): (r: BandNames)
    ensures r.lower.Ind? && r.middle.Ind? && r.upper.Ind?
    ensures r.lower.kind == "BBL" && r.middle.kind == "BBM" && r.upper.kind == "BBU"
    ensures r.lower.args == r.middle.args == r.upper.args == [Some(Length(p)), Some(StdDev(p))]
  {
    var args := [Some(Length(p)), Some(StdDev(p))];
    BandNames(Ind("BBL", args), Ind("BBM", args), Ind("BBU", args))
  }

  /** The three labels are distinct, differ only in their prefix, and change
      together with the parameters. */
  lemma ColNamesDistinct(p: Params, q: Params)
    ensures var n := ColNames(p);
            n.lower != n.middle && n.middle != n.upper && n.lower != n.upper
    ensures ColNames(p).middle == ColNames(q).middle <==>
              Length(p) == Length(q) && StdDev(p) == StdDev(q)
    ensures ColNames(p).middle == ColNames(q).middle <==> ColNames(p) == ColNames(q)
  {
    var n := ColNames(p);
    assert n.lower.kind != n.middle.kind && n.middle.kind != n.upper.kind && n.lower.kind != n.upper.kind;
    if ColNames(p).middle == ColNames(q).middle {
      assert ColNames(p).middle.args[0] == ColNames(q).middle.args[0];
      assert ColNames(p).middle.args[1] == ColNames(q).middle.args[1];
    }
  }

  /** `calculate_strategy_indicators`: the library call appends its columns;
      its exceptions are swallowed. */
  method CalculateIndicators(t: Table, p: Params, bb: FrameCall) returns (c: Completion)
    requires t.Valid() && FrameAligned(bb, t.rows)
    modifies t
    ensures t.Valid() && c == Done
    ensures Close !in old(t.columns) || !bb.FrameOf? ==> t.columns == old(t.columns)
    ensures Close in old(t.columns) && bb.FrameOf? ==> t.columns == old(t.columns) + bb.produced
  {
    c := Done;
    if Close !in t.columns {
      return;
    }
    if bb.FrameOf? {
      t.Append(bb.produced);
    }
  }

  /** Comparisons with a possibly missing close: NaN compares false. */
  predicate Le(a: Option<real>, b: real) { a.Some? && a.value <= b }
  predicate Ge(a: Option<real>, b: real) { a.Some? && a.value >= b }
  predicate Lt(a: Option<real>, b: real) { a.Some? && a.value < b }
  predicate Gt(a: Option<real>, b: real) { a.Some? && a.value > b }

  /** The prioritised band rule. The close is not checked for missing values,
      so a missing close satisfies no comparison. */
  function Decide(prevClose: Option<real>, close: Option<real>, prevMiddle: real,
                  lower: real, middle: real, upper: real): (d: Decision)
    ensures d.signal == Buy <==> Le(close, lower)
    ensures d.signal == Sell <==> !Le(close, lower) && Ge(close, upper)
    ensures d.signal == CloseLong <==>
              !Le(close, lower) && !Ge(close, upper) && Le(prevClose, prevMiddle) && Gt(close, middle)
    ensures d.signal == CloseShort <==>
              !Le(close, lower) && !Ge(close, upper) && !(Le(prevClose, prevMiddle) && Gt(close, middle)) &&
              Ge(prevClose, prevMiddle) && Lt(close, middle)
    ensures d.signal != Hold ==> d.reason == Fired && d.bias == None
    ensures d.signal == Hold ==>
              if Gt(close, middle) then d.reason == Context(Above) && d.bias == Some(BullishBias)
              else d.reason == Context(Below) && d.bias == Some(BearishBias)
  {
    if Le(close, lower) then Decision(Buy, Fired, None)
    else if Ge(close, upper) then Decision(Sell, Fired, None)
    else if Le(prevClose, prevMiddle) && Gt(close, middle) then Decision(CloseLong, Fired, None)
    else if Ge(prevClose, prevMiddle) && Lt(close, middle) then Decision(CloseShort, Fired, None)
    else if Gt(close, middle) then Decision(Hold, Context(Above), Some(BullishBias))
    else Decision(Hold, Context(Below), Some(BearishBias))
  }

  /** A missing latest close fires nothing and holds with a bearish bias. */
  lemma MissingCloseHoldsBearish(prevClose: Option<real>, prevMiddle: real, lower: real, middle: real, upper: real)
    ensures Decide(prevClose, None, prevMiddle, lower, middle, upper) == Decision(Hold, Context(Below), Some(BearishBias))
  {
  }

  predicate HasColumns(t: Table, p: Params)
    reads t
  {
    var n := ColNames(p);
    n.lower in t.columns && n.middle in t.columns && n.upper in t.columns && Close in t.columns
  }

  /** The combined data guard: two rows, the last two middle values, and the
      latest lower and upper values. */
  predicate Ready(t: Table, p: Params)
    requires t.Valid()
    reads t
  {
    var n := ColNames(p);
    HasColumns(t, p) && t.rows >= 2 && LastTwoPresent(t.columns[n.middle]) &&
    Latest(t.columns[n.lower]).Some? && Latest(t.columns[n.upper]).Some?
  }

  /** `run_strategy`: `position` is accepted and ignored. */
  function RunStrategy(t: Table, p: Params, position: Option<string>): (d: Decision)
    requires t.Valid()
    reads t
    ensures !HasColumns(t, p) ==> d == HoldFor(ColumnsMissing)
    ensures HasColumns(t, p) && !Ready(t, p) ==> d == HoldFor(DataIncomplete)
    ensures d.bias.Some? <==> Ready(t, p) && d.signal == Hold
    ensures Ready(t, p) ==>
              var n := ColNames(p);
              var close := t.columns[Close];
              d == Decide(Previous(close), Latest(close), Previous(t.columns[n.middle]).value,
                          Latest(t.columns[n.lower]).value, Latest(t.columns[n.middle]).value,
                          Latest(t.columns[n.upper]).value)
  {
    var n := ColNames(p);
    if !HasColumns(t, p) then HoldFor(ColumnsMissing)
    else if !Ready(t, p) then HoldFor(DataIncomplete)
    else
      var close := t.columns[Close];
      Decide(Previous(close), Latest(close), Previous(t.columns[n.middle]).value,
             Latest(t.columns[n.lower]).value, Latest(t.columns[n.middle]).value,
             Latest(t.columns[n.upper]).value)
  }

  /** The decision is the same whatever position the caller reports. */
  lemma PositionIgnored(t: Table, p: Params, a: Option<string>, b: Option<string>)
    requires t.Valid()
    ensures RunStrategy(t, p, a) == RunStrategy(t, p, b)
  {
  }

  /** Only the last two rows of the bands and the close are consulted. */
  lemma LastTwoRowsOnly(t1: Table, t2: Table, p: Params, position: Option<string>)
    requires t1.Valid() && t2.Valid()
    requires var n := ColNames(p); SameWindow(t1, t2, {n.lower, n.middle, n.upper, Close}, 2)
    ensures RunStrategy(t1, p, position) == RunStrategy(t2, p, position)
  {
    var n := ColNames(p);
    var keys := {n.lower, n.middle, n.upper, Close};
    if HasColumns(t1, p) && t1.rows >= 2 {
      WindowValues(t1, t2, keys, 2, n.lower);
      WindowValues(t1, t2, keys, 2, n.middle);
      WindowValues(t1, t2, keys, 2, n.upper);
      WindowValues(t1, t2, keys, 2, Close);
    }
  }

  /** `get_chart_overlay_data`: lower, middle and upper lines, each emitted
      only when its column has a present value. */
  method ChartOverlay(t: Table, p: Params) returns (chart: Chart)
    requires t.Valid()
    ensures !HasTimeRef(t, true) ==> chart == map[]
    ensures HasTimeRef(t, true) ==>
              chart.Keys <= {"bband_lower", "bband_middle", "bband_upper"} &&
              ("bband_lower" in chart <==> Emits(t, ColNames(p).lower, true)) &&
              ("bband_middle" in chart <==> Emits(t, ColNames(p).middle, true)) &&
              ("bband_upper" in chart <==> Emits(t, ColNames(p).upper, true))
    ensures "bband_lower" in chart ==> chart["bband_lower"] == Line(t, ColNames(p).lower)
    ensures "bband_middle" in chart ==> chart["bband_middle"] == Line(t, ColNames(p).middle)
    ensures "bband_upper" in chart ==> chart["bband_upper"] == Line(t, ColNames(p).upper)
  {
    if !HasTimeRef(t, true) {
      return map[];
    }
    var n := ColNames(p);
    var pairs := [(n.lower, "bband_lower"), (n.middle, "bband_middle"), (n.upper, "bband_upper")];
    chart := CollectLines(t, pairs, true);
    ChartOfSpec(t, pairs, true);
    assert pairs[0].1 == "bband_lower" && pairs[1].1 == "bband_middle" && pairs[2].1 == "bband_upper";
  }
}
