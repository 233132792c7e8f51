/** Donchian channel breakout: BUY when the close breaks above the upper
    channel, SELL when it breaks below the lower one. The position is ignored. */
module Donchian {
  import opened Base
  import opened Signals
  import opened Overlays

  /** The lengths the attachment step uses (with defaults). */
  function AttachUpperLength(p: Params): real { Get(p, "donchian_upper_length", 20.0) }
  function AttachLowerLength(p: Params): real { Get(p, "donchian_lower_length", 20.0) }

  /** The lengths the rule and the overlay use (without defaults). */
  function UpperLength(p: Params): Option<real> { GetOpt(p, "donchian_upper_length") }
  function LowerLength(p: Params): Option<real> { GetOpt(p, "donchian_lower_length") }

  /** The labels written when the library fails: `DCU_{upper}`, `DCL_{lower}`. */
  function AttachUpperCol(p: Params): ColKey { Ind("DCU", [Some(AttachUpperLength(p))]) }
  function AttachLowerCol(p: Params): ColKey { Ind("DCL", [Some(AttachLowerLength(p))]) }

  /** The labels the rule reads. */
  function UpperCol(p: Params): ColKey { Ind("DCU", [UpperLength(p)]) }
  function LowerCol(p: Params): ColKey { Ind("DCL", [LowerLength(p)]) }

  /** The middle label the overlay reads: it starts with the lower length,
      ends with the upper one, and names a shared length only once. */
  function MiddleCol(p: Params): (k: ColKey)
    ensures k.Ind? && k.kind == "DCM" && 1 <= |k.args| <= 2
    ensures k.args[0] == LowerLength(p) && k.args[|k.args| - 1] == UpperLength(p)
    ensures |k.args| == 1 <==> LowerLength(p) == UpperLength(p)
  {
    if LowerLength(p) != UpperLength(p) then Ind("DCM", [LowerLength(p), UpperLength(p)])
    else Ind("DCM", [LowerLength(p)])
  }

  /** Different length settings give different middle labels, and the middle
      label is never the upper or the lower one. */
  lemma MiddleColDistinct(p: Params, q: Params)
    ensures MiddleCol(p) == MiddleCol(q) <==> LowerLength(p) == LowerLength(q) && UpperLength(p) == UpperLength(q)
    ensures MiddleCol(p) != UpperCol(p) && MiddleCol(p) != LowerCol(p)
  {
  }

  /** `calculate_strategy_indicators`: the library call appends its columns;
      when it raises, the upper and lower labels are filled with missing values. */
  method CalculateIndicators(t: Table, p: Params, dc: FrameCall) returns (c: Completion)
    requires t.Valid() && FrameAligned(dc, t.rows)
    modifies t
    ensures t.Valid() && c == Done
    ensures !(High in old(t.columns) && Low in old(t.columns)) ==> t.columns == old(t.columns)
    ensures High in old(t.columns) && Low in old(t.columns) && dc.FrameRaises? ==>
              t.columns == old(t.columns)[AttachUpperCol(p) := MissingColumn(t.rows)]
                                         [AttachLowerCol(p) := MissingColumn(t.rows)]
    ensures High in old(t.columns) && Low in old(t.columns) && !dc.FrameRaises? ==>
              t.columns == old(t.columns) + (if dc.FrameOf? then dc.produced else map[])
  {
    c := Done;
    if !(High in t.columns && Low in t.columns) {
      return;
    }
    if dc.FrameRaises? {
      t.FillMissing(AttachUpperCol(p));
      t.FillMissing(AttachLowerCol(p));
      return;
    }
    if dc.FrameOf? {
      t.Append(dc.produced);
    }
  }

  /** The breakout rule on the latest close and channel values. */
  function Decide(close: real, upper: real, lower: real): (d: Decision)
    ensures d.signal == Buy <==> close > upper
    ensures d.signal == Sell <==> close <= upper && close < lower
    ensures d.signal in {Hold, Buy, Sell}
    ensures d.signal != Hold ==> d.reason == Fired
    ensures d.signal == Hold ==> d.reason == Context(Within)
    ensures d.bias == None
  {
    if close > upper then Decision(Buy, Fired, None)
    else if close < lower then Decision(Sell, Fired, None)
    else HoldFor(Context(Within))
  }

  predicate HasColumns(t: Table, p: Params)
    reads t
  {
    UpperCol(p) in t.columns && LowerCol(p) in t.columns && Close in t.columns
  }

  predicate Ready(t: Table, p: Params)
    requires t.Valid()
    reads t
  {
    HasColumns(t, p) && t.rows >= 1 &&
    Latest(t.columns[UpperCol(p)]).Some? && Latest(t.columns[LowerCol(p)]).Some? &&
    Latest(t.columns[Close]).Some?
  }

  /** `run_strategy`: one combined data guard; `position` is ignored. */
  function RunStrategy(t: Table, p: Params, position: Option<string>): (d: Decision)
    requires t.Valid()
    reads t
    ensures !Ready(t, p) ==> d == HoldFor(DataIncomplete)
    ensures d.signal in {Hold, Buy, Sell}
    ensures Ready(t, p) ==>
              d == Decide(Latest(t.columns[Close]).value, Latest(t.columns[UpperCol(p)]).value,
                          Latest(t.columns[LowerCol(p)]).value)
  {
    if !Ready(t, p) then HoldFor(DataIncomplete)
    else Decide(Latest(t.columns[Close]).value, Latest(t.columns[UpperCol(p)]).value,
                Latest(t.columns[LowerCol(p)]).value)
  }

  /** The decision is the same whatever position the caller reports. */
  lemma PositionIgnored(t: Table, p: Params, a: Option<string>, b: Option<string>)
    requires t.Valid()
    ensures RunStrategy(t, p, a) == RunStrategy(t, p, b)
  {
  }

  /** The rule reads the labels the attachment writes exactly when both
      lengths are given; with a length omitted, and no label spelled with
      `None` in the table, the rule reports incomplete data. */
  lemma DefaultMismatch(t: Table, p: Params, position: Option<string>)
    requires t.Valid()
    ensures "donchian_upper_length" in p ==> UpperCol(p) == AttachUpperCol(p)
    ensures "donchian_lower_length" in p ==> LowerCol(p) == AttachLowerCol(p)
    ensures "donchian_upper_length" !in p ==> UpperCol(p) != AttachUpperCol(p)
    ensures "donchian_lower_length" !in p ==> LowerCol(p) != AttachLowerCol(p)
    ensures ("donchian_upper_length" !in p || "donchian_lower_length" !in p) &&
            (forall k :: k in t.columns && k.Ind? ==> None !in k.args) ==>
              RunStrategy(t, p, position) == HoldFor(DataIncomplete)
  {
    assert "donchian_upper_length" !in p ==> None in UpperCol(p).args;
    assert "donchian_lower_length" !in p ==> None in LowerCol(p).args;
  }

  /** Concrete breakouts above, below and inside a 95-104 channel. */
  lemma BreakoutExample()
    ensures Decide(105.0, 104.0, 95.0).signal == Buy
    ensures Decide(94.0, 104.0, 95.0).signal == Sell
    ensures Decide(100.0, 104.0, 95.0) == HoldFor(Context(Within))
  {
  }

  /** Only the latest row is consulted. */
  lemma LatestRowOnly(t1: Table, t2: Table, p: Params, position: Option<string>)
    requires t1.Valid() && t2.Valid()
    requires SameWindow(t1, t2, {UpperCol(p), LowerCol(p), Close}, 1)
    ensures RunStrategy(t1, p, position) == RunStrategy(t2, p, position)
  {
    var keys := {UpperCol(p), LowerCol(p), Close};
    if HasColumns(t1, p) && t1.rows >= 1 {
      WindowValues(t1, t2, keys, 1, UpperCol(p));
      WindowValues(t1, t2, keys, 1, LowerCol(p));
      WindowValues(t1, t2, keys, 1, Close);
    }
  }

  /** `get_chart_overlay_data`: upper, middle and lower lines with the
      `timestamp` fallback, each emitted only when it has a present value. */
  method ChartOverlay(t: Table, p: Params) returns (chart: Chart)
    requires t.Valid()
    ensures !HasTimeRef(t, true) ==> chart == map[]
    ensures HasTimeRef(t, true) ==>
              chart.Keys <= {"donchian_upper", "donchian_middle", "donchian_lower"} &&
              ("donchian_upper" in chart <==> Emits(t, UpperCol(p), true)) &&
              ("donchian_middle" in chart <==> Emits(t, MiddleCol(p), true)) &&
              ("donchian_lower" in chart <==> Emits(t, LowerCol(p), true))
    ensures "donchian_upper" in chart ==> chart["donchian_upper"] == Line(t, UpperCol(p))
    ensures "donchian_middle" in chart ==> chart["donchian_middle"] == Line(t, MiddleCol(p))
    ensures "donchian_lower" in chart ==> chart["donchian_lower"] == Line(t, LowerCol(p))
  {
    if !HasTimeRef(t, true) {
      return map[];
    }
    var pairs := [(UpperCol(p), "donchian_upper"), (MiddleCol(p), "donchian_middle"), (LowerCol(p), "donchian_lower")];
    chart := CollectLines(t, pairs, true);
    ChartOfSpec(t, pairs, true);
    assert pairs[0].1 == "donchian_upper" && pairs[1].1 == "donchian_middle" && pairs[2].1 == "donchian_lower";
  }
}
