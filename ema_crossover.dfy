/** Simple EMA crossover: BUY when the fast EMA crosses above the slow EMA,
    SELL when it crosses below. No exits; the position is ignored. */
module EmaCrossover {
  import opened Base
  import opened Signals
  import opened Overlays

  /** The periods the attachment step uses (with defaults). */
  function AttachFastPeriod(p: Params): real { Get(p, "ema_fast_period", 9.0) }
  function AttachSlowPeriod(p: Params): real { Get(p, "ema_slow_period", 21.0) }

  function AttachFastCol(p: Params): ColKey { Ind("EMA", [Some(AttachFastPeriod(p))]) }
  function AttachSlowCol(p: Params): ColKey { Ind("EMA", [Some(AttachSlowPeriod(p))]) }

  /** The labels the rule and the overlay read (periods without defaults). */
  function FastCol(p: Params): ColKey { Ind("EMA", [GetOpt(p, "ema_fast_period")]) }
  function SlowCol(p: Params): ColKey { Ind("EMA", [GetOpt(p, "ema_slow_period")]) }

  /** `calculate_strategy_indicators`: both library calls are parameters and
      run before any column is written; neither is guarded; a None result
      writes nothing. */
  method CalculateIndicators(t: Table, p: Params, fast: SeriesCall, slow: SeriesCall) returns (c: Completion)
    requires t.Valid() && SeriesAligned(fast, t.rows) && SeriesAligned(slow, t.rows)
    modifies t
    ensures t.Valid()
    ensures Close !in old(t.columns) ==> t.columns == old(t.columns) && c == Done
    ensures Close in old(t.columns) && (fast.SeriesRaises? || slow.SeriesRaises?) ==>
              t.columns == old(t.columns) && c == Raised
    ensures Close in old(t.columns) && !fast.SeriesRaises? && !slow.SeriesRaises? ==>
              c == Done &&
              t.columns == (var afterFast := if fast.SeriesOf? then old(t.columns)[AttachFastCol(p) := fast.values]
                                             else old(t.columns);
                            if slow.SeriesOf? then afterFast[AttachSlowCol(p) := slow.values] else afterFast)
  {
    c := Done;
    if Close !in t.columns {
      return;
    }
    if fast.SeriesRaises? || slow.SeriesRaises? {
      return Raised;
    }
    if fast.SeriesOf? {
      t.Set(AttachFastCol(p), fast.values);
    }
    if slow.SeriesOf? {
      t.Set(AttachSlowCol(p), slow.values);
    }
  }

  /** The crossover rule; the HOLD reason keeps its initial value when the
      two EMAs are equal. */
  function Decide(prevFast: real, prevSlow: real, fast: real, slow: real): (d: Decision)
    ensures d.signal == Buy <==> CrossAbove(prevFast, prevSlow, fast, slow)
    ensures d.signal == Sell <==> CrossBelow(prevFast, prevSlow, fast, slow)
    ensures d.signal in {Hold, Buy, Sell}
    ensures d.signal != Hold ==> d.reason == Fired
    ensures d.signal == Hold ==>
              d.reason == (if fast > slow then Context(Above) else if fast < slow then Context(Below) else Initial)
    ensures d.bias == None
  {
    CrossesExclusive(prevFast, prevSlow, fast, slow);
    if CrossAbove(prevFast, prevSlow, fast, slow) then Decision(Buy, Fired, None)
    else if CrossBelow(prevFast, prevSlow, fast, slow) then Decision(Sell, Fired, None)
    else if fast > slow then HoldFor(Context(Above))
    else if fast < slow then HoldFor(Context(Below))
    else HoldFor(Initial)
  }

  predicate Ready(t: Table, p: Params)
    requires t.Valid()
    reads t
  {
    FastCol(p) in t.columns && SlowCol(p) in t.columns && t.rows >= 2 &&
    LastTwoPresent(t.columns[FastCol(p)]) && LastTwoPresent(t.columns[SlowCol(p)])
  }

  /** `run_strategy`: one combined data guard; `position` is ignored. */
  function RunStrategy(t: Table, p: Params, position: Option<string>): (d: Decision)
    requires t.Valid()
    reads t
    ensures !Ready(t, p) ==> d == HoldFor(DataIncomplete)
    ensures d.signal != CloseLong && d.signal != CloseShort
    ensures Ready(t, p) ==>
              var f, s := t.columns[FastCol(p)], t.columns[SlowCol(p)];
              d == Decide(Previous(f).value, Previous(s).value, Latest(f).value, Latest(s).value)
  {
    if !Ready(t, p) then HoldFor(DataIncomplete)
    else
      var f, s := t.columns[FastCol(p)], t.columns[SlowCol(p)];
      Decide(Previous(f).value, Previous(s).value, Latest(f).value, Latest(s).value)
  }

  /** The decision is the same whatever position the caller reports. */
  lemma PositionIgnored(t: Table, p: Params, a: Option<string>, b: Option<string>)
    requires t.Valid()
    ensures RunStrategy(t, p, a) == RunStrategy(t, p, b)
  {
  }

  /** The rule reads the labels the attachment writes exactly when both
      periods are given; with a period omitted, and no label spelled with
      `None` in the table, the rule reports incomplete data. */
  lemma DefaultMismatch(t: Table, p: Params, position: Option<string>)
    requires t.Valid()
    ensures "ema_fast_period" in p ==> FastCol(p) == AttachFastCol(p)
    ensures "ema_slow_period" in p ==> SlowCol(p) == AttachSlowCol(p)
    ensures "ema_fast_period" !in p ==> FastCol(p) != AttachFastCol(p)
    ensures "ema_slow_period" !in p ==> SlowCol(p) != AttachSlowCol(p)
    ensures ("ema_fast_period" !in p || "ema_slow_period" !in p) &&
            (forall k :: k in t.columns && k.Ind? ==> None !in k.args) ==>
              RunStrategy(t, p, position) == HoldFor(DataIncomplete)
  {
    assert "ema_fast_period" !in p ==> None in FastCol(p).args;
    assert "ema_slow_period" !in p ==> None in SlowCol(p).args;
  }

  /** Only the last two rows of both EMAs are consulted. */
  lemma LastTwoRowsOnly(t1: Table, t2: Table, p: Params, position: Option<string>)
    requires t1.Valid() && t2.Valid()
    requires SameWindow(t1, t2, {FastCol(p), SlowCol(p)}, 2)
    ensures RunStrategy(t1, p, position) == RunStrategy(t2, p, position)
  {
    if FastCol(p) in t1.columns && SlowCol(p) in t1.columns && t1.rows >= 2 {
      WindowValues(t1, t2, {FastCol(p), SlowCol(p)}, 2, FastCol(p));
      WindowValues(t1, t2, {FastCol(p), SlowCol(p)}, 2, SlowCol(p));
    }
  }

  /** `get_chart_overlay_data`: both EMA lines, with the `timestamp` fallback;
      each is emitted whenever its column exists. */
  function ChartOverlay(t: Table, p: Params): (chart: Chart)
    requires t.Valid()
    reads t
    ensures chart.Keys <= {"ema_fast", "ema_slow"}
    ensures "ema_fast" in chart <==> HasTimeRef(t, true) && FastCol(p) in t.columns
    ensures "ema_slow" in chart <==> HasTimeRef(t, true) && SlowCol(p) in t.columns
    ensures "ema_fast" in chart ==> chart["ema_fast"] == Line(t, FastCol(p))
    ensures "ema_slow" in chart ==> chart["ema_slow"] == Line(t, SlowCol(p))
  {
    if !HasTimeRef(t, true) then map[]
    else
      (if FastCol(p) in t.columns then map["ema_fast" := Line(t, FastCol(p))] else map[]) +
      (if SlowCol(p) in t.columns then map["ema_slow" := Line(t, SlowCol(p))] else map[])
  }
}
