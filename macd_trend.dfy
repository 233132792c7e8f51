/** MACD trend crossover: BUY when the MACD line crosses above its signal
    line, SELL when it crosses below. No exits; the position is ignored. */
module MacdTrend {
  import opened Base
  import opened Signals
  import opened Overlays

  /** The periods are read without defaults: an absent one is `None` and is
      spelled `None` in every label. */
  function Periods(p: Params): seq<Option<real>>
  {
    [GetOpt(p, "macd_fast_period"), GetOpt(p, "macd_slow_period"), GetOpt(p, "macd_signal_period")]
  }

  function MacdCol(p: Params): ColKey { Ind("MACD", Periods(p)) }
  function HistCol(p: Params): ColKey { Ind("MACDh", Periods(p)) }
  function SignalCol(p: Params): ColKey { Ind("MACDs", Periods(p)) }

  /** `calculate_strategy_indicators`: the library call is a parameter and is
      not guarded; the three labels are copied in order and the first one
      missing from the output raises `KeyError`. */
  method CalculateIndicators(t: Table, p: Params, macd: FrameCall) returns (c: Completion)
    requires t.Valid() && FrameAligned(macd, t.rows)
    modifies t
    ensures t.Valid()
    ensures Close !in old(t.columns) ==> t.columns == old(t.columns) && c == Done
    ensures Close in old(t.columns) && macd.FrameRaises? ==> t.columns == old(t.columns) && c == Raised
    ensures Close in old(t.columns) && !macd.FrameRaises? && !FrameUsable(macd, t.rows) ==>
              t.columns == old(t.columns) && c == Done
    ensures Close in old(t.columns) && FrameUsable(macd, t.rows) ==>
              var out := macd.produced;
              var m, h, s := MacdCol(p), HistCol(p), SignalCol(p);
              (c == Done <==> m in out && h in out && s in out) &&
              (m !in out ==> t.columns == old(t.columns)) &&
              (m in out && h !in out ==> t.columns == old(t.columns)[m := out[m]]) &&
              (m in out && h in out && s !in out ==> t.columns == old(t.columns)[m := out[m]][h := out[h]]) &&
              (m in out && h in out && s in out ==>
                 t.columns == old(t.columns)[m := out[m]][h := out[h]][s := out[s]])
  {
    c := Done;
    if Close !in t.columns {
      return;
    }
    if macd.FrameRaises? {
      return Raised;
    }
    if FrameUsable(macd, t.rows) {
      var ok := t.CopyFrom(macd.produced, MacdCol(p));
      if !ok {
        return Raised;
      }
      ok := t.CopyFrom(macd.produced, HistCol(p));
      if !ok {
        return Raised;
      }
      ok := t.CopyFrom(macd.produced, SignalCol(p));
      if !ok {
        return Raised;
      }
    }
  }

  /** A library that labels its output with the periods it used (always
      numbers) never produces the label looked up when a period is omitted,
      so with omitted periods a usable result makes the attachment raise. */
  lemma OmittedPeriodLabelsNeverProduced(p: Params, out: map<ColKey, Column>)
    requires forall k :: k in out && k.Ind? ==> forall i :: 0 <= i < |k.args| ==> k.args[i].Some?
    requires "macd_fast_period" !in p || "macd_slow_period" !in p || "macd_signal_period" !in p
    ensures MacdCol(p) !in out
  {
    var k := MacdCol(p);
    assert k.args[0].None? || k.args[1].None? || k.args[2].None?;
  }

  /** The crossover rule; the HOLD reason keeps its initial value when the
      two lines are equal. */
  function Decide(prevMacd: real, prevSignal: real, macd: real, signal: real): (d: Decision)
    ensures d.signal == Buy <==> CrossAbove(prevMacd, prevSignal, macd, signal)
    ensures d.signal == Sell <==> CrossBelow(prevMacd, prevSignal, macd, signal)
    ensures d.signal in {Hold, Buy, Sell}
    ensures d.signal != Hold ==> d.reason == Fired
    ensures d.signal == Hold ==>
              d.reason == (if macd > signal then Context(Above) else if macd < signal then Context(Below) else Initial)
    ensures d.bias == None
  {
    CrossesExclusive(prevMacd, prevSignal, macd, signal);
    if CrossAbove(prevMacd, prevSignal, macd, signal) then Decision(Buy, Fired, None)
    else if CrossBelow(prevMacd, prevSignal, macd, signal) then Decision(Sell, Fired, None)
    else if macd > signal then HoldFor(Context(Above))
    else if macd < signal then HoldFor(Context(Below))
    else HoldFor(Initial)
  }

  predicate HasColumns(t: Table, p: Params)
    reads t
  {
    MacdCol(p) in t.columns && SignalCol(p) in t.columns
  }

  predicate Ready(t: Table, p: Params)
    requires t.Valid()
    reads t
  {
    HasColumns(t, p) && t.rows >= 2 &&
    LastTwoPresent(t.columns[MacdCol(p)]) && LastTwoPresent(t.columns[SignalCol(p)])
  }

  /** `run_strategy`: one combined data guard; `position` is ignored. */
  function RunStrategy(t: Table, p: Params, position: Option<string>): (d: Decision)
    requires t.Valid()
    reads t
    ensures !Ready(t, p) ==> d == HoldFor(DataIncomplete)
    ensures d.signal != CloseLong && d.signal != CloseShort
    ensures Ready(t, p) ==>
              var m, s := t.columns[MacdCol(p)], t.columns[SignalCol(p)];
              d == Decide(Previous(m).value, Previous(s).value, Latest(m).value, Latest(s).value)
  {
    if !Ready(t, p) then HoldFor(DataIncomplete)
    else
      var m, s := t.columns[MacdCol(p)], t.columns[SignalCol(p)];
      Decide(Previous(m).value, Previous(s).value, Latest(m).value, Latest(s).value)
  }

  /** The decision is the same whatever position the caller reports. */
  lemma PositionIgnored(t: Table, p: Params, a: Option<string>, b: Option<string>)
    requires t.Valid()
    ensures RunStrategy(t, p, a) == RunStrategy(t, p, b)
  {
  }

  /** Only the last two rows of the MACD and signal lines are consulted. */
  lemma LastTwoRowsOnly(t1: Table, t2: Table, p: Params, position: Option<string>)
    requires t1.Valid() && t2.Valid()
    requires SameWindow(t1, t2, {MacdCol(p), SignalCol(p)}, 2)
    ensures RunStrategy(t1, p, position) == RunStrategy(t2, p, position)
  {
    if HasColumns(t1, p) && t1.rows >= 2 {
      WindowValues(t1, t2, {MacdCol(p), SignalCol(p)}, 2, MacdCol(p));
      WindowValues(t1, t2, {MacdCol(p), SignalCol(p)}, 2, SignalCol(p));
    }
  }

  /** `get_chart_overlay_data`: MACD, signal and histogram lines, with the
      `timestamp` fallback; each is emitted whenever its column exists. */
  function ChartOverlay(t: Table, p: Params): (chart: Chart)
    requires t.Valid()
    reads t
    ensures chart.Keys <= {"macd_line", "macd_signal_line", "macd_histogram"}
    ensures "macd_line" in chart <==> HasTimeRef(t, true) && MacdCol(p) in t.columns
    ensures "macd_signal_line" in chart <==> HasTimeRef(t, true) && SignalCol(p) in t.columns
    ensures "macd_histogram" in chart <==> HasTimeRef(t, true) && HistCol(p) in t.columns
    ensures "macd_line" in chart ==> chart["macd_line"] == Line(t, MacdCol(p))
    ensures "macd_signal_line" in chart ==> chart["macd_signal_line"] == Line(t, SignalCol(p))
    ensures "macd_histogram" in chart ==> chart["macd_histogram"] == Line(t, HistCol(p))
  {
    if !HasTimeRef(t, true) then map[]
    else
      (if MacdCol(p) in t.columns then map["macd_line" := Line(t, MacdCol(p))] else map[]) +
      (if SignalCol(p) in t.columns then map["macd_signal_line" := Line(t, SignalCol(p))] else map[]) +
      (if HistCol(p) in t.columns then map["macd_histogram" := Line(t, HistCol(p))] else map[])
  }
}
