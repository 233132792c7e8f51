/** TRIX signal-line crossover: BUY when TRIX crosses above its signal line,
    SELL when it crosses below. */
module Trix {
  import opened Base
  import opened Signals
  import opened Overlays

  function TrixLength(p: Params): real { Get(p, "trix_length", 14.0) }
  function SignalLength(p: Params): real { Get(p, "trix_signal_length", 9.0) }

  function TrixCol(p: Params): ColKey { Ind("TRIX", [Some(TrixLength(p)), Some(SignalLength(p))]) }
  function SignalCol(p: Params): ColKey { Ind("TRIXs", [Some(TrixLength(p)), Some(SignalLength(p))]) }

  /** `calculate_strategy_indicators`: the library call is a parameter and is
      not guarded; a label missing from its output raises `KeyError`. */
  method CalculateIndicators(t: Table, p: Params, trix: FrameCall) returns (c: Completion)
    requires t.Valid() && FrameAligned(trix, t.rows)
    modifies t
    ensures t.Valid()
    ensures Close !in old(t.columns) ==> t.columns == old(t.columns) && c == Done
    ensures Close in old(t.columns) && trix.FrameRaises? ==> t.columns == old(t.columns) && c == Raised
    ensures Close in old(t.columns) && !trix.FrameRaises? && !FrameUsable(trix, t.rows) ==>
              t.columns == old(t.columns) && c == Done
    ensures Close in old(t.columns) && FrameUsable(trix, t.rows) ==>
              var out := trix.produced;
              (c == Done <==> TrixCol(p) in out && SignalCol(p) in out) &&
              (TrixCol(p) !in out ==> t.columns == old(t.columns)) &&
              (TrixCol(p) in out && SignalCol(p) !in out ==>
                 t.columns == old(t.columns)[TrixCol(p) := out[TrixCol(p)]]) &&
              (TrixCol(p) in out && SignalCol(p) in out ==>
                 t.columns == old(t.columns)[TrixCol(p) := out[TrixCol(p)]][SignalCol(p) := out[SignalCol(p)]])
  {
    c := Done;
    if Close !in t.columns {
      return;
    }
    if trix.FrameRaises? {
      return Raised;
    }
    if FrameUsable(trix, t.rows) {
      var ok := t.CopyFrom(trix.produced, TrixCol(p));
      if !ok {
        return Raised;
      }
      ok := t.CopyFrom(trix.produced, SignalCol(p));
      if !ok {
        return Raised;
      }
    }
  }

  /** The crossover rule on the last two TRIX and signal values. */
  function Decide(prevTrix: real, prevSignal: real, trix: real, signal: real, pos: Position): (d: Decision)
    ensures d.signal == Buy <==> pos == NoPosition && CrossAbove(prevTrix, prevSignal, trix, signal)
    ensures d.signal == Sell <==> pos == NoPosition && CrossBelow(prevTrix, prevSignal, trix, signal)
    ensures d.signal == CloseLong <==> pos == Long && CrossBelow(prevTrix, prevSignal, trix, signal)
    ensures d.signal == CloseShort <==> pos == Short && CrossAbove(prevTrix, prevSignal, trix, signal)
    ensures d.signal != Hold ==> d.reason == Fired
    ensures d.signal == Hold ==>
              d.reason == Context(if trix > signal then Above else if trix < signal then Below else Equal)
  {
    CrossesExclusive(prevTrix, prevSignal, trix, signal);
    Gated(pos, CrossAbove(prevTrix, prevSignal, trix, signal), CrossBelow(prevTrix, prevSignal, trix, signal),
          if trix > signal then Above else if trix < signal then Below else Equal)
  }

  predicate HasColumns(t: Table, p: Params)
    reads t
  {
    TrixCol(p) in t.columns && SignalCol(p) in t.columns
  }

  predicate Ready(t: Table, p: Params)
    requires t.Valid()
    reads t
  {
    HasColumns(t, p) && t.rows >= 2 &&
    LastTwoPresent(t.columns[TrixCol(p)]) && LastTwoPresent(t.columns[SignalCol(p)])
  }

  /** `run_strategy` */
  function RunStrategy(t: Table, p: Params, position: Option<string>): (d: Decision)
    requires t.Valid()
    reads t
    ensures !HasColumns(t, p) ==> d == HoldFor(ColumnsMissing)
    ensures HasColumns(t, p) && t.rows < 2 ==> d == HoldFor(TooFewRows)
    ensures HasColumns(t, p) && t.rows >= 2 && !Ready(t, p) ==> d == HoldFor(ValuesMissing)
    ensures d.signal != Hold ==> Ready(t, p)
    ensures Ready(t, p) ==>
              var x, s := t.columns[TrixCol(p)], t.columns[SignalCol(p)];
              d == Decide(Previous(x).value, Previous(s).value, Latest(x).value, Latest(s).value,
                          PositionOf(position))
  {
    if !HasColumns(t, p) then HoldFor(ColumnsMissing)
    else if t.rows < 2 then HoldFor(TooFewRows)
    else if !Ready(t, p) then HoldFor(ValuesMissing)
    else
      var x, s := t.columns[TrixCol(p)], t.columns[SignalCol(p)];
      Decide(Previous(x).value, Previous(s).value, Latest(x).value, Latest(s).value, PositionOf(position))
  }

  /** Only the last two rows of TRIX and its signal line are consulted. */
  lemma LastTwoRowsOnly(t1: Table, t2: Table, p: Params, position: Option<string>)
    requires t1.Valid() && t2.Valid()
    requires SameWindow(t1, t2, {TrixCol(p), SignalCol(p)}, 2)
    ensures RunStrategy(t1, p, position) == RunStrategy(t2, p, position)
  {
    if HasColumns(t1, p) && t1.rows >= 2 {
      WindowValues(t1, t2, {TrixCol(p), SignalCol(p)}, 2, TrixCol(p));
      WindowValues(t1, t2, {TrixCol(p), SignalCol(p)}, 2, SignalCol(p));
    }
  }

  /** `get_chart_overlay_data`: the TRIX and signal lines, given a datetime index. */
  function ChartOverlay(t: Table, p: Params): (chart: Chart)
    requires t.Valid()
    reads t
    ensures chart.Keys <= {"trix_line", "trix_signal_line"}
    ensures "trix_line" in chart <==> HasTimeRef(t, false) && TrixCol(p) in t.columns
    ensures "trix_signal_line" in chart <==> HasTimeRef(t, false) && SignalCol(p) in t.columns
    ensures "trix_line" in chart ==> chart["trix_line"] == Line(t, TrixCol(p))
    ensures "trix_signal_line" in chart ==> chart["trix_signal_line"] == Line(t, SignalCol(p))
  {
    if !HasTimeRef(t, false) then map[]
    else
      (if TrixCol(p) in t.columns then map["trix_line" := Line(t, TrixCol(p))] else map[]) +
      (if SignalCol(p) in t.columns then map["trix_signal_line" := Line(t, SignalCol(p))] else map[])
  }
}
