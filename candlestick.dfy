/** Candlestick pattern confirmed by an EMA trend filter: a bullish pattern
    above the EMA buys, a bearish pattern below it sells. */
module Candlestick {
  import opened Base
  import opened Signals
  import opened Overlays

  function TrendLength(p: Params): real { Get(p, "trend_ema_length", 20.0) }

  /** `params.get('candlestick_pattern', 'ENGULFING')`; the pattern code is the
      one text-valued parameter, passed on its own. */
  function PatternCode(code: Option<string>): string
  {
    if code.Some? then code.value else "ENGULFING"
  }

  /** ASCII `str.lower()`: no upper-case letter survives, every other
      character is kept, and each letter keeps its place in the alphabet. */
  function Lower(s: string): (r: string)
    ensures |r| == |s|
    ensures forall i :: 0 <= i < |r| ==> !('A' <= r[i] <= 'Z')
    ensures forall i :: 0 <= i < |s| && !('A' <= s[i] <= 'Z') ==> r[i] == s[i]
    ensures forall i :: 0 <= i < |s| && 'A' <= s[i] <= 'Z' ==> 'a' <= r[i] <= 'z' && r[i] as int - 'a' as int == s[i] as int - 'A' as int
  {
    seq(|s|, i requires 0 <= i < |s| => if 'A' <= s[i] <= 'Z' then (s[i] as int + 32) as char else s[i])
  }

  function EmaCol(p: Params): ColKey { Ind("EMA", [Some(TrendLength(p))]) }

  /** `pattern_{code.lower()}` */
  function PatternCol(code: Option<string>): ColKey { Pattern(Lower(PatternCode(code))) }

  predicate HasInputs(cols: map<ColKey, Column>)
  {
    Open in cols && High in cols && Low in cols && Close in cols
  }

  /** The EMA column written: the series when the library returns one,
      missing values when it returns None or raises. */
  function EmaValues(ema: SeriesCall, n: nat): Column
  {
    if ema.SeriesOf? then ema.values else MissingColumn(n)
  }

  /** The pattern column written: the pattern function's series when it
      exists and returns one, zeros when it is unavailable, returns None or raises. */
  function PatternValues(available: bool, pattern: SeriesCall, n: nat): Column
  {
    if available && pattern.SeriesOf? then pattern.values else ZeroColumn(n)
  }

  /** `calculate_strategy_indicators`: the EMA call, whether the pattern
      function exists, and the pattern call are parameters. */
  method CalculateIndicators(t: Table, p: Params, code: Option<string>,
                             ema: SeriesCall, available: bool, pattern: SeriesCall)
    returns (c: Completion)
    requires t.Valid() && SeriesAligned(ema, t.rows) && SeriesAligned(pattern, t.rows)
    modifies t
    ensures t.Valid() && c == Done
    ensures !HasInputs(old(t.columns)) ==> t.columns == old(t.columns)
    ensures HasInputs(old(t.columns)) ==>
              t.columns == old(t.columns)[EmaCol(p) := EmaValues(ema, t.rows)]
                                         [PatternCol(code) := PatternValues(available, pattern, t.rows)]
    ensures HasInputs(old(t.columns)) ==> HasColumns(t, p, code)
    ensures HasInputs(old(t.columns)) && !(available && pattern.SeriesOf?) ==>
              forall i :: 0 <= i < t.rows ==> t.columns[PatternCol(code)][i] == Some(0.0)
  {
    c := Done;
    if !(Open in t.columns && High in t.columns && Low in t.columns && Close in t.columns) {
      return;
    }
    if ema.SeriesOf? {
      t.Set(EmaCol(p), ema.values);
    } else {
      t.FillMissing(EmaCol(p));
    }
    if available && pattern.SeriesOf? {
      t.Set(PatternCol(code), pattern.values);
    } else {
      t.FillZeros(PatternCol(code));
    }
  }

  /** Lowering twice changes nothing more. */
  lemma LowerIdempotent(s: string)
    ensures Lower(Lower(s)) == Lower(s)
  {
  }

  /** The pattern label does not depend on the case in which the code is
      given: two codes that lower to the same text name the same column. */
  lemma PatternColCaseInsensitive(a: string, b: string)
    requires Lower(a) == Lower(b)
    ensures PatternCol(Some(a)) == PatternCol(Some(b))
    ensures PatternCol(None) == PatternCol(Some("engulfing"))
  {
  }

  function TrendOf(close: real, ema: real): Trend
  {
    if close > ema then Uptrend else if close < ema then Downtrend else AtEma
  }

  /** The pattern-plus-trend rule on the latest row. */
  function Decide(close: real, ema: real, pattern: real, pos: Position): (d: Decision)
    ensures d.signal == Buy <==> pos == NoPosition && pattern > 0.0 && close > ema
    ensures d.signal == Sell <==> pos == NoPosition && pattern < 0.0 && close < ema
    ensures d.signal == CloseLong <==> pos == Long && pattern < 0.0 && close < ema
    ensures d.signal == CloseShort <==> pos == Short && pattern > 0.0 && close > ema
    ensures d.signal != Hold ==> d.reason == Fired
    ensures d.signal == Hold && pattern != 0.0 ==>
              d.reason == Context(PatternSeen(pattern > 0.0, TrendOf(close, ema)))
    ensures pattern == 0.0 ==> d == HoldFor(Context(NoPattern))
  {
    var buy := pattern > 0.0 && close > ema;
    var sell := pattern < 0.0 && close < ema;
    Gated(pos, buy, sell, if pattern != 0.0 then PatternSeen(pattern > 0.0, TrendOf(close, ema)) else NoPattern)
  }

  predicate HasColumns(t: Table, p: Params, code: Option<string>)
    reads t
  {
    EmaCol(p) in t.columns && PatternCol(code) in t.columns && Close in t.columns
  }

  predicate Ready(t: Table, p: Params, code: Option<string>)
    requires t.Valid()
    reads t
  {
    HasColumns(t, p, code) && t.rows >= 1 &&
    Latest(t.columns[EmaCol(p)]).Some? && Latest(t.columns[PatternCol(code)]).Some? &&
    Latest(t.columns[Close]).Some?
  }

  /** `run_strategy` */
  function RunStrategy(t: Table, p: Params, code: Option<string>, position: Option<string>): (d: Decision)
    requires t.Valid()
    reads t
    ensures !HasColumns(t, p, code) ==> d == HoldFor(ColumnsMissing)
    ensures HasColumns(t, p, code) && t.rows < 1 ==> d == HoldFor(TooFewRows)
    ensures HasColumns(t, p, code) && t.rows >= 1 && !Ready(t, p, code) ==> d == HoldFor(ValuesMissing)
    ensures d.signal != Hold ==> Ready(t, p, code)
    ensures Ready(t, p, code) ==>
              d == Decide(Latest(t.columns[Close]).value, Latest(t.columns[EmaCol(p)]).value,
                          Latest(t.columns[PatternCol(code)]).value, PositionOf(position))
  {
    if !HasColumns(t, p, code) then HoldFor(ColumnsMissing)
    else if t.rows < 1 then HoldFor(TooFewRows)
    else if !Ready(t, p, code) then HoldFor(ValuesMissing)
    else Decide(Latest(t.columns[Close]).value, Latest(t.columns[EmaCol(p)]).value,
                Latest(t.columns[PatternCol(code)]).value, PositionOf(position))
  }

  /** `get_chart_overlay_data`: only the trend EMA line, when it has a present value. */
  function ChartOverlay(t: Table, p: Params): (chart: Chart)
    requires t.Valid()
    reads t
    ensures !HasTimeRef(t, true) ==> chart == map[]
    ensures chart.Keys <= {"trend_ema_line"}
    ensures "trend_ema_line" in chart <==> HasTimeRef(t, true) && Emits(t, EmaCol(p), true)
    ensures "trend_ema_line" in chart ==> chart["trend_ema_line"] == Line(t, EmaCol(p))
  {
    if !HasTimeRef(t, true) then map[]
    else if Emits(t, EmaCol(p), true) then map["trend_ema_line" := Line(t, EmaCol(p))]
    else map[]
  }
}
