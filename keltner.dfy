/** Keltner Channel breakout: BUY when the close breaks above the upper band,
    SELL when it breaks below the lower band; exits on the opposite break. */
module Keltner {
  import opened Base
  import opened Signals
  import opened Overlays

  function EmaLength(p: Params): real { Get(p, "kc_ema_length", 20.0) }
  function AtrLength(p: Params): real { Get(p, "kc_atr_length", 10.0) }
  function Multiplier(p: Params): real { Get(p, "kc_atr_multiplier", 2.0) }

  /** The "desired" band label `{prefix}_{ema}_{atr}_{mult}` used by every reader. */
  function Band(prefix: string, p: Params): ColKey
  {
    Ind(prefix, [Some(EmaLength(p)), Some(AtrLength(p)), Some(Multiplier(p))])
  }

  function LowerCol(p: Params): ColKey { Band("KCLe", p) }
  function BasisCol(p: Params): ColKey { Band("KCBe", p) }
  function UpperCol(p: Params): ColKey { Band("KCUe", p) }

  /** The two labels the library may have used for a band, in the order tried. */
  function LibraryLabels(prefix: string, p: Params): seq<ColKey>
  {
    [KeltnerLib(prefix, EmaLength(p), Multiplier(p), Trimmed),
     KeltnerLib(prefix, EmaLength(p), Multiplier(p), Underscored)]
  }

  /** `next((col for col in options if col in df.columns), None)` */
  function FirstPresent(options: seq<ColKey>, cols: map<ColKey, Column>): (r: Option<ColKey>)
    ensures r.Some? ==> (r.value in cols &&
              exists i :: 0 <= i < |options| && options[i] == r.value &&
                forall j :: 0 <= j < i ==> options[j] !in cols)
    ensures r.None? <==> forall i :: 0 <= i < |options| ==> options[i] !in cols
  {
    if options == [] then None
    else if options[0] in cols then Some(options[0])
    else
      var rest := FirstPresent(options[1..], cols);
      assert forall i :: 1 <= i < |options| ==> options[i] == options[1..][i - 1];
      rest
  }

  /** One band of the rename/fill step: rename the library's column to the
      desired label if one was found, otherwise make sure the desired label
      exists, as a column of missing values if need be. */
  function FixBand(cols: map<ColKey, Column>, options: seq<ColKey>, desired: ColKey, n: nat): (r: map<ColKey, Column>)
    requires AllRows(cols, n)
    ensures AllRows(r, n)
    ensures desired in r
    ensures forall k :: k in cols && k !in options ==> k in r
    ensures forall k :: k in r ==> k in cols || k == desired
    ensures forall k :: k in cols && k !in options && k != desired ==> r[k] == cols[k]
    ensures FirstPresent(options, cols).None? && desired in cols ==> r == cols
    ensures FirstPresent(options, cols).None? && desired !in cols ==> r[desired] == MissingColumn(n)
    ensures FirstPresent(options, cols).Some? ==> r[desired] == cols[FirstPresent(options, cols).value]
    ensures FirstPresent(options, cols).Some? && FirstPresent(options, cols).value != desired ==>
              FirstPresent(options, cols).value !in r
    ensures forall k :: k in cols && k != desired && (FirstPresent(options, cols).None? || k != FirstPresent(options, cols).value) ==>
              k in r && r[k] == cols[k]
  {
    var actual := FirstPresent(options, cols);
    if actual.Some? then
      if actual.value != desired then (cols - {actual.value})[desired := cols[actual.value]] else cols
    else if desired !in cols then cols[desired := MissingColumn(n)]
    else cols
  }

  method FixBandInPlace(t: Table, options: seq<ColKey>, desired: ColKey)
    requires t.Valid()
    modifies t
    ensures t.Valid()
    ensures t.columns == FixBand(old(t.columns), options, desired, t.rows)
  {
    var actual := FirstPresent(options, t.columns);
    if actual.Some? {
      if actual.value != desired {
        t.Rename(actual.value, desired);
      }
    } else if desired !in t.columns {
      t.FillMissing(desired);
    }
  }

  /** The three-band rename/fill applied to the columns after the library call. */
  function Renamed(cols: map<ColKey, Column>, p: Params, n: nat): map<ColKey, Column>
    requires AllRows(cols, n)
  {
    var lower := FixBand(cols, LibraryLabels("KCLe", p), LowerCol(p), n);
    var basis := FixBand(lower, LibraryLabels("KCBe", p), BasisCol(p), n);
    FixBand(basis, LibraryLabels("KCUe", p), UpperCol(p), n)
  }

  /** After the rename/fill step the three desired band columns exist, and no
      column other than the library's band labels has disappeared. */
  lemma RenamedHasBands(cols: map<ColKey, Column>, p: Params, n: nat)
    requires AllRows(cols, n)
    ensures LowerCol(p) in Renamed(cols, p, n)
    ensures BasisCol(p) in Renamed(cols, p, n)
    ensures UpperCol(p) in Renamed(cols, p, n)
    ensures forall k :: k in cols && !k.KeltnerLib? ==> k in Renamed(cols, p, n)
  {
  }

  predicate HasInputs(cols: map<ColKey, Column>)
  {
    High in cols && Low in cols && Close in cols
  }

  /** `calculate_strategy_indicators`: the library call `kc` is a parameter. */
  method CalculateIndicators(t: Table, p: Params, kc: FrameCall) returns (c: Completion)
    requires t.Valid() && FrameAligned(kc, t.rows)
    modifies t
    ensures t.Valid() && c == Done
    ensures !HasInputs(old(t.columns)) ==> t.columns == old(t.columns)
    ensures HasInputs(old(t.columns)) && kc.FrameRaises? ==>
              t.columns == old(t.columns)[LowerCol(p) := MissingColumn(t.rows)]
                                         [BasisCol(p) := MissingColumn(t.rows)]
                                         [UpperCol(p) := MissingColumn(t.rows)]
    ensures HasInputs(old(t.columns)) && !kc.FrameRaises? ==>
              t.columns == Renamed(old(t.columns) + (if kc.FrameOf? then kc.produced else map[]), p, t.rows)
    ensures HasInputs(old(t.columns)) ==>
              LowerCol(p) in t.columns && BasisCol(p) in t.columns && UpperCol(p) in t.columns
  {
    c := Done;
    if !(High in t.columns && Low in t.columns && Close in t.columns) {
      return;
    }
    if kc.FrameRaises? {
      t.FillMissing(LowerCol(p));
      t.FillMissing(BasisCol(p));
      t.FillMissing(UpperCol(p));
      return;
    }
    ghost var appended := old(t.columns) + (if kc.FrameOf? then kc.produced else map[]);
    if kc.FrameOf? {
      t.Append(kc.produced);
    }
    assert t.columns == appended;
    FixBandInPlace(t, LibraryLabels("KCLe", p), LowerCol(p));
    ghost var lower := t.columns;
    FixBandInPlace(t, LibraryLabels("KCBe", p), BasisCol(p));
    ghost var basis := t.columns;
    FixBandInPlace(t, LibraryLabels("KCUe", p), UpperCol(p));
    assert t.columns == Renamed(appended, p, t.rows) by {
      assert lower == FixBand(appended, LibraryLabels("KCLe", p), LowerCol(p), t.rows);
      assert basis == FixBand(lower, LibraryLabels("KCBe", p), BasisCol(p), t.rows);
    }
    RenamedHasBands(appended, p, t.rows);
  }

  /** The breakout rule on the latest close and bands. BUY wins when both
      breaks hold (bands that cross each other). */
  function Decide(close: real, upper: real, lower: real, pos: Position): (d: Decision)
    ensures d.signal == Buy <==> pos == NoPosition && close > upper
    ensures d.signal == Sell <==> pos == NoPosition && close <= upper && close < lower
    ensures d.signal == CloseLong <==> pos == Long && close < lower
    ensures d.signal == CloseShort <==> pos == Short && close > upper
    ensures pos == Other ==> d.signal == Hold
    ensures d.signal == Hold ==> d.reason == Context(Within)
    ensures d.signal != Hold ==> d.reason == Fired
  {
    Gated(pos, close > upper, close < lower, Within)
  }

  predicate HasColumns(t: Table, p: Params)
    reads t
  {
    LowerCol(p) in t.columns && UpperCol(p) in t.columns && Close in t.columns
  }

  /** Past every guard: the columns exist, there is a row, and the latest
      close and bands are present. */
  predicate Ready(t: Table, p: Params)
    requires t.Valid()
    reads t
  {
    HasColumns(t, p) && t.rows >= 1 &&
    Latest(t.columns[UpperCol(p)]).Some? && Latest(t.columns[LowerCol(p)]).Some? &&
    Latest(t.columns[Close]).Some?
  }

  /** `run_strategy` */
  function RunStrategy(t: Table, p: Params, position: Option<string>): (d: Decision)
    requires t.Valid()
    reads t
    ensures !HasColumns(t, p) ==> d == HoldFor(ColumnsMissing)
    ensures HasColumns(t, p) && t.rows < 1 ==> d == HoldFor(TooFewRows)
    ensures HasColumns(t, p) && t.rows >= 1 && !Ready(t, p) ==> d == HoldFor(ValuesMissing)
    ensures d.signal != Hold ==> Ready(t, p)
    ensures Ready(t, p) ==>
              d == Decide(Latest(t.columns[Close]).value, Latest(t.columns[UpperCol(p)]).value,
                          Latest(t.columns[LowerCol(p)]).value, PositionOf(position))
  {
    if !HasColumns(t, p) then HoldFor(ColumnsMissing)
    else if t.rows < 1 then HoldFor(TooFewRows)
    else if !Ready(t, p) then HoldFor(ValuesMissing)
    else Decide(Latest(t.columns[Close]).value, Latest(t.columns[UpperCol(p)]).value,
                Latest(t.columns[LowerCol(p)]).value, PositionOf(position))
  }

  /** Only the last row is ever consulted. */
  lemma LatestRowOnly(t1: Table, t2: Table, p: Params, position: Option<string>)
    requires t1.Valid() && t2.Valid()
    requires SameWindow(t1, t2, {LowerCol(p), UpperCol(p), Close}, 1)
    ensures RunStrategy(t1, p, position) == RunStrategy(t2, p, position)
  {
    var keys := {LowerCol(p), UpperCol(p), Close};
    if HasColumns(t1, p) && t1.rows >= 1 {
      WindowValues(t1, t2, keys, 1, LowerCol(p));
      WindowValues(t1, t2, keys, 1, UpperCol(p));
      WindowValues(t1, t2, keys, 1, Close);
    }
  }

  /** `get_chart_overlay_data`: upper, middle and lower lines, each emitted
      only when its column has a present value. */
  method ChartOverlay(t: Table, p: Params) returns (chart: Chart)
    requires t.Valid()
    ensures !HasTimeRef(t, true) ==> chart == map[]
    ensures HasTimeRef(t, true) ==>
              chart.Keys <= {"keltner_upper", "keltner_middle", "keltner_lower"} &&
              ("keltner_upper" in chart <==> Emits(t, UpperCol(p), true)) &&
              ("keltner_middle" in chart <==> Emits(t, BasisCol(p), true)) &&
              ("keltner_lower" in chart <==> Emits(t, LowerCol(p), true))
    ensures "keltner_upper" in chart ==> chart["keltner_upper"] == Line(t, UpperCol(p))
    ensures "keltner_middle" in chart ==> chart["keltner_middle"] == Line(t, BasisCol(p))
    ensures "keltner_lower" in chart ==> chart["keltner_lower"] == Line(t, LowerCol(p))
  {
    if !HasTimeRef(t, true) {
      return map[];
    }
    var pairs := [(UpperCol(p), "keltner_upper"), (BasisCol(p), "keltner_middle"), (LowerCol(p), "keltner_lower")];
    chart := CollectLines(t, pairs, true);
    ChartOfSpec(t, pairs, true);
    assert pairs[0].1 == "keltner_upper" && pairs[1].1 == "keltner_middle" && pairs[2].1 == "keltner_lower";
  }
}
