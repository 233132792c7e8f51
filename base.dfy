/** The tabular data every strategy works on: a bar series augmented in place
    with indicator columns, addressed by structured column keys. */
module Base {

  datatype Option<T> = None | Some(value: T)

  /** One column of the table; `None` stands for a missing value (NaN or pd.NA). */
  type Column = seq<Option<real>>

  /** The parameter dictionary a caller passes in. */
  type Params = map<string, real>

  /** `params.get(key, default)`. */
  function Get(p: Params, key: string, default: real): real
  {
    if key in p then p[key] else default
  }

  /** `params.get(key)`: `None` when the key is absent. */
  function GetOpt(p: Params, key: string): Option<real>
  {
    if key in p then Some(p[key]) else None
  }

  /** The two spellings of the multiplier that the Keltner rename step tries
      when it looks for the band columns the indicator library appended. */
  datatype Spelling = Trimmed | Underscored

  /** A column label. `Ind(kind, args)` is an indicator column whose label is
      built from its kind and its parameters (`SMA_10` is `Ind("SMA", [Some(10.0)])`;
      a parameter read without a default that is absent is `None`, which the
      source formats as the text `None`). */
  datatype ColKey =
    | Input(name: string)
    | Ind(kind: string, args: seq<Option<real>>)
    | Pattern(code: string)
    | KeltnerLib(band: string, length: real, scalar: real, spelling: Spelling)

  const Open: ColKey := Input("open")
  const High: ColKey := Input("high")
  const Low: ColKey := Input("low")
  const Close: ColKey := Input("close")
  const Volume: ColKey := Input("volume")
  const Timestamp: ColKey := Input("timestamp")

  /** `series.iloc[-1]` */
  function Latest(c: Column): Option<real>
    requires |c| >= 1
  {
    c[|c| - 1]
  }

  /** `series.iloc[-2]` */
  function Previous(c: Column): Option<real>
    requires |c| >= 2
  {
    c[|c| - 2]
  }

  /** `not series.iloc[-2:].isna().any()` for a series of at least two rows. */
  predicate LastTwoPresent(c: Column)
    requires |c| >= 2
  {
    Previous(c).Some? && Latest(c).Some?
  }

  /** The last `k` entries of a column (all of it when it is shorter). */
  function Tail(c: Column, k: nat): (r: Column)
    ensures |r| == if |c| < k then |c| else k
    ensures forall i :: 0 <= i < |r| ==> r[i] == c[|c| - |r| + i]
  {
    if |c| < k then c else c[|c| - k..]
  }

  /** A column of `n` missing values (`df[k] = pd.NA`). */
  function MissingColumn(n: nat): (c: Column)
    ensures |c| == n
    ensures forall i :: 0 <= i < n ==> c[i] == None
  {
    seq(n, _ => None)
  }

  /** A column of `n` zeros (`df[k] = 0`). */
  function ZeroColumn(n: nat): (c: Column)
    ensures |c| == n
    ensures forall i :: 0 <= i < n ==> c[i] == Some(0.0)
  {
    seq(n, _ => Some(0.0))
  }

  /** Every column of `m` has `n` rows. */
  ghost predicate AllRows(m: map<ColKey, Column>, n: nat)
  {
    forall k :: k in m ==> |m[k]| == n
  }

  /** The bar series with its indicator columns (a pandas DataFrame). Rows are
      fixed for the life of the table; the indicator-attachment steps add,
      overwrite and rename columns in place. `times[i]` is the time reference
      of row `i`, and `datetimeIndex` says whether the table is indexed by time. */
  class Table {
    var columns: map<ColKey, Column>
    const rows: nat
    const datetimeIndex: bool
    const times: seq<int>

    ghost predicate Valid()
      reads this
    {
      |times| == rows && AllRows(columns, rows)
    }

    constructor (columns: map<ColKey, Column>, rows: nat, datetimeIndex: bool, times: seq<int>)
      requires |times| == rows && AllRows(columns, rows)
      ensures Valid()
      ensures this.columns == columns && this.rows == rows
      ensures this.datetimeIndex == datetimeIndex && this.times == times
    {
      this.columns := columns;
      this.rows := rows;
      this.datetimeIndex := datetimeIndex;
      this.times := times;
    }

    /** `df[k] = values` */
    method Set(k: ColKey, values: Column)
      requires Valid() && |values| == rows
      modifies this
      ensures Valid()
      ensures columns == old(columns)[k := values]
    {
      columns := columns[k := values];
    }

    /** `df[k] = pd.NA` */
    method FillMissing(k: ColKey)
      requires Valid()
      modifies this
      ensures Valid()
      ensures columns == old(columns)[k := MissingColumn(rows)]
    {
      columns := columns[k := MissingColumn(rows)];
    }

    /** `df[k] = 0` */
    method FillZeros(k: ColKey)
      requires Valid()
      modifies this
      ensures Valid()
      ensures columns == old(columns)[k := ZeroColumn(rows)]
    {
      columns := columns[k := ZeroColumn(rows)];
    }

    /** What an indicator call with `append=True` does: every column it
        produced is written under the library's own label. */
    method Append(produced: map<ColKey, Column>)
      requires Valid() && AllRows(produced, rows)
      modifies this
      ensures Valid()
      ensures columns == old(columns) + produced
    {
      columns := columns + produced;
    }

    /** `df[k] = output[k]` for a frame the library returned: a `KeyError`
        (`ok` false, nothing written) when the frame has no column `k`. */
    method CopyFrom(produced: map<ColKey, Column>, k: ColKey) returns (ok: bool)
      requires Valid() && AllRows(produced, rows)
      modifies this
      ensures Valid()
      ensures ok <==> k in produced
      ensures columns == if ok then old(columns)[k := produced[k]] else old(columns)
    {
      ok := k in produced;
      if ok {
        columns := columns[k := produced[k]];
      }
    }

    /** `df.rename(columns={from: to}, inplace=True)` */
    method Rename(from: ColKey, to: ColKey)
      requires Valid() && from in columns
      modifies this
      ensures Valid()
      ensures columns == (old(columns) - {from})[to := old(columns)[from]]
    {
      columns := (columns - {from})[to := columns[from]];
    }
  }

  /** Two tables agree on the last `k` rows of the columns in `keys`: the same
      columns are present, both or neither have `k` rows, and the last `k`
      values of each present column are equal. */
  ghost predicate SameWindow(t1: Table, t2: Table, keys: set<ColKey>, k: nat)
    reads t1, t2
  {
    (t1.rows >= k <==> t2.rows >= k) &&
    forall key :: key in keys ==>
      (key in t1.columns <==> key in t2.columns) &&
      (key in t1.columns ==> Tail(t1.columns[key], k) == Tail(t2.columns[key], k))
  }

  /** Tables that agree on a window agree on the values a rule reads in it. */
  lemma WindowValues(t1: Table, t2: Table, keys: set<ColKey>, k: nat, key: ColKey)
    requires t1.Valid() && t2.Valid() && SameWindow(t1, t2, keys, k)
    requires 1 <= k && key in keys && key in t1.columns && t1.rows >= k
    ensures key in t2.columns && t2.rows >= k
    ensures Latest(t1.columns[key]) == Latest(t2.columns[key])
    ensures k >= 2 ==> Previous(t1.columns[key]) == Previous(t2.columns[key])
  {
    var c1, c2 := t1.columns[key], t2.columns[key];
    assert Tail(c1, k)[k - 1] == Tail(c2, k)[k - 1];
    if k >= 2 {
      assert Tail(c1, k)[k - 2] == Tail(c2, k)[k - 2];
    }
  }

  /** The outcome of a library call that returns one series. */
  datatype SeriesCall = SeriesRaises | SeriesNone | SeriesOf(values: Column)

  /** The outcome of a library call that returns a frame of several series. */
  datatype FrameCall = FrameRaises | FrameNone | FrameOf(produced: map<ColKey, Column>)

  /** The library returns series aligned with the table's rows. */
  predicate SeriesAligned(call: SeriesCall, n: nat)
  {
    call.SeriesOf? ==> |call.values| == n
  }

  ghost predicate FrameAligned(call: FrameCall, n: nat)
  {
    call.FrameOf? ==> AllRows(call.produced, n)
  }

  /** `result is not None and not result.empty` for a series. */
  predicate SeriesUsable(call: SeriesCall)
  {
    call.SeriesOf? && |call.values| > 0
  }

  /** `result is not None and not result.empty` for a frame: a frame is empty
      when it has no column or no row. */
  predicate FrameUsable(call: FrameCall, n: nat)
  {
    call.FrameOf? && call.produced != map[] && n > 0
  }

  /** Whether an attachment step returned normally or let an exception escape
      (an uncaught library error, or a `KeyError` on the library's output). */
  datatype Completion = Done | Raised
}
