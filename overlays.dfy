/** Chart overlays: each named line is the (time, value) pairs of one column
    with its missing values dropped, in row order. */
module Overlays {
  import opened Base

  datatype Point = Point(time: int, value: real)

  type Chart = map<string, seq<Point>>

  /** `df[[col]].dropna()` turned into `{"time": .., "value": ..}` points. */
  function Points(times: seq<int>, c: Column): seq<Point>
    requires |times| == |c|
    decreases |c|
  {
    if |c| == 0 then []
    else (if c[0].Some? then [Point(times[0], c[0].value)] else []) + Points(times[1..], c[1..])
  }

  /** The non-missing values of a column, in order. */
  function Present(c: Column): seq<real>
    decreases |c|
  {
    if |c| == 0 then []
    else (if c[0].Some? then [c[0].value] else []) + Present(c[1..])
  }

  function Values(ps: seq<Point>): (vs: seq<real>)
    ensures |vs| == |ps|
    ensures forall i :: 0 <= i < |ps| ==> vs[i] == ps[i].value
  {
    seq(|ps|, i requires 0 <= i < |ps| => ps[i].value)
  }

  /** Dropping missing values distributes over concatenation: the points of a
      longer series are the points of its first part followed by the points of
      the rest, so the filter keeps row order. */
  lemma {:induction false} PointsAppend(t1: seq<int>, c1: Column, t2: seq<int>, c2: Column)
    requires |t1| == |c1| && |t2| == |c2|
    ensures Points(t1 + t2, c1 + c2) == Points(t1, c1) + Points(t2, c2)
    decreases |c1|
  {
    if |c1| > 0 {
      assert (t1 + t2)[1..] == t1[1..] + t2;
      assert (c1 + c2)[1..] == c1[1..] + c2;
      PointsAppend(t1[1..], c1[1..], t2, c2);
    } else {
      assert t1 + t2 == t2 && c1 + c2 == c2;
    }
  }

  /** The values carried by the points are exactly the non-missing values. */
  lemma {:induction false} PointsValues(times: seq<int>, c: Column)
    requires |times| == |c|
    ensures Values(Points(times, c)) == Present(c)
    decreases |c|
  {
    if |c| > 0 {
      PointsValues(times[1..], c[1..]);
      var head := if c[0].Some? then [Point(times[0], c[0].value)] else [];
      assert Values(head + Points(times[1..], c[1..])) == Values(head) + Values(Points(times[1..], c[1..]));
    }
  }

  /** Every emitted point comes from a row whose value is present. */
  lemma {:induction false} PointsSound(times: seq<int>, c: Column)
    requires |times| == |c|
    ensures forall p :: p in Points(times, c) ==>
              exists i :: 0 <= i < |c| && times[i] == p.time && c[i] == Some(p.value)
    decreases |c|
  {
    if |c| > 0 {
      PointsSound(times[1..], c[1..]);
      forall p | p in Points(times, c)
        ensures exists i :: 0 <= i < |c| && times[i] == p.time && c[i] == Some(p.value)
      {
        if p !in Points(times[1..], c[1..]) {
          assert times[0] == p.time && c[0] == Some(p.value);
        } else {
          var j :| 0 <= j < |c| - 1 && times[1..][j] == p.time && c[1..][j] == Some(p.value);
          assert times[j + 1] == p.time && c[j + 1] == Some(p.value);
        }
      }
    }
  }

  /** Every row whose value is present yields its point. */
  lemma {:induction false} PointsComplete(times: seq<int>, c: Column)
    requires |times| == |c|
    ensures forall i :: 0 <= i < |c| && c[i].Some? ==> Point(times[i], c[i].value) in Points(times, c)
    decreases |c|
  {
    if |c| > 0 {
      PointsComplete(times[1..], c[1..]);
      forall i | 0 <= i < |c| && c[i].Some?
        ensures Point(times[i], c[i].value) in Points(times, c)
      {
        if i > 0 {
          assert times[1..][i - 1] == times[i] && c[1..][i - 1] == c[i];
        }
      }
    }
  }

  /** A line is empty exactly when every value of its column is missing
      (`series.dropna().empty`). */
  lemma PointsEmpty(times: seq<int>, c: Column)
    requires |times| == |c|
    ensures Points(times, c) == [] <==> forall i :: 0 <= i < |c| ==> c[i].None?
  {
    PointsSound(times, c);
    PointsComplete(times, c);
  }

  /** Whether an overlay can attach times to its points. The strict variant
      needs a datetime index; the lenient one also accepts a `timestamp` column. */
  predicate HasTimeRef(t: Table, timestampFallback: bool)
    reads t
  {
    t.datetimeIndex || (timestampFallback && Timestamp in t.columns)
  }

  /** The overlay line of a column. */
  function Line(t: Table, k: ColKey): seq<Point>
    requires t.Valid() && k in t.columns
    reads t
  {
    Points(t.times, t.columns[k])
  }

  /** Whether the loop over (column, chart key) pairs emits a line for a pair:
      the column must exist and, when `skipEmpty`, hold a present value. */
  predicate Emits(t: Table, k: ColKey, skipEmpty: bool)
    requires t.Valid()
    reads t
  {
    k in t.columns && (!skipEmpty || Line(t, k) != [])
  }

  /** The chart built by the loop over (column, chart key) pairs. */
  function ChartOf(t: Table, pairs: seq<(ColKey, string)>, skipEmpty: bool): Chart
    requires t.Valid()
    reads t
    decreases |pairs|
  {
    if pairs == [] then map[]
    else
      var before := ChartOf(t, pairs[..|pairs| - 1], skipEmpty);
      var (k, name) := pairs[|pairs| - 1];
      if Emits(t, k, skipEmpty) then before[name := Line(t, k)] else before
  }

  /** The `for col_key, chart_key in [...]` loop of the three-line overlays. */
  method CollectLines(t: Table, pairs: seq<(ColKey, string)>, skipEmpty: bool) returns (chart: Chart)
    requires t.Valid()
    ensures chart == ChartOf(t, pairs, skipEmpty)
  {
    chart := map[];
    var i := 0;
    while i < |pairs|
      invariant 0 <= i <= |pairs|
      invariant chart == ChartOf(t, pairs[..i], skipEmpty)
    {
      var (k, name) := pairs[i];
      if k in t.columns {
        var line := Points(t.times, t.columns[k]);
        if !skipEmpty || line != [] {
          chart := chart[name := line];
        }
      }
      assert pairs[..i + 1][..i] == pairs[..i];
      i := i + 1;
    }
    assert pairs[..|pairs|] == pairs;
  }

  /** With distinct chart keys, the chart holds a key exactly when its pair
      emits, and then holds that column's line. */
  lemma {:induction false} ChartOfSpec(t: Table, pairs: seq<(ColKey, string)>, skipEmpty: bool)
    requires t.Valid()
    requires forall i, j :: 0 <= i < j < |pairs| ==> pairs[i].1 != pairs[j].1
    ensures forall name :: name in ChartOf(t, pairs, skipEmpty) ==>
              exists i :: 0 <= i < |pairs| && pairs[i].1 == name
    ensures forall i :: 0 <= i < |pairs| ==>
              (pairs[i].1 in ChartOf(t, pairs, skipEmpty) <==> Emits(t, pairs[i].0, skipEmpty))
    ensures forall i :: 0 <= i < |pairs| && Emits(t, pairs[i].0, skipEmpty) ==>
              ChartOf(t, pairs, skipEmpty)[pairs[i].1] == Line(t, pairs[i].0)
    decreases |pairs|
  {
    if pairs != [] {
      var init := pairs[..|pairs| - 1];
      ChartOfSpec(t, init, skipEmpty);
      forall i | 0 <= i < |init|
        ensures init[i] == pairs[i]
      {
      }
    }
  }
}
