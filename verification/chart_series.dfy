/** The two chart feeds (pH and EC). Each chart holds a series of exactly
    PointCount integer points; writing a new value slides the series one slot
    to the left, so the oldest point is dropped and the new value becomes the
    last point. */
module ChartSeries {

  /** Points per series, as set by lv_chart_set_point_count. */
  const PointCount: nat := 20

  /** Value every point of both series holds before the first flush. */
  const FillValue: int := 6

  /** Vertical ranges of the two charts (lv_chart_set_range). */
  const PhChartMin: int := 50
  const PhChartMax: int := 70
  const EcChartMin: int := 0
  const EcChartMax: int := 100

  /** A well-formed series: exactly PointCount points. */
  predicate IsSeries(s: seq<int>) {
    |s| == PointCount
  }

  /** The series build_chart_mainscreen leaves behind: every slot holds FillValue. */
  function Filled(): (s: seq<int>)
    ensures IsSeries(s)
    ensures forall i :: 0 <= i < |s| ==> s[i] == FillValue
  {
    seq(PointCount, _ => FillValue)
  }

  /** Functional reference for update_chart_val: the oldest point leaves,
      `val` enters at the end, every other point moves one slot left. */
  function ShiftIn(s: seq<int>, val: int): (r: seq<int>)
    requires IsSeries(s)
    ensures IsSeries(r)
    ensures r[PointCount - 1] == val
    ensures forall i :: 0 <= i < PointCount - 1 ==> r[i] == s[i + 1]
  {
    s[1..] + [val]
  }

  /** As a multiset, one update removes one copy of the oldest point and
      adds one copy of the new value. */
  lemma ShiftInExchanges(s: seq<int>, val: int)
    requires IsSeries(s)
    ensures multiset(ShiftIn(s, val)) == multiset(s) - multiset{s[0]} + multiset{val}
  {
    assert s == [s[0]] + s[1..];
  }

  /** update_chart_val as the firmware does it: copy slot i+1 into slot i for
      i = 0..18, then store `val` in slot 19. */
  method UpdateChartVal(points: seq<int>, val: int) returns (r: seq<int>)
    requires IsSeries(points)
    ensures IsSeries(r)
    ensures r[PointCount - 1] == val
    ensures forall i :: 0 <= i < PointCount - 1 ==> r[i] == points[i + 1]
    ensures r == ShiftIn(points, val)
  {
    var a := new int[PointCount](j => if 0 <= j < |points| then points[j] else 0);
    var i := 0;
    while i < PointCount - 1
      invariant 0 <= i <= PointCount - 1
      invariant forall j :: 0 <= j < i ==> a[j] == points[j + 1]
      invariant forall j :: i <= j < PointCount ==> a[j] == points[j]
    {
      a[i] := a[i + 1];
      i := i + 1;
    }
    a[PointCount - 1] := val;
    r := a[..];
  }

  /** The series after writing every value of `vals`, first to last. */
  function PushAll(s: seq<int>, vals: seq<int>): (r: seq<int>)
    requires IsSeries(s)
    ensures IsSeries(r)
    decreases |vals|
  {
    if vals == [] then s else PushAll(ShiftIn(s, vals[0]), vals[1..])
  }

  /** Sliding-window law: after pushing `vals`, the series is the last
      PointCount entries of the old series followed by `vals`. */
  lemma {:induction false} PushAllWindow(s: seq<int>, vals: seq<int>)
    requires IsSeries(s)
    ensures PushAll(s, vals) == (s + vals)[|vals|..]
    decreases |vals|
  {
    if vals != [] {
      var t := ShiftIn(s, vals[0]);
      PushAllWindow(t, vals[1..]);
      assert t + vals[1..] == (s + vals)[1..];
    }
  }

  /** Pushing one more value is one more ShiftIn. */
  lemma PushAllSnoc(s: seq<int>, vals: seq<int>, v: int)
    requires IsSeries(s)
    ensures PushAll(s, vals + [v]) == ShiftIn(PushAll(s, vals), v)
  {
    PushAllWindow(s, vals + [v]);
    PushAllWindow(s, vals);
    assert s + (vals + [v]) == (s + vals) + [v];
  }

  /** Once PointCount values have been pushed, nothing of the old series
      (in particular none of the initial fill) is left: the chart shows
      exactly the latest PointCount values, oldest first. */
  lemma PushAllKeepsLatest(s: seq<int>, vals: seq<int>)
    requires IsSeries(s)
    requires |vals| >= PointCount
    ensures PushAll(s, vals) == vals[|vals| - PointCount..]
  {
    PushAllWindow(s, vals);
  }
}
