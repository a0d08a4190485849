/**
 * The list extensions the renderer uses: `limits().second` (the largest value
 * of the data) and `maxValueBy` (the largest measured value, or null).
 */
module Extensions {
  import opened Wrappers
  import opened ChartData

  /** The largest element of a non-empty list of reals. */
  function MaxOf(xs: seq<real>): (m: real)
    requires |xs| > 0
    ensures forall i :: 0 <= i < |xs| ==> xs[i] <= m
    ensures exists i :: 0 <= i < |xs| && xs[i] == m
  {
    if |xs| == 1 then xs[0]
    else
      var rest := MaxOf(xs[1..]);
      assert forall i :: 1 <= i < |xs| ==> xs[i] == xs[1..][i - 1];
      if xs[0] >= rest then xs[0] else rest
  }

  /** `limits().second`: the largest value of a non-empty data set. */
  function MaxValue(points: seq<DataPoint>): (m: real)
    requires |points| > 0
    ensures forall i :: 0 <= i < |points| ==> points[i].value <= m
    ensures exists i :: 0 <= i < |points| && points[i].value == m
  {
    MaxOf(Values(points))
  }

  /** `maxValueBy`: the largest of the measured values, null (None) for an empty list. */
  function MaxValueBy(measures: seq<real>): (r: Option<real>)
    ensures r.None? <==> |measures| == 0
    ensures r.Some? ==> forall i :: 0 <= i < |measures| ==> measures[i] <= r.value
    ensures r.Some? ==> exists i :: 0 <= i < |measures| && measures[i] == r.value
  {
    if |measures| == 0 then None else Some(MaxOf(measures))
  }
}
