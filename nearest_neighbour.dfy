/**
 * The nearest-neighbour scan both detectors run in `predict`: walk the stored
 * projections in order, keep `best` and `lab`, and replace them only on a
 * strictly smaller distance.
 */
module NearestNeighbour {
  import opened Common

  /** `Double.MAX_VALUE`, the initial value of `best`: (2^53 - 1) * 2^971. */
  const DoubleMax: real := 179769313486231570814527423731704356798070567525844996598917476803157260780028538760589558632766878171540458953514382464234321326889464182768467546703537516986049910576551282076245490090389328944075868508455133942304583236903222948165808559332123348274797826204144723168738177180919299881250404026184124858368.0

  /**
   * Index i is the reference the scan settles on: its distance is below the
   * initial bound, strictly below every earlier distance and no greater than
   * any later one.
   */
  ghost predicate IsFirstNearest(ds: seq<real>, i: int)
  {
    && 0 <= i < |ds|
    && ds[i] < DoubleMax
    && (forall j :: 0 <= j < i ==> ds[i] < ds[j])
    && (forall j :: i < j < |ds| ==> ds[i] <= ds[j])
  }

  /**
   * The index the scan ends on for the distances `ds`, or None when no
   * distance is below `Double.MAX_VALUE` (`lab` stays -1).
   */
  function FirstMin(ds: seq<real>): (r: Option<nat>)
    ensures r.None? <==> forall j :: 0 <= j < |ds| ==> ds[j] >= DoubleMax
    ensures r.Some? ==> IsFirstNearest(ds, r.value)
  {
    if ds == [] then None
    else
      var last := |ds| - 1;
      var init := ds[..last];
      assert forall j :: 0 <= j < last ==> init[j] == ds[j];
      match FirstMin(init)
      case None => if ds[last] < DoubleMax then Some(last) else None
      case Some(i) => if ds[last] < ds[i] then Some(last) else Some(i)
  }

  /** At most one index is the first nearest one. */
  lemma FirstNearestIsUnique(ds: seq<real>, i: int, k: int)
    requires IsFirstNearest(ds, i) && IsFirstNearest(ds, k)
    ensures i == k
  {
  }

  /** The distances from every stored row to the query, or None if a norm call throws. */
  function Distances(norm: (Row, Row) -> Option<real>, refs: Matrix, y: Row): (r: Option<seq<real>>)
    ensures r.Some? <==> forall i :: 0 <= i < |refs| ==> norm(refs[i], y).Some?
    ensures r.Some? ==> |r.value| == |refs| && forall i :: 0 <= i < |refs| ==> norm(refs[i], y) == Some(r.value[i])
  {
    if forall i :: 0 <= i < |refs| ==> norm(refs[i], y).Some?
    then Some(seq(|refs|, i requires 0 <= i < |refs| => norm(refs[i], y).value))
    else None
  }

  /**
   * What `predict` returns for the query `y`: -1 when no stored row is within
   * `Double.MAX_VALUE` (in particular when there are none), otherwise the
   * label of the first stored row at minimal distance.
   */
  function Classify(norm: (Row, Row) -> Option<real>, refs: Matrix, y: Row, labels: seq<int>): (r: Result<int>)
    requires |refs| <= |labels|
    ensures r.Err? <==> exists i :: 0 <= i < |refs| && norm(refs[i], y).None?
    ensures r.Err? ==> r.error == CvException
    ensures |refs| == 0 ==> r == Ok(-1)
    ensures r.Ok? ==> var ds := Distances(norm, refs, y).value;
              && ((forall i :: 0 <= i < |ds| ==> ds[i] >= DoubleMax) ==> r.value == -1)
              && (forall i :: IsFirstNearest(ds, i) ==> r.value == labels[i])
              && ((exists i :: 0 <= i < |ds| && ds[i] < DoubleMax) ==>
                    exists i :: IsFirstNearest(ds, i) && r.value == labels[i])
  {
    match Distances(norm, refs, y)
    case None => Err(CvException)
    case Some(ds) =>
      match FirstMin(ds)
      case None => Ok(-1)
      case Some(i) =>
        assert forall k :: IsFirstNearest(ds, k) ==> k == i by {
          forall k | IsFirstNearest(ds, k) ensures k == i { FirstNearestIsUnique(ds, k, i); }
        }
        Ok(labels[i])
  }

  /** The `best`/`lab` loop of `predict`. */
  method Scan(norm: (Row, Row) -> Option<real>, refs: Matrix, y: Row, labels: seq<int>) returns (r: Result<int>)
    requires |refs| <= |labels|
    ensures r == Classify(norm, refs, y, labels)
  {
    var best := DoubleMax;
    var lab := -1;
    ghost var ds: seq<real> := [];
    for i := 0 to |refs|
      invariant |ds| == i
      invariant forall j :: 0 <= j < i ==> norm(refs[j], y) == Some(ds[j])
      invariant FirstMin(ds).None? ==> best == DoubleMax && lab == -1
      invariant FirstMin(ds).Some? ==> best == ds[FirstMin(ds).value] && lab == labels[FirstMin(ds).value]
    {
      var d := norm(refs[i], y);
      if d.None? {
        return Err(CvException);
      }
      if d.value < best {
        best, lab := d.value, labels[i];
      }
      assert (ds + [d.value])[..i] == ds;
      ds := ds + [d.value];
    }
    ghost var dist := Distances(norm, refs, y);
    assert dist.Some?;
    assert dist.value == ds;
    r := Ok(lab);
  }
}
