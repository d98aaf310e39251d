/**
 * FisherFaceDetector: principal components capped at N - C, a linear
 * discriminant basis of C - 1 rows on top, then nearest-neighbour lookup.
 */
module FisherFace {
  import opened Common
  import opened OpenCv
  import opened FaceDetectorBase
  import NearestNeighbour

  /** `unique`: the number of distinct values in the label array. */
  function Unique(labels: seq<int>): (c: nat)
    ensures c == |set x | x in labels|
    ensures c <= |labels|
    ensures |labels| > 0 ==> c > 0
  {
    if labels == [] then 0
    else
      var init := labels[..|labels| - 1];
      var last := labels[|labels| - 1];
      var seen := set x | x in init;
      assert labels == init + [last];
      assert (set x | x in labels) == seen + {last};
      if last in init then
        assert seen + {last} == seen;
        Unique(init)
      else
        assert last !in seen;
        Unique(init) + 1
  }

  /** The positions holding `key`, in increasing order. */
  function IndicesOf(labels: seq<int>, key: int): (idxs: seq<int>)
    ensures forall i {:trigger i in idxs} :: i in idxs <==> 0 <= i < |labels| && labels[i] == key
    ensures forall a, b :: 0 <= a < b < |idxs| ==> idxs[a] < idxs[b]
    ensures forall q :: 0 <= q < |idxs| ==> 0 <= idxs[q] < |labels| && labels[idxs[q]] == key
  {
    if labels == [] then []
    else
      var last := |labels| - 1;
      var init := labels[..last];
      assert forall i :: 0 <= i < last ==> init[i] == labels[i];
      var before := IndicesOf(init, key);
      assert forall a :: 0 <= a < |before| ==> before[a] in before;
      before + (if labels[last] == key then [last] else [])
  }

  /** Appending one label extends only the list of that label, by its position. */
  lemma IndicesOfSnoc(labels: seq<int>, v: int, key: int)
    ensures IndicesOf(labels + [v], key) == IndicesOf(labels, key) + (if v == key then [|labels|] else [])
  {
    assert (labels + [v])[..|labels|] == labels;
  }

  /** A value that does not occur has no positions. */
  lemma IndicesOfAbsent(labels: seq<int>, key: int)
    requires key !in labels
    ensures IndicesOf(labels, key) == []
  {
  }

  /** The grouping `cls` holds, for each label value in `labels`, the positions of that value. */
  ghost predicate GroupsOf(labels: seq<int>, cls: map<int, seq<int>>)
  {
    && (forall x :: x in cls <==> x in labels)
    && forall key :: key in cls ==> cls[key] == IndicesOf(labels, key)
  }

  /** One step of the `cls` loop: position |labels| joins the list of its value. */
  lemma {:induction false} GroupsOfSnoc(labels: seq<int>, v: int, cls: map<int, seq<int>>)
    requires GroupsOf(labels, cls)
    ensures GroupsOf(labels + [v], cls[v := (if v in cls then cls[v] else []) + [|labels|]])
  {
    var cls' := cls[v := (if v in cls then cls[v] else []) + [|labels|]];
    forall key | key in cls'
      ensures cls'[key] == IndicesOf(labels + [v], key)
    {
      IndicesOfSnoc(labels, v, key);
      if key == v && v !in cls {
        IndicesOfAbsent(labels, v);
      }
    }
  }

  /**
   * What a grouping guarantees: one key per distinct label, every position in
   * the list of its own label and in no other, each list increasing.
   */
  lemma {:induction false} GroupsOfFacts(labels: seq<int>, cls: map<int, seq<int>>)
    requires GroupsOf(labels, cls)
    ensures |cls| == Unique(labels)
    ensures forall i :: 0 <= i < |labels| ==> labels[i] in cls && i in cls[labels[i]]
    ensures forall key, i :: key in cls && i in cls[key] ==> 0 <= i < |labels| && labels[i] == key
    ensures forall key :: key in cls ==> forall a, b :: 0 <= a < b < |cls[key]| ==> cls[key][a] < cls[key][b]
  {
    forall x
      ensures x in cls.Keys <==> x in (set y | y in labels)
    {
    }
    assert cls.Keys == set y | y in labels;
    assert |cls| == |cls.Keys|;
    forall i | 0 <= i < |labels|
      ensures labels[i] in cls && i in cls[labels[i]]
    {
      assert labels[i] in labels;
      assert i in IndicesOf(labels, labels[i]);
    }
  }

  /**
   * The `cls` loop of `train`: every index 0..N-1 lands in the list keyed by
   * its label, each list is increasing, and there is one key per distinct label.
   */
  method GroupByLabel(labels: array<int>) returns (cls: map<int, seq<int>>)
    ensures GroupsOf(labels[..], cls)
    ensures |cls| == Unique(labels[..])
    ensures forall i :: 0 <= i < labels.Length ==> labels[i] in cls && i in cls[labels[i]]
    ensures forall key, i :: key in cls && i in cls[key] ==> 0 <= i < labels.Length && labels[i] == key
    ensures forall key :: key in cls ==> forall a, b :: 0 <= a < b < |cls[key]| ==> cls[key][a] < cls[key][b]
  {
    cls := map[];
    for i := 0 to labels.Length
      invariant GroupsOf(labels[..i], cls)
    {
      var key := labels[i];
      assert labels[..i + 1] == labels[..i] + [key];
      GroupsOfSnoc(labels[..i], key, cls);
      if key in cls {
        cls := cls[key := cls[key] + [i]];
      } else {
        cls := cls[key := [i]];
      }
    }
    assert labels[..labels.Length] == labels[..];
    GroupsOfFacts(labels[..], cls);
  }

  /** `rowsOf`: a new matrix whose row r is a copy of row idxs[r] of `src`. */
  method RowsOf(src: Matrix, idxs: seq<int>) returns (dst: Matrix)
    requires forall r :: 0 <= r < |idxs| ==> 0 <= idxs[r] < |src|
    ensures |dst| == |idxs|
    ensures forall r :: 0 <= r < |idxs| ==> dst[r] == src[idxs[r]]
  {
    var cols := if |src| == 0 then 0 else |src[0]|;
    var buf := new Row[|idxs|](_ => seq(cols, _ => 0.0));
    for r := 0 to |idxs|
      invariant forall q :: 0 <= q < r ==> buf[q] == src[idxs[q]]
    {
      buf[r] := src[idxs[r]];
    }
    dst := buf[..];
  }

  /** `redDim`: the requested PCA dimension, capped at N - C. */
  function RedDim(pcaDim: int, n: int, classes: int): (d: int)
    ensures d <= pcaDim && d <= n - classes
    ensures d == pcaDim || d == n - classes
  {
    if pcaDim < n - classes then pcaDim else n - classes
  }

  /**
   * The label values in the order of their first occurrence, each once: the
   * order in which this model visits the groups of the HashMap `cls`.
   */
  function FirstOccurrences(labels: seq<int>): (keys: seq<int>)
    ensures forall x :: x in keys <==> x in labels
    ensures forall a, b :: 0 <= a < b < |keys| ==> keys[a] != keys[b]
    ensures |keys| == Unique(labels)
  {
    if labels == [] then []
    else
      var init := labels[..|labels| - 1];
      var last := labels[|labels| - 1];
      assert labels == init + [last];
      if last in init then FirstOccurrences(init)
      else FirstOccurrences(init) + [last]
  }

  /** The values first met in a prefix of the labels come first, in the same order. */
  lemma {:induction false} FirstOccurrencesPrefix(labels: seq<int>, j: nat)
    requires j <= |labels|
    ensures FirstOccurrences(labels[..j]) <= FirstOccurrences(labels)
    decreases |labels| - j
  {
    if j == |labels| {
      assert labels[..j] == labels;
    } else {
      FirstOccurrencesPrefix(labels, j + 1);
      assert labels[..j + 1][..j] == labels[..j];
      var short, mid, long := FirstOccurrences(labels[..j]), FirstOccurrences(labels[..j + 1]), FirstOccurrences(labels);
      assert short <= mid;
      assert short == mid[..|short|] && mid == long[..|mid|];
      assert short == long[..|short|];
    }
  }

  /** The rows of `src` at the positions `idxs`, in that order. */
  function Gathered(src: Matrix, idxs: seq<int>): (m: Matrix)
    requires forall q :: 0 <= q < |idxs| ==> 0 <= idxs[q] < |src|
    ensures |m| == |idxs| && forall q :: 0 <= q < |idxs| ==> m[q] == src[idxs[q]]
  {
    seq(|idxs|, q requires 0 <= q < |idxs| => src[idxs[q]])
  }

  /**
   * Sw after the inner loop over one group: for each member x in turn, the
   * outer product of x - mi is added; the first OpenCV exception ends it.
   */
  function WithinScatter(cv: Backend, xp: Matrix, idxs: seq<int>, mi: Row, sw: Matrix): Option<Matrix>
    requires forall q :: 0 <= q < |idxs| ==> 0 <= idxs[q] < |xp|
    decreases |idxs|
  {
    if idxs == [] then Some(sw)
    else
      match cv.subtract(xp[idxs[0]], mi)
      case None => None
      case Some(d) =>
        match cv.gemm(cv.transpose([d]), [d])
        case None => None
        case Some(o) =>
          match cv.add(sw, o)
          case None => None
          case Some(sum) => WithinScatter(cv, xp, idxs[1..], mi, sum)
  }

  /**
   * One group's share of the scatter matrices: with mi the mean of its rows,
   * |idxs| times the outer product of mi - overall is added to Sb, and then
   * the group's within-class terms to Sw. `None` is an OpenCV exception.
   */
  function GroupScatter(cv: Backend, xp: Matrix, idxs: seq<int>, overall: Row, sw: Matrix, sb: Matrix)
    : Option<(Matrix, Matrix)>
    requires forall q :: 0 <= q < |idxs| ==> 0 <= idxs[q] < |xp|
  {
    match cv.reduceAvg(Gathered(xp, idxs))
    case None => None
    case Some(mi) =>
      match cv.subtract(mi, overall)
      case None => None
      case Some(diff) =>
        match cv.gemm(cv.transpose([diff]), [diff])
        case None => None
        case Some(outer) =>
          match cv.scaleAdd(outer, |idxs| as real, sb)
          case None => None
          case Some(sb') =>
            match WithinScatter(cv, xp, idxs, mi, sw)
            case None => None
            case Some(sw') => Some((sw', sb'))
  }

  /**
   * The scatter matrices after visiting the groups of `keys` in order, each
   * group holding the positions of its label; `None` is an OpenCV exception.
   */
  function ScatterOver(cv: Backend, xp: Matrix, labels: seq<int>, keys: seq<int>, overall: Row, sw: Matrix, sb: Matrix)
    : Option<(Matrix, Matrix)>
    requires |xp| == |labels|
    decreases |keys|
  {
    if keys == [] then Some((sw, sb))
    else
      match GroupScatter(cv, xp, IndicesOf(labels, keys[0]), overall, sw, sb)
      case None => None
      case Some(acc) => ScatterOver(cv, xp, labels, keys[1..], overall, acc.0, acc.1)
  }

  /**
   * Lines 36-46 of `train`: the body of the loop over the label groups. It
   * returns the group's `GroupScatter` update of (Sw, Sb).
   */
  method AccumulateGroup(cv: Backend, xp: Matrix, idxs: seq<int>, overall: Row, sw: Matrix, sb: Matrix)
    returns (r: Option<(Matrix, Matrix)>)
    requires forall q :: 0 <= q < |idxs| ==> 0 <= idxs[q] < |xp|
    ensures r == GroupScatter(cv, xp, idxs, overall, sw, sb)
  {
    var xi := RowsOf(xp, idxs);
    assert xi == Gathered(xp, idxs);
    var mi := cv.reduceAvg(xi);
    if mi.None? { return None; }
    var diff := cv.subtract(mi.value, overall);
    if diff.None? { return None; }
    var outer := cv.gemm(cv.transpose([diff.value]), [diff.value]);
    if outer.None? { return None; }
    var sb' := cv.scaleAdd(outer.value, |idxs| as real, sb);
    if sb'.None? { return None; }
    var sw' := sw;
    for q := 0 to |idxs|
      invariant WithinScatter(cv, xp, idxs, mi.value, sw) == WithinScatter(cv, xp, idxs[q..], mi.value, sw')
    {
      assert idxs[q..][0] == idxs[q] && idxs[q..][1..] == idxs[q + 1..];
      var d := cv.subtract(xp[idxs[q]], mi.value);
      if d.None? { return None; }
      var o := cv.gemm(cv.transpose([d.value]), [d.value]);
      if o.None? { return None; }
      var sum := cv.add(sw', o.value);
      if sum.None? { return None; }
      sw' := sum.value;
    }
    assert idxs[|idxs|..] == [];
    r := Some((sw', sb'.value));
  }

  /**
   * Lines 35-47 of `train`: the loop over the label groups that accumulates
   * the within-class (Sw) and between-class (Sb) scatter. The HashMap's order
   * is unspecified; this model visits the groups in the order in which their
   * labels first occur, so the result is `ScatterOver` those labels.
   */
  method AccumulateScatter(cv: Backend, xp: Matrix, labels: seq<int>, cls: map<int, seq<int>>,
                           overall: Row, sw0: Matrix, sb0: Matrix)
    returns (r: Option<(Matrix, Matrix)>)
    requires GroupsOf(labels, cls)
    requires |xp| == |labels|
    ensures r == ScatterOver(cv, xp, labels, FirstOccurrences(labels), overall, sw0, sb0)
  {
    ghost var all := FirstOccurrences(labels);
    ghost var done := 0;
    var sw, sb := sw0, sb0;
    for i := 0 to |labels|
      invariant done == |FirstOccurrences(labels[..i])| <= |all|
      invariant ScatterOver(cv, xp, labels, all, overall, sw0, sb0) ==
                ScatterOver(cv, xp, labels, all[done..], overall, sw, sb)
    {
      var key := labels[i];
      FirstOccurrencesStep(labels, i);
      if key !in labels[..i] {
        ScatterOverStep(cv, xp, labels, all[done..], overall, sw, sb);
        assert all[done..][1..] == all[done + 1..];
        var acc := AccumulateGroup(cv, xp, cls[key], overall, sw, sb);
        if acc.None? {
          return None;
        }
        sw, sb := acc.value.0, acc.value.1;
        done := done + 1;
      }
    }
    assert labels[..|labels|] == labels;
    assert all[done..] == [];
    r := Some((sw, sb));
  }

  /**
   * One step of the loop over the labels: a label already seen adds no group,
   * a new one is the next group in first-occurrence order.
   */
  lemma FirstOccurrencesStep(labels: seq<int>, i: nat)
    requires i < |labels|
    ensures labels[i] in labels[..i] ==> FirstOccurrences(labels[..i + 1]) == FirstOccurrences(labels[..i])
    ensures labels[i] !in labels[..i] ==>
              var done := |FirstOccurrences(labels[..i])|;
              done < |FirstOccurrences(labels)| && FirstOccurrences(labels)[done] == labels[i] &&
              FirstOccurrences(labels[..i + 1]) == FirstOccurrences(labels[..i]) + [labels[i]]
    ensures |FirstOccurrences(labels[..i + 1])| <= |FirstOccurrences(labels)|
  {
    assert labels[..i + 1][..i] == labels[..i];
    assert labels[..i + 1] == labels[..i] + [labels[i]];
    FirstOccurrencesPrefix(labels, i + 1);
  }

  /** Visiting a non-empty list of groups starts with the group of its first label. */
  lemma ScatterOverStep(cv: Backend, xp: Matrix, labels: seq<int>, keys: seq<int>, overall: Row, sw: Matrix, sb: Matrix)
    requires |xp| == |labels| && keys != []
    ensures ScatterOver(cv, xp, labels, keys, overall, sw, sb) ==
              match GroupScatter(cv, xp, IndicesOf(labels, keys[0]), overall, sw, sb)
              case None => None
              case Some(acc) => ScatterOver(cv, xp, labels, keys[1..], overall, acc.0, acc.1)
  {
  }

  /**
   * Sw^-1 * Sb for the projected training rows `xp`: Sw and Sb start as
   * redDim x redDim zeros and the groups are visited in first-occurrence
   * order. `None` is an OpenCV exception.
   */
  function DiscriminantMatrix(cv: Backend, xp: Matrix, labels: seq<int>, redDim: int): (a: Option<Matrix>)
    requires |xp| == |labels|
    ensures redDim < 0 ==> a.None?
  {
    match Zeros(redDim, redDim)
    case Err(_) => None
    case Ok(z) =>
      match cv.reduceAvg(xp)
      case None => None
      case Some(overall) =>
        match ScatterOver(cv, xp, labels, FirstOccurrences(labels), overall, z, z)
        case None => None
        case Some(s) =>
          match cv.invert(s.0)
          case None => None
          case Some(swInv) => cv.gemm(swInv, s.1)
  }

  /**
   * The discriminant basis `ldaVec`: the first C - 1 rows of the eigenvector
   * matrix of Sw^-1 * Sb, where C is the number of distinct labels.
   */
  function LdaFrom(cv: Backend, xp: Matrix, labels: seq<int>, redDim: int): (r: Result<Matrix>)
    requires |xp| == |labels|
    ensures r.Err? ==> r.error == CvException
    ensures redDim < 0 ==> r.Err?
    ensures r.Ok? <==>
              var a := DiscriminantMatrix(cv, xp, labels, redDim);
              a.Some? && cv.eigen(a.value).Some? && 1 <= Unique(labels) <= |cv.eigen(a.value).value| + 1
    ensures r.Ok? ==>
              r.value == cv.eigen(DiscriminantMatrix(cv, xp, labels, redDim).value).value[..Unique(labels) - 1]
  {
    match DiscriminantMatrix(cv, xp, labels, redDim)
    case None => Err(CvException)
    case Some(a) =>
      match cv.eigen(a)
      case None => Err(CvException)
      case Some(e) => RowRange(e, 0, Unique(labels) - 1)
  }

  /**
   * Lines 29-51 of `train` after the PCA projection. They only compute
   * locals: the scatter matrices, Sw^-1 * Sb, its eigenvectors and the
   * first C - 1 of them.
   */
  method LdaBasis(cv: Backend, xp: Matrix, labels: array<int>, redDim: int) returns (r: Result<Matrix>)
    requires |xp| == labels.Length
    ensures r == LdaFrom(cv, xp, labels[..], redDim)
  {
    var c: int := Unique(labels[..]);
    var sw := Zeros(redDim, redDim);
    var sb := Zeros(redDim, redDim);
    if sw.Err? || sb.Err? {
      return Err(CvException);
    }
    var cls := GroupByLabel(labels);
    var overall := cv.reduceAvg(xp);
    if overall.None? {
      return Err(CvException);
    }
    var scatter := AccumulateScatter(cv, xp, labels[..], cls, overall.value, sw.value, sb.value);
    if scatter.None? {
      return Err(CvException);
    }
    var swInv := cv.invert(scatter.value.0);
    if swInv.None? {
      return Err(CvException);
    }
    var a := cv.gemm(swInv.value, scatter.value.1);
    if a.None? {
      return Err(CvException);
    }
    var eig := cv.eigen(a.value);
    if eig.None? {
      return Err(CvException);
    }
    r := RowRange(eig.value, 0, c - 1);
  }

  class FisherFaceDetector {
    /** The face size given at construction; the detector never reads it again. */
    const imgWidth: int
    const imgHeight: int
    /** The requested number of principal components, before the N - C cap. */
    const pcaDim: int
    /** The OpenCV routines the detector calls. */
    const cv: Backend

    // Java's null is None / null here.
    var mean: Option<Row>
    var pcaVec: Option<Matrix>
    var ldaVec: Option<Matrix>
    var projections: Option<Matrix>
    var labelsRef: array?<int>

    /**
     * Whenever `projections` is set, so are the two bases and the mean, and a
     * non-empty `projections` has one row per retained label.
     */
    ghost predicate Valid()
      reads this
    {
      && cv.Shapes()
      && (projections.Some? ==>
            && mean.Some? && pcaVec.Some? && ldaVec.Some?
            && (|projections.value| > 0 ==> labelsRef != null && |projections.value| == labelsRef.Length))
    }

    constructor (w: int, h: int, pcaDim: int, cv: Backend)
      requires cv.Shapes()
      ensures Valid()
      ensures imgWidth == w && imgHeight == h && this.pcaDim == pcaDim && this.cv == cv
      ensures mean == None && pcaVec == None && ldaVec == None && projections == None && labelsRef == null
    {
      imgWidth, imgHeight := w, h;
      this.pcaDim, this.cv := pcaDim, cv;
      mean, pcaVec, ldaVec, projections, labelsRef := None, None, None, None, null;
    }

    /** The retained labels as a sequence (empty while `labelsRef` is null). */
    function Labels(): (ls: seq<int>)
      reads this, labelsRef
      ensures labelsRef != null ==> ls == labelsRef[..]
      ensures labelsRef == null ==> ls == []
    {
      if labelsRef == null then [] else labelsRef[..]
    }

    /**
     * `train`: the count check and the vectorisation come first and write no
     * field; the rest is `TrainOn` the stacked training matrix.
     */
    method Train(imgs: seq<Image>, labels: array<int>) returns (r: Result<()>)
      requires Valid()
      requires forall i :: 0 <= i < |imgs| ==> imgs[i].Valid()
      modifies this
      ensures Valid()
      ensures TrainingMatrix(imgs, labels.Length).Err? ==>
                r == Err(TrainingMatrix(imgs, labels.Length).error) && unchanged(this)
      ensures TrainingMatrix(imgs, labels.Length).Ok? ==>
                TrainedOn(TrainingMatrix(imgs, labels.Length).value, labels, old(ldaVec), old(projections), r)
      ensures r.Err? ==> labelsRef == old(labelsRef) && r.error != IllegalState
      ensures r.Ok? ==>
                && projections.Some? && |projections.value| == |imgs|
                && labelsRef != null && fresh(labelsRef) && labelsRef[..] == labels[..]
    {
      var stacked := BuildTrainingMatrix(imgs, labels.Length);
      if stacked.Err? {
        return Err(stacked.error);
      }
      r := TrainOn(stacked.value, labels);
    }

    /**
     * The state `train` leaves after stacking `data`, one case per exception:
     * `mean`/`pcaVec` are written first (line 25) and come from PCA with
     * min(pcaDim, N - C) components; a PCA, projection or discriminant-basis
     * failure leaves `ldaVec` and `projections` as they were; after that
     * `ldaVec` is the discriminant basis (line 51) and `projections` is
     * written empty, then holds Xp * ldaVec^T (line 52) unless that product
     * throws.
     */
    ghost predicate TrainedOn(data: Matrix, labels: array<int>, ldaVec0: Option<Matrix>,
                              projections0: Option<Matrix>, r: Result<()>)
      requires cv.Shapes() && |data| == labels.Length
      reads this, labels
    {
      var redDim := RedDim(pcaDim, |data|, Unique(labels[..]));
      var pca := cv.pcaCompute(data, redDim);
      && mean == Some(if pca.Some? then pca.value.mean else [])
      && pcaVec == Some(if pca.Some? then pca.value.vectors else [])
      && (pca.None? ==> r == Err(CvException) && ldaVec == ldaVec0 && projections == projections0)
      && (pca.Some? ==>
            var xp := cv.pcaProject(data, pca.value.mean, pca.value.vectors);
            && (xp.None? ==> r == Err(CvException) && ldaVec == ldaVec0 && projections == projections0)
            && (xp.Some? ==>
                  var lda := LdaFrom(cv, xp.value, labels[..], redDim);
                  && (lda.Err? ==> r == Err(CvException) && ldaVec == ldaVec0 && projections == projections0)
                  && (lda.Ok? ==>
                        var proj := cv.gemm(xp.value, cv.transpose(lda.value));
                        && ldaVec == Some(lda.value)
                        && projections == Some(if proj.Some? then proj.value else [])
                        && (proj.None? <==> r.Err?))))
    }

    /** Lines 25-53 of `train`, on the stacked training matrix `data`. */
    method TrainOn(data: Matrix, labels: array<int>) returns (r: Result<()>)
      requires Valid() && |data| == labels.Length
      modifies this
      ensures Valid()
      ensures TrainedOn(data, labels, old(ldaVec), old(projections), r)
      ensures r.Err? ==> labelsRef == old(labelsRef) && r.error == CvException
      ensures r.Ok? ==>
                && projections.Some? && |projections.value| == |data|
                && labelsRef != null && fresh(labelsRef) && labelsRef[..] == labels[..]
    {
      mean, pcaVec := Some([]), Some([]);
      var redDim := RedDim(pcaDim, |data|, Unique(labels[..]));
      var pca := cv.pcaCompute(data, redDim);
      if pca.None? {
        return Err(CvException);
      }
      mean, pcaVec := Some(pca.value.mean), Some(pca.value.vectors);
      var xp := cv.pcaProject(data, pca.value.mean, pca.value.vectors);
      if xp.None? {
        return Err(CvException);
      }
      var lda := LdaBasis(cv, xp.value, labels, redDim);
      if lda.Err? {
        return Err(lda.error);
      }
      ldaVec := Some(lda.value);
      projections := Some([]);
      var proj := cv.gemm(xp.value, cv.transpose(lda.value));
      if proj.None? {
        return Err(CvException);
      }
      projections := Some(proj.value);
      labelsRef := CloneInts(labels);
      return Ok(());
    }

    /** What `predict` returns for `gray` in the current state. */
    function Predicted(gray: Image): (r: Result<int>)
      requires Valid() && gray.Valid()
      reads this, labelsRef
      ensures projections.None? ==> r == Err(IllegalState)
      ensures projections.Some? && gray.channels != 1 ==> r == Err(IllegalArgument)
      ensures r.Ok? && r.value != -1 ==>
                exists i :: 0 <= i < |projections.value| && r.value == labelsRef[i]
      ensures projections.Some? && r.Ok? ==>
                exists y :: r == NearestNeighbour.Classify(cv.norm, projections.value, y, Labels())
    {
      if projections.None? then Err(IllegalState)
      else
        match ToRowVector(gray)
        case Err(e) => Err(e)
        case Ok(x) =>
          match cv.pcaProject([x], mean.value, pcaVec.value)
          case None => Err(CvException)
          case Some(xp) =>
            match cv.gemm(xp, cv.transpose(ldaVec.value))
            case None => Err(CvException)
            case Some(y) =>
              assert |y| == 1;
              NearestNeighbour.Classify(cv.norm, projections.value, y[0], Labels())
    }

    /**
     * `predict`: throws before training, otherwise projects the query through
     * both bases and returns the label of the first stored projection at
     * minimal distance.
     */
    method Predict(gray: Image) returns (r: Result<int>)
      requires Valid() && gray.Valid()
      ensures r == Predicted(gray)
    {
      if projections.None? {
        return Err(IllegalState);
      }
      var x := ToRowVector(gray);
      if x.Err? {
        return Err(x.error);
      }
      var xp := cv.pcaProject([x.value], mean.value, pcaVec.value);
      if xp.None? {
        return Err(CvException);
      }
      var y := cv.gemm(xp.value, cv.transpose(ldaVec.value));
      if y.None? {
        return Err(CvException);
      }
      assert |y.value| == 1;
      r := NearestNeighbour.Scan(cv.norm, projections.value, y.value[0], Labels());
    }
  }
}
