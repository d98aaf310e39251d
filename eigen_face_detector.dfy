/**
 * EigenFaceDetector: principal components of the training images, then
 * nearest-neighbour lookup among the projected training images.
 */
module EigenFace {
  import opened Common
  import opened OpenCv
  import opened FaceDetectorBase
  import NearestNeighbour

  class EigenFaceDetector {
    /** The face size given at construction; the detector never reads it again. */
    const imgWidth: int
    const imgHeight: int
    /** The number of principal components requested from PCACompute. */
    const k: int
    /** The OpenCV routines the detector calls. */
    const cv: Backend

    // Java's null is None / null here.
    var mean: Option<Row>
    var eigVec: Option<Matrix>
    var projections: Option<Matrix>
    var labelsRef: array?<int>

    /**
     * Whenever `projections` is set, so are `mean` and `eigVec`, and a
     * non-empty `projections` has one row per retained label.
     */
    ghost predicate Valid()
      reads this
    {
      && cv.Shapes()
      && (projections.Some? ==>
            && mean.Some? && eigVec.Some?
            && (|projections.value| > 0 ==> labelsRef != null && |projections.value| == labelsRef.Length))
    }

    constructor (w: int, h: int, k: int, cv: Backend)
      requires cv.Shapes()
      ensures Valid()
      ensures imgWidth == w && imgHeight == h && this.k == k && this.cv == cv
      ensures mean == None && eigVec == None && projections == None && labelsRef == null
    {
      imgWidth, imgHeight := w, h;
      this.k, this.cv := k, cv;
      mean, eigVec, projections, labelsRef := None, None, None, null;
    }

    /** The retained labels as a sequence (empty while `labelsRef` is null). */
    function Labels(): (ls: seq<int>)
      reads this, labelsRef
      ensures labelsRef != null ==> ls == labelsRef[..]
      ensures labelsRef == null ==> ls == []
    {
      if labelsRef == null then [] else labelsRef[..]
    }

    /**
     * `train`: count check and vectorisation first, then `mean`/`eigVec`,
     * then `projections`, then a copy of the labels. A failure in the OpenCV
     * calls leaves the fields written so far in place.
     */
    method Train(imgs: seq<Image>, labels: array<int>) returns (r: Result<()>)
      requires Valid()
      requires forall i :: 0 <= i < |imgs| ==> imgs[i].Valid()
      modifies this
      ensures Valid()
      ensures TrainingMatrix(imgs, labels.Length).Err? ==>
                r == Err(TrainingMatrix(imgs, labels.Length).error) && unchanged(this)
      ensures TrainingMatrix(imgs, labels.Length).Ok? ==>
                var data := TrainingMatrix(imgs, labels.Length).value;
                var pca := cv.pcaCompute(data, k);
                && mean == Some(if pca.Some? then pca.value.mean else [])
                && eigVec == Some(if pca.Some? then pca.value.vectors else [])
                && (pca.None? ==> r == Err(CvException) && projections == old(projections))
                && (pca.Some? ==>
                      var proj := cv.pcaProject(data, pca.value.mean, pca.value.vectors);
                      && projections == Some(if proj.Some? then proj.value else [])
                      && (proj.None? <==> r.Err?))
      ensures r.Err? ==> labelsRef == old(labelsRef) && r.error != IllegalState
      ensures r.Ok? ==>
                && projections.Some? && |projections.value| == |imgs|
                && labelsRef != null && fresh(labelsRef) && labelsRef[..] == labels[..]
    {
      var stacked := BuildTrainingMatrix(imgs, labels.Length);
      if stacked.Err? {
        return Err(stacked.error);
      }
      var data := stacked.value;
      mean, eigVec := Some([]), Some([]);
      var pca := cv.pcaCompute(data, k);
      if pca.None? {
        return Err(CvException);
      }
      mean, eigVec := Some(pca.value.mean), Some(pca.value.vectors);
      projections := Some([]);
      var proj := cv.pcaProject(data, pca.value.mean, pca.value.vectors);
      if proj.None? {
        return Err(CvException);
      }
      projections := Some(proj.value);
      labelsRef := CloneInts(labels);
      return Ok(());
    }

    /** What `predict` returns for `gray` in the current state. */
    function Predicted(gray: Image): (r: Result<int>)
      requires Valid() && gray.Valid()
      reads this, labelsRef
      ensures projections.None? ==> r == Err(IllegalState)
      ensures projections.Some? && gray.channels != 1 ==> r == Err(IllegalArgument)
      ensures r.Ok? && r.value != -1 ==>
                exists i :: 0 <= i < |projections.value| && r.value == labelsRef[i]
      ensures projections.Some? && r.Ok? ==>
                exists y :: r == NearestNeighbour.Classify(cv.norm, projections.value, y, Labels())
    {
      if projections.None? then Err(IllegalState)
      else
        match ToRowVector(gray)
        case Err(e) => Err(e)
        case Ok(x) =>
          match cv.pcaProject([x], mean.value, eigVec.value)
          case None => Err(CvException)
          case Some(y) =>
            assert |y| == 1;
            NearestNeighbour.Classify(cv.norm, projections.value, y[0], Labels())
    }

    /**
     * `predict`: throws before training, otherwise projects the query and
     * returns the label of the first stored projection at minimal distance.
     */
    method Predict(gray: Image) returns (r: Result<int>)
      requires Valid() && gray.Valid()
      ensures r == Predicted(gray)
    {
      if projections.None? {
        return Err(IllegalState);
      }
      var x := ToRowVector(gray);
      if x.Err? {
        return Err(x.error);
      }
      var y := cv.pcaProject([x.value], mean.value, eigVec.value);
      if y.None? {
        return Err(CvException);
      }
      assert |y.value| == 1;
      r := NearestNeighbour.Scan(cv.norm, projections.value, y.value[0], Labels());
    }
  }

  /**
   * The detector keeps its own copy of the labels: changing the caller's
   * array after a successful `train` does not reach the stored labels.
   */
  method TrainKeepsOwnLabels(d: EigenFaceDetector, imgs: seq<Image>, labels: array<int>) returns (r: Result<()>)
    requires d.Valid()
    requires forall i :: 0 <= i < |imgs| ==> imgs[i].Valid()
    requires labels.Length > 0
    modifies d, labels
    ensures r.Ok? ==> d.labelsRef != null && d.labelsRef[..] == old(labels[..]) && labels[0] != old(labels[0])
  {
    r := d.Train(imgs, labels);
    labels[0] := labels[0] + 1;
  }
}
