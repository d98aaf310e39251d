/**
 * What both detectors share (FaceDetectorBase): the image type, the
 * vectoriser `toRowVector`, and the prelude of `train` that turns the training
 * images into the stacked training matrix.
 */
module FaceDetectorBase {
  import opened Common
  import opened OpenCv

  /**
   * An OpenCV Mat holding an image of `rows` x `cols` pixels with `channels`
   * interleaved values per pixel; `continuous` says whether its rows lie in
   * memory without gaps (a region of interest of a bigger Mat does not).
   */
  datatype Image = Image(rows: nat, cols: nat, channels: nat, continuous: bool, pixels: seq<seq<int>>)
  {
    /**
     * `reshape(1, 1)` can turn the image into a single row: it must keep the
     * row count (a one-row image) or have at least one element to regroup.
     */
    predicate Reshapable()
    {
      rows == 1 || rows * cols * channels > 0
    }

    /** Every Mat is rectangular. */
    predicate Valid()
    {
      |pixels| == rows && forall y :: 0 <= y < rows ==> |pixels[y]| == cols * channels
    }

    /** `Mat.clone()`: the same pixels in a freshly allocated, continuous Mat. */
    function Clone(): (c: Image)
      ensures c.continuous
      ensures c.rows == rows && c.cols == cols && c.channels == channels && c.pixels == pixels
    {
      this.(continuous := true)
    }
  }

  /** Row-major flattening of a grid whose rows all have `width` values. */
  function Flatten(grid: seq<seq<int>>, width: nat): (flat: seq<int>)
    requires forall y :: 0 <= y < |grid| ==> |grid[y]| == width
    ensures |flat| == |grid| * width
  {
    if grid == [] then []
    else
      var tail := Flatten(grid[1..], width);
      assert |grid| * width == width + (|grid| - 1) * width;
      grid[0] + tail
  }

  /** The position of row y, column x in a row-major layout of the given width. */
  function RowMajor(y: nat, x: nat, width: nat): nat
  {
    y * width + x
  }

  /** Element y * width + x of the flattened grid is the value at row y, column x. */
  lemma {:induction false} FlattenRowMajor(grid: seq<seq<int>>, width: nat, y: nat, x: nat)
    requires forall i :: 0 <= i < |grid| ==> |grid[i]| == width
    requires y < |grid| && x < width
    ensures RowMajor(y, x, width) < |Flatten(grid, width)|
    ensures Flatten(grid, width)[RowMajor(y, x, width)] == grid[y][x]
  {
    if y > 0 {
      FlattenRowMajor(grid[1..], width, y - 1, x);
      assert y * width == width + (y - 1) * width;
    }
  }

  /** Every element of the flattened grid sits at its row-major position. */
  lemma {:induction false} FlattenRowMajorAll(grid: seq<seq<int>>, width: nat)
    requires forall i :: 0 <= i < |grid| ==> |grid[i]| == width
    ensures forall y, x :: 0 <= y < |grid| && 0 <= x < width ==>
              RowMajor(y, x, width) < |Flatten(grid, width)| && Flatten(grid, width)[RowMajor(y, x, width)] == grid[y][x]
  {
    forall y, x | 0 <= y < |grid| && 0 <= x < width
      ensures RowMajor(y, x, width) < |Flatten(grid, width)|
      ensures Flatten(grid, width)[RowMajor(y, x, width)] == grid[y][x]
    {
      FlattenRowMajor(grid, width, y, x);
    }
  }

  /** `convertTo(CV_64F)`: every value is kept as it is, with no scaling. */
  function ToDouble(values: seq<int>): (r: Row)
    ensures |r| == |values|
    ensures forall i :: 0 <= i < |values| ==> r[i] == values[i] as real
  {
    seq(|values|, i requires 0 <= i < |values| => values[i] as real)
  }

  /**
   * `toRowVector`: rejects any image that is not single-channel; `reshape`
   * throws for an image without elements unless it already has one row;
   * otherwise the image is flattened row-major into one row of rows * cols
   * doubles whose values are the pixel intensities themselves.
   */
  function ToRowVector(gray: Image): (r: Result<Row>)
    requires gray.Valid()
    ensures r.Err? <==> gray.channels != 1 || !gray.Reshapable()
    ensures gray.channels != 1 ==> r == Err(IllegalArgument)
    ensures gray.channels == 1 && !gray.Reshapable() ==> r == Err(CvException)
    ensures r.Ok? ==> |r.value| == gray.rows * gray.cols
    ensures r.Ok? ==> forall y, x :: 0 <= y < gray.rows && 0 <= x < gray.cols ==>
                        RowMajor(y, x, gray.cols) < |r.value| &&
                        r.value[RowMajor(y, x, gray.cols)] == gray.pixels[y][x] as real
  {
    if gray.channels != 1 then Err(IllegalArgument)
    else if !gray.Reshapable() then Err(CvException)
    else
      var cont := if gray.continuous then gray else gray.Clone();
      assert gray.cols * gray.channels == gray.cols;
      FlattenRowMajorAll(cont.pixels, cont.cols);
      Ok(ToDouble(Flatten(cont.pixels, cont.cols)))
  }

  /** A non-continuous image gives the same row as its continuous clone. */
  lemma CloneGivesSameRow(gray: Image)
    requires gray.Valid()
    ensures gray.Clone().Valid()
    ensures ToRowVector(gray.Clone()) == ToRowVector(gray)
  {
  }

  /**
   * The rows `toRowVector` gives for the images, in order; the first image
   * it rejects makes the whole list fail with that image's exception.
   */
  function RowVectors(imgs: seq<Image>): (r: Result<seq<Row>>)
    requires forall i :: 0 <= i < |imgs| ==> imgs[i].Valid()
    ensures r.Err? <==> exists i :: 0 <= i < |imgs| && ToRowVector(imgs[i]).Err?
    ensures r.Err? ==> exists i :: 0 <= i < |imgs| && ToRowVector(imgs[i]) == Err(r.error) &&
                          forall j :: 0 <= j < i ==> ToRowVector(imgs[j]).Ok?
    ensures r.Ok? ==> |r.value| == |imgs|
    ensures r.Ok? ==> forall i :: 0 <= i < |imgs| ==> ToRowVector(imgs[i]) == Ok(r.value[i])
  {
    if imgs == [] then Ok([])
    else
      match ToRowVector(imgs[0])
      case Err(e) => Err(e)
      case Ok(first) =>
        match RowVectors(imgs[1..])
        case Err(e) => Err(e)
        case Ok(rest) =>
          assert forall i :: 1 <= i < |imgs| ==> imgs[i] == imgs[1..][i - 1];
          Ok([first] + rest)
  }

  /** The loop of `train` that vectorises every training image in turn. */
  method VectorizeAll(imgs: seq<Image>) returns (r: Result<seq<Row>>)
    requires forall i :: 0 <= i < |imgs| ==> imgs[i].Valid()
    ensures r == RowVectors(imgs)
  {
    var rows: seq<Row> := [];
    for i := 0 to |imgs|
      invariant |rows| == i
      invariant forall j :: 0 <= j < i ==> ToRowVector(imgs[j]) == Ok(rows[j])
    {
      var row := ToRowVector(imgs[i]);
      if row.Err? {
        return Err(row.error);
      }
      rows := rows + [row.value];
    }
    r := Ok(rows);
    assert RowVectors(imgs).Ok?;
    assert RowVectors(imgs).value == rows;
  }

  /**
   * The prelude of `train`, before any field is written: the image count must
   * equal the label count, every image must pass `toRowVector`, and all of
   * them must flatten to rows of one width, which are then stacked in order.
   */
  function TrainingMatrix(imgs: seq<Image>, labelCount: int): (r: Result<Matrix>)
    requires forall i :: 0 <= i < |imgs| ==> imgs[i].Valid()
    ensures |imgs| != labelCount ==> r == Err(IllegalArgument)
    ensures r.Ok? <==>
              && |imgs| == labelCount
              && (forall i :: 0 <= i < |imgs| ==> ToRowVector(imgs[i]).Ok?)
              && (forall i :: 0 <= i < |imgs| ==> imgs[i].rows * imgs[i].cols == imgs[0].rows * imgs[0].cols)
    ensures r.Ok? ==> |r.value| == |imgs|
    ensures r.Ok? ==> forall i :: 0 <= i < |imgs| ==> ToRowVector(imgs[i]) == Ok(r.value[i])
  {
    if |imgs| != labelCount then Err(IllegalArgument)
    else
      match RowVectors(imgs)
      case Err(e) => Err(e)
      case Ok(rows) => Vconcat(rows)
  }

  /**
   * The prelude of both detectors' `train`: the count check, the loop that
   * vectorises each image, and the stacking of the rows.
   */
  method BuildTrainingMatrix(imgs: seq<Image>, labelCount: int) returns (r: Result<Matrix>)
    requires forall i :: 0 <= i < |imgs| ==> imgs[i].Valid()
    ensures r == TrainingMatrix(imgs, labelCount)
  {
    if |imgs| != labelCount {
      return Err(IllegalArgument);
    }
    var rows := VectorizeAll(imgs);
    if rows.Err? {
      return Err(rows.error);
    }
    r := Vconcat(rows.value);
  }
}
