/**
 * The OpenCV calls the detectors make.
 *
 * The floating-point linear algebra (PCA, projection, matrix products,
 * pseudo-inverse, eigen-decomposition, reductions, norms) lives in a native
 * library whose code is not part of this model. Each such routine is a field of
 * `Backend`: a function value that either produces a result or throws
 * (`None`). The only facts assumed about them are the row counts in `Shapes`.
 * The few calls whose behaviour is plain bookkeeping (vconcat, zeros, rowRange)
 * are defined here outright.
 */
module OpenCv {
  import opened Common

  /** The two outputs of `Core.PCACompute`: the mean row and the basis rows. */
  datatype Pca = Pca(mean: Row, vectors: Matrix)

  /** The opaque OpenCV routines; `None` stands for a thrown exception. */
  datatype Backend = Backend(
    pcaCompute: (Matrix, int) -> Option<Pca>,          // Core.PCACompute(data, mean, vectors, maxComponents)
    pcaProject: (Matrix, Row, Matrix) -> Option<Matrix>, // Core.PCAProject(data, mean, vectors, result)
    gemm: (Matrix, Matrix) -> Option<Matrix>,          // Core.gemm(a, b, 1.0, empty, 0.0, result)
    transpose: Matrix -> Matrix,                       // Mat.t()
    reduceAvg: Matrix -> Option<Row>,                  // Core.reduce(m, result, 0, REDUCE_AVG)
    subtract: (Row, Row) -> Option<Row>,               // Core.subtract(a, b, result)
    scaleAdd: (Matrix, real, Matrix) -> Option<Matrix>, // Core.scaleAdd(a, alpha, b, result)
    add: (Matrix, Matrix) -> Option<Matrix>,           // Core.add(a, b, result)
    invert: Matrix -> Option<Matrix>,                  // Core.invert(m, result, DECOMP_SVD)
    eigen: Matrix -> Option<Matrix>,                   // Core.eigen(m, values, vectors): the vectors
    norm: (Row, Row) -> Option<real>)                  // Core.norm(a, b, NORM_L2)
  {
    /**
     * The shape facts the detectors rely on: projecting keeps one row per
     * input row, and a product has as many rows as its left operand.
     */
    ghost predicate Shapes()
    {
      && (forall data, m, vs :: pcaProject(data, m, vs).Some? ==> |pcaProject(data, m, vs).value| == |data|)
      && (forall a, b :: gemm(a, b).Some? ==> |gemm(a, b).value| == |a|)
    }
  }

  /**
   * `Core.vconcat` over the 1-row matrices in `rows`: it fails unless every row
   * has the width of the first; otherwise the rows are stacked in order.
   */
  function Vconcat(rows: seq<Row>): (r: Result<Matrix>)
    ensures r.Ok? <==> forall i :: 0 <= i < |rows| ==> |rows[i]| == |rows[0]|
    ensures r.Err? ==> r.error == CvException
    ensures r.Ok? ==> |r.value| == |rows| && forall i :: 0 <= i < |rows| ==> r.value[i] == rows[i]
  {
    if forall i :: 0 <= i < |rows| ==> |rows[i]| == |rows[0]| then Ok(rows) else Err(CvException)
  }

  /** `Mat.zeros(rows, cols, CV_64F)`: fails on a negative size. */
  function Zeros(rows: int, cols: int): (z: Result<Matrix>)
    ensures z.Ok? <==> rows >= 0 && cols >= 0
    ensures z.Err? ==> z.error == CvException
    ensures z.Ok? ==> |z.value| == rows
    ensures z.Ok? ==> forall i :: 0 <= i < rows ==>
                        |z.value[i]| == cols && forall j :: 0 <= j < cols ==> z.value[i][j] == 0.0
  {
    if rows < 0 || cols < 0 then Err(CvException)
    else Ok(seq(rows, _ => seq(cols, _ => 0.0)))
  }

  /** `m.rowRange(start, end).clone()`: fails unless 0 <= start <= end <= rows. */
  function RowRange(m: Matrix, start: int, end: int): (r: Result<Matrix>)
    ensures r.Ok? <==> 0 <= start <= end <= |m|
    ensures r.Err? ==> r.error == CvException
    ensures r.Ok? ==> |r.value| == end - start
    ensures r.Ok? ==> forall i :: 0 <= i < end - start ==> r.value[i] == m[start + i]
  {
    if 0 <= start <= end <= |m| then Ok(m[start..end]) else Err(CvException)
  }
}
