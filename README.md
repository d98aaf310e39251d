# Face-recognition detectors: a Dafny model

This project models the recognition core of an Android face-recognition demo. Two detectors
share a base class:

- **EigenFaceDetector** projects the training images onto principal components.
- **FisherFaceDetector** caps the principal components at N − C, where N is the number of
  training images and C the number of distinct labels, and then adds a linear-discriminant
  basis of C − 1 rows.

Both detectors answer a query the same way. They project the query and return the label of
the first stored projection at minimal distance, or −1 when none is below `Double.MAX_VALUE`.

The floating-point linear algebra is delegated to OpenCV and is opaque in this model. That
covers PCA, projection, `gemm`, `invert`, `eigen`, `reduce` and `norm`. The model covers the
discrete skeleton around those calls:

- the single-channel check and row-major flattening of `toRowVector`;
- the count check, field-write order and label copy of `train`;
- the trained check and the first-wins nearest-neighbour scan of `predict`;
- the Fisherface bookkeeping: `unique`, the `redDim` cap, the grouping of indices by label,
  `rowsOf`, and the truncation to C − 1 eigenvector rows.

Modules:

- `Common`: `Option`, `Result`, the three exception kinds, `Row`/`Matrix`, and the array
  clone.
- `OpenCv`: the opaque routines as function values of a `Backend` (`None` = the call threw).
  The only promise about them is row counts (`Backend.Shapes`). `vconcat`, `zeros` and
  `rowRange` are defined outright.
- `FaceDetectorBase`: images, `toRowVector`, and the shared prelude of `train`.
- `NearestNeighbour`: the `best`/`lab` scan, proved against the specification `FirstMin`.
- `EigenFace` and `FisherFace`: the two detector classes. Their nullable fields are
  `Option` values and a nullable array, updated in place by `Train`.

Three behaviours of the code are worth stating plainly, because the model keeps them:

- **Retraining is not atomic.** `train` writes its fields one at a time. An OpenCV exception
  part-way through leaves a new `mean`/`pcaVec` (or `eigVec`) beside the older
  `ldaVec`/`projections`, or beside an empty `projections`. Both `Train` contracts say, for
  each failure point, which fields it leaves written.
- **`predict` does not check the query's shape.** The code never reads
  `imgWidth`/`imgHeight`. A query of the wrong size fails only inside OpenCV, which the model
  expresses as a possible `CvException` from the opaque backend.
- **`train` does not check for degenerate input.** Nothing guards against too few images or
  too few distinct labels. Those cases reach OpenCV (`Mat.zeros` with a negative size,
  `rowRange` out of range, or the opaque PCA).

## Model

| member | source | states |
|---|---|---|
| FaceDetectorBase.ToRowVector | app/src/main/java/com/example/face/core/FaceDetectorBase.java:27-34 | Fails with IllegalArgument exactly when the image is not single-channel. A single-channel image with no pixels and more or fewer than one row fails in `reshape(1, 1)` with CvException. Otherwise the row has rows·cols elements, and the element at row-major position y·cols + x is the pixel at (y, x), converted to real without scaling. |
| FaceDetectorBase.Flatten | app/src/main/java/com/example/face/core/FaceDetectorBase.java:31 | Flattening a grid of rows of width w gives \|grid\|·w values. |
| FaceDetectorBase.FlattenRowMajor | app/src/main/java/com/example/face/core/FaceDetectorBase.java:31 | Position y·w + x of the flattened grid is in range and holds grid[y][x]. |
| FaceDetectorBase.FlattenRowMajorAll | app/src/main/java/com/example/face/core/FaceDetectorBase.java:31 | The same, for every row y and column x at once. |
| FaceDetectorBase.Image.Clone | app/src/main/java/com/example/face/core/FaceDetectorBase.java:30 | A clone is continuous and has the same rows, columns, channels and pixels. |
| FaceDetectorBase.ToDouble | app/src/main/java/com/example/face/core/FaceDetectorBase.java:32 | `convertTo(CV_64F)` keeps the length, and each value is the original integer as a real, with no scaling. |
| FaceDetectorBase.CloneGivesSameRow | app/src/main/java/com/example/face/core/FaceDetectorBase.java:30 | A non-continuous image and its continuous clone vectorise to the same result. |
| FaceDetectorBase.RowVectors | app/src/main/java/com/example/face/core/EigenFaceDetector.java:21-22 | The list of rows fails iff `toRowVector` rejects some image, and then with the exception of the first rejected image. Otherwise it has one row per image, in input order, each equal to that image's `toRowVector`. |
| FaceDetectorBase.VectorizeAll | app/src/main/java/com/example/face/core/EigenFaceDetector.java:21-22 | The vectorising loop returns exactly `RowVectors` of the images. |
| FaceDetectorBase.TrainingMatrix | app/src/main/java/com/example/face/core/EigenFaceDetector.java:20-23 | A count mismatch gives IllegalArgument. The matrix exists iff the counts match, `toRowVector` accepts every image, and all images have the same number of pixels. It has one row per image, in order. |
| FaceDetectorBase.BuildTrainingMatrix | app/src/main/java/com/example/face/core/FisherFaceDetector.java:22-24 | The prelude of `train` (count check, vectorising loop, vconcat) returns exactly `TrainingMatrix`. |
| OpenCv.Vconcat | app/src/main/java/com/example/face/core/EigenFaceDetector.java:23 | Succeeds iff all rows have the first row's width. It then stacks the rows in order; otherwise it throws. |
| OpenCv.Zeros | app/src/main/java/com/example/face/core/FisherFaceDetector.java:30-31 | For non-negative sizes, the result is a rows×cols matrix of 0.0. A negative size throws. |
| OpenCv.RowRange | app/src/main/java/com/example/face/core/FisherFaceDetector.java:51 | Succeeds iff 0 ≤ start ≤ end ≤ rows, and then holds exactly rows start..end−1. |
| Common.CloneInts | app/src/main/java/com/example/face/core/EigenFaceDetector.java:28 | The copy is a freshly allocated array with the same elements. |
| NearestNeighbour.FirstMin | app/src/main/java/com/example/face/core/EigenFaceDetector.java:37-44 | None iff no distance is below `Double.MAX_VALUE`. Otherwise it gives an index whose distance is below every earlier distance and at most every later one, i.e. the first minimum. |
| NearestNeighbour.FirstNearestIsUnique | app/src/main/java/com/example/face/core/EigenFaceDetector.java:40-42 | Because replacement needs a strictly smaller distance, at most one index is the first nearest: ties go to the smallest index. |
| NearestNeighbour.Distances | app/src/main/java/com/example/face/core/EigenFaceDetector.java:38-39 | Exists iff no `norm` call throws. It then holds one distance per stored row, each the norm of that row against the query. |
| NearestNeighbour.Classify | app/src/main/java/com/example/face/core/FisherFaceDetector.java:61-66 | Fails with CvException iff some `norm` throws. With no stored rows, or with no distance below `Double.MAX_VALUE`, the result is −1. Otherwise it is the label of the (unique) first nearest row, and such a row exists. |
| NearestNeighbour.Scan | app/src/main/java/com/example/face/core/EigenFaceDetector.java:37-44 | The `best`/`lab` loop returns exactly `Classify`. |
| EigenFace.EigenFaceDetector.constructor | app/src/main/java/com/example/face/core/EigenFaceDetector.java:13-16 | Width, height and k are set (as constants, never changed again), and every model field starts null. |
| EigenFace.EigenFaceDetector.Train | app/src/main/java/com/example/face/core/EigenFaceDetector.java:19-29 | An invalid training matrix (count mismatch, multi-channel image, unequal sizes) throws before any field is written. After that, `mean`/`eigVec` are written before `projections`, and `projections` before the labels. A PCA failure keeps the old projections; a projection failure leaves them empty. Success gives one projection row per image and a fresh copy of the labels. |
| EigenFace.EigenFaceDetector.Predicted | app/src/main/java/com/example/face/core/EigenFaceDetector.java:32-45 | Before training it throws IllegalState; a multi-channel query throws IllegalArgument. A successful result is `Classify` of the stored projections and labels for some projected query: the label of the first stored row at minimal distance, or −1. A label other than −1 is one of the stored labels. |
| EigenFace.EigenFaceDetector.Predict | app/src/main/java/com/example/face/core/EigenFaceDetector.java:32-45 | `predict` returns exactly `Predicted` of the current state. |
| EigenFace.TrainKeepsOwnLabels | app/src/main/java/com/example/face/core/EigenFaceDetector.java:28 | A caller that changes its label array after a successful `train` does not change the detector's labels. |
| FisherFace.Unique | app/src/main/java/com/example/face/core/FisherFaceDetector.java:69 | The count equals the size of the set of label values. It is at most the number of labels, and positive for a non-empty array. |
| FisherFace.RedDim | app/src/main/java/com/example/face/core/FisherFaceDetector.java:26 | The result is at most pcaDim and at most N − C, and equals one of them (their minimum). |
| FisherFace.IndicesOf | app/src/main/java/com/example/face/core/FisherFaceDetector.java:32-33 | Exactly the positions holding the key, in strictly increasing order. |
| FisherFace.FirstOccurrences | app/src/main/java/com/example/face/core/FisherFaceDetector.java:35 | The order in which the groups are visited: every label value exactly once (no repeats, nothing else), C values in all. |
| FisherFace.FirstOccurrencesPrefix | app/src/main/java/com/example/face/core/FisherFaceDetector.java:35 | The groups first met in a prefix of the labels come first in that order, so the loop over the labels meets them in that order. |
| FisherFace.GroupsOfFacts | app/src/main/java/com/example/face/core/FisherFaceDetector.java:32-33 | A grouping has C keys. Every index is in the list of its own label and in no other. Every list is increasing. |
| FisherFace.GroupByLabel | app/src/main/java/com/example/face/core/FisherFaceDetector.java:32-33 | The `computeIfAbsent(...).add(i)` loop builds such a grouping. Every index 0..N−1 lands exactly in its label's list, in increasing order, and there are C keys. |
| FisherFace.RowsOf | app/src/main/java/com/example/face/core/FisherFaceDetector.java:70-73 | One row per index, and row r is a copy of source row idxs[r]. |
| FisherFace.Gathered | app/src/main/java/com/example/face/core/FisherFaceDetector.java:37 | The rows `Xi` of one group: one per index, row q being Xp row idxs[q]. |
| FisherFace.AccumulateGroup | app/src/main/java/com/example/face/core/FisherFaceDetector.java:36-46 | One group's loop body returns `GroupScatter`. Sb gets \|idxs\| times the outer product of (group mean − overall mean). Then Sw gets the outer product of each member's (x − group mean), in index order. The first OpenCV exception ends it. |
| FisherFace.AccumulateScatter | app/src/main/java/com/example/face/core/FisherFaceDetector.java:35-47 | The loop over the label groups returns `ScatterOver` the labels in first-occurrence order. Each of the C groups gets its `GroupScatter` update exactly once, and an exception in any group ends the loop. |
| FisherFace.DiscriminantMatrix | app/src/main/java/com/example/face/core/FisherFaceDetector.java:30-49 | Sw⁻¹·Sb, with Sw and Sb starting as redDim×redDim zeros; a negative redDim throws. |
| FisherFace.LdaFrom | app/src/main/java/com/example/face/core/FisherFaceDetector.java:50-51 | Every failure is an OpenCV exception, and a negative redDim fails. The basis exists iff Sw⁻¹·Sb and its eigenvectors exist and 1 ≤ C ≤ (eigenvector rows) + 1. It is then exactly the first C − 1 rows of `eigen(Sw⁻¹·Sb)`. |
| FisherFace.LdaBasis | app/src/main/java/com/example/face/core/FisherFaceDetector.java:29-51 | The local computation from the zero matrices to `rowRange(0, C − 1)` returns exactly `LdaFrom`. |
| FisherFace.FisherFaceDetector.constructor | app/src/main/java/com/example/face/core/FisherFaceDetector.java:19 | Width, height and pcaDim are set as constants, and every model field starts null. |
| FisherFace.FisherFaceDetector.Train | app/src/main/java/com/example/face/core/FisherFaceDetector.java:21-54 | An invalid training matrix throws before any field is written. Otherwise the new state is `TrainedOn` that matrix. Success gives one projection row per image and a fresh copy of the labels; on failure the labels stay the old ones. |
| FisherFace.FisherFaceDetector.TrainOn | app/src/main/java/com/example/face/core/FisherFaceDetector.java:25-53 | The state after each failure point, in line order. `mean`/`pcaVec` come from PCA with min(pcaDim, N − C) components. A PCA, projection or basis failure keeps the old `ldaVec`/`projections`. Then `ldaVec` = `LdaFrom` (the first C − 1 eigenvector rows), and `projections` = Xp·ldaVecᵀ, or empty when that product throws. |
| FisherFace.FisherFaceDetector.Predicted | app/src/main/java/com/example/face/core/FisherFaceDetector.java:56-67 | Before training it throws IllegalState; a multi-channel query throws IllegalArgument. A successful result is `Classify` of the stored projections and labels for some projected query: the label of the first stored row at minimal distance, or −1. A label other than −1 is one of the stored labels. |
| FisherFace.FisherFaceDetector.Predict | app/src/main/java/com/example/face/core/FisherFaceDetector.java:56-67 | `predict` returns exactly `Predicted` of the current state; its scan is `NearestNeighbour.Scan`. |

## Left out

- **OpenCV numerics.** PCACompute, PCAProject, gemm, invert, eigen, reduce, subtract,
  scaleAdd, add and norm are opaque function values. Only row counts are assumed: a
  projection has one row per input row, and a product has as many rows as its left operand.
  Nothing is claimed about orthonormality, eigenvalue order, pseudo-inverses or values.
- **Floating point.** Pixels and matrix entries are exact reals. NaN, infinities and rounding
  are not modelled. Distances are whatever the opaque `norm` returns, compared exactly.
- **Scatter matrix values.** Sw and Sb are stated as the results of the opaque OpenCV calls
  in the code's order. Nothing is claimed about their numbers.
- **HashMap iteration order** (line 35). Java leaves it unspecified. The model visits the
  groups in the order their labels first occur. Only floating-point summation order depends
  on it.
- **C = 1, N ≤ C, N = 0.** The code does not check for these cases. The model lets OpenCV
  decide:
  - the opaque PCA may throw;
  - `Mat.zeros` with a negative `redDim` is modelled as throwing;
  - `rowRange(0, C − 1)` with C − 1 out of range throws.
- **Dimension mismatches inside OpenCV** (a query of the wrong size, inconsistent bases)
  appear only as a possible `CvException` from the opaque backend.
- **The Android application** (`MainActivity.java`) is not part of this model: UI, camera,
  permissions, asset and file I/O, bitmap conversion, Haar-cascade detection and threading.
- **Concurrency.** The detectors have no synchronisation, and the model is sequential.
  Interleavings of `train` and `predict` across threads are not modelled; the field-write
  order of `Train` is what a concurrent reader could observe.
- **Mat memory layout.** `Image` holds its pixels as rows of values. `continuous` is kept
  only as a flag, so a clone and its source hold the same grid.
- **Image value range.** Intensities are unbounded integers rather than 8-bit values.
  Conversion to double is exact for them either way.
- EigenFace.EigenFaceDetector.Predicted: the projected query is not named. A successful
  result is `NearestNeighbour.Classify` for some query row, because projecting the query is
  an opaque OpenCV call.
- FisherFace.FisherFaceDetector.Predicted: the same as for the Eigen detector. The query
  passes through the opaque PCA projection and the opaque product with `ldaVec`.
- FaceDetectorBase.ToRowVector: `reshape(1, 1)` is taken to throw exactly for an image with
  no elements and a row count other than one. `convertTo` is taken to be total. Both are
  OpenCV behaviour whose code is not part of this model.
