/**
 * Values shared by the detector modules: the exceptions the Java code raises,
 * OpenCV matrices seen as sequences of real-valued rows, and Java's int[] clone.
 */
module Common {

  datatype Option<+T> = None | Some(value: T)

  /** The exceptions a detector call can end with. */
  datatype Error =
    | IllegalArgument  // java.lang.IllegalArgumentException
    | IllegalState     // java.lang.IllegalStateException
    | CvException      // an exception raised inside an OpenCV call

  /** The outcome of a call that returns a value or throws. */
  datatype Result<+T> = Ok(value: T) | Err(error: Error)

  /** A 1 x n CV_64F matrix. */
  type Row = seq<real>

  /** A CV_64F matrix as its sequence of rows. */
  type Matrix = seq<Row>

  /** `int[].clone()`: a new array with the same elements. */
  method CloneInts(a: array<int>) returns (b: array<int>)
    ensures fresh(b)
    ensures b[..] == a[..]
  {
    b := new int[a.Length];
    for i := 0 to a.Length
      invariant forall j :: 0 <= j < i ==> b[j] == a[j]
    {
      b[i] := a[i];
    }
  }
}
