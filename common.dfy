/** Values shared by the three geometry components: failure-compatible
    results and the small coordinate pairs every accessor returns. */
module Common {

  datatype Option<+T> = None | Some(value: T)

  /** The ways an accessor can fail.
      NoRectError: the element has no box model (not rendered).
      UnpackError: a script result did not split into exactly two pieces
                   (Python's "too many / not enough values to unpack", a ValueError).
      InvalidLiteral: a piece is not a decimal integer (Python's `int()` ValueError). */
  datatype Error = NoRectError | UnpackError | InvalidLiteral

  datatype Result<+T> = Ok(value: T) | Err(error: Error) {
    predicate IsFailure() { Err? }

    function PropagateFailure<U>(): Result<U>
      requires Err?
    {
      Err(error)
    }

    function Extract(): T
      requires Ok?
    {
      value
    }
  }

  /** A point in logical (CSS) pixels. */
  datatype Point = Point(x: int, y: int)

  /** A width and a height in logical pixels. */
  datatype Extent = Extent(width: int, height: int)

  /** A point in physical display pixels: logical pixels times the device pixel ratio. */
  datatype ScreenPoint = ScreenPoint(x: real, y: real)
}
