/** Values shared by every part of the model. */
module Common {

  /** An optional value; the source uses None for "not set yet". */
  datatype Option<T> = None | Some(value: T)

  /** A point in integer pixel coordinates (a landmark, a stroke end). */
  datatype Point = Point(x: int, y: int)

  /** A colour as OpenCV stores it: blue, green, red channels. */
  datatype Color = Color(b: int, g: int, r: int)
}
