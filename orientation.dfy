/** Values shared by the three input controllers: the circle constant, optional
    values, the {yaw, pitch} record and the clamp helper. */
module Orientations {

  /** Math.PI, taken as an exact positive real. */
  const Pi: real := 3.141592653589793

  /** A nullable value (`T | null`, or an absent sensor field). */
  datatype Option<T> = None | Some(value: T)

  /** The `{ yaw, pitch }` record of the source. It holds radians when it is a
      viewing direction and degrees when it holds a raw sensor baseline. */
  datatype Orientation = Orientation(yaw: real, pitch: real)

  /** `Math.min(hi, Math.max(lo, value))`. Both controller files declare this
      helper with the same body; it is defined once here. */
  function Clamp(value: real, lo: real, hi: real): (r: real)
    ensures r <= hi
    ensures lo <= hi ==> lo <= r
    ensures lo <= value <= hi ==> r == value
    ensures value < lo <= hi ==> r == lo
    ensures hi < value ==> r == hi
  {
    var atLeastLo := if lo < value then value else lo;
    if hi < atLeastLo then hi else atLeastLo
  }
}
