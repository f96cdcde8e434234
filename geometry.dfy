/**
 Plane geometry used by the control: a point with exact real coordinates
 (standing for CGPoint, whose CGFloat coordinates the control only adds,
 halves and compares) and Swift's `min`/`max` as they are composed into the
 drag clamp.
 */
module Geometry {

  datatype Point = Point(x: real, y: real)

  /** Swift's `min(a, b)`. */
  function Min(a: real, b: real): (r: real)
    ensures r <= a && r <= b
    ensures r == a || r == b
  {
    if b < a then b else a
  }

  /** Swift's `max(a, b)`. */
  function Max(a: real, b: real): (r: real)
    ensures a <= r && b <= r
    ensures r == a || r == b
  {
    if a < b then b else a
  }

  /**
   `max(lo, min(hi, v))`, the clamp the drag handlers apply. When the
   interval is non-empty the result is the point of [lo, hi] nearest to v;
   when it is empty (hi < lo) the outer `max` makes the lower bound win.
   */
  function Clamp(lo: real, hi: real, v: real): (r: real)
    ensures lo <= hi ==> lo <= r <= hi
    ensures lo <= hi ==> (r == v <==> lo <= v <= hi)
    ensures lo <= hi && v < lo ==> r == lo
    ensures lo <= hi && hi < v ==> r == hi
    ensures hi < lo ==> r == lo
  {
    Max(lo, Min(hi, v))
  }
}
