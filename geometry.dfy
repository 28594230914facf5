/** Points, sizes and rectangles of the view toolkit, over the reals. */
module Geometry {

  datatype Size = Size(width: real, height: real)

  datatype Rect = Rect(x: real, y: real, width: real, height: real) {
    function MaxX(): (r: real) { x + width }
    function MaxY(): (r: real) { y + height }
  }

  function Max(a: real, b: real): (m: real)
    ensures m >= a && m >= b
    ensures m == a || m == b
  {
    if a >= b then a else b
  }
}
