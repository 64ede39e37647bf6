/** Integer geometry shared by the measure pass and the layout pass. */
module Geometry {

  /** A width and a height in pixels. */
  datatype Size = Size(width: int, height: int)

  /** A rectangle given by its four edges, as a view's layout(l, t, r, b) receives them. */
  datatype Rect = Rect(left: int, top: int, right: int, bottom: int)
  {
    function Width(): int { right - left }
    function Height(): int { bottom - top }
  }

  /** The container's padding on each side. */
  datatype Padding = Padding(left: int, top: int, right: int, bottom: int)

  /** Java's `a / 2` on int: the quotient rounded toward zero, not Dafny's Euclidean one. */
  function Half(a: int): (h: int)
    ensures a >= 0 ==> 0 <= a - 2 * h <= 1
    ensures a < 0 ==> -1 <= a - 2 * h <= 0
  {
    if a >= 0 then a / 2 else -((-a) / 2)
  }

  /** The in-place clamp `if (v > bound) v = bound;`: the smaller of the two. */
  function AtMost(v: int, bound: int): (r: int)
    ensures r <= bound && r <= v
    ensures r == v || r == bound
  {
    if v > bound then bound else v
  }

  /** A rectangle moved by (dx, dy). */
  function Shift(x: Rect, dx: int, dy: int): Rect
  {
    Rect(x.left + dx, x.top + dy, x.right + dx, x.bottom + dy)
  }
}
