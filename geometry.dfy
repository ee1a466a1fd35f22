/** Planar vectors and rectangles, with exact `real` coordinates standing in for `f32`. */
module Geometry {

  datatype Vec2 = Vec2(x: real, y: real) {
    function Plus(o: Vec2): Vec2 { Vec2(x + o.x, y + o.y) }
    function Minus(o: Vec2): Vec2 { Vec2(x - o.x, y - o.y) }
  }

  const Zero := Vec2(0.0, 0.0)

  /** `k * v`, componentwise. */
  function Scale(k: real, v: Vec2): Vec2 { Vec2(k * v.x, k * v.y) }

  /** `f32::max`, without NaN. */
  function MaxOf(a: real, b: real): (r: real)
    ensures r >= a && r >= b && (r == a || r == b)
  {
    if a >= b then a else b
  }

  /** A rectangle given by its top-left corner and its size. */
  datatype Rect = Rect(pos: Vec2, size: Vec2) {
    function Min(): Vec2 { pos }
    function Max(): Vec2 { pos.Plus(size) }
  }
}
