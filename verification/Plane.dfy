/** Points of the drawing plane and the interpolation helpers of tools/zone_mesh_anim.py, over exact reals. */
module Plane {

  datatype Point = Point(x: real, y: real)

  function Lerp(a: real, b: real, t: real): real {
    a + (b - a) * t
  }

  // mix_points
  function Mix(a: Point, b: Point, t: real): Point {
    Point(Lerp(a.x, b.x, t), Lerp(a.y, b.y, t))
  }

  function Clamp(value: real): real {
    if value < 0.0 then 0.0 else if value > 1.0 then 1.0 else value
  }
}
