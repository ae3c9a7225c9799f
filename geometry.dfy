/** Window constants and the value types shared by every part of the sandbox. */
module Geometry {

  /** Window size in pixels and the target frame rate (main.py:18-19). */
  const WIDTH: int := 900
  const HEIGHT: int := 650
  const FPS: int := 60

  /** A mouse position in window pixels, origin top-left. */
  datatype Point = Point(x: int, y: int)

  /** An RGBA colour tuple. */
  datatype Rgba = Rgba(r: int, g: int, b: int, a: int)

  predicate IsByte(v: int) {
    0 <= v <= 255
  }

  predicate ValidRgba(c: Rgba) {
    IsByte(c.r) && IsByte(c.g) && IsByte(c.b) && IsByte(c.a)
  }
}
