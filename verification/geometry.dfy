/** Screen-space geometry shared by every entity of the game. */
module Geometry {

  /** A position in pixels: origin at the top-left corner of the window,
      `y` growing downward. The source stores `f32`; this model uses `real`. */
  datatype Point = Point(x: real, y: real)
}
