/** A paddle and its only mutator. */
module Paddles {
  import opened Geometry

  /** A paddle: the height of its texture (the only property of the texture
      the game logic reads) and the top-left corner it is drawn at. */
  datatype Paddle = Paddle(height: real, point: Point)

  /** Moves a paddle vertically to the height of `p`. Only `p.y` is used:
      the paddle keeps its own column and its texture whatever `p.x` says. */
  function UpdatePosition(paddle: Paddle, p: Point): (r: Paddle)
    ensures r.point.y == p.y
    ensures r.point.x == paddle.point.x
    ensures r.height == paddle.height
  {
    paddle.(point := paddle.point.(y := p.y))
  }

  /** Two target points that agree on `y` move a paddle to the same place,
      and moving a paddle to its own height is the identity. */
  lemma UpdatePositionOnlyReadsY(paddle: Paddle, p: Point, q: Point)
    ensures p.y == q.y <==> UpdatePosition(paddle, p) == UpdatePosition(paddle, q)
    ensures UpdatePosition(paddle, Point(p.x, paddle.point.y)) == paddle
  {
  }
}
