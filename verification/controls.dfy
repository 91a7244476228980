/** The two per-frame paddle controllers: the player's keyboard step and the
    opponent's mirroring step. */
module Controls {
  import opened Geometry
  import opened Paddles

  /** Level state of the two arrow keys during one frame. */
  datatype Keys = Keys(up: bool, down: bool)

  /** Pixels a paddle moves per frame while a key is held. */
  const Speed: real := 2.0

  /** The vertical delta the keys ask for: Up adds -Speed, Down adds +Speed. */
  function Delta(k: Keys): (d: real)
    ensures k.up && !k.down ==> d == -Speed
    ensures !k.up && k.down ==> d == Speed
    ensures k.up == k.down ==> d == 0.0
  {
    (if k.up then -Speed else 0.0) + (if k.down then Speed else 0.0)
  }

  /** The open band a paddle of height `height` may move into: strictly
      below the top edge and strictly above `screenH - height`. */
  predicate Within(y: real, screenH: real, height: real) {
    0.0 < y < screenH - height
  }

  /** The player's input step. A move whose target reaches or passes either
      edge is dropped for this frame; the paddle is never clamped to the edge. */
  function HandleInput(p: Paddle, k: Keys, screenH: real): (r: Paddle)
    ensures r.height == p.height && r.point.x == p.point.x
    ensures Within(p.point.y + Delta(k), screenH, p.height) ==> r.point.y == p.point.y + Delta(k)
    ensures !Within(p.point.y + Delta(k), screenH, p.height) ==> r == p
    ensures r.point.y in {p.point.y - Speed, p.point.y, p.point.y + Speed}
    ensures r.point.y != p.point.y ==> Within(r.point.y, screenH, p.height)
    ensures Within(p.point.y, screenH, p.height) ==> Within(r.point.y, screenH, r.height)
  {
    var delta := Delta(k);
    var target := p.point.y + delta;
    var allowed := if target <= 0.0 || target >= screenH - p.height then 0.0 else delta;
    UpdatePosition(p, Point(p.point.x, p.point.y + allowed))
  }

  /** The paddle moves exactly when exactly one key is held and the target it
      asks for lies strictly inside the band. */
  lemma HandleInputMovesIff(p: Paddle, k: Keys, screenH: real)
    ensures HandleInput(p, k, screenH).point.y != p.point.y
        <==> k.up != k.down && Within(p.point.y + Delta(k), screenH, p.height)
  {
  }

  /** Suppression, not clamping: a paddle never lands on an edge it was not
      already on. */
  lemma HandleInputNeverReachesEdge(p: Paddle, k: Keys, screenH: real)
    requires p.point.y != 0.0 && p.point.y != screenH - p.height
    ensures HandleInput(p, k, screenH).point.y != 0.0
    ensures HandleInput(p, k, screenH).point.y != screenH - p.height
  {
  }

  /** The opponent step: the opponent copies the player's height and keeps
      its own column. The player is only read. */
  function MoveOpponent(player: Paddle, opponent: Paddle): (r: Paddle)
    ensures r.point == Point(opponent.point.x, player.point.y)
    ensures r.height == opponent.height
  {
    UpdatePosition(opponent, player.point)
  }
}
