# MQ Pong paddle logic in Dafny

This project models the per-frame game logic of the first version of MQ Pong,
a two-paddle game written in Rust on the macroquad engine. That version has
two paddles and no ball. Each frame the game does three things:

1. It reads the Up and Down arrow keys and moves the player's paddle by -2, 0
   or +2 pixels. If the target would reach or pass the top edge (`y <= 0`) or
   the bottom limit (`y >= screen_height - paddle_height`), the move is dropped
   for that frame. The paddle is never clamped to the edge.
2. It copies the player's `y` into the opponent's paddle, so the opponent
   mirrors the player.
3. It draws the frame. Drawing is not modelled.

Modules, one per concept of `src/main.rs`:

- `Geometry` (`geometry.dfy`): `Point`, a position with `real` coordinates.
- `Paddles` (`paddle.dfy`): `Paddle` and `UpdatePosition`. A paddle holds the
  height of its texture and its position. `UpdatePosition` copies only `y`.
- `Controls` (`controls.dfy`): the key state `Keys`, the key-to-delta map
  `Delta`, the open band `Within` a paddle may move into, the input step
  `HandleInput` and the opponent step `MoveOpponent`.
- `Game` (`game.dfy`): the start position `Init`, the per-frame step `Frame`,
  its fold `Run` over a sequence of frame inputs, and the frame loop `Play`.
  The `Run` lemmas hold for any number of frames under their stated
  preconditions.

External calls become parameters. `is_key_down` and `screen_height()` become
a `FrameInput` value per frame: the two keys and the window height that frame
reads. Apart from drawing the divider (src/main.rs:59), `screen_width()` is read
only for the opponent's start column (src/main.rs:49), so it is part of the
`Screen` given to `Init`. `texture.height()` becomes the paddle's
`height` field.

Facts about the code that the model keeps:

- The step is 2 pixels per frame.
- Up decreases `y` and Down increases it; `y` grows downward.
- The opponent mirrors the player, although the doc comment of
  `move_opponent` (src/main.rs:85-86) says it is meant to track a ball.
- The player's bound is strict. While the window height does not change, a
  paddle that starts strictly inside `(0, screen_height - paddle_height)`
  stays strictly inside and never reaches either end
  (`Game.RunStaysWithin`, `Controls.HandleInputNeverReachesEdge`). A window
  that shrinks can leave the paddle outside the new band
  (`Game.ResizeCanLeavePaddleOutside`), and one a full step outside the band
  is stuck there (`Game.StuckOutsideBand`).

## Model

| member | source | states |
|---|---|---|
| Paddles.UpdatePosition | src/main.rs:21-23 | the new `y` is the argument's `y`; the paddle's `x` and texture height are unchanged |
| Paddles.UpdatePositionOnlyReadsY | src/main.rs:21-23 | two target points give the same paddle if and only if they have the same `y`; moving a paddle to its own height changes nothing |
| Controls.Delta | src/main.rs:70-76 | Up alone gives -2; Down alone gives +2; both keys or neither give 0 |
| Controls.HandleInput | src/main.rs:69-83 | `x` and height are kept. A target strictly inside the band is taken. A target at or past either edge leaves the paddle exactly unchanged. The result is `y-2`, `y` or `y+2`. If the paddle moved, it is strictly inside the band. Inside-the-band is preserved |
| Controls.HandleInputMovesIff | src/main.rs:70-82 | the paddle moves if and only if exactly one key is held and the target is strictly inside the band |
| Controls.HandleInputNeverReachesEdge | src/main.rs:78-80 | a paddle that is not on an edge is never placed on it, so there is no clamping |
| Controls.MoveOpponent | src/main.rs:87-89 | the opponent's position becomes (its own `x`, the player's `y`) and its texture height is unchanged; the player is only read |
| Game.Init | src/main.rs:42-50 | the player starts in column 10 and the opponent in column `screen_width - 20`; each paddle's bottom edge is on the window's middle line |
| Game.InitWithinIff | src/main.rs:44 | the player starts strictly inside its band if and only if its paddle is shorter than half the window |
| Game.WindowStartWithinIff | src/main.rs:26-44 | in the 300 x 240 window the game asks for, the player starts strictly inside its band if and only if its paddle is shorter than 120 pixels |
| Game.Frame | src/main.rs:55-56 | the player takes the input step with that frame's keys and window height; then the opponent's `y` equals the player's new `y`; the opponent's `x` and height are unchanged |
| Game.Run | src/main.rs:52-57 | after any number of frames, each with its own keys and window height, both paddles keep their columns and texture heights |
| Game.Play | src/main.rs:52-64 | the frame loop applies `Frame` once per frame input, in order, and ends in the state `Run` describes |
| Game.ColumnsFixed | src/main.rs:42-56 | from the start position, for any keys and window heights, the player stays at `x = 10` and the opponent at `x = screen_width - 20` |
| Game.RunMirrors | src/main.rs:55-56 | after at least one frame, the opponent's `y` equals the player's `y` |
| Game.RunStaysWithin | src/main.rs:78-82 | while the window height stays `h`, a player strictly inside `(0, h - height)` stays strictly inside for every key sequence |
| Game.ResizeCanLeavePaddleOutside | src/main.rs:78-82 | a paddle at `y = 100` of height 10 is inside the band of a 240-pixel window; after one frame read at height 100, whatever keys are held, it is outside the new band, because a blocked move leaves it where it is |
| Game.StuckOutsideBand | src/main.rs:70-82 | while the window height stays `h`, a paddle at `y <= -2` or `y >= h - height + 2` never moves again, for every key sequence |
| Game.RunOffset | src/main.rs:70-82 | after `n` frames the player has moved by `2k` pixels for some integer `k` with `-n <= k <= n` |
| Game.HoldUp | src/main.rs:71-80 | holding only Up from inside the band of a window of fixed height, the paddle climbs 2 pixels per frame while `y - 2n > 0`; after that it rests in `(0, 2]` and never reaches 0 |
| Game.HoldDown | src/main.rs:74-80 | holding only Down from inside the band of a window of fixed height, the paddle descends 2 pixels per frame while below the limit; after that it rests in `[limit - 2, limit)` |

## Left out

- Texture loading and its `unwrap` failure (src/main.rs:38-40): asset I/O. A texture is modelled only by its height.
- Window configuration `conf()` (src/main.rs:26-33): engine setup. `Game.Window` records the 300 x 240 size it asks for; the window may later differ, so each frame carries its own height.
- `clear_background`, `draw_texture` and `next_frame().await` (src/main.rs:53, 58-63): rendering and the async frame loop. `Game.Play` models only the logic inside the loop, over a finite sequence of frame inputs.
- `is_key_down`, `screen_width()`, `screen_height()` and `texture.height()`: engine calls. They are parameters of the model.
- `f32` arithmetic: positions are `real`, so IEEE rounding, infinities and NaN are not captured.
- The divider texture and the `screen_width()` call that places it (src/main.rs:38, 59): it is only drawn.
- Ball, velocity, wall bounce, paddle collision and scoring: this version of the source has none of them.
