/** The game state, its start position, the per-frame step and the frame
    loop over a sequence of key states. */
module Game {
  import opened Geometry
  import opened Paddles
  import opened Controls

  /** Logical window size; `screen_width()` and `screen_height()` are
      parameters of the model. */
  datatype Screen = Screen(width: real, height: real)

  /** The window size the game asks for at start-up. */
  const Window: Screen := Screen(300.0, 240.0)

  /** Everything that changes from frame to frame. */
  datatype State = State(player: Paddle, opponent: Paddle)

  /** Column of the player's paddle. */
  const PlayerX: real := 10.0

  /** Distance of the opponent's paddle from the right edge. */
  const OpponentInset: real := 20.0

  /** Start position: both paddles in their columns, with their bottom edge
      on the middle line of the window. */
  function Init(s: Screen, playerH: real, opponentH: real): (g: State)
    ensures g.player.height == playerH && g.opponent.height == opponentH
    ensures g.player.point.x == PlayerX && g.opponent.point.x == s.width - OpponentInset
    ensures g.player.point.y + playerH == s.height / 2.0
    ensures g.opponent.point.y + opponentH == s.height / 2.0
  {
    State(Paddle(playerH, Point(PlayerX, s.height / 2.0 - playerH)),
          Paddle(opponentH, Point(s.width - OpponentInset, s.height / 2.0 - opponentH)))
  }

  /** The player starts strictly inside its band exactly when its paddle is
      shorter than half the window. */
  lemma InitWithinIff(s: Screen, playerH: real, opponentH: real)
    requires s.height > 0.0
    ensures Within(Init(s, playerH, opponentH).player.point.y, s.height, playerH)
        <==> playerH < s.height / 2.0
  {
  }

  /** In the 300 x 240 window the game asks for, the player starts strictly
      inside its band exactly when its paddle is shorter than 120 pixels. */
  lemma WindowStartWithinIff(playerH: real, opponentH: real)
    ensures Within(Init(Window, playerH, opponentH).player.point.y, Window.height, playerH)
        <==> playerH < 120.0
  {
  }

  /** What the game reads from the engine during one frame: the arrow keys
      and the current window height (`screen_height()` is called afresh on
      every frame, so a resized window is seen at once). */
  datatype FrameInput = FrameInput(keys: Keys, screenH: real)

  /** Every frame of `fs` reads the same window height `h`. */
  predicate FixedHeight(fs: seq<FrameInput>, h: real) {
    forall i :: 0 <= i < |fs| ==> fs[i].screenH == h
  }

  /** One frame of game logic: the input step, then the opponent step,
      which already sees the player's new position. */
  function Frame(g: State, f: FrameInput): (r: State)
    ensures r.player == HandleInput(g.player, f.keys, f.screenH)
    ensures r.opponent.point.y == r.player.point.y
    ensures r.opponent.point.x == g.opponent.point.x
    ensures r.opponent.height == g.opponent.height
  {
    var player := HandleInput(g.player, f.keys, f.screenH);
    State(player, MoveOpponent(player, g.opponent))
  }

  /** The state after playing the frames `fs` in order, starting from `g`. */
  function Run(g: State, fs: seq<FrameInput>): (r: State)
    ensures r.player.point.x == g.player.point.x && r.player.height == g.player.height
    ensures r.opponent.point.x == g.opponent.point.x && r.opponent.height == g.opponent.height
    decreases |fs|
  {
    if |fs| == 0 then g else Run(Frame(g, fs[0]), fs[1..])
  }

  /** The frame loop: one `Frame` per frame input, in order. */
  method Play(g: State, fs: seq<FrameInput>) returns (r: State)
    ensures r == Run(g, fs)
  {
    r := g;
    var i := 0;
    while i < |fs|
      invariant 0 <= i <= |fs|
      invariant Run(r, fs[i..]) == Run(g, fs)
    {
      assert fs[i..][1..] == fs[i + 1..];
      r := Frame(r, fs[i]);
      i := i + 1;
    }
  }

  /** From the start position, whatever keys are pressed and however the
      window is resized, the player stays in column 10 and the opponent in
      column `width - 20`. */
  lemma ColumnsFixed(s: Screen, playerH: real, opponentH: real, fs: seq<FrameInput>)
    ensures Run(Init(s, playerH, opponentH), fs).player.point.x == PlayerX
    ensures Run(Init(s, playerH, opponentH), fs).opponent.point.x == s.width - OpponentInset
  {
  }

  /** After at least one frame the opponent is level with the player. */
  lemma {:induction false} RunMirrors(g: State, fs: seq<FrameInput>)
    requires |fs| > 0
    ensures Run(g, fs).opponent.point.y == Run(g, fs).player.point.y
    decreases |fs|
  {
    if |fs| > 1 {
      RunMirrors(Frame(g, fs[0]), fs[1..]);
    }
  }

  /** While the window height stays `h`, a player that starts strictly inside
      its band stays there for any sequence of key states. */
  lemma {:induction false} RunStaysWithin(g: State, fs: seq<FrameInput>, h: real)
    requires FixedHeight(fs, h)
    requires Within(g.player.point.y, h, g.player.height)
    ensures Within(Run(g, fs).player.point.y, h, g.player.height)
    decreases |fs|
  {
    if |fs| > 0 {
      RunStaysWithin(Frame(g, fs[0]), fs[1..], h);
    }
  }

  /** The band is only as stable as the window: shrinking the window can
      leave a paddle that was inside outside the new band, whatever keys are
      held, because a blocked move leaves the paddle where it is. */
  lemma ResizeCanLeavePaddleOutside(k: Keys)
    ensures var g := State(Paddle(10.0, Point(PlayerX, 100.0)), Paddle(10.0, Point(280.0, 100.0)));
      && Within(g.player.point.y, 240.0, 10.0)
      && !Within(Run(g, [FrameInput(k, 100.0)]).player.point.y, 100.0, 10.0)
  {
  }

  /** A paddle at least one step beyond either end of the band of a window
      of fixed height never moves again: every target it can ask for is
      blocked. */
  lemma {:induction false} StuckOutsideBand(g: State, fs: seq<FrameInput>, h: real)
    requires FixedHeight(fs, h)
    requires g.player.point.y <= -Speed || g.player.point.y >= h - g.player.height + Speed
    ensures Run(g, fs).player.point.y == g.player.point.y
    decreases |fs|
  {
    if |fs| > 0 {
      assert fs[0].screenH == h;
      StuckOutsideBand(Frame(g, fs[0]), fs[1..], h);
    }
  }

  /** After `n` frames the player has moved by a whole number `k` of steps,
      with `|k| <= n`, whatever the window does. */
  lemma {:induction false} RunOffset(g: State, fs: seq<FrameInput>) returns (k: int)
    ensures Run(g, fs).player.point.y == g.player.point.y + Speed * k as real
    ensures -|fs| <= k <= |fs|
    decreases |fs|
  {
    if |fs| == 0 {
      k := 0;
    } else {
      var g' := Frame(g, fs[0]);
      var rest := RunOffset(g', fs[1..]);
      var y := g.player.point.y;
      if g'.player.point.y == y - Speed {
        k := rest - 1;
      } else if g'.player.point.y == y {
        k := rest;
      } else {
        k := rest + 1;
      }
    }
  }

  /** Holding only Up from inside the band of a window of fixed height: the
      paddle climbs `Speed` pixels per frame and comes to rest strictly below
      the top edge, in (0, Speed]. */
  lemma {:induction false} HoldUp(g: State, fs: seq<FrameInput>, h: real)
    requires FixedHeight(fs, h)
    requires Within(g.player.point.y, h, g.player.height)
    requires forall i :: 0 <= i < |fs| ==> fs[i].keys == Keys(true, false)
    ensures var y := Run(g, fs).player.point.y;
      if Speed * |fs| as real < g.player.point.y
      then y == g.player.point.y - Speed * |fs| as real
      else 0.0 < y <= Speed
    decreases |fs|
  {
    if |fs| > 0 {
      assert fs[0].keys == Keys(true, false) && fs[0].screenH == h;
      HoldUp(Frame(g, fs[0]), fs[1..], h);
    }
  }

  /** Holding only Down from inside the band of a window of fixed height: the
      paddle descends `Speed` pixels per frame and comes to rest strictly
      above the bottom limit, in [limit - Speed, limit). */
  lemma {:induction false} HoldDown(g: State, fs: seq<FrameInput>, h: real)
    requires FixedHeight(fs, h)
    requires Within(g.player.point.y, h, g.player.height)
    requires forall i :: 0 <= i < |fs| ==> fs[i].keys == Keys(false, true)
    ensures var y := Run(g, fs).player.point.y;
      var limit := h - g.player.height;
      if g.player.point.y + Speed * |fs| as real < limit
      then y == g.player.point.y + Speed * |fs| as real
      else limit - Speed <= y < limit
    decreases |fs|
  {
    if |fs| > 0 {
      assert fs[0].keys == Keys(false, true) && fs[0].screenH == h;
      HoldDown(Frame(g, fs[0]), fs[1..], h);
    }
  }
}
