# Pong simulation model

A Dafny model of the simulation core of a two-paddle Pong game. All of the
game is in `game1005-raylib/src/main.cpp`. The model covers:

- `config.dfy` (module `Config`): the game's constants, from the screen size
  to the winning score, and the vector sum and scaling that the ball update
  uses. The source's `float` values are `real` here.
- `geometry.dfy` (module `Geometry`): axis-aligned boxes. This is the
  overlap test `BoxOverlap`, the conversion `BoxToRec` to an
  origin-plus-size rectangle, and the boxes `BallBox` and `PaddleBox`
  centred on a position. It also holds `Clamp`, which the paddle update uses.
- `game.dfy` (module `Game`): the state of the game loop as a value `World`
  and one frame of the loop as a function `Next`. `Next` is built from one
  function per phase: paddles, collision response, scoring, win check, and
  the extra move of the ball. `Simulate` runs `Next` over a sequence of
  frames. The class `Game` has the loop's local variables as fields. Its
  methods update them in place in the source's order: `ResetBall`, the
  per-frame `Step` with one method per phase, and the loop `Run`. Each
  method is proved to produce the state the matching function describes.

The inputs of a frame are fields of `Frame`: the frame time `dt`, whether W
and S are held, and the direction that a ball reset would draw at random.
The window-close query that ends the loop becomes the length of the frame
sequence given to `Run`.

Two behaviours of the source are kept as written:

- On a frame without a point, the ball moves twice: once in the no-score
  branch and once unconditionally afterwards.
- The loop never tests `gameOver`, so updates continue after the game is
  over.

A consequence of the second is proved in `WinnerOverwrittenAfterGameOver`.
Suppose player 2 has won and player 1 is at 4 points. If player 1 then
scores, the win check (which tests player 1 first) changes the winner from
2 to 1. So the first player to reach the winning score does not always
keep the win, and the game state keeps changing after the game is over.
The model follows the code here.

The model's invariant (`Invariant`) holds from the start state on:

- the winner is determined by the scores, with player 1 tested first;
- the game is over exactly when there is a winner;
- the paddles keep their x, share one y, and stay inside the screen margin;
- the scores are non-negative.

## Model

| member | source | states |
|---|---|---|
| `Geometry.BoxOverlapSymmetric` | game1005-raylib/src/main.cpp:27-32 | The overlap test gives the same answer with its arguments swapped. |
| `Geometry.OverlapIffCommonPoint` | game1005-raylib/src/main.cpp:27-32 | For well-formed boxes, the per-axis interval test holds exactly when some point lies in both boxes. |
| `Geometry.WellFormedOverlapsItself` | game1005-raylib/src/main.cpp:27-32 | Every well-formed box overlaps itself. |
| `Geometry.BoxToRec` | game1005-raylib/src/main.cpp:34-42 | The rectangle keeps the top-left corner (`x == xMin`, `y == yMin`). Corner plus size reaches the far corner (`x + width == xMax`, `y + height == yMax`). The size is non-negative for a well-formed box. |
| `Geometry.BallBox` | game1005-raylib/src/main.cpp:44-52 | The ball box is well formed, `BALL_SIZE` wide and tall, and centred on the position. |
| `Geometry.PaddleBox` | game1005-raylib/src/main.cpp:54-62 | The paddle box is well formed, `PADDLE_WIDTH` wide and `PADDLE_HEIGHT` tall, and centred on the position. |
| `Geometry.BallBoxOverlapsItself` | game1005-raylib/src/main.cpp:44-52 | A ball box contains its centre and overlaps itself. |
| `Geometry.PaddleBoxOverlapsItself` | game1005-raylib/src/main.cpp:54-62 | A paddle box contains its centre and overlaps itself. |
| `Geometry.Clamp` | game1005-raylib/src/main.cpp:132-134 | With `lo <= hi`, the result lies in `[lo, hi]`. It is the value itself when the value is in range, `lo` below the range and `hi` above it. |
| `Game.Reflect` | game1005-raylib/src/main.cpp:142-147 | Only the signs of the direction change. y is negated exactly when the box crosses the top or bottom. x is negated exactly when one, but not both, of "crosses a side" and "overlaps a paddle" holds. |
| `Game.StartInvariant` | game1005-raylib/src/main.cpp:100-112 | The start-up state satisfies the invariant, with the ball at the centre. |
| `Game.NextPaddles` | game1005-raylib/src/main.cpp:122-134 | After a frame both paddles share one y, inside `[PADDLE_HEIGHT/2, SCREEN_HEIGHT - PADDLE_HEIGHT/2]`. Their x is unchanged. A moved y already in range is kept. |
| `Game.NextDirection` | game1005-raylib/src/main.cpp:136-147 | On a frame without a point, both direction components keep their magnitude. y flips exactly on a top or bottom crossing, and x flips exactly on a paddle hit. |
| `Game.NextScoring` | game1005-raylib/src/main.cpp:148-156 | Player 2 scores exactly when the predicted box is past the left edge, even if it is also past the right edge. Player 1 scores exactly when it is past the right edge and not the left. Each score rises by 0 or 1, and never both in one frame. |
| `Game.NextBallPosition` | game1005-raylib/src/main.cpp:149-171 | On a scoring frame the ball ends one move from the centre along the reset direction. Otherwise it ends two moves from its old position along the reflected direction. |
| `Game.NextWinState` | game1005-raylib/src/main.cpp:161-168 | At the winning score player 1 wins. Otherwise player 2 wins at the winning score. Below it nothing changes. A game that is over stays over. |
| `Game.NextPreservesInvariant` | game1005-raylib/src/main.cpp:118-171 | One frame keeps the invariant: paddle bounds and x, non-negative scores, `winner` determined by the scores, `gameOver <==> winner != 0`. |
| `Game.WinnerOverwrittenAfterGameOver` | game1005-raylib/src/main.cpp:149-168 | Example: from a state where player 2 has won 5 to 4, a right exit makes the score 5 to 5 and changes the winner to 1. |
| `Game.SimulatePreservesInvariant` | game1005-raylib/src/main.cpp:116-191 | Any number of frames keeps the invariant, so `winner` is always 0, 1 or 2 and `gameOver` holds exactly when `winner != 0`. |
| `Game.SimulateMonotone` | game1005-raylib/src/main.cpp:116-191 | Over any number of frames, scores never decrease. Together they rise by at most one point per frame. A game that is over stays over. |
| `Game.Game.constructor` | game1005-raylib/src/main.cpp:100-112 | Start-up: ball at the centre with the given direction. Paddles at 5% and 95% of the width, at mid-height. Scores 0, no winner. The invariant holds. |
| `Game.Game.ResetBall` | game1005-raylib/src/main.cpp:64-70 | The ball moves to the centre with the given direction. Every other field is unchanged. |
| `Game.Game.Step` | game1005-raylib/src/main.cpp:118-171 | The new state is `Next` of the old state and the frame's inputs, and the invariant is kept. |
| `Game.Game.UpdatePaddles` | game1005-raylib/src/main.cpp:122-134 | Applying the keys, copying paddle 1's y into paddle 2 and clamping both gives the state `MovePaddles` describes. |
| `Game.Game.Bounce` | game1005-raylib/src/main.cpp:136-147 | The three sign flips in source order give the state `Collide` describes, whose direction is `Reflect`'s. |
| `Game.Game.Score` | game1005-raylib/src/main.cpp:148-160 | Scoring with a ball reset, or one move without a point, gives the state `ScoreOrAdvance` describes. |
| `Game.Game.CheckWinner` | game1005-raylib/src/main.cpp:161-168 | The win check gives the state `CheckWin` describes. |
| `Game.Game.Run` | game1005-raylib/src/main.cpp:116-191 | Running the loop over the frames gives `Simulate` of the old state, and the invariant is kept. |

## Left out

- Rendering (`DrawBall`, `DrawPaddle`, `DrawScore`, `DrawWinner` and the drawing block of the loop): these are calls into the graphics library and change no game state.
- Window and input plumbing (`InitWindow`, `SetTargetFPS`, `WindowShouldClose`, `GetFrameTime`, `IsKeyDown`, `CloseWindow`): these are foreign calls. The frame time and the two keys are fields of `Frame`, and the loop's end is the end of the frame sequence.
- `Game.Game.ResetBall`: the random direction (`rand`, `Rotate` and `Random` from `Math.h`) is passed in as a parameter. The model claims nothing about its length or distribution, so a unit-length direction after a reset is not stated.
- `Geometry.Clamp`: `Math.h` is not part of this model. `Clamp` is assumed to be the usual one: the lower bound first, then the upper bound.
- `Config.Add` and `Config.Scale`: the vector `+` and `*` come from `Math.h` as well, and are assumed to work component by component.
- Floating-point rounding: `float` is modelled as `real`. Some stated equalities hold over the reals and, in `float`, only up to rounding: the centring of `BallBox` and `PaddleBox`, corner plus size in `BoxToRec`, the two moves written as one move of `2 * ballDelta` in `NextBallPosition`, and W and S cancelling in `MovedPaddleY`. The comparisons, sign flips and score updates are exact.
- Integer overflow of the scores: the C++ `int` counters are unbounded integers here. They grow by at most one point per frame.
