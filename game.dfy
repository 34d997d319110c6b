/** The per-frame simulation of the Pong game: the state held by the game
    loop, the specification of one frame as a function on that state, and a
    class whose methods update the state in place as the loop does.

    External inputs of a frame (the frame time, the two keys of player 1 and
    the random direction chosen when the ball is reset) are values of
    `Frame`; the window-close query that ends the loop is modelled by the
    length of the sequence of frames. */
module Game {
  import opened Config
  import opened Geometry

  /** Everything the game loop keeps between frames. */
  datatype World = World(
    ballPosition: Vector2,
    ballDirection: Vector2,
    paddle1Position: Vector2,
    paddle2Position: Vector2,
    score1: int,
    score2: int,
    gameOver: bool,
    winner: int)

  /** The inputs of one frame: elapsed time, whether W and S are held, and
      the direction a ball reset would draw at random. */
  datatype Frame = Frame(dt: real, keyW: bool, keyS: bool, resetDirection: Vector2)

  /** Half a paddle's height: the margin a paddle keeps from the screen's
      top and bottom. */
  const PHH: real := PADDLE_HEIGHT * 0.5

  const PADDLE1_X: real := SCREEN_WIDTH * 0.05
  const PADDLE2_X: real := SCREEN_WIDTH * 0.95

  function Abs(r: real): real
  {
    if r < 0.0 then -r else r
  }

  /** The winner that the scores alone determine: player 1 first, then
      player 2, otherwise none. */
  function WinnerOf(score1: int, score2: int): int
  {
    if score1 >= WINNING_SCORE then 1
    else if score2 >= WINNING_SCORE then 2
    else 0
  }

  /** The state right after start-up, given the direction of the first
      ball reset. */
  function Start(initialDirection: Vector2): World
  {
    World(CENTER, initialDirection,
          Vector2(PADDLE1_X, CENTER.y), Vector2(PADDLE2_X, CENTER.y),
          0, 0, false, 0)
  }

  /** What holds of every state the loop reaches: the paddles keep their x,
      share one y inside the screen margin, the scores are non-negative, the
      winner is the one the scores determine and the game is over exactly
      when there is a winner. */
  ghost predicate Invariant(w: World)
  {
    && w.paddle1Position.x == PADDLE1_X
    && w.paddle2Position.x == PADDLE2_X
    && w.paddle1Position.y == w.paddle2Position.y
    && PHH <= w.paddle1Position.y <= SCREEN_HEIGHT - PHH
    && w.score1 >= 0 && w.score2 >= 0
    && w.winner == WinnerOf(w.score1, w.score2)
    && w.gameOver == (w.winner != 0)
  }

  /** Paddle 1's y after the keys are applied, before clamping: W moves it
      up, S down; over the reals both together cancel out. */
  function MovedPaddleY(y: real, f: Frame): real
  {
    var paddleDelta := PADDLE_SPEED * f.dt;
    var afterW := if f.keyW then y - paddleDelta else y;
    if f.keyS then afterW + paddleDelta else afterW
  }

  /** The paddles' common y at the end of the paddle update. */
  function PaddleY(w: World, f: Frame): real
  {
    Clamp(MovedPaddleY(w.paddle1Position.y, f), PHH, SCREEN_HEIGHT - PHH)
  }

  /** The box the ball would occupy after one unobstructed move. */
  function PredictedBox(w: World, f: Frame): Box
  {
    BallBox(Add(w.ballPosition, Scale(w.ballDirection, BALL_SPEED * f.dt)))
  }

  predicate CrossesSide(b: Box)
  {
    b.xMin < 0.0 || b.xMax > SCREEN_WIDTH
  }

  predicate CrossesTopOrBottom(b: Box)
  {
    b.yMin < 0.0 || b.yMax > SCREEN_HEIGHT
  }

  predicate HitsPaddle(ballBox: Box, paddle1Box: Box, paddle2Box: Box)
  {
    BoxOverlap(ballBox, paddle1Box) || BoxOverlap(ballBox, paddle2Box)
  }

  /** The collision response: the three tests of the frame, each negating
      one component of the direction. The x component is negated twice when
      the ball both crosses a side and hits a paddle, so it ends up flipped
      exactly when one of the two holds. Only signs change. */
  function Reflect(dir: Vector2, ballBox: Box, paddle1Box: Box, paddle2Box: Box): (d: Vector2)
    ensures Abs(d.x) == Abs(dir.x) && Abs(d.y) == Abs(dir.y)
    ensures d.x == if CrossesSide(ballBox) != HitsPaddle(ballBox, paddle1Box, paddle2Box) then -dir.x else dir.x
    ensures d.y == if CrossesTopOrBottom(ballBox) then -dir.y else dir.y
  {
    var d1 := if CrossesSide(ballBox) then dir.(x := dir.x * -1.0) else dir;
    var d2 := if CrossesTopOrBottom(ballBox) then d1.(y := d1.y * -1.0) else d1;
    if HitsPaddle(ballBox, paddle1Box, paddle2Box) then d2.(x := d2.x * -1.0) else d2
  }

  /** The paddle update of a frame: W moves paddle 1 up, S down, paddle 2
      copies paddle 1's y, and both are clamped into the screen margin. */
  function MovePaddles(w: World, f: Frame): World
  {
    var y := PaddleY(w, f);
    w.(paddle1Position := w.paddle1Position.(y := y),
       paddle2Position := w.paddle2Position.(y := y))
  }

  /** The collision response of a frame, tested on the predicted box. */
  function Collide(w: World, ballBox: Box): World
  {
    w.(ballDirection := Reflect(w.ballDirection, ballBox,
                                PaddleBox(w.paddle1Position), PaddleBox(w.paddle2Position)))
  }

  /** The scoring of a frame: a left exit of the predicted box scores for
      player 2, otherwise a right exit scores for player 1; a point resets
      the ball to the centre with the frame's reset direction, otherwise the
      ball advances along its direction. */
  function ScoreOrAdvance(w: World, ballBox: Box, f: Frame): World
  {
    if ballBox.xMin < 0.0 then
      w.(score2 := w.score2 + 1, ballPosition := CENTER, ballDirection := f.resetDirection)
    else if ballBox.xMax > SCREEN_WIDTH then
      w.(score1 := w.score1 + 1, ballPosition := CENTER, ballDirection := f.resetDirection)
    else
      Advance(w, f)
  }

  /** The win check: player 1 is tested first. Below the winning score on
      both sides nothing changes. */
  function CheckWin(w: World): World
  {
    if w.score1 >= WINNING_SCORE then w.(gameOver := true, winner := 1)
    else if w.score2 >= WINNING_SCORE then w.(gameOver := true, winner := 2)
    else w
  }

  /** One move of the ball along its direction. */
  function Advance(w: World, f: Frame): World
  {
    w.(ballPosition := Add(w.ballPosition, Scale(w.ballDirection, BALL_SPEED * f.dt)))
  }

  /** One frame of the game loop: paddles, collisions on the predicted box,
      scoring, the win check, and then a second, unconditional move of the
      ball. Nothing here consults `gameOver`. */
  function Next(w: World, f: Frame): World
  {
    var ballBox := PredictedBox(w, f);
    Advance(CheckWin(ScoreOrAdvance(Collide(MovePaddles(w, f), ballBox), ballBox, f)), f)
  }

  /** The state after running the loop over a sequence of frames. */
  function Simulate(w: World, frames: seq<Frame>): World
    decreases |frames|
  {
    if frames == [] then w else Simulate(Next(w, frames[0]), frames[1..])
  }

  /** The start-up state satisfies the invariant. */
  lemma StartInvariant(initialDirection: Vector2)
    ensures Invariant(Start(initialDirection))
    ensures Start(initialDirection).ballPosition == CENTER
  {
  }

  /** After the paddle update both paddles share one y, that y lies within
      the screen margin, and neither paddle's x changes. When the moved y is
      already inside the margin it is kept as is. */
  lemma NextPaddles(w: World, f: Frame)
    ensures Next(w, f).paddle1Position.y == Next(w, f).paddle2Position.y
    ensures PHH <= Next(w, f).paddle1Position.y <= SCREEN_HEIGHT - PHH
    ensures Next(w, f).paddle1Position.x == w.paddle1Position.x
    ensures Next(w, f).paddle2Position.x == w.paddle2Position.x
    ensures PHH <= MovedPaddleY(w.paddle1Position.y, f) <= SCREEN_HEIGHT - PHH ==>
              Next(w, f).paddle1Position.y == MovedPaddleY(w.paddle1Position.y, f)
  {
  }

  /** On a frame without a point the direction only changes sign: y flips
      exactly when the predicted box crosses the top or bottom edge, x
      exactly when one but not both of "crosses a side" and "hits a paddle"
      holds. */
  lemma NextDirection(w: World, f: Frame)
    requires !CrossesSide(PredictedBox(w, f))
    ensures Abs(Next(w, f).ballDirection.x) == Abs(w.ballDirection.x)
    ensures Abs(Next(w, f).ballDirection.y) == Abs(w.ballDirection.y)
    ensures Next(w, f).ballDirection.y ==
              if CrossesTopOrBottom(PredictedBox(w, f)) then -w.ballDirection.y else w.ballDirection.y
    ensures Next(w, f).ballDirection.x ==
              if HitsPaddle(PredictedBox(w, f), PaddleBox(Next(w, f).paddle1Position),
                            PaddleBox(Next(w, f).paddle2Position))
              then -w.ballDirection.x else w.ballDirection.x
  {
  }

  /** At most one player scores in a frame, by exactly one point, and
      scores never decrease. A left exit scores for player 2 even when the
      box also crosses the right edge. */
  lemma NextScoring(w: World, f: Frame)
    ensures Next(w, f).score2 == w.score2 + 1 <==> PredictedBox(w, f).xMin < 0.0
    ensures Next(w, f).score1 == w.score1 + 1 <==>
              !(PredictedBox(w, f).xMin < 0.0) && PredictedBox(w, f).xMax > SCREEN_WIDTH
    ensures Next(w, f).score1 == w.score1 || Next(w, f).score1 == w.score1 + 1
    ensures Next(w, f).score2 == w.score2 || Next(w, f).score2 == w.score2 + 1
    ensures Next(w, f).score1 == w.score1 || Next(w, f).score2 == w.score2
  {
  }

  /** Where the ball ends up: on a scoring frame one move from the centre
      along the reset direction; otherwise two moves from where it was along
      the reflected direction, since the loop advances it twice. */
  lemma NextBallPosition(w: World, f: Frame)
    ensures CrossesSide(PredictedBox(w, f)) ==>
              Next(w, f).ballDirection == f.resetDirection &&
              Next(w, f).ballPosition == Add(CENTER, Scale(f.resetDirection, BALL_SPEED * f.dt))
    ensures !CrossesSide(PredictedBox(w, f)) ==>
              Next(w, f).ballPosition ==
                Add(w.ballPosition, Scale(Next(w, f).ballDirection, 2.0 * BALL_SPEED * f.dt))
  {
  }

  /** The win check: player 1 wins whenever their score has reached the
      winning score, player 2 otherwise whenever theirs has, and a game that
      is over stays over. */
  lemma NextWinState(w: World, f: Frame)
    ensures Next(w, f).score1 >= WINNING_SCORE ==> Next(w, f).gameOver && Next(w, f).winner == 1
    ensures Next(w, f).score1 < WINNING_SCORE && Next(w, f).score2 >= WINNING_SCORE ==>
              Next(w, f).gameOver && Next(w, f).winner == 2
    ensures Next(w, f).score1 < WINNING_SCORE && Next(w, f).score2 < WINNING_SCORE ==>
              Next(w, f).gameOver == w.gameOver && Next(w, f).winner == w.winner
    ensures w.gameOver ==> Next(w, f).gameOver
  {
  }

  /** One frame keeps the invariant. */
  lemma NextPreservesInvariant(w: World, f: Frame)
    requires Invariant(w)
    ensures Invariant(Next(w, f))
  {
  }

  /** Because the loop keeps updating after the game is over, a game that
      player 2 has won can still be taken by player 1: with the scores at
      4 to 5 and the ball about to leave on the right, the frame awards
      player 1 their fifth point and the winner changes from 2 to 1. */
  lemma WinnerOverwrittenAfterGameOver()
    ensures var w := World(Vector2(1170.0, 400.0), Vector2(1.0, 0.0),
                           Vector2(PADDLE1_X, 400.0), Vector2(PADDLE2_X, 400.0),
                           4, 5, true, 2);
            var n := Next(w, Frame(0.1, false, false, Vector2(-1.0, 0.0)));
            Invariant(w) && w.gameOver && w.winner == 2 &&
            n.gameOver && n.winner == 1 && n.score1 == 5
  {
  }

  /** Any number of frames keeps the invariant; in particular the winner
      is always 0, 1 or 2, and the game is over exactly when it is not 0. */
  lemma {:induction false} SimulatePreservesInvariant(w: World, frames: seq<Frame>)
    requires Invariant(w)
    ensures Invariant(Simulate(w, frames))
    ensures Simulate(w, frames).winner in {0, 1, 2}
    ensures Simulate(w, frames).gameOver <==> Simulate(w, frames).winner != 0
    decreases |frames|
  {
    if frames != [] {
      NextPreservesInvariant(w, frames[0]);
      SimulatePreservesInvariant(Next(w, frames[0]), frames[1..]);
    }
  }

  /** Over any number of frames scores never decrease, together they grow
      by at most one point per frame, and a game that is over stays over. */
  lemma {:induction false} SimulateMonotone(w: World, frames: seq<Frame>)
    ensures Simulate(w, frames).score1 >= w.score1
    ensures Simulate(w, frames).score2 >= w.score2
    ensures Simulate(w, frames).score1 + Simulate(w, frames).score2 <= w.score1 + w.score2 + |frames|
    ensures w.gameOver ==> Simulate(w, frames).gameOver
    decreases |frames|
  {
    if frames != [] {
      NextScoring(w, frames[0]);
      NextWinState(w, frames[0]);
      SimulateMonotone(Next(w, frames[0]), frames[1..]);
    }
  }

  /** The game loop's local variables, updated in place frame by frame. */
  class Game {
    var ballPosition: Vector2
    var ballDirection: Vector2
    var paddle1Position: Vector2
    var paddle2Position: Vector2
    var score1: int
    var score2: int
    var gameOver: bool
    var winner: int

    /** The current values of the fields as a `World`. */
    function State(): World
      reads this
    {
      World(ballPosition, ballDirection, paddle1Position, paddle2Position,
            score1, score2, gameOver, winner)
    }

    ghost predicate Valid()
      reads this
    {
      Invariant(State())
    }

    /** Start-up: the ball is reset, the paddles are placed at 5% and 95% of
        the width at mid-height, and there are no points and no winner. */
    constructor (initialDirection: Vector2)
      ensures State() == Start(initialDirection)
      ensures Valid()
    {
      ballPosition := CENTER;
      ballDirection := initialDirection;
      paddle1Position := Vector2(PADDLE1_X, CENTER.y);
      paddle2Position := Vector2(PADDLE2_X, CENTER.y);
      score1, score2 := 0, 0;
      gameOver := false;
      winner := 0;
    }

    /** Puts the ball back at the centre of the screen with the given
        direction (drawn at random by the caller). */
    method ResetBall(direction: Vector2)
      modifies this
      ensures ballPosition == CENTER && ballDirection == direction
      ensures paddle1Position == old(paddle1Position) && paddle2Position == old(paddle2Position)
      ensures score1 == old(score1) && score2 == old(score2)
      ensures gameOver == old(gameOver) && winner == old(winner)
    {
      ballPosition := CENTER;
      ballDirection := direction;
    }

    /** One pass of the game loop's update: the paddles, the collision
        response on the predicted ball box, scoring, the win check and the
        second move of the ball. */
    method Step(f: Frame)
      modifies this
      ensures State() == Next(old(State()), f)
      ensures old(Valid()) ==> Valid()
    {
      ghost var before := State();
      var ballDelta := BALL_SPEED * f.dt;
      UpdatePaddles(f);

      // Change the ball's direction on collision with the predicted box.
      var ballPositionNext := Add(ballPosition, Scale(ballDirection, ballDelta));
      var ballBox := BallBox(ballPositionNext);
      assert ballBox == PredictedBox(before, f);
      Bounce(ballBox);
      Score(ballBox, f);
      CheckWinner();

      // The second move of the frame, made whether or not a point was scored.
      ballPosition := Add(ballPosition, Scale(ballDirection, ballDelta));

      if Invariant(before) {
        NextPreservesInvariant(before, f);
      }
    }

    /** Moves paddle 1 with the keys, makes paddle 2 copy its y, and clamps
        both into the screen margin. */
    method UpdatePaddles(f: Frame)
      modifies this
      ensures State() == MovePaddles(old(State()), f)
    {
      var paddleDelta := PADDLE_SPEED * f.dt;
      if f.keyW {
        paddle1Position := paddle1Position.(y := paddle1Position.y - paddleDelta);
      }
      if f.keyS {
        paddle1Position := paddle1Position.(y := paddle1Position.y + paddleDelta);
      }
      paddle2Position := paddle2Position.(y := paddle1Position.y);
      paddle1Position := paddle1Position.(y := Clamp(paddle1Position.y, PHH, SCREEN_HEIGHT - PHH));
      paddle2Position := paddle2Position.(y := Clamp(paddle2Position.y, PHH, SCREEN_HEIGHT - PHH));
    }

    /** Negates the direction's x when the ball box crosses a side, its y
        when it crosses the top or bottom, and its x again when it overlaps
        either paddle. */
    method Bounce(ballBox: Box)
      modifies this
      ensures State() == Collide(old(State()), ballBox)
    {
      var paddle1Box := PaddleBox(paddle1Position);
      var paddle2Box := PaddleBox(paddle2Position);
      if ballBox.xMin < 0.0 || ballBox.xMax > SCREEN_WIDTH {
        ballDirection := ballDirection.(x := ballDirection.x * -1.0);
      }
      if ballBox.yMin < 0.0 || ballBox.yMax > SCREEN_HEIGHT {
        ballDirection := ballDirection.(y := ballDirection.y * -1.0);
      }
      if BoxOverlap(ballBox, paddle1Box) || BoxOverlap(ballBox, paddle2Box) {
        ballDirection := ballDirection.(x := ballDirection.x * -1.0);
      }
    }

    /** Awards a point for a ball box past the left edge (player 2) or else
        past the right edge (player 1) and resets the ball; without a point
        the ball moves once along its direction. */
    method Score(ballBox: Box, f: Frame)
      modifies this
      ensures State() == ScoreOrAdvance(old(State()), ballBox, f)
    {
      if ballBox.xMin < 0.0 {
        score2 := score2 + 1;
        ResetBall(f.resetDirection);
      } else if ballBox.xMax > SCREEN_WIDTH {
        score1 := score1 + 1;
        ResetBall(f.resetDirection);
      } else {
        ballPosition := Add(ballPosition, Scale(ballDirection, BALL_SPEED * f.dt));
      }
    }

    /** Ends the game for player 1 at the winning score, otherwise for
        player 2 at the winning score. */
    method CheckWinner()
      modifies this
      ensures State() == CheckWin(old(State()))
    {
      if score1 >= WINNING_SCORE {
        gameOver := true;
        winner := 1;
      } else if score2 >= WINNING_SCORE {
        gameOver := true;
        winner := 2;
      }
    }

    /** The game loop: one update per frame until the window is closed,
        which happens after the last of the given frames. */
    method Run(frames: seq<Frame>)
      modifies this
      ensures State() == Simulate(old(State()), frames)
      ensures old(Valid()) ==> Valid()
    {
      var i := 0;
      while i < |frames|
        invariant 0 <= i <= |frames|
        invariant Simulate(State(), frames[i..]) == Simulate(old(State()), frames)
        invariant old(Valid()) ==> Valid()
      {
        assert frames[i..][1..] == frames[i + 1..];
        Step(frames[i]);
        i := i + 1;
      }
      assert frames[i..] == [];
    }
  }
}
