/**
  The per-frame rules of the pong game, on values.

  `GameState` holds exactly the module-level variables of the game script;
  every operation of the script's simulation is a function from the state
  before the call to the state after it. The class `Pong.Game` updates the
  same variables in place and is proved to agree with these functions.
  Coordinates are exact reals (the script's IEEE doubles without rounding).
 */
module Simulation {

  // Field geometry (the canvas is resized to 800 x 400 before play).
  const FieldWidth: real := 800.0
  const FieldHeight: real := 400.0
  const BallRadius: real := 10.0
  const PaddleWidth: real := 10.0
  const PaddleHeight: real := 100.0

  // The highest top coordinate at which a paddle still fits in the field.
  const PaddleTravel: real := FieldHeight - PaddleHeight

  // The canvas size assumed when the initial positions are computed: the
  // resize happens only after them, and the page is taken to give the canvas
  // no size of its own, so they use the browser default of 300 x 150.
  const DefaultCanvasWidth: real := 300.0
  const DefaultCanvasHeight: real := 150.0

  datatype Difficulty = Easy | Medium | Hard

  /** Paddle and ball speed (pixels per frame) selected by a difficulty. */
  function BaseSpeed(d: Difficulty): (speed: real)
    ensures 4.0 <= speed <= 8.0
  {
    match d
    case Easy => 4.0
    case Medium => 6.0
    case Hard => 8.0
  }

  /** Speed of the computer paddle: a difficulty-dependent multiple of the paddle speed. */
  function AiSpeed(d: Difficulty, paddleSpeed: real): (aiSpeed: real)
    ensures paddleSpeed > 0.0 ==> aiSpeed > 0.0
  {
    match d
    case Easy => paddleSpeed * 0.8
    case Medium => paddleSpeed
    case Hard => paddleSpeed * 1.5
  }

  function Abs(x: real): real {
    if x < 0.0 then -x else x
  }

  function Min(a: real, b: real): real {
    if a <= b then a else b
  }

  function Max(a: real, b: real): real {
    if a >= b then a else b
  }

  /** The script's module-level variables. */
  datatype GameState = GameState(
    ballX: real, ballY: real, ballDx: real, ballDy: real,
    playerY: real, computerY: real,
    playerScore: nat, computerScore: nat,
    upPressed: bool, downPressed: bool,
    difficulty: Difficulty, paddleSpeed: real, ballSpeed: real)

  /**
    The state when the script has loaded. The speeds and the ball velocity
    are still undefined there; they stand here as 0.0 and are first given
    values by `SetDifficultyParams`.
   */
  const Initial: GameState :=
    GameState(
      DefaultCanvasWidth / 2.0, DefaultCanvasHeight / 2.0, 0.0, 0.0,
      DefaultCanvasHeight / 2.0 - PaddleHeight / 2.0,
      DefaultCanvasHeight / 2.0 - PaddleHeight / 2.0,
      0, 0, false, false, Medium, 0.0, 0.0)

  /** The speeds agree with the difficulty and the ball velocity with the speed. */
  predicate Playing(s: GameState) {
    && s.paddleSpeed == BaseSpeed(s.difficulty)
    && s.ballSpeed == s.paddleSpeed
    && Abs(s.ballDx) == s.ballSpeed
    && Abs(s.ballDy) <= s.ballSpeed
  }

  /**
    What a frame keeps: `Playing`, the player paddle within one step of the
    field (it is never clamped), and the computer paddle inside the field.
   */
  predicate Running(s: GameState) {
    && Playing(s)
    && -s.paddleSpeed < s.playerY < PaddleTravel + s.paddleSpeed
    && 0.0 <= s.computerY <= PaddleTravel
  }

  // ---------------------------------------------------------------- difficulty

  /** Derive both speeds from the difficulty and launch the ball at (speed, speed). */
  function SetDifficultyParams(s: GameState): (r: GameState)
    ensures Playing(r)
    ensures r.ballDx > 0.0 && r.ballDy > 0.0
    ensures r.(ballDx := s.ballDx, ballDy := s.ballDy,
               paddleSpeed := s.paddleSpeed, ballSpeed := s.ballSpeed) == s
  {
    var speed := BaseSpeed(s.difficulty);
    s.(paddleSpeed := speed, ballSpeed := speed, ballDx := speed, ballDy := speed)
  }

  /** The first two statements of a difficulty button: set the difficulty, then derive the speeds. */
  function SelectDifficulty(s: GameState, d: Difficulty): (r: GameState)
    ensures r.difficulty == d && r.paddleSpeed == BaseSpeed(d) && Playing(r)
    ensures r.(difficulty := s.difficulty, ballDx := s.ballDx, ballDy := s.ballDy,
               paddleSpeed := s.paddleSpeed, ballSpeed := s.ballSpeed) == s
  {
    SetDifficultyParams(s.(difficulty := d))
  }

  lemma SpeedTable()
    ensures BaseSpeed(Easy) == 4.0 && BaseSpeed(Medium) == 6.0 && BaseSpeed(Hard) == 8.0
  {
  }

  lemma AiSpeedTable(paddleSpeed: real)
    ensures AiSpeed(Easy, paddleSpeed) == 0.8 * paddleSpeed
    ensures AiSpeed(Medium, paddleSpeed) == 1.0 * paddleSpeed
    ensures AiSpeed(Hard, paddleSpeed) == 1.5 * paddleSpeed
  {
  }

  lemma SetDifficultyParamsEffect(s: GameState)
    ensures var r := SetDifficultyParams(s);
      && r.paddleSpeed == r.ballSpeed == BaseSpeed(s.difficulty)
      && r.ballDx == r.ballSpeed && r.ballDy == r.ballSpeed
      && Playing(r)
      && r.(ballDx := s.ballDx, ballDy := s.ballDy,
            paddleSpeed := s.paddleSpeed, ballSpeed := s.ballSpeed) == s
  {
  }

  /**
    Choosing a difficulty right after loading starts play from the load-time
    positions: ball at (150, 75), both paddles at 25, moving down-right.
   */
  lemma StartFromInitial(d: Difficulty)
    ensures var r := SelectDifficulty(Initial, d);
      && Running(r)
      && r.ballX == 150.0 && r.ballY == 75.0
      && r.playerY == 25.0 && r.computerY == 25.0
      && r.ballDx == BaseSpeed(d) && r.ballDy == BaseSpeed(d)
      && r.playerScore == 0 && r.computerScore == 0
  {
  }

  // ---------------------------------------------------------------- the ball

  /** Ball at the field centre with velocity (ballSpeed, ballSpeed). */
  function ResetBall(s: GameState): (r: GameState)
    ensures BallReset(r)
    ensures r.(ballX := s.ballX, ballY := s.ballY, ballDx := s.ballDx, ballDy := s.ballDy) == s
  {
    s.(ballX := FieldWidth / 2.0, ballY := FieldHeight / 2.0,
       ballDx := s.ballSpeed, ballDy := s.ballSpeed)
  }

  predicate BallReset(r: GameState) {
    && r.ballX == 400.0 && r.ballY == 200.0
    && r.ballDx == r.ballSpeed && r.ballDy == r.ballSpeed
  }

  lemma ResetBallEffect(s: GameState)
    ensures var r := ResetBall(s);
      && BallReset(r)
      && r.(ballX := s.ballX, ballY := s.ballY, ballDx := s.ballDx, ballDy := s.ballDy) == s
      && (Playing(s) ==> Playing(r))
  {
  }

  /** The ball moves by its velocity; nothing else changes. */
  function Advance(s: GameState): (r: GameState)
    ensures r == s.(ballX := r.ballX, ballY := r.ballY)
    ensures r.ballX - s.ballX == s.ballDx && r.ballY - s.ballY == s.ballDy
  {
    s.(ballX := s.ballX + s.ballDx, ballY := s.ballY + s.ballDy)
  }

  predicate TouchesWall(ballY: real) {
    ballY - BallRadius <= 0.0 || ballY + BallRadius >= FieldHeight
  }

  /** The wall test reverses the vertical direction and keeps the vertical speed. */
  function WallBounce(s: GameState): (r: GameState)
    ensures r == s.(ballDy := r.ballDy)
    ensures Abs(r.ballDy) == Abs(s.ballDy)
    ensures TouchesWall(s.ballY) ==> r.ballDy == -s.ballDy
    ensures !TouchesWall(s.ballY) ==> r == s
  {
    if TouchesWall(s.ballY) then s.(ballDy := -s.ballDy) else s
  }

  /**
    The vertical velocity after a paddle hit: the offset of the ball from
    the paddle centre, as a fraction of half the paddle height, times the
    ball speed.
   */
  function PaddleAngle(ballY: real, paddleY: real, ballSpeed: real): real {
    var relativeY := ballY - (paddleY + PaddleHeight / 2.0);
    var normalizedRelativeY := relativeY / (PaddleHeight / 2.0);
    normalizedRelativeY * ballSpeed
  }

  predicate WithinPaddle(ballY: real, paddleY: real) {
    ballY >= paddleY && ballY <= paddleY + PaddleHeight
  }

  // The paddle tests look only at position, not at the direction of travel.
  predicate HitsPlayerPaddle(s: GameState) {
    s.ballX - BallRadius <= PaddleWidth && WithinPaddle(s.ballY, s.playerY)
  }

  predicate HitsComputerPaddle(s: GameState) {
    s.ballX + BallRadius >= FieldWidth - PaddleWidth && WithinPaddle(s.ballY, s.computerY)
  }

  function Deflect(s: GameState, paddleY: real): GameState {
    s.(ballDx := -s.ballDx, ballDy := PaddleAngle(s.ballY, paddleY, s.ballSpeed))
  }

  /** The player paddle test: a hit reverses the horizontal direction and keeps its speed. */
  function PlayerPaddle(s: GameState): (r: GameState)
    ensures r == s.(ballDx := r.ballDx, ballDy := r.ballDy)
    ensures Abs(r.ballDx) == Abs(s.ballDx)
    ensures HitsPlayerPaddle(s) ==> r.ballDx == -s.ballDx && r.ballDy == PaddleAngle(s.ballY, s.playerY, s.ballSpeed)
    ensures !HitsPlayerPaddle(s) ==> r == s
  {
    if HitsPlayerPaddle(s) then Deflect(s, s.playerY) else s
  }

  /** The computer paddle test, the same rule on the right edge. */
  function ComputerPaddle(s: GameState): (r: GameState)
    ensures r == s.(ballDx := r.ballDx, ballDy := r.ballDy)
    ensures Abs(r.ballDx) == Abs(s.ballDx)
    ensures HitsComputerPaddle(s) ==> r.ballDx == -s.ballDx && r.ballDy == PaddleAngle(s.ballY, s.computerY, s.ballSpeed)
    ensures !HitsComputerPaddle(s) ==> r == s
  {
    if HitsComputerPaddle(s) then Deflect(s, s.computerY) else s
  }

  predicate ComputerScores(s: GameState) {
    s.ballX - BallRadius <= 0.0
  }

  predicate PlayerScores(s: GameState) {
    s.ballX + BallRadius >= FieldWidth
  }

  /** The two scoring tests, in order; the second sees the ball the first may have reset. */
  function AwardPoints(s: GameState): (r: GameState)
    ensures s.playerScore <= r.playerScore && s.computerScore <= r.computerScore
    ensures r.playerScore + r.computerScore <= s.playerScore + s.computerScore + 1
    ensures r.playerScore + r.computerScore != s.playerScore + s.computerScore ==> BallReset(r)
    ensures r.playerScore + r.computerScore == s.playerScore + s.computerScore ==> r == s
    ensures r.(ballX := s.ballX, ballY := s.ballY, ballDx := s.ballDx, ballDy := s.ballDy,
               playerScore := s.playerScore, computerScore := s.computerScore) == s
  {
    var s1 := if ComputerScores(s) then ResetBall(s.(computerScore := s.computerScore + 1)) else s;
    if PlayerScores(s1) then ResetBall(s1.(playerScore := s1.playerScore + 1)) else s1
  }

  /** The ball's frame: only the ball and the scores change, and at most one point is scored. */
  function MoveBall(s: GameState): (r: GameState)
    ensures s.playerScore <= r.playerScore && s.computerScore <= r.computerScore
    ensures r.playerScore + r.computerScore <= s.playerScore + s.computerScore + 1
    ensures r.(ballX := s.ballX, ballY := s.ballY, ballDx := s.ballDx, ballDy := s.ballDy,
               playerScore := s.playerScore, computerScore := s.computerScore) == s
  {
    AwardPoints(ComputerPaddle(PlayerPaddle(WallBounce(Advance(s)))))
  }

  /** A paddle hit at the centre is flat; at the top edge straight up, at the bottom straight down. */
  lemma PaddleAngleLandmarks(paddleY: real, ballSpeed: real)
    ensures PaddleAngle(paddleY + PaddleHeight / 2.0, paddleY, ballSpeed) == 0.0
    ensures PaddleAngle(paddleY, paddleY, ballSpeed) == -ballSpeed
    ensures PaddleAngle(paddleY + PaddleHeight, paddleY, ballSpeed) == ballSpeed
  {
  }

  /** Anywhere on the paddle span the new vertical speed is at most the ball speed. */
  lemma PaddleAngleBounded(ballY: real, paddleY: real, ballSpeed: real)
    requires WithinPaddle(ballY, paddleY)
    requires ballSpeed >= 0.0
    ensures Abs(PaddleAngle(ballY, paddleY, ballSpeed)) <= ballSpeed
  {
    var n := (ballY - (paddleY + PaddleHeight / 2.0)) / (PaddleHeight / 2.0);
    assert -1.0 <= n <= 1.0;
    NonNegativeProduct(1.0 - n, ballSpeed);
    NonNegativeProduct(1.0 + n, ballSpeed);
    assert PaddleAngle(ballY, paddleY, ballSpeed) == n * ballSpeed;
  }

  lemma NonNegativeProduct(a: real, b: real)
    requires a >= 0.0 && b >= 0.0
    ensures a * b >= 0.0
  {
  }

  /**
    A frame with no paddle hit and no point: the ball advances by its
    velocity without any clamping, and the vertical velocity is negated
    exactly when the advanced ball touches the top or bottom wall.
   */
  lemma WallReflection(s: GameState)
    requires var a := Advance(s);
      !HitsPlayerPaddle(a) && !HitsComputerPaddle(a) && !ComputerScores(a) && !PlayerScores(a)
    ensures MoveBall(s) ==
      s.(ballX := s.ballX + s.ballDx, ballY := s.ballY + s.ballDy,
         ballDy := if TouchesWall(s.ballY + s.ballDy) then -s.ballDy else s.ballDy)
  {
  }

  /**
    A player paddle hit that does not score: the horizontal velocity is
    negated and the vertical one is replaced by the paddle angle, whatever
    the wall test did; the position is the advanced one.
   */
  lemma PlayerPaddleHit(s: GameState)
    requires HitsPlayerPaddle(Advance(s)) && !ComputerScores(Advance(s))
    ensures var a := Advance(s);
      MoveBall(s) == a.(ballDx := -s.ballDx, ballDy := PaddleAngle(a.ballY, s.playerY, s.ballSpeed))
  {
  }

  lemma ComputerPaddleHit(s: GameState)
    requires HitsComputerPaddle(Advance(s)) && !PlayerScores(Advance(s))
    ensures var a := Advance(s);
      MoveBall(s) == a.(ballDx := -s.ballDx, ballDy := PaddleAngle(a.ballY, s.computerY, s.ballSpeed))
  {
  }

  /**
    The paddle test ignores the direction of travel: a ball already leaving
    the player paddle (moving right) is turned back towards the left wall.
   */
  lemma PaddleHitIgnoresDirection()
    ensures var s := SelectDifficulty(Initial, Easy).(ballX := 12.0, ballY := 75.0);
      s.ballDx > 0.0 && MoveBall(s).ballDx < 0.0
  {
  }

  /**
    Scoring: one call increases at most one score, by exactly one, never
    decreases a score, and resets the ball exactly when a score increased.
   */
  lemma MoveBallScoring(s: GameState)
    ensures var r := MoveBall(s);
      && ((r.playerScore == s.playerScore && r.computerScore == s.computerScore)
          || (r.playerScore == s.playerScore + 1 && r.computerScore == s.computerScore)
          || (r.playerScore == s.playerScore && r.computerScore == s.computerScore + 1))
      && (r.computerScore == s.computerScore + 1 <==> ComputerScores(Advance(s)))
      && (r.playerScore == s.playerScore + 1 <==> PlayerScores(Advance(s)))
      && (r.playerScore != s.playerScore || r.computerScore != s.computerScore ==> BallReset(r))
      && (r.playerScore == s.playerScore && r.computerScore == s.computerScore ==>
            r.ballX == s.ballX + s.ballDx && r.ballY == s.ballY + s.ballDy)
  {
  }

  /** The ball keeps |dx| == ballSpeed and |dy| <= ballSpeed. */
  lemma MoveBallKeepsPlaying(s: GameState)
    requires Playing(s)
    ensures Playing(MoveBall(s))
    ensures MoveBall(s).(ballX := s.ballX, ballY := s.ballY, ballDx := s.ballDx, ballDy := s.ballDy,
                         playerScore := s.playerScore, computerScore := s.computerScore) == s
  {
    var a := WallBounce(Advance(s));
    assert Playing(a);
    var p := PlayerPaddle(a);
    if HitsPlayerPaddle(a) {
      PaddleAngleBounded(a.ballY, a.playerY, a.ballSpeed);
    }
    assert Playing(p);
    var c := ComputerPaddle(p);
    if HitsComputerPaddle(p) {
      PaddleAngleBounded(p.ballY, p.computerY, p.ballSpeed);
    }
    assert Playing(c);
    var c1 := if ComputerScores(c) then ResetBall(c.(computerScore := c.computerScore + 1)) else c;
    assert Playing(c1);
    assert MoveBall(s) == if PlayerScores(c1) then ResetBall(c1.(playerScore := c1.playerScore + 1)) else c1;
  }

  // ---------------------------------------------------------------- the paddles

  /**
    The player paddle. Each direction tests the position before its own
    step, so the paddle may end up to one step outside [0, PaddleTravel].
   */
  function MovePaddles(s: GameState): (r: GameState)
    ensures r == s.(playerY := r.playerY)
    ensures r.playerY == s.playerY || r.playerY == s.playerY - s.paddleSpeed
            || r.playerY == s.playerY + s.paddleSpeed
  {
    var y1 := if s.upPressed && s.playerY > 0.0 then s.playerY - s.paddleSpeed else s.playerY;
    var y2 := if s.downPressed && y1 < FieldHeight - PaddleHeight then y1 + s.paddleSpeed else y1;
    s.(playerY := y2)
  }

  /** The paddle goes up only on the up key above the top, down only on the down key above the limit. */
  lemma MovePaddlesDirection(s: GameState)
    requires s.paddleSpeed > 0.0
    ensures var r := MovePaddles(s);
      && (r.playerY < s.playerY ==> s.upPressed && s.playerY > 0.0 && r.playerY == s.playerY - s.paddleSpeed)
      && (r.playerY > s.playerY ==> s.downPressed && s.playerY < PaddleTravel && r.playerY == s.playerY + s.paddleSpeed)
      && (!s.upPressed && !s.downPressed ==> r.playerY == s.playerY)
      && (s.upPressed && !s.downPressed && s.playerY > 0.0 ==> r.playerY == s.playerY - s.paddleSpeed)
      && (s.downPressed && !s.upPressed && s.playerY < PaddleTravel ==> r.playerY == s.playerY + s.paddleSpeed)
      && (s.upPressed && s.downPressed && 0.0 < s.playerY < PaddleTravel + s.paddleSpeed ==> r.playerY == s.playerY)
      && (s.upPressed && s.downPressed && s.playerY <= 0.0 ==> r.playerY == s.playerY + s.paddleSpeed)
  {
  }

  /** The player paddle stays strictly within one step of the field. */
  lemma MovePaddlesKeepsBand(s: GameState)
    requires s.paddleSpeed > 0.0
    requires -s.paddleSpeed < s.playerY < PaddleTravel + s.paddleSpeed
    ensures var r := MovePaddles(s);
      -s.paddleSpeed < r.playerY < PaddleTravel + s.paddleSpeed
  {
  }

  /** The player paddle is not clamped: it can end below the field limit. */
  lemma PlayerPaddleOvershoots()
    ensures var s := SelectDifficulty(Initial, Medium).(playerY := 297.0, downPressed := true);
      MovePaddles(s).playerY == 303.0 && 303.0 > PaddleTravel
  {
  }

  /**
    Where the ball will be: its vertical position after the frames it needs
    to cover the horizontal distance to the computer side, at its current
    vertical speed, whichever way it is moving. Bounces are ignored.
   */
  function PredictedY(s: GameState): (p: real)
    requires s.ballDx != 0.0
    ensures s.ballDy == 0.0 || s.ballX == FieldWidth ==> p == s.ballY
  {
    s.ballY + (if s.ballDx > 0.0 then s.ballDy else -s.ballDy) * (FieldWidth - s.ballX) / s.ballDx
  }

  lemma PredictionTravelTime(s: GameState)
    requires s.ballDx != 0.0
    ensures PredictedY(s) == s.ballY + s.ballDy * ((FieldWidth - s.ballX) / Abs(s.ballDx))
  {
    var d := FieldWidth - s.ballX;
    if s.ballDx < 0.0 {
      assert (-s.ballDy) * d / s.ballDx == s.ballDy * (d / -s.ballDx);
    } else {
      assert s.ballDy * d / s.ballDx == s.ballDy * (d / s.ballDx);
    }
  }

  /** The prediction kept to [0, PaddleTravel]. */
  function ClampTarget(p: real): (c: real)
    ensures 0.0 <= c <= PaddleTravel
    ensures 0.0 <= p <= PaddleTravel ==> c == p
    ensures p < 0.0 ==> c == 0.0
    ensures p > PaddleTravel ==> c == PaddleTravel
  {
    Max(Min(p, FieldHeight - PaddleHeight), 0.0)
  }

  /**
    The point the computer paddle centre steers to. It is clamped to the
    range of the paddle's top edge, [0, 300], although the paddle centre is
    compared with it.
   */
  function AiTarget(s: GameState): (t: real)
    requires s.ballDx != 0.0
    ensures 0.0 <= t <= PaddleTravel
  {
    ClampTarget(PredictedY(s))
  }

  function PaddleCentre(paddleY: real): real {
    paddleY + PaddleHeight / 2.0
  }

  /** The computer paddle position after its move and before the bounds check. */
  function AiStep(s: GameState): (y: real)
    requires s.ballDx != 0.0
    ensures s.paddleSpeed >= 0.0 ==> Abs(y - s.computerY) <= AiSpeed(s.difficulty, s.paddleSpeed)
  {
    var aiSpeed := AiSpeed(s.difficulty, s.paddleSpeed);
    var target := AiTarget(s);
    if PaddleCentre(s.computerY) < target then s.computerY + aiSpeed
    else if PaddleCentre(s.computerY) > target then s.computerY - aiSpeed
    else s.computerY
  }

  /** The final bounds check of the computer paddle. */
  function KeepInField(y: real): (r: real)
    ensures 0.0 <= r <= PaddleTravel
    ensures 0.0 <= y <= PaddleTravel ==> r == y
    ensures y < 0.0 ==> r == 0.0
    ensures y > PaddleTravel ==> r == PaddleTravel
  {
    var y1 := if y < 0.0 then 0.0 else y;
    if y1 + PaddleHeight > FieldHeight then FieldHeight - PaddleHeight else y1
  }

  function MoveComputer(s: GameState): (r: GameState)
    requires s.ballDx != 0.0
    ensures 0.0 <= r.computerY <= PaddleTravel
    ensures r == s.(computerY := r.computerY)
  {
    s.(computerY := KeepInField(AiStep(s)))
  }

  /**
    Before the bounds check the computer paddle moved by exactly the AI speed
    towards the target (or stayed, when its centre is on the target).
   */
  lemma AiStepTowardTarget(s: GameState)
    requires s.ballDx != 0.0
    ensures var step := AiStep(s) - s.computerY;
      var gap := AiTarget(s) - PaddleCentre(s.computerY);
      var aiSpeed := AiSpeed(s.difficulty, s.paddleSpeed);
      && (gap > 0.0 ==> step == aiSpeed)
      && (gap < 0.0 ==> step == -aiSpeed)
      && (gap == 0.0 ==> step == 0.0)
    ensures MoveComputer(s).computerY == KeepInField(AiStep(s))
  {
  }

  /**
    Far from the target, a computer move never widens the gap between the
    paddle centre and the target, and closes it by the full AI speed unless
    the top of the field stops the paddle.
   */
  lemma AiApproachesTarget(s: GameState)
    requires s.ballDx != 0.0
    requires 0.0 <= s.computerY <= PaddleTravel
    requires 0.0 < AiSpeed(s.difficulty, s.paddleSpeed) <= Abs(AiTarget(s) - PaddleCentre(s.computerY))
    ensures var t := AiTarget(s);
      var aiSpeed := AiSpeed(s.difficulty, s.paddleSpeed);
      var before := Abs(t - PaddleCentre(s.computerY));
      var after := Abs(t - PaddleCentre(MoveComputer(s).computerY));
      && after <= before
      && (t > PaddleCentre(s.computerY) || s.computerY >= aiSpeed ==> after == before - aiSpeed)
  {
  }

  /** Once the paddle centre is within the AI speed of the target, it stays there. */
  lemma AiStaysNearTarget(s: GameState)
    requires s.ballDx != 0.0
    requires 0.0 <= s.computerY <= PaddleTravel
    requires Abs(AiTarget(s) - PaddleCentre(s.computerY)) < AiSpeed(s.difficulty, s.paddleSpeed)
    ensures Abs(AiTarget(s) - PaddleCentre(MoveComputer(s).computerY)) < AiSpeed(s.difficulty, s.paddleSpeed)
  {
  }

  /**
    The computer paddle moving alone for a number of frames while the ball
    stands still, so that its target stays fixed.
   */
  function Track(s: GameState, frames: nat): (r: GameState)
    requires s.ballDx != 0.0
    ensures r == s.(computerY := r.computerY)
    ensures 0.0 <= s.computerY <= PaddleTravel ==> 0.0 <= r.computerY <= PaddleTravel
    decreases frames
  {
    if frames == 0 then s else Track(MoveComputer(s), frames - 1)
  }

  /** The target depends on the ball only. */
  lemma TargetIgnoresComputerY(s: GameState, y: real)
    requires s.ballDx != 0.0
    ensures AiTarget(s.(computerY := y)) == AiTarget(s)
  {
    assert PredictedY(s.(computerY := y)) == PredictedY(s);
  }

  /** The computer paddle pressed against the top of the field with its target above its centre. */
  predicate StuckAtTop(s: GameState)
    requires s.ballDx != 0.0
  {
    s.computerY == 0.0 && AiTarget(s) < PaddleCentre(0.0)
  }

  lemma {:induction false} StaysStuckAtTop(s: GameState, frames: nat)
    requires s.ballDx != 0.0
    requires AiSpeed(s.difficulty, s.paddleSpeed) > 0.0
    requires StuckAtTop(s)
    ensures StuckAtTop(Track(s, frames))
    decreases frames
  {
    if frames > 0 {
      var s' := MoveComputer(s);
      TargetIgnoresComputerY(s, s'.computerY);
      StaysStuckAtTop(s', frames - 1);
    }
  }

  /** The distance from the computer paddle centre to its target. */
  function AiGap(s: GameState): real
    requires s.ballDx != 0.0
  {
    Abs(AiTarget(s) - PaddleCentre(s.computerY))
  }

  /**
    One computer move: within one AI step of the target it stays within
    one; farther away it closes the gap by a full AI step or ends pressed
    against the top.
   */
  lemma AiProgress(s: GameState)
    requires s.ballDx != 0.0
    requires 0.0 <= s.computerY <= PaddleTravel
    requires AiSpeed(s.difficulty, s.paddleSpeed) > 0.0
    ensures var r := MoveComputer(s);
      var aiSpeed := AiSpeed(s.difficulty, s.paddleSpeed);
      && r.ballDx != 0.0
      && AiTarget(r) == AiTarget(s)
      && (AiGap(s) < aiSpeed ==> AiGap(r) < aiSpeed)
      && (AiGap(s) >= aiSpeed ==> AiGap(r) == AiGap(s) - aiSpeed || StuckAtTop(r))
  {
    var r := MoveComputer(s);
    TargetIgnoresComputerY(s, r.computerY);
    if AiGap(s) < AiSpeed(s.difficulty, s.paddleSpeed) {
      AiStaysNearTarget(s);
    } else {
      AiApproachesTarget(s);
    }
  }

  /** The distance covered by frames + 1 AI steps, (frames + 1) * aiSpeed. */
  function Reach(frames: nat, aiSpeed: real): (r: real)
    requires aiSpeed > 0.0
    ensures r >= aiSpeed
    decreases frames
  {
    if frames == 0 then aiSpeed else Reach(frames - 1, aiSpeed) + aiSpeed
  }

  lemma {:induction false} ReachIsMultiple(frames: nat, aiSpeed: real)
    requires aiSpeed > 0.0
    ensures Reach(frames, aiSpeed) == (frames as real + 1.0) * aiSpeed
    decreases frames
  {
    if frames > 0 {
      ReachIsMultiple(frames - 1, aiSpeed);
      var n := (frames - 1) as real;
      assert frames as real + 1.0 == (n + 1.0) + 1.0;
      assert ((n + 1.0) + 1.0) * aiSpeed == (n + 1.0) * aiSpeed + aiSpeed;
    }
  }

  /**
    With a fixed target, a computer paddle that starts inside the field and
    less than (frames + 1) AI steps from the target ends, after that many
    frames, within one AI step of the target, or pressed against the top of
    the field with the target above its centre.
   */
  lemma {:induction false} AiConverges(s: GameState, frames: nat)
    requires s.ballDx != 0.0
    requires 0.0 <= s.computerY <= PaddleTravel
    requires AiSpeed(s.difficulty, s.paddleSpeed) > 0.0
    requires AiGap(s) < Reach(frames, AiSpeed(s.difficulty, s.paddleSpeed))
    ensures var r := Track(s, frames);
      r.ballDx != 0.0 && (AiGap(r) < AiSpeed(s.difficulty, s.paddleSpeed) || StuckAtTop(r))
    decreases frames
  {
    if frames > 0 {
      var aiSpeed := AiSpeed(s.difficulty, s.paddleSpeed);
      var s' := MoveComputer(s);
      AiProgress(s);
      assert Track(s, frames) == Track(s', frames - 1);
      assert AiSpeed(s'.difficulty, s'.paddleSpeed) == aiSpeed;
      if StuckAtTop(s') {
        StaysStuckAtTop(s', frames - 1);
      } else {
        AiConverges(s', frames - 1);
      }
    }
  }

  // ---------------------------------------------------------------- keyboard

  /** A key press sets at most one flag and never clears one. */
  function KeyDown(s: GameState, key: string): (r: GameState)
    ensures r == s.(upPressed := r.upPressed, downPressed := r.downPressed)
    ensures s.upPressed ==> r.upPressed
    ensures s.downPressed ==> r.downPressed
    ensures r.upPressed == s.upPressed || r.downPressed == s.downPressed
  {
    if key == "ArrowUp" then s.(upPressed := true)
    else if key == "ArrowDown" then s.(downPressed := true)
    else s
  }

  /** A key release clears at most one flag and never sets one. */
  function KeyUp(s: GameState, key: string): (r: GameState)
    ensures r == s.(upPressed := r.upPressed, downPressed := r.downPressed)
    ensures r.upPressed ==> s.upPressed
    ensures r.downPressed ==> s.downPressed
    ensures r.upPressed == s.upPressed || r.downPressed == s.downPressed
  {
    if key == "ArrowUp" then s.(upPressed := false)
    else if key == "ArrowDown" then s.(downPressed := false)
    else s
  }

  /** Key events change only the flag of their own arrow key; other keys change nothing. */
  lemma KeyEvents(s: GameState, key: string)
    ensures var r := KeyDown(s, key);
      && r.upPressed == (s.upPressed || key == "ArrowUp")
      && r.downPressed == (s.downPressed || key == "ArrowDown")
      && r.(upPressed := s.upPressed, downPressed := s.downPressed) == s
    ensures var r := KeyUp(s, key);
      && r.upPressed == (s.upPressed && key != "ArrowUp")
      && r.downPressed == (s.downPressed && key != "ArrowDown")
      && r.(upPressed := s.upPressed, downPressed := s.downPressed) == s
  {
  }

  // ---------------------------------------------------------------- frames

  /** One frame without drawing: ball, player paddle, computer paddle. */
  function Update(s: GameState): (r: GameState)
    requires Playing(s)
    ensures Playing(r)
    ensures r.difficulty == s.difficulty && r.paddleSpeed == s.paddleSpeed
    ensures s.playerScore <= r.playerScore && s.computerScore <= r.computerScore
    ensures r.playerScore + r.computerScore <= s.playerScore + s.computerScore + 1
  {
    MoveBallKeepsPlaying(s);
    MoveComputer(MovePaddles(MoveBall(s)))
  }

  lemma UpdateKeepsRunning(s: GameState)
    requires Running(s)
    ensures var r := Update(s);
      && Running(r)
      && r.difficulty == s.difficulty && r.paddleSpeed == s.paddleSpeed
      && s.playerScore <= r.playerScore <= s.playerScore + 1
      && s.computerScore <= r.computerScore <= s.computerScore + 1
      && r.playerScore + r.computerScore <= s.playerScore + s.computerScore + 1
  {
    MoveBallKeepsPlaying(s);
    MoveBallScoring(s);
    var b := MoveBall(s);
    MovePaddlesKeepsBand(b);
  }

  /**
    A difficulty button: select the difficulty, then start the game, which
    runs the first frame of the loop at once, before the next frame is
    requested.
   */
  function Click(s: GameState, d: Difficulty): (r: GameState)
    ensures r.difficulty == d && r.paddleSpeed == BaseSpeed(d) && Playing(r)
    ensures s.playerScore <= r.playerScore && s.computerScore <= r.computerScore
  {
    Update(SelectDifficulty(s, d))
  }

  /**
    The first click after loading has already moved the ball one step from
    (150, 75) when the handler returns; that frame is the first frame of the
    loop, and the game is `Running` afterwards.
   */
  lemma FirstClickRunsFirstFrame(d: Difficulty)
    ensures var r := Click(Initial, d);
      && r == Run(SelectDifficulty(Initial, d), 1)
      && r.ballX == 150.0 + BaseSpeed(d) && r.ballY == 75.0 + BaseSpeed(d)
      && r.ballDx == BaseSpeed(d) && r.ballDy == BaseSpeed(d)
      && r.playerY == 25.0
      && Running(r)
  {
    var s := SelectDifficulty(Initial, d);
    StartFromInitial(d);
    UpdateKeepsRunning(s);
    assert Run(s, 1) == Run(Update(s), 0);
    var a := Advance(s);
    assert a.ballX == 150.0 + BaseSpeed(d) && a.ballY == 75.0 + BaseSpeed(d);
    assert MoveBall(s) == a;
  }

  /** The frame loop, run for a bounded number of frames. */
  function Run(s: GameState, frames: nat): (r: GameState)
    requires Running(s)
    ensures r.difficulty == s.difficulty && r.paddleSpeed == s.paddleSpeed
    ensures s.playerScore <= r.playerScore && s.computerScore <= r.computerScore
    decreases frames
  {
    if frames == 0 then s
    else
      UpdateKeepsRunning(s);
      Run(Update(s), frames - 1)
  }

  /**
    Over any number of frames the game stays `Running` (both paddles in
    their ranges, ball velocity bounded by the ball speed), scores never go
    down, and at most one point is scored per frame.
   */
  lemma {:induction false} RunKeepsRunning(s: GameState, frames: nat)
    requires Running(s)
    ensures var r := Run(s, frames);
      && Running(r)
      && r.difficulty == s.difficulty
      && s.playerScore <= r.playerScore && s.computerScore <= r.computerScore
      && r.playerScore + r.computerScore <= s.playerScore + s.computerScore + frames
    decreases frames
  {
    if frames > 0 {
      UpdateKeepsRunning(s);
      RunKeepsRunning(Update(s), frames - 1);
    }
  }
}
