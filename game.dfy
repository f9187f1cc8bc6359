/**
  The game script's module-level variables as one object, and its
  simulation functions as methods that update them in place. Each method is
  proved to leave the object in the state given by the matching function of
  `Simulation`, whose properties are proved there.
 */
module Pong {
  import opened Simulation

  class Game {
    var ballX: real
    var ballY: real
    var ballDx: real
    var ballDy: real
    var playerY: real
    var computerY: real
    var playerScore: nat
    var computerScore: nat
    var upPressed: bool
    var downPressed: bool
    var difficulty: Difficulty
    var paddleSpeed: real
    var ballSpeed: real

    /** The variables as a value. */
    function State(): GameState
      reads this
    {
      GameState(ballX, ballY, ballDx, ballDy, playerY, computerY,
                playerScore, computerScore, upPressed, downPressed,
                difficulty, paddleSpeed, ballSpeed)
    }

    /** The variables as the script initialises them on load. */
    constructor ()
      ensures State() == Simulation.Initial
    {
      ballX := DefaultCanvasWidth / 2.0;
      ballY := DefaultCanvasHeight / 2.0;
      ballDx, ballDy := 0.0, 0.0;
      paddleSpeed, ballSpeed := 0.0, 0.0;
      playerY := DefaultCanvasHeight / 2.0 - PaddleHeight / 2.0;
      computerY := DefaultCanvasHeight / 2.0 - PaddleHeight / 2.0;
      playerScore, computerScore := 0, 0;
      upPressed, downPressed := false, false;
      difficulty := Medium;
    }

    method SetDifficultyParams()
      modifies this`paddleSpeed, this`ballSpeed, this`ballDx, this`ballDy
      ensures State() == Simulation.SetDifficultyParams(old(State()))
      ensures Playing(State())
    {
      match difficulty {
        case Easy =>
          paddleSpeed := 4.0;
          ballSpeed := 4.0;
        case Medium =>
          paddleSpeed := 6.0;
          ballSpeed := 6.0;
        case Hard =>
          paddleSpeed := 8.0;
          ballSpeed := 8.0;
      }
      ballDx := ballSpeed;
      ballDy := ballSpeed;
    }

    /** The first two statements of a difficulty button: record the difficulty and derive the speeds. */
    method SelectDifficulty(d: Difficulty)
      modifies this`difficulty, this`paddleSpeed, this`ballSpeed, this`ballDx, this`ballDy
      ensures State() == Simulation.SelectDifficulty(old(State()), d)
      ensures Playing(State())
    {
      difficulty := d;
      SetDifficultyParams();
    }

    /** A difficulty button: select the difficulty, then run the first frame. */
    method Click(d: Difficulty)
      modifies this
      ensures State() == Simulation.Click(old(State()), d)
    {
      SelectDifficulty(d);
      Update();
    }

    method ResetBall()
      modifies this`ballX, this`ballY, this`ballDx, this`ballDy
      ensures State() == Simulation.ResetBall(old(State()))
      ensures BallReset(State())
    {
      ballX := FieldWidth / 2.0;
      ballY := FieldHeight / 2.0;
      ballDx := ballSpeed;
      ballDy := ballSpeed;
    }

    /**
      The ball's frame: advance, then the wall test, the two paddle tests
      and the two scoring tests, in the script's order.
     */
    method MoveBall()
      modifies this`ballX, this`ballY, this`ballDx, this`ballDy, this`playerScore, this`computerScore
      ensures State() == Simulation.MoveBall(old(State()))
    {
      ghost var s0 := State();
      ballX := ballX + ballDx;
      ballY := ballY + ballDy;
      assert State() == Advance(s0);
      BounceOffWalls();
      BounceOffPaddles();
      Score();
    }

    method BounceOffWalls()
      modifies this`ballDy
      ensures State() == WallBounce(old(State()))
    {
      if ballY - BallRadius <= 0.0 || ballY + BallRadius >= FieldHeight {
        ballDy := -ballDy;
      }
    }

    method BounceOffPaddles()
      modifies this`ballDx, this`ballDy
      ensures State() == ComputerPaddle(PlayerPaddle(old(State())))
    {
      ghost var s0 := State();
      if ballX - BallRadius <= PaddleWidth && ballY >= playerY && ballY <= playerY + PaddleHeight {
        ballDx := -ballDx;
        var relativeY := ballY - (playerY + PaddleHeight / 2.0);
        var normalizedRelativeY := relativeY / (PaddleHeight / 2.0);
        ballDy := normalizedRelativeY * ballSpeed;
      }
      assert State() == PlayerPaddle(s0);

      if ballX + BallRadius >= FieldWidth - PaddleWidth && ballY >= computerY && ballY <= computerY + PaddleHeight {
        ballDx := -ballDx;
        var relativeY := ballY - (computerY + PaddleHeight / 2.0);
        var normalizedRelativeY := relativeY / (PaddleHeight / 2.0);
        ballDy := normalizedRelativeY * ballSpeed;
      }
    }

    method Score()
      modifies this`ballX, this`ballY, this`ballDx, this`ballDy, this`playerScore, this`computerScore
      ensures State() == AwardPoints(old(State()))
    {
      ghost var s0 := State();
      if ballX - BallRadius <= 0.0 {
        computerScore := computerScore + 1;
        ResetBall();
      }
      ghost var s1 := State();
      assert s1 == if ComputerScores(s0) then Simulation.ResetBall(s0.(computerScore := s0.computerScore + 1)) else s0;
      if ballX + BallRadius >= FieldWidth {
        playerScore := playerScore + 1;
        ResetBall();
      }
    }

    method MovePaddles()
      modifies this`playerY
      ensures State() == Simulation.MovePaddles(old(State()))
    {
      if upPressed && playerY > 0.0 {
        playerY := playerY - paddleSpeed;
      }
      if downPressed && playerY < FieldHeight - PaddleHeight {
        playerY := playerY + paddleSpeed;
      }
    }

    /** Where the computer paddle steers: the prediction, clamped to [0, 300]. */
    method PredictTarget() returns (predictedYClamped: real)
      requires ballDx != 0.0
      ensures predictedYClamped == AiTarget(State())
    {
      var predictedY := ballY + (if ballDx > 0.0 then ballDy else -ballDy) * (FieldWidth - ballX) / ballDx;
      predictedYClamped := Max(Min(predictedY, FieldHeight - PaddleHeight), 0.0);
      assert predictedY == PredictedY(State());
    }

    method MoveComputer()
      requires ballDx != 0.0
      modifies this`computerY
      ensures State() == Simulation.MoveComputer(old(State()))
      ensures 0.0 <= computerY <= PaddleTravel
    {
      ghost var s0 := State();
      var aiSpeed;
      match difficulty {
        case Easy => aiSpeed := paddleSpeed * 0.8;
        case Medium => aiSpeed := paddleSpeed;
        case Hard => aiSpeed := paddleSpeed * 1.5;
      }
      assert aiSpeed == AiSpeed(difficulty, paddleSpeed);

      var predictedYClamped := PredictTarget();

      if computerY + PaddleHeight / 2.0 < predictedYClamped {
        computerY := computerY + aiSpeed;
      } else if computerY + PaddleHeight / 2.0 > predictedYClamped {
        computerY := computerY - aiSpeed;
      }
      assert computerY == AiStep(s0);

      if computerY < 0.0 {
        computerY := 0.0;
      }
      if computerY + PaddleHeight > FieldHeight {
        computerY := FieldHeight - PaddleHeight;
      }
      assert computerY == KeepInField(AiStep(s0));
    }

    method KeyDown(key: string)
      modifies this`upPressed, this`downPressed
      ensures State() == Simulation.KeyDown(old(State()), key)
    {
      if key == "ArrowUp" {
        upPressed := true;
      } else if key == "ArrowDown" {
        downPressed := true;
      }
    }

    method KeyUp(key: string)
      modifies this`upPressed, this`downPressed
      ensures State() == Simulation.KeyUp(old(State()), key)
    {
      if key == "ArrowUp" {
        upPressed := false;
      } else if key == "ArrowDown" {
        downPressed := false;
      }
    }

    /** One frame, drawing left out. The game must be in play (a difficulty chosen). */
    method Update()
      requires Playing(State())
      modifies this
      ensures State() == Simulation.Update(old(State()))
      ensures old(Running(State())) ==> Running(State())
    {
      ghost var s0 := State();
      MoveBallKeepsPlaying(s0);
      MoveBall();
      MovePaddles();
      MoveComputer();
      if Running(s0) {
        UpdateKeepsRunning(s0);
      }
    }
  }
}
