# Pong game simulation in Dafny

A model of the per-frame simulation of a browser pong game (`script.js`): one
human paddle on the left driven by the arrow keys, one computer paddle on the
right that steers towards a predicted interception point, a ball that bounces
off the top and bottom walls and off the paddles, and a score for each side.
The field is 800 x 400, the ball radius 10, each paddle 10 x 100.

Two modules:

- `Simulation` (simulation.dfy) holds the script's module-level variables as a
  value, `GameState`, and each simulation function of the script as a function
  from the state before the call to the state after it: `SetDifficultyParams`,
  `ResetBall`, `MoveBall` (built from its stages `Advance`, `WallBounce`,
  `PlayerPaddle`, `ComputerPaddle`, `AwardPoints`), `MovePaddles`,
  `MoveComputer` (through `PredictedY`, `ClampTarget`, `AiStep`,
  `KeepInField`), the key handlers `KeyDown`/`KeyUp`, one frame `Update`, and
  `Run`, a bounded number of frames. The lemmas beside them state what the
  script promises: the speed table, the reset state, the reflection rules,
  the paddle angle, the scoring rules, the paddle bounds, and the invariants
  `Playing` (`paddleSpeed == ballSpeed` from the difficulty, `|ballDx| ==
  ballSpeed`, `|ballDy| <= ballSpeed`) and `Running` (`Playing`, the player
  paddle strictly within one step of `[0, 300]`, the computer paddle in
  `[0, 300]`).
- `Pong` (game.dfy) holds class `Game`, whose fields are those variables and
  whose methods update them in place in the script's order (the three blocks
  of the script's `moveBall` after the advance are the methods
  `BounceOffWalls`, `BounceOffPaddles` and `Score`, and the prediction in
  the script's `moveComputer` is the method `PredictTarget`). Each method's
  postcondition says that the new state `State()` is the matching
  `Simulation` function of the old one, so every lemma about the functions
  applies to the object.

Details reproduced as the script has them:

- The initial positions are computed before the script resizes the canvas to
  800 x 400. The model assumes that the page's canvas element has no width or
  height attributes, so these positions come from the browser's default 300 x
  150 canvas: the ball starts at (150, 75) and both paddles at 25. The page
  markup is not part of this model. `setDifficultyParams` writes only the
  speeds and the velocity and does not move the ball (`StartFromInitial`),
  but the same click then starts the game, which runs the first frame of the
  loop at once: when the handler returns the ball has already moved one step,
  to (156, 81) at medium (`Click`, `FirstClickRunsFirstFrame`).
- The player paddle is never clamped: each direction tests the position
  before its own step, so the paddle can overshoot `[0, 300]` by less than one
  step (`PlayerPaddleOvershoots`, `MovePaddlesKeepsBand`).
- The paddle tests do not look at the direction of travel, so a ball leaving a
  paddle can be turned back (`PaddleHitIgnoresDirection`).
- The wall test only reverses `ballDy`; `ballY` is never clamped, and a
  paddle hit in the same frame replaces the reflected `ballDy`.
- The scoring tests run in order, and one frame scores at most one point
  because the two tests cannot both hold for one `ballX`: the left one needs
  `ballX <= 10`, the right one `ballX >= 790`.
- The computer's prediction is clamped to `[0, 300]`, the range of the paddle's
  top edge, but it is compared with the paddle's centre; a computer paddle at
  rest on its target therefore never centres below 300.
- A key event changes only its own arrow's flag, and both flags may be set at
  once. Then, when `0 < playerY < 300 + paddleSpeed` (inside the band
  that `Running` keeps), the paddle steps up and straight back down;
  at or above the top edge (`playerY <= 0`) the up test fails and both keys
  give a single step down (`MovePaddlesDirection`).

## Model

| member | source | states |
|---|---|---|
| `Pong.Game.constructor` | script.js:11-25 | the load-time state: ball at (150, 75) from the default canvas (assuming the page sets no canvas size), both paddles at 25, scores 0, no key pressed, difficulty medium |
| `Simulation.StartFromInitial` | script.js:11-45 | choosing any difficulty on the load-time state gives a `Running` state with the ball still at (150, 75), paddles at 25, velocity (speed, speed), scores 0 |
| `Simulation.BaseSpeed` | script.js:31-41 | the speed a difficulty selects lies between 4 and 8; the exact table is in `SpeedTable` |
| `Simulation.AiSpeed` | script.js:86-93 | a positive paddle speed gives a positive computer paddle speed; the multipliers are in `AiSpeedTable` |
| `Simulation.SpeedTable` | script.js:31-41 | paddle and ball speed are 4, 6 and 8 for easy, medium and hard |
| `Simulation.AiSpeedTable` | script.js:86-93 | the computer paddle speed is 0.8, 1.0 and 1.5 times the paddle speed for easy, medium and hard |
| `Simulation.SetDifficultyParamsEffect` | script.js:31-45 | `paddleSpeed == ballSpeed` is the speed of the current difficulty, `ballDx == ballDy == ballSpeed`, the invariant `Playing` holds, and every other variable is unchanged |
| `Simulation.SetDifficultyParams` | script.js:31-45 | the result satisfies `Playing`, the ball is launched down and to the right, and only the speeds and the velocity change; the speed values are in `SetDifficultyParamsEffect` |
| `Pong.Game.SetDifficultyParams` | script.js:31-45 | the object's new state is `Simulation.SetDifficultyParams` of the old one and satisfies `Playing`; only the speeds and the velocity are written |
| `Simulation.SelectDifficulty` | script.js:193-207 | the first two statements of a difficulty button: the difficulty is the chosen one, the paddle speed is its table speed, `Playing` holds, and only the difficulty, the speeds and the velocity change |
| `Pong.Game.SelectDifficulty` | script.js:194-195 | the first two statements of a difficulty button: the difficulty is recorded, then the speeds are derived; the result satisfies `Playing` |
| `Simulation.Click` | script.js:193-219 | a difficulty button runs the first frame at once: the result has the chosen difficulty and its speed, satisfies `Playing`, and no score is lower |
| `Simulation.FirstClickRunsFirstFrame` | script.js:193-219 | the first click after loading equals one frame of `Run` from the selected state; the ball is at (150 + speed, 75 + speed) with velocity (speed, speed), the player paddle at 25, and the game `Running` |
| `Pong.Game.Click` | script.js:193-207 | the new state is `Simulation.Click` of the old one: `SelectDifficulty`, then `Update` |
| `Simulation.ResetBall` | script.js:152-157 | the ball is at (400, 200) with velocity (ballSpeed, ballSpeed) and only the ball's four variables change |
| `Simulation.ResetBallEffect` | script.js:152-157 | after a reset the ball is at (400, 200) with velocity (ballSpeed, ballSpeed), nothing else changes, and `Playing` is kept |
| `Pong.Game.ResetBall` | script.js:152-157 | the new state is `Simulation.ResetBall` of the old one; only the ball's four variables are written |
| `Simulation.Advance` | script.js:115-116 | the ball moves by exactly its velocity and nothing else changes |
| `Simulation.WallBounce` | script.js:118-121 | only `ballDy` can change; a wall touch negates it and no touch changes nothing |
| `Simulation.PlayerPaddle` | script.js:124-130 | only the velocity can change; a hit reverses `ballDx` keeping its magnitude and sets `ballDy` to the paddle angle, no hit changes nothing; the angle's bound is in `PaddleAngleBounded` |
| `Simulation.ComputerPaddle` | script.js:132-138 | the same rule for the computer paddle on the right edge |
| `Simulation.AwardPoints` | script.js:140-148 | scores never decrease and rise by at most one in total; a point resets the ball, no point changes nothing, and only the ball and the scores can change |
| `Simulation.MoveBall` | script.js:114-149 | only the ball and the scores change, scores never decrease, and at most one point is scored; the full rules are in `MoveBallScoring` and `MoveBallKeepsPlaying` |
| `Simulation.WallReflection` | script.js:115-121 | in a frame with no paddle hit and no point, the ball moves by its velocity without clamping, `ballDx` is unchanged and `ballDy` is negated exactly when the moved ball touches the top or bottom wall |
| `Simulation.PaddleAngle` | script.js:126-129 | the definition of the new `ballDy` after a paddle hit; its properties are in `PaddleAngleLandmarks` and `PaddleAngleBounded` |
| `Simulation.PaddleAngleLandmarks` | script.js:127-129 | a hit at the paddle centre gives `dy = 0`, at its top edge `-ballSpeed`, at its bottom edge `+ballSpeed` |
| `Simulation.PaddleAngleBounded` | script.js:124-129 | anywhere within the paddle span the new `dy` lies in `[-ballSpeed, ballSpeed]` |
| `Simulation.PlayerPaddleHit` | script.js:124-130 | a player-paddle hit that does not score negates `ballDx` and sets `ballDy` to the paddle angle, overriding the wall test; the position is the advanced one |
| `Simulation.ComputerPaddleHit` | script.js:132-138 | the same for the computer paddle on the right edge |
| `Simulation.PaddleHitIgnoresDirection` | script.js:124-130 | a ball already moving right, away from the player paddle, that is still within the paddle's depth is turned back to the left |
| `Simulation.MoveBallScoring` | script.js:141-157 | one ball move leaves both scores or raises exactly one by exactly one; the computer scores exactly when the moved ball's left edge reaches x = 0 and the player exactly when its right edge reaches x = 800; a raised score comes with the ball reset to (400, 200) and velocity (ballSpeed, ballSpeed); otherwise the ball is at its advanced position |
| `Simulation.MoveBallKeepsPlaying` | script.js:114-157 | from a `Playing` state the ball move keeps `|ballDx| == ballSpeed` and `|ballDy| <= ballSpeed` and changes only the ball and the scores |
| `Pong.Game.MoveBall` | script.js:114-149 | the new state is `Simulation.MoveBall` of the old one: advance, wall test, two paddle tests, two scoring tests, in that order |
| `Pong.Game.BounceOffWalls` | script.js:118-121 | the new state is `Simulation.WallBounce` of the old one; only `ballDy` is written |
| `Pong.Game.BounceOffPaddles` | script.js:123-138 | the new state is the player-paddle rule followed by the computer-paddle rule; only the velocity is written |
| `Pong.Game.Score` | script.js:140-148 | the new state is `Simulation.AwardPoints` of the old one: the two scoring tests in order, each followed by a reset |
| `Simulation.MovePaddles` | script.js:75-82 | only `playerY` changes, and by `-paddleSpeed`, `0` or `+paddleSpeed` |
| `Simulation.MovePaddlesDirection` | script.js:75-82 | the paddle moves up only when the up key is held and `playerY > 0`, down only when the down key is held and `playerY < 300`; with no key held it stays; with one key held it moves by exactly one step in that direction |
| `Simulation.MovePaddlesKeepsBand` | script.js:75-82 | `-paddleSpeed < playerY < 300 + paddleSpeed` is preserved |
| `Simulation.PlayerPaddleOvershoots` | script.js:79-81 | at medium speed a paddle at 297 moving down ends at 303, below the field limit 300 |
| `Pong.Game.MovePaddles` | script.js:75-82 | the new state is `Simulation.MovePaddles` of the old one; only `playerY` is written |
| `Simulation.PredictedY` | script.js:96 | a ball with no vertical speed, or already at x = 800, is predicted at its current height; the general form is in `PredictionTravelTime` |
| `Simulation.PredictionTravelTime` | script.js:96 | the prediction is the ball's vertical position after the frames needed to cover the horizontal distance to x = 800 at its current horizontal speed, whichever way it is moving |
| `Simulation.ClampTarget` | script.js:99 | the clamped prediction lies in `[0, 300]`, equals the prediction inside that range and the nearer bound outside it |
| `Simulation.AiTarget` | script.js:96-99 | the computer's target lies in `[0, 300]`; how it follows the prediction is in `ClampTarget` |
| `Simulation.AiStep` | script.js:101-106 | before the bounds check the computer paddle moves by at most the AI speed; the direction is in `AiStepTowardTarget` |
| `Simulation.KeepInField` | script.js:108-110 | the final bounds check puts the computer paddle in `[0, 300]` and leaves an in-range position alone |
| `Simulation.MoveComputer` | script.js:85-111 | after the computer move `0 <= computerY <= 300`, and only `computerY` changed |
| `Simulation.AiStepTowardTarget` | script.js:101-106 | before the bounds check the computer paddle moved by exactly the AI speed towards the clamped prediction, or stayed when its centre is on it; the final position is that move put through the bounds check |
| `Simulation.AiApproachesTarget` | script.js:101-110 | when the centre is at least the AI speed away from the target, a move never widens the gap, and it closes it by exactly the AI speed unless the top of the field stops the paddle |
| `Simulation.AiStaysNearTarget` | script.js:101-110 | once the centre is within the AI speed of the target it stays within it |
| `Simulation.TargetIgnoresComputerY` | script.js:96-99 | the clamped prediction depends on the ball only, not on the computer paddle's position |
| `Simulation.Track` | script.js:101-110 | repeated computer moves with the ball standing still change only `computerY` and keep it in `[0, 300]` |
| `Simulation.AiProgress` | script.js:101-110 | one computer move keeps the target; within one AI step of it the paddle centre stays within one; farther away the gap shrinks by exactly one AI step or the paddle ends pressed against the top with the target above its centre |
| `Simulation.StaysStuckAtTop` | script.js:101-110 | a computer paddle at the top whose target lies above its centre stays there for any number of moves |
| `Simulation.ReachIsMultiple` | script.js:101-106 | `Reach(frames, aiSpeed)`, the distance `frames + 1` computer moves cover, equals `(frames + 1) * aiSpeed` |
| `Simulation.AiConverges` | script.js:101-110 | with the ball standing still, a computer paddle less than `frames + 1` AI steps from its target is, after `frames` moves, within one AI step of the target or pressed against the top with the target above its centre |
| `Pong.Game.PredictTarget` | script.js:96-99 | the prediction and its clamp, computed as the script writes them, equal `Simulation.AiTarget` of the state |
| `Pong.Game.MoveComputer` | script.js:85-111 | the new state is `Simulation.MoveComputer` of the old one, `computerY` is in `[0, 300]`, only `computerY` is written |
| `Simulation.KeyEvents` | script.js:176-190 | key-down of "ArrowUp"/"ArrowDown" sets exactly that flag, key-up clears exactly that flag, any other key and every other variable are left unchanged |
| `Simulation.KeyDown` | script.js:176-182 | a key press changes only the two flags, never clears one and sets at most one |
| `Simulation.KeyUp` | script.js:184-190 | a key release changes only the two flags, never sets one and clears at most one |
| `Pong.Game.KeyDown` | script.js:176-182 | the new state is `Simulation.KeyDown` of the old one; only the flags are written |
| `Pong.Game.KeyUp` | script.js:184-190 | the new state is `Simulation.KeyUp` of the old one; only the flags are written |
| `Simulation.Update` | script.js:160-165 | one frame from a `Playing` state keeps `Playing`, the difficulty and the speed, never lowers a score and scores at most one point |
| `Simulation.UpdateKeepsRunning` | script.js:160-165 | one frame keeps `Running`, the difficulty and the speeds, never lowers a score and raises the total by at most one |
| `Pong.Game.Update` | script.js:160-165 | one frame (ball, player paddle, computer paddle) gives `Simulation.Update` of the old state and keeps `Running` |
| `Simulation.Run` | script.js:216-219 | a bounded run of frames keeps the difficulty and the speed and never lowers a score |
| `Simulation.RunKeepsRunning` | script.js:216-219 | over any number of frames the game stays `Running`, scores never decrease, and the total score grows by at most the number of frames |

## Left out

- Drawing (`draw`, `drawBall`, `drawPaddles`, `drawScore` and every canvas call): rendering through a browser API, with no effect on the simulated state.
- DOM wiring: looking up the canvas and buttons, the click listeners' registration, and `startGame` hiding the difficulty buttons. What a click does to the state is `Pong.Game.Click`: `SelectDifficulty`, then the first frame.
- `gameLoop` and `requestAnimationFrame`: the host schedules the frames, and each click starts another loop. The model has one frame (`Update`) and a bounded run of frames (`Run`); key events between frames are separate calls (`KeyDown`, `KeyUp`) that `Run` does not interleave, so within `Run` the key flags stay fixed.
- IEEE-754 doubles: coordinates and speeds are exact reals, so the rounding of the 0.8 and 1.5 multipliers and of the prediction's division is not modelled.
- AI convergence is shown for a ball standing still (`Simulation.Track`); during play the ball, and with it the target, moves every frame.
- `undefined`: before the first difficulty click the script's speeds and ball velocity are undefined; the model stands 0.0 in for them, and the simulation steps are specified only once a difficulty is chosen.
- Pong.Game.MoveComputer: requires `ballDx != 0`, because the script would divide by an undefined or zero velocity; after a difficulty is chosen `|ballDx|` is the ball speed, never zero. `Simulation.MoveComputer` and the AI lemmas carry the same requirement.
- Pong.Game.Update: requires `Playing` (a difficulty has been chosen), because the script's loop only starts from a difficulty click.
- The difficulty is an enumeration rather than a string; the script only ever assigns 'easy', 'medium' or 'hard', so its fall-through case (no branch taken) cannot occur.
- Scores are unbounded naturals; JavaScript numbers lose integer precision only beyond 2^53 points.
