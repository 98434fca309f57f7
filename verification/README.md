# Ping-pong game logic in Dafny

A model of the game logic of a two-paddle Pong clone written in Python with
pygame. The repository holds two diverging copies of the game, and each is
modelled as its own component:

- the **enhanced edition** (`THO/game/`):
  - its ball: wall bounce with clamping, a debounced and direction-gated paddle bounce with spin, and a serve;
  - its paddle: a clamped move and a look-ahead AI with a dead zone and random jitter;
  - its match state machine: scoring, the win check, match-length selection and restart;
- the **prototype** (`game/`):
  - its ball: an unclamped wall bounce, the paddle check that is in force, and a serve that reverses direction;
  - its paddle: a clamped move and a clock-gated AI.

Everything is immutable datatypes and pure functions. Three things are
parameters:

- the millisecond clock (`pygame.time.get_ticks`): `now` and `ticks`;
- the key snapshot (`pygame.key.get_pressed`): `Keys`;
- each random draw:
  - `random.choice` of a two-element list becomes a `Pick`;
  - `random.random()` becomes a real `roll`.

Modules, one per source file plus two shared helpers:

| module | file | models |
|---|---|---|
| `Geometry` | geometry.dfy | `pygame.Rect` boxes, `colliderect`, real-to-int truncation, the paddle clamp |
| `Chance` | chance.dfy | `random.choice` of two values |
| `EnhancedBall` | enhanced_ball.dfy | `THO/game/ball.py` |
| `EnhancedPaddle` | enhanced_paddle.dfy | `THO/game/paddle.py` |
| `MatchEngine` | match_engine.dfy | `THO/game/game_engine.py` (logic only) |
| `MatchInvariant` | match_invariant.dfy | the match invariant and what it implies over many frames |
| `PrototypeBall` | prototype_ball.dfy | `game/ball.py` |
| `PrototypePaddle` | prototype_paddle.dfy | `game/paddle.py` |

Modelling assumptions:

- In the enhanced ball, spin makes `velocity_y` fractional, so ball positions and velocities are `real`.
- `pygame.Rect` is assumed to truncate a real coordinate toward zero (`Geometry.Truncate`).
- `colliderect` is the strict overlap of two boxes: boxes that only share an edge do not collide.
- Python's float arithmetic (`* 0.1`, `/ 2`) is modelled as exact real arithmetic.
- Paddles, scores and every prototype-ball value are whole numbers in the source. They are `int` here.
- Python's `//` and `%` are only ever applied to a positive divisor in this code. There they agree with Dafny's `/` and `%`.

Where the code's behaviour differs from what one might expect of the design:

- In the enhanced match, UP and DOWN change `games_to_win` while the game is over. So "the game is over exactly when a score has reached `games_to_win`" holds only straight after the deciding update (`MatchInvariant.UpdateDecidesMatch`). What holds at all times is this:
  - a match in play has both scores below `games_to_win`;
  - the game is over exactly when a winner is recorded.
- A serve puts the ball back at its spawn point, not at a recomputed centre.
- Restart puts each paddle at `height // 2 - 50`. That centres it only because paddles are 100 pixels tall.
- The prototype's speed ramp is not behaviour. Its `check_collision` is defined twice, and the second definition replaces the first.

## Model

| member | source | states |
|---|---|---|
| Geometry.Truncate | THO/game/ball.py:87-88 | the ball's box corner is the real position truncated toward zero: within one unit of it, and never further from zero |
| Geometry.Overlaps | THO/game/ball.py:52-65 | `colliderect` is the strict overlap of two boxes; it is symmetric, and boxes that only share a vertical edge do not collide |
| Geometry.Clamp | THO/game/paddle.py:18 | the clamp `max(0, min(v, hi))` is the point of `[0, hi]` nearest to `v`, and it is 0 when that range is empty |
| EnhancedBall.Create | THO/game/ball.py:5-19 | a new ball sits at its spawn point, with `velocity_x` in {-5, 5}, `velocity_y` in {-3, 3}, no collision recorded and a 100 ms cooldown |
| EnhancedBall.Move | THO/game/ball.py:21-32 | x advances by exactly `velocity_x`; `velocity_y` is reversed exactly when the moved ball touches or crosses a wall, so its magnitude is kept; the ball is put back on the wall it reached; with a screen at least a ball tall, y ends in `[0, screen_height - height]` |
| EnhancedBall.CheckCollision | THO/game/ball.py:34-77 | within the cooldown the result is False and the ball unchanged; a hit happens exactly when the ball overlaps the player paddle moving left, or the AI paddle moving right; the player is tested first; a hit keeps the speed and points `velocity_x` away from the paddle; it puts the ball flush against the paddle's outer edge, so they no longer overlap; it adds a tenth of the centre offset to `velocity_y`, records the time and returns True; no hit changes nothing |
| EnhancedBall.BounceIsDebounced | THO/game/ball.py:41-45 | after a bounce at time t, no check before t + cooldown bounces the ball, even after another tick of flight and with the paddles moved |
| EnhancedBall.Reset | THO/game/ball.py:79-85 | a serve restores the spawn point, draws `velocity_x` from {-5, 5} and `velocity_y` from {-3, 3}, clears the collision time, and changes nothing else |
| EnhancedBall.ResetForgetsFlight | THO/game/ball.py:79-85 | two balls that differ only in position, velocity and collision time serve identically |
| EnhancedBall.EveryServeReachable | THO/game/ball.py:83-84 | each of the four serve directions comes out of some pair of draws |
| EnhancedBall.TopWallExample | THO/game/ball.py:26-30 | a ball at the top wall moving up at 5 stays at y = 0 and moves down at 5 |
| EnhancedPaddle.Move | THO/game/paddle.py:15-18 | y becomes `y + dy` clamped to `[0, H - height]` (0 when the screen is shorter than the paddle), and only y changes; a move of 0 leaves an on-screen paddle in place; an on-screen paddle moves at most `abs(dy)` |
| EnhancedPaddle.AutoTrack | THO/game/paddle.py:23-49 | the AI moves y to `y - 6` clamped when the predicted ball is more than 10 above its centre, and to `y + 6` clamped when it is more than 10 below; when the offset is under 5 and the roll under 0.1 it moves by the drawn ±2, clamped; otherwise it stays put; an on-screen paddle stays on screen and moves at most 6 |
| EnhancedPaddle.JitterExcludesTracking | THO/game/paddle.py:38-45 | the jitter zone lies inside the dead zone, so one tick never both tracks and jitters |
| MatchEngine.GamesToWin | THO/game/game_engine.py:34 | the points needed to win best of N form a majority of N: `2 * g - 1 == N` |
| MatchEngine.Init | THO/game/game_engine.py:11-34 | a new engine is PLAYING with both scores 0, no winner, option index 1 and 3 points to win; both paddles start at `height // 2 - 50`; the ball starts at the screen centre |
| MatchEngine.CheckGameOver | THO/game/game_engine.py:146-155 | a player score at the mark gives GAME_OVER with the player as winner; otherwise an AI score at the mark gives GAME_OVER with the AI as winner; otherwise nothing changes |
| MatchEngine.Restart | THO/game/game_engine.py:157-169 | a restart zeroes the scores, sets PLAYING, clears the winner, serves the ball and puts both paddles at `height // 2 - 50`; the match length is kept |
| MatchEngine.Select | THO/game/game_engine.py:104-108 | selecting option i sets the index and a points-to-win that is a majority of option i's length |
| MatchEngine.HandleInput | THO/game/game_engine.py:88-110 | in PLAYING, W moves the player paddle up by 10 and S moves it down by 10 (clamped), and nothing else changes; in GAME_OVER, R restarts; otherwise UP steps the option back and DOWN steps it forward, wrapping over the three lengths and recomputing the points to win; otherwise ENTER restarts |
| MatchEngine.Update | THO/game/game_engine.py:112-144 | outside PLAYING nothing changes; otherwise at most one score rises, by exactly 1: the AI's when the ball ends at x ≤ 0, else the player's when it ends at x ≥ width; a scored ball is served again; the AI then tracks the ball; the game can only end when a score has reached the mark |
| MatchEngine.Step | THO/main.py:50-51 | one frame is input, then update; the screen size never changes; scores drop only when R or ENTER is pressed on a finished match, and then the update starts from the restarted match |
| MatchEngine.Play | THO/main.py:35-51 | a run of frames applies one frame after another; the screen size never changes |
| MatchInvariant.InitIsValid | THO/game/game_engine.py:11-34 | on a screen at least a paddle tall, a new engine satisfies the match invariant |
| MatchInvariant.RestartIsValid | THO/game/game_engine.py:157-169 | a restart yields a valid match in PLAYING |
| MatchInvariant.HandleInputPreservesValid | THO/game/game_engine.py:88-110 | input keeps the match invariant, including after a change of match length during GAME_OVER |
| MatchInvariant.UpdatePreservesValid | THO/game/game_engine.py:112-144 | an update keeps the match invariant: both scores are below the mark while PLAYING, GAME_OVER holds exactly when there is a winner, and paddles and ball stay on screen |
| MatchInvariant.UpdateDecidesMatch | THO/game/game_engine.py:130-155 | straight after an update of a match in play, the game is over exactly when a score has reached the mark, and the winner is the side whose score has just reached it |
| MatchInvariant.BestOfN | THO/game/game_engine.py:130-155 | a best-of-N match in play has played fewer than N points, and the update that ends it has played at most N |
| MatchInvariant.StepPreservesValid | THO/main.py:50-51 | one frame of the main loop (input, then update) keeps the match invariant |
| MatchInvariant.PlayPreservesValid | THO/main.py:35-51 | after any run of frames the match invariant still holds |
| MatchInvariant.PlayConcatenates | THO/main.py:35-51 | playing two runs of frames in turn is the same as playing their concatenation |
| MatchInvariant.ScoresOnlyGrowWithoutRestart | THO/game/game_engine.py:99-141 | over a run of frames in which neither R nor ENTER is pressed, neither score goes down |
| MatchInvariant.UpThenDownRestoresOption | THO/game/game_engine.py:103-108 | on the game-over screen, DOWN undoes UP and restores the whole engine |
| MatchInvariant.DownCyclesThroughOptions | THO/game/game_engine.py:106-108 | three presses of DOWN visit all three match lengths and return to the starting engine |
| MatchInvariant.MatchLengthCycleExample | THO/game/game_engine.py:106-108 | cycling best of 3 → 5 → 7 → 3 gives 2, 3, 4, 2 points to win |
| PrototypeBall.Create | game/ball.py:5-15 | a new ball sits at its spawn point, with `velocity_x` in {-8, 8} and `velocity_y` in {-5, 5} |
| PrototypeBall.Move | game/ball.py:17-22 | the position advances by exactly the velocity, with no clamping; `velocity_y` is reversed exactly when the moved ball is at or past a wall, so its magnitude is kept |
| PrototypeBall.CheckCollision | game/ball.py:48-59 | a ball overlapping the player paddle moves to the paddle's right edge and heads right; otherwise a ball overlapping the AI paddle moves to the AI paddle's left edge minus its width and heads left; either way it no longer overlaps that paddle; `velocity_y` and the speed never change; with no overlap nothing changes |
| PrototypeBall.Reset | game/ball.py:39-43 | a serve restores the spawn point, exactly reverses `velocity_x` and draws `velocity_y` from {-3, 3} |
| PrototypeBall.ServeTwiceRestoresDirection | game/ball.py:39-43 | two serves in a row restore the original horizontal velocity |
| PrototypeBall.MoveKeepsContained | game/ball.py:17-22 | on a screen taller than the ball, a tick of flight keeps the ball less than one vertical step past a wall, and heading back in whenever it is at or past one |
| PrototypeBall.CheckCollisionKeepsContained | game/ball.py:48-59 | a paddle check keeps that containment |
| PrototypeBall.ResetIsContained | game/ball.py:39-43 | a serve from a spawn point strictly between the walls is contained |
| PrototypeBall.CreateIsContained | game/ball.py:5-15 | a ball created strictly between the walls starts contained, whichever way it is served |
| PrototypeBall.FlightExample | game/ball.py:17-22 | a ball at (400, 300) with velocity (8, 5) on 800 × 600 is at (408, 305) after one tick, without a bounce |
| PrototypePaddle.Move | game/paddle.py:11-13 | y becomes `y + dy` clamped to `[0, H - height]` (0 when the screen is shorter than the paddle), and only y changes; an on-screen paddle moves at most `abs(dy)` |
| PrototypePaddle.AutoTrack | game/paddle.py:18-27 | nothing happens unless ticks is a multiple of 10; otherwise y becomes `y + 5` clamped when the centre is above `ball.y - height // 2`, `y - 5` clamped when it is below, and stays put when it is on it; an on-screen paddle stays on screen and moves at most 5 |
| PrototypePaddle.RestingPaddleMissesBall | game/paddle.py:23-27 | where the as-written AI rests, with an even paddle height, the paddle's bottom edge is on the ball's top edge, so their rows never meet |
| PrototypePaddle.RestingPaddleMissesBallExample | game/paddle.py:23-27 | a 100-pixel paddle at y = 200 with the ball at y = 300 stays put and does not overlap the ball |
| PrototypePaddle.AutoTrackCentred | game/paddle.py:23-27 | on a reacting tick the corrected tracker sets y to `y + 5` clamped when the top is above `ball.y - height // 2` and to `y - 5` clamped when it is below; it stays put on the target; an on-screen paddle stays on screen |
| PrototypePaddle.CentredTrackerRestsOnTarget | game/paddle.py:23-27 | with the target on screen, an on-screen paddle the corrected tracker leaves in place on a reacting tick is at the target |
| PrototypePaddle.RestingCentredPaddleMeetsBall | game/paddle.py:23-27 | where the corrected AI rests, the paddle's rows span the ball's top |

## Left out

- `game/game_engine.py`: its game-over path draws, sleeps and exits the process. It depends on module-level sound objects. Its scoring (lines 46-53) is the same rule as the enhanced engine's.
- Rendering: all `render*` methods, fonts, the overlay, and `rect()` as a pygame object. `rect()` is modelled only as a bounding box (`Box`).
- Audio: `load_sounds`, `create_tone`, `play_sound` and the wall and paddle sound conditions inside `update`. They produce sound only and change no game state.
- `main.py`, `THO/main.py` and `ask_replay`: the event loop, frame pacing, display setup and the blocking replay prompt. `MatchEngine.Step` keeps only the order of input, then update, within one frame.
- `winning_score = 5`, `speed = 7` and `ai_reaction_delay = 0` in the enhanced edition: these fields are set but never read.
- The MENU state: it appears only in a comment.
- The first `check_collision` in `game/ball.py` (lines 24-37), with its speed ramp: the second definition replaces it.
- Zero-size or negative-size boxes: pygame's `colliderect` treats them specially, but every box in the game has positive size.
- Probabilities: the 10% jitter chance and the uniform serve draws are parameters here. No distribution is modelled.
- Floating point: rounding in `* 0.1`, `/ 2` and the ball's real coordinates is not modelled.

## Findings

| source | as written | input that shows it | evidently intended | confidence | as-written member | corrected member |
|---|---|---|---|---|---|---|
| game/paddle.py:23-27 | the target `ball.y - height // 2` is compared with the paddle's centre, so the AI rests with its bottom edge on the ball's top edge and never meets the ball there | paddle at y = 200, height 100, ball at y = 300: centre 250 equals target 250, so the AI stays, and rows [200, 300) and [300, 307) do not meet | compare the paddle's top with the target, so the AI rests with the ball at its centre | medium; not executed | PrototypePaddle.RestingPaddleMissesBall | PrototypePaddle.AutoTrackCentred |
