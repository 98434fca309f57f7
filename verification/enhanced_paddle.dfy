/**
 * The paddle of the enhanced edition: a vertical move clamped to the
 * screen, and the AI controller that steers toward where the ball will be
 * a few ticks ahead, ignores small offsets and now and then jitters.
 *
 * The jitter's random.random() draw is the parameter roll and its
 * random.choice draw is the parameter jitter.
 */
module EnhancedPaddle {
  import opened Geometry
  import opened Chance
  import EnhancedBall

  /** Pixels the AI paddle moves per tick when it tracks. */
  const AiMaxSpeed := 6
  /** Offsets of the predicted ball from the paddle centre that the AI ignores. */
  const DeadZone := 10
  /** Offsets below which the AI may jitter. */
  const JitterZone: real := 5.0
  /** Size of a jitter move. */
  const JitterStep := 2
  /** Probability of a jitter when the AI is nearly aligned. */
  const JitterChance: real := 0.1
  /** Ticks of vertical velocity the AI looks ahead. */
  const Lookahead: real := 5.0

  datatype Paddle = Paddle(x: int, y: int, width: int, height: int)

  function Box(p: Paddle): Rect
  {
    Rect(p.x, p.y, p.width, p.height)
  }

  /** The paddle is wholly on a screen of the given height. */
  predicate OnScreen(p: Paddle, screenHeight: int)
  {
    0 <= p.y <= screenHeight - p.height
  }

  /** Move by dy, stopping at the top and bottom of the screen. */
  function Move(p: Paddle, dy: int, screenHeight: int): (r: Paddle)
    ensures r == p.(y := r.y)
    ensures r.y == Clamp(p.y + dy, screenHeight - p.height)
    ensures p.height <= screenHeight ==> OnScreen(r, screenHeight)
    ensures OnScreen(p.(y := p.y + dy), screenHeight) ==> r.y == p.y + dy
    ensures p.y + dy < 0 ==> r.y == 0
    ensures 0 <= screenHeight - p.height < p.y + dy ==> r.y == screenHeight - p.height
    ensures OnScreen(p, screenHeight) ==> Abs(r.y - p.y) <= Abs(dy)
  {
    p.(y := Clamp(p.y + dy, screenHeight - p.height))
  }

  /** The paddle's centre line, with the height halved by floor division. */
  function Center(p: Paddle): int
  {
    p.y + p.height / 2
  }

  /** Where the AI expects the ball's centre to be Lookahead ticks from now. */
  function Predicted(ball: EnhancedBall.Ball): real
  {
    ball.y + (ball.height / 2) as real + ball.vy * Lookahead
  }

  /** The AI chooses to jitter: nearly aligned and the roll came in under the chance. */
  predicate Jitters(p: Paddle, ball: EnhancedBall.Ball, roll: real)
  {
    RealAbs(Predicted(ball) - Center(p) as real) < JitterZone && roll < JitterChance
  }

  /**
   * One AI tick: a tracking move of AiMaxSpeed when the predicted ball is
   * outside the dead zone, then, when it is nearly aligned, a jitter of
   * JitterStep with probability JitterChance. Both tests use the centre
   * from before the tick.
   */
  function AutoTrack(p: Paddle, ball: EnhancedBall.Ball, screenHeight: int,
                     roll: real, jitter: Pick): (r: Paddle)
    ensures r == p.(y := r.y)
    ensures OnScreen(p, screenHeight) ==>
      OnScreen(r, screenHeight) && -AiMaxSpeed <= r.y - p.y <= AiMaxSpeed
    ensures Predicted(ball) < (Center(p) - DeadZone) as real ==>
      r.y == Clamp(p.y - AiMaxSpeed, screenHeight - p.height)
    ensures Predicted(ball) > (Center(p) + DeadZone) as real ==>
      r.y == Clamp(p.y + AiMaxSpeed, screenHeight - p.height)
    ensures OnScreen(p, screenHeight) && Predicted(ball) < (Center(p) - DeadZone) as real ==>
      r.y == if p.y < AiMaxSpeed then 0 else p.y - AiMaxSpeed
    ensures OnScreen(p, screenHeight) && Predicted(ball) > (Center(p) + DeadZone) as real ==>
      r.y == if screenHeight - p.height < p.y + AiMaxSpeed then screenHeight - p.height else p.y + AiMaxSpeed
    ensures Jitters(p, ball, roll) ==>
      r.y == Clamp(p.y + Choose(-JitterStep, JitterStep, jitter), screenHeight - p.height)
    ensures r.y != p.y ==>
      || Predicted(ball) < (Center(p) - DeadZone) as real
      || Predicted(ball) > (Center(p) + DeadZone) as real
      || Jitters(p, ball, roll)
    ensures Jitters(p, ball, roll) && OnScreen(p, screenHeight) ==> Abs(r.y - p.y) <= JitterStep
  {
    var center := Center(p) as real;
    var predicted := Predicted(ball);
    var tracked :=
      if predicted < center - DeadZone as real then Move(p, -AiMaxSpeed, screenHeight)
      else if predicted > center + DeadZone as real then Move(p, AiMaxSpeed, screenHeight)
      else p;
    if Jitters(p, ball, roll) then
      Move(tracked, Choose(-JitterStep, JitterStep, jitter), screenHeight)
    else
      tracked
  }

  /** A nearly aligned AI never tracks, so a tick moves it by a jitter or not at all. */
  lemma JitterExcludesTracking(p: Paddle, ball: EnhancedBall.Ball, roll: real)
    requires Jitters(p, ball, roll)
    ensures !(Predicted(ball) < (Center(p) - DeadZone) as real)
    ensures !(Predicted(ball) > (Center(p) + DeadZone) as real)
  {
  }
}
