/**
 * The paddle of the first version of the game: a clamped vertical move,
 * and an AI that reacts only on clock ticks that are a multiple of ten
 * milliseconds and then steps toward a target derived from the ball's top.
 * The clock reading is the parameter ticks.
 */
module PrototypePaddle {
  import opened Geometry
  import PrototypeBall

  const Speed := 7
  /** The AI acts on clock readings divisible by this. */
  const ReactionDelay := 10
  /** The AI's step: two below the paddle speed. */
  const AiStep := Speed - 2

  datatype Paddle = Paddle(x: int, y: int, width: int, height: int)

  function Box(p: Paddle): Rect
  {
    Rect(p.x, p.y, p.width, p.height)
  }

  predicate OnScreen(p: Paddle, screenHeight: int)
  {
    0 <= p.y <= screenHeight - p.height
  }

  /** Move by dy, stopping at the top and bottom of the screen. */
  function Move(p: Paddle, dy: int, screenHeight: int): (r: Paddle)
    ensures r == p.(y := r.y)
    ensures r.y == Clamp(p.y + dy, screenHeight - p.height)
    ensures p.height <= screenHeight ==> OnScreen(r, screenHeight)
    ensures OnScreen(p.(y := p.y + dy), screenHeight) ==> r.y == p.y + dy
    ensures p.y + dy < 0 ==> r.y == 0
    ensures 0 <= screenHeight - p.height < p.y + dy ==> r.y == screenHeight - p.height
    ensures OnScreen(p, screenHeight) ==> Abs(r.y - p.y) <= Abs(dy)
  {
    p.(y := Clamp(p.y + dy, screenHeight - p.height))
  }

  /** The AI acts on this clock reading. */
  predicate Reacts(ticks: int)
  {
    ticks % ReactionDelay == 0
  }

  /** The paddle's centre by true division. */
  function Center(p: Paddle): real
  {
    p.y as real + p.height as real / 2.0
  }

  /** The AI's target: the ball's top, less half the paddle's height by floor division. */
  function Target(p: Paddle, ball: PrototypeBall.Ball): int
  {
    ball.y - p.height / 2
  }

  /**
   * One AI tick at clock reading ticks: nothing unless ticks is a multiple
   * of ReactionDelay; otherwise a step of AiStep that brings the centre
   * toward the target, or nothing when it is on it.
   */
  function AutoTrack(p: Paddle, ball: PrototypeBall.Ball, screenHeight: int, ticks: int): (r: Paddle)
    ensures r == p.(y := r.y)
    ensures !Reacts(ticks) ==> r == p
    ensures Center(p) == Target(p, ball) as real ==> r == p
    ensures r.y > p.y && OnScreen(p, screenHeight) ==> Center(p) < Target(p, ball) as real
    ensures r.y < p.y && OnScreen(p, screenHeight) ==> Center(p) > Target(p, ball) as real
    ensures OnScreen(p, screenHeight) ==>
      OnScreen(r, screenHeight) && -AiStep <= r.y - p.y <= AiStep
    ensures Reacts(ticks) && Center(p) < Target(p, ball) as real ==>
      r.y == Clamp(p.y + AiStep, screenHeight - p.height)
    ensures Reacts(ticks) && Center(p) > Target(p, ball) as real ==>
      r.y == Clamp(p.y - AiStep, screenHeight - p.height)
    ensures Reacts(ticks) && OnScreen(p, screenHeight) && Center(p) < Target(p, ball) as real ==>
      r.y == if screenHeight - p.height < p.y + AiStep then screenHeight - p.height else p.y + AiStep
    ensures Reacts(ticks) && OnScreen(p, screenHeight) && Center(p) > Target(p, ball) as real ==>
      r.y == if p.y < AiStep then 0 else p.y - AiStep
  {
    if Reacts(ticks) then
      var target := Target(p, ball) as real;
      if Center(p) < target then Move(p, AiStep, screenHeight)
      else if Center(p) > target then Move(p, -AiStep, screenHeight)
      else p
    else
      p
  }

  /**
   * As written, the AI rests where its centre equals the target, which for
   * a paddle of even height puts the paddle's bottom edge on the ball's top
   * edge: a resting AI paddle never overlaps the ball, wherever it stands
   * horizontally.
   */
  lemma RestingPaddleMissesBall(p: Paddle, ball: PrototypeBall.Ball)
    requires p.height % 2 == 0
    requires Center(p) == Target(p, ball) as real
    ensures ball.y == p.y + p.height
    ensures !RowsMeet(PrototypeBall.Box(ball), Box(p))
  {
  }

  /** Concretely: a 100-pixel paddle at y = 200 rests against a ball at y = 300 without touching it. */
  lemma RestingPaddleMissesBallExample(ball: PrototypeBall.Ball)
    requires ball.y == 300
    ensures var p := Paddle(780, 200, 10, 100);
            AutoTrack(p, ball, 600, 0) == p && !Overlaps(PrototypeBall.Box(ball), Box(p))
  {
    RestingPaddleMissesBall(Paddle(780, 200, 10, 100), ball);
  }

  /**
   * The tracker with the comparison the target is built for: the paddle's
   * top against ball.y - height // 2, so that the AI rests with the ball's
   * top at the paddle's centre.
   */
  function AutoTrackCentred(p: Paddle, ball: PrototypeBall.Ball, screenHeight: int, ticks: int): (r: Paddle)
    ensures r == p.(y := r.y)
    ensures !Reacts(ticks) ==> r == p
    ensures p.y == Target(p, ball) ==> r == p
    ensures r.y > p.y && OnScreen(p, screenHeight) ==> p.y < Target(p, ball)
    ensures r.y < p.y && OnScreen(p, screenHeight) ==> p.y > Target(p, ball)
    ensures OnScreen(p, screenHeight) ==>
      OnScreen(r, screenHeight) && -AiStep <= r.y - p.y <= AiStep
    ensures Reacts(ticks) && p.y < Target(p, ball) ==>
      r.y == Clamp(p.y + AiStep, screenHeight - p.height)
    ensures Reacts(ticks) && p.y > Target(p, ball) ==>
      r.y == Clamp(p.y - AiStep, screenHeight - p.height)
  {
    if Reacts(ticks) then
      if p.y < Target(p, ball) then Move(p, AiStep, screenHeight)
      else if p.y > Target(p, ball) then Move(p, -AiStep, screenHeight)
      else p
    else
      p
  }

  /** A paddle the corrected tracker leaves at rest spans the ball's rows. */
  lemma RestingCentredPaddleMeetsBall(p: Paddle, ball: PrototypeBall.Ball)
    requires 0 < p.height && 0 < ball.height
    requires p.y == Target(p, ball)
    ensures RowsMeet(PrototypeBall.Box(ball), Box(p))
  {
  }

  /**
   * When the target is on screen, the only place the corrected AI rests on
   * a reacting tick is the target itself.
   */
  lemma CentredTrackerRestsOnTarget(p: Paddle, ball: PrototypeBall.Ball, screenHeight: int, ticks: int)
    requires Reacts(ticks) && OnScreen(p, screenHeight)
    requires 0 <= Target(p, ball) <= screenHeight - p.height
    requires AutoTrackCentred(p, ball, screenHeight, ticks) == p
    ensures p.y == Target(p, ball)
  {
  }
}
