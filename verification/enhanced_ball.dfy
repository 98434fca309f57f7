/**
 * The ball of the enhanced edition: a wall bounce that clamps the ball back
 * onto the screen, a debounced paddle bounce that only fires when the ball
 * moves toward the paddle and adds spin, and a serve from the spawn point.
 *
 * Coordinates and velocities are reals because spin makes the vertical
 * velocity fractional. The millisecond clock and the random serve direction
 * are parameters.
 */
module EnhancedBall {
  import opened Geometry
  import opened Chance

  /** Milliseconds after a bounce during which no further bounce counts. */
  const Cooldown := 100
  /** Serve speeds: the horizontal and vertical velocity magnitudes after a serve. */
  const ServeVx: real := 5.0
  const ServeVy: real := 3.0
  /** Vertical velocity added per unit of offset between ball and paddle centres. */
  const SpinFactor: real := 0.1

  datatype Ball = Ball(
    x: real, y: real,
    vx: real, vy: real,
    width: int, height: int,
    screenWidth: int, screenHeight: int,
    originalX: real, originalY: real,
    lastCollisionTime: int,
    collisionCooldown: int)

  /** The ball after a collision check, and whether a paddle bounced it. */
  datatype Bounce = Bounce(ball: Ball, hit: bool)

  /** A new ball at (x, y), served in the directions the two draws chose. */
  function Create(x: real, y: real, width: int, height: int,
                  screenWidth: int, screenHeight: int, px: Pick, py: Pick): (b: Ball)
    ensures b.x == b.originalX == x && b.y == b.originalY == y
    ensures b.width == width && b.height == height
    ensures b.screenWidth == screenWidth && b.screenHeight == screenHeight
    ensures b.vx == -ServeVx || b.vx == ServeVx
    ensures b.vy == -ServeVy || b.vy == ServeVy
    ensures b.lastCollisionTime == 0 && b.collisionCooldown == Cooldown
  {
    Ball(x, y, Choose(-ServeVx, ServeVx, px), Choose(-ServeVy, ServeVy, py),
         width, height, screenWidth, screenHeight, x, y, 0, Cooldown)
  }

  /** The ball's bounding box; pygame truncates the real corner to integers. */
  function Box(b: Ball): Rect
  {
    Rect(Truncate(b.x), Truncate(b.y), b.width, b.height)
  }

  /** The lowest on-screen value of y: the ball's top edge touches the bottom wall. */
  function MaxY(b: Ball): real
  {
    (b.screenHeight - b.height) as real
  }

  /** A top edge at y puts the ball on or past the top or bottom wall. */
  predicate AtWall(b: Ball, y: real)
  {
    y <= 0.0 || y + b.height as real >= b.screenHeight as real
  }

  /**
   * One tick of flight: the velocity is added to the position; a ball that
   * reaches a wall has its vertical velocity reversed and is put back on the
   * wall it reached (the top one when it is at both).
   */
  function Move(b: Ball): (r: Ball)
    ensures r == b.(x := r.x, y := r.y, vy := r.vy)
    ensures r.x == b.x + b.vx
    ensures RealAbs(r.vy) == RealAbs(b.vy)
    ensures !AtWall(b, b.y + b.vy) ==> r.y == b.y + b.vy && r.vy == b.vy
    ensures AtWall(b, b.y + b.vy) ==> r.vy == -b.vy
    ensures b.y + b.vy <= 0.0 ==> r.y == 0.0
    ensures 0.0 < b.y + b.vy && AtWall(b, b.y + b.vy) ==> r.y == MaxY(b)
    ensures b.height <= b.screenHeight ==> 0.0 <= r.y <= MaxY(b)
  {
    var x := b.x + b.vx;
    var y := b.y + b.vy;
    if AtWall(b, y) then
      b.(x := x, y := if y <= 0.0 then 0.0 else MaxY(b), vy := -b.vy)
    else
      b.(x := x, y := y)
  }

  /** The last bounce is too recent for another one to count. */
  predicate CoolingDown(b: Ball, now: int)
  {
    now - b.lastCollisionTime < b.collisionCooldown
  }

  /** The ball overlaps the player's paddle while moving left, toward it. */
  predicate HitsPlayer(b: Ball, player: Rect)
  {
    Overlaps(Box(b), player) && b.vx < 0.0
  }

  /** The ball overlaps the AI paddle while moving right, toward it. */
  predicate HitsAi(b: Ball, ai: Rect)
  {
    Overlaps(Box(b), ai) && b.vx > 0.0
  }

  /** Spin: a tenth of the offset of the ball's centre below the paddle's centre. */
  function Spin(b: Ball, paddle: Rect): real
  {
    ((b.y + b.height as real / 2.0) - (paddle.y as real + paddle.h as real / 2.0)) * SpinFactor
  }

  /**
   * The paddle check at time now. A hit sends the ball away from the paddle
   * with the same horizontal speed, adds spin, puts the ball flush against
   * the paddle's outer edge and starts the cooldown. The player's paddle is
   * tried first.
   */
  function CheckCollision(b: Ball, player: Rect, ai: Rect, now: int): (r: Bounce)
    ensures CoolingDown(b, now) ==> r == Bounce(b, false)
    ensures r.hit <==> !CoolingDown(b, now) && (HitsPlayer(b, player) || HitsAi(b, ai))
    ensures !r.hit ==> r.ball == b
    ensures r.hit ==> r.ball == b.(x := r.ball.x, vx := r.ball.vx, vy := r.ball.vy,
                                   lastCollisionTime := r.ball.lastCollisionTime)
    ensures r.hit ==> r.ball.lastCollisionTime == now && RealAbs(r.ball.vx) == RealAbs(b.vx)
    ensures r.hit && HitsPlayer(b, player) ==>
      && 0.0 < r.ball.vx
      && r.ball.x == Right(player) as real
      && r.ball.vy == b.vy + Spin(b, player)
      && !Overlaps(Box(r.ball), player)
    ensures r.hit && !HitsPlayer(b, player) ==>
      && r.ball.vx < 0.0
      && r.ball.x == (ai.x - b.width) as real
      && r.ball.vy == b.vy + Spin(b, ai)
      && !Overlaps(Box(r.ball), ai)
  {
    if CoolingDown(b, now) then
      Bounce(b, false)
    else if HitsPlayer(b, player) then
      var hit := b.(lastCollisionTime := now, vx := RealAbs(b.vx), vy := b.vy + Spin(b, player),
                    x := Right(player) as real);
      TruncateWhole(Right(player));
      Bounce(hit, true)
    else if HitsAi(b, ai) then
      var hit := b.(lastCollisionTime := now, vx := -RealAbs(b.vx), vy := b.vy + Spin(b, ai),
                    x := (ai.x - b.width) as real);
      TruncateWhole(ai.x - b.width);
      Bounce(hit, true)
    else
      Bounce(b, false)
  }

  /**
   * A bounce at time now blocks every further bounce until the cooldown has
   * passed, whatever the paddles do in the meantime and however far the
   * ball flies.
   */
  lemma BounceIsDebounced(b: Ball, player: Rect, ai: Rect, now: int,
                          later: int, player': Rect, ai': Rect)
    requires CheckCollision(b, player, ai, now).hit
    requires now <= later < now + b.collisionCooldown
    ensures !CheckCollision(Move(CheckCollision(b, player, ai, now).ball), player', ai', later).hit
  {
  }

  /**
   * A serve: back to the spawn point, new directions from the two draws,
   * and the cooldown cleared.
   */
  function Reset(b: Ball, px: Pick, py: Pick): (r: Ball)
    ensures r == b.(x := r.x, y := r.y, vx := r.vx, vy := r.vy,
                    lastCollisionTime := r.lastCollisionTime)
    ensures r.x == b.originalX && r.y == b.originalY
    ensures r.vx == -ServeVx || r.vx == ServeVx
    ensures r.vy == -ServeVy || r.vy == ServeVy
    ensures r.lastCollisionTime == 0
  {
    b.(x := b.originalX, y := b.originalY,
       vx := Choose(-ServeVx, ServeVx, px), vy := Choose(-ServeVy, ServeVy, py),
       lastCollisionTime := 0)
  }

  /** A serve forgets the flight before it: it depends only on the ball's fixed fields and the draws. */
  lemma ResetForgetsFlight(b: Ball, c: Ball, px: Pick, py: Pick)
    requires b.(x := c.x, y := c.y, vx := c.vx, vy := c.vy, lastCollisionTime := c.lastCollisionTime) == c
    ensures Reset(b, px, py) == Reset(c, px, py)
  {
  }

  /** Each of the four serve directions is reachable. */
  lemma EveryServeReachable(b: Ball, vx: real, vy: real)
    requires vx == -ServeVx || vx == ServeVx
    requires vy == -ServeVy || vy == ServeVy
    ensures exists px: Pick, py: Pick :: Reset(b, px, py).vx == vx && Reset(b, px, py).vy == vy
  {
    var px := if vx == -ServeVx then First else Second;
    var py := if vy == -ServeVy then First else Second;
    assert Reset(b, px, py).vx == vx && Reset(b, px, py).vy == vy;
  }

  /** Example: a ball at the top wall moving up is held at the wall and sent down. */
  lemma TopWallExample()
    ensures var b := Move(Create(400.0, 0.0, 7, 7, 800, 600, First, First).(vy := -5.0));
            b.y == 0.0 && b.vy == 5.0 && b.x == 395.0
  {
  }
}
