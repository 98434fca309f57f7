/**
 * The ball of the first version of the game. It bounces off the walls
 * without being put back on screen, is pushed out of a paddle it overlaps
 * in either direction of travel, and on a serve keeps its horizontal speed
 * but reverses it. Every value it holds is a whole number.
 */
module PrototypeBall {
  import opened Geometry
  import opened Chance

  /** Horizontal and vertical speeds at creation. */
  const StartVx := 8
  const StartVy := 5
  /** Vertical speed after a serve. */
  const ServeVy := 3

  datatype Ball = Ball(
    x: int, y: int,
    vx: int, vy: int,
    width: int, height: int,
    screenWidth: int, screenHeight: int,
    originalX: int, originalY: int)

  function Create(x: int, y: int, width: int, height: int,
                  screenWidth: int, screenHeight: int, px: Pick, py: Pick): (b: Ball)
    ensures b.x == b.originalX == x && b.y == b.originalY == y
    ensures b.width == width && b.height == height
    ensures b.screenWidth == screenWidth && b.screenHeight == screenHeight
    ensures b.vx == -StartVx || b.vx == StartVx
    ensures b.vy == -StartVy || b.vy == StartVy
  {
    Ball(x, y, Choose(-StartVx, StartVx, px), Choose(-StartVy, StartVy, py),
         width, height, screenWidth, screenHeight, x, y)
  }

  function Box(b: Ball): Rect
  {
    Rect(b.x, b.y, b.width, b.height)
  }

  /** A top edge at y puts the ball on or past the top or bottom wall. */
  predicate AtWall(b: Ball, y: int)
  {
    y <= 0 || y + b.height >= b.screenHeight
  }

  /** One tick of flight; reaching a wall reverses the vertical velocity but leaves the ball where it is. */
  function Move(b: Ball): (r: Ball)
    ensures r == b.(x := r.x, y := r.y, vy := r.vy)
    ensures r.x == b.x + b.vx && r.y == b.y + b.vy
    ensures AtWall(b, r.y) ==> r.vy == -b.vy
    ensures !AtWall(b, r.y) ==> r.vy == b.vy
    ensures Abs(r.vy) == Abs(b.vy)
  {
    var moved := b.(x := b.x + b.vx, y := b.y + b.vy);
    if AtWall(b, moved.y) then moved.(vy := -b.vy) else moved
  }

  /**
   * The paddle check that is in force (the class's second definition). An
   * overlapped paddle pushes the ball out past its outer edge and sends it
   * away, whatever its direction; the player's paddle is tried first.
   */
  function CheckCollision(b: Ball, player: Rect, ai: Rect): (r: Ball)
    ensures r == b.(x := r.x, vx := r.vx)
    ensures Abs(r.vx) == Abs(b.vx)
    ensures Overlaps(Box(b), player) ==>
      r.x == Right(player) && 0 <= r.vx && !Overlaps(Box(r), player)
    ensures !Overlaps(Box(b), player) && Overlaps(Box(b), ai) ==>
      r.x == ai.x - b.width && r.vx <= 0 && !Overlaps(Box(r), ai)
    ensures !Overlaps(Box(b), player) && !Overlaps(Box(b), ai) ==> r == b
  {
    if Overlaps(Box(b), player) then
      b.(x := Right(player), vx := Abs(b.vx))
    else if Overlaps(Box(b), ai) then
      b.(x := ai.x - b.width, vx := -Abs(b.vx))
    else
      b
  }

  /** A serve: back to the spawn point, the horizontal direction reversed, a new vertical speed. */
  function Reset(b: Ball, py: Pick): (r: Ball)
    ensures r == b.(x := r.x, y := r.y, vx := r.vx, vy := r.vy)
    ensures r.x == b.originalX && r.y == b.originalY
    ensures r.vx == -b.vx
    ensures r.vy == -ServeVy || r.vy == ServeVy
  {
    b.(x := b.originalX, y := b.originalY, vx := -b.vx, vy := Choose(-ServeVy, ServeVy, py))
  }

  /** Two serves in a row send the ball off in its original horizontal direction. */
  lemma ServeTwiceRestoresDirection(b: Ball, p: Pick, q: Pick)
    ensures Reset(Reset(b, p), q).vx == b.vx
    ensures Reset(Reset(b, p), q).x == b.originalX && Reset(Reset(b, p), q).y == b.originalY
  {
  }

  /**
   * Without clamping the ball can end a tick past a wall, but never by a
   * whole step, and when it is at or past a wall it is heading back in.
   */
  predicate Contained(b: Ball)
  {
    && -Abs(b.vy) < b.y < b.screenHeight - b.height + Abs(b.vy)
    && (b.y <= 0 ==> 0 <= b.vy)
    && (b.screenHeight - b.height <= b.y ==> b.vy <= 0)
  }

  /** On a screen taller than the ball, a tick of flight keeps the ball contained. */
  lemma MoveKeepsContained(b: Ball)
    requires b.height < b.screenHeight
    requires Contained(b)
    ensures Contained(Move(b))
  {
  }

  /** A paddle check leaves the vertical motion alone, so containment survives it. */
  lemma CheckCollisionKeepsContained(b: Ball, player: Rect, ai: Rect)
    requires Contained(b)
    ensures Contained(CheckCollision(b, player, ai))
  {
  }

  /** A serve from a spawn point strictly between the walls gives a contained ball. */
  lemma ResetIsContained(b: Ball, py: Pick)
    requires 0 < b.originalY < b.screenHeight - b.height
    ensures Contained(Reset(b, py))
  {
  }

  /** A ball created strictly between the walls starts contained, whichever way it is served. */
  lemma CreateIsContained(x: int, y: int, width: int, height: int,
                          screenWidth: int, screenHeight: int, px: Pick, py: Pick)
    requires 0 < y < screenHeight - height
    ensures Contained(Create(x, y, width, height, screenWidth, screenHeight, px, py))
  {
  }

  /** Example: at (400, 300) with velocity (8, 5) on an 800 x 600 screen, one tick gives (408, 305) and no bounce. */
  lemma FlightExample()
    ensures var b := Move(Create(400, 300, 7, 7, 800, 600, Second, Second));
            b.x == 408 && b.y == 305 && b.vx == 8 && b.vy == 5
  {
  }
}
