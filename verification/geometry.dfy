/**
 * Axis-aligned boxes as the game builds them with pygame.Rect, and the small
 * integer and real helpers both versions of the game share.
 */
module Geometry {

  /** A pygame.Rect: integer corner, width and height. */
  datatype Rect = Rect(x: int, y: int, w: int, h: int)

  function Right(r: Rect): int
  {
    r.x + r.w
  }

  /** The boxes' horizontal extents share more than an edge. */
  predicate ColumnsMeet(a: Rect, b: Rect)
  {
    a.x < b.x + b.w && b.x < a.x + a.w
  }

  /** The boxes' vertical extents share more than an edge. */
  predicate RowsMeet(a: Rect, b: Rect)
  {
    a.y < b.y + b.h && b.y < a.y + a.h
  }

  /**
   * Rect.colliderect for boxes of positive size: the open interiors meet,
   * so boxes that only share an edge do not collide.
   */
  function Overlaps(a: Rect, b: Rect): (r: bool)
    ensures r == (ColumnsMeet(b, a) && RowsMeet(b, a))
    ensures a.x == Right(b) || Right(a) == b.x ==> !r
  {
    ColumnsMeet(a, b) && RowsMeet(a, b)
  }

  /** Conversion of a real coordinate to a Rect coordinate: toward zero. */
  function Truncate(v: real): (n: int)
    ensures 0.0 <= v ==> 0 <= n && n as real <= v < n as real + 1.0
    ensures v < 0.0 ==> n <= 0 && n as real - 1.0 < v <= n as real
  {
    if 0.0 <= v then v.Floor else -((-v).Floor)
  }

  /** A whole-number coordinate survives the conversion unchanged. */
  lemma TruncateWhole(n: int)
    ensures Truncate(n as real) == n
  {
  }

  /**
   * max(0, min(v, hi)): the point of [0, hi] nearest to v when that range
   * is not empty, and 0 when it is.
   */
  function Clamp(v: int, hi: int): (c: int)
    ensures 0 <= hi ==> 0 <= c <= hi
    ensures 0 <= v <= hi ==> c == v
    ensures v < 0 || hi < 0 ==> c == 0
    ensures 0 <= hi < v ==> c == hi
  {
    var m := if v < hi then v else hi;
    if m < 0 then 0 else m
  }

  function Abs(n: int): (a: int)
    ensures 0 <= a && (a == n || a == -n)
  {
    if n < 0 then -n else n
  }

  function RealAbs(v: real): (a: real)
    ensures 0.0 <= a && (a == v || a == -v)
  {
    if v < 0.0 then -v else v
  }
}
