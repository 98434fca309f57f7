/**
 * The game's random draws, made explicit. Every random.choice in the game
 * picks from a two-element list; a Pick says which element it returned.
 */
module Chance {

  datatype Pick = First | Second

  /** random.choice([first, second]) when the draw came out as p. */
  function Choose<T>(first: T, second: T, p: Pick): (r: T)
    ensures r == first || r == second
    ensures p == First ==> r == first
    ensures p == Second ==> r == second
  {
    match p
    case First => first
    case Second => second
  }
}
