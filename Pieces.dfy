/**
  The board symbols of the unshown Pieces module. The repository uses single
  characters: G1 is 'X', M2 is 'y' and EMPTY is ' '; M1 and G2 are taken to be
  the other case of G1 and M2 ('x' and 'Y'), which is what lets a player's id
  match both of its tokens after lower-casing.
*/
module Pieces {
  datatype Token = M1 | G1 | M2 | G2 | Empty

  /** The token whose symbol is `t`'s symbol lower-cased. */
  function LowerCase(t: Token): Token {
    match t
    case G1 => M1
    case G2 => M2
    case _ => t
  }
}
