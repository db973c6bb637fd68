/**
  Style.py: a movement card. A style is a value here; the only thing the
  rest of the program ever changes about a style is its owner, and that is
  done by building a new value with a different `owner`.
*/
module Styles {
  import opened Pieces

  /** A (row, column) movement delta. */
  type Delta = (int, int)

  datatype Style = Style(name: string, moves: seq<Delta>, owner: Token)

  /** Style.__init__: the owner defaults to EMPTY. */
  function NewStyle(pairs: seq<Delta>, name: string, owner: Token := Empty): (s: Style)
    ensures s.name == name && s.owner == owner && s.moves == pairs
  {
    Style(name, pairs, owner)
  }

  /** Style.get_moves: the deltas given at construction, in order. */
  function GetMoves(s: Style): (r: seq<Delta>)
    ensures NewStyle(r, s.name, s.owner) == s
  {
    s.moves
  }

  /** Style.__eq__: names and owners agree; the move lists are not compared. */
  predicate Same(a: Style, b: Style)
    ensures a == b ==> Same(a, b)
  {
    a.name == b.name && a.owner == b.owner
  }

  /** Style.__copy__. */
  function Copy(s: Style): (c: Style)
    ensures Same(c, s) && GetMoves(c) == GetMoves(s)
    ensures c == s
  {
    Style(s.name, GetMoves(s), s.owner)
  }

  lemma NewStyleDefaultsToUnowned(pairs: seq<Delta>, name: string)
    ensures NewStyle(pairs, name).owner == Empty
  {
  }

  /** Equality ignores the move list: two styles are equal exactly when they
      become identical once given the same moves. */
  lemma SameIgnoresMoves(a: Style, b: Style)
    ensures Same(a, b) <==> a.(moves := b.moves) == b
  {
  }

  /** Equality of styles is an equivalence: symmetric and transitive. */
  lemma SameIsEquivalence(a: Style, b: Style, c: Style)
    ensures Same(a, b) ==> Same(b, a)
    ensures Same(a, b) && Same(b, c) ==> Same(a, c)
  {
  }
}
