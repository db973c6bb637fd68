/*
  The undo history of a game: a LIFO stack whose every snapshot occupies
  two consecutive items, the grid first and the style list second.
*/

module Stacks {

  class OnitamaStack<T> {
    var items: seq<T>

    /** Every push adds two items and every pop removes two. */
    ghost predicate Valid()
      reads this
    {
      |items| % 2 == 0
    }

    constructor ()
      ensures items == [] && Valid()
    {
      items := [];
    }

    /** push: append the grid, then the styles. */
    method Push(board: T, styles: T)
      modifies this
      ensures items == old(items) + [board, styles]
      ensures old(Valid()) ==> Valid()
    {
      items := items + [board];
      items := items + [styles];
    }

    /** pop: remove the styles, then the grid, and return them as a pair. */
    method Pop() returns (board: T, styles: T)
      requires Valid() && items != []
      modifies this
      ensures old(items) == items + [board, styles]
      ensures items == old(items)[..|old(items)| - 2]
      ensures board == old(items)[|old(items)| - 2] && styles == old(items)[|old(items)| - 1]
      ensures Valid()
    {
      styles := items[|items| - 1];
      items := items[..|items| - 1];
      board := items[|items| - 1];
      items := items[..|items| - 1];
    }

    /** empty */
    method IsEmpty() returns (e: bool)
      ensures e <==> items == []
    {
      e := items == [];
    }
  }

  /** A push followed by a pop on a fresh stack hands back the pushed pair
      and leaves the stack as empty as it started, having been non-empty in
      between. */
  method PushThenPop<T>(b: T, s: T) returns (b': T, s': T, emptyBetween: bool, emptyAfter: bool)
    ensures b' == b && s' == s
    ensures !emptyBetween && emptyAfter
  {
    var st := new OnitamaStack<T>();
    st.Push(b, s);
    emptyBetween := st.IsEmpty();
    b', s' := st.Pop();
    emptyAfter := st.IsEmpty();
  }

  /** Two snapshots come back in reverse order. */
  method LastInFirstOut<T>(b1: T, s1: T, b2: T, s2: T) returns (first: (T, T), second: (T, T))
    ensures first == (b2, s2) && second == (b1, s1)
  {
    var st := new OnitamaStack<T>();
    st.Push(b1, s1);
    st.Push(b2, s2);
    var b, s := st.Pop();
    first := (b, s);
    b, s := st.Pop();
    second := (b, s);
  }
}
