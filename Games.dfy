/**
  OnitamaGame.py: the turn pointer, the legality test, move, undo and the
  winner test over a board and an undo stack. The rules are functions over
  the value `GameState`; the class `OnitamaGame` carries the same state in
  fields and its methods are proved to act as those functions say.
*/
module Games {
  import opened Wrappers
  import opened Pieces
  import opened Styles
  import opened Boards
  import opened Stacks

  /** The game's two registered players, and any other player object
      (or None) that other_player does not recognise. */
  datatype PlayerRef = Player1 | Player2 | NoPlayer

  /** What the undo stack holds: a grid snapshot or a style-list snapshot. */
  datatype StackItem = GridItem(grid: Grid) | StylesItem(styles: seq<Style>)

  /** `size` is the game's own size attribute, which set_board may leave
      different from the board's. */
  datatype GameState = GameState(size: int, board: BoardState, turn: PlayerRef, history: seq<StackItem>)

  /** Refused: move returned False. StyleNotFound: move raised after it had
      already pushed the snapshot and moved the token. */
  datatype MoveOutcome = Moved | Refused | StyleNotFound

  datatype MoveResult = MoveResult(state: GameState, outcome: MoveOutcome)

  // ---------------------------------------------------------------------
  // Players and legality
  // ---------------------------------------------------------------------

  /** other_player */
  function OtherPlayer(p: PlayerRef): (q: PlayerRef)
    ensures p == Player1 <==> q == Player2
    ensures p == Player2 <==> q == Player1
    ensures p == NoPlayer <==> q == NoPlayer
  {
    match p
    case Player1 => Player2
    case Player2 => Player1
    case NoPlayer => NoPlayer
  }

  /** The tokens of the player whose turn it is: player 1 moves M1 and G1,
      anyone else M2 and G2. */
  function Mine(turn: PlayerRef): set<Token> {
    if turn == Player1 then {M1, G1} else {M2, G2}
  }

  /** is_legal_move: both coordinates on the board, the origin holds one of
      the mover's tokens and the destination does not. Nothing about
      styles or distances is checked. */
  predicate IsLegalMove(s: GameState, ro: int, co: int, rd: int, cd: int)
    requires Covers(s.board.grid, s.board.size)
    ensures IsLegalMove(s, ro, co, rd, cd) ==> (ro, co) != (rd, cd) && TokenAt(s.board, ro, co) != Empty
    ensures IsLegalMove(s, ro, co, rd, cd) ==> TokenAt(s.board, rd, cd) != TokenAt(s.board, ro, co)
  {
    && ValidCoordinate(s.board.size, ro, co)
    && ValidCoordinate(s.board.size, rd, cd)
    && TokenAt(s.board, ro, co) in Mine(s.turn)
    && TokenAt(s.board, rd, cd) !in Mine(s.turn)
  }

  // ---------------------------------------------------------------------
  // move
  // ---------------------------------------------------------------------

  /** The index of the last style named `name`: the loop in move keeps
      overwriting its choice and never breaks. */
  function LastNamed(styles: seq<Style>, name: string): (r: Option<nat>)
    ensures r.Some? ==> r.value < |styles| && styles[r.value].name == name
    ensures r.Some? ==> forall k :: r.value < k < |styles| ==> styles[k].name != name
    ensures r.None? ==> forall k :: 0 <= k < |styles| ==> styles[k].name != name
  {
    if styles == [] then None
    else if styles[|styles| - 1].name == name then Some(|styles| - 1)
    else LastNamed(styles[..|styles| - 1], name)
  }

  /** The loop of move that looks a style up by name. */
  method FindStyle(styles: seq<Style>, name: string) returns (r: Option<nat>)
    ensures r == LastNamed(styles, name)
  {
    r := None;
    var i := 0;
    while i < |styles|
      invariant 0 <= i <= |styles|
      invariant r == LastNamed(styles[..i], name)
    {
      assert styles[..i + 1][..i] == styles[..i];
      if styles[i].name == name {
        r := Some(i);
      }
      i := i + 1;
    }
    assert styles[..i] == styles;
  }

  /** What move hands to exchange_style: the list's own style, or None. */
  function ArgFor(styles: seq<Style>, name: string): (a: StyleArg)
    ensures a.Listed? ==> a.index < |styles|
  {
    match LastNamed(styles, name)
    case None => NoStyle
    case Some(i) => Listed(i)
  }

  /** The grid after the origin token is written to the destination and
      the origin is emptied. */
  function Relocate(b: BoardState, ro: int, co: int, rd: int, cd: int): (g: Grid)
    requires Covers(b.grid, b.size)
    requires ValidCoordinate(b.size, ro, co) && ValidCoordinate(b.size, rd, cd)
    ensures Covers(g, b.size)
    ensures |g| == |b.grid| && forall r :: 0 <= r < |g| ==> |g[r]| == |b.grid[r]|
  {
    SetCell(SetCell(b.grid, rd, cd, TokenAt(b, ro, co)), ro, co, Empty)
  }

  /** move: refuse an illegal move; otherwise push the grid and the styles,
      relocate the token, exchange the last style with that name and hand
      the turn over. A name that matches no style makes exchange_style
      raise after the push and the relocation, before the turn changes. */
  function MoveSpec(s: GameState, ro: int, co: int, rd: int, cd: int, name: string): (r: MoveResult)
    requires Covers(s.board.grid, s.board.size)
    ensures r.outcome == Refused <==> !IsLegalMove(s, ro, co, rd, cd)
    ensures r.outcome == Refused ==> r.state == s
    ensures r.state.size == s.size && r.state.board.size == s.board.size
    ensures r.outcome != Refused ==> |r.state.history| == |s.history| + 2
    ensures r.outcome == StyleNotFound ==> r.state.turn == s.turn && r.state.board.styles == s.board.styles
    ensures r.outcome == Moved ==> r.state.turn == OtherPlayer(s.turn)
  {
    if !IsLegalMove(s, ro, co, rd, cd) then MoveResult(s, Refused)
    else
      var history := s.history + [GridItem(s.board.grid), StylesItem(s.board.styles)];
      var grid := Relocate(s.board, ro, co, rd, cd);
      match Exchange(s.board.styles, ArgFor(s.board.styles, name))
      case Raised =>
        MoveResult(GameState(s.size, s.board.(grid := grid), s.turn, history), StyleNotFound)
      case Returned(_, styles, _) =>
        MoveResult(GameState(s.size, BoardState(s.board.size, grid, styles), OtherPlayer(s.turn), history), Moved)
  }

  // ---------------------------------------------------------------------
  // undo
  // ---------------------------------------------------------------------

  /** Snapshots alternate grid, styles, grid, styles, ... */
  predicate HistoryShape(h: seq<StackItem>) {
    |h| % 2 == 0 && forall k :: 0 <= k < |h| ==> (h[k].GridItem? <==> k % 2 == 0)
  }

  /** undo: with a snapshot on the stack, restore its grid and styles and
      hand the turn over; with none, do nothing. */
  function UndoSpec(s: GameState): (r: GameState)
    requires HistoryShape(s.history)
    ensures s.history == [] ==> r == s
    ensures s.history != [] ==> r.history == s.history[..|s.history| - 2] && r.turn == OtherPlayer(s.turn)
    ensures HistoryShape(r.history)
    ensures r.size == s.size && r.board.size == s.board.size
  {
    if s.history == [] then s
    else
      var n := |s.history|;
      GameState(s.size, s.board.(grid := s.history[n - 2].grid, styles := s.history[n - 1].styles),
                OtherPlayer(s.turn), s.history[..n - 2])
  }

  // ---------------------------------------------------------------------
  // get_winner
  // ---------------------------------------------------------------------

  /** `t` is somewhere in the grid, in any row and at any column. */
  predicate Occurs(grid: Grid, t: Token) {
    exists i, j :: 0 <= i < |grid| && 0 <= j < |grid[i]| && grid[i][j] == t
  }

  /** get_winner: player 2 on reaching player 1's throne, player 1 on
      reaching player 2's, then player 2 if G1 was captured, then player 1
      if G2 was; NoPlayer (None) otherwise. The throne column is computed
      from the game's size, the reads are bounds-checked against the board's. */
  function Winner(s: GameState): (w: PlayerRef)
    requires Covers(s.board.grid, s.board.size)
    ensures w == NoPlayer ==> Occurs(s.board.grid, G1) && Occurs(s.board.grid, G2)
    ensures !Occurs(s.board.grid, G1) ==> w == Player2
    ensures Occurs(s.board.grid, G1) && !Occurs(s.board.grid, G2) ==> w == Player1
    ensures w == Player2 ==> TokenAt(s.board, 0, Center(s.size)) == G2 || !Occurs(s.board.grid, G1)
    ensures w == Player1 ==> TokenAt(s.board, s.size - 1, Center(s.size)) == G1 || !Occurs(s.board.grid, G2)
  {
    var c := Center(s.size);
    if TokenAt(s.board, 0, c) == G2 then Player2
    else if TokenAt(s.board, s.size - 1, c) == G1 then Player1
    else if !Occurs(s.board.grid, G1) then Player2
    else if !Occurs(s.board.grid, G2) then Player1
    else NoPlayer
  }

  /** The flattened board get_winner builds, row after row. */
  function Flatten(grid: Grid): seq<Token> {
    if grid == [] then [] else Flatten(grid[..|grid| - 1]) + grid[|grid| - 1]
  }

  /** A token is in the flattened board exactly when it occurs in the grid. */
  lemma {:induction false} FlattenOccurs(grid: Grid, t: Token)
    ensures t in Flatten(grid) <==> Occurs(grid, t)
  {
    if grid != [] {
      var init := grid[..|grid| - 1];
      var last := grid[|grid| - 1];
      FlattenOccurs(init, t);
      if t in Flatten(grid) {
        if t in Flatten(init) {
          var i, j :| 0 <= i < |init| && 0 <= j < |init[i]| && init[i][j] == t;
          assert grid[i][j] == t;
        } else {
          var j :| 0 <= j < |last| && last[j] == t;
          assert grid[|grid| - 1][j] == t;
        }
      }
      if Occurs(grid, t) {
        var i, j :| 0 <= i < |grid| && 0 <= j < |grid[i]| && grid[i][j] == t;
        if i < |grid| - 1 {
          assert init[i][j] == t;
        } else {
          assert last[j] == t;
        }
      }
    }
  }

  // ---------------------------------------------------------------------
  // The invariant and the starting position
  // ---------------------------------------------------------------------

  /** Every grid snapshot covers the board's size and every style snapshot
      has the standard owners. */
  predicate HistoryFits(h: seq<StackItem>, size: int) {
    forall k :: 0 <= k < |h| ==>
      (h[k].GridItem? ==> Covers(h[k].grid, size)) &&
      (h[k].StylesItem? ==> StandardOwners(h[k].styles))
  }

  /** Enough for move and undo to be defined: the grid covers the board
      and the history is made of whole snapshots. */
  predicate Wf(s: GameState) {
    Covers(s.board.grid, s.board.size) && HistoryShape(s.history)
  }

  /** What every operation of the game keeps. */
  predicate Inv(s: GameState) {
    && Wf(s)
    && StandardOwners(s.board.styles)
    && HistoryFits(s.history, s.board.size)
  }

  /** OnitamaGame(size): the standard layout, the starting styles,
      player 1 to move, no history. */
  function Initial(size: int): GameState {
    GameState(size, BoardState(size, InitialGrid(size), StartingStyles()), Player1, [])
  }

  // ---------------------------------------------------------------------
  // The game object
  // ---------------------------------------------------------------------

  class OnitamaGame {
    var size: int
    var board: Board
    var whoseTurn: PlayerRef
    const stack: OnitamaStack<StackItem>

    function State(): GameState
      reads this, board, stack
    {
      GameState(size, board.State(), whoseTurn, stack.items)
    }

    ghost predicate Valid()
      reads this, board, stack
    {
      Inv(State())
    }

    /** OnitamaGame.__init__ (with an odd size, as the constructor demands). */
    constructor (size: int)
      requires size % 2 != 0
      ensures Valid() && State() == Initial(size)
      ensures fresh(board) && fresh(stack)
    {
      this.size := size;
      board := new Board(size, None);
      whoseTurn := Player1;
      stack := new OnitamaStack<StackItem>();
      new;
      InitialLayout(size);
      StartingStylesSpec();
    }

    /** move */
    method Move(ro: int, co: int, rd: int, cd: int, name: string) returns (out: MoveOutcome)
      requires Valid()
      modifies this, board, stack
      ensures board == old(board)
      ensures MoveResult(State(), out) == MoveSpec(old(State()), ro, co, rd, cd, name)
      ensures Valid()
    {
      if !IsLegalMove(State(), ro, co, rd, cd) {
        return Refused;
      }
      ghost var before := State();
      stack.Push(GridItem(board.grid), StylesItem(board.styles));
      var found := FindStyle(board.styles, name);
      var arg := if found.Some? then Listed(found.value) else NoStyle;
      var t := TokenAt(board.State(), ro, co);
      board.SetToken(rd, cd, t);
      board.SetToken(ro, co, Empty);
      var ex := board.ExchangeStyle(arg);
      MoveKeepsInv(before, ro, co, rd, cd, name);
      if ex.Raised? {
        return StyleNotFound;
      }
      whoseTurn := OtherPlayer(whoseTurn);
      out := Moved;
    }

    /** undo */
    method Undo()
      requires Valid()
      modifies this, board, stack
      ensures board == old(board)
      ensures State() == UndoSpec(old(State()))
      ensures Valid()
    {
      ghost var before := State();
      var e := stack.IsEmpty();
      if !e {
        var g, st := stack.Pop();
        board.SetBoard(g.grid);
        board.styles := st.styles;
        whoseTurn := OtherPlayer(whoseTurn);
      }
      UndoKeepsInv(before);
    }

    /** The rows of the grid joined into one list, as get_winner builds it. */
    static method FlattenRows(grid: Grid) returns (flat: seq<Token>)
      ensures flat == Flatten(grid)
    {
      flat := [];
      var i := 0;
      while i < |grid|
        invariant 0 <= i <= |grid|
        invariant flat == Flatten(grid[..i])
      {
        var row := grid[i];
        var j := 0;
        while j < |row|
          invariant 0 <= j <= |row|
          invariant flat == Flatten(grid[..i]) + row[..j]
        {
          flat := flat + [row[j]];
          j := j + 1;
        }
        assert grid[..i + 1][..i] == grid[..i];
        assert row[..j] == row;
        i := i + 1;
      }
      assert grid[..i] == grid;
    }

    /** get_winner */
    method GetWinner() returns (w: PlayerRef)
      requires Valid()
      ensures w == Winner(State())
    {
      var c := Center(size);
      if TokenAt(board.State(), 0, c) == G2 {
        return Player2;
      }
      if TokenAt(board.State(), size - 1, c) == G1 {
        return Player1;
      }
      var grid := board.grid;
      var flat := FlattenRows(grid);
      FlattenOccurs(grid, G1);
      FlattenOccurs(grid, G2);
      if G1 !in flat {
        return Player2;
      }
      if G2 !in flat {
        return Player1;
      }
      return NoPlayer;
    }

    /** set_board: the game's size is assigned first; an even size then
        makes the board constructor fail and the old board stays. A new
        board starts again from the starting styles; the history is kept. */
    method SetBoard(newSize: int, g: Grid) returns (ok: bool)
      requires Valid()
      requires newSize % 2 != 0 ==> Covers(g, newSize) && HistoryFits(stack.items, newSize)
      modifies this
      ensures size == newSize && whoseTurn == old(whoseTurn)
      ensures ok <==> newSize % 2 != 0
      ensures ok ==> fresh(board) && board.State() == BoardState(newSize, g, StartingStyles())
      ensures !ok ==> board == old(board)
      ensures Valid()
    {
      size := newSize;
      var b := Board.Create(newSize, Some(g));
      if b == null {
        return false;
      }
      board := b;
      StartingStylesSpec();
      ok := true;
    }
  }

  // ---------------------------------------------------------------------
  // What move and undo keep
  // ---------------------------------------------------------------------

  /** Pushing a snapshot keeps the history in whole snapshots. */
  lemma PushKeepsShape(h: seq<StackItem>, g: Grid, styles: seq<Style>)
    requires HistoryShape(h)
    ensures HistoryShape(h + [GridItem(g), StylesItem(styles)])
  {
    var h' := h + [GridItem(g), StylesItem(styles)];
    forall k | 0 <= k < |h'|
      ensures h'[k].GridItem? <==> k % 2 == 0
    {
      if k < |h| {
        assert h'[k] == h[k];
      }
    }
  }

  /** Pushing a covering grid and standard styles keeps the history fitting. */
  lemma PushKeepsFits(h: seq<StackItem>, g: Grid, styles: seq<Style>, size: int)
    requires HistoryFits(h, size) && Covers(g, size) && StandardOwners(styles)
    ensures HistoryFits(h + [GridItem(g), StylesItem(styles)], size)
  {
    var h' := h + [GridItem(g), StylesItem(styles)];
    forall k | 0 <= k < |h'|
      ensures h'[k].GridItem? ==> Covers(h'[k].grid, size)
      ensures h'[k].StylesItem? ==> StandardOwners(h'[k].styles)
    {
      if k < |h| {
        assert h'[k] == h[k];
      }
    }
  }

  /** Every outcome of move, including the partial one, keeps the invariant. */
  lemma MoveKeepsInv(s: GameState, ro: int, co: int, rd: int, cd: int, name: string)
    requires Inv(s)
    ensures Inv(MoveSpec(s, ro, co, rd, cd, name).state)
  {
    if IsLegalMove(s, ro, co, rd, cd) {
      var arg := ArgFor(s.board.styles, name);
      if arg.Listed? {
        ExchangeKeepsStandardOwners(s.board.styles, arg.index);
      }
      PushKeepsShape(s.history, s.board.grid, s.board.styles);
      PushKeepsFits(s.history, s.board.grid, s.board.styles, s.board.size);
    }
  }

  lemma MoveKeepsWf(s: GameState, ro: int, co: int, rd: int, cd: int, name: string)
    requires Wf(s)
    ensures Wf(MoveSpec(s, ro, co, rd, cd, name).state)
  {
    if IsLegalMove(s, ro, co, rd, cd) {
      PushKeepsShape(s.history, s.board.grid, s.board.styles);
    }
  }

  lemma UndoKeepsShape(s: GameState)
    requires HistoryShape(s.history)
    ensures HistoryShape(UndoSpec(s).history)
  {
    if s.history != [] {
      var h := UndoSpec(s).history;
      forall k | 0 <= k < |h|
        ensures h[k].GridItem? <==> k % 2 == 0
      {
        assert h[k] == s.history[k];
      }
    }
  }

  /** undo keeps the invariant. */
  lemma UndoKeepsInv(s: GameState)
    requires Inv(s)
    ensures Inv(UndoSpec(s))
  {
    if s.history != [] {
      var n := |s.history|;
      assert s.history[n - 2].GridItem? && s.history[n - 1].StylesItem?;
      var h := UndoSpec(s).history;
      forall k | 0 <= k < |h|
        ensures h[k].GridItem? <==> k % 2 == 0
        ensures h[k].GridItem? ==> Covers(h[k].grid, s.board.size)
        ensures h[k].StylesItem? ==> StandardOwners(h[k].styles)
      {
        assert h[k] == s.history[k];
      }
    }
  }
}
