/**
  Properties of the game rules in Games: what one move and one undo do,
  that they undo each other, that turns alternate over a whole game, the
  starting position, and the scenarios of OnitamaGame.py's doctests.
*/
module GameProperties {
  import opened Wrappers
  import opened Pieces
  import opened Styles
  import opened Boards
  import opened Games

  lemma OtherPlayerInvolution(p: PlayerRef)
    ensures OtherPlayer(OtherPlayer(p)) == p
  {
  }

  // ---------------------------------------------------------------------
  // One move, one undo
  // ---------------------------------------------------------------------

  /** An illegal move changes nothing. A legal one pushes the grid and the
      styles as they were, writes the origin token to the destination,
      empties the origin and leaves every other cell alone; it raises
      exactly when no style has the given name, and otherwise exchanges
      that style and hands the turn to the other player. */
  lemma MoveEffects(s: GameState, ro: int, co: int, rd: int, cd: int, name: string)
    requires Inv(s)
    ensures var r := MoveSpec(s, ro, co, rd, cd, name);
      && (r.outcome == Refused <==> !IsLegalMove(s, ro, co, rd, cd))
      && (r.outcome == Refused ==> r.state == s)
      && (r.outcome == StyleNotFound <==>
            IsLegalMove(s, ro, co, rd, cd) && LastNamed(s.board.styles, name).None?)
    ensures var r := MoveSpec(s, ro, co, rd, cd, name);
      r.outcome != Refused ==>
        && r.state.history == s.history + [GridItem(s.board.grid), StylesItem(s.board.styles)]
        && r.state.size == s.size && r.state.board.size == s.board.size
        && (ro, co) != (rd, cd)
        && TokenAt(r.state.board, rd, cd) == TokenAt(s.board, ro, co)
        && TokenAt(r.state.board, ro, co) == Empty
        && (forall i, j :: (i, j) != (ro, co) && (i, j) != (rd, cd) ==>
              TokenAt(r.state.board, i, j) == TokenAt(s.board, i, j))
    ensures var r := MoveSpec(s, ro, co, rd, cd, name);
      r.outcome == StyleNotFound ==> r.state.turn == s.turn && r.state.board.styles == s.board.styles
    ensures var r := MoveSpec(s, ro, co, rd, cd, name);
      r.outcome == Moved ==>
        && r.state.turn == OtherPlayer(s.turn)
        && r.state.board.styles == Exchange(s.board.styles, Listed(LastNamed(s.board.styles, name).value)).styles
  {
    var r := MoveSpec(s, ro, co, rd, cd, name);
    OneUnowned(s.board.styles);
    if IsLegalMove(s, ro, co, rd, cd) {
      var mid := s.board.(grid := SetCell(s.board.grid, rd, cd, TokenAt(s.board, ro, co)));
      SetThenGet(s.board, rd, cd, TokenAt(s.board, ro, co));
      SetThenGet(mid, ro, co, Empty);
      assert r.state.board.grid == mid.(grid := SetCell(mid.grid, ro, co, Empty)).grid;
    }
  }

  /** move followed by undo restores the game exactly: grid, styles, turn
      and history. */
  lemma MoveThenUndo(s: GameState, ro: int, co: int, rd: int, cd: int, name: string)
    requires Wf(s)
    requires MoveSpec(s, ro, co, rd, cd, name).outcome == Moved
    ensures HistoryShape(MoveSpec(s, ro, co, rd, cd, name).state.history)
    ensures UndoSpec(MoveSpec(s, ro, co, rd, cd, name).state) == s
  {
    var after := MoveSpec(s, ro, co, rd, cd, name).state;
    MoveKeepsWf(s, ro, co, rd, cd, name);
    var n := |after.history|;
    assert after.history[..n - 2] == s.history;
  }

  /** After a move that raised for want of a style, undo restores the board
      but still hands the turn over, although the move never did: the
      player who was to move loses the turn. */
  lemma StyleNotFoundThenUndo(s: GameState, ro: int, co: int, rd: int, cd: int, name: string)
    requires Wf(s)
    requires MoveSpec(s, ro, co, rd, cd, name).outcome == StyleNotFound
    ensures HistoryShape(MoveSpec(s, ro, co, rd, cd, name).state.history)
    ensures UndoSpec(MoveSpec(s, ro, co, rd, cd, name).state) == s.(turn := OtherPlayer(s.turn))
    ensures s.turn != NoPlayer ==> UndoSpec(MoveSpec(s, ro, co, rd, cd, name).state).turn != s.turn
  {
    var after := MoveSpec(s, ro, co, rd, cd, name).state;
    MoveKeepsWf(s, ro, co, rd, cd, name);
    var n := |after.history|;
    assert after.history[..n - 2] == s.history;
  }

  /** undo on an empty history does nothing; otherwise it drops one
      snapshot, restores its grid and styles and hands the turn over. */
  lemma UndoEffects(s: GameState)
    requires Inv(s)
    ensures s.history == [] ==> UndoSpec(s) == s
    ensures s.history != [] ==>
      var n := |s.history|;
      && n >= 2
      && UndoSpec(s).history == s.history[..n - 2]
      && [GridItem(UndoSpec(s).board.grid), StylesItem(UndoSpec(s).board.styles)] == s.history[n - 2..]
      && UndoSpec(s).turn == OtherPlayer(s.turn)
      && UndoSpec(s).size == s.size && UndoSpec(s).board.size == s.board.size
  {
    if s.history != [] {
      var n := |s.history|;
      assert s.history[n - 2].GridItem? && s.history[n - 1].StylesItem?;
    }
  }

  // ---------------------------------------------------------------------
  // Grandmasters
  // ---------------------------------------------------------------------

  /** No two cells of the grid hold `t`. */
  predicate AtMostOne(grid: Grid, t: Token) {
    forall i, j, k, l ::
      && 0 <= i < |grid| && 0 <= j < |grid[i]| && 0 <= k < |grid| && 0 <= l < |grid[k]|
      && grid[i][j] == t && grid[k][l] == t
      ==> i == k && j == l
  }

  /** Each player has at most one grandmaster on the board. */
  predicate SingleMasters(grid: Grid) {
    AtMostOne(grid, G1) && AtMostOne(grid, G2)
  }

  /** ... on the board and in every grid snapshot that undo can restore. */
  predicate SingleMastersThroughout(s: GameState) {
    && SingleMasters(s.board.grid)
    && forall k :: 0 <= k < |s.history| && s.history[k].GridItem? ==> SingleMasters(s.history[k].grid)
  }

  /** The cell-by-cell effect of relocating a token. */
  lemma RelocateCells(b: BoardState, ro: int, co: int, rd: int, cd: int)
    requires Covers(b.grid, b.size)
    requires ValidCoordinate(b.size, ro, co) && ValidCoordinate(b.size, rd, cd)
    ensures var g := Relocate(b, ro, co, rd, cd);
      forall i, j :: 0 <= i < |g| && 0 <= j < |g[i]| ==>
        g[i][j] == if (i, j) == (ro, co) then Empty else if (i, j) == (rd, cd) then b.grid[ro][co] else b.grid[i][j]
  {
  }

  /** A relocation neither duplicates nor creates a token other than Empty:
      the origin's token moves to the destination, whose token is
      overwritten. */
  lemma RelocateKeepsAtMostOne(b: BoardState, ro: int, co: int, rd: int, cd: int, t: Token)
    requires Covers(b.grid, b.size)
    requires ValidCoordinate(b.size, ro, co) && ValidCoordinate(b.size, rd, cd)
    requires t != Empty
    ensures AtMostOne(b.grid, t) ==> AtMostOne(Relocate(b, ro, co, rd, cd), t)
    ensures !Occurs(b.grid, t) ==> !Occurs(Relocate(b, ro, co, rd, cd), t)
  {
    var g := Relocate(b, ro, co, rd, cd);
    RelocateCells(b, ro, co, rd, cd);
    if AtMostOne(b.grid, t) {
      forall i, j, k, l |
        && 0 <= i < |g| && 0 <= j < |g[i]| && 0 <= k < |g| && 0 <= l < |g[k]|
        && g[i][j] == t && g[k][l] == t
        ensures i == k && j == l
      {
        var (si, sj) := if (i, j) == (rd, cd) then (ro, co) else (i, j);
        var (sk, sl) := if (k, l) == (rd, cd) then (ro, co) else (k, l);
        assert b.grid[si][sj] == t && b.grid[sk][sl] == t;
      }
    }
    if Occurs(g, t) {
      var i, j :| 0 <= i < |g| && 0 <= j < |g[i]| && g[i][j] == t;
      if (i, j) == (rd, cd) {
        assert b.grid[ro][co] == t;
      } else {
        assert b.grid[i][j] == t;
      }
    }
  }

  /** move never adds a grandmaster: one that was unique stays unique, one
      that was captured stays captured. */
  lemma MoveKeepsSingleMasters(s: GameState, ro: int, co: int, rd: int, cd: int, name: string, t: Token)
    requires Covers(s.board.grid, s.board.size)
    requires t == G1 || t == G2
    ensures var g := MoveSpec(s, ro, co, rd, cd, name).state.board.grid;
      && (AtMostOne(s.board.grid, t) ==> AtMostOne(g, t))
      && (!Occurs(s.board.grid, t) ==> !Occurs(g, t))
  {
    if IsLegalMove(s, ro, co, rd, cd) {
      RelocateKeepsAtMostOne(s.board, ro, co, rd, cd, t);
    }
  }

  /** Neither move nor undo can give a player a second grandmaster, on the
      board or in a snapshot. */
  lemma MoveKeepsSingleMastersThroughout(s: GameState, ro: int, co: int, rd: int, cd: int, name: string)
    requires Covers(s.board.grid, s.board.size) && SingleMastersThroughout(s)
    ensures SingleMastersThroughout(MoveSpec(s, ro, co, rd, cd, name).state)
  {
    var r := MoveSpec(s, ro, co, rd, cd, name).state;
    MoveKeepsSingleMasters(s, ro, co, rd, cd, name, G1);
    MoveKeepsSingleMasters(s, ro, co, rd, cd, name, G2);
    if r.history != s.history {
      var n := |s.history|;
      forall k | 0 <= k < |r.history| && r.history[k].GridItem?
        ensures SingleMasters(r.history[k].grid)
      {
        if k < n {
          assert r.history[k] == r.history[..n][k] == s.history[k];
        } else {
          assert r.history[k] == GridItem(s.board.grid);
        }
      }
    }
  }

  lemma UndoKeepsSingleMastersThroughout(s: GameState)
    requires HistoryShape(s.history) && SingleMastersThroughout(s)
    ensures SingleMastersThroughout(UndoSpec(s))
  {
    if s.history != [] {
      var n := |s.history|;
      assert s.history[n - 2].GridItem?;
      var r := UndoSpec(s);
      forall k | 0 <= k < |r.history| && r.history[k].GridItem?
        ensures SingleMasters(r.history[k].grid)
      {
        assert r.history[k] == s.history[k];
      }
    }
  }

  /** The starting layout has at most one grandmaster per player, whatever
      the size. */
  lemma InitialSingleMasters(size: int)
    ensures SingleMastersThroughout(Initial(size))
  {
    var g := InitialGrid(size);
    forall i, j | 0 <= i < |g| && 0 <= j < |g[i]| && g[i][j] == G1
      ensures i == 0 && j == Center(size)
    {
      assert g[i][j] == LayoutCell(size, i, j);
    }
    forall i, j | 0 <= i < |g| && 0 <= j < |g[i]| && g[i][j] == G2
      ensures i == size - 1 && j == Center(size)
    {
      assert g[i][j] == LayoutCell(size, i, j);
    }
  }

  // ---------------------------------------------------------------------
  // A whole game
  // ---------------------------------------------------------------------

  datatype MoveArgs = MoveArgs(ro: int, co: int, rd: int, cd: int, name: string)

  /** Where a sequence of move calls ends, with how many of them moved and
      how many raised (each of those pushed a snapshot too). */
  datatype PlayResult = PlayResult(state: GameState, moved: nat, raised: nat)

  function Play(s: GameState, ms: seq<MoveArgs>): (r: PlayResult)
    requires Wf(s)
    ensures Wf(r.state)
    ensures |r.state.history| == |s.history| + 2 * (r.moved + r.raised)
    decreases |ms|
  {
    if ms == [] then PlayResult(s, 0, 0)
    else
      var m := ms[0];
      var step := MoveSpec(s, m.ro, m.co, m.rd, m.cd, m.name);
      MoveKeepsWf(s, m.ro, m.co, m.rd, m.cd, m.name);
      var rest := Play(step.state, ms[1..]);
      PlayResult(rest.state,
                 rest.moved + (if step.outcome == Moved then 1 else 0),
                 rest.raised + (if step.outcome == StyleNotFound then 1 else 0))
  }

  /** `n` undo calls in a row. */
  function UndoTimes(s: GameState, n: nat): (r: GameState)
    requires HistoryShape(s.history)
    ensures HistoryShape(r.history)
  {
    if n == 0 then s
    else
      var p := UndoTimes(s, n - 1);
      UndoKeepsShape(p);
      UndoSpec(p)
  }

  /** Play unfolded once: the first call, then the rest from where it left the game. */
  lemma PlayFirst(s: GameState, ms: seq<MoveArgs>)
    requires Wf(s) && ms != []
    ensures var step := MoveSpec(s, ms[0].ro, ms[0].co, ms[0].rd, ms[0].cd, ms[0].name);
      && Wf(step.state)
      && var rest := Play(step.state, ms[1..]);
      && Play(s, ms) == PlayResult(rest.state,
                          rest.moved + (if step.outcome == Moved then 1 else 0),
                          rest.raised + (if step.outcome == StyleNotFound then 1 else 0))
  {
    var m := ms[0];
    MoveKeepsWf(s, m.ro, m.co, m.rd, m.cd, m.name);
  }

  /** One move call: the turn changes exactly when the move went through. */
  lemma StepTurn(s: GameState, m: MoveArgs)
    requires Covers(s.board.grid, s.board.size)
    ensures var step := MoveSpec(s, m.ro, m.co, m.rd, m.cd, m.name);
      step.state.turn == if step.outcome == Moved then OtherPlayer(s.turn) else s.turn
  {
  }

  /** Turns alternate: the turn changes with every move that went through
      and with no other call. */
  lemma {:induction false} TurnsAlternate(s: GameState, ms: seq<MoveArgs>)
    requires Wf(s)
    ensures Play(s, ms).state.turn == if Play(s, ms).moved % 2 == 0 then s.turn else OtherPlayer(s.turn)
    decreases |ms|
  {
    if ms != [] {
      var m := ms[0];
      var step := MoveSpec(s, m.ro, m.co, m.rd, m.cd, m.name);
      PlayFirst(s, ms);
      TurnsAlternate(step.state, ms[1..]);
      StepTurn(s, m);
      OtherPlayerInvolution(s.turn);
    }
  }

  /** When no move raised, undoing once per move that went through brings
      the game back to where it started. */
  lemma {:induction false} PlayThenUndoAll(s: GameState, ms: seq<MoveArgs>)
    requires Wf(s)
    requires Play(s, ms).raised == 0
    ensures UndoTimes(Play(s, ms).state, Play(s, ms).moved) == s
    decreases |ms|
  {
    if ms != [] {
      var m := ms[0];
      var step := MoveSpec(s, m.ro, m.co, m.rd, m.cd, m.name);
      MoveKeepsWf(s, m.ro, m.co, m.rd, m.cd, m.name);
      var rest := Play(step.state, ms[1..]);
      assert Play(s, ms) == PlayResult(rest.state,
                 rest.moved + (if step.outcome == Moved then 1 else 0),
                 rest.raised + (if step.outcome == StyleNotFound then 1 else 0));
      PlayThenUndoAll(step.state, ms[1..]);
      if step.outcome == Moved {
        MoveThenUndo(s, m.ro, m.co, m.rd, m.cd, m.name);
      }
    }
  }

  // ---------------------------------------------------------------------
  // The starting position
  // ---------------------------------------------------------------------

  /** A new game satisfies the invariant, player 1 is to move, the history
      is empty, and on a board of size 3 or more nobody has won. */
  lemma InitialState(size: int)
    requires size % 2 != 0
    ensures Inv(Initial(size))
    ensures Initial(size).turn == Player1 && Initial(size).history == []
    ensures size >= 3 ==> Winner(Initial(size)) == NoPlayer
  {
    InitialLayout(size);
    StartingStylesSpec();
    if size >= 3 {
      InitialGrandmasters(size);
      var g := InitialGrid(size);
      assert g[0][size / 2] == G1;
      assert g[size - 1][size / 2] == G2;
    }
  }

  // ---------------------------------------------------------------------
  // get_winner
  // ---------------------------------------------------------------------

  /** The winner test in the order the rules are usually stated: player 2
      wins by reaching player 1's throne or by capturing G1, player 1 by
      reaching player 2's throne or by capturing G2. */
  function WinnerByRule(s: GameState): PlayerRef
    requires Covers(s.board.grid, s.board.size)
  {
    var c := Center(s.size);
    if TokenAt(s.board, 0, c) == G2 || !Occurs(s.board.grid, G1) then Player2
    else if TokenAt(s.board, s.size - 1, c) == G1 || !Occurs(s.board.grid, G2) then Player1
    else NoPlayer
  }

  /** The order of get_winner's tests does not matter: a G1 on player 2's
      throne is a G1 on the board, so no state has a G1 there and no G1. */
  lemma WinnerOrderIrrelevant(s: GameState)
    requires Covers(s.board.grid, s.board.size)
    ensures Winner(s) == WinnerByRule(s)
  {
    var c := Center(s.size);
    if TokenAt(s.board, s.size - 1, c) == G1 {
      assert s.board.grid[s.size - 1][c] == G1;
    }
  }

  // ---------------------------------------------------------------------
  // Scenarios from the doctests
  // ---------------------------------------------------------------------

  /** A move changes only owners: every style keeps its place, name and
      moves. */
  lemma MoveKeepsCards(s: GameState, ro: int, co: int, rd: int, cd: int, name: string)
    requires Covers(s.board.grid, s.board.size)
    ensures var after := MoveSpec(s, ro, co, rd, cd, name).state.board.styles;
      && |after| == |s.board.styles|
      && forall k :: 0 <= k < |after| ==>
           after[k].name == s.board.styles[k].name && after[k].moves == s.board.styles[k].moves
  {
    var arg := ArgFor(s.board.styles, name);
    if IsLegalMove(s, ro, co, rd, cd) && arg.Listed? {
      ExchangeListed(s.board.styles, arg.index);
    }
  }

  /** A 5 by 5 game in its starting position, whoever is to move. */
  predicate Start5(s: GameState) {
    && Inv(s) && s.size == 5 && s.board.size == 5 && s.history == []
    && |s.board.grid| == 5 && (forall i :: 0 <= i < 5 ==> |s.board.grid[i]| == 5)
    && (forall i, j :: 0 <= i < 5 && 0 <= j < 5 ==> s.board.grid[i][j] == LayoutCell(5, i, j))
    && Owners(s.board.styles) == [G1, G1, G2, G2, Empty]
    && LastNamed(s.board.styles, "crab") == Some(0)
    && LastNamed(s.board.styles, "horse") == Some(1)
    && LastNamed(s.board.styles, "mantis") == Some(2)
  }

  /** The starting styles: crab, horse and mantis are found at 0, 1 and 2. */
  lemma StartingNames()
    ensures LastNamed(StartingStyles(), "crab") == Some(0)
    ensures LastNamed(StartingStyles(), "horse") == Some(1)
    ensures LastNamed(StartingStyles(), "mantis") == Some(2)
  {
    StartingStylesSpec();
    var st := StartingStyles();
    assert st[4].name != "crab" && st[3].name != "crab" && st[2].name != "crab" && st[1].name != "crab";
    assert st[4].name != "horse" && st[3].name != "horse" && st[2].name != "horse";
    assert st[4].name != "mantis" && st[3].name != "mantis";
  }

  lemma Initial5()
    ensures Start5(Initial(5)) && Initial(5).turn == Player1
  {
    InitialState(5);
    InitialLayout(5);
    StartingStylesSpec();
    StartingNames();
  }

  /** A grid exactly `size` by `size` holds a token iff some valid cell does. */
  lemma OccursOnBoard(b: BoardState, t: Token)
    requires |b.grid| == b.size && forall i :: 0 <= i < |b.grid| ==> |b.grid[i]| == b.size
    ensures Occurs(b.grid, t) <==> exists i, j :: 0 <= i < b.size && 0 <= j < b.size && TokenAt(b, i, j) == t
  {
    if Occurs(b.grid, t) {
      var i, j :| 0 <= i < |b.grid| && 0 <= j < |b.grid[i]| && b.grid[i][j] == t;
      assert TokenAt(b, i, j) == t;
    }
  }

  /** move keeps the sizes and the shape of the grid. */
  lemma MoveKeepsShape(s: GameState, ro: int, co: int, rd: int, cd: int, name: string)
    requires Covers(s.board.grid, s.board.size)
    ensures var g := MoveSpec(s, ro, co, rd, cd, name).state.board.grid;
      && MoveSpec(s, ro, co, rd, cd, name).state.size == s.size
      && MoveSpec(s, ro, co, rd, cd, name).state.board.size == s.board.size
      && |g| == |s.board.grid| && forall i :: 0 <= i < |g| ==> |g[i]| == |s.board.grid[i]|
  {
  }

  /** A 5 by 5 game whose grid is exactly 5 by 5. */
  predicate Board5(s: GameState) {
    && Inv(s) && s.size == 5 && s.board.size == 5
    && |s.board.grid| == 5 && (forall i :: 0 <= i < 5 ==> |s.board.grid[i]| == 5)
  }

  /** The cells after player 1's grandmaster stepped from (0, 2) to (1, 2). */
  function CrabCell(i: int, j: int): Token {
    if (i, j) == (1, 2) then G1 else if (i, j) == (0, 2) then Empty else LayoutCell(5, i, j)
  }

  /** The opening move of the get_winner doctests: it succeeds, keeps a
      5 by 5 game and hands the turn to player 2 ... */
  lemma CrabFirstMoved(s0: GameState)
    requires Start5(s0) && s0.turn == Player1
    ensures var r1 := MoveSpec(s0, 0, 2, 1, 2, "crab");
      && r1.outcome == Moved && Board5(r1.state) && r1.state.turn == Player2
      && LastNamed(r1.state.board.styles, "mantis").Some?
  {
    var r1 := MoveSpec(s0, 0, 2, 1, 2, "crab");
    assert TokenAt(s0.board, 0, 2) == G1 && TokenAt(s0.board, 1, 2) == Empty;
    assert IsLegalMove(s0, 0, 2, 1, 2);
    OneUnowned(s0.board.styles);
    MoveKeepsInv(s0, 0, 2, 1, 2, "crab");
    MoveKeepsCards(s0, 0, 2, 1, 2, "crab");
    MoveKeepsShape(s0, 0, 2, 1, 2, "crab");
    assert r1.state.board.styles[2].name == "mantis";
  }

  /** ... and moves G1 from (0, 2) to (1, 2). */
  lemma CrabFirstCells(s0: GameState)
    requires Start5(s0) && s0.turn == Player1
    ensures forall i, j :: 0 <= i < 5 && 0 <= j < 5 ==>
              TokenAt(MoveSpec(s0, 0, 2, 1, 2, "crab").state.board, i, j) == CrabCell(i, j)
  {
    var r1 := MoveSpec(s0, 0, 2, 1, 2, "crab");
    assert TokenAt(s0.board, 0, 2) == G1 && TokenAt(s0.board, 1, 2) == Empty;
    MoveEffects(s0, 0, 2, 1, 2, "crab");
    forall i, j | 0 <= i < 5 && 0 <= j < 5
      ensures TokenAt(r1.state.board, i, j) == CrabCell(i, j)
    {
      assert TokenAt(s0.board, i, j) == LayoutCell(5, i, j);
    }
  }

  lemma CrabFirst(s0: GameState)
    requires Start5(s0) && s0.turn == Player1
    ensures var r1 := MoveSpec(s0, 0, 2, 1, 2, "crab");
      && r1.outcome == Moved && Board5(r1.state) && r1.state.turn == Player2
      && (forall i, j :: 0 <= i < 5 && 0 <= j < 5 ==> TokenAt(r1.state.board, i, j) == CrabCell(i, j))
      && LastNamed(r1.state.board.styles, "mantis").Some?
  {
    CrabFirstMoved(s0);
    CrabFirstCells(s0);
  }

  /** Player 2's answer: the grandmaster leaves (4, 2) for a cell of rows
      0 to 3 with the mantis. */
  lemma MantisSecond(s1: GameState, rd: int, cd: int)
    requires Board5(s1) && s1.turn == Player2
    requires forall i, j :: 0 <= i < 5 && 0 <= j < 5 ==> TokenAt(s1.board, i, j) == CrabCell(i, j)
    requires LastNamed(s1.board.styles, "mantis").Some?
    requires 0 <= rd < 4 && 0 <= cd < 5
    ensures var r2 := MoveSpec(s1, 4, 2, rd, cd, "mantis");
      && r2.outcome == Moved && Board5(r2.state) && r2.state.turn == Player1
      && (forall i, j :: 0 <= i < 5 && 0 <= j < 5 ==>
            TokenAt(r2.state.board, i, j) ==
              if (i, j) == (rd, cd) then G2 else if (i, j) == (4, 2) then Empty else CrabCell(i, j))
      && LastNamed(r2.state.board.styles, "mantis").Some?
  {
    var r2 := MoveSpec(s1, 4, 2, rd, cd, "mantis");
    assert TokenAt(s1.board, 4, 2) == G2;
    assert TokenAt(s1.board, rd, cd) == CrabCell(rd, cd);
    MoveEffects(s1, 4, 2, rd, cd, "mantis");
    MoveKeepsInv(s1, 4, 2, rd, cd, "mantis");
    MoveKeepsCards(s1, 4, 2, rd, cd, "mantis");
    MoveKeepsShape(s1, 4, 2, rd, cd, "mantis");
    var k := LastNamed(s1.board.styles, "mantis").value;
    assert r2.state.board.styles[k].name == "mantis";
  }

  /** get_winner's first doctest: player 2's grandmaster reaches player 1's
      throne. */
  lemma ThroneWin()
    ensures Wf(Initial(5))
    ensures var r1 := MoveSpec(Initial(5), 0, 2, 1, 2, "crab");
      && r1.outcome == Moved
      && var r2 := MoveSpec(r1.state, 4, 2, 0, 2, "mantis");
      && r2.outcome == Moved
      && Winner(r2.state) == Player2
  {
    Initial5();
    CrabFirst(Initial(5));
    var s1 := MoveSpec(Initial(5), 0, 2, 1, 2, "crab").state;
    MantisSecond(s1, 0, 2);
  }

  /** get_winner's second doctest: player 2 captures player 1's grandmaster. */
  lemma CaptureWinFrom(s0: GameState)
    requires Start5(s0) && s0.turn == Player1
    ensures var r1 := MoveSpec(s0, 0, 2, 1, 2, "crab");
      && r1.outcome == Moved
      && var r2 := MoveSpec(r1.state, 4, 2, 1, 2, "mantis");
      && r2.outcome == Moved
      && Winner(r2.state) == Player2
  {
    CrabFirst(s0);
    var s1 := MoveSpec(s0, 0, 2, 1, 2, "crab").state;
    MantisSecond(s1, 1, 2);
    var s2 := MoveSpec(s1, 4, 2, 1, 2, "mantis").state;
    CapturedBoard(s2.board);
  }

  /** The board after the capture on (1, 2) holds no G1. */
  lemma CapturedBoard(b: BoardState)
    requires b.size == 5 && |b.grid| == 5 && forall i :: 0 <= i < 5 ==> |b.grid[i]| == 5
    requires forall i, j :: 0 <= i < 5 && 0 <= j < 5 ==>
               TokenAt(b, i, j) == if (i, j) == (1, 2) then G2 else if (i, j) == (4, 2) then Empty else CrabCell(i, j)
    ensures !Occurs(b.grid, G1)
  {
    OccursOnBoard(b, G1);
    forall i, j | 0 <= i < 5 && 0 <= j < 5
      ensures TokenAt(b, i, j) != G1
    {
      assert TokenAt(b, i, j) ==
        if (i, j) == (1, 2) then G2 else if (i, j) == (4, 2) then Empty else CrabCell(i, j);
    }
  }

  lemma CaptureWin()
    ensures Wf(Initial(5))
    ensures var r1 := MoveSpec(Initial(5), 0, 2, 1, 2, "crab");
      && r1.outcome == Moved
      && var r2 := MoveSpec(r1.state, 4, 2, 1, 2, "mantis");
      && r2.outcome == Moved
      && Winner(r2.state) == Player2
  {
    Initial5();
    CaptureWinFrom(Initial(5));
  }

  /** get_winner's third doctest: player 1 moves onto player 2's throne with
      a style player 1 does not hold; the move goes through. */
  lemma OwnThroneWinFrom(s0: GameState)
    requires Start5(s0) && s0.turn == Player1
    ensures var r1 := MoveSpec(s0, 0, 2, 1, 2, "crab");
      && r1.outcome == Moved
      && var r2 := MoveSpec(r1.state, 4, 2, 3, 2, "mantis");
      && r2.outcome == Moved
      && var r3 := MoveSpec(r2.state, 1, 2, 4, 2, "mantis");
      && r3.outcome == Moved
      && Winner(r3.state) == Player1
  {
    CrabFirst(s0);
    var s1 := MoveSpec(s0, 0, 2, 1, 2, "crab").state;
    MantisSecond(s1, 3, 2);
    var s2 := MoveSpec(s1, 4, 2, 3, 2, "mantis").state;
    assert TokenAt(s2.board, 0, 2) == Empty;
    assert TokenAt(s2.board, 1, 2) == G1 && TokenAt(s2.board, 4, 2) == Empty;
    OntoSecondThrone(s2);
  }

  lemma OwnThroneWin()
    ensures Wf(Initial(5))
    ensures var r1 := MoveSpec(Initial(5), 0, 2, 1, 2, "crab");
      && r1.outcome == Moved
      && var r2 := MoveSpec(r1.state, 4, 2, 3, 2, "mantis");
      && r2.outcome == Moved
      && var r3 := MoveSpec(r2.state, 1, 2, 4, 2, "mantis");
      && r3.outcome == Moved
      && Winner(r3.state) == Player1
  {
    Initial5();
    OwnThroneWinFrom(Initial(5));
  }

  /** Player 1's grandmaster steps from (1, 2) onto the empty (4, 2) with
      the mantis while player 1's own throne is empty. */
  lemma OntoSecondThrone(s2: GameState)
    requires Board5(s2) && s2.turn == Player1
    requires TokenAt(s2.board, 0, 2) == Empty
    requires TokenAt(s2.board, 1, 2) == G1 && TokenAt(s2.board, 4, 2) == Empty
    requires LastNamed(s2.board.styles, "mantis").Some?
    ensures var r3 := MoveSpec(s2, 1, 2, 4, 2, "mantis");
      r3.outcome == Moved && Winner(r3.state) == Player1
  {
    MoveEffects(s2, 1, 2, 4, 2, "mantis");
  }

  /** A single legal move can already decide the game: player 1's
      grandmaster jumps from its throne straight onto player 2's grandmaster,
      since move never checks the distance. */
  lemma OneMoveWinFrom(s0: GameState)
    requires Start5(s0) && s0.turn == Player1
    ensures var r := MoveSpec(s0, 0, 2, 4, 2, "crab");
      && IsLegalMove(s0, 0, 2, 4, 2) && r.outcome == Moved && Winner(r.state) == Player1
  {
    assert TokenAt(s0.board, 0, 2) == G1 && TokenAt(s0.board, 4, 2) == G2;
    MoveEffects(s0, 0, 2, 4, 2, "crab");
  }

  lemma OneMoveWin()
    ensures Wf(Initial(5))
    ensures var r := MoveSpec(Initial(5), 0, 2, 4, 2, "crab");
      && IsLegalMove(Initial(5), 0, 2, 4, 2) && r.outcome == Moved && Winner(r.state) == Player1
  {
    Initial5();
    OneMoveWinFrom(Initial(5));
  }

  /** is_legal_move's doctests on a new game: off the board, onto an empty
      cell two rows away, and onto the mover's own grandmaster. */
  lemma LegalityDoctests()
    ensures Wf(Initial(5))
    ensures !IsLegalMove(Initial(5), 0, 2, 5, 6)
    ensures IsLegalMove(Initial(5), 0, 2, 2, 3)
    ensures !IsLegalMove(Initial(5), 0, 2, 0, 2)
  {
    Initial5();
    var b := Initial(5).board;
    assert TokenAt(b, 0, 2) == G1 && TokenAt(b, 2, 3) == Empty;
  }

  /** move's doctests with player 2 to move: a monk jumps from (4, 1) to
      (1, 2), which no mantis step reaches, and the move goes through;
      moving player 1's monk is refused. */
  lemma ShallowMoveFrom(s0: GameState)
    requires Start5(s0) && s0.turn == Player2
    ensures MoveSpec(s0, 4, 1, 1, 2, "mantis").outcome == Moved
    ensures MoveSpec(s0, 0, 3, 1, 3, "horse").outcome == Refused
  {
    assert TokenAt(s0.board, 4, 1) == M2 && TokenAt(s0.board, 1, 2) == Empty;
    assert TokenAt(s0.board, 0, 3) == M1;
    assert IsLegalMove(s0, 4, 1, 1, 2) && !IsLegalMove(s0, 0, 3, 1, 3);
    OneUnowned(s0.board.styles);
  }

  lemma ShallowMove()
    ensures Wf(Initial(5).(turn := Player2))
    ensures MoveSpec(Initial(5).(turn := Player2), 4, 1, 1, 2, "mantis").outcome == Moved
    ensures MoveSpec(Initial(5).(turn := Player2), 0, 3, 1, 3, "horse").outcome == Refused
  {
    Initial5();
    ShallowMoveFrom(Initial(5).(turn := Player2));
  }

  /** move never checks who holds the style: player 1 may move with player
      2's mantis, after which the mantis is unowned and player 2 holds the
      dragon instead. */
  lemma OpponentStyleFrom(s0: GameState)
    requires Start5(s0) && s0.turn == Player1
    ensures var r := MoveSpec(s0, 0, 1, 1, 1, "mantis");
      && r.outcome == Moved
      && Owners(r.state.board.styles) == [G1, G1, Empty, G2, G2]
  {
    assert TokenAt(s0.board, 0, 1) == M1 && TokenAt(s0.board, 1, 1) == Empty;
    MoveEffects(s0, 0, 1, 1, 1, "mantis");
    MantisExchange(s0.board.styles);
  }

  /** Exchanging the third of the starting styles hands its owner to the
      fifth. */
  lemma MantisExchange(st: seq<Style>)
    requires Owners(st) == [G1, G1, G2, G2, Empty]
    ensures Exchange(st, Listed(2)).Returned?
    ensures Owners(Exchange(st, Listed(2)).styles) == [G1, G1, Empty, G2, G2]
  {
    assert st[4].owner == Empty && st[2].owner == G2;
    assert FirstUnowned(st) == Some(4);
    var after := st[4 := st[4].(owner := G2)][2 := st[2].(owner := Empty)];
    assert Exchange(st, Listed(2)) == Returned(true, after, Listed(2));
    var o := Owners(after);
    assert |o| == 5 && o[0] == G1 && o[1] == G1 && o[2] == Empty && o[3] == G2 && o[4] == G2;
    assert o == [G1, G1, Empty, G2, G2];
  }

  lemma OpponentStyle()
    ensures Wf(Initial(5))
    ensures var r := MoveSpec(Initial(5), 0, 1, 1, 1, "mantis");
      r.outcome == Moved && Owners(r.state.board.styles) == [G1, G1, Empty, G2, G2]
  {
    Initial5();
    OpponentStyleFrom(Initial(5));
  }
}
