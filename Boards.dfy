/**
  OnitamaBoard.py: a size-by-size grid of tokens plus the list of styles.
  The queries (valid_coordinate, get_token, deep_copy, get_styles_deep_copy)
  are functions over the value `BoardState`; the operations that overwrite
  the grid or the style list are methods of the class `Board`.
*/
module Boards {
  import opened Wrappers
  import opened Pieces
  import opened Styles

  type Grid = seq<seq<Token>>

  /** What a board holds; also what `deep_copy` and `get_styles_deep_copy`
      hand out, since a value shares nothing with the live board. */
  datatype BoardState = BoardState(size: int, grid: Grid, styles: seq<Style>)

  /** Every coordinate that `valid_coordinate` accepts indexes a cell of
      `grid`, so that `get_token` never fails. */
  predicate Covers(grid: Grid, size: int) {
    size <= |grid| && forall r :: 0 <= r < size ==> size <= |grid[r]|
  }

  // ---------------------------------------------------------------------
  // Coordinates and cells
  // ---------------------------------------------------------------------

  /** valid_coordinate, for every integer row and column. */
  function ValidCoordinate(size: int, row: int, col: int): (ok: bool)
    ensures ok <==> 0 <= row < size && 0 <= col < size
  {
    row < size && col < size && row >= 0 && col >= 0
  }

  /** get_token: lenient read, EMPTY off the board. */
  function TokenAt(b: BoardState, row: int, col: int): (t: Token)
    requires Covers(b.grid, b.size)
    ensures t != Empty ==> 0 <= row < b.size && 0 <= col < b.size && t == b.grid[row][col]
    ensures 0 <= row < b.size && 0 <= col < b.size ==> t == b.grid[row][col]
  {
    if ValidCoordinate(b.size, row, col) then b.grid[row][col] else Empty
  }

  /** set_token: unconditional write of one cell. */
  function SetCell(grid: Grid, row: int, col: int, t: Token): Grid
    requires 0 <= row < |grid| && 0 <= col < |grid[row]|
  {
    grid[row := grid[row][col := t]]
  }

  /** Reading after writing a valid cell yields the written token, and no
      other cell changes; reads off the board yield EMPTY. */
  lemma SetThenGet(b: BoardState, row: int, col: int, t: Token)
    requires Covers(b.grid, b.size) && ValidCoordinate(b.size, row, col)
    ensures Covers(SetCell(b.grid, row, col, t), b.size)
    ensures TokenAt(b.(grid := SetCell(b.grid, row, col, t)), row, col) == t
    ensures forall r, c :: (r, c) != (row, col) ==>
              TokenAt(b.(grid := SetCell(b.grid, row, col, t)), r, c) == TokenAt(b, r, c)
  {
  }

  lemma OffBoardIsEmpty(b: BoardState, row: int, col: int)
    requires Covers(b.grid, b.size) && !(0 <= row < b.size && 0 <= col < b.size)
    ensures TokenAt(b, row, col) == Empty
  {
  }

  // ---------------------------------------------------------------------
  // The initial layout
  // ---------------------------------------------------------------------

  /** int(size / 2): Python's int() truncates toward zero. */
  function Center(size: int): int {
    if size >= 0 then size / 2 else -((-size) / 2)
  }

  /** Number of rows (and of cells per row) that range(size) produces. */
  function Extent(size: int): nat {
    if size >= 0 then size else 0
  }

  function LayoutCell(size: int, i: int, j: int): Token {
    if i == 0 then (if j == Center(size) then G1 else M1)
    else if i == size - 1 then (if j == Center(size) then G2 else M2)
    else Empty
  }

  function InitialGrid(size: int): Grid {
    seq(Extent(size), i => seq(Extent(size), j => LayoutCell(size, i, j)))
  }

  /** Row 0 is player 1's monks with the grandmaster in the centre column,
      the last row is player 2's, and every other cell is empty. */
  lemma InitialLayout(size: int)
    ensures Covers(InitialGrid(size), size)
    ensures |InitialGrid(size)| == Extent(size)
    ensures forall i :: 0 <= i < size ==> |InitialGrid(size)[i]| == size
    ensures forall j :: 0 <= j < size ==>
              InitialGrid(size)[0][j] == (if j == size / 2 then G1 else M1)
    ensures forall i, j :: 0 < i == size - 1 && 0 <= j < size ==>
              InitialGrid(size)[i][j] == (if j == size / 2 then G2 else M2)
    ensures forall i, j :: 0 < i < size - 1 && 0 <= j < size ==> InitialGrid(size)[i][j] == Empty
  {
  }

  /** On a board of size at least 3 each grandmaster appears exactly once,
      on its own back row in the centre column. */
  lemma InitialGrandmasters(size: int)
    requires size >= 3
    ensures InitialGrid(size)[0][size / 2] == G1
    ensures InitialGrid(size)[size - 1][size / 2] == G2
    ensures forall i, j :: 0 <= i < size && 0 <= j < size && InitialGrid(size)[i][j] == G1 ==>
              i == 0 && j == size / 2
    ensures forall i, j :: 0 <= i < size && 0 <= j < size && InitialGrid(size)[i][j] == G2 ==>
              i == size - 1 && j == size / 2
  {
  }

  /** The nested loops of OnitamaBoard.__init__ that fill the grid. */
  method Layout(size: int) returns (g: Grid)
    ensures g == InitialGrid(size)
  {
    g := [];
    var i := 0;
    while i < size
      invariant 0 <= i <= Extent(size)
      invariant g == InitialGrid(size)[..i]
    {
      var row: seq<Token> := [];
      var j := 0;
      while j < size
        invariant 0 <= j <= size
        invariant row == InitialGrid(size)[i][..j]
      {
        var cell: Token;
        if i == 0 {
          cell := if j == Center(size) then G1 else M1;
        } else if i == size - 1 {
          cell := if j == Center(size) then G2 else M2;
        } else {
          cell := Empty;
        }
        row := row + [cell];
        j := j + 1;
      }
      assert row == InitialGrid(size)[i];
      assert InitialGrid(size)[..i + 1] == InitialGrid(size)[..i] + [row];
      g := g + [row];
      i := i + 1;
    }
  }

  // ---------------------------------------------------------------------
  // Styles on the board
  // ---------------------------------------------------------------------

  /** The five styles construct_styles appends, in order. */
  function StartingStyles(): seq<Style> {
    [ NewStyle([(-1, 0), (0, -2), (0, 2)], "crab", G1),
      NewStyle([(-1, 0), (1, 0), (0, -1)], "horse", G1),
      NewStyle([(-1, -1), (-1, 1), (1, 0)], "mantis", G2),
      NewStyle([(0, 1), (-1, 1), (0, -1), (1, -1)], "rooster", G2),
      NewStyle([(-1, -2), (1, -1), (1, 1), (-1, 2)], "dragon", Empty) ]
  }

  function Owners(styles: seq<Style>): (r: seq<Token>)
    ensures |r| == |styles|
    ensures forall k :: 0 <= k < |styles| ==> r[k] == styles[k].owner
  {
    seq(|styles|, k requires 0 <= k < |styles| => styles[k].owner)
  }

  /** Two styles per player and exactly one unowned style. */
  predicate StandardOwners(styles: seq<Style>) {
    multiset(Owners(styles)) == multiset{G1, G1, G2, G2, Empty}
  }

  lemma StartingStylesSpec()
    ensures |StartingStyles()| == 5
    ensures Owners(StartingStyles()) == [G1, G1, G2, G2, Empty]
    ensures StartingStyles()[0].name == "crab" && StartingStyles()[1].name == "horse"
    ensures StartingStyles()[2].name == "mantis" && StartingStyles()[3].name == "rooster"
    ensures StartingStyles()[4].name == "dragon"
    ensures StandardOwners(StartingStyles())
  {
    assert Owners(StartingStyles()) == [G1, G1, G2, G2, Empty];
  }

  /** The first style, in list order, that nobody owns. */
  function FirstUnowned(styles: seq<Style>): (r: Option<nat>)
    ensures r.Some? ==> r.value < |styles| && styles[r.value].owner == Empty
    ensures r.Some? ==> forall k :: 0 <= k < r.value ==> styles[k].owner != Empty
    ensures r.None? ==> forall k :: 0 <= k < |styles| ==> styles[k].owner != Empty
  {
    if styles == [] then None
    else if styles[0].owner == Empty then Some(0)
    else match FirstUnowned(styles[1..])
      case None => None
      case Some(k) => Some(k + 1)
  }

  /** `x in self.styles`, which compares with Style.__eq__. */
  predicate Member(s: Style, styles: seq<Style>) {
    exists k :: 0 <= k < |styles| && Same(styles[k], s)
  }

  /** What exchange_style is handed: None (a style name that matched nothing
      in OnitamaGame.move), the list's own style at an index, or a style
      object that is not in the list. */
  datatype StyleArg = NoStyle | Listed(index: nat) | Detached(style: Style)

  /** The boolean exchange_style returns, the style list afterwards, and the
      argument afterwards (a detached argument has its own owner written);
      or the AttributeError that `None in styles` raises. */
  datatype ExchangeOutcome = Returned(ok: bool, styles: seq<Style>, arg: StyleArg) | Raised

  /** exchange_style */
  function Exchange(styles: seq<Style>, arg: StyleArg): (r: ExchangeOutcome)
    requires arg.Listed? ==> arg.index < |styles|
    ensures r.Raised? <==> arg.NoStyle? && styles != []
    ensures r.Returned? && !r.ok ==> r.styles == styles && r.arg == arg
    ensures r.Returned? ==> |r.styles| == |styles|
    ensures r.Returned? ==>
              forall k :: 0 <= k < |r.styles| && k < |styles| ==>
                r.styles[k].name == styles[k].name && r.styles[k].moves == styles[k].moves
    ensures r.Returned? && r.ok ==>
              && FirstUnowned(styles).Some?
              && r.styles[FirstUnowned(styles).value].owner != Empty
              && (arg.Listed? ==> r.styles[arg.index].owner == Empty)
              && (arg.Detached? ==> r.arg.Detached? && r.arg.style == arg.style.(owner := Empty))
  {
    match arg
    case NoStyle =>
      if styles == [] then Returned(false, styles, arg) else Raised
    case Listed(i) =>
      if styles[i].owner == Empty then Returned(false, styles, arg)
      else (match FirstUnowned(styles)
        case None => Returned(false, styles, arg)
        case Some(j) =>
          Returned(true, styles[j := styles[j].(owner := styles[i].owner)][i := styles[i].(owner := Empty)], arg))
    case Detached(s) =>
      if !Member(s, styles) || s.owner == Empty then Returned(false, styles, arg)
      else (match FirstUnowned(styles)
        case None => Returned(false, styles, arg)
        case Some(j) =>
          Returned(true, styles[j := styles[j].(owner := s.owner)], Detached(s.(owner := Empty))))
  }

  /** Exchanging one of the list's own styles: it fails, changing nothing,
      when the style is unowned or no style is unowned; otherwise the style
      becomes unowned, the first unowned style takes its former owner,
      nothing else changes, and the owners are only permuted. */
  lemma ExchangeListed(styles: seq<Style>, i: nat)
    requires i < |styles|
    ensures Exchange(styles, Listed(i)).Returned? && Exchange(styles, Listed(i)).arg == Listed(i)
    ensures Exchange(styles, Listed(i)).ok <==>
              styles[i].owner != Empty && exists k :: 0 <= k < |styles| && styles[k].owner == Empty
    ensures !Exchange(styles, Listed(i)).ok ==> Exchange(styles, Listed(i)).styles == styles
    ensures Exchange(styles, Listed(i)).ok ==>
              var after := Exchange(styles, Listed(i)).styles;
              var j := FirstUnowned(styles).value;
              && |after| == |styles| && j != i
              && after[i].owner == Empty && after[j].owner == styles[i].owner
              && (forall k :: 0 <= k < |styles| && k != i && k != j ==> after[k] == styles[k])
              && (forall k :: 0 <= k < |styles| ==>
                    after[k].name == styles[k].name && after[k].moves == styles[k].moves)
              && multiset(Owners(after)) == multiset(Owners(styles))
  {
    var out := Exchange(styles, Listed(i));
    if out.ok {
      var j := FirstUnowned(styles).value;
      var after := out.styles;
      assert Owners(after) == Owners(styles)[j := styles[i].owner][i := Empty];
    }
  }

  /** Exchanging a style object that is not in the list: membership is by
      name and owner; on success the first unowned listed style takes the
      argument's owner and the argument itself, not the list's equal
      style, becomes unowned. */
  lemma ExchangeDetached(styles: seq<Style>, s: Style)
    ensures Exchange(styles, Detached(s)).Returned?
    ensures Exchange(styles, Detached(s)).ok <==>
              Member(s, styles) && s.owner != Empty &&
              exists k :: 0 <= k < |styles| && styles[k].owner == Empty
    ensures !Exchange(styles, Detached(s)).ok ==>
              Exchange(styles, Detached(s)).styles == styles && Exchange(styles, Detached(s)).arg == Detached(s)
    ensures Exchange(styles, Detached(s)).ok ==>
              var j := FirstUnowned(styles).value;
              && Exchange(styles, Detached(s)).styles == styles[j := styles[j].(owner := s.owner)]
              && Exchange(styles, Detached(s)).arg == Detached(s.(owner := Empty))
  {
  }

  /** The None argument: AttributeError unless the list is empty. */
  lemma ExchangeNoStyle(styles: seq<Style>)
    ensures Exchange(styles, NoStyle).Raised? <==> styles != []
    ensures Exchange(styles, NoStyle).Returned? ==> !Exchange(styles, NoStyle).ok
  {
  }

  /** With the standard owners there are five styles and one of them is
      unowned. */
  lemma OneUnowned(styles: seq<Style>)
    requires StandardOwners(styles)
    ensures |styles| == 5
    ensures FirstUnowned(styles).Some?
  {
    var os := Owners(styles);
    assert |multiset(os)| == |os|;
    assert Empty in multiset(os);
    var e :| 0 <= e < |os| && os[e] == Empty;
    assert styles[e].owner == Empty;
  }

  /** A listed exchange keeps the standard owners. */
  lemma ExchangeKeepsStandardOwners(styles: seq<Style>, i: nat)
    requires StandardOwners(styles) && i < |styles|
    ensures Exchange(styles, Listed(i)).Returned?
    ensures StandardOwners(Exchange(styles, Listed(i)).styles)
    ensures |Exchange(styles, Listed(i)).styles| == |styles|
  {
    ExchangeListed(styles, i);
  }

  /** A detached argument equal to a listed owned style passes the
      membership test, yet the listed style keeps its owner: the list is
      left with no unowned style at all. */
  lemma DetachedExchangeLosesUnowned(styles: seq<Style>, s: Style)
    requires StandardOwners(styles) && Member(s, styles) && s.owner != Empty
    ensures Exchange(styles, Detached(s)).Returned? && Exchange(styles, Detached(s)).ok
    ensures forall k :: 0 <= k < |Exchange(styles, Detached(s)).styles| ==>
              Exchange(styles, Detached(s)).styles[k].owner != Empty
  {
    OneUnowned(styles);
    var j := FirstUnowned(styles).value;
    var after := Exchange(styles, Detached(s)).styles;
    assert Owners(after) == Owners(styles)[j := s.owner];
    assert multiset(Owners(after))[Empty] == 0;
    forall k | 0 <= k < |after|
      ensures after[k].owner != Empty
    {
      assert Owners(after)[k] in multiset(Owners(after));
    }
  }

  // ---------------------------------------------------------------------
  // The board object
  // ---------------------------------------------------------------------

  class Board {
    var size: int
    var grid: Grid
    var styles: seq<Style>

    ghost predicate Valid()
      reads this
    {
      Covers(grid, size)
    }

    function State(): BoardState
      reads this
    {
      BoardState(size, grid, styles)
    }

    /** OnitamaBoard.__init__ for an odd size; `preset` is the optional
        board argument. */
    constructor (size: int, preset: Option<Grid>)
      requires size % 2 != 0
      requires preset.Some? ==> Covers(preset.value, size)
      ensures Valid()
      ensures this.size == size && styles == StartingStyles()
      ensures grid == if preset.Some? then preset.value else InitialGrid(size)
    {
      this.size := size;
      styles := [];
      grid := [];
      new;
      ConstructStyles();
      if preset.Some? {
        SetBoard(preset.value);
      } else {
        var g := Layout(size);
        InitialLayout(size);
        SetBoard(g);
      }
    }

    /** OnitamaBoard(...) including its failure: an even size raises before
        anything is built, which here is the null result. */
    static method Create(size: int, preset: Option<Grid>) returns (b: Board?)
      requires size % 2 != 0 && preset.Some? ==> Covers(preset.value, size)
      ensures b == null <==> size % 2 == 0
      ensures b != null ==> fresh(b) && b.Valid() && b.size == size && b.styles == StartingStyles()
      ensures b != null ==> b.grid == if preset.Some? then preset.value else InitialGrid(size)
    {
      if size % 2 == 0 {
        b := null;
      } else {
        b := new Board(size, preset);
      }
    }

    /** construct_styles appends; it does not reset the list. */
    method ConstructStyles()
      modifies this
      ensures styles == old(styles) + StartingStyles()
      ensures size == old(size) && grid == old(grid)
    {
      styles := styles + [NewStyle([(-1, 0), (0, -2), (0, 2)], "crab", G1)];
      styles := styles + [NewStyle([(-1, 0), (1, 0), (0, -1)], "horse", G1)];
      styles := styles + [NewStyle([(-1, -1), (-1, 1), (1, 0)], "mantis", G2)];
      styles := styles + [NewStyle([(0, 1), (-1, 1), (0, -1), (1, -1)], "rooster", G2)];
      styles := styles + [NewStyle([(-1, -2), (1, -1), (1, 1), (-1, 2)], "dragon", Empty)];
    }

    /** exchange_style */
    method ExchangeStyle(arg: StyleArg) returns (out: ExchangeOutcome)
      requires arg.Listed? ==> arg.index < |styles|
      modifies this
      ensures out == Exchange(old(styles), arg)
      ensures out.Returned? ==> styles == out.styles
      ensures out.Raised? ==> styles == old(styles)
      ensures size == old(size) && grid == old(grid)
    {
      var member: bool;
      var owner: Token;
      match arg {
        case NoStyle =>
          if styles == [] {
            return Returned(false, styles, arg);
          }
          return Raised;
        case Listed(i) =>
          member, owner := true, styles[i].owner;
        case Detached(s) =>
          member, owner := Member(s, styles), s.owner;
      }
      if member && owner != Empty {
        var j := 0;
        while j < |styles|
          invariant 0 <= j <= |styles|
          invariant styles == old(styles)
          invariant forall k :: 0 <= k < j ==> styles[k].owner != Empty
        {
          if styles[j].owner == Empty {
            styles := styles[j := styles[j].(owner := owner)];
            if arg.Listed? {
              styles := styles[arg.index := styles[arg.index].(owner := Empty)];
              return Returned(true, styles, arg);
            }
            return Returned(true, styles, Detached(arg.style.(owner := Empty)));
          }
          j := j + 1;
        }
      }
      out := Returned(false, styles, arg);
    }

    /** set_token */
    method SetToken(row: int, col: int, token: Token)
      requires 0 <= row < |grid| && 0 <= col < |grid[row]|
      modifies this
      ensures grid == SetCell(old(grid), row, col, token)
      ensures size == old(size) && styles == old(styles)
      ensures old(Valid()) ==> Valid()
    {
      grid := SetCell(grid, row, col, token);
    }

    /** set_board: replace the grid by a copy of `g`. */
    method SetBoard(g: Grid)
      modifies this
      ensures grid == g && size == old(size) && styles == old(styles)
    {
      grid := g;
    }
  }
}
