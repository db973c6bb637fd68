/**
  Player.py and Turn.py: how a player lists its pieces, its styles and the
  turns it may take. A player sees the game through the game state it is
  given; every list is built by loops and specified by a function of that
  state.
*/
module Players {
  import opened Wrappers
  import opened Pieces
  import opened Styles
  import opened Boards
  import opened Games

  /** A player_id: one of the board symbols, or any other string, which
      matches no token and owns no style. */
  datatype PlayerId = TokenId(token: Token) | OtherId

  /** Turn.py */
  datatype Turn = Turn(rowO: int, colO: int, rowD: int, colD: int, styleName: string, player: PlayerId)

  type Position = (int, int)

  /** get_tokens compares symbols after lower-casing. */
  predicate Matches(id: PlayerId, t: Token) {
    id.TokenId? && LowerCase(t) == LowerCase(id.token)
  }

  /** get_styles compares the owner with the id itself. */
  predicate Owns(id: PlayerId, s: Style) {
    id.TokenId? && s.owner == id.token
  }

  /** Player G1 plays from row 0 downwards, so its deltas are negated. */
  function Facing(id: PlayerId, d: Delta): Delta {
    if id == TokenId(G1) then (-d.0, -d.1) else d
  }

  // ---------------------------------------------------------------------
  // get_tokens
  // ---------------------------------------------------------------------

  /** The matching positions of row `i`, left to right. */
  function RowPositions(row: seq<Token>, i: int, id: PlayerId): seq<Position> {
    if row == [] then []
    else RowPositions(row[..|row| - 1], i, id) + (if Matches(id, row[|row| - 1]) then [(i, |row| - 1)] else [])
  }

  /** The matching positions of the whole grid, row after row. */
  function Positions(grid: Grid, id: PlayerId): seq<Position> {
    if grid == [] then []
    else Positions(grid[..|grid| - 1], id) + RowPositions(grid[|grid| - 1], |grid| - 1, id)
  }

  predicate RowMajorBefore(p: Position, q: Position) {
    p.0 < q.0 || (p.0 == q.0 && p.1 < q.1)
  }

  lemma {:induction false} RowPositionsSpec(row: seq<Token>, i: int, id: PlayerId)
    ensures forall p :: p in RowPositions(row, i, id) <==> p.0 == i && 0 <= p.1 < |row| && Matches(id, row[p.1])
    ensures forall a, b :: 0 <= a < b < |RowPositions(row, i, id)| ==>
              RowPositions(row, i, id)[a].1 < RowPositions(row, i, id)[b].1
  {
    if row != [] {
      var init := row[..|row| - 1];
      RowPositionsSpec(init, i, id);
    }
  }

  /** get_tokens lists exactly the cells whose token lower-cases to the id,
      in row-major order. */
  lemma {:induction false} PositionsSpec(grid: Grid, id: PlayerId)
    ensures forall p :: p in Positions(grid, id) <==>
              0 <= p.0 < |grid| && 0 <= p.1 < |grid[p.0]| && Matches(id, grid[p.0][p.1])
    ensures forall a, b :: 0 <= a < b < |Positions(grid, id)| ==>
              RowMajorBefore(Positions(grid, id)[a], Positions(grid, id)[b])
  {
    if grid != [] {
      var n := |grid| - 1;
      var init := grid[..n];
      PositionsSpec(init, id);
      RowPositionsSpec(grid[n], n, id);
      var P := Positions(init, id);
      var R := RowPositions(grid[n], n, id);
      assert Positions(grid, id) == P + R;
      forall a, b | 0 <= a < b < |P + R|
        ensures RowMajorBefore((P + R)[a], (P + R)[b])
      {
        if b < |P| {
        } else if a < |P| {
          assert (P + R)[a] in P;
          assert (P + R)[b] in R;
        } else {
          assert (P + R)[a] == R[a - |P|] && (P + R)[b] == R[b - |P|];
        }
      }
    }
  }

  /** get_tokens */
  method GetTokens(s: GameState, id: PlayerId) returns (tokens: seq<Position>)
    ensures tokens == Positions(s.board.grid, id)
  {
    var board := s.board.grid;
    tokens := [];
    var i := 0;
    while i < |board|
      invariant 0 <= i <= |board|
      invariant tokens == Positions(board[..i], id)
    {
      var row := board[i];
      var j := 0;
      while j < |row|
        invariant 0 <= j <= |row|
        invariant tokens == Positions(board[..i], id) + RowPositions(row[..j], i, id)
      {
        assert row[..j + 1][..j] == row[..j];
        if id.TokenId? && LowerCase(row[j]) == LowerCase(id.token) {
          tokens := tokens + [(i, j)];
        }
        j := j + 1;
      }
      assert row[..j] == row;
      assert board[..i + 1][..i] == board[..i];
      i := i + 1;
    }
    assert board[..i] == board;
  }

  // ---------------------------------------------------------------------
  // get_styles
  // ---------------------------------------------------------------------

  /** The styles the player owns, in list order. */
  function StylesOf(styles: seq<Style>, id: PlayerId): seq<Style> {
    if styles == [] then []
    else StylesOf(styles[..|styles| - 1], id) + (if Owns(id, styles[|styles| - 1]) then [styles[|styles| - 1]] else [])
  }

  /** get_styles keeps exactly the owned styles ... */
  lemma {:induction false} StylesOfSpec(styles: seq<Style>, id: PlayerId)
    ensures forall s :: s in StylesOf(styles, id) <==> s in styles && Owns(id, s)
  {
    if styles != [] {
      StylesOfSpec(styles[..|styles| - 1], id);
      assert styles == styles[..|styles| - 1] + [styles[|styles| - 1]];
    }
  }

  /** ... and keeps their order: filtering a concatenation concatenates the
      filtered parts. */
  lemma {:induction false} StylesOfConcat(a: seq<Style>, b: seq<Style>, id: PlayerId)
    ensures StylesOf(a + b, id) == StylesOf(a, id) + StylesOf(b, id)
    decreases |b|
  {
    if b != [] {
      var init := b[..|b| - 1];
      StylesOfConcat(a, init, id);
      assert (a + b)[..|a + b| - 1] == a + init;
    } else {
      assert a + b == a;
    }
  }

  /** get_styles */
  method GetStyles(s: GameState, id: PlayerId) returns (r: seq<Style>)
    ensures r == StylesOf(s.board.styles, id)
  {
    var styles := s.board.styles;
    r := [];
    var i := 0;
    while i < |styles|
      invariant 0 <= i <= |styles|
      invariant r == StylesOf(styles[..i], id)
    {
      assert styles[..i + 1][..i] == styles[..i];
      if id.TokenId? && styles[i].owner == id.token {
        r := r + [styles[i]];
      }
      i := i + 1;
    }
    assert styles[..i] == styles;
  }

  // ---------------------------------------------------------------------
  // The dict of turns
  // ---------------------------------------------------------------------

  /** A dict from style names to turn lists, in insertion order. */
  type TurnDict = seq<(string, seq<Turn>)>

  /** Where key `k` sits in the dict, if anywhere. */
  function KeyIndex(d: TurnDict, k: string): (r: Option<nat>)
    ensures r.Some? ==> r.value < |d| && d[r.value].0 == k
    ensures r.Some? ==> forall i :: 0 <= i < r.value ==> d[i].0 != k
    ensures r.None? ==> forall i :: 0 <= i < |d| ==> d[i].0 != k
  {
    if d == [] then None
    else if d[0].0 == k then Some(0)
    else match KeyIndex(d[1..], k)
      case None => None
      case Some(i) => Some(i + 1)
  }

  /** `d[k] = v`: a present key keeps its place, a new one goes last. */
  function DictSet(d: TurnDict, k: string, v: seq<Turn>): TurnDict {
    match KeyIndex(d, k)
    case Some(i) => d[i := (k, v)]
    case None => d + [(k, v)]
  }

  /** `d[k]` for a present key. */
  function Lookup(d: TurnDict, k: string): seq<Turn>
    requires KeyIndex(d, k).Some?
  {
    d[KeyIndex(d, k).value].1
  }

  /** The first entry with key `k` is where KeyIndex finds it. */
  lemma KeyIndexAt(d: TurnDict, k: string, i: nat)
    requires i < |d| && d[i].0 == k
    requires forall j :: 0 <= j < i ==> d[j].0 != k
    ensures KeyIndex(d, k) == Some(i)
  {
    var r := KeyIndex(d, k);
    assert r.Some?;
    assert !(r.value < i);
    assert !(r.value > i);
  }

  /** After `d[k] = v` the key is present with value `v`, every other entry
      is where and what it was, and setting the key again overrides. */
  lemma DictSetSpec(d: TurnDict, k: string, v: seq<Turn>)
    ensures KeyIndex(DictSet(d, k, v), k).Some? && Lookup(DictSet(d, k, v), k) == v
    ensures |DictSet(d, k, v)| == if KeyIndex(d, k).Some? then |d| else |d| + 1
    ensures forall i :: 0 <= i < |d| && d[i].0 != k ==> DictSet(d, k, v)[i] == d[i]
    ensures forall w :: DictSet(DictSet(d, k, v), k, w) == DictSet(d, k, w)
  {
    var d' := DictSet(d, k, v);
    match KeyIndex(d, k)
    case Some(i) =>
      KeyIndexAt(d', k, i);
    case None =>
      KeyIndexAt(d', k, |d|);
      forall w
        ensures DictSet(d', k, w) == DictSet(d, k, w)
      {
        assert d'[|d| := (k, w)] == d + [(k, w)];
      }
  }

  /** Assigning key `k0` adds `k0` to the keys and changes no other key. */
  lemma DictSetKeys(d: TurnDict, k0: string, v: seq<Turn>, k: string)
    ensures KeyIndex(DictSet(d, k0, v), k).Some? <==> KeyIndex(d, k).Some? || k == k0
  {
    var d' := DictSet(d, k0, v);
    DictSetSpec(d, k0, v);
    if k != k0 {
      if KeyIndex(d', k).Some? {
        var i := KeyIndex(d', k).value;
        match KeyIndex(d, k0)
        case Some(j) =>
          assert d'[i] == d[i];
        case None =>
          assert i < |d| && d'[i] == d[i];
      }
      if KeyIndex(d, k).Some? {
        var i := KeyIndex(d, k).value;
        assert d'[i] == d[i];
      }
    }
  }

  /** Appending `y` to the entry `k` of a dict that was set to `base + x`
      gives the dict set to `base + (x + y)`. */
  lemma DictAppend(d: TurnDict, k: string, base: seq<Turn>, x: seq<Turn>, y: seq<Turn>)
    ensures KeyIndex(DictSet(d, k, base + x), k).Some?
    ensures DictSet(DictSet(d, k, base + x), k, Lookup(DictSet(d, k, base + x), k) + y) ==
            DictSet(d, k, base + (x + y))
  {
    DictSetSpec(d, k, base + x);
    assert (base + x) + y == base + (x + y);
  }

  /** The keys of a dict are pairwise different. */
  predicate DistinctKeys(d: TurnDict) {
    forall a, b :: 0 <= a < b < |d| ==> d[a].0 != d[b].0
  }

  // ---------------------------------------------------------------------
  // get_valid_turns
  // ---------------------------------------------------------------------

  /** The turn of style `name` from position `p` by delta `d`, turned to
      the player's side. */
  function StepFrom(id: PlayerId, name: string, p: Position, d: Delta): Turn {
    var f := Facing(id, d);
    Turn(p.0, p.1, p.0 + f.0, p.1 + f.1, name, id)
  }

  /** is_legal_move for that turn. */
  predicate StepLegal(s: GameState, id: PlayerId, p: Position, d: Delta)
    requires Covers(s.board.grid, s.board.size)
  {
    var f := Facing(id, d);
    IsLegalMove(s, p.0, p.1, p.0 + f.0, p.1 + f.1)
  }

  /** `t` is the turn of style `name` from `p` by `d`, and it is legal. */
  predicate IsStep(s: GameState, id: PlayerId, name: string, p: Position, d: Delta, t: Turn)
    requires Covers(s.board.grid, s.board.size)
  {
    StepLegal(s, id, p, d) && t == StepFrom(id, name, p, d)
  }

  /** The legal turns from position `p` with the deltas `moves`, in order. */
  function DeltaTurns(s: GameState, id: PlayerId, name: string, p: Position, moves: seq<Delta>): seq<Turn>
    requires Covers(s.board.grid, s.board.size)
  {
    if moves == [] then []
    else
      var d := moves[|moves| - 1];
      DeltaTurns(s, id, name, p, moves[..|moves| - 1]) +
        (if StepLegal(s, id, p, d) then [StepFrom(id, name, p, d)] else [])
  }

  /** The legal turns of one style from every position, position by position. */
  function StyleTurns(s: GameState, id: PlayerId, name: string, moves: seq<Delta>, ps: seq<Position>): seq<Turn>
    requires Covers(s.board.grid, s.board.size)
  {
    if ps == [] then []
    else StyleTurns(s, id, name, moves, ps[..|ps| - 1]) + DeltaTurns(s, id, name, ps[|ps| - 1], moves)
  }

  /** The dict get_valid_turns builds from `styles`: one entry per style
      name, reset and refilled by every style of that name. */
  function TurnTable(s: GameState, id: PlayerId, styles: seq<Style>, ps: seq<Position>): TurnDict
    requires Covers(s.board.grid, s.board.size)
  {
    if styles == [] then []
    else
      var st := styles[|styles| - 1];
      DictSet(TurnTable(s, id, styles[..|styles| - 1], ps), st.name, StyleTurns(s, id, st.name, st.moves, ps))
  }

  function ValidTurns(s: GameState, id: PlayerId): TurnDict
    requires Covers(s.board.grid, s.board.size)
  {
    TurnTable(s, id, StylesOf(s.board.styles, id), Positions(s.board.grid, id))
  }

  lemma {:induction false} DeltaTurnsSpec(s: GameState, id: PlayerId, name: string, p: Position, moves: seq<Delta>)
    requires Covers(s.board.grid, s.board.size)
    ensures forall t :: t in DeltaTurns(s, id, name, p, moves) <==>
              exists m :: 0 <= m < |moves| && IsStep(s, id, name, p, moves[m], t)
  {
    if moves != [] {
      var init := moves[..|moves| - 1];
      DeltaTurnsSpec(s, id, name, p, init);
      forall t | t in DeltaTurns(s, id, name, p, moves)
        ensures exists m :: 0 <= m < |moves| && IsStep(s, id, name, p, moves[m], t)
      {
        if t in DeltaTurns(s, id, name, p, init) {
          var m :| 0 <= m < |init| && IsStep(s, id, name, p, init[m], t);
          assert moves[m] == init[m];
        } else {
          assert IsStep(s, id, name, p, moves[|moves| - 1], t);
        }
      }
      forall t | exists m :: 0 <= m < |moves| && IsStep(s, id, name, p, moves[m], t)
        ensures t in DeltaTurns(s, id, name, p, moves)
      {
        var m :| 0 <= m < |moves| && IsStep(s, id, name, p, moves[m], t);
        if m < |init| {
          assert init[m] == moves[m];
        }
      }
    }
  }

  /** The turns of one style are exactly its legal steps: from a listed
      position, by one of the style's deltas turned to the player's side. */
  lemma {:induction false} StyleTurnsSpec(s: GameState, id: PlayerId, name: string, moves: seq<Delta>, ps: seq<Position>)
    requires Covers(s.board.grid, s.board.size)
    ensures forall t :: t in StyleTurns(s, id, name, moves, ps) <==>
              exists a, m :: 0 <= a < |ps| && 0 <= m < |moves| && IsStep(s, id, name, ps[a], moves[m], t)
  {
    if ps != [] {
      var init := ps[..|ps| - 1];
      var last := ps[|ps| - 1];
      StyleTurnsSpec(s, id, name, moves, init);
      DeltaTurnsSpec(s, id, name, last, moves);
      forall t | t in StyleTurns(s, id, name, moves, ps)
        ensures exists a, m :: 0 <= a < |ps| && 0 <= m < |moves| && IsStep(s, id, name, ps[a], moves[m], t)
      {
        if t in StyleTurns(s, id, name, moves, init) {
          var a, m :| 0 <= a < |init| && 0 <= m < |moves| && IsStep(s, id, name, init[a], moves[m], t);
          assert ps[a] == init[a];
        } else {
          var m :| 0 <= m < |moves| && IsStep(s, id, name, last, moves[m], t);
          assert ps[|ps| - 1] == last;
        }
      }
      forall t | exists a, m :: 0 <= a < |ps| && 0 <= m < |moves| && IsStep(s, id, name, ps[a], moves[m], t)
        ensures t in StyleTurns(s, id, name, moves, ps)
      {
        var a, m :| 0 <= a < |ps| && 0 <= m < |moves| && IsStep(s, id, name, ps[a], moves[m], t);
        if a < |init| {
          assert init[a] == ps[a];
        }
      }
    }
  }

  /** The dict has each key once ... */
  lemma {:induction false} TurnTableDistinct(s: GameState, id: PlayerId, styles: seq<Style>, ps: seq<Position>)
    requires Covers(s.board.grid, s.board.size)
    ensures DistinctKeys(TurnTable(s, id, styles, ps))
  {
    if styles != [] {
      var n := |styles| - 1;
      var st := styles[n];
      var T := TurnTable(s, id, styles[..n], ps);
      var v := StyleTurns(s, id, st.name, st.moves, ps);
      TurnTableDistinct(s, id, styles[..n], ps);
      DictSetSpec(T, st.name, v);
      var T' := DictSet(T, st.name, v);
      forall a, b | 0 <= a < b < |T'|
        ensures T'[a].0 != T'[b].0
      {
        if KeyIndex(T, st.name).None? {
          if b == |T| {
            assert T'[a] == T[a];
          } else {
            assert T'[a] == T[a] && T'[b] == T[b];
          }
        } else {
          var i := KeyIndex(T, st.name).value;
          assert T' == T[i := (st.name, v)];
        }
      }
    }
  }

  /** ... one key per style name, for every style name ... */
  lemma {:induction false} TurnTableKeys(s: GameState, id: PlayerId, styles: seq<Style>, ps: seq<Position>)
    requires Covers(s.board.grid, s.board.size)
    ensures forall k :: KeyIndex(TurnTable(s, id, styles, ps), k).Some? <==>
              exists j :: 0 <= j < |styles| && styles[j].name == k
  {
    if styles != [] {
      var n := |styles| - 1;
      var init := styles[..n];
      var st := styles[n];
      var T := TurnTable(s, id, init, ps);
      var v := StyleTurns(s, id, st.name, st.moves, ps);
      TurnTableKeys(s, id, init, ps);
      forall k
        ensures KeyIndex(DictSet(T, st.name, v), k).Some? <==> exists j :: 0 <= j < |styles| && styles[j].name == k
      {
        DictSetKeys(T, st.name, v, k);
        if exists j :: 0 <= j < |styles| && styles[j].name == k {
          var j :| 0 <= j < |styles| && styles[j].name == k;
          if j < n {
            assert init[j] == styles[j];
          }
        }
        if exists j :: 0 <= j < |init| && init[j].name == k {
          var j :| 0 <= j < |init| && init[j].name == k;
          assert styles[j] == init[j];
        }
      }
    }
  }

  /** ... and under each key the turns of the last style with that name. */
  lemma {:induction false} TurnTableValues(s: GameState, id: PlayerId, styles: seq<Style>, ps: seq<Position>)
    requires Covers(s.board.grid, s.board.size)
    ensures forall i :: 0 <= i < |TurnTable(s, id, styles, ps)| ==>
              var e := TurnTable(s, id, styles, ps)[i];
              LastNamed(styles, e.0).Some? &&
              e.1 == StyleTurns(s, id, e.0, styles[LastNamed(styles, e.0).value].moves, ps)
  {
    if styles != [] {
      var n := |styles| - 1;
      var init := styles[..n];
      var st := styles[n];
      var T := TurnTable(s, id, init, ps);
      var v := StyleTurns(s, id, st.name, st.moves, ps);
      TurnTableValues(s, id, init, ps);
      DictSetSpec(T, st.name, v);
      var T' := DictSet(T, st.name, v);
      forall i | 0 <= i < |T'|
        ensures LastNamed(styles, T'[i].0).Some? &&
                T'[i].1 == StyleTurns(s, id, T'[i].0, styles[LastNamed(styles, T'[i].0).value].moves, ps)
      {
        if T'[i].0 == st.name {
          TurnTableDistinct(s, id, styles, ps);
          assert T' == TurnTable(s, id, styles, ps);
          KeyIndexAt(T', st.name, i);
        } else {
          assert T'[i] == T[i];
          assert LastNamed(styles, T[i].0) == LastNamed(init, T[i].0);
        }
      }
    }
  }

  /** The innermost loop of get_valid_turns: append to `d[name]` the legal
      turns from `pos` by each delta of `moves`, in order. */
  method AppendDeltaTurns(s: GameState, id: PlayerId, name: string, pos: Position, moves: seq<Delta>, d: TurnDict)
      returns (turns: TurnDict)
    requires Covers(s.board.grid, s.board.size)
    requires KeyIndex(d, name).Some?
    ensures turns == DictSet(d, name, Lookup(d, name) + DeltaTurns(s, id, name, pos, moves))
  {
    ghost var base := Lookup(d, name);
    var row, col := pos.0, pos.1;
    turns := d;
    assert moves[..0] == [] && base + [] == base;
    assert d[KeyIndex(d, name).value := (name, base)] == d;
    var q := 0;
    while q < |moves|
      invariant 0 <= q <= |moves|
      invariant turns == DictSet(d, name, base + DeltaTurns(s, id, name, pos, moves[..q]))
    {
      var dRow, dCol := moves[q].0, moves[q].1;
      if id == TokenId(G1) {
        dRow := dRow * -1;
        dCol := dCol * -1;
      }
      ghost var partial := DeltaTurns(s, id, name, pos, moves[..q]);
      assert moves[..q + 1][..q] == moves[..q];
      if IsLegalMove(s, row, col, row + dRow, col + dCol) {
        var t := Turn(row, col, row + dRow, col + dCol, name, id);
        assert StepLegal(s, id, pos, moves[q]) && t == StepFrom(id, name, pos, moves[q]);
        assert DeltaTurns(s, id, name, pos, moves[..q + 1]) == partial + [t];
        DictAppend(d, name, base, partial, [t]);
        var cur := Lookup(turns, name);
        turns := DictSet(turns, name, cur + [t]);
      } else {
        assert !StepLegal(s, id, pos, moves[q]);
        assert DeltaTurns(s, id, name, pos, moves[..q + 1]) == partial + [];
        assert partial + [] == partial;
      }
      q := q + 1;
    }
    assert moves[..q] == moves;
  }

  /** The middle loop of get_valid_turns: append to `d[name]` the legal
      turns of one style from every position, position by position. */
  method AppendStyleTurns(s: GameState, id: PlayerId, name: string, moves: seq<Delta>, tokens: seq<Position>, d: TurnDict)
      returns (turns: TurnDict)
    requires Covers(s.board.grid, s.board.size)
    requires KeyIndex(d, name).Some?
    ensures turns == DictSet(d, name, Lookup(d, name) + StyleTurns(s, id, name, moves, tokens))
  {
    ghost var base := Lookup(d, name);
    turns := d;
    assert tokens[..0] == [] && base + [] == base;
    assert d[KeyIndex(d, name).value := (name, base)] == d;
    var p := 0;
    while p < |tokens|
      invariant 0 <= p <= |tokens|
      invariant turns == DictSet(d, name, base + StyleTurns(s, id, name, moves, tokens[..p]))
    {
      ghost var done := StyleTurns(s, id, name, moves, tokens[..p]);
      DictAppend(d, name, base, done, DeltaTurns(s, id, name, tokens[p], moves));
      turns := AppendDeltaTurns(s, id, name, tokens[p], moves, turns);
      assert tokens[..p + 1][..p] == tokens[..p];
      p := p + 1;
    }
    assert tokens[..p] == tokens;
  }

  /** get_valid_turns: for each owned style in order, reset its entry and
      fill it position by position; the result is the specified table. */
  method GetValidTurns(s: GameState, id: PlayerId) returns (turns: TurnDict)
    requires Covers(s.board.grid, s.board.size)
    ensures turns == ValidTurns(s, id)
  {
    var styles := GetStyles(s, id);
    var tokens := GetTokens(s, id);
    turns := [];
    var i := 0;
    while i < |styles|
      invariant 0 <= i <= |styles|
      invariant turns == TurnTable(s, id, styles[..i], tokens)
    {
      var sty := styles[i];
      ghost var before := turns;
      turns := DictSet(turns, sty.name, []);
      DictSetSpec(before, sty.name, []);
      var moves := GetMoves(sty);
      turns := AppendStyleTurns(s, id, sty.name, moves, tokens, turns);
      assert [] + StyleTurns(s, id, sty.name, moves, tokens) == StyleTurns(s, id, sty.name, moves, tokens);
      assert styles[..i + 1][..i] == styles[..i];
      i := i + 1;
    }
    assert styles[..i] == styles;
  }

  // ---------------------------------------------------------------------
  // PlayerRandom.get_turn
  // ---------------------------------------------------------------------

  /** All turn lists of the dict, one after the other in key order. */
  function AllTurns(d: TurnDict): seq<Turn> {
    if d == [] then [] else AllTurns(d[..|d| - 1]) + d[|d| - 1].1
  }

  lemma {:induction false} AllTurnsSpec(d: TurnDict)
    ensures forall t :: t in AllTurns(d) <==> exists i :: 0 <= i < |d| && t in d[i].1
  {
    if d != [] {
      var init := d[..|d| - 1];
      AllTurnsSpec(init);
      forall t | t in AllTurns(d)
        ensures exists i :: 0 <= i < |d| && t in d[i].1
      {
        if t in AllTurns(init) {
          var i :| 0 <= i < |init| && t in init[i].1;
          assert d[i] == init[i];
        }
      }
      forall t | exists i :: 0 <= i < |d| && t in d[i].1
        ensures t in AllTurns(d)
      {
        var i :| 0 <= i < |d| && t in d[i].1;
        if i < |init| {
          assert init[i] == d[i];
        }
      }
    }
  }

  /** get_turn with the random index supplied as `draw`: nothing when no
      turn is available, otherwise the drawn one of all available turns. */
  method GetTurn(s: GameState, id: PlayerId, draw: nat) returns (t: Option<Turn>)
    requires Covers(s.board.grid, s.board.size)
    ensures var all := AllTurns(ValidTurns(s, id));
      && (t.None? <==> all == [])
      && (t.Some? ==> t.value == all[draw % |all|])
  {
    var turns: seq<Turn> := [];
    var validTurns := GetValidTurns(s, id);
    var i := 0;
    while i < |validTurns|
      invariant 0 <= i <= |validTurns|
      invariant turns == AllTurns(validTurns[..i])
    {
      assert validTurns[..i + 1][..i] == validTurns[..i];
      turns := turns + validTurns[i].1;
      i := i + 1;
    }
    assert validTurns[..i] == validTurns;
    if |turns| == 0 {
      return None;
    }
    return Some(turns[draw % |turns|]);
  }

  // ---------------------------------------------------------------------
  // What the enumeration promises
  // ---------------------------------------------------------------------

  /** The dict has exactly one key per name of an owned style, whether or
      not that style has a legal turn. */
  lemma ValidTurnsKeys(s: GameState, id: PlayerId)
    requires Covers(s.board.grid, s.board.size)
    ensures DistinctKeys(ValidTurns(s, id))
    ensures forall k :: KeyIndex(ValidTurns(s, id), k).Some? <==>
              exists st :: st in s.board.styles && Owns(id, st) && st.name == k
  {
    var owned := StylesOf(s.board.styles, id);
    var ps := Positions(s.board.grid, id);
    TurnTableDistinct(s, id, owned, ps);
    TurnTableKeys(s, id, owned, ps);
    StylesOfSpec(s.board.styles, id);
    forall st | st in s.board.styles && Owns(id, st)
      ensures exists j :: 0 <= j < |owned| && owned[j].name == st.name
    {
      assert st in owned;
    }
    forall j | 0 <= j < |owned|
      ensures owned[j] in s.board.styles && Owns(id, owned[j])
    {
      assert owned[j] in owned;
    }
  }

  /** Where a turn of the dict comes from: a style, a position and a delta. */
  lemma TurnOrigin(s: GameState, id: PlayerId, styles: seq<Style>, ps: seq<Position>, t: Turn)
      returns (j: nat, a: nat, m: nat)
    requires Covers(s.board.grid, s.board.size)
    requires t in AllTurns(TurnTable(s, id, styles, ps))
    ensures j < |styles| && a < |ps| && m < |styles[j].moves|
    ensures IsStep(s, id, styles[j].name, ps[a], styles[j].moves[m], t)
  {
    var d := TurnTable(s, id, styles, ps);
    AllTurnsSpec(d);
    var i :| 0 <= i < |d| && t in d[i].1;
    TurnTableValues(s, id, styles, ps);
    j := LastNamed(styles, d[i].0).value;
    StyleTurnsSpec(s, id, d[i].0, styles[j].moves, ps);
    a, m :| 0 <= a < |ps| && 0 <= m < |styles[j].moves| && IsStep(s, id, d[i].0, ps[a], styles[j].moves[m], t);
  }

  /** What a step says about its turn, field by field. */
  lemma StepFields(s: GameState, id: PlayerId, name: string, pos: Position, d: Delta, t: Turn)
    requires Covers(s.board.grid, s.board.size)
    requires IsStep(s, id, name, pos, d, t)
    ensures t.player == id && t.styleName == name && (t.rowO, t.colO) == pos
    ensures (t.rowD, t.colD) == (t.rowO + Facing(id, d).0, t.colO + Facing(id, d).1)
    ensures IsLegalMove(s, t.rowO, t.colO, t.rowD, t.colD)
  {
  }

  /** One listed position is a cell of the grid holding one of the player's tokens. */
  lemma PositionAt(grid: Grid, id: PlayerId, a: nat)
    requires a < |Positions(grid, id)|
    ensures var p := Positions(grid, id)[a];
      0 <= p.0 < |grid| && 0 <= p.1 < |grid[p.0]| && Matches(id, grid[p.0][p.1])
  {
    PositionsSpec(grid, id);
    assert Positions(grid, id)[a] in Positions(grid, id);
  }

  /** One style of the player is a listed style it owns. */
  lemma OwnedAt(styles: seq<Style>, id: PlayerId, j: nat)
    requires j < |StylesOf(styles, id)|
    ensures StylesOf(styles, id)[j] in styles && Owns(id, StylesOf(styles, id)[j])
  {
    StylesOfSpec(styles, id);
    assert StylesOf(styles, id)[j] in StylesOf(styles, id);
  }

  /** Every turn offered is legal in the current game, starts on one of the
      player's pieces, moves by a delta of an owned style of that name
      turned to the player's side, and carries the player's id. */
  lemma ValidTurnsSound(s: GameState, id: PlayerId, t: Turn)
    requires Covers(s.board.grid, s.board.size)
    requires t in AllTurns(ValidTurns(s, id))
    ensures t.player == id
    ensures IsLegalMove(s, t.rowO, t.colO, t.rowD, t.colD)
    ensures 0 <= t.rowO < |s.board.grid| && 0 <= t.colO < |s.board.grid[t.rowO]|
    ensures Matches(id, s.board.grid[t.rowO][t.colO])
    ensures exists st, m :: st in s.board.styles && Owns(id, st) && st.name == t.styleName &&
              0 <= m < |st.moves| &&
              (t.rowD, t.colD) == (t.rowO + Facing(id, st.moves[m]).0, t.colO + Facing(id, st.moves[m]).1)
  {
    var owned := StylesOf(s.board.styles, id);
    var ps := Positions(s.board.grid, id);
    assert ValidTurns(s, id) == TurnTable(s, id, owned, ps);
    var j, a, m := TurnOrigin(s, id, owned, ps, t);
    var st, pos := owned[j], ps[a];
    StepFields(s, id, st.name, pos, st.moves[m], t);
    PositionAt(s.board.grid, id, a);
    OwnedAt(s.board.styles, id, j);
    assert st in s.board.styles && Owns(id, st) && st.name == t.styleName && 0 <= m < |st.moves| &&
           (t.rowD, t.colD) == (t.rowO + Facing(id, st.moves[m]).0, t.colO + Facing(id, st.moves[m]).1);
  }

  /** Conversely, every legal step from one of the player's pieces by a
      delta of an owned style is offered under that style's name, provided
      the style is the last owned one of its name (a later style with the
      same name replaces the dict entry). */
  lemma ValidTurnsComplete(s: GameState, id: PlayerId, st: Style, p: Position, m: nat)
    requires Covers(s.board.grid, s.board.size)
    requires LastNamed(StylesOf(s.board.styles, id), st.name).Some?
    requires StylesOf(s.board.styles, id)[LastNamed(StylesOf(s.board.styles, id), st.name).value] == st
    requires p in Positions(s.board.grid, id)
    requires m < |st.moves| && StepLegal(s, id, p, st.moves[m])
    ensures StepFrom(id, st.name, p, st.moves[m]) in AllTurns(ValidTurns(s, id))
  {
    var owned := StylesOf(s.board.styles, id);
    var ps := Positions(s.board.grid, id);
    var d := TurnTable(s, id, owned, ps);
    var t := StepFrom(id, st.name, p, st.moves[m]);
    TurnTableKeys(s, id, owned, ps);
    var j := LastNamed(owned, st.name).value;
    assert owned[j].name == st.name;
    var i := KeyIndex(d, st.name).value;
    TurnTableValues(s, id, owned, ps);
    StyleTurnsSpec(s, id, st.name, st.moves, ps);
    var a :| 0 <= a < |ps| && ps[a] == p;
    assert IsStep(s, id, st.name, ps[a], st.moves[m], t);
    assert t in d[i].1;
    AllTurnsSpec(d);
  }
}
