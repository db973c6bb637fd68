# Onitama rules engine in Dafny

This project models the rules engine of a small Onitama implementation.
Onitama is a two-player board game played on an odd-sized square board.
Each player starts with a back row of monks with a grandmaster in its
centre (four monks on the standard 5 × 5 board). Five movement cards, called
*styles*, are dealt: two to each player and one spare. A move uses a style
the mover names. After the move, that style passes to the spare slot and
the spare passes to the mover. A player wins by putting their grandmaster
on the opponent's starting cell (the *throne*), or by capturing the
opponent's grandmaster. The engine keeps an undo history. A random player
enumerates every turn it could take and draws one.

The modules follow the repository's files:

| module | models |
|---|---|
| `Pieces` | the board symbols and the lower-casing players use to recognise their tokens |
| `Styles` | `Style.py`: a style is a value `(name, moves, owner)` |
| `Boards` | `OnitamaBoard.py`: pure functions over a `BoardState` value, plus the mutable `Board` class with `size`, `grid` and `styles` fields |
| `Stacks` | `OnitamaStack.py`: the `OnitamaStack` class over a `seq` field |
| `Games` | `OnitamaGame.py`: the `OnitamaGame` class is specified by the value functions `MoveSpec`, `UndoSpec` and `Winner` over a `GameState`, and keeps the invariant `Inv` |
| `GameProperties` | lemmas about those functions: undo inverts move, turns alternate over whole games, the documented scenarios |
| `Players` | `Player.py` and `Turn.py`: the token, style and turn enumerations as loop methods, each proved equal to a specification function with its own lemmas |

Methods that change state are proved against value functions.
`OnitamaGame.Move` ensures `MoveResult(State(), out) == MoveSpec(old(State()), …)`.
`OnitamaGame.Undo` ensures `State() == UndoSpec(old(State()))`.
The lemmas then reason about `MoveSpec` and `UndoSpec`. The main ones:

- `MoveThenUndo`: undo restores the exact pre-move state after any successful move.
- `PlayThenUndoAll`: the same holds after any sequence of moves, undone one by one.
- `TurnsAlternate`: turns alternate across a whole game.
- `MoveKeepsInv`: every move keeps the style-ownership invariant of two, two and one spare.
- `MoveKeepsSingleMastersThroughout` and `UndoKeepsSingleMastersThroughout`: no move or undo gives a player a second grandmaster.

Python behaviour modelled explicitly:

- `int(size/2)` truncates toward zero (`Boards.Center`).
- `move` takes the *last* style with the given name.
- `exchange_style(None)` raises, because `None in styles` calls `Style.__eq__` with `None`. This happens after the history push and after the tokens have moved. `MoveSpec` models it as the outcome `StyleNotFound` with the turn unchanged.
- `construct_styles` appends to the existing list.
- `OnitamaGame.set_board` assigns the size before it builds the new board. An even size therefore changes the game's size and then raises.
- Only player `G1`'s deltas are negated.
- `get_valid_turns` fills a dict. Re-assigning a key keeps that key's position, so the dict is modelled as an insertion-ordered association list (`TurnDict`).

In three places the code behaves differently from what the game's rules lead one to expect. The model follows the code in each.

- **Unknown style name.** A name that matches no style reaches `exchange_style(None)`, which raises only after the snapshot was pushed and the token moved (see the list above). `GameProperties.StyleNotFoundThenUndo` proves that a later undo then flips the turn, so the player who was to move loses the turn.
- **One move can win.** By the rules, a single legal move from the initial position cannot end the game. In the code, `is_legal_move` checks only that both cells are on the board, that the origin holds one of the mover's tokens and that the destination does not. Neither the style nor the distance is checked. Player 1's grandmaster may therefore jump from `(0, 2)` to player 2's throne `(4, 2)` with `'crab'`, which wins at once. `GameProperties.OneMoveWin` proves this.
- **Order of the winner checks.** The rules are usually stated player by player: player 2 wins by reaching player 1's throne or by capturing G1, then likewise for player 1. `get_winner` checks both thrones first and both captures after. `GameProperties.WinnerOrderIrrelevant` proves that the player-by-player order (`GameProperties.WinnerByRule`) gives the same winner on every board.

## Model

| member | source | states |
|---|---|---|
| Styles.NewStyle | Style.py:20-26 | a new style has the given name, owner and moves, in order |
| Styles.NewStyleDefaultsToUnowned | Style.py:20 | the owner defaults to EMPTY |
| Styles.SameIgnoresMoves | Style.py:34-38 | two styles are equal exactly when they agree on everything but their moves |
| Styles.GetMoves | Style.py:28-32 | the moves read back rebuild the style with `NewStyle`: nothing is lost or reordered |
| Styles.Same | Style.py:34-38 | every style is equal to itself |
| Styles.SameIsEquivalence | Style.py:34-38 | equality of styles is symmetric and transitive |
| Styles.Copy | Style.py:40-44 | a copy is equal to its original, has the same moves, and is the same value |
| Boards.ValidCoordinate | OnitamaBoard.py:192-194 | true exactly when both coordinates lie in `[0, size)`, for all integers |
| Boards.TokenAt | OnitamaBoard.py:214-216 | a token other than EMPTY is only ever read from a cell on the board, and a cell on the board reads as the grid holds it |
| Boards.OffBoardIsEmpty | OnitamaBoard.py:214-216 | reading an off-board cell yields EMPTY |
| Boards.SetThenGet | OnitamaBoard.py:246 | after writing a valid cell, reading it returns the token, every other cell reads as before, and the grid still covers the board |
| Boards.InitialLayout | OnitamaBoard.py:58-74 | the default board is size × size; row 0 holds player 1's monks with G1 in the centre column, the last row holds player 2's with G2 there, and all other cells are empty |
| Boards.InitialGrandmasters | OnitamaBoard.py:62-71 | on the default board each grandmaster occurs exactly once, on its own throne |
| Boards.Layout | OnitamaBoard.py:59-73 | the nested loops build exactly the default layout |
| Boards.StartingStylesSpec | OnitamaBoard.py:114-132 | five styles crab, horse, mantis, rooster, dragon, owned G1, G1, G2, G2 and EMPTY |
| Boards.FirstUnowned | OnitamaBoard.py:169-170 | the first unowned style, or none when every style is owned |
| Boards.Exchange | OnitamaBoard.py:168-173 | raises exactly for `None` on a non-empty list; a failure changes neither the list nor the argument; no outcome changes a name, a move list or the list's length; a success gives the first unowned style an owner and leaves the exchanged style unowned |
| Boards.ExchangeListed | OnitamaBoard.py:168-173 | for a listed style: succeeds iff it is owned and some style is unowned; on success it swaps owners with the first unowned style and changes nothing else; on failure nothing changes |
| Boards.ExchangeDetached | OnitamaBoard.py:168-173 | for a style object not in the list: succeeds iff an equal style is listed, it is owned and some style is unowned; the listed spare takes its owner and the object becomes unowned |
| Boards.ExchangeNoStyle | OnitamaBoard.py:168 | `None` raises on a non-empty list and returns false on an empty one |
| Boards.OneUnowned | OnitamaBoard.py:169-172 | the standard owners (G1, G1, G2, G2, EMPTY in any order) mean five styles and a spare to swap with |
| Boards.ExchangeKeepsStandardOwners | OnitamaBoard.py:168-173 | exchanging a listed style preserves the standard owners |
| Boards.DetachedExchangeLosesUnowned | OnitamaBoard.py:168-173 | exchanging a detached copy leaves the list with no unowned style |
| Boards.Board.constructor | OnitamaBoard.py:51-76 | an odd size gives the starting styles and either the preset grid or the default layout |
| Boards.Board.Create | OnitamaBoard.py:51-52 | construction fails exactly for an even size |
| Boards.Board.ConstructStyles | OnitamaBoard.py:114-132 | appends the five starting styles to the existing list |
| Boards.Board.ExchangeStyle | OnitamaBoard.py:168-173 | the result and the new style list are those of `Exchange`; when it raises, the list is unchanged |
| Boards.Board.SetToken | OnitamaBoard.py:246 | writes one cell and keeps the board's shape |
| Boards.Board.SetBoard | OnitamaBoard.py:268 | replaces the grid and leaves size and styles unchanged |
| Stacks.OnitamaStack.constructor | OnitamaStack.py:9-13 | the stack starts empty |
| Stacks.OnitamaStack.Push | OnitamaStack.py:23-28 | appends the grid, then the styles |
| Stacks.OnitamaStack.Pop | OnitamaStack.py:15-21 | removes the last two items and returns them in push order |
| Stacks.OnitamaStack.IsEmpty | OnitamaStack.py:30-34 | true exactly when there are no items |
| Stacks.PushThenPop | OnitamaStack.py:15-28 | a pop returns the pair just pushed and empties the stack again |
| Stacks.LastInFirstOut | OnitamaStack.py:15-28 | two pushed snapshots come back in reverse order |
| Games.OtherPlayer | OnitamaGame.py:79-84 | player 1 and player 2 swap; any other player gives None |
| Games.IsLegalMove | OnitamaGame.py:141-156 | a legal move goes from a non-empty cell to a different cell holding a different token |
| Games.LastNamed | OnitamaGame.py:199-201 | the index of the last style with the name, or none when no style has that name |
| Games.FindStyle | OnitamaGame.py:199-201 | the lookup loop finds that same index |
| Games.Relocate | OnitamaGame.py:202-203 | moving a token keeps the grid's shape |
| Games.MoveSpec | OnitamaGame.py:196-207 | refused exactly when illegal, and then the state is unchanged; the sizes never change; any other outcome pushes exactly two snapshot items; an unknown style name keeps the turn and the styles; a successful move hands the turn to the other player |
| Games.UndoSpec | OnitamaGame.py:305-312 | with no history nothing changes; otherwise the last snapshot is dropped and the turn flips; the history stays in whole snapshots and the sizes never change |
| Games.Winner | OnitamaGame.py:249-264 | no winner only while both grandmasters are on the board; player 2 wins whenever G1 is gone, player 1 whenever only G2 is gone; a winner has reached the other's throne or captured the other's grandmaster |
| Games.FlattenOccurs | OnitamaGame.py:256-263 | a token is in the flattened board exactly when it occurs in the grid |
| Games.OnitamaGame.constructor | OnitamaGame.py:47-54 | the default layout, the starting styles, player 1 to move, an empty history |
| Games.OnitamaGame.Move | OnitamaGame.py:196-207 | the new state and the outcome are those of `MoveSpec`, and the invariant is kept |
| Games.OnitamaGame.Undo | OnitamaGame.py:305-312 | the new state is that of `UndoSpec`, and the invariant is kept |
| Games.OnitamaGame.FlattenRows | OnitamaGame.py:256-262 | the nested loops join the rows into exactly the flattened board |
| Games.OnitamaGame.GetWinner | OnitamaGame.py:249-264 | returns `Winner` of the current state |
| Games.OnitamaGame.SetBoard | OnitamaGame.py:341-343 | the size is set first; an odd size gives a fresh board with the grid and the starting styles, an even size keeps the old board |
| Games.MoveKeepsInv | OnitamaGame.py:196-207 | a move keeps the grid covering the board, the standard owners and a well-formed history |
| Games.MoveKeepsWf | OnitamaGame.py:196-207 | a move keeps the grid covering the board and the history in whole snapshots |
| Games.UndoKeepsShape | OnitamaGame.py:305-312 | undo keeps the history in whole snapshots |
| Games.UndoKeepsInv | OnitamaGame.py:305-312 | undo keeps the invariant |
| Games.PushKeepsShape | OnitamaStack.py:23-28 | pushing a grid and a style list keeps the history in whole snapshots, grid first |
| Games.PushKeepsFits | OnitamaGame.py:198 | pushing the current grid and styles keeps every snapshot restorable |
| GameProperties.OtherPlayerInvolution | OnitamaGame.py:79-84 | swapping players twice gives back the player |
| GameProperties.MoveEffects | OnitamaGame.py:196-207 | refused iff illegal, and then nothing changes; otherwise one snapshot is pushed, the origin is emptied and its token lands on the destination, other cells stay; an unknown style name keeps the turn and the styles; a successful move hands the turn over and exchanges the named style |
| GameProperties.MoveThenUndo | OnitamaGame.py:305-312 | undo after a successful move restores the exact previous state |
| GameProperties.StyleNotFoundThenUndo | OnitamaGame.py:199-204 | undo after the unknown-name failure restores grid and styles but flips the turn |
| GameProperties.UndoEffects | OnitamaGame.py:305-312 | with no history nothing changes; otherwise the last snapshot is restored and dropped, and the turn flips |
| GameProperties.RelocateCells | OnitamaGame.py:202-203 | after a relocation the destination holds the origin's token, the origin is empty and every other cell is unchanged |
| GameProperties.RelocateKeepsAtMostOne | OnitamaGame.py:202-203 | a relocation never puts a token other than EMPTY on two cells, and never brings back one that was absent |
| GameProperties.MoveKeepsSingleMasters | OnitamaGame.py:196-207 | a move never gives a player a second grandmaster, and a captured grandmaster stays captured |
| GameProperties.MoveKeepsSingleMastersThroughout | OnitamaGame.py:196-207 | a move keeps at most one G1 and one G2 on the board and in every grid snapshot |
| GameProperties.UndoKeepsSingleMastersThroughout | OnitamaGame.py:305-312 | so does undo, which restores one of those snapshots |
| GameProperties.InitialSingleMasters | OnitamaBoard.py:62-71 | the default layout has at most one grandmaster per player, for every size |
| GameProperties.Play | OnitamaGame.py:198 | every move that gets past the legality check pushes exactly one snapshot |
| GameProperties.PlayFirst | OnitamaGame.py:196-207 | a game's first call is a move, and the rest continues from its state |
| GameProperties.StepTurn | OnitamaGame.py:205 | only a successful move changes the turn |
| GameProperties.TurnsAlternate | OnitamaGame.py:205 | after any sequence of moves, the player to move depends only on whether the number of successful moves is even |
| GameProperties.PlayThenUndoAll | OnitamaGame.py:305-312 | undoing every successful move of a game returns to its start |
| GameProperties.InitialState | OnitamaGame.py:47-54 | the new game satisfies the invariant, player 1 moves first, and there is no winner |
| GameProperties.WinnerOrderIrrelevant | OnitamaGame.py:249-264 | testing player by player (player 2's throne and capture, then player 1's) gives the same winner on every board |
| GameProperties.MoveKeepsCards | OnitamaBoard.py:171 | a move changes only style owners, never names or moves |
| GameProperties.MoveKeepsShape | OnitamaGame.py:202-203 | a move keeps the sizes and the grid's shape |
| GameProperties.Initial5 | OnitamaGame.py:47-54 | the 5 × 5 starting position and its style indices |
| GameProperties.StartingNames | OnitamaBoard.py:114-132 | in the starting list, crab, horse and mantis are the last styles of their names, at 0, 1 and 2 |
| GameProperties.CrabFirstMoved | OnitamaGame.py:220 | the opening crab move succeeds, keeps the invariant and player 2 moves next |
| GameProperties.CrabFirstCells | OnitamaGame.py:220 | after it, G1 stands on (1, 2), (0, 2) is empty and every other cell is as at the start |
| GameProperties.CrabFirst | OnitamaGame.py:220 | both together |
| GameProperties.MantisSecond | OnitamaGame.py:230-232 | player 2's grandmaster may then go to any cell of rows 0 to 3 |
| GameProperties.ThroneWin | OnitamaGame.py:217-224 | crab then mantis onto the throne: player 2 wins |
| GameProperties.CaptureWinFrom | OnitamaGame.py:227-234 | from any standard 5 × 5 start: crab then mantis capturing G1, player 2 wins |
| GameProperties.CapturedBoard | OnitamaGame.py:227-234 | the board after that capture holds no G1 |
| GameProperties.CaptureWin | OnitamaGame.py:227-234 | crab then mantis capturing G1: player 2 wins |
| GameProperties.OwnThroneWinFrom | OnitamaGame.py:237-246 | from any standard 5 × 5 start: three moves ending on player 2's throne, player 1 wins |
| GameProperties.OwnThroneWin | OnitamaGame.py:237-246 | three moves ending on player 2's throne: player 1 wins |
| GameProperties.OntoSecondThrone | OnitamaGame.py:244-246 | G1 reaching player 2's throne wins for player 1 |
| GameProperties.OneMoveWinFrom | OnitamaGame.py:141-156 | from the start, G1 to player 2's throne is legal and wins |
| GameProperties.OneMoveWin | OnitamaGame.py:141-156 | the same from the actual initial state |
| GameProperties.LegalityDoctests | OnitamaGame.py:123-138 | off-board destination: illegal; a far jump onto an empty cell: legal; onto its own cell: illegal |
| GameProperties.ShallowMoveFrom | OnitamaGame.py:182-194 | player 2 moving a monk three rows succeeds; player 2 moving player 1's monk is refused |
| GameProperties.ShallowMove | OnitamaGame.py:182-194 | the same from the actual initial state |
| GameProperties.OpponentStyleFrom | OnitamaGame.py:199-204 | player 1 may name player 2's style; it becomes the spare and player 2 receives the old spare |
| GameProperties.MantisExchange | OnitamaBoard.py:168-173 | exchanging mantis from the starting owners gives owners G1, G1, EMPTY, G2, G2 |
| GameProperties.OpponentStyle | OnitamaGame.py:199-204 | the same from the actual initial state |
| Players.RowPositionsSpec | Player.py:37-39 | the matching positions of a row are exactly its matching cells, left to right |
| Players.PositionsSpec | Player.py:34-40 | the positions are exactly the cells whose lower-cased token equals the lower-cased id, in row-major order |
| Players.GetTokens | Player.py:34-40 | the loops collect exactly those positions |
| Players.StylesOfSpec | Player.py:46-50 | the player's styles are exactly the listed styles it owns |
| Players.StylesOfConcat | Player.py:46-50 | filtering keeps list order |
| Players.GetStyles | Player.py:46-50 | the loop collects exactly those styles |
| Players.KeyIndex | Player.py:62 | where a key sits in the dict: the first entry with that key, or none |
| Players.DictSetSpec | Player.py:62 | after assigning a key it maps to the value; a present key keeps its place, a new one is added at the end; other entries are unchanged; assigning the key again overrides |
| Players.DictSetKeys | Player.py:62 | assigning a key adds that key and changes no other key's presence |
| Players.DictAppend | Player.py:71 | appending to an entry extends the list it was set to |
| Players.DeltaTurnsSpec | Player.py:64-72 | the turns from one position are exactly the legal steps by the style's deltas, turned for G1 |
| Players.StyleTurnsSpec | Player.py:63-72 | a style's turns are exactly its legal steps from any of the player's positions |
| Players.TurnTableDistinct | Player.py:61-62 | the dict never holds a key twice |
| Players.TurnTableKeys | Player.py:61-62 | the keys are exactly the style names |
| Players.TurnTableValues | Player.py:61-72 | each key maps to the turns of the last style with that name |
| Players.AppendDeltaTurns | Player.py:64-72 | the innermost loop appends exactly the legal turns from one position |
| Players.AppendStyleTurns | Player.py:63-72 | the middle loop appends exactly one style's legal turns from every position, position by position |
| Players.GetValidTurns | Player.py:58-74 | the loops build exactly the specified dict |
| Players.AllTurnsSpec | Player.py:110-111 | the concatenated list holds exactly the turns of all entries |
| Players.GetTurn | Player.py:108-116 | none iff no turn is available; otherwise the drawn one of all turns |
| Players.ValidTurnsKeys | Player.py:58-74 | one key per name of an owned style, with distinct keys |
| Players.StepFields | Player.py:70-72 | a recorded turn starts at the position, carries the style name and the player id, and is legal |
| Players.PositionAt | Player.py:36-39 | each listed position is a board cell holding one of the player's tokens |
| Players.OwnedAt | Player.py:47-49 | each of the player's styles is a listed style it owns |
| Players.TurnOrigin | Player.py:61-72 | every turn in the dict comes from a style, a position and a delta that make it a legal step |
| Players.ValidTurnsSound | Player.py:58-74 | every offered turn is legal, starts on a matching piece, uses a delta of an owned style with that name turned for the player, and carries the player's id |
| Players.ValidTurnsComplete | Player.py:58-74 | every legal step by a delta of the last owned style of a name, from one of the player's pieces, is offered under that name |

## Left out

- Rendering: `__str__`, `get_board_string` and `get_styles_string` produce text only.
- Players' own objects: `Player` and its `player1`/`player2` fields become `PlayerRef` and `PlayerId`. The `set_onitama` back-link becomes a `GameState` parameter of the player operations. Object identity is modelled as the tags `Player1`, `Player2` and `NoPlayer`.
- Games.OnitamaGame.constructor: takes no player arguments and requires an odd size. The players' ids are not stored; player 1 owns `G1`/`M1` and player 2 owns `G2`/`M2`.
- `Player.get_turn`: always raises `NotImplementedError`, so it is not modelled.
- Randomness: `randint` in `PlayerRandom.get_turn` becomes the parameter `draw`, and the chosen index is `draw % |all|`.
- Exception classes: an even board size or a missing style is an outcome value, not an exception object.
- Aliasing and copies: styles and grids are values. So `deep_copy`, `get_board`, `get_styles`, `get_styles_deep_copy` and `Style.__copy__` are identities on values (`Styles.Copy`). No shared-reference effects are modelled. For example, mutating a list that `get_styles` returned is not modelled.
- Boards.Board.constructor: a preset grid must cover the board (`Covers`). Other shapes would raise `IndexError` on some read, and that is not modelled.
- Games.OnitamaGame.SetBoard: requires the new grid to cover the new size, and requires the history's grids to cover it too, so that undo stays in bounds. Other grids would raise `IndexError` on some read, and that is not modelled.
- Boards.Board.SetToken: requires an in-range cell. Python's negative indices, which wrap around, are not modelled.
- Pieces: the symbols of `M1` and `G2` are not in the visible sources. They are taken to be the other case of `G1` and `M2`.
- `Board.player1`/`player2` are stored but never read by the engine, so they are not modelled.
- Players.ValidTurnsComplete: when two owned styles share a name, only the last style's steps are promised. This follows the code, which overwrites the dict entry, so the earlier style's steps are not offered.
- GameProperties.MoveKeepsSingleMastersThroughout: at most one grandmaster per player is promised only for games that start from the default layout and only change by move and undo. `set_board` may install a grid with any number of grandmasters, and a game that holds one keeps it.

