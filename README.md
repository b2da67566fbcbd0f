# Connect-Z game engine (Dafny model)

This is a model of the Connect-Z engine's core, in game.py:

- `GameBoard` is a board of `width` columns of `height` cells. It drops
  pieces, counts moves and alternates players through `cycle(range(1, 3))`.
- The `GameChecker` win checks are made after each move. They look at the
  vertical slice, the two downward diagonals and a clipped horizontal
  segment around the newest piece.
- `finish_game` classifies the end of a game.
- The move loop of `play_game` feeds the moves of a game file to the board.
- `sliding_window` cuts the horizontal segment into windows. It is the same
  function in helpers.py and game_solver/helpers.py, and is modelled once.

The model has five modules:

- `Board`: cells and grids, Python's list indexing (a negative index counts
  from the end; anything else out of range is `IndexError`), and counting
  lemmas.
- `Helpers`: `sliding_window`, whose `tee` iterators are an array of
  positions advanced by the same nested loops, followed by the `zip` loop.
- `GameChecker`: the line checks, as methods over the board and the newest
  placement. Ghost predicates state which cells each check reads.
- `Game`: the `GameBoard` class, whose fields are updated in place, and
  `FinishGame`. It also holds the ghost functions `Turn` (one pass of the
  move loop) and `Run`/`Replay` (a whole game), and the driver `PlayGame`,
  which is proved to compute `Replay`.
- `Scenarios`: whole games on small boards, replayed through `Replay`.

Exceptions are modelled as values:

| source | model |
|---|---|
| `GameError(5)` / `GameError(6)` from `make_move` | `MoveResult.ColumnFull` / `MoveResult.ColumnOutside` |
| `GameOver` raised by a line check | `CheckOutcome.Win` |
| `GameOver` / `GameError` ending a game | `Outcome`; `Code` gives its number |

`sliding_window` raises `StopIteration` when the row segment is shorter
than `winning_moves - 1`. Nothing in game.py catches it, so it ends the
game as `Outcome.StopIterationEscaped`.

`check_for_wins` stores the caught `GameOver` object in `winner`. That
object carries the player who just moved, and the model stores that
player's id.

What the code does, which the model follows:

- `check_line_for_win` tests only the first `winning_moves` cells of its
  line. The vertical line is the bottom-up slice `board[c][:r + 1]`, so the
  vertical check tests rows `0 .. winning_moves - 1` of the column. It does
  not test the cells ending at the new piece (`VerticalMissesRaisedLine`).
- The diagonals are read with Python indexing. A row below 0 or a column
  left of 0 wraps round to the far end. So the left diagonal always has
  `min(width, height)` cells. The right diagonal has
  `min(min(width, height), width - c)` cells, and its rows wrap
  (`DiagonalLineShape`, `LeftDiagonalWrapsRound`). A game can win through
  such a wrapped diagonal (`WrapRoundDiagonalWin`).
- The horizontal segment is columns `[max(0, c - w), min(width, c + w))`.
  Any run of `w` pieces through the new piece lies inside it
  (`HorizontalFindsRunThroughPiece`).
- On a board narrower than `winning_moves - 1`, the horizontal check always
  raises `StopIteration` (`HorizontalStopsIffNarrow`). It runs only when
  the vertical and diagonal checks have not already found a win. So the
  first checked move that is not such a win ends the game with
  `StopIteration` (`NarrowBoardRaises`). A checked move that wins
  vertically ends it with a win (`VerticalWinOnNarrowBoard`).
- A move token is validated as it is read, before the winner test. So a
  bad token after a win gives code 8, not 4 (`RunAfterWin`).

Two small games show how a game ends early:

- On a 2 by 2 board needing 2, the moves 1, 1, 2, 2 end with code 4.
  Move 3 completes player 1's bottom row, so move 4 is a move after a win
  (`BottomRowThenMove`).
- The moves 1, 1, 1 on a 2 by 2 board end with an illegal row, because
  the third piece does not fit into column 1 (`ThirdIntoNarrowColumn`).

tests/test_game.py was written for another version of game.py: it uses a
`Game` class and a `_check_lines_for_wins` method. Some of its expectations
contradict game.py as written. For example, it expects the line
`[1, None, 0, 1, 1, 1]` to win for player 1 with `winning_moves` 3, but
`check_line_for_win` tests only the first three cells. The model follows
game.py.

## Model

| member | source | states |
|---|---|---|
| Board.PyIndex | game.py:84-92 | Python's `xs[i]` succeeds exactly when `-len <= i < len`, and then reads index `i mod len` |
| Board.Lookup | game.py:84-92 | `board[column][row]` succeeds exactly when both indices are in Python's range, and then reads the cell at both indices reduced modulo the board's sizes |
| Board.EmptyGrid | game.py:153 | the starting board has `width` columns of `height` cells, all empty |
| Board.FirstEmpty | game.py:173 | the row `make_move` finds is an empty cell with only filled cells below it; no row is found exactly when the column is full |
| Board.FirstEmptyOfStacked | game.py:173 | in a column of stacked pieces, the row found is the number of pieces, or none when the column is full |
| Board.FilledFill | game.py:183-185 | filling one empty cell adds one to the number of pieces on the board |
| Board.DropKeepsBoard | game.py:173-185 | dropping a player's piece into the lowest empty cell keeps the board rectangular, stacked and holding only player pieces, and adds one piece |
| Board.FilledBounds | game.py:208 | a `width` by `height` board holds at most `width * height` pieces, and exactly that many iff it is full |
| Helpers.SlidingWindow | helpers.py:30-38 | `StopIteration` iff the sequence is shorter than `size - 1`; otherwise `n - size + 1` windows (none for size 0), window `i` being elements `i .. i + size - 1` |
| Helpers.WindowsSlide | helpers.py:35-38 | every window has `size` elements, and each is the previous one shifted by one element, so windows come in increasing start order |
| Helpers.SingletonWindows | helpers.py:35 | with size 1, every element becomes a one-element window |
| Helpers.EveryRunIsAWindow | game_solver/helpers.py:24-32 | every contiguous run of `size` elements is one of the windows |
| GameChecker.CheckLineForWin | game.py:41-60 | a win iff the line has at least `winning_moves` cells and its first `winning_moves` cells are the player's |
| GameChecker.CheckVerticalLine | game.py:62-69 | a win iff the new piece is at row `winning_moves - 1` or higher and rows `0 .. winning_moves - 1` of its column are the player's |
| GameChecker.GetDiagonalLine | game.py:71-94 | the line has at most `max_diagonal_length` cells; cell `k` is `board[c ± k][r - k]` in Python indexing; it stops early only at an `IndexError` |
| GameChecker.DiagonalLineUnique | game.py:84-94 | the diagonal line is determined by the board and the placement |
| GameChecker.DiagonalLineShape | game.py:84-94 | with `max_diagonal_length = min(height, width)`, the left line has `min(height, width)` cells and the right one `min(min(height, width), width - c)`; each cell is at `(c ± k, r - k)`, both reduced modulo the board's sizes |
| GameChecker.CheckLeftDiagonalLine | game.py:104-110 | a win iff the first `winning_moves` cells of the wrapping left downward diagonal are the player's |
| GameChecker.CheckRightDiagonalLine | game.py:96-102 | a win iff the right downward diagonal, cut at the right edge, is long enough and its first `winning_moves` cells are the player's |
| GameChecker.CheckHorizontalLines | game.py:112-138 | `StopIteration` iff the segment `[max(0, c - w), min(width, c + w))` is shorter than `w - 1`; otherwise a win iff some `w` consecutive cells of the segment in row `r` are the player's |
| GameChecker.HorizontalStopsIffNarrow | game.py:122-138 | the horizontal check raises `StopIteration` exactly when `width + 1 < winning_moves` |
| GameChecker.HorizontalFindsRunThroughPiece | game.py:122-138 | any horizontal run of `winning_moves` of the player's pieces through the new piece is found |
| GameChecker.LeftDiagonalInside | game.py:78-88 | away from the bottom and left edges, the left diagonal is the geometric down-left line through the new piece |
| GameChecker.RightDiagonalInside | game.py:78-88 | while it stays above row 0 and inside the board, the right diagonal is the geometric down-right line |
| GameChecker.VerticalMissesRaisedLine | game.py:62-69 | three pieces of player 1 on top of a piece of player 2 are not a vertical win |
| GameChecker.LeftDiagonalWrapsRound | game.py:84-88 | on a 3 by 3 board of stacked pieces, three cells that are not in line count as a left diagonal win, through wrap-round |
| Game.DropKeepsConsistent | game.py:166-185 | a successful move keeps the board's invariant, with the new piece as the newest; the `cycle(range(1, 3))` iterator then yields the other player, so player 1 makes the odd-numbered moves and player 2 the even ones |
| Game.GameBoard.constructor | game.py:146-164 | an empty `width` by `height` board, no moves, no winner, no current piece, `max_diagonal_length = min(height, width)`, player 1 next |
| Game.GameBoard.MakeMove | game.py:166-185 | code 6 iff column `m - 1` is outside the board and code 5 iff it is full, both with nothing changed; otherwise the mover's piece (player 1 on odd-numbered moves, player 2 on even ones) goes into the lowest empty row, into that cell only, the move count goes up by one and the current fields record the piece |
| Game.GameBoard.CheckForWins | game.py:28-39 | no check before move `2 * winning_moves - 1`; then the outcome of the checks in the order vertical, left, right, horizontal; a win records the current player as the winner |
| Game.GameBoard.Play | game.py:234-240 | one pass of the move loop ends the game or leaves the board in exactly the state `Turn` gives |
| Game.FinishGameByFullness | game.py:203-216 | a set winner is the outcome; otherwise `Draw` iff the board is full and `Incomplete` iff it is not |
| Game.RunAfterWin | game.py:189-240 | after a win: no more tokens gives the winner; a further move gives code 4; a bad token gives code 8 |
| Game.RunWon | game.py:30 | a won game was won by its last move, by the player whose turn it was, and only after the gate opened |
| Game.RunMoveCount | game.py:208-213 | a `Draw` made exactly `width * height` moves, and an `Incomplete` game fewer |
| Game.ReplayOutcomes | game.py:219-242 | a whole game's `Draw` fills the board, `Incomplete` does not, and a win needs at least `2 * winning_moves - 1` moves, going to player 1 on an odd count and to player 2 on an even one |
| Game.PlayGame | game.py:219-242 | the move loop from a fresh board computes `Replay` of the tokens |
| Scenarios.VerticalWinGame | game.py:219-242 | on a 3 by 3 board needing 3, the moves 1, 2, 1, 2, 1 are won by player 1 |
| Scenarios.BottomRowThenMove | game.py:219-242 | on a 2 by 2 board needing 2, the moves 1, 1, 2, 2 end with code 4 |
| Scenarios.ColumnOverflow | game.py:172-176 | on a 3 by 3 board, a fourth piece in column 1 is code 5 |
| Scenarios.ThirdIntoNarrowColumn | game.py:172-176 | on a 2 by 2 board, the moves 1, 1, 1 end with code 5 |
| Scenarios.OneRowDraw | game.py:203-216 | a 3 by 1 board needing 2, filled by the moves 1, 2, 3, is a draw |
| Scenarios.NarrowBoardRaises | game.py:137 | on a 1 by 5 board needing 3, the fifth move raises `StopIteration` out of the game |
| Scenarios.VerticalWinOnNarrowBoard | game.py:30-39 | on a 2 by 4 board needing 4, the moves 1, 2, 1, 2, 1, 2, 1 are won vertically by player 1, with no `StopIteration` |
| Scenarios.WrapRoundDiagonalWin | game.py:84-88 | on a 3 by 3 board needing 3, the moves 1, 1, 1, 3, 3, 3, 2 are won by player 1 through a left diagonal that wraps round |

## Left out

- Reading the game file in `play_game`: opening it, reading its header
  line (game.py:224-231), and the `rstrip` of each move line (game.py:190).
  Board sizes are parameters, and the move lines are a sequence of tokens.
- `parse_file_header` and `validate_board_setup` (imported at game.py:5)
  are not part of this model. The illegal-game check (code 7) is one of
  them. `width`, `height` and `winning_moves` are positive parameters.
- Python's `int()` on a move line: a token is already parsed, as
  `Token.Int(n)`, or `Token.NotInt` for a `ValueError`.
- `start_game` turns file errors into code 9. This is file I/O and is not
  modelled.
- `ArgParser`, `show_summary` and the message tables in config.py,
  constants.py and game_solver/config.py are not modelled. They are command
  line and console I/O. connectz.py is a superseded draft.
- Game.GameBoard.MakeMove: requires `move >= 1`. Its only caller passes
  positive moves only. A column index below `-width` (an `IndexError`) and
  negative indices that wrap are therefore not modelled.
- Helpers.SlidingWindow: `size` is a natural number. The `ValueError` of
  `tee` for a negative size is not modelled.
- Helpers.SlidingWindow: `zip` and `tee` are lazy in Python. The model
  builds all windows first, which is the same sequence that
  `check_horizontal_lines` consumes.
- GameChecker.CheckLineForWin: the winner it sets before raising
  `GameOver` is recorded by `Game.GameBoard.CheckForWins`, which is where
  `check_for_wins` catches it.
