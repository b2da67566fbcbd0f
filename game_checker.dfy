/** `GameChecker` (game.py): decides whether the newest piece completes a
    line of `winningMoves` pieces of the player who placed it. Each check
    only reads the board; the methods below take the board and the newest
    placement as values, and `Game.GameBoard.CheckForWins` runs them in
    the source's order and records the winner.

    What is checked, as the code does it:
    - vertical: the column slice `board[c][:r + 1]`, of which only the
      first `winningMoves` cells (rows `0 .. winningMoves - 1`) are tested;
    - two diagonals running downwards from the new cell, one to the left
      and one to the right, read with Python indexing, so a negative row or
      column wraps round to the far end of the board;
    - horizontal: row `r` over columns `[max(0, c - w), min(width, c + w))`,
      scanned with every window of `w` cells. */
module GameChecker {
  import opened Board
  import opened Helpers

  /** The newest placement: `current_column`, `current_row`, `current_player`. */
  datatype Placement = Placement(column: int, row: int, player: int)

  /** The `orientation` argument of `get_diagonal_line`. */
  datatype Orientation = LeftDown | RightDown

  /** A `GameOver` raised by a check is `Win`; a `StopIteration` raised by
      `sliding_window` escapes the checker and is `StopIterationRaised`. */
  datatype CheckOutcome = NoWin | Win | StopIterationRaised

  /** `check_line_for_win`: a line shorter than `winningMoves` never wins;
      otherwise only its first `winningMoves` cells are tested, from the
      last one backwards. */
  method CheckLineForWin(line: seq<Cell>, winningMoves: int, player: int) returns (won: bool)
    ensures won <==> |line| >= winningMoves && forall i :: 0 <= i < winningMoves ==> line[i] == Piece(player)
  {
    if |line| < winningMoves {
      return false;
    }
    var position := winningMoves - 1;
    while position >= 0
      invariant position <= winningMoves - 1 && winningMoves <= |line|
      invariant forall i :: 0 <= i && position < i < winningMoves ==> line[i] == Piece(player)
      decreases position
    {
      if line[position] != Piece(player) {
        return false;
      }
      position := position - 1;
    }
    won := true;
  }

  /** The vertical check wins when rows `0 .. winningMoves - 1` of the
      column all hold the player's pieces (and the new piece is at least
      that high). */
  ghost predicate VerticalWin(g: Grid, winningMoves: int, at: Placement)
    requires 0 <= at.column < |g| && 0 <= at.row < |g[at.column]|
  {
    && at.row + 1 >= winningMoves
    && forall i :: 0 <= i < winningMoves ==> g[at.column][i] == Piece(at.player)
  }

  /** `check_vertical_line` */
  method CheckVerticalLine(g: Grid, winningMoves: int, at: Placement) returns (won: bool)
    requires 0 <= at.column < |g| && 0 <= at.row < |g[at.column]|
    ensures won <==> VerticalWin(g, winningMoves, at)
  {
    var line := g[at.column][..at.row + 1];
    won := CheckLineForWin(line, winningMoves, at.player);
  }

  /** The column of the `k`-th cell of a downward diagonal. */
  function DiagonalColumn(column: int, orientation: Orientation, k: int): int {
    match orientation
    case RightDown => column + k
    case LeftDown => column - k
  }

  /** What `get_diagonal_line` builds: at most `maxLength` cells, cell `k`
      being `board[column ± k][row - k]` in Python indexing, stopping at the
      first lookup that raises `IndexError`. */
  ghost predicate IsDiagonalLine(g: Grid, at: Placement, maxLength: int, orientation: Orientation, line: seq<Cell>) {
    && (|line| == 0 || |line| <= maxLength)
    && (forall k :: 0 <= k < |line| ==>
          Lookup(g, DiagonalColumn(at.column, orientation, k), at.row - k) == Some(line[k]))
    && (|line| < maxLength ==>
          Lookup(g, DiagonalColumn(at.column, orientation, |line|), at.row - |line|).None?)
  }

  /** `get_diagonal_line`: appends cells until `range(maxLength)` ends or an
      `IndexError` is raised. */
  method GetDiagonalLine(g: Grid, at: Placement, maxLength: int, orientation: Orientation)
    returns (line: seq<Cell>)
    ensures IsDiagonalLine(g, at, maxLength, orientation, line)
  {
    line := [];
    var psn := 0;
    while psn < maxLength
      invariant psn == |line|
      invariant psn == 0 || psn <= maxLength
      invariant forall k :: 0 <= k < |line| ==>
          Lookup(g, DiagonalColumn(at.column, orientation, k), at.row - k) == Some(line[k])
    {
      var cell := Lookup(g, DiagonalColumn(at.column, orientation, psn), at.row - psn);
      if cell.None? {
        return;
      }
      line := line + [cell.value];
      psn := psn + 1;
    }
  }

  /** The diagonal line is determined by the board and the placement. */
  lemma {:induction false} DiagonalLineUnique(g: Grid, at: Placement, maxLength: int, orientation: Orientation, a: seq<Cell>, b: seq<Cell>)
    requires IsDiagonalLine(g, at, maxLength, orientation, a)
    requires IsDiagonalLine(g, at, maxLength, orientation, b)
    ensures a == b
  {
    if |a| < |b| {
      assert false;
    } else if |b| < |a| {
      assert false;
    }
    assert forall k :: 0 <= k < |a| ==> Some(a[k]) == Some(b[k]);
  }

  /** How many cells the diagonal of a `width` by `height` board has:
      the right one is cut when its column reaches `width`, the left one
      never is, because a negative column wraps round. */
  function DiagonalLength(width: int, height: int, column: int, orientation: Orientation): int {
    match orientation
    case RightDown => Min(Min(height, width), width - column)
    case LeftDown => Min(height, width)
  }

  /** Cell `k` of a downward diagonal, with both indices reduced modulo the
      board's size as Python's negative indexing does. */
  function DiagonalCell(g: Grid, width: int, height: int, at: Placement, orientation: Orientation, k: int): Cell
    requires width > 0 && height > 0 && Rect(g, width, height)
  {
    g[DiagonalColumn(at.column, orientation, k) % width][(at.row - k) % height]
  }

  lemma {:induction false} DiagonalLookup(g: Grid, width: int, height: int, at: Placement, orientation: Orientation, k: int)
    requires width > 0 && height > 0 && Rect(g, width, height)
    requires 0 <= at.column < width && 0 <= at.row < height
    requires 0 <= k < Min(height, width)
    ensures k < DiagonalLength(width, height, at.column, orientation) ==>
      Lookup(g, DiagonalColumn(at.column, orientation, k), at.row - k)
        == Some(DiagonalCell(g, width, height, at, orientation, k))
    ensures k >= DiagonalLength(width, height, at.column, orientation) ==>
      Lookup(g, DiagonalColumn(at.column, orientation, k), at.row - k).None?
  {
    var col := DiagonalColumn(at.column, orientation, k);
    assert -width <= col < width ==> 0 <= col % width < width && |g[col % width]| == height;
  }

  /** On a `width` by `height` board with `maxLength = min(height, width)`,
      the line has `DiagonalLength` cells and cell `k` is the board cell at
      column `column ± k` and row `row - k`, both taken modulo the board's size. */
  lemma {:induction false} DiagonalLineShape(g: Grid, width: int, height: int, at: Placement, orientation: Orientation, line: seq<Cell>)
    requires width > 0 && height > 0 && Rect(g, width, height)
    requires 0 <= at.column < width && 0 <= at.row < height
    requires IsDiagonalLine(g, at, Min(height, width), orientation, line)
    ensures |line| == DiagonalLength(width, height, at.column, orientation)
    ensures forall k :: 0 <= k < |line| ==> line[k] == DiagonalCell(g, width, height, at, orientation, k)
  {
    var n := DiagonalLength(width, height, at.column, orientation);
    if |line| < n {
      DiagonalLookup(g, width, height, at, orientation, |line|);
    } else if |line| > n {
      DiagonalLookup(g, width, height, at, orientation, n);
    }
    forall k | 0 <= k < |line|
      ensures line[k] == DiagonalCell(g, width, height, at, orientation, k)
    {
      DiagonalLookup(g, width, height, at, orientation, k);
    }
  }

  /** The left diagonal check wins when the first `winningMoves` cells of
      the (wrapping) left downward diagonal all hold the player's pieces. */
  ghost predicate LeftDiagonalWin(g: Grid, width: int, height: int, winningMoves: int, at: Placement)
    requires width > 0 && height > 0 && Rect(g, width, height)
  {
    && Min(height, width) >= winningMoves
    && forall k :: 0 <= k < winningMoves ==>
         DiagonalCell(g, width, height, at, LeftDown, k) == Piece(at.player)
  }

  /** The right diagonal check wins when the first `winningMoves` cells of
      the right downward diagonal, cut at the right edge, all hold the
      player's pieces (its rows wrap round below row 0). */
  ghost predicate RightDiagonalWin(g: Grid, width: int, height: int, winningMoves: int, at: Placement)
    requires width > 0 && height > 0 && Rect(g, width, height)
  {
    && Min(Min(height, width), width - at.column) >= winningMoves
    && forall k :: 0 <= k < winningMoves ==>
         DiagonalCell(g, width, height, at, RightDown, k) == Piece(at.player)
  }

  /** `check_left_diagonal_line` */
  method CheckLeftDiagonalLine(g: Grid, width: int, height: int, maxDiagonalLength: int, winningMoves: int, at: Placement)
    returns (won: bool)
    requires width > 0 && height > 0 && Rect(g, width, height)
    requires 0 <= at.column < width && 0 <= at.row < height
    requires maxDiagonalLength == Min(height, width)
    ensures won <==> LeftDiagonalWin(g, width, height, winningMoves, at)
  {
    var line := GetDiagonalLine(g, at, maxDiagonalLength, LeftDown);
    DiagonalLineShape(g, width, height, at, LeftDown, line);
    won := CheckLineForWin(line, winningMoves, at.player);
  }

  /** `check_right_diagonal_line` */
  method CheckRightDiagonalLine(g: Grid, width: int, height: int, maxDiagonalLength: int, winningMoves: int, at: Placement)
    returns (won: bool)
    requires width > 0 && height > 0 && Rect(g, width, height)
    requires 0 <= at.column < width && 0 <= at.row < height
    requires maxDiagonalLength == Min(height, width)
    ensures won <==> RightDiagonalWin(g, width, height, winningMoves, at)
  {
    var line := GetDiagonalLine(g, at, maxDiagonalLength, RightDown);
    DiagonalLineShape(g, width, height, at, RightDown, line);
    won := CheckLineForWin(line, winningMoves, at.player);
  }

  /** First column of the horizontal segment (`actual_starting_col`). */
  function SegmentStart(column: int, winningMoves: int): int {
    if column - winningMoves < 0 then 0 else column - winningMoves
  }

  /** One past the last column of the segment (`actual_finishing_col`). */
  function SegmentEnd(width: int, column: int, winningMoves: int): int {
    if column + winningMoves > width then width else column + winningMoves
  }

  /** `sliding_window` raises `StopIteration` on the segment: it is shorter
      than `winningMoves - 1`. */
  predicate HorizontalStops(width: int, column: int, winningMoves: int) {
    SegmentEnd(width, column, winningMoves) - SegmentStart(column, winningMoves) + 1 < winningMoves
  }

  /** Columns `start .. start + winningMoves - 1` of `row` hold the player's pieces. */
  ghost predicate RowRun(g: Grid, start: int, row: int, winningMoves: int, player: int) {
    forall t :: start <= t < start + winningMoves ==>
      0 <= t < |g| && 0 <= row < |g[t]| && g[t][row] == Piece(player)
  }

  /** Some window of the horizontal segment holds only the player's pieces. */
  ghost predicate HorizontalWin(g: Grid, width: int, winningMoves: int, at: Placement) {
    exists s :: SegmentStart(at.column, winningMoves) <= s
      && s + winningMoves <= SegmentEnd(width, at.column, winningMoves)
      && RowRun(g, s, at.row, winningMoves, at.player)
  }

  /** The list comprehension over the segment's columns. */
  function RowSegment(g: Grid, width: int, height: int, row: int, start: int, end: int): (cells: seq<Cell>)
    requires Rect(g, width, height) && 0 <= row < height && 0 <= start <= end <= width
  {
    seq(end - start, i requires 0 <= i < end - start => g[start + i][row])
  }

  /** `check_horizontal_lines` */
  method CheckHorizontalLines(g: Grid, width: int, height: int, winningMoves: int, at: Placement)
    returns (outcome: CheckOutcome)
    requires width > 0 && height > 0 && Rect(g, width, height) && winningMoves > 0
    requires 0 <= at.column < width && 0 <= at.row < height
    ensures outcome == StopIterationRaised <==> HorizontalStops(width, at.column, winningMoves)
    ensures outcome == Win <==> !HorizontalStops(width, at.column, winningMoves) && HorizontalWin(g, width, winningMoves, at)
  {
    var firstCol := at.column - winningMoves;
    var start := if firstCol < 0 then 0 else firstCol;
    var lastCol := at.column + winningMoves;
    var end := if lastCol > width then width else lastCol;
    var row := RowSegment(g, width, height, at.row, start, end);
    var windows := SlidingWindow(row, winningMoves);
    if windows.StopIteration? {
      return StopIterationRaised;
    }
    var i := 0;
    while i < |windows.windows|
      invariant 0 <= i <= |windows.windows|
      invariant forall s :: start <= s < start + i ==> !RowRun(g, s, at.row, winningMoves, at.player)
    {
      var won := CheckLineForWin(windows.windows[i], winningMoves, at.player);
      assert windows.windows[i] == row[i..i + winningMoves];
      if won {
        forall t | start + i <= t < start + i + winningMoves
          ensures 0 <= t < |g| && 0 <= at.row < |g[t]| && g[t][at.row] == Piece(at.player)
        {
          assert g[t][at.row] == row[t - start] == windows.windows[i][t - start - i];
        }
        assert RowRun(g, start + i, at.row, winningMoves, at.player);
        return Win;
      }
      assert !RowRun(g, start + i, at.row, winningMoves, at.player) by {
        var k :| 0 <= k < winningMoves && windows.windows[i][k] != Piece(at.player);
        assert g[start + i + k][at.row] != Piece(at.player);
      }
      i := i + 1;
    }
    outcome := NoWin;
  }

  /** The horizontal segment is too short for `sliding_window` exactly when
      the whole board is narrower than `winningMoves - 1`. */
  lemma {:induction false} HorizontalStopsIffNarrow(width: int, winningMoves: int, at: Placement)
    requires 0 <= at.column < width && winningMoves > 0
    ensures HorizontalStops(width, at.column, winningMoves) <==> width + 1 < winningMoves
  {
  }

  /** The horizontal check finds every horizontal line through the new
      piece: a run of `winningMoves` pieces in its row that covers its column. */
  lemma {:induction false} HorizontalFindsRunThroughPiece(g: Grid, width: int, height: int, winningMoves: int, at: Placement, s: int)
    requires width > 0 && height > 0 && Rect(g, width, height) && winningMoves > 0
    requires 0 <= at.column < width && 0 <= at.row < height
    requires 0 <= s <= at.column < s + winningMoves <= width
    requires RowRun(g, s, at.row, winningMoves, at.player)
    ensures !HorizontalStops(width, at.column, winningMoves)
    ensures HorizontalWin(g, width, winningMoves, at)
  {
  }

  /** The line checks after the minimum-move gate, in the source's order:
      vertical, left diagonal, right diagonal, then horizontal. The first
      win ends the checks; a `StopIteration` can only come from the last. */
  ghost function LinesCheck(g: Grid, width: int, height: int, winningMoves: int, at: Placement): CheckOutcome
    requires width > 0 && height > 0 && Rect(g, width, height) && winningMoves > 0
    requires 0 <= at.column < width && 0 <= at.row < height
  {
    if VerticalWin(g, winningMoves, at) then Win
    else if LeftDiagonalWin(g, width, height, winningMoves, at) then Win
    else if RightDiagonalWin(g, width, height, winningMoves, at) then Win
    else if HorizontalStops(width, at.column, winningMoves) then StopIterationRaised
    else if HorizontalWin(g, width, winningMoves, at) then Win
    else NoWin
  }

  /** `check_for_wins` only starts checking once the first player can have
      placed `winningMoves` pieces. */
  predicate GateOpen(totalMoves: int, winningMoves: int) {
    totalMoves >= 2 * winningMoves - 1
  }

  lemma {:induction false} ModInRange(x: int, n: int)
    requires 0 <= x < n
    ensures x % n == x
  {
  }

  /** Away from the bottom and left edges nothing wraps: the left diagonal
      check reads the geometric down-left line through the new piece. */
  lemma {:induction false} LeftDiagonalInside(g: Grid, width: int, height: int, winningMoves: int, at: Placement)
    requires width > 0 && height > 0 && Rect(g, width, height)
    requires 0 <= at.column < width && 0 <= at.row < height
    requires at.column + 1 >= winningMoves && at.row + 1 >= winningMoves
    ensures forall k :: 0 <= k < winningMoves ==>
      DiagonalCell(g, width, height, at, LeftDown, k) == g[at.column - k][at.row - k]
  {
    forall k | 0 <= k < winningMoves
      ensures DiagonalCell(g, width, height, at, LeftDown, k) == g[at.column - k][at.row - k]
    {
      ModInRange(at.column - k, width);
      ModInRange(at.row - k, height);
    }
  }

  /** The right diagonal reads the geometric down-right line through the
      new piece while it stays above row 0. */
  lemma {:induction false} RightDiagonalInside(g: Grid, width: int, height: int, winningMoves: int, at: Placement)
    requires width > 0 && height > 0 && Rect(g, width, height)
    requires 0 <= at.column < width && 0 <= at.row < height
    requires at.column + winningMoves <= width && at.row + 1 >= winningMoves
    ensures forall k :: 0 <= k < winningMoves ==>
      DiagonalCell(g, width, height, at, RightDown, k) == g[at.column + k][at.row - k]
  {
    forall k | 0 <= k < winningMoves
      ensures DiagonalCell(g, width, height, at, RightDown, k) == g[at.column + k][at.row - k]
    {
      ModInRange(at.column + k, width);
      ModInRange(at.row - k, height);
    }
  }

  /** The vertical check tests rows `0 .. winningMoves - 1`, not the cells
      ending at the new piece: three pieces of player 1 on top of a piece of
      player 2 are not reported. */
  lemma {:induction false} VerticalMissesRaisedLine()
    ensures var g := [[Piece(2), Piece(1), Piece(1), Piece(1)]];
      g[0][1..4] == [Piece(1), Piece(1), Piece(1)] && !VerticalWin(g, 3, Placement(0, 3, 1))
  {
    var g := [[Piece(2), Piece(1), Piece(1), Piece(1)]];
    assert g[0][0] != Piece(1);
  }

  /** Below row 0 or left of column 0 a diagonal wraps round: on a 3 by 3
      board of stacked pieces, the left diagonal from column 1, row 0 goes
      on to column 0, row 2 and then column 2, row 1, three cells that are
      not in line. (`Scenarios.WrapRoundDiagonalWin` reaches this board in
      a game.) */
  lemma {:induction false} LeftDiagonalWrapsRound()
    ensures var g := [[Piece(1), Piece(2), Piece(1)], [Piece(1), Empty, Empty], [Piece(2), Piece(1), Piece(2)]];
      Stacked(g) && LeftDiagonalWin(g, 3, 3, 3, Placement(1, 0, 1))
  {
    var g := [[Piece(1), Piece(2), Piece(1)], [Piece(1), Empty, Empty], [Piece(2), Piece(1), Piece(2)]];
    var at := Placement(1, 0, 1);
    assert (1 - 1) % 3 == 1 - 1 && (0 - 1) % 3 == 2 && (1 - 2) % 3 == 2 && (0 - 2) % 3 == 1;
    assert DiagonalCell(g, 3, 3, at, LeftDown, 0) == g[1][0] == Piece(1);
    assert DiagonalCell(g, 3, 3, at, LeftDown, 1) == g[0][2] == Piece(1);
    assert DiagonalCell(g, 3, 3, at, LeftDown, 2) == g[2][1] == Piece(1);
  }
}
