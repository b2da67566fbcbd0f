/** Whole games on small boards, replayed through the model of
    `play_game` one move at a time. Cells are written `E` (empty), `A`
    (player 1) and `B` (player 2), columns from the left, each column
    from row 0 up. */
module Scenarios {
  import opened Board
  import opened GameChecker
  import opened Game

  /** On a 3 by 3 board needing 3 in a row, player 1 drops three pieces into
      column 1 while player 2 drops two into column 2: the fifth move wins
      vertically. */
  lemma {:induction false} VerticalWinGame(t: seq<Token>)
    requires |t| == 5 && t[0] == Int(1) && t[1] == Int(2) && t[2] == Int(1) && t[3] == Int(2) && t[4] == Int(1)
    ensures Replay(3, 3, 3, t) == Won(1)
  {
    var g := EmptyGrid(3, 3);
    assert g[0] == [Empty, Empty, Empty] && g[1] == [Empty, Empty, Empty] && g[2] == [Empty, Empty, Empty];
    assert g == [[Empty, Empty, Empty], [Empty, Empty, Empty], [Empty, Empty, Empty]];
    VerticalWinGameMoves1And2(t);
    assert t[2..][2..] == t[4..];
    VerticalWinGameMoves3And4(t[2..]);
    VerticalWinGameEnding(t[4..]);
  }

  /** Moves 1 and 2 of `VerticalWinGame`, before any check runs. */
  lemma {:induction false} VerticalWinGameMoves1And2(t: seq<Token>)
    requires |t| >= 2 && t[0] == Int(1) && t[1] == Int(2)
    ensures Run(3, 3, 3, Snapshot([[Empty, Empty, Empty], [Empty, Empty, Empty], [Empty, Empty, Empty]], 0, None), t)
      == Run(3, 3, 3, Snapshot([[Piece(1), Empty, Empty], [Piece(2), Empty, Empty], [Empty, Empty, Empty]], 2, None), t[2..])
  {
    var E, A, B := Empty, Piece(1), Piece(2);
    var s0 := Snapshot([[E, E, E], [E, E, E], [E, E, E]], 0, None);
    var s1 := Snapshot([[A, E, E], [E, E, E], [E, E, E]], 1, None);
    assert Run(3, 3, 3, s0, t) == Run(3, 3, 3, s1, t[1..]) by {
      assert s0.board[0][0 := A] == [A, E, E];
      assert s0.board[0 := [A, E, E]] == s1.board;
      RunPlaced(3, 3, 3, s0, t, Placement(0, 0, 1), NoWin);
    }
    var s2 := Snapshot([[A, E, E], [B, E, E], [E, E, E]], 2, None);
    assert Run(3, 3, 3, s1, t[1..]) == Run(3, 3, 3, s2, t[2..]) by {
      assert s1.board[1][0 := B] == [B, E, E];
      assert s1.board[1 := [B, E, E]] == s2.board;
      assert t[1..][1..] == t[2..];
      RunPlaced(3, 3, 3, s1, t[1..], Placement(1, 0, 2), NoWin);
    }
  }

  /** Moves 3 and 4 of `VerticalWinGame`, before any check runs. */
  lemma {:induction false} VerticalWinGameMoves3And4(t: seq<Token>)
    requires |t| >= 2 && t[0] == Int(1) && t[1] == Int(2)
    ensures Run(3, 3, 3, Snapshot([[Piece(1), Empty, Empty], [Piece(2), Empty, Empty], [Empty, Empty, Empty]], 2, None), t)
      == Run(3, 3, 3, Snapshot([[Piece(1), Piece(1), Empty], [Piece(2), Piece(2), Empty], [Empty, Empty, Empty]], 4, None), t[2..])
  {
    var E, A, B := Empty, Piece(1), Piece(2);
    var s2 := Snapshot([[A, E, E], [B, E, E], [E, E, E]], 2, None);
    var s3 := Snapshot([[A, A, E], [B, E, E], [E, E, E]], 3, None);
    assert Run(3, 3, 3, s2, t) == Run(3, 3, 3, s3, t[1..]) by {
      assert s2.board[0][1 := A] == [A, A, E];
      assert s2.board[0 := [A, A, E]] == s3.board;
      RunPlaced(3, 3, 3, s2, t, Placement(0, 1, 1), NoWin);
    }
    var s4 := Snapshot([[A, A, E], [B, B, E], [E, E, E]], 4, None);
    assert Run(3, 3, 3, s3, t[1..]) == Run(3, 3, 3, s4, t[2..]) by {
      assert s3.board[1][1 := B] == [B, B, E];
      assert s3.board[1 := [B, B, E]] == s4.board;
      assert t[1..][1..] == t[2..];
      RunPlaced(3, 3, 3, s3, t[1..], Placement(1, 1, 2), NoWin);
    }
  }

  /** Move 5 of `VerticalWinGame`: player 1's third piece in column 1. */
  lemma {:induction false} VerticalWinGameEnding(t: seq<Token>)
    requires |t| == 1 && t[0] == Int(1)
    ensures Run(3, 3, 3, Snapshot([[Piece(1), Piece(1), Empty], [Piece(2), Piece(2), Empty], [Empty, Empty, Empty]], 4, None), t) == Won(1)
  {
    var E, A, B := Empty, Piece(1), Piece(2);
    var s := Snapshot([[A, A, E], [B, B, E], [E, E, E]], 4, None);
    var at := Placement(0, 2, 1);
    var g := [[A, A, A], [B, B, E], [E, E, E]];
    assert s.board[0][2 := A] == [A, A, A];
    assert s.board[0 := [A, A, A]] == g;
    assert VerticalWin(g, 3, at);
    assert LinesCheck(g, 3, 3, 3, at) == Win;
    FirstEmptyAt(s.board[0], 2);
    RunPlaced(3, 3, 3, s, t, at, Win);
    assert t[1..] == [];
  }

  /** On a 2 by 2 board needing 2 in a row, the third move (player 1 into
      column 2) completes player 1's bottom row, so the fourth move is a
      move after a win. */
  lemma {:induction false} BottomRowThenMove(t: seq<Token>)
    requires |t| == 4 && t[0] == Int(1) && t[1] == Int(1) && t[2] == Int(2) && t[3] == Int(2)
    ensures Replay(2, 2, 2, t) == IllegalContinue
  {
    var g := EmptyGrid(2, 2);
    assert g[0] == [Empty, Empty] && g[1] == [Empty, Empty];
    assert g == [[Empty, Empty], [Empty, Empty]];
    BottomRowThenMoveMoves1And2(t);
    BottomRowThenMoveEnding(t[2..]);
  }

  /** Moves 1 and 2 of `BottomRowThenMove` and of `ThirdIntoNarrowColumn`, before any check runs. */
  lemma {:induction false} BottomRowThenMoveMoves1And2(t: seq<Token>)
    requires |t| >= 2 && t[0] == Int(1) && t[1] == Int(1)
    ensures Run(2, 2, 2, Snapshot([[Empty, Empty], [Empty, Empty]], 0, None), t)
      == Run(2, 2, 2, Snapshot([[Piece(1), Piece(2)], [Empty, Empty]], 2, None), t[2..])
  {
    var E, A, B := Empty, Piece(1), Piece(2);
    var s0 := Snapshot([[E, E], [E, E]], 0, None);
    var s1 := Snapshot([[A, E], [E, E]], 1, None);
    assert Run(2, 2, 2, s0, t) == Run(2, 2, 2, s1, t[1..]) by {
      assert s0.board[0][0 := A] == [A, E];
      assert s0.board[0 := [A, E]] == s1.board;
      RunPlaced(2, 2, 2, s0, t, Placement(0, 0, 1), NoWin);
    }
    var s2 := Snapshot([[A, B], [E, E]], 2, None);
    assert Run(2, 2, 2, s1, t[1..]) == Run(2, 2, 2, s2, t[2..]) by {
      assert s1.board[0][1 := B] == [A, B];
      assert s1.board[0 := [A, B]] == s2.board;
      assert t[1..][1..] == t[2..];
      RunPlaced(2, 2, 2, s1, t[1..], Placement(0, 1, 2), NoWin);
    }
  }

  /** Moves 3 and 4 of `BottomRowThenMove`: the win, then one move too many. */
  lemma {:induction false} BottomRowThenMoveEnding(t: seq<Token>)
    requires |t| == 2 && t[0] == Int(2) && t[1] == Int(2)
    ensures Run(2, 2, 2, Snapshot([[Piece(1), Piece(2)], [Empty, Empty]], 2, None), t) == IllegalContinue
  {
    var E, A, B := Empty, Piece(1), Piece(2);
    var s := Snapshot([[A, B], [E, E]], 2, None);
    var at := Placement(1, 0, 1);
    var g := [[A, B], [A, E]];
    assert s.board[1][0 := A] == [A, E];
    assert s.board[1 := [A, E]] == g;
    assert !VerticalWin(g, 2, at);
    assert (1 - 1) % 2 == 0 && (0 - 1) % 2 == 1;
    assert DiagonalCell(g, 2, 2, at, LeftDown, 1) == B;
    assert !LeftDiagonalWin(g, 2, 2, 2, at);
    assert !RightDiagonalWin(g, 2, 2, 2, at);
    assert !HorizontalStops(2, 1, 2);
    assert RowRun(g, 0, 0, 2, 1);
    assert LinesCheck(g, 2, 2, 2, at) == Win;
    RunPlaced(2, 2, 2, s, t, at, Win);
    RunAfterWin(2, 2, 2, Snapshot(g, 3, Some(1)), t[1..]);
  }

  /** A fourth piece dropped into a 3-high column is an illegal row. */
  lemma {:induction false} ColumnOverflow(t: seq<Token>)
    requires |t| == 4 && t[0] == Int(1) && t[1] == Int(1) && t[2] == Int(1) && t[3] == Int(1)
    ensures Replay(3, 3, 3, t) == IllegalRow
  {
    var g := EmptyGrid(3, 3);
    assert g[0] == [Empty, Empty, Empty] && g[1] == [Empty, Empty, Empty] && g[2] == [Empty, Empty, Empty];
    assert g == [[Empty, Empty, Empty], [Empty, Empty, Empty], [Empty, Empty, Empty]];
    ColumnOverflowMoves1And2(t);
    assert t[2..][1..] == t[3..];
    ColumnOverflowMoves3(t[2..]);
    ColumnOverflowEnding(t[3..]);
  }

  /** Moves 1 and 2 of `ColumnOverflow` and of `WrapRoundDiagonalWin`, before any check runs. */
  lemma {:induction false} ColumnOverflowMoves1And2(t: seq<Token>)
    requires |t| >= 2 && t[0] == Int(1) && t[1] == Int(1)
    ensures Run(3, 3, 3, Snapshot([[Empty, Empty, Empty], [Empty, Empty, Empty], [Empty, Empty, Empty]], 0, None), t)
      == Run(3, 3, 3, Snapshot([[Piece(1), Piece(2), Empty], [Empty, Empty, Empty], [Empty, Empty, Empty]], 2, None), t[2..])
  {
    var E, A, B := Empty, Piece(1), Piece(2);
    var s0 := Snapshot([[E, E, E], [E, E, E], [E, E, E]], 0, None);
    var s1 := Snapshot([[A, E, E], [E, E, E], [E, E, E]], 1, None);
    assert Run(3, 3, 3, s0, t) == Run(3, 3, 3, s1, t[1..]) by {
      assert s0.board[0][0 := A] == [A, E, E];
      assert s0.board[0 := [A, E, E]] == s1.board;
      RunPlaced(3, 3, 3, s0, t, Placement(0, 0, 1), NoWin);
    }
    var s2 := Snapshot([[A, B, E], [E, E, E], [E, E, E]], 2, None);
    assert Run(3, 3, 3, s1, t[1..]) == Run(3, 3, 3, s2, t[2..]) by {
      assert s1.board[0][1 := B] == [A, B, E];
      assert s1.board[0 := [A, B, E]] == s2.board;
      assert t[1..][1..] == t[2..];
      RunPlaced(3, 3, 3, s1, t[1..], Placement(0, 1, 2), NoWin);
    }
  }

  /** Move 3 of `ColumnOverflow`, before any check runs. */
  lemma {:induction false} ColumnOverflowMoves3(t: seq<Token>)
    requires |t| >= 1 && t[0] == Int(1)
    ensures Run(3, 3, 3, Snapshot([[Piece(1), Piece(2), Empty], [Empty, Empty, Empty], [Empty, Empty, Empty]], 2, None), t)
      == Run(3, 3, 3, Snapshot([[Piece(1), Piece(2), Piece(1)], [Empty, Empty, Empty], [Empty, Empty, Empty]], 3, None), t[1..])
  {
    var E, A, B := Empty, Piece(1), Piece(2);
    var s2 := Snapshot([[A, B, E], [E, E, E], [E, E, E]], 2, None);
    var s3 := Snapshot([[A, B, A], [E, E, E], [E, E, E]], 3, None);
    assert Run(3, 3, 3, s2, t) == Run(3, 3, 3, s3, t[1..]) by {
      assert s2.board[0][2 := A] == [A, B, A];
      assert s2.board[0 := [A, B, A]] == s3.board;
      FirstEmptyAt(s2.board[0], 2);
      RunPlaced(3, 3, 3, s2, t, Placement(0, 2, 1), NoWin);
    }
  }

  /** Move 4 of `ColumnOverflow`: column 1 is full. */
  lemma {:induction false} ColumnOverflowEnding(t: seq<Token>)
    requires |t| == 1 && t[0] == Int(1)
    ensures Run(3, 3, 3, Snapshot([[Piece(1), Piece(2), Piece(1)], [Empty, Empty, Empty], [Empty, Empty, Empty]], 3, None), t) == IllegalRow
  {
    var E, A, B := Empty, Piece(1), Piece(2);
    var s := Snapshot([[A, B, A], [E, E, E], [E, E, E]], 3, None);
    assert FirstEmpty(s.board[0]).None?;
    RunStops(3, 3, 3, s, t);
  }

  /** On a 2 by 2 board the third move into column 1 finds it full: the
      game ends with an illegal row before any win is recorded. */
  lemma {:induction false} ThirdIntoNarrowColumn(t: seq<Token>)
    requires |t| == 3 && t[0] == Int(1) && t[1] == Int(1) && t[2] == Int(1)
    ensures Replay(2, 2, 2, t) == IllegalRow
  {
    var g := EmptyGrid(2, 2);
    assert g[0] == [Empty, Empty] && g[1] == [Empty, Empty];
    assert g == [[Empty, Empty], [Empty, Empty]];
    BottomRowThenMoveMoves1And2(t);
    ThirdIntoNarrowColumnEnding(t[2..]);
  }

  /** Move 3 of `ThirdIntoNarrowColumn`: column 1 is full. */
  lemma {:induction false} ThirdIntoNarrowColumnEnding(t: seq<Token>)
    requires |t| == 1 && t[0] == Int(1)
    ensures Run(2, 2, 2, Snapshot([[Piece(1), Piece(2)], [Empty, Empty]], 2, None), t) == IllegalRow
  {
    var E, A, B := Empty, Piece(1), Piece(2);
    var s := Snapshot([[A, B], [E, E]], 2, None);
    assert FirstEmpty(s.board[0]).None?;
    RunStops(2, 2, 2, s, t);
  }

  /** A single row of 3 cells needing 2 in a row, filled 1, 2, 1: no two
      neighbours match, and with every cell used the game is a draw. */
  lemma {:induction false} OneRowDraw(t: seq<Token>)
    requires |t| == 3 && t[0] == Int(1) && t[1] == Int(2) && t[2] == Int(3)
    ensures Replay(3, 1, 2, t) == Draw
  {
    var g := EmptyGrid(3, 1);
    assert g[0] == [Empty] && g[1] == [Empty] && g[2] == [Empty];
    assert g == [[Empty], [Empty], [Empty]];
    OneRowDrawMoves1And2(t);
    OneRowDrawEnding(t[2..]);
  }

  /** Moves 1 and 2 of `OneRowDraw`, before any check runs. */
  lemma {:induction false} OneRowDrawMoves1And2(t: seq<Token>)
    requires |t| >= 2 && t[0] == Int(1) && t[1] == Int(2)
    ensures Run(3, 1, 2, Snapshot([[Empty], [Empty], [Empty]], 0, None), t)
      == Run(3, 1, 2, Snapshot([[Piece(1)], [Piece(2)], [Empty]], 2, None), t[2..])
  {
    var E, A, B := Empty, Piece(1), Piece(2);
    var s0 := Snapshot([[E], [E], [E]], 0, None);
    var s1 := Snapshot([[A], [E], [E]], 1, None);
    assert Run(3, 1, 2, s0, t) == Run(3, 1, 2, s1, t[1..]) by {
      assert s0.board[0][0 := A] == [A];
      assert s0.board[0 := [A]] == s1.board;
      RunPlaced(3, 1, 2, s0, t, Placement(0, 0, 1), NoWin);
    }
    var s2 := Snapshot([[A], [B], [E]], 2, None);
    assert Run(3, 1, 2, s1, t[1..]) == Run(3, 1, 2, s2, t[2..]) by {
      assert s1.board[1][0 := B] == [B];
      assert s1.board[1 := [B]] == s2.board;
      assert t[1..][1..] == t[2..];
      RunPlaced(3, 1, 2, s1, t[1..], Placement(1, 0, 2), NoWin);
    }
  }

  /** Move 3 of `OneRowDraw`: the last cell, and no two neighbours match. */
  lemma {:induction false} OneRowDrawEnding(t: seq<Token>)
    requires |t| == 1 && t[0] == Int(3)
    ensures Run(3, 1, 2, Snapshot([[Piece(1)], [Piece(2)], [Empty]], 2, None), t) == Draw
  {
    var E, A, B := Empty, Piece(1), Piece(2);
    var s := Snapshot([[A], [B], [E]], 2, None);
    var at := Placement(2, 0, 1);
    var g := [[A], [B], [A]];
    assert s.board[2][0 := A] == [A];
    assert s.board[2 := [A]] == g;
    assert !VerticalWin(g, 2, at);
    assert !LeftDiagonalWin(g, 3, 1, 2, at);
    assert !RightDiagonalWin(g, 3, 1, 2, at);
    assert !HorizontalStops(3, 2, 2);
    forall s | 0 <= s && s + 2 <= 3 ensures !RowRun(g, s, 0, 2, 1) {
      assert g[1][0] == B;
    }
    assert !HorizontalWin(g, 3, 2, at);
    assert LinesCheck(g, 3, 1, 2, at) == NoWin;
    RunPlaced(3, 1, 2, s, t, at, NoWin);
    assert t[1..] == [];
  }

  /** A single column 5 high needing 3 in a row: on the fifth move the row
      of the new piece is one cell wide, `sliding_window` is asked for
      windows of 3 from it and its `StopIteration` ends the game. */
  lemma {:induction false} NarrowBoardRaises(t: seq<Token>)
    requires |t| == 5 && t[0] == Int(1) && t[1] == Int(1) && t[2] == Int(1) && t[3] == Int(1) && t[4] == Int(1)
    ensures Replay(1, 5, 3, t) == StopIterationEscaped
  {
    var g := EmptyGrid(1, 5);
    assert g[0] == [Empty, Empty, Empty, Empty, Empty];
    assert g == [[Empty, Empty, Empty, Empty, Empty]];
    NarrowBoardRaisesMoves1And2(t);
    assert t[2..][2..] == t[4..];
    NarrowBoardRaisesMoves3And4(t[2..]);
    NarrowBoardRaisesEnding(t[4..]);
  }

  /** Moves 1 and 2 of `NarrowBoardRaises`, before any check runs. */
  lemma {:induction false} NarrowBoardRaisesMoves1And2(t: seq<Token>)
    requires |t| >= 2 && t[0] == Int(1) && t[1] == Int(1)
    ensures Run(1, 5, 3, Snapshot([[Empty, Empty, Empty, Empty, Empty]], 0, None), t)
      == Run(1, 5, 3, Snapshot([[Piece(1), Piece(2), Empty, Empty, Empty]], 2, None), t[2..])
  {
    var E, A, B := Empty, Piece(1), Piece(2);
    var s0 := Snapshot([[E, E, E, E, E]], 0, None);
    var s1 := Snapshot([[A, E, E, E, E]], 1, None);
    assert Run(1, 5, 3, s0, t) == Run(1, 5, 3, s1, t[1..]) by {
      assert s0.board[0][0 := A] == [A, E, E, E, E];
      assert s0.board[0 := [A, E, E, E, E]] == s1.board;
      RunPlaced(1, 5, 3, s0, t, Placement(0, 0, 1), NoWin);
    }
    var s2 := Snapshot([[A, B, E, E, E]], 2, None);
    assert Run(1, 5, 3, s1, t[1..]) == Run(1, 5, 3, s2, t[2..]) by {
      assert s1.board[0][1 := B] == [A, B, E, E, E];
      assert s1.board[0 := [A, B, E, E, E]] == s2.board;
      assert t[1..][1..] == t[2..];
      RunPlaced(1, 5, 3, s1, t[1..], Placement(0, 1, 2), NoWin);
    }
  }

  /** Moves 3 and 4 of `NarrowBoardRaises`, before any check runs. */
  lemma {:induction false} NarrowBoardRaisesMoves3And4(t: seq<Token>)
    requires |t| >= 2 && t[0] == Int(1) && t[1] == Int(1)
    ensures Run(1, 5, 3, Snapshot([[Piece(1), Piece(2), Empty, Empty, Empty]], 2, None), t)
      == Run(1, 5, 3, Snapshot([[Piece(1), Piece(2), Piece(1), Piece(2), Empty]], 4, None), t[2..])
  {
    var E, A, B := Empty, Piece(1), Piece(2);
    var s2 := Snapshot([[A, B, E, E, E]], 2, None);
    var s3 := Snapshot([[A, B, A, E, E]], 3, None);
    assert Run(1, 5, 3, s2, t) == Run(1, 5, 3, s3, t[1..]) by {
      assert s2.board[0][2 := A] == [A, B, A, E, E];
      assert s2.board[0 := [A, B, A, E, E]] == s3.board;
      FirstEmptyAt(s2.board[0], 2);
      RunPlaced(1, 5, 3, s2, t, Placement(0, 2, 1), NoWin);
    }
    var s4 := Snapshot([[A, B, A, B, E]], 4, None);
    assert Run(1, 5, 3, s3, t[1..]) == Run(1, 5, 3, s4, t[2..]) by {
      assert s3.board[0][3 := B] == [A, B, A, B, E];
      assert s3.board[0 := [A, B, A, B, E]] == s4.board;
      assert t[1..][1..] == t[2..];
      FirstEmptyAt(s3.board[0], 3);
      RunPlaced(1, 5, 3, s3, t[1..], Placement(0, 3, 2), NoWin);
    }
  }

  /** Move 5 of `NarrowBoardRaises`: the first move that is checked. */
  lemma {:induction false} NarrowBoardRaisesEnding(t: seq<Token>)
    requires |t| == 1 && t[0] == Int(1)
    ensures Run(1, 5, 3, Snapshot([[Piece(1), Piece(2), Piece(1), Piece(2), Empty]], 4, None), t) == StopIterationEscaped
  {
    var E, A, B := Empty, Piece(1), Piece(2);
    var s := Snapshot([[A, B, A, B, E]], 4, None);
    var at := Placement(0, 4, 1);
    var g := [[A, B, A, B, A]];
    assert s.board[0][4 := A] == [A, B, A, B, A];
    assert s.board[0 := [A, B, A, B, A]] == g;
    assert !VerticalWin(g, 3, at) by {
      assert g[0][1] == B;
    }
    assert !LeftDiagonalWin(g, 1, 5, 3, at) && !RightDiagonalWin(g, 1, 5, 3, at);
    assert HorizontalStops(1, 0, 3);
    assert LinesCheck(g, 1, 5, 3, at) == StopIterationRaised;
    FirstEmptyAt(s.board[0], 4);
    RunRaises(1, 5, 3, s, t, at);
  }

  /** A board 2 wide and 4 high needing 4 in a row is narrower than
      `winningMoves - 1`, yet the first checked move (the seventh) wins
      vertically: the checks stop at the win, before the horizontal check
      could raise `StopIteration`. */
  lemma {:induction false} VerticalWinOnNarrowBoard(t: seq<Token>)
    requires |t| == 7 && t[0] == Int(1) && t[1] == Int(2) && t[2] == Int(1) && t[3] == Int(2) && t[4] == Int(1) && t[5] == Int(2) && t[6] == Int(1)
    ensures Replay(2, 4, 4, t) == Won(1)
  {
    var g := EmptyGrid(2, 4);
    assert g[0] == [Empty, Empty, Empty, Empty] && g[1] == [Empty, Empty, Empty, Empty];
    assert g == [[Empty, Empty, Empty, Empty], [Empty, Empty, Empty, Empty]];
    VerticalWinOnNarrowBoardMoves1And2(t);
    assert t[2..][2..] == t[4..];
    VerticalWinOnNarrowBoardMoves3And4(t[2..]);
    assert t[4..][2..] == t[6..];
    VerticalWinOnNarrowBoardMoves5And6(t[4..]);
    VerticalWinOnNarrowBoardEnding(t[6..]);
  }

  /** Moves 1 and 2 of `VerticalWinOnNarrowBoard`, before any check runs. */
  lemma {:induction false} VerticalWinOnNarrowBoardMoves1And2(t: seq<Token>)
    requires |t| >= 2 && t[0] == Int(1) && t[1] == Int(2)
    ensures Run(2, 4, 4, Snapshot([[Empty, Empty, Empty, Empty], [Empty, Empty, Empty, Empty]], 0, None), t)
      == Run(2, 4, 4, Snapshot([[Piece(1), Empty, Empty, Empty], [Piece(2), Empty, Empty, Empty]], 2, None), t[2..])
  {
    var E, A, B := Empty, Piece(1), Piece(2);
    var s0 := Snapshot([[E, E, E, E], [E, E, E, E]], 0, None);
    var s1 := Snapshot([[A, E, E, E], [E, E, E, E]], 1, None);
    assert Run(2, 4, 4, s0, t) == Run(2, 4, 4, s1, t[1..]) by {
      assert s0.board[0][0 := A] == [A, E, E, E];
      assert s0.board[0 := [A, E, E, E]] == s1.board;
      RunPlaced(2, 4, 4, s0, t, Placement(0, 0, 1), NoWin);
    }
    var s2 := Snapshot([[A, E, E, E], [B, E, E, E]], 2, None);
    assert Run(2, 4, 4, s1, t[1..]) == Run(2, 4, 4, s2, t[2..]) by {
      assert s1.board[1][0 := B] == [B, E, E, E];
      assert s1.board[1 := [B, E, E, E]] == s2.board;
      assert t[1..][1..] == t[2..];
      RunPlaced(2, 4, 4, s1, t[1..], Placement(1, 0, 2), NoWin);
    }
  }

  /** Moves 3 and 4 of `VerticalWinOnNarrowBoard`, before any check runs. */
  lemma {:induction false} VerticalWinOnNarrowBoardMoves3And4(t: seq<Token>)
    requires |t| >= 2 && t[0] == Int(1) && t[1] == Int(2)
    ensures Run(2, 4, 4, Snapshot([[Piece(1), Empty, Empty, Empty], [Piece(2), Empty, Empty, Empty]], 2, None), t)
      == Run(2, 4, 4, Snapshot([[Piece(1), Piece(1), Empty, Empty], [Piece(2), Piece(2), Empty, Empty]], 4, None), t[2..])
  {
    var E, A, B := Empty, Piece(1), Piece(2);
    var s2 := Snapshot([[A, E, E, E], [B, E, E, E]], 2, None);
    var s3 := Snapshot([[A, A, E, E], [B, E, E, E]], 3, None);
    assert Run(2, 4, 4, s2, t) == Run(2, 4, 4, s3, t[1..]) by {
      assert s2.board[0][1 := A] == [A, A, E, E];
      assert s2.board[0 := [A, A, E, E]] == s3.board;
      RunPlaced(2, 4, 4, s2, t, Placement(0, 1, 1), NoWin);
    }
    var s4 := Snapshot([[A, A, E, E], [B, B, E, E]], 4, None);
    assert Run(2, 4, 4, s3, t[1..]) == Run(2, 4, 4, s4, t[2..]) by {
      assert s3.board[1][1 := B] == [B, B, E, E];
      assert s3.board[1 := [B, B, E, E]] == s4.board;
      assert t[1..][1..] == t[2..];
      RunPlaced(2, 4, 4, s3, t[1..], Placement(1, 1, 2), NoWin);
    }
  }

  /** Moves 5 and 6 of `VerticalWinOnNarrowBoard`, before any check runs. */
  lemma {:induction false} VerticalWinOnNarrowBoardMoves5And6(t: seq<Token>)
    requires |t| >= 2 && t[0] == Int(1) && t[1] == Int(2)
    ensures Run(2, 4, 4, Snapshot([[Piece(1), Piece(1), Empty, Empty], [Piece(2), Piece(2), Empty, Empty]], 4, None), t)
      == Run(2, 4, 4, Snapshot([[Piece(1), Piece(1), Piece(1), Empty], [Piece(2), Piece(2), Piece(2), Empty]], 6, None), t[2..])
  {
    var E, A, B := Empty, Piece(1), Piece(2);
    var s4 := Snapshot([[A, A, E, E], [B, B, E, E]], 4, None);
    var s5 := Snapshot([[A, A, A, E], [B, B, E, E]], 5, None);
    assert Run(2, 4, 4, s4, t) == Run(2, 4, 4, s5, t[1..]) by {
      assert s4.board[0][2 := A] == [A, A, A, E];
      assert s4.board[0 := [A, A, A, E]] == s5.board;
      FirstEmptyAt(s4.board[0], 2);
      RunPlaced(2, 4, 4, s4, t, Placement(0, 2, 1), NoWin);
    }
    var s6 := Snapshot([[A, A, A, E], [B, B, B, E]], 6, None);
    assert Run(2, 4, 4, s5, t[1..]) == Run(2, 4, 4, s6, t[2..]) by {
      assert s5.board[1][2 := B] == [B, B, B, E];
      assert s5.board[1 := [B, B, B, E]] == s6.board;
      assert t[1..][1..] == t[2..];
      FirstEmptyAt(s5.board[1], 2);
      RunPlaced(2, 4, 4, s5, t[1..], Placement(1, 2, 2), NoWin);
    }
  }

  /** Move 7 of `VerticalWinOnNarrowBoard`: player 1's fourth piece in column 1. */
  lemma {:induction false} VerticalWinOnNarrowBoardEnding(t: seq<Token>)
    requires |t| == 1 && t[0] == Int(1)
    ensures Run(2, 4, 4, Snapshot([[Piece(1), Piece(1), Piece(1), Empty], [Piece(2), Piece(2), Piece(2), Empty]], 6, None), t) == Won(1)
  {
    var E, A, B := Empty, Piece(1), Piece(2);
    var s := Snapshot([[A, A, A, E], [B, B, B, E]], 6, None);
    var at := Placement(0, 3, 1);
    var g := [[A, A, A, A], [B, B, B, E]];
    assert s.board[0][3 := A] == [A, A, A, A];
    assert s.board[0 := [A, A, A, A]] == g;
    assert VerticalWin(g, 4, at);
    assert LinesCheck(g, 2, 4, 4, at) == Win;
    FirstEmptyAt(s.board[0], 3);
    RunPlaced(2, 4, 4, s, t, at, Win);
    assert t[1..] == [];
  }

  /** On a 3 by 3 board needing 3, player 1 wins with the moves 1, 1, 1, 3,
      3, 3, 2 although no three of their pieces are in line: the left
      diagonal from the last piece, in column 2 at row 0, wraps round to
      column 1 at row 2 and then to column 3 at row 1. */
  lemma {:induction false} WrapRoundDiagonalWin(t: seq<Token>)
    requires |t| == 7 && t[0] == Int(1) && t[1] == Int(1) && t[2] == Int(1) && t[3] == Int(3) && t[4] == Int(3) && t[5] == Int(3) && t[6] == Int(2)
    ensures Replay(3, 3, 3, t) == Won(1)
  {
    var g := EmptyGrid(3, 3);
    assert g[0] == [Empty, Empty, Empty] && g[1] == [Empty, Empty, Empty] && g[2] == [Empty, Empty, Empty];
    assert g == [[Empty, Empty, Empty], [Empty, Empty, Empty], [Empty, Empty, Empty]];
    ColumnOverflowMoves1And2(t);
    assert t[2..][2..] == t[4..];
    WrapRoundDiagonalWinMoves3And4(t[2..]);
    assert t[4..][1..] == t[5..];
    WrapRoundDiagonalWinMoves5(t[4..]);
    assert t[5..][1..] == t[6..];
    WrapRoundDiagonalWinMoves6(t[5..]);
    WrapRoundDiagonalWinEnding(t[6..]);
  }

  /** Moves 3 and 4 of `WrapRoundDiagonalWin`, before any check runs. */
  lemma {:induction false} WrapRoundDiagonalWinMoves3And4(t: seq<Token>)
    requires |t| >= 2 && t[0] == Int(1) && t[1] == Int(3)
    ensures Run(3, 3, 3, Snapshot([[Piece(1), Piece(2), Empty], [Empty, Empty, Empty], [Empty, Empty, Empty]], 2, None), t)
      == Run(3, 3, 3, Snapshot([[Piece(1), Piece(2), Piece(1)], [Empty, Empty, Empty], [Piece(2), Empty, Empty]], 4, None), t[2..])
  {
    var E, A, B := Empty, Piece(1), Piece(2);
    var s2 := Snapshot([[A, B, E], [E, E, E], [E, E, E]], 2, None);
    var s3 := Snapshot([[A, B, A], [E, E, E], [E, E, E]], 3, None);
    assert Run(3, 3, 3, s2, t) == Run(3, 3, 3, s3, t[1..]) by {
      assert s2.board[0][2 := A] == [A, B, A];
      assert s2.board[0 := [A, B, A]] == s3.board;
      FirstEmptyAt(s2.board[0], 2);
      RunPlaced(3, 3, 3, s2, t, Placement(0, 2, 1), NoWin);
    }
    var s4 := Snapshot([[A, B, A], [E, E, E], [B, E, E]], 4, None);
    assert Run(3, 3, 3, s3, t[1..]) == Run(3, 3, 3, s4, t[2..]) by {
      assert s3.board[2][0 := B] == [B, E, E];
      assert s3.board[2 := [B, E, E]] == s4.board;
      assert t[1..][1..] == t[2..];
      RunPlaced(3, 3, 3, s3, t[1..], Placement(2, 0, 2), NoWin);
    }
  }

  /** Move 5 of `WrapRoundDiagonalWin`, checked, with no win. */
  lemma {:induction false} WrapRoundDiagonalWinMoves5(t: seq<Token>)
    requires |t| >= 1 && t[0] == Int(3)
    ensures Run(3, 3, 3, Snapshot([[Piece(1), Piece(2), Piece(1)], [Empty, Empty, Empty], [Piece(2), Empty, Empty]], 4, None), t)
      == Run(3, 3, 3, Snapshot([[Piece(1), Piece(2), Piece(1)], [Empty, Empty, Empty], [Piece(2), Piece(1), Empty]], 5, None), t[1..])
  {
    var E, A, B := Empty, Piece(1), Piece(2);
    var s4 := Snapshot([[A, B, A], [E, E, E], [B, E, E]], 4, None);
    var s5 := Snapshot([[A, B, A], [E, E, E], [B, A, E]], 5, None);
    assert Run(3, 3, 3, s4, t) == Run(3, 3, 3, s5, t[1..]) by {
      assert s4.board[2][1 := A] == [B, A, E];
      assert s4.board[2 := [B, A, E]] == s5.board;
      assert DiagonalCell(s5.board, 3, 3, Placement(2, 1, 1), LeftDown, 1) == E;
      assert !HorizontalStops(3, 2, 3);
      assert !HorizontalWin(s5.board, 3, 3, Placement(2, 1, 1)) by {
        assert !RowRun(s5.board, 0, 1, 3, 1) by { assert s5.board[0][1] == B; }
      }
      assert LinesCheck(s5.board, 3, 3, 3, Placement(2, 1, 1)) == NoWin;
      RunPlaced(3, 3, 3, s4, t, Placement(2, 1, 1), NoWin);
    }
  }

  /** Move 6 of `WrapRoundDiagonalWin`, checked, with no win. */
  lemma {:induction false} WrapRoundDiagonalWinMoves6(t: seq<Token>)
    requires |t| >= 1 && t[0] == Int(3)
    ensures Run(3, 3, 3, Snapshot([[Piece(1), Piece(2), Piece(1)], [Empty, Empty, Empty], [Piece(2), Piece(1), Empty]], 5, None), t)
      == Run(3, 3, 3, Snapshot([[Piece(1), Piece(2), Piece(1)], [Empty, Empty, Empty], [Piece(2), Piece(1), Piece(2)]], 6, None), t[1..])
  {
    var E, A, B := Empty, Piece(1), Piece(2);
    var s5 := Snapshot([[A, B, A], [E, E, E], [B, A, E]], 5, None);
    var s6 := Snapshot([[A, B, A], [E, E, E], [B, A, B]], 6, None);
    assert Run(3, 3, 3, s5, t) == Run(3, 3, 3, s6, t[1..]) by {
      assert s5.board[2][2 := B] == [B, A, B];
      assert s5.board[2 := [B, A, B]] == s6.board;
      FirstEmptyAt(s5.board[2], 2);
      assert !VerticalWin(s6.board, 3, Placement(2, 2, 2)) by { assert s6.board[2][1] == A; }
      assert DiagonalCell(s6.board, 3, 3, Placement(2, 2, 2), LeftDown, 1) == E;
      assert !HorizontalStops(3, 2, 3);
      assert !HorizontalWin(s6.board, 3, 3, Placement(2, 2, 2)) by {
        assert !RowRun(s6.board, 0, 2, 3, 2) by { assert s6.board[0][2] == A; }
      }
      assert LinesCheck(s6.board, 3, 3, 3, Placement(2, 2, 2)) == NoWin;
      RunPlaced(3, 3, 3, s5, t, Placement(2, 2, 2), NoWin);
    }
  }

  /** Move 7 of `WrapRoundDiagonalWin`: the diagonal that wraps round. */
  lemma {:induction false} WrapRoundDiagonalWinEnding(t: seq<Token>)
    requires |t| == 1 && t[0] == Int(2)
    ensures Run(3, 3, 3, Snapshot([[Piece(1), Piece(2), Piece(1)], [Empty, Empty, Empty], [Piece(2), Piece(1), Piece(2)]], 6, None), t) == Won(1)
  {
    var E, A, B := Empty, Piece(1), Piece(2);
    var s := Snapshot([[A, B, A], [E, E, E], [B, A, B]], 6, None);
    var at := Placement(1, 0, 1);
    var g := [[A, B, A], [A, E, E], [B, A, B]];
    assert s.board[1][0 := A] == [A, E, E];
    assert s.board[1 := [A, E, E]] == g;
    assert !VerticalWin(g, 3, at);
    assert (1 - 1) % 3 == 0 && (0 - 1) % 3 == 2 && (1 - 2) % 3 == 2 && (0 - 2) % 3 == 1;
    assert DiagonalCell(g, 3, 3, at, LeftDown, 0) == g[1][0] == A;
    assert DiagonalCell(g, 3, 3, at, LeftDown, 1) == g[0][2] == A;
    assert DiagonalCell(g, 3, 3, at, LeftDown, 2) == g[2][1] == A;
    assert LeftDiagonalWin(g, 3, 3, 3, at);
    assert LinesCheck(g, 3, 3, 3, at) == Win;
    RunPlaced(3, 3, 3, s, t, at, Win);
    assert t[1..] == [];
  }
}
