/** `GameBoard` and `play_game` (game.py): the board object that places
    pieces, runs the win checks after each move and classifies the end of
    the game, and the loop that feeds it the moves of a game file. */
module Game {
  import opened Board
  import opened GameChecker

  /** The outcome of a game: the exceptions `GameOver(code)` and
      `GameError(code)`, and the `StopIteration` of `sliding_window` that
      nothing in game.py catches. */
  datatype Outcome =
    | Draw                  // GameOver(0)
    | Won(player: int)      // GameOver(winner)
    | Incomplete            // GameError(3)
    | IllegalContinue       // GameError(4)
    | IllegalRow            // GameError(5)
    | IllegalColumn         // GameError(6)
    | InvalidFile           // GameError(8)
    | StopIterationEscaped  // uncaught StopIteration

  /** The outcome code of the game's message table. */
  function Code(o: Outcome): int
    requires !o.StopIterationEscaped?
  {
    match o
    case Draw => 0
    case Won(p) => p
    case Incomplete => 3
    case IllegalContinue => 4
    case IllegalRow => 5
    case IllegalColumn => 6
    case InvalidFile => 8
  }

  /** What `make_move` does: place a piece, or raise `GameError(5)` for a
      full column or `GameError(6)` for a column outside the board. */
  datatype MoveResult = Placed(at: Placement) | ColumnFull | ColumnOutside

  /** A line of the move file after `int()`; `NotInt` is the `ValueError`. */
  datatype Token = Int(value: int) | NotInt

  /** `get_player_moves` accepts a token only when it is a positive integer. */
  predicate IsMove(t: Token) {
    t.Int? && t.value > 0
  }

  /** The player of the `n`-th successful move: `cycle(range(1, 3))` gives
      1 on odd moves and 2 on even ones. */
  function PlayerFor(n: int): (p: int)
    ensures p == 1 || p == 2
    ensures p == 1 <==> n % 2 == 1
  {
    if n % 2 == 1 then 1 else 2
  }

  /** The invariant of a `GameBoard`'s state: a `width` by `height` board of
      stacked player pieces, one per move made; the player iterator is due
      to yield the next mover, and the `current_*` fields describe the
      newest piece once there is one. */
  ghost predicate Consistent(board: Grid, width: int, height: int, totalMoves: nat, nextPlayer: int,
                             currentPlayer: Option<int>, currentColumn: Option<int>, currentRow: Option<int>) {
    && Rect(board, width, height)
    && Stacked(board)
    && PlayerPieces(board)
    && totalMoves == Filled(board)
    && nextPlayer == PlayerFor(totalMoves + 1)
    && (totalMoves == 0 ==> currentPlayer.None? && currentColumn.None? && currentRow.None?)
    && (totalMoves > 0 ==>
          && currentPlayer == Some(PlayerFor(totalMoves))
          && currentColumn.Some? && 0 <= currentColumn.value < width
          && currentRow.Some? && 0 <= currentRow.value < height
          && board[currentColumn.value][currentRow.value] == Piece(currentPlayer.value))
  }

  /** Dropping the next mover's piece into the lowest empty cell keeps the
      state consistent, with that piece as the newest. */
  lemma {:induction false} DropKeepsConsistent(board: Grid, width: int, height: int, totalMoves: nat, nextPlayer: int,
                                               currentPlayer: Option<int>, currentColumn: Option<int>, currentRow: Option<int>,
                                               c: nat, row: nat)
    requires width > 0 && height > 0
    requires Consistent(board, width, height, totalMoves, nextPlayer, currentPlayer, currentColumn, currentRow)
    requires c < width && FirstEmpty(board[c]) == Some(row)
    ensures Consistent(board[c := board[c][row := Piece(nextPlayer)]], width, height, totalMoves + 1,
                       if nextPlayer == 1 then 2 else 1, Some(nextPlayer), Some(c), Some(row))
  {
    DropKeepsBoard(board, width, height, c, row, nextPlayer);
  }

  class GameBoard {
    const width: int
    const height: int
    const winningMoves: int
    const maxDiagonalLength: int
    var board: Grid
    var winner: Option<int>
    var currentPlayer: Option<int>
    var currentColumn: Option<int>
    var currentRow: Option<int>
    var totalMoves: nat
    /** The value the `cycle(range(1, 3))` iterator yields next. */
    var nextPlayer: int

    ghost predicate Valid()
      reads this
    {
      && width > 0 && height > 0 && winningMoves > 0
      && maxDiagonalLength == Min(height, width)
      && Consistent(board, width, height, totalMoves, nextPlayer, currentPlayer, currentColumn, currentRow)
    }

    /** The newest placement, once a move has been made. */
    ghost function Current(): Placement
      reads this
      requires Valid() && totalMoves > 0
    {
      Placement(currentColumn.value, currentRow.value, currentPlayer.value)
    }

    /** The part of the state that decides the rest of the game. */
    ghost function Snap(): Snapshot
      reads this
    {
      Snapshot(board, totalMoves, winner)
    }

    /** `__init__`: an empty board, no moves, no winner. */
    constructor (width: int, height: int, winningMoves: int)
      requires width > 0 && height > 0 && winningMoves > 0
      ensures Valid()
      ensures this.width == width && this.height == height && this.winningMoves == winningMoves
      ensures maxDiagonalLength == Min(height, width)
      ensures board == EmptyGrid(width, height)
      ensures totalMoves == 0 && winner.None?
      ensures currentPlayer.None? && currentColumn.None? && currentRow.None?
      ensures nextPlayer == 1
    {
      this.width := width;
      this.height := height;
      this.winningMoves := winningMoves;
      maxDiagonalLength := Min(height, width);
      board := EmptyGrid(width, height);
      winner := None;
      currentPlayer, currentColumn, currentRow := None, None, None;
      totalMoves := 0;
      nextPlayer := 1;
      new;
      EmptyGridFilled(width, height);
    }

    /** `make_move`: drop a piece into column `move - 1`. */
    method MakeMove(move: int) returns (result: MoveResult)
      requires Valid() && move >= 1
      modifies this
      ensures Valid()
      ensures result == ColumnOutside <==> move - 1 >= width
      ensures result == ColumnFull <==> move - 1 < width && FirstEmpty(old(board)[move - 1]).None?
      ensures !result.Placed? ==> unchanged(this)
      ensures result.Placed? ==>
        var c, row, p := move - 1, result.at.row, result.at.player;
        && result.at.column == c
        && FirstEmpty(old(board)[c]) == Some(row)
        && row == Count(old(board)[c])
        && p == PlayerFor(old(totalMoves) + 1)
        && board == old(board)[c := old(board)[c][row := Piece(p)]]
        && totalMoves == old(totalMoves) + 1
        && currentColumn == Some(c) && currentRow == Some(row) && currentPlayer == Some(p)
        && winner == old(winner)
    {
      var column := move - 1;
      if column >= |board| {
        // IndexError
        return ColumnOutside;
      }
      var cells := board[column];
      var row := 0;
      while row < |cells| && cells[row] != Empty
        invariant 0 <= row <= |cells|
        invariant forall i :: 0 <= i < row ==> cells[i] != Empty
      {
        row := row + 1;
      }
      if row == |cells| {
        // StopIteration: no empty cell
        return ColumnFull;
      }
      FirstEmptyOfStacked(cells);
      DropKeepsConsistent(board, width, height, totalMoves, nextPlayer, currentPlayer, currentColumn, currentRow, column, row);
      currentColumn := Some(column);
      currentRow := Some(row);
      totalMoves := totalMoves + 1;
      currentPlayer := Some(nextPlayer);
      nextPlayer := if nextPlayer == 1 then 2 else 1;
      board := board[column := board[column][row := Piece(currentPlayer.value)]];
      result := Placed(Placement(column, row, currentPlayer.value));
    }

    /** `check_for_wins`: nothing is checked before move `2 * winningMoves - 1`;
      after it the line checks run in order, and a win records the player
      who just moved as the winner. */
    method CheckForWins() returns (outcome: CheckOutcome)
      requires Valid()
      modifies this`winner
      ensures Valid()
      ensures !GateOpen(totalMoves, winningMoves) ==> outcome == NoWin
      ensures GateOpen(totalMoves, winningMoves) ==>
        totalMoves > 0 && outcome == LinesCheck(board, width, height, winningMoves, Current())
      ensures winner == if outcome == Win then currentPlayer else old(winner)
    {
      outcome := NoWin;
      if totalMoves >= 2 * winningMoves - 1 {
        var at := Placement(currentColumn.value, currentRow.value, currentPlayer.value);
        var won := CheckVerticalLine(board, winningMoves, at);
        if !won {
          won := CheckLeftDiagonalLine(board, width, height, maxDiagonalLength, winningMoves, at);
        }
        if !won {
          won := CheckRightDiagonalLine(board, width, height, maxDiagonalLength, winningMoves, at);
        }
        if won {
          outcome := Win;
        } else {
          outcome := CheckHorizontalLines(board, width, height, winningMoves, at);
        }
        if outcome == Win {
          // the caught GameOver carries the current player
          winner := currentPlayer;
        }
      }
    }

    /** One pass of `play_game`'s loop: validate the token, refuse a move
        after a win, make the move and check it. `Some(o)` is a game that
        ends here with `o`; `None` goes on to the next token. */
    method Play(token: Token) returns (stop: Option<Outcome>)
      requires Valid()
      modifies this
      ensures Valid()
      ensures var step := Turn(width, height, winningMoves, old(Snap()), token);
        && (stop.Some? <==> step.Ends?)
        && (stop.Some? ==> stop.value == step.outcome)
        && (stop.None? ==> Snap() == step.next)
    {
      if !(token.Int? && token.value > 0) {
        // GameError(8) from get_player_moves
        return Some(InvalidFile);
      }
      if winner.Some? {
        return Some(IllegalContinue);
      }
      var placed := MakeMove(token.value);
      if placed == ColumnFull {
        return Some(IllegalRow);
      }
      if placed == ColumnOutside {
        return Some(IllegalColumn);
      }
      var check := CheckForWins();
      if check == StopIterationRaised {
        return Some(StopIterationEscaped);
      }
      stop := None;
    }
  }

  /** `finish_game`: the winner if there is one; otherwise `Incomplete`
      while moves are left and `Draw` once `width * height` have been made. */
  function FinishGame(width: int, height: int, totalMoves: int, winner: Option<int>): Outcome {
    if winner.None? && totalMoves < width * height then Incomplete
    else if winner.None? then Draw
    else Won(winner.value)
  }

  /** On a board whose move count is its number of pieces, `Draw` means the
      board is full and `Incomplete` means an empty cell is left. */
  lemma {:induction false} FinishGameByFullness(g: Grid, width: nat, height: nat, totalMoves: int, winner: Option<int>)
    requires Rect(g, width, height) && totalMoves == Filled(g)
    ensures winner.Some? ==> FinishGame(width, height, totalMoves, winner) == Won(winner.value)
    ensures FinishGame(width, height, totalMoves, winner) == Draw <==> winner.None? && Full(g)
    ensures FinishGame(width, height, totalMoves, winner) == Incomplete <==> winner.None? && !Full(g)
  {
    FilledBounds(g, width, height);
  }

  /** The board, the move count and the winner: all that the rest of a game
      depends on. */
  datatype Snapshot = Snapshot(board: Grid, totalMoves: nat, winner: Option<int>)

  /** What one pass of `play_game`'s loop does with a token: the game ends
      with an outcome, or goes on from a new state. */
  datatype Step = Ends(outcome: Outcome) | Continues(next: Snapshot)

  /** One token read in state `s`: it is validated as it is read
      (`InvalidFile`), a move after a win is `IllegalContinue`, a failed
      placement ends the game, and a successful one drops the mover's piece,
      counts the move and, once the gate is open, runs the line checks. */
  ghost function Turn(width: int, height: int, winningMoves: int, s: Snapshot, token: Token): (r: Step)
    requires width > 0 && height > 0 && winningMoves > 0 && Rect(s.board, width, height)
    ensures r.Continues? ==> Rect(r.next.board, width, height)
  {
    if !IsMove(token) then Ends(InvalidFile)
    else if s.winner.Some? then Ends(IllegalContinue)
    else
      var c := token.value - 1;
      if c >= width then Ends(IllegalColumn)
      else match FirstEmpty(s.board[c])
        case None => Ends(IllegalRow)
        case Some(row) =>
          var total := s.totalMoves + 1;
          var at := Placement(c, row, PlayerFor(total));
          var g := s.board[c := s.board[c][row := Piece(at.player)]];
          var check := if GateOpen(total, winningMoves) then LinesCheck(g, width, height, winningMoves, at) else NoWin;
          if check == StopIterationRaised then Ends(StopIterationEscaped)
          else Continues(Snapshot(g, total, if check == Win then Some(at.player) else None))
  }

  /** The rest of a game from state `s` on the tokens still to be read:
      one `Turn` per token until one ends the game, and `finish_game`
      once the tokens run out. */
  ghost function Run(width: int, height: int, winningMoves: int, s: Snapshot, tokens: seq<Token>): Outcome
    requires width > 0 && height > 0 && winningMoves > 0 && Rect(s.board, width, height)
    decreases |tokens|
  {
    if tokens == [] then FinishGame(width, height, s.totalMoves, s.winner)
    else match Turn(width, height, winningMoves, s, tokens[0])
      case Ends(o) => o
      case Continues(next) => Run(width, height, winningMoves, next, tokens[1..])
  }

  /** How `Run` ends on its first token when that token ends the game. */
  lemma {:induction false} RunStops(width: int, height: int, winningMoves: int, s: Snapshot, tokens: seq<Token>)
    requires width > 0 && height > 0 && winningMoves > 0 && Rect(s.board, width, height)
    requires tokens != []
    ensures !IsMove(tokens[0]) ==> Run(width, height, winningMoves, s, tokens) == InvalidFile
    ensures IsMove(tokens[0]) && s.winner.Some? ==> Run(width, height, winningMoves, s, tokens) == IllegalContinue
    ensures IsMove(tokens[0]) && s.winner.None? && tokens[0].value - 1 >= width ==>
      Run(width, height, winningMoves, s, tokens) == IllegalColumn
    ensures IsMove(tokens[0]) && s.winner.None? && tokens[0].value - 1 < width && FirstEmpty(s.board[tokens[0].value - 1]).None? ==>
      Run(width, height, winningMoves, s, tokens) == IllegalRow
  {
  }

  /** One successful move whose check raises `StopIteration`. */
  lemma {:induction false} RunRaises(width: int, height: int, winningMoves: int, s: Snapshot, tokens: seq<Token>, at: Placement)
    requires width > 0 && height > 0 && winningMoves > 0 && Rect(s.board, width, height)
    requires tokens != [] && IsMove(tokens[0]) && s.winner.None?
    requires at.column == tokens[0].value - 1 < width
    requires FirstEmpty(s.board[at.column]) == Some(at.row) && at.player == PlayerFor(s.totalMoves + 1)
    requires var g := s.board[at.column := s.board[at.column][at.row := Piece(at.player)]];
      GateOpen(s.totalMoves + 1, winningMoves) && LinesCheck(g, width, height, winningMoves, at) == StopIterationRaised
    ensures Run(width, height, winningMoves, s, tokens) == StopIterationEscaped
  {
  }

  /** One successful move: `Run` goes on from the board with the new piece. */
  lemma {:induction false} RunPlaced(width: int, height: int, winningMoves: int, s: Snapshot, tokens: seq<Token>, at: Placement, check: CheckOutcome)
    requires width > 0 && height > 0 && winningMoves > 0 && Rect(s.board, width, height)
    requires tokens != [] && IsMove(tokens[0]) && s.winner.None?
    requires at.column == tokens[0].value - 1 < width
    requires FirstEmpty(s.board[at.column]) == Some(at.row) && at.player == PlayerFor(s.totalMoves + 1)
    requires var g := s.board[at.column := s.board[at.column][at.row := Piece(at.player)]];
      check == if GateOpen(s.totalMoves + 1, winningMoves) then LinesCheck(g, width, height, winningMoves, at) else NoWin
    requires check != StopIterationRaised
    ensures var g := s.board[at.column := s.board[at.column][at.row := Piece(at.player)]];
      Rect(g, width, height) &&
      Run(width, height, winningMoves, s, tokens)
        == Run(width, height, winningMoves, Snapshot(g, s.totalMoves + 1, if check == Win then Some(at.player) else None), tokens[1..])
  {
  }

  /** A whole game on a fresh board. */
  ghost function Replay(width: int, height: int, winningMoves: int, tokens: seq<Token>): Outcome
    requires width > 0 && height > 0 && winningMoves > 0
  {
    Run(width, height, winningMoves, Snapshot(EmptyGrid(width, height), 0, None), tokens)
  }

  /** Once a winner is recorded the game ends with that winner when the
      file ends, with `IllegalContinue` on a further move, or with
      `InvalidFile` on a token that is not a move. */
  lemma {:induction false} RunAfterWin(width: int, height: int, winningMoves: int, s: Snapshot, tokens: seq<Token>)
    requires width > 0 && height > 0 && winningMoves > 0 && Rect(s.board, width, height)
    requires s.winner.Some?
    ensures Run(width, height, winningMoves, s, tokens)
      == if tokens == [] then Won(s.winner.value)
         else if IsMove(tokens[0]) then IllegalContinue
         else InvalidFile
  {
  }

  /** A game that is won was won by its last move, made by the player whose
      turn it was, and not before the minimum-move gate opened. */
  lemma {:induction false} RunWon(width: int, height: int, winningMoves: int, s: Snapshot, tokens: seq<Token>)
    requires width > 0 && height > 0 && winningMoves > 0 && Rect(s.board, width, height)
    requires s.winner.None?
    ensures Run(width, height, winningMoves, s, tokens).Won? ==>
      && tokens != []
      && GateOpen(s.totalMoves + |tokens|, winningMoves)
      && Run(width, height, winningMoves, s, tokens).player == PlayerFor(s.totalMoves + |tokens|)
    decreases |tokens|
  {
    if tokens != [] && IsMove(tokens[0]) && tokens[0].value - 1 < width {
      var c := tokens[0].value - 1;
      match FirstEmpty(s.board[c])
      case None =>
      case Some(row) =>
        var total := s.totalMoves + 1;
        var at := Placement(c, row, PlayerFor(total));
        var g := s.board[c := s.board[c][row := Piece(at.player)]];
        var check := if GateOpen(total, winningMoves) then LinesCheck(g, width, height, winningMoves, at) else NoWin;
        if check != StopIterationRaised {
          RunPlaced(width, height, winningMoves, s, tokens, at, check);
          if check == NoWin {
            RunWon(width, height, winningMoves, Snapshot(g, total, None), tokens[1..]);
          } else {
            RunAfterWin(width, height, winningMoves, Snapshot(g, total, Some(at.player)), tokens[1..]);
          }
        }
    }
  }

  /** Every successful move fills one more cell: a game that ends in a
      `Draw` made exactly `width * height` moves, and an `Incomplete` one
      fewer. */
  lemma {:induction false} RunMoveCount(width: int, height: int, winningMoves: int, s: Snapshot, tokens: seq<Token>)
    requires width > 0 && height > 0 && winningMoves > 0 && Rect(s.board, width, height)
    requires s.totalMoves == Filled(s.board)
    ensures Run(width, height, winningMoves, s, tokens) == Draw ==> s.totalMoves + |tokens| == width * height
    ensures Run(width, height, winningMoves, s, tokens) == Incomplete ==> s.totalMoves + |tokens| < width * height
    decreases |tokens|
  {
    if tokens == [] {
      FilledBounds(s.board, width, height);
    } else if IsMove(tokens[0]) && s.winner.None? && tokens[0].value - 1 < width {
      var c := tokens[0].value - 1;
      match FirstEmpty(s.board[c])
      case None =>
      case Some(row) =>
        var total := s.totalMoves + 1;
        var at := Placement(c, row, PlayerFor(total));
        var g := s.board[c := s.board[c][row := Piece(at.player)]];
        var check := if GateOpen(total, winningMoves) then LinesCheck(g, width, height, winningMoves, at) else NoWin;
        FilledFill(s.board, c, row, Piece(at.player));
        if check != StopIterationRaised {
          RunMoveCount(width, height, winningMoves, Snapshot(g, total, if check == Win then Some(at.player) else None), tokens[1..]);
        }
    }
  }

  /** What a whole game can end with: a `Draw` uses every cell, an
      `Incomplete` game leaves one empty, and a won game was won by its last
      move, by player 1 on an odd move count and by player 2 on an even
      one, and only once `2 * winningMoves - 1` moves were made. */
  lemma {:induction false} ReplayOutcomes(width: int, height: int, winningMoves: int, tokens: seq<Token>)
    requires width > 0 && height > 0 && winningMoves > 0
    ensures Replay(width, height, winningMoves, tokens) == Draw ==> |tokens| == width * height
    ensures Replay(width, height, winningMoves, tokens) == Incomplete ==> |tokens| < width * height
    ensures Replay(width, height, winningMoves, tokens).Won? ==>
      && |tokens| >= 2 * winningMoves - 1
      && (Replay(width, height, winningMoves, tokens).player == 1 <==> |tokens| % 2 == 1)
      && (Replay(width, height, winningMoves, tokens).player == 2 <==> |tokens| % 2 == 0)
  {
    var s := Snapshot(EmptyGrid(width, height), 0, None);
    EmptyGridFilled(width, height);
    RunMoveCount(width, height, winningMoves, s, tokens);
    RunWon(width, height, winningMoves, s, tokens);
  }

  /** `play_game` after the header: the move loop and `finish_game`. */
  method PlayGame(width: int, height: int, winningMoves: int, tokens: seq<Token>) returns (outcome: Outcome)
    requires width > 0 && height > 0 && winningMoves > 0
    ensures outcome == Replay(width, height, winningMoves, tokens)
  {
    var b := new GameBoard(width, height, winningMoves);
    ghost var goal := Replay(width, height, winningMoves, tokens);
    var i := 0;
    while i < |tokens|
      invariant 0 <= i <= |tokens|
      invariant b.Valid() && b.width == width && b.height == height && b.winningMoves == winningMoves
      invariant Run(width, height, winningMoves, b.Snap(), tokens[i..]) == goal
    {
      assert tokens[i..][0] == tokens[i] && tokens[i..][1..] == tokens[i + 1..];
      var stop := b.Play(tokens[i]);
      if stop.Some? {
        return stop.value;
      }
      i := i + 1;
    }
    outcome := FinishGame(width, height, b.totalMoves, b.winner);
  }
}
