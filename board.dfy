/** The board storage of `GameBoard` (game.py): a list of `width` columns,
    each a list of `height` cells, row 0 at the bottom. A cell is empty
    (`None`) or holds a player id. Also Python's list indexing, where a
    negative index counts from the end and anything else out of range
    raises `IndexError`. */
module Board {

  datatype Option<T> = None | Some(value: T)

  datatype Cell = Empty | Piece(player: int)

  /** `board[column][row]` */
  type Grid = seq<seq<Cell>>

  function Min(a: int, b: int): int {
    if a < b then a else b
  }

  /** Python's `xs[i]` on a list of length `len`: `None` is `IndexError`. */
  function PyIndex(len: nat, i: int): (r: Option<nat>)
    ensures r.Some? <==> 0 <= i + len && i < len
    ensures r.Some? ==> r.value < len && r.value == i % len
  {
    if 0 <= i < len then Some(i)
    else if 0 <= i + len && i < 0 then Some(len + i)
    else None
  }

  /** Python's `board[column][row]`: `None` is `IndexError`. */
  function Lookup(g: Grid, column: int, row: int): (r: Option<Cell>)
    ensures r.Some? <==> -|g| <= column < |g| && -|g[column % |g|]| <= row < |g[column % |g|]|
    ensures r.Some? ==> r.value == g[column % |g|][row % |g[column % |g|]|]
  {
    match PyIndex(|g|, column)
    case None => None
    case Some(c) =>
      match PyIndex(|g[c]|, row)
      case None => None
      case Some(k) => Some(g[c][k])
  }

  /** `width` columns of `height` cells each. */
  ghost predicate Rect(g: Grid, width: int, height: int) {
    |g| == width && forall c :: 0 <= c < |g| ==> |g[c]| == height
  }

  /** The board `[[None for row in range(height)] for col in range(width)]`. */
  function EmptyGrid(width: nat, height: nat): (g: Grid)
    ensures Rect(g, width, height)
    ensures forall c, k :: 0 <= c < width && 0 <= k < height ==> g[c][k] == Empty
  {
    seq(width, _ => seq(height, _ => Empty))
  }

  /** Pieces stack: no filled cell sits above an empty one. */
  ghost predicate StackedColumn(column: seq<Cell>) {
    forall i, j :: 0 <= i < j < |column| && column[i] == Empty ==> column[j] == Empty
  }

  ghost predicate Stacked(g: Grid) {
    forall c :: 0 <= c < |g| ==> StackedColumn(g[c])
  }

  /** Every piece on the board belongs to player 1 or 2. */
  ghost predicate PlayerPieces(g: Grid) {
    forall c, k :: 0 <= c < |g| && 0 <= k < |g[c]| ==> g[c][k] in {Empty, Piece(1), Piece(2)}
  }

  ghost predicate Full(g: Grid) {
    forall c, k :: 0 <= c < |g| && 0 <= k < |g[c]| ==> g[c][k] != Empty
  }

  /** The index of the lowest empty cell of a column, `None` when it is full:
      what `next(x for x, psn in enumerate(column) if psn is None)` finds. */
  function FirstEmpty(column: seq<Cell>): (r: Option<nat>)
    ensures r.Some? ==> r.value < |column| && column[r.value] == Empty
    ensures r.Some? ==> forall i :: 0 <= i < r.value ==> column[i] != Empty
    ensures r.None? <==> forall i :: 0 <= i < |column| ==> column[i] != Empty
  {
    if column == [] then None
    else if column[0] == Empty then Some(0)
    else match FirstEmpty(column[1..])
      case None => None
      case Some(i) => Some(i + 1)
  }

  /** `FirstEmpty` finds exactly the lowest empty cell. */
  lemma {:induction false} FirstEmptyAt(column: seq<Cell>, k: nat)
    requires k < |column| && column[k] == Empty
    requires forall i :: 0 <= i < k ==> column[i] != Empty
    ensures FirstEmpty(column) == Some(k)
  {
  }

  /** Number of filled cells in a column. */
  function Count(column: seq<Cell>): nat {
    if column == [] then 0
    else (if column[0] != Empty then 1 else 0) + Count(column[1..])
  }

  /** Number of filled cells on the board. */
  function Filled(g: Grid): nat {
    if g == [] then 0 else Count(g[0]) + Filled(g[1..])
  }

  lemma {:induction false} CountBounds(column: seq<Cell>)
    ensures Count(column) <= |column|
    ensures Count(column) == |column| <==> forall i :: 0 <= i < |column| ==> column[i] != Empty
  {
    if column != [] {
      CountBounds(column[1..]);
      assert forall i :: 1 <= i < |column| ==> column[i] == column[1..][i - 1];
    }
  }

  /** In a stacked column the lowest empty cell is the one above the pieces. */
  lemma {:induction false} FirstEmptyOfStacked(column: seq<Cell>)
    requires StackedColumn(column)
    ensures FirstEmpty(column) == if Count(column) < |column| then Some(Count(column)) else None
  {
    CountBounds(column);
    if column != [] {
      if column[0] == Empty {
        assert forall i :: 0 <= i < |column[1..]| ==> column[1..][i] == Empty;
        EmptyCount(column[1..]);
      } else {
        FirstEmptyOfStacked(column[1..]);
      }
    }
  }

  lemma {:induction false} EmptyCount(column: seq<Cell>)
    requires forall i :: 0 <= i < |column| ==> column[i] == Empty
    ensures Count(column) == 0
  {
    if column != [] {
      EmptyCount(column[1..]);
    }
  }

  /** Filling one empty cell adds one to the column's count. */
  lemma {:induction false} CountFill(column: seq<Cell>, k: nat, x: Cell)
    requires k < |column| && column[k] == Empty && x != Empty
    ensures Count(column[k := x]) == Count(column) + 1
  {
    if k > 0 {
      CountFill(column[1..], k - 1, x);
      assert column[k := x][1..] == column[1..][k - 1 := x];
    } else {
      assert column[k := x][1..] == column[1..];
    }
  }

  /** Filling one empty cell adds one to the board's count. */
  lemma {:induction false} FilledFill(g: Grid, c: nat, k: nat, x: Cell)
    requires c < |g| && k < |g[c]| && g[c][k] == Empty && x != Empty
    ensures Filled(g[c := g[c][k := x]]) == Filled(g) + 1
  {
    if c > 0 {
      FilledFill(g[1..], c - 1, k, x);
      assert g[c := g[c][k := x]][1..] == g[1..][c - 1 := g[1..][c - 1][k := x]];
    } else {
      CountFill(g[0], k, x);
      assert g[c := g[c][k := x]][1..] == g[1..];
    }
  }

  /** A `width` by `height` board holds at most `width * height` pieces,
      and exactly that many when it is full. */
  lemma {:induction false} FilledBounds(g: Grid, width: nat, height: nat)
    requires Rect(g, width, height)
    ensures Filled(g) <= width * height
    ensures Filled(g) == width * height <==> Full(g)
  {
    if g != [] {
      FilledBounds(g[1..], width - 1, height);
      CountBounds(g[0]);
      assert width * height == height + (width - 1) * height;
      if Full(g) {
        assert forall c, k :: 0 <= c < |g[1..]| && 0 <= k < |g[1..][c]| ==> g[1..][c][k] == g[c + 1][k];
      }
      if Filled(g) == width * height {
        forall c, k | 0 <= c < |g| && 0 <= k < |g[c]| ensures g[c][k] != Empty {
          if c > 0 {
            assert g[c] == g[1..][c - 1];
          }
        }
      }
    }
  }

  /** Dropping a player's piece into the lowest empty cell of a column keeps
      the board rectangular, stacked and holding only player pieces, and
      adds one to its count. */
  lemma {:induction false} DropKeepsBoard(g: Grid, width: nat, height: nat, c: nat, row: nat, p: int)
    requires Rect(g, width, height) && Stacked(g) && PlayerPieces(g)
    requires c < |g| && FirstEmpty(g[c]) == Some(row) && (p == 1 || p == 2)
    ensures Rect(g[c := g[c][row := Piece(p)]], width, height)
    ensures Stacked(g[c := g[c][row := Piece(p)]])
    ensures PlayerPieces(g[c := g[c][row := Piece(p)]])
    ensures Filled(g[c := g[c][row := Piece(p)]]) == Filled(g) + 1
  {
    var column := g[c][row := Piece(p)];
    assert StackedColumn(column) by {
      forall i, j | 0 <= i < j < |column| && column[i] == Empty ensures column[j] == Empty {
        assert i > row && g[c][i] == Empty;
      }
    }
    FilledFill(g, c, row, Piece(p));
  }

  lemma {:induction false} EmptyGridFilled(width: nat, height: nat)
    ensures Filled(EmptyGrid(width, height)) == 0
  {
    var g := EmptyGrid(width, height);
    forall c | 0 <= c < width ensures Count(g[c]) == 0 {
      EmptyCount(g[c]);
    }
    ZeroFilled(g);
  }

  lemma {:induction false} ZeroFilled(g: Grid)
    requires forall c :: 0 <= c < |g| ==> Count(g[c]) == 0
    ensures Filled(g) == 0
  {
    if g != [] {
      assert forall c :: 0 <= c < |g[1..]| ==> g[1..][c] == g[c + 1];
      ZeroFilled(g[1..]);
    }
  }
}
