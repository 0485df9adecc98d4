/** The 8x8 board (`ChessBoard.java`): a two-dimensional array of optional pieces,
    with its value view `Grid` on which the rules are specified. */
module Board {
  import opened ChessTypes

  /** One array row: eight optional pieces. */
  type Row = r: seq<Option<ChessPiece>> | |r| == 8
    witness [None, None, None, None, None, None, None, None]

  const EmptyRow: Row := [None, None, None, None, None, None, None, None]

  /** The value of a board: `g[8 - row][column - 1]` is the square (row, column),
      the same layout as the source's array. */
  type Grid = g: seq<Row> | |g| == 8
    witness [EmptyRow, EmptyRow, EmptyRow, EmptyRow, EmptyRow, EmptyRow, EmptyRow, EmptyRow]

  /** The 64 squares a position may name. */
  predicate InBoard(p: ChessPosition) {
    1 <= p.row <= 8 && 1 <= p.column <= 8
  }

  /** The array cell that holds square `p`. */
  function Index(p: ChessPosition): (ij: (int, int))
    requires InBoard(p)
    ensures 0 <= ij.0 < 8 && 0 <= ij.1 < 8
    ensures PositionAt(ij.0, ij.1) == p
  {
    (8 - p.row, p.column - 1)
  }

  /** The square stored in array cell (i, j). */
  function PositionAt(i: int, j: int): (p: ChessPosition)
    requires 0 <= i < 8 && 0 <= j < 8
    ensures InBoard(p)
  {
    ChessPosition(8 - i, j + 1)
  }

  /** The index map is a bijection from the 64 squares onto the 64 cells: no two squares share a cell.
      `At`, `Put`, `addPiece` and `getPiece` all address the cell it names. */
  lemma IndexBijective()
    ensures forall p, q :: InBoard(p) && InBoard(q) && Index(p) == Index(q) ==> p == q
    ensures forall i, j :: 0 <= i < 8 && 0 <= j < 8 ==> Index(PositionAt(i, j)) == (i, j)
    ensures forall g: Grid, p {:trigger At(g, p)} :: InBoard(p) ==> At(g, p) == g[Index(p).0][Index(p).1]
  {
  }

  /** The piece on square `p` of a board value. */
  function At(g: Grid, p: ChessPosition): Option<ChessPiece>
    requires InBoard(p)
  {
    g[8 - p.row][p.column - 1]
  }

  /** Board values that agree on every square are equal. */
  lemma GridExtensionality(g: Grid, h: Grid)
    requires forall p {:trigger At(g, p)} :: InBoard(p) ==> At(g, p) == At(h, p)
    ensures g == h
  {
    forall i | 0 <= i < 8
      ensures g[i] == h[i]
    {
      forall j | 0 <= j < 8
        ensures g[i][j] == h[i][j]
      {
        assert At(g, PositionAt(i, j)) == At(h, PositionAt(i, j));
      }
    }
  }

  /** The board value after writing `x` (possibly None, which clears) on square `p`. */
  function Put(g: Grid, p: ChessPosition, x: Option<ChessPiece>): Grid
    requires InBoard(p)
  {
    g[8 - p.row := g[8 - p.row][p.column - 1 := x]]
  }

  /** Writing square `p` sets `p` and no other square. */
  lemma PutAt(g: Grid, p: ChessPosition, x: Option<ChessPiece>, q: ChessPosition)
    requires InBoard(p) && InBoard(q)
    ensures At(Put(g, p, x), q) == if q == p then x else At(g, q)
  {
  }

  /** The board with no piece at all. */
  function EmptyGrid(): (g: Grid)
    ensures forall p {:trigger At(g, p)} :: InBoard(p) ==> At(g, p) == None
    ensures forall i, j :: 0 <= i < 8 && 0 <= j < 8 ==> g[i][j] == None
  {
    [EmptyRow, EmptyRow, EmptyRow, EmptyRow, EmptyRow, EmptyRow, EmptyRow, EmptyRow]
  }

  /** The back rank, column by column from column 1. */
  function BackRank(column: int): (t: PieceType)
    requires 1 <= column <= 8
    ensures t == [ROOK, KNIGHT, BISHOP, QUEEN, KING, BISHOP, KNIGHT, ROOK][column - 1]
  {
    match column
    case 1 => ROOK
    case 2 => KNIGHT
    case 3 => BISHOP
    case 4 => QUEEN
    case 5 => KING
    case 6 => BISHOP
    case 7 => KNIGHT
    case _ => ROOK
  }

  /** What `resetBoard` leaves on square `p` that held `before`: rows 1, 2, 7 and 8 are
      set, rows 3 to 6 keep what they held. */
  function ResetSquare(p: ChessPosition, before: Option<ChessPiece>): Option<ChessPiece>
    requires InBoard(p)
  {
    if p.row == 8 then Some(ChessPiece(BLACK, BackRank(p.column)))
    else if p.row == 7 then Some(ChessPiece(BLACK, PAWN))
    else if p.row == 2 then Some(ChessPiece(WHITE, PAWN))
    else if p.row == 1 then Some(ChessPiece(WHITE, BackRank(p.column)))
    else before
  }

  /** The eight back-rank writes of `resetBoard` for one side, in the order the source makes them. */
  function PlaceBackRank(g: Grid, row: int, color: TeamColor): (r: Grid)
    requires row == 1 || row == 8
  {
    var g1 := Put(g, ChessPosition(row, 1), Some(ChessPiece(color, ROOK)));
    var g2 := Put(g1, ChessPosition(row, 8), Some(ChessPiece(color, ROOK)));
    var g3 := Put(g2, ChessPosition(row, 2), Some(ChessPiece(color, KNIGHT)));
    var g4 := Put(g3, ChessPosition(row, 7), Some(ChessPiece(color, KNIGHT)));
    var g5 := Put(g4, ChessPosition(row, 3), Some(ChessPiece(color, BISHOP)));
    var g6 := Put(g5, ChessPosition(row, 6), Some(ChessPiece(color, BISHOP)));
    var g7 := Put(g6, ChessPosition(row, 4), Some(ChessPiece(color, QUEEN)));
    Put(g7, ChessPosition(row, 5), Some(ChessPiece(color, KING)))
  }

  /** The back rank written by PlaceBackRank, and every other square kept. */
  lemma PlaceBackRankAt(g: Grid, row: int, color: TeamColor, p: ChessPosition)
    requires row == 1 || row == 8
    requires InBoard(p)
    ensures At(PlaceBackRank(g, row, color), p) ==
      if p.row == row then Some(ChessPiece(color, BackRank(p.column))) else At(g, p)
  {
    var g1 := Put(g, ChessPosition(row, 1), Some(ChessPiece(color, ROOK)));
    var g2 := Put(g1, ChessPosition(row, 8), Some(ChessPiece(color, ROOK)));
    var g3 := Put(g2, ChessPosition(row, 2), Some(ChessPiece(color, KNIGHT)));
    var g4 := Put(g3, ChessPosition(row, 7), Some(ChessPiece(color, KNIGHT)));
    var g5 := Put(g4, ChessPosition(row, 3), Some(ChessPiece(color, BISHOP)));
    var g6 := Put(g5, ChessPosition(row, 6), Some(ChessPiece(color, BISHOP)));
    var g7 := Put(g6, ChessPosition(row, 4), Some(ChessPiece(color, QUEEN)));
    PutAt(g, ChessPosition(row, 1), Some(ChessPiece(color, ROOK)), p);
    PutAt(g1, ChessPosition(row, 8), Some(ChessPiece(color, ROOK)), p);
    PutAt(g2, ChessPosition(row, 2), Some(ChessPiece(color, KNIGHT)), p);
    PutAt(g3, ChessPosition(row, 7), Some(ChessPiece(color, KNIGHT)), p);
    PutAt(g4, ChessPosition(row, 3), Some(ChessPiece(color, BISHOP)), p);
    PutAt(g5, ChessPosition(row, 6), Some(ChessPiece(color, BISHOP)), p);
    PutAt(g6, ChessPosition(row, 4), Some(ChessPiece(color, QUEEN)), p);
    PutAt(g7, ChessPosition(row, 5), Some(ChessPiece(color, KING)), p);
  }

  /** Pawn-rank writes of `resetBoard`: columns 1 to `n` of `row` receive `pawn`. */
  function PawnRank(g: Grid, row: int, pawn: Option<ChessPiece>, n: int): (r: Grid)
    requires 1 <= row <= 8 && 0 <= n <= 8
    decreases n
  {
    if n == 0 then g else Put(PawnRank(g, row, pawn, n - 1), ChessPosition(row, n), pawn)
  }

  /** PawnRank fills exactly columns 1 to `n` of its row. */
  lemma {:induction false} PawnRankAt(g: Grid, row: int, pawn: Option<ChessPiece>, n: int, p: ChessPosition)
    requires 1 <= row <= 8 && 0 <= n <= 8
    requires InBoard(p)
    ensures At(PawnRank(g, row, pawn, n), p) ==
      if p.row == row && p.column <= n then pawn else At(g, p)
  {
    if n > 0 {
      PawnRankAt(g, row, pawn, n - 1, p);
      PutAt(PawnRank(g, row, pawn, n - 1), ChessPosition(row, n), pawn, p);
    }
  }

  /** The board value after `resetBoard` on a board whose value was `g`: the writes of
      the source in their order, BLACK first. */
  function ResetGrid(g: Grid): (r: Grid)
  {
    var black := PawnRank(PlaceBackRank(g, 8, BLACK), 7, Some(ChessPiece(BLACK, PAWN)), 8);
    PawnRank(PlaceBackRank(black, 1, WHITE), 2, Some(ChessPiece(WHITE, PAWN)), 8)
  }

  /** `resetBoard` sets the back ranks (ROOK, KNIGHT, BISHOP, QUEEN, KING, BISHOP, KNIGHT,
      ROOK; BLACK on row 8, WHITE on row 1) and both pawn ranks, and leaves rows 3 to 6 as
      they were. */
  lemma ResetGridAt(g: Grid, p: ChessPosition)
    requires InBoard(p)
    ensures At(ResetGrid(g), p) == ResetSquare(p, At(g, p))
  {
    var b1 := PlaceBackRank(g, 8, BLACK);
    var b2 := PawnRank(b1, 7, Some(ChessPiece(BLACK, PAWN)), 8);
    var w1 := PlaceBackRank(b2, 1, WHITE);
    PlaceBackRankAt(g, 8, BLACK, p);
    PawnRankAt(b1, 7, Some(ChessPiece(BLACK, PAWN)), 8, p);
    PlaceBackRankAt(b2, 1, WHITE, p);
    PawnRankAt(w1, 2, Some(ChessPiece(WHITE, PAWN)), 8, p);
  }

  /** The standard starting position: `resetBoard` applied to a fresh, empty board. */
  function StartingGrid(): (g: Grid)
    ensures forall p {:trigger At(g, p)} :: InBoard(p) ==> At(g, p) == ResetSquare(p, None)
  {
    var g := ResetGrid(EmptyGrid());
    forall p {:trigger At(g, p)} | InBoard(p)
      ensures At(g, p) == ResetSquare(p, None)
    {
      ResetGridAt(EmptyGrid(), p);
    }
    g
  }

  /** `ChessBoard`: the source's `ChessPiece[8][8]`, null cells modelled by None. The ghost
      field `grid` is the board's value; Valid() ties it to the array cell by cell. */
  class ChessBoard {
    const boardArray: array2<Option<ChessPiece>>
    ghost var grid: Grid

    ghost predicate Valid()
      reads this, boardArray
    {
      && boardArray.Length0 == 8 && boardArray.Length1 == 8
      && forall i, j :: 0 <= i < 8 && 0 <= j < 8 ==> boardArray[i, j] == grid[i][j]
    }

    /** A new board is empty on all 64 squares. */
    constructor ()
      ensures Valid() && fresh(boardArray)
      ensures grid == EmptyGrid()
    {
      boardArray := new Option<ChessPiece>[8, 8]((i, j) => None);
      grid := EmptyGrid();
    }

    /** `addPiece`: writes `piece` (None clears) on `position` and nothing else. */
    method AddPiece(position: ChessPosition, piece: Option<ChessPiece>)
      requires Valid() && InBoard(position)
      modifies this, boardArray
      ensures Valid()
      ensures grid == Put(old(grid), position, piece)
    {
      boardArray[8 - position.row, position.column - 1] := piece;
      grid := Put(grid, position, piece);
    }

    /** `getPiece`: the occupant of `position`, None for an empty square. */
    function GetPiece(position: ChessPosition): (piece: Option<ChessPiece>)
      requires Valid() && InBoard(position)
      reads this, boardArray
      ensures piece == At(grid, position)
    {
      boardArray[8 - position.row, position.column - 1]
    }

    /** `resetBoard`: the writes of the source, in its order; see ResetGridAt for the
        position they produce. */
    method ResetBoard()
      requires Valid()
      modifies this, boardArray
      ensures Valid()
      ensures grid == ResetGrid(old(grid))
    {
      var blackRook := Some(ChessPiece(BLACK, ROOK));
      var blackBishop := Some(ChessPiece(BLACK, BISHOP));
      var blackKnight := Some(ChessPiece(BLACK, KNIGHT));
      var blackQueen := Some(ChessPiece(BLACK, QUEEN));
      var blackKing := Some(ChessPiece(BLACK, KING));
      var blackPawn := Some(ChessPiece(BLACK, PAWN));

      var whiteRook := Some(ChessPiece(WHITE, ROOK));
      var whiteBishop := Some(ChessPiece(WHITE, BISHOP));
      var whiteKnight := Some(ChessPiece(WHITE, KNIGHT));
      var whiteQueen := Some(ChessPiece(WHITE, QUEEN));
      var whiteKing := Some(ChessPiece(WHITE, KING));
      var whitePawn := Some(ChessPiece(WHITE, PAWN));

      ghost var g0 := grid;
      AddPiece(ChessPosition(8, 1), blackRook);
      AddPiece(ChessPosition(8, 8), blackRook);
      AddPiece(ChessPosition(8, 2), blackKnight);
      AddPiece(ChessPosition(8, 7), blackKnight);
      AddPiece(ChessPosition(8, 3), blackBishop);
      AddPiece(ChessPosition(8, 6), blackBishop);
      AddPiece(ChessPosition(8, 4), blackQueen);
      AddPiece(ChessPosition(8, 5), blackKing);
      ghost var b1 := grid;
      for i := 1 to 9
        invariant Valid()
        invariant grid == PawnRank(b1, 7, blackPawn, i - 1)
      {
        AddPiece(ChessPosition(7, i), blackPawn);
      }

      ghost var b2 := grid;
      AddPiece(ChessPosition(1, 1), whiteRook);
      AddPiece(ChessPosition(1, 8), whiteRook);
      AddPiece(ChessPosition(1, 2), whiteKnight);
      AddPiece(ChessPosition(1, 7), whiteKnight);
      AddPiece(ChessPosition(1, 3), whiteBishop);
      AddPiece(ChessPosition(1, 6), whiteBishop);
      AddPiece(ChessPosition(1, 4), whiteQueen);
      AddPiece(ChessPosition(1, 5), whiteKing);
      ghost var w1 := grid;
      for i := 1 to 9
        invariant Valid()
        invariant grid == PawnRank(w1, 2, whitePawn, i - 1)
      {
        AddPiece(ChessPosition(2, i), whitePawn);
      }
    }

    /** `copyBoard`: a new board, with its own array, holding the same pieces on every
        square; later writes to either board cannot reach the other's array. */
    method CopyBoard() returns (board: ChessBoard)
      requires Valid()
      ensures fresh(board) && fresh(board.boardArray) && board.Valid()
      ensures board.grid == grid
    {
      board := new ChessBoard();
      for i := 1 to 9
        invariant board.Valid() && fresh(board) && fresh(board.boardArray)
        invariant forall p {:trigger At(board.grid, p)} :: InBoard(p) ==>
          At(board.grid, p) == if p.row < i then At(grid, p) else None
      {
        for j := 1 to 9
          invariant board.Valid() && fresh(board) && fresh(board.boardArray)
          invariant forall p {:trigger At(board.grid, p)} :: InBoard(p) ==>
            At(board.grid, p) == if p.row < i || (p.row == i && p.column < j) then At(grid, p) else None
        {
          ghost var before := board.grid;
          board.AddPiece(ChessPosition(i, j), boardArray[8 - i, j - 1]);
          forall p | InBoard(p) {
            PutAt(before, ChessPosition(i, j), boardArray[8 - i, j - 1], p);
          }
        }
      }
      GridExtensionality(board.grid, grid);
    }

    /** `equals`: false against null; otherwise structural equality of the two arrays, cell
        by cell, which is equality of the pieces on every square. */
    function Equals(that: ChessBoard?): (r: bool)
      requires Valid() && (that != null ==> that.Valid())
      reads this, boardArray, that, if that != null then {that.boardArray} else {}
      ensures that == null ==> !r
      ensures that != null ==>
        (r <==> forall p {:trigger At(grid, p)} :: InBoard(p) ==> At(grid, p) == At(that.grid, p))
      ensures that != null ==> (r <==> grid == that.grid)
    {
      if that == null then false
      else
        var r := forall i, j :: 0 <= i < 8 && 0 <= j < 8 ==> boardArray[i, j] == that.boardArray[i, j];
        CellsAndSquares(that);
        r
    }

    /** Cell-wise equality of the arrays is square-wise equality of the board values. */
    lemma CellsAndSquares(that: ChessBoard)
      requires Valid() && that.Valid()
      ensures (forall i, j :: 0 <= i < 8 && 0 <= j < 8 ==> boardArray[i, j] == that.boardArray[i, j]) <==>
        (forall p {:trigger At(grid, p)} :: InBoard(p) ==> At(grid, p) == At(that.grid, p))
      ensures (forall p {:trigger At(grid, p)} :: InBoard(p) ==> At(grid, p) == At(that.grid, p)) <==> grid == that.grid
    {
      if forall p {:trigger At(grid, p)} :: InBoard(p) ==> At(grid, p) == At(that.grid, p) {
        GridExtensionality(grid, that.grid);
        forall i, j | 0 <= i < 8 && 0 <= j < 8
          ensures boardArray[i, j] == that.boardArray[i, j]
        {
          assert At(grid, PositionAt(i, j)) == At(that.grid, PositionAt(i, j));
        }
      }
    }
  }
}
