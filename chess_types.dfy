/** Value types shared by the board, the pieces and the game:
    team colours, piece kinds, pieces, positions and moves.
    A Java `null` reference is modelled by `None`. */
module ChessTypes {

  datatype Option<T> = None | Some(value: T)

  /** The two sides of a game (`ChessGame.TeamColor`). */
  datatype TeamColor = WHITE | BLACK

  /** The kinds of piece (`ChessPiece.PieceType`), in the order the source declares them. */
  datatype PieceType = KING | QUEEN | BISHOP | KNIGHT | ROOK | PAWN

  /** A piece is an immutable (colour, kind) pair; it knows nothing about where it stands. */
  datatype ChessPiece = ChessPiece(pieceColor: TeamColor, pieceType: PieceType) {

    /** `ChessPiece.equals`: false against null, otherwise colour and kind both match. */
    function Equals(that: Option<ChessPiece>): (r: bool)
      ensures r <==> that.Some? && that.value.pieceColor == pieceColor && that.value.pieceType == pieceType
    {
      that == Some(this)
    }
  }

  /** A square, 1-indexed: row 1 is WHITE's back rank, row 8 is BLACK's. */
  datatype ChessPosition = ChessPosition(row: int, column: int)

  /** A move; a promotion piece is set only for a pawn move onto the last rank. */
  datatype ChessMove = ChessMove(startPosition: ChessPosition, endPosition: ChessPosition,
                                 promotionPiece: Option<PieceType>)

  /** The side that is not `c`. */
  function Opponent(c: TeamColor): (r: TeamColor)
    ensures r != c
  {
    if c == WHITE then BLACK else WHITE
  }
}
