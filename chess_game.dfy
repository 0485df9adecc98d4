/** The game (`ChessGame.java`): the side to move, move legality by playing each candidate
    on the game's own board and taking it back, check, checkmate and stalemate.
    Every rule is first a function of the board value (`Grid`); the class at the end holds
    the turn and the board and runs the loops of the source, proved against those functions. */
module Game {
  import opened ChessTypes
  import opened Board
  import opened Piece

  // ---------------------------------------------------------------------------------
  // Playing a move and taking it back, on a board value
  // ---------------------------------------------------------------------------------

  /** `movePiece`: the end square receives the moving piece, or a new piece of the
      promotion kind in the colour `turn` whose turn it is; then the start square is cleared. */
  function MovePieceGrid(g: Grid, m: ChessMove, turn: TeamColor): Grid
    requires InBoard(m.startPosition) && InBoard(m.endPosition)
  {
    var placed := if m.promotionPiece.Some? then Some(ChessPiece(turn, m.promotionPiece.value))
                  else At(g, m.startPosition);
    Put(Put(g, m.endPosition, placed), m.startPosition, None)
  }

  /** After `movePiece` the start square is empty, the end square holds the moving piece or
      the promoted piece in the turn colour, and every other square is as it was. */
  lemma MovePieceAt(g: Grid, m: ChessMove, turn: TeamColor, q: ChessPosition)
    requires InBoard(m.startPosition) && InBoard(m.endPosition) && InBoard(q)
    ensures At(MovePieceGrid(g, m, turn), q) ==
      if q == m.startPosition then None
      else if q == m.endPosition then
        (if m.promotionPiece.Some? then Some(ChessPiece(turn, m.promotionPiece.value)) else At(g, m.startPosition))
      else At(g, q)
  {
    var placed := if m.promotionPiece.Some? then Some(ChessPiece(turn, m.promotionPiece.value))
                  else At(g, m.startPosition);
    PutAt(g, m.endPosition, placed, q);
    PutAt(Put(g, m.endPosition, placed), m.startPosition, None, q);
  }

  /** The move `validMoves` plays to take `m` back: from the end square to the start square,
      "promoting" to a PAWN when `m` promoted. */
  function ReverseMove(m: ChessMove): (r: ChessMove)
    ensures r.startPosition == m.endPosition && r.endPosition == m.startPosition
    ensures r.promotionPiece.Some? <==> m.promotionPiece.Some?
    ensures r.promotionPiece.Some? ==> r.promotionPiece.value == PAWN
  {
    if m.promotionPiece.Some? then ChessMove(m.endPosition, m.startPosition, Some(PAWN))
    else ChessMove(m.endPosition, m.startPosition, None)
  }

  /** One pass of the `validMoves` loop on a board value: play `m`, play its reverse, and
      put back the piece that stood on the end square, if any. */
  function TryAndRevert(g: Grid, m: ChessMove, turn: TeamColor): Grid
    requires InBoard(m.startPosition) && InBoard(m.endPosition)
  {
    var undone := MovePieceGrid(MovePieceGrid(g, m, turn), ReverseMove(m), turn);
    if At(g, m.endPosition).Some? then Put(undone, m.endPosition, At(g, m.endPosition)) else undone
  }

  /** Taking a move back restores the board exactly, except that after a promotion the
      start square holds a PAWN of the turn colour, whatever colour the pawn had. */
  lemma RevertRule(g: Grid, m: ChessMove, turn: TeamColor)
    requires InBoard(m.startPosition) && InBoard(m.endPosition) && m.startPosition != m.endPosition
    ensures TryAndRevert(g, m, turn) ==
      if m.promotionPiece.Some? then Put(g, m.startPosition, Some(ChessPiece(turn, PAWN))) else g
  {
    var t := MovePieceGrid(g, m, turn);
    var undone := MovePieceGrid(t, ReverseMove(m), turn);
    var expected := if m.promotionPiece.Some? then Put(g, m.startPosition, Some(ChessPiece(turn, PAWN))) else g;
    forall q | InBoard(q)
      ensures At(TryAndRevert(g, m, turn), q) == At(expected, q)
    {
      MovePieceAt(g, m, turn, q);
      MovePieceAt(g, m, turn, m.endPosition);
      MovePieceAt(t, ReverseMove(m), turn, q);
      PutAt(undone, m.endPosition, At(g, m.endPosition), q);
      PutAt(g, m.startPosition, Some(ChessPiece(turn, PAWN)), q);
    }
    GridExtensionality(TryAndRevert(g, m, turn), expected);
  }

  /** Two writes to one square: the second wins. */
  lemma PutPut(g: Grid, p: ChessPosition, x: Option<ChessPiece>, y: Option<ChessPiece>)
    requires InBoard(p)
    ensures Put(Put(g, p, x), p, y) == Put(g, p, y)
  {
    forall q | InBoard(q)
      ensures At(Put(Put(g, p, x), p, y), q) == At(Put(g, p, y), q)
    {
      PutAt(g, p, x, q);
      PutAt(Put(g, p, x), p, y, q);
      PutAt(g, p, y, q);
    }
    GridExtensionality(Put(Put(g, p, x), p, y), Put(g, p, y));
  }

  /** A promoting move does not look at what stands on its start square. */
  lemma PromotionIgnoresStart(g: Grid, m: ChessMove, turn: TeamColor, x: Option<ChessPiece>)
    requires InBoard(m.startPosition) && InBoard(m.endPosition) && m.promotionPiece.Some?
    ensures MovePieceGrid(Put(g, m.startPosition, x), m, turn) == MovePieceGrid(g, m, turn)
  {
    forall q | InBoard(q)
      ensures At(MovePieceGrid(Put(g, m.startPosition, x), m, turn), q) == At(MovePieceGrid(g, m, turn), q)
    {
      MovePieceAt(Put(g, m.startPosition, x), m, turn, q);
      MovePieceAt(g, m, turn, q);
      PutAt(g, m.startPosition, x, q);
    }
    GridExtensionality(MovePieceGrid(Put(g, m.startPosition, x), m, turn), MovePieceGrid(g, m, turn));
  }

  // ---------------------------------------------------------------------------------
  // Finding the king, and check
  // ---------------------------------------------------------------------------------

  predicate IsKing(g: Grid, p: ChessPosition, c: TeamColor)
    requires InBoard(p)
  {
    At(g, p) == Some(ChessPiece(c, KING))
  }

  /** Colour `c` has a king on the board; `findKing` needs one. */
  ghost predicate HasKing(g: Grid, c: TeamColor) {
    exists p {:trigger IsKing(g, p, c)} :: InBoard(p) && IsKing(g, p, c)
  }

  /** `isInCheck(c)` is defined: `c` has a king, and no pawn stands on its last rank. */
  ghost predicate CheckReady(g: Grid, c: TeamColor) {
    HasKing(g, c) && PawnsOffLastRank(g)
  }

  /** `p` comes before `q` in the row-major order of the source's scans. */
  predicate Before(p: ChessPosition, q: ChessPosition) {
    p.row < q.row || (p.row == q.row && p.column < q.column)
  }

  /** A point of a row-major scan: a square, the point just past the end of a row (column 9),
      or the point past the last row (row 9). */
  predicate ScanPoint(p: ChessPosition) {
    1 <= p.row <= 9 && 1 <= p.column <= 9
  }

  /** Where every scan starts. */
  const FirstSquare := ChessPosition(1, 1)

  /** The scan of `findKing` from scan point `p` on: the first king of colour `c`. */
  function FindKingFrom(g: Grid, c: TeamColor, p: ChessPosition): (r: Option<ChessPosition>)
    requires ScanPoint(p)
    decreases 9 - p.row, 9 - p.column
    ensures r.Some? ==> InBoard(r.value) && IsKing(g, r.value, c) && !Before(r.value, p)
    ensures forall q {:trigger IsKing(g, q, c)} :: InBoard(q) && !Before(q, p) && (r.Some? ==> Before(q, r.value)) ==>
      !IsKing(g, q, c)
  {
    if p.row == 9 then None
    else if p.column == 9 then FindKingFrom(g, c, ChessPosition(p.row + 1, 1))
    else if IsKing(g, p, c) then Some(p)
    else FindKingFrom(g, c, ChessPosition(p.row, p.column + 1))
  }

  /** `findKing`: the first square in row-major order holding the king of colour `c`, or
      None (the source's null) when `c` has no king. */
  function FirstKing(g: Grid, c: TeamColor): (r: Option<ChessPosition>)
    ensures r.None? <==> !HasKing(g, c)
    ensures r.Some? ==> InBoard(r.value) && IsKing(g, r.value, c)
    ensures r.Some? ==> forall q {:trigger IsKing(g, q, c)} :: InBoard(q) && Before(q, r.value) ==>
      !IsKing(g, q, c)
  {
    FindKingFrom(g, c, FirstSquare)
  }

  /** A king with no king of its colour before it in row-major order is the one `findKing`
      returns. */
  lemma FirstKingAt(g: Grid, c: TeamColor, p: ChessPosition)
    requires InBoard(p) && IsKing(g, p, c)
    requires forall q {:trigger IsKing(g, q, c)} :: InBoard(q) && Before(q, p) ==> !IsKing(g, q, c)
    ensures FirstKing(g, c) == Some(p)
  {
    assert HasKing(g, c);
    var v := FirstKing(g, c).value;
    assert v == p || Before(v, p) || Before(p, v);
  }

  /** The piece on `p` is not of colour `c` and has a move onto `king`, unpromoted or
      promoting to a QUEEN: the test of the `isInCheck` loop. */
  predicate Attacks(g: Grid, c: TeamColor, king: ChessPosition, p: ChessPosition)
    requires InBoard(p) && PawnOffLastRank(g, p)
  {
    && At(g, p).Some?
    && At(g, p).value.pieceColor != c
    && (ChessMove(p, king, None) in Moves(g, p) || ChessMove(p, king, Some(QUEEN)) in Moves(g, p))
  }

  /** `isInCheck`: some square attacks the king `findKing` returns. */
  ghost predicate InCheck(g: Grid, c: TeamColor)
    requires CheckReady(g, c)
  {
    exists p {:trigger Attacks(g, c, FirstKing(g, c).value, p)} :: InBoard(p) && Attacks(g, c, FirstKing(g, c).value, p)
  }

  /** The `isInCheck` scan from scan point `p` on, in row-major order: some square
      attacks `king`. */
  ghost function AttackScan(g: Grid, c: TeamColor, king: ChessPosition, p: ChessPosition): bool
    requires PawnsOffLastRank(g) && ScanPoint(p)
    decreases 9 - p.row, 9 - p.column
  {
    if p.row == 9 then false
    else if p.column == 9 then AttackScan(g, c, king, ChessPosition(p.row + 1, 1))
    else Attacks(g, c, king, p) || AttackScan(g, c, king, ChessPosition(p.row, p.column + 1))
  }

  /** The scan from `p` finds an attacker exactly when one stands at or after `p`. */
  lemma {:induction false} AttackScanRule(g: Grid, c: TeamColor, king: ChessPosition, p: ChessPosition)
    requires PawnsOffLastRank(g) && ScanPoint(p)
    ensures AttackScan(g, c, king, p) <==>
      exists q {:trigger Attacks(g, c, king, q)} :: InBoard(q) && !Before(q, p) && Attacks(g, c, king, q)
    decreases 9 - p.row, 9 - p.column
  {
    if p.row < 9 {
      var next := if p.column == 9 then ChessPosition(p.row + 1, 1) else ChessPosition(p.row, p.column + 1);
      AttackScanRule(g, c, king, next);
      forall q {:trigger Before(q, p)} | InBoard(q) && !Before(q, p)
        ensures q == p || !Before(q, next)
      {
      }
    }
  }

  /** `isInCheck` as its scan computes it, from the first square with the first king. */
  lemma InCheckScan(g: Grid, c: TeamColor)
    requires CheckReady(g, c)
    ensures InCheck(g, c) == AttackScan(g, c, FirstKing(g, c).value, FirstSquare)
  {
    AttackScanRule(g, c, FirstKing(g, c).value, FirstSquare);
  }

  /** Check is an attack by the other side: the attacker's move onto the king square is one
      of its legal-geometry moves, starts from a piece of the other colour and captures the king. */
  lemma CheckIsCapturableKing(g: Grid, c: TeamColor)
    requires CheckReady(g, c)
    ensures InCheck(g, c) <==>
      exists p {:trigger At(g, p)} :: InBoard(p) && At(g, p).Some? && At(g, p).value.pieceColor != c &&
        exists m :: m in Moves(g, p) && m.endPosition == FirstKing(g, c).value &&
          (m.promotionPiece == None || m.promotionPiece == Some(QUEEN))
  {
    var king := FirstKing(g, c).value;
    if InCheck(g, c) {
      var p :| InBoard(p) && Attacks(g, c, king, p);
      if ChessMove(p, king, None) in Moves(g, p) {
        assert ChessMove(p, king, None).endPosition == king;
      } else {
        assert ChessMove(p, king, Some(QUEEN)).endPosition == king;
      }
    }
    if exists p {:trigger At(g, p)} :: InBoard(p) && At(g, p).Some? && At(g, p).value.pieceColor != c &&
        exists m :: m in Moves(g, p) && m.endPosition == king && (m.promotionPiece == None || m.promotionPiece == Some(QUEEN)) {
      var p :| InBoard(p) && At(g, p).Some? && At(g, p).value.pieceColor != c &&
        exists m :: m in Moves(g, p) && m.endPosition == king && (m.promotionPiece == None || m.promotionPiece == Some(QUEEN));
      var m :| m in Moves(g, p) && m.endPosition == king && (m.promotionPiece == None || m.promotionPiece == Some(QUEEN));
      MovesRule(g, p);
      assert m == ChessMove(p, king, m.promotionPiece);
      assert Attacks(g, c, king, p);
    }
  }

  // ---------------------------------------------------------------------------------
  // Legal moves
  // ---------------------------------------------------------------------------------

  /** Playing `m` for side `turn` gives a board on which `isInCheck(turn)` is defined. */
  ghost predicate CheckDefined(g: Grid, turn: TeamColor, m: ChessMove) {
    && InBoard(m.startPosition) && InBoard(m.endPosition)
    && CheckReady(MovePieceGrid(g, m, turn), turn)
  }

  /** The filter of `validMoves`: the candidates, in order, after which the side whose turn
      it is is not in check. */
  ghost function LegalFilter(g: Grid, turn: TeamColor, ms: seq<ChessMove>): (r: seq<ChessMove>)
    requires forall m :: m in ms ==> CheckDefined(g, turn, m)
    ensures |r| <= |ms|
    ensures forall m :: m in r ==> m in ms
  {
    if ms == [] then []
    else
      var m := ms[|ms| - 1];
      var init := ms[..|ms| - 1];
      assert m in ms && CheckDefined(g, turn, m);
      assert forall x :: x in init ==> x in ms;
      var kept := LegalFilter(g, turn, init);
      var r := kept + (if InCheck(MovePieceGrid(g, m, turn), turn) then [] else [m]);
      assert forall x :: x in r ==> x in kept || x == m;
      r
  }

  /** A candidate is kept exactly when the turn side is not in check after it. */
  lemma {:induction false} LegalFilterRule(g: Grid, turn: TeamColor, ms: seq<ChessMove>)
    requires forall m :: m in ms ==> CheckDefined(g, turn, m)
    ensures forall m :: m in LegalFilter(g, turn, ms) <==> (m in ms && !InCheck(MovePieceGrid(g, m, turn), turn))
    decreases |ms|
  {
    if ms != [] {
      var init, last := ms[..|ms| - 1], ms[|ms| - 1];
      assert ms == init + [last];
      assert forall m :: m in init ==> m in ms;
      LegalFilterRule(g, turn, init);
      forall m
        ensures m in LegalFilter(g, turn, ms) <==> (m in ms && !InCheck(MovePieceGrid(g, m, turn), turn))
      {
        assert m in ms <==> m in init || m == last;
      }
    }
  }

  /** What `validMoves(s)` needs: `s` on the board, no pawn on its last rank, and after each
      candidate of the piece on `s` the turn side still has a king. */
  ghost predicate ValidMovesDefined(g: Grid, turn: TeamColor, s: ChessPosition) {
    && InBoard(s)
    && PawnsOffLastRank(g)
    && (At(g, s).Some? ==> forall m :: m in Moves(g, s) ==> CheckDefined(g, turn, m))
  }

  /** A tentative move never leaves a pawn on its last rank: a pawn move onto it always promotes. */
  lemma TentativePawnsOff(g: Grid, turn: TeamColor, s: ChessPosition, m: ChessMove)
    requires InBoard(s) && At(g, s).Some? && PawnsOffLastRank(g) && m in Moves(g, s)
    ensures InBoard(m.startPosition) && InBoard(m.endPosition)
    ensures PawnsOffLastRank(MovePieceGrid(g, m, turn))
  {
    MovesRule(g, s);
    forall q | InBoard(q)
      ensures PawnOffLastRank(MovePieceGrid(g, m, turn), q)
    {
      MovePieceAt(g, m, turn, q);
      assert PawnOffLastRank(g, q);
    }
  }

  /** For a piece of the side to move, on a board where that side has a king, `validMoves`
      is always defined. */
  lemma OwnPieceDefined(g: Grid, turn: TeamColor, s: ChessPosition)
    requires InBoard(s) && CheckReady(g, turn)
    requires At(g, s).Some? ==> At(g, s).value.pieceColor == turn
    ensures ValidMovesDefined(g, turn, s)
  {
    if At(g, s).Some? {
      forall m | m in Moves(g, s)
        ensures CheckDefined(g, turn, m)
      {
        MovesRule(g, s);
        TentativePawnsOff(g, turn, s, m);
        var t := MovePieceGrid(g, m, turn);
        var kp :| InBoard(kp) && IsKing(g, kp, turn);
        if kp == s {
          MovePieceAt(g, m, turn, m.endPosition);
          assert IsKing(t, m.endPosition, turn);
        } else {
          MovePieceAt(g, m, turn, kp);
          assert IsKing(t, kp, turn);
        }
      }
    }
  }

  /** Some candidate of the piece on `s` promotes; then all do. */
  ghost predicate Promoting(g: Grid, s: ChessPosition)
    requires InBoard(s) && At(g, s).Some? && PawnOffLastRank(g, s)
  {
    exists m :: m in Moves(g, s) && m.promotionPiece.Some?
  }

  /** What the `validMoves` loop needs of each candidate: it can be tried, it leaves its
      start square, and it promotes exactly when the piece's moves promote. */
  lemma CandidateFacts(g: Grid, turn: TeamColor, s: ChessPosition, m: ChessMove)
    requires ValidMovesDefined(g, turn, s) && At(g, s).Some? && m in Moves(g, s)
    ensures CheckDefined(g, turn, m)
    ensures m.startPosition == s && m.endPosition != s
    ensures m.promotionPiece.Some? <==> Promoting(g, s)
  {
    MovesRule(g, s);
  }

  /** The board `validMoves(s)` leaves behind: unchanged, except that a piece whose moves
      promote is replaced by a PAWN of the turn colour. */
  ghost function ValidMovesBoard(g: Grid, turn: TeamColor, s: ChessPosition): Grid
    requires InBoard(s) && PawnOffLastRank(g, s)
  {
    if At(g, s).Some? && Promoting(g, s) then Put(g, s, Some(ChessPiece(turn, PAWN))) else g
  }

  /** `validMoves` leaves the board as it found it exactly when the square is empty, holds a
      piece of the side to move, or holds a piece none of whose moves promote. */
  lemma ValidMovesBoardRule(g: Grid, turn: TeamColor, s: ChessPosition)
    requires InBoard(s) && PawnOffLastRank(g, s)
    ensures ValidMovesBoard(g, turn, s) == g <==>
      (At(g, s).None? || At(g, s).value.pieceColor == turn || !Promoting(g, s))
  {
    if At(g, s).Some? && Promoting(g, s) {
      var m :| m in Moves(g, s) && m.promotionPiece.Some?;
      MovesRule(g, s);
      PutAt(g, s, Some(ChessPiece(turn, PAWN)), s);
      if At(g, s).value.pieceColor == turn {
        forall q | InBoard(q)
          ensures At(ValidMovesBoard(g, turn, s), q) == At(g, q)
        {
          PutAt(g, s, Some(ChessPiece(turn, PAWN)), q);
        }
        GridExtensionality(ValidMovesBoard(g, turn, s), g);
      }
    }
  }

  /** A BLACK pawn about to promote, with only a WHITE king beside it: during WHITE's turn
      `validMoves` may be asked for the pawn's moves, and the pawn comes back as a WHITE pawn. */
  lemma OffTurnPawnRecoloured()
    ensures var s := ChessPosition(2, 1);
      var g := Put(Put(EmptyGrid(), s, Some(ChessPiece(BLACK, PAWN))), ChessPosition(8, 8), Some(ChessPiece(WHITE, KING)));
      && ValidMovesDefined(g, WHITE, s)
      && At(ValidMovesBoard(g, WHITE, s), s) == Some(ChessPiece(WHITE, PAWN))
  {
    var s := ChessPosition(2, 1);
    var k := ChessPosition(8, 8);
    var g0 := Put(EmptyGrid(), s, Some(ChessPiece(BLACK, PAWN)));
    var g := Put(g0, k, Some(ChessPiece(WHITE, KING)));
    forall q | InBoard(q)
      ensures At(g, q) == if q == s then Some(ChessPiece(BLACK, PAWN))
        else if q == k then Some(ChessPiece(WHITE, KING)) else None
    {
      PutAt(g0, k, Some(ChessPiece(WHITE, KING)), q);
      PutAt(EmptyGrid(), s, Some(ChessPiece(BLACK, PAWN)), q);
    }
    assert PawnsOffLastRank(g) by {
      forall q | InBoard(q) ensures PawnOffLastRank(g, q) { }
    }
    forall m | m in Moves(g, s)
      ensures CheckDefined(g, WHITE, m)
    {
      TentativePawnsOff(g, WHITE, s, m);
      MovesRule(g, s);
      MovePieceAt(g, m, WHITE, k);
      assert IsKing(MovePieceGrid(g, m, WHITE), k, WHITE);
    }
    assert At(g, ChessPosition(1, 1)) == None;
    assert Moves(g, s)[0] == ChessMove(s, ChessPosition(1, 1), Some(QUEEN));
    assert Promoting(g, s);
    PutAt(g, s, Some(ChessPiece(WHITE, PAWN)), s);
  }

  // ---------------------------------------------------------------------------------
  // No legal move, checkmate, stalemate
  // ---------------------------------------------------------------------------------

  /** The outcome of a scan that may call `validMoves` where it is undefined. */
  datatype Run = Undefined | Returns(noMove: bool, board: Grid)

  /** The piece on `s` belongs to side `c`. */
  predicate OwnPiece(g: Grid, c: TeamColor, s: ChessPosition)
    requires InBoard(s)
  {
    At(g, s).Some? && At(g, s).value.pieceColor == c
  }

  /** `hasNoValidMove(c)` from scan point `p` on, with the turn field `turn`: each
      `validMoves` call may change the board the rest of the scan sees. */
  ghost function NoMoveScan(g: Grid, turn: TeamColor, c: TeamColor, p: ChessPosition): Run
    requires ScanPoint(p)
    decreases 9 - p.row, 9 - p.column
  {
    if p.row == 9 then Returns(true, g)
    else if p.column == 9 then NoMoveScan(g, turn, c, ChessPosition(p.row + 1, 1))
    else
      var next := ChessPosition(p.row, p.column + 1);
      if !OwnPiece(g, c, p) then NoMoveScan(g, turn, c, next)
      else if !ValidMovesDefined(g, turn, p) then Undefined
      else if LegalFilter(g, turn, Moves(g, p)) != [] then Returns(false, ValidMovesBoard(g, turn, p))
      else NoMoveScan(ValidMovesBoard(g, turn, p), turn, c, next)
  }

  /** The piece of the side to move on `q` has no legal move. */
  ghost predicate Stuck(g: Grid, turn: TeamColor, q: ChessPosition)
    requires InBoard(q) && CheckReady(g, turn) && OwnPiece(g, turn, q)
  {
    OwnPieceDefined(g, turn, q);
    LegalFilter(g, turn, Moves(g, q)) == []
  }

  /** One step of the scan over a square of the side to move. */
  lemma ScanStepOnTurn(g: Grid, turn: TeamColor, p: ChessPosition)
    requires CheckReady(g, turn) && InBoard(p)
    ensures NoMoveScan(g, turn, turn, p) ==
      if !OwnPiece(g, turn, p) then NoMoveScan(g, turn, turn, ChessPosition(p.row, p.column + 1))
      else if !Stuck(g, turn, p) then Returns(false, g)
      else NoMoveScan(g, turn, turn, ChessPosition(p.row, p.column + 1))
  {
    if OwnPiece(g, turn, p) {
      OwnPieceDefined(g, turn, p);
      ValidMovesBoardRule(g, turn, p);
      assert ValidMovesBoard(g, turn, p) == g;
    }
  }

  /** Asked about the side to move, the scan is defined, leaves the board alone, and reports
      exactly that no piece of that side from scan point `p` on has a legal move. */
  lemma {:induction false} ScanOnTurn(g: Grid, turn: TeamColor, p: ChessPosition)
    requires CheckReady(g, turn) && ScanPoint(p)
    ensures NoMoveScan(g, turn, turn, p).Returns?
    ensures NoMoveScan(g, turn, turn, p).board == g
    ensures NoMoveScan(g, turn, turn, p).noMove <==>
      forall q {:trigger OwnPiece(g, turn, q)} :: InBoard(q) && !Before(q, p) && OwnPiece(g, turn, q) ==> Stuck(g, turn, q)
    decreases 9 - p.row, 9 - p.column
  {
    if p.row < 9 {
      var next := if p.column == 9 then ChessPosition(p.row + 1, 1) else ChessPosition(p.row, p.column + 1);
      ScanOnTurn(g, turn, next);
      if p.column < 9 {
        ScanStepOnTurn(g, turn, p);
      }
      forall q {:trigger Before(q, p)} | InBoard(q) && !Before(q, p)
        ensures q == p || !Before(q, next)
      {
      }
    }
  }

  /** `isInCheckmate(c)`: in check, and the scan finds no legal move. */
  ghost predicate Checkmate(g: Grid, turn: TeamColor, c: TeamColor)
    requires CheckReady(g, c)
    requires InCheck(g, c) ==> NoMoveScan(g, turn, c, FirstSquare).Returns?
  {
    InCheck(g, c) && NoMoveScan(g, turn, c, FirstSquare).noMove
  }

  /** `isInStalemate(c)`: not in check, and the scan finds no legal move. */
  ghost predicate Stalemate(g: Grid, turn: TeamColor, c: TeamColor)
    requires CheckReady(g, c)
    requires !InCheck(g, c) ==> NoMoveScan(g, turn, c, FirstSquare).Returns?
  {
    !InCheck(g, c) && NoMoveScan(g, turn, c, FirstSquare).noMove
  }

  /** Checkmate and stalemate exclude each other. */
  lemma NotBothMateAndStalemate(g: Grid, turn: TeamColor, c: TeamColor)
    requires CheckReady(g, c) && NoMoveScan(g, turn, c, FirstSquare).Returns?
    ensures !(Checkmate(g, turn, c) && Stalemate(g, turn, c))
  {
  }

  /** For the side to move, checkmate is check with no piece having a legal move, and
      stalemate is the same without check. */
  lemma MateOnTurn(g: Grid, turn: TeamColor)
    requires CheckReady(g, turn)
    ensures NoMoveScan(g, turn, turn, FirstSquare).Returns?
    ensures Checkmate(g, turn, turn) <==>
      (InCheck(g, turn) && forall q {:trigger OwnPiece(g, turn, q)} :: InBoard(q) && OwnPiece(g, turn, q) ==> Stuck(g, turn, q))
    ensures Stalemate(g, turn, turn) <==>
      (!InCheck(g, turn) && forall q {:trigger OwnPiece(g, turn, q)} :: InBoard(q) && OwnPiece(g, turn, q) ==> Stuck(g, turn, q))
  {
    ScanOnTurn(g, turn, FirstSquare);
  }

  // ---------------------------------------------------------------------------------
  // The game object
  // ---------------------------------------------------------------------------------

  /** The result of `makeMove`: done, or the `InvalidMoveException` the source throws. */
  datatype Outcome = Done | Invalid(message: string)

  /** `ChessGame`: whose turn it is, and the board, which the game updates in place. */
  class ChessGame {
    var teamColor: TeamColor
    var board: ChessBoard

    /** A new game: WHITE to move, on a fresh board set up by `resetBoard`. */
    constructor ()
      ensures teamColor == WHITE
      ensures fresh(board) && fresh(board.boardArray) && board.Valid()
      ensures board.grid == StartingGrid()
    {
      teamColor := WHITE;
      var b := new ChessBoard();
      b.ResetBoard();
      board := b;
    }

    /** `getTeamTurn`. */
    function GetTeamTurn(): (team: TeamColor)
      reads this
      ensures team == teamColor
    {
      teamColor
    }

    /** `setTeamTurn`: only the turn changes. */
    method SetTeamTurn(team: TeamColor)
      modifies this
      ensures teamColor == team && board == old(board)
    {
      teamColor := team;
    }

    /** `movePiece`: writes the end square, then clears the start square, of board `b`;
        a promoted piece takes the colour of the side to move. */
    method MovePiece(move: ChessMove, b: ChessBoard)
      requires b.Valid() && InBoard(move.startPosition) && InBoard(move.endPosition)
      modifies b, b.boardArray
      ensures b.Valid()
      ensures b.grid == MovePieceGrid(old(b.grid), move, teamColor)
    {
      if move.promotionPiece != None {
        b.AddPiece(move.endPosition, Some(ChessPiece(teamColor, move.promotionPiece.value)));
      } else {
        b.AddPiece(move.endPosition, b.GetPiece(move.startPosition));
      }
      b.AddPiece(move.startPosition, None);
    }

    /** `validMoves`: None for an empty square; otherwise each candidate of `pieceMoves` is
        played on the game's board, kept if the side to move is then not in check, and taken
        back. */
    method ValidMoves(startPosition: ChessPosition) returns (validMoves: Option<seq<ChessMove>>)
      requires board.Valid() && ValidMovesDefined(board.grid, teamColor, startPosition)
      modifies board, board.boardArray
      ensures board.Valid()
      ensures validMoves.None? <==> At(old(board.grid), startPosition).None?
      ensures validMoves.Some? ==>
        validMoves.value == LegalFilter(old(board.grid), teamColor, Moves(old(board.grid), startPosition))
      ensures board.grid == ValidMovesBoard(old(board.grid), teamColor, startPosition)
    {
      if board.GetPiece(startPosition) == None {
        return None;
      }
      ghost var g := board.grid;
      ghost var pawn := Some(ChessPiece(teamColor, PAWN));
      var moves := PieceMoves(board, startPosition);
      ghost var promoting := Promoting(g, startPosition);
      var valid: seq<ChessMove> := [];
      for k := 0 to |moves|
        invariant board.Valid()
        invariant valid == LegalFilter(g, teamColor, moves[..k])
        invariant board.grid == if k > 0 && promoting then Put(g, startPosition, pawn) else g
      {
        var move := moves[k];
        assert moves[..k + 1][..k] == moves[..k] && moves[..k + 1][k] == move;
        CandidateFacts(g, teamColor, startPosition, move);
        if k > 0 && promoting {
          PromotionIgnoresStart(g, move, teamColor, pawn);
          PutPut(g, startPosition, pawn, pawn);
        }
        var check := TryMove(move);
        if !check {
          valid := valid + [move];
        }
      }
      assert moves[..|moves|] == moves;
      return Some(valid);
    }

    /** One pass of the `validMoves` loop: play `move` on the game's board, ask whether the
        side to move is in check, take the move back and restore a captured piece. */
    method TryMove(move: ChessMove) returns (check: bool)
      requires board.Valid() && CheckDefined(board.grid, teamColor, move)
      requires move.startPosition != move.endPosition
      modifies board, board.boardArray
      ensures board.Valid()
      ensures check == InCheck(MovePieceGrid(old(board.grid), move, teamColor), teamColor)
      ensures board.grid == if move.promotionPiece.Some?
        then Put(old(board.grid), move.startPosition, Some(ChessPiece(teamColor, PAWN))) else old(board.grid)
    {
      ghost var g := board.grid;
      var reverseMove := if move.promotionPiece != None then ChessMove(move.endPosition, move.startPosition, Some(PAWN))
                         else ChessMove(move.endPosition, move.startPosition, None);
      var tempPiece: Option<ChessPiece> := None;
      if board.GetPiece(move.endPosition) != None {
        tempPiece := board.GetPiece(move.endPosition);
      }
      MovePiece(move, board);
      check := IsInCheck(teamColor);
      MovePiece(reverseMove, board);
      if tempPiece != None {
        board.AddPiece(move.endPosition, tempPiece);
      }
      assert board.grid == TryAndRevert(g, move, teamColor);
      RevertRule(g, move, teamColor);
    }

    /** `makeMove`: rejects a move from an empty square, a piece not of the side to move, or
        a move `validMoves` does not list, changing nothing; otherwise plays it and passes
        the turn to the other side. */
    method MakeMove(move: ChessMove) returns (outcome: Outcome)
      requires board.Valid() && InBoard(move.startPosition)
      requires OwnPiece(board.grid, teamColor, move.startPosition) ==>
        ValidMovesDefined(board.grid, teamColor, move.startPosition)
      modifies this, board, board.boardArray
      ensures board == old(board) && board.Valid()
      ensures outcome.Done? <==>
        (OwnPiece(old(board.grid), old(teamColor), move.startPosition) &&
         move in LegalFilter(old(board.grid), old(teamColor), Moves(old(board.grid), move.startPosition)))
      ensures outcome.Done? ==>
        board.grid == MovePieceGrid(old(board.grid), move, old(teamColor)) && teamColor == Opponent(old(teamColor))
      ensures outcome.Invalid? ==> board.grid == old(board.grid) && teamColor == old(teamColor)
    {
      ghost var g := board.grid;
      var piece := board.GetPiece(move.startPosition);
      if piece == None {
        return Invalid("Move not valid");
      }
      if teamColor != piece.value.pieceColor {
        return Invalid("Move not valid");
      }
      ValidMovesBoardRule(g, teamColor, move.startPosition);
      var valid := ValidMoves(move.startPosition);
      if valid == None {
        return Invalid("Move not valid");
      }
      valid := ValidMoves(move.startPosition);
      if move in valid.value {
        MovesRule(g, move.startPosition);
        assert move in Moves(g, move.startPosition);
        MovePiece(move, board);
      } else {
        return Invalid("Move not valid");
      }
      if teamColor == WHITE {
        SetTeamTurn(BLACK);
      } else {
        SetTeamTurn(WHITE);
      }
      return Done;
    }

    /** `isInCheck`: scans the board row by row for a piece of the other colour that can
        move onto the king of colour `c`. */
    method IsInCheck(c: TeamColor) returns (inCheck: bool)
      requires board.Valid() && CheckReady(board.grid, c)
      ensures inCheck == InCheck(board.grid, c)
    {
      ghost var g := board.grid;
      var kingPos := FindKing(c);
      var king := kingPos.value;
      InCheckScan(g, c);
      for x := 1 to 9
        invariant AttackScan(g, c, king, ChessPosition(x, 1)) == InCheck(g, c)
      {
        for y := 1 to 9
          invariant AttackScan(g, c, king, ChessPosition(x, y)) == InCheck(g, c)
        {
          var currentPos := ChessPosition(x, y);
          var piece := board.GetPiece(currentPos);
          if piece != None && piece.value.pieceColor != c {
            var moves := PieceMoves(board, currentPos);
            var hit := ChessMove(currentPos, king, None) in moves;
            if !hit {
              moves := PieceMoves(board, currentPos);
              hit := ChessMove(currentPos, king, Some(QUEEN)) in moves;
            }
            if hit {
              return true;
            }
          }
        }
      }
      return false;
    }

    /** `findKing`: the first square, row by row, holding the king of colour `c`; None
        (the source's null) when there is none. */
    method FindKing(c: TeamColor) returns (position: Option<ChessPosition>)
      requires board.Valid()
      ensures position == FirstKing(board.grid, c)
    {
      for x := 1 to 9
        invariant forall q {:trigger IsKing(board.grid, q, c)} :: InBoard(q) && q.row < x ==> !IsKing(board.grid, q, c)
      {
        for y := 1 to 9
          invariant forall q {:trigger IsKing(board.grid, q, c)} :: InBoard(q) && (q.row < x || (q.row == x && q.column < y)) ==> !IsKing(board.grid, q, c)
        {
          var p := ChessPosition(x, y);
          var piece := board.GetPiece(p);
          if piece != None {
            if piece.value.pieceType == KING {
              if c == piece.value.pieceColor {
                FirstKingAt(board.grid, c, p);
                return Some(p);
              }
            }
          }
        }
      }
      return None;
    }

    /** `hasNoValidMove`: scans the board row by row and asks `validMoves` for each piece of
        colour `c`, stopping at the first one that has a move. */
    method HasNoValidMove(c: TeamColor) returns (noMove: bool)
      requires board.Valid() && NoMoveScan(board.grid, teamColor, c, FirstSquare).Returns?
      modifies board, board.boardArray
      ensures board.Valid()
      ensures noMove == NoMoveScan(old(board.grid), teamColor, c, FirstSquare).noMove
      ensures board.grid == NoMoveScan(old(board.grid), teamColor, c, FirstSquare).board
    {
      ghost var run := NoMoveScan(board.grid, teamColor, c, FirstSquare);
      for x := 1 to 9
        invariant board.Valid()
        invariant NoMoveScan(board.grid, teamColor, c, ChessPosition(x, 1)) == run
      {
        for y := 1 to 9
          invariant board.Valid()
          invariant NoMoveScan(board.grid, teamColor, c, ChessPosition(x, y)) == run
        {
          var p := ChessPosition(x, y);
          var piece := board.GetPiece(p);
          if piece != None {
            if c == piece.value.pieceColor {
              var moves := ValidMoves(p);
              if moves.value != [] {
                return false;
              }
            }
          }
        }
      }
      return true;
    }

    /** `isInCheckmate`: in check, and then no valid move. */
    method IsInCheckmate(c: TeamColor) returns (checkmate: bool)
      requires board.Valid() && CheckReady(board.grid, c)
      requires InCheck(board.grid, c) ==> NoMoveScan(board.grid, teamColor, c, FirstSquare).Returns?
      modifies board, board.boardArray
      ensures teamColor == old(teamColor) && board == old(board) && board.Valid()
      ensures checkmate == Checkmate(old(board.grid), teamColor, c)
      ensures board.grid ==
        if InCheck(old(board.grid), c) then NoMoveScan(old(board.grid), teamColor, c, FirstSquare).board else old(board.grid)
    {
      var check := IsInCheck(c);
      if check {
        checkmate := HasNoValidMove(c);
      } else {
        checkmate := false;
      }
    }

    /** `isInStalemate`: not in check, and then no valid move. */
    method IsInStalemate(c: TeamColor) returns (stalemate: bool)
      requires board.Valid() && CheckReady(board.grid, c)
      requires !InCheck(board.grid, c) ==> NoMoveScan(board.grid, teamColor, c, FirstSquare).Returns?
      modifies board, board.boardArray
      ensures teamColor == old(teamColor) && board == old(board) && board.Valid()
      ensures stalemate == Stalemate(old(board.grid), teamColor, c)
      ensures board.grid ==
        if InCheck(old(board.grid), c) then old(board.grid) else NoMoveScan(old(board.grid), teamColor, c, FirstSquare).board
    {
      var check := IsInCheck(c);
      if check {
        stalemate := false;
      } else {
        stalemate := HasNoValidMove(c);
      }
    }

    /** `setBoard`: the game now uses `b` itself, not a copy. */
    method SetBoard(b: ChessBoard)
      modifies this
      ensures board == b && teamColor == old(teamColor)
    {
      board := b;
    }

    /** `getBoard`: the game's own board object. */
    function GetBoard(): (b: ChessBoard)
      reads this
      ensures b == board
    {
      board
    }

    /** `equals`: false against null; otherwise the same side to move and boards equal
        square by square. */
    function Equals(that: ChessGame?): (r: bool)
      requires board.Valid() && (that != null ==> that.board.Valid())
      reads this, board, board.boardArray, that
      reads if that != null then {that.board, that.board.boardArray} else {}
      ensures that == null ==> !r
      ensures that != null ==> (r <==> teamColor == that.teamColor && board.grid == that.board.grid)
    {
      that != null && teamColor == that.teamColor && board.Equals(that.board)
    }
  }
}
