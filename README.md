# Chess rules engine and in-memory store, in Dafny

This project models the chess rules engine of a client/server chess application and the
in-memory data store of its server:

- **ChessTypes** (`chess_types.dfy`): colours, piece kinds, pieces with their `equals`,
  positions and moves as value types. A Java `null` is modelled as `None`.
- **Board** (`chess_board.dfy`): `ChessBoard` is a class over the source's `ChessPiece[8][8]`
  array. Square (row, column) is stored in cell `[8 - row][column - 1]`. A ghost field
  `grid` (an 8×8 `seq`) mirrors the array, so specifications can be written over board values.
  `resetBoard` is specified through `ResetGrid`, the sequence of writes the source makes.
- **Piece** (`chess_piece.dfy`): the move geometry of `ChessPiece.pieceMoves`.
  - Specification functions on board values cover rays for rook, bishop and queen, offset
    tables for king and knight, and the forward moves, captures and promotions of pawns.
  - The list-building loops of the source are methods over the board object, proved equal
    to those functions.
  - Lemmas state what the moves are: squares walked along a ray up to and including the
    first enemy, each offset onto an enterable square, the pawn single step, double step,
    diagonal captures and four-way promotion.
- **Game** (`chess_game.dfy`): `ChessGame` is a class with the turn field and the board.
  - `validMoves` tries each candidate on the shared board, tests `isInCheck` of the side
    whose turn it is, and takes the move back.
  - `makeMove` checks the move, plays it and passes the turn.
  - `isInCheck`, `findKing` and `hasNoValidMove` are row-major scans with early exits.
    They are proved against recursive scan functions, which are in turn characterised by
    lemmas: the first king, the existence of an attacker, no piece with a legal move.
  - Checkmate and stalemate are built from these and shown to exclude each other.
- **DataAccess** (`memory_data_access.dfy`): `MemoryDataAccess` has three maps, holding
  users, games and auth tokens. It supports insert-if-absent, lookup-or-fail, upsert,
  delete-or-fail and clear. Each failure is a `Failure`/`Error` carrying the source's
  message.

Where the source reads outside the array or dereferences `null`, the model has a
precondition instead:
- a square off the board passed to `addPiece`, `getPiece`, `movePiece`, `validMoves` or
  `makeMove`, where the source throws `ArrayIndexOutOfBoundsException` (ChessBoard.java:28
  and :39); every such member requires `InBoard`;
- a pawn standing on its last rank (the unchecked forward read of `pawnRules`);
- a missing king (`findKing` returning `null` to `isInCheck`).

## Model

| member | source | states |
|---|---|---|
| ChessTypes.ChessPiece.Equals | shared/src/main/java/chess/ChessPiece.java:213-220 | false against null; otherwise true exactly when colour and kind agree |
| ChessTypes.Opponent | shared/src/main/java/chess/ChessGame.java:118-122 | the side passed the turn is never the side that moved |
| Board.Index | shared/src/main/java/chess/ChessBoard.java:26-29 | a square maps to a cell inside the 8×8 array, and `PositionAt` maps that cell back to the square |
| Board.PositionAt | shared/src/main/java/chess/ChessBoard.java:38-40 | every array cell is the cell of some on-board square |
| Board.IndexBijective | shared/src/main/java/chess/ChessBoard.java:26-40 | `(row, col) ↦ (8-row, col-1)` is a bijection between the 64 squares and the 64 cells, so distinct squares never share a cell; a square is read from the cell it names |
| Board.GridExtensionality | shared/src/main/java/chess/ChessBoard.java:97-104 | two board values that agree on every square are equal |
| Board.PutAt | shared/src/main/java/chess/ChessBoard.java:26-40 | after writing `x` on `p`, reading `p` gives `x` (None clears) and every other square reads as before |
| Board.EmptyGrid | shared/src/main/java/chess/ChessBoard.java:16-18 | the value of a new array: every square empty |
| Board.BackRank | shared/src/main/java/chess/ChessBoard.java:61-68 | the back-rank kinds, by column: ROOK, KNIGHT, BISHOP, QUEEN, KING, BISHOP, KNIGHT, ROOK |
| Board.PlaceBackRankAt | shared/src/main/java/chess/ChessBoard.java:61-68 | the back-rank writes set the eight squares of that row to the back-rank kinds in that colour and touch nothing else |
| Board.PawnRankAt | shared/src/main/java/chess/ChessBoard.java:69-71 | the pawn loop fills the whole row with pawns of that colour and touches nothing else |
| Board.ResetGridAt | shared/src/main/java/chess/ChessBoard.java:46-84 | after `resetBoard`: BLACK back rank on row 8, BLACK pawns on row 7, WHITE pawns on row 2, WHITE back rank on row 1, and rows 3–6 as they were |
| Board.StartingGrid | shared/src/main/java/chess/ChessBoard.java:46-84 | `resetBoard` applied to an empty board: the standard start, with rows 3–6 empty |
| Board.ChessBoard.constructor | shared/src/main/java/chess/ChessBoard.java:16-18 | a fresh board, with its own array, empty on all 64 squares |
| Board.ChessBoard.AddPiece | shared/src/main/java/chess/ChessBoard.java:26-29 | the board value becomes the old one with exactly square `position` overwritten |
| Board.ChessBoard.GetPiece | shared/src/main/java/chess/ChessBoard.java:38-40 | returns the occupant of the square, None when it is empty |
| Board.ChessBoard.ResetBoard | shared/src/main/java/chess/ChessBoard.java:46-84 | the new board value is `ResetGrid` of the old one, whose squares ResetGridAt describes |
| Board.ChessBoard.CopyBoard | shared/src/main/java/chess/ChessBoard.java:86-94 | a fresh board with a fresh array holding the same piece on every square; no array is shared, so later writes to one board do not reach the other |
| Board.ChessBoard.Equals | shared/src/main/java/chess/ChessBoard.java:97-104 | false against null; otherwise true exactly when every square holds equal pieces, which is exactly equality of the board values |
| Board.ChessBoard.CellsAndSquares | shared/src/main/java/chess/ChessBoard.java:97-104 | cell-by-cell equality of two arrays (`deepEquals`) is the same as square-by-square equality of the boards |
| Piece.InBoundsRule | shared/src/main/java/chess/ChessPiece.java:70-72 | `inBounds` holds exactly for the 64 squares of the board |
| Piece.IsEmptyRule | shared/src/main/java/chess/ChessPiece.java:74-76 | `isEmpty` is true exactly when the array cell of (x, y) holds no piece |
| Piece.IsSameTeamRule | shared/src/main/java/chess/ChessPiece.java:78-83 | despite its name, `isSameTeam` is true exactly when the target square is empty or holds the other colour; it is false exactly when it holds the mover's own colour |
| Piece.RayExact | shared/src/main/java/chess/ChessPiece.java:95-111 | a ray holds exactly the squares before the first occupied square, plus that square if it holds an enemy, and nothing beyond |
| Piece.RayDistinct | shared/src/main/java/chess/ChessPiece.java:95-111 | a ray lists no move twice |
| Piece.RayBeyond | shared/src/main/java/chess/ChessPiece.java:98-110 | every move of the walk from step j ends j or more steps from the piece |
| Piece.RayClosedAt | shared/src/main/java/chess/ChessPiece.java:98-106 | leaving the board or meeting a piece ends the walk: no later square is reached |
| Piece.RayOpenEmptyStep | shared/src/main/java/chess/ChessPiece.java:99-110 | an empty square lets the walk continue to the next one |
| Piece.RayEnterable | shared/src/main/java/chess/ChessPiece.java:98-106 | every move of a ray starts on the piece, ends on an in-bounds square that is empty or holds an enemy, and carries no promotion |
| Piece.SlidingMovesRays | shared/src/main/java/chess/ChessPiece.java:86-115 | the moves of a sliding piece are exactly the moves of its rays, one per direction of the table |
| Piece.SlidingEnterable | shared/src/main/java/chess/ChessPiece.java:86-115 | every sliding move is enterable and unpromoted |
| Piece.SlidingPrefix | shared/src/main/java/chess/ChessPiece.java:89-112 | the first k+1 directions produce the moves of the first k, followed by the ray of direction k |
| Piece.UnitDirectionsAppend | shared/src/main/java/chess/ChessPiece.java:119-136 | joining two tables of unit steps gives a table of unit steps |
| Piece.SlidingAppend | shared/src/main/java/chess/ChessPiece.java:86-115 | sliding along two tables in turn gives the moves of the first, then those of the second |
| Piece.QueenIsRookThenBishop | shared/src/main/java/chess/ChessPiece.java:119-137 | the queen's table is the rook's followed by the bishop's, so the queen's moves are the rook's then the bishop's |
| Piece.StepMovesSound | shared/src/main/java/chess/ChessPiece.java:150-159 | at most one move per offset, each enterable, unpromoted and displaced by one of the offsets |
| Piece.StepMovesComplete | shared/src/main/java/chess/ChessPiece.java:150-159 | every offset onto an in-bounds square that is empty or holds an enemy yields its move |
| Piece.KingRule | shared/src/main/java/chess/ChessPiece.java:128-133 | the king has at most 8 moves, each one of the eight unit steps |
| Piece.KnightRule | shared/src/main/java/chess/ChessPiece.java:140-148 | the knight has at most 8 moves, each a jump of its offset table |
| Piece.PawnMovesSplit | shared/src/main/java/chess/ChessPiece.java:184-211 | a pawn's moves are its forward moves followed by its captures |
| Piece.PawnForwardShape | shared/src/main/java/chess/ChessPiece.java:190-203 | forward moves stay in the column and go one or two rows in the pawn's direction |
| Piece.PawnCaptureShape | shared/src/main/java/chess/ChessPiece.java:166-180 | a capture goes one row forward and one column aside, onto an in-bounds square held by an enemy |
| Piece.PawnMovesParts | shared/src/main/java/chess/ChessPiece.java:184-211 | a move is a pawn move exactly when it is a forward move or a capture on either diagonal |
| Piece.PawnStepRule | shared/src/main/java/chess/ChessPiece.java:186-199 | the direction is +1 for WHITE and −1 for BLACK, and the single step is a move exactly when the square ahead is empty |
| Piece.PawnDoubleStepRule | shared/src/main/java/chess/ChessPiece.java:187-202 | the double step is a move exactly when the pawn is on row 2 (WHITE) or row 7 (BLACK) and both squares ahead are empty |
| Piece.PawnStraightRule | shared/src/main/java/chess/ChessPiece.java:190-203 | a straight pawn move goes one or two rows forward onto an empty in-bounds square |
| Piece.PawnCaptureRule | shared/src/main/java/chess/ChessPiece.java:165-182 | a diagonal pawn move goes one row forward and one column aside, onto an in-bounds square holding an enemy |
| Piece.PawnCaptureComplete | shared/src/main/java/chess/ChessPiece.java:165-182 | conversely, an enemy on an in-bounds forward diagonal is captured: by one unpromoted move, or from the promotion row by all four promotions |
| Piece.PromotionPatternAppend | shared/src/main/java/chess/ChessPiece.java:207 | the promotion pattern survives joining the forward moves and the captures |
| Piece.PromotionsPattern | shared/src/main/java/chess/ChessPiece.java:172-175 | the four promotions onto one square are QUEEN, BISHOP, KNIGHT and ROOK |
| Piece.PawnForwardPattern | shared/src/main/java/chess/ChessPiece.java:190-203 | forward moves promote exactly when the pawn is on its promotion row, each destination with all four promotions (once each, by PawnMovesDistinct) |
| Piece.PawnCapturePattern | shared/src/main/java/chess/ChessPiece.java:169-179 | captures promote exactly when the pawn is on its promotion row, each destination with all four promotions (once each, by PawnMovesDistinct) |
| Piece.PawnPromotionRule | shared/src/main/java/chess/ChessPiece.java:171-178 | from row 7 (WHITE) or 2 (BLACK) every move promotes and each destination has all four promotions; from any other row no move promotes |
| Piece.PawnMovesDistinct | shared/src/main/java/chess/ChessPiece.java:165-211 | a pawn lists no move twice, so with PawnPromotionRule a destination from the promotion row carries exactly four moves |
| Piece.NoRepeatsAppend | shared/src/main/java/chess/ChessPiece.java:207 | joining two repeat-free lists with no common move gives a repeat-free list |
| Piece.PawnEnterable | shared/src/main/java/chess/ChessPiece.java:184-211 | every pawn move starts on the pawn and ends on an in-bounds square that is empty or holds an enemy |
| Piece.OthersNeverPromote | shared/src/main/java/chess/ChessPiece.java:57-65 | king, queen, rook, bishop and knight moves are enterable and never promote |
| Piece.MovesRule | shared/src/main/java/chess/ChessPiece.java:57-72 | every move starts on the square, ends in [1,8]×[1,8] on an empty or enemy square, and promotes only for a pawn on its promotion row; either all moves promote or none does |
| Piece.StartingPawnMoves | shared/src/main/java/chess/ChessPiece.java:184-211 | in the starting position each pawn has exactly its single step and its double step, in that order |
| Piece.GetSlidingMoves | shared/src/main/java/chess/ChessPiece.java:86-115 | the loop returns `SlidingMoves` of the table, so every ray property above applies to it |
| Piece.WalkRay | shared/src/main/java/chess/ChessPiece.java:95-111 | the inner `while` loop appends exactly the ray of one direction |
| Piece.BishopRules | shared/src/main/java/chess/ChessPiece.java:117-121 | slides along the four diagonals |
| Piece.RookRules | shared/src/main/java/chess/ChessPiece.java:123-126 | slides along the four orthogonals |
| Piece.QueenRules | shared/src/main/java/chess/ChessPiece.java:135-138 | slides along all eight directions |
| Piece.KingRules | shared/src/main/java/chess/ChessPiece.java:128-133 | the offset moves of the king's table |
| Piece.KnightRules | shared/src/main/java/chess/ChessPiece.java:140-148 | the offset moves of the knight's table |
| Piece.GetChessMoves | shared/src/main/java/chess/ChessPiece.java:150-159 | appends `StepMoves` of the offsets to the list it is given |
| Piece.PawnPromotion | shared/src/main/java/chess/ChessPiece.java:161-163 | the move from the pawn one row in `direction` onto column `y`, promoting to the given kind |
| Piece.PawnCapture | shared/src/main/java/chess/ChessPiece.java:165-182 | appends the captures of the left diagonal, then the right, to the list it is given |
| Piece.PawnRules | shared/src/main/java/chess/ChessPiece.java:184-211 | returns `PawnMoves`: forward moves, then captures |
| Piece.PieceMoves | shared/src/main/java/chess/ChessPiece.java:57-68 | returns `Moves`, the kind-by-kind dispatch; the board is unchanged |
| Game.MovePieceAt | shared/src/main/java/chess/ChessGame.java:48-55 | after `movePiece` the start square is empty; the end square holds the moving piece, or a new piece of the promotion kind in the turn colour; every other square is unchanged |
| Game.ReverseMove | shared/src/main/java/chess/ChessGame.java:74-79 | the reverse runs from the end square to the start square, and promotes (to PAWN) exactly when the move promotes |
| Game.RevertRule | shared/src/main/java/chess/ChessGame.java:80-91 | playing a move, its reverse, and restoring a captured piece gives back the board, except that after a promotion the start square holds a PAWN of the turn colour |
| Game.PutPut | shared/src/main/java/chess/ChessGame.java:88-91 | of two writes to one square, the second wins |
| Game.PromotionIgnoresStart | shared/src/main/java/chess/ChessGame.java:49-50 | a promoting move does not read its start square |
| Game.FindKingFrom | shared/src/main/java/chess/ChessGame.java:151-167 | the scan returns a king of the colour at or after the scan point, with no such king between the scan point and it; None when there is none |
| Game.FirstKing | shared/src/main/java/chess/ChessGame.java:151-167 | `findKing`: None exactly when the colour has no king; otherwise the first king of that colour in row-major order from (1,1) |
| Game.FirstKingAt | shared/src/main/java/chess/ChessGame.java:151-167 | a king with no king of its colour before it is the one `findKing` returns |
| Game.AttackScanRule | shared/src/main/java/chess/ChessGame.java:134-147 | the scan from a point finds an attacker exactly when a piece of the other colour at or after that point has an unpromoted or QUEEN-promoting move onto the king |
| Game.InCheckScan | shared/src/main/java/chess/ChessGame.java:131-148 | `isInCheck` is the scan from (1,1) towards the king `findKing` returns |
| Game.CheckIsCapturableKing | shared/src/main/java/chess/ChessGame.java:131-148 | in check exactly when some piece not of colour `c` has a move onto `findKing(c)` with null or QUEEN promotion |
| Game.LegalFilter | shared/src/main/java/chess/ChessGame.java:73-92 | the kept moves are a sub-list of the candidates |
| Game.LegalFilterRule | shared/src/main/java/chess/ChessGame.java:84-87 | a candidate is kept exactly when the side in the turn field is not in check after it |
| Game.TentativePawnsOff | shared/src/main/java/chess/ChessGame.java:84 | a tentative move never leaves a pawn on its last rank, so `isInCheck` after it is defined |
| Game.OwnPieceDefined | shared/src/main/java/chess/ChessGame.java:64-95 | for an empty square or a piece of the side to move, on a board where that side has a king and no pawn stands on its last rank, `validMoves` is defined |
| Game.CandidateFacts | shared/src/main/java/chess/ChessGame.java:73-84 | each candidate starts on the square, leaves it, can be tried, and promotes exactly when the piece's moves promote |
| Game.ValidMovesBoardRule | shared/src/main/java/chess/ChessGame.java:73-92 | `validMoves` leaves the board exactly as it found it if and only if the square is empty, holds a piece of the side to move, or holds a piece none of whose moves promote |
| Game.OffTurnPawnRecoloured | shared/src/main/java/chess/ChessGame.java:50 | with a WHITE king on the board, `validMoves` is defined for a BLACK pawn on row 2 during WHITE's turn, and the pawn comes back as a WHITE pawn |
| Game.ScanStepOnTurn | shared/src/main/java/chess/ChessGame.java:172-177 | one square of `hasNoValidMove` for the side to move: a piece with a legal move ends the scan with false, otherwise the scan goes on |
| Game.ScanOnTurn | shared/src/main/java/chess/ChessGame.java:169-182 | for the side to move, `hasNoValidMove` is defined, leaves the board unchanged, and is true exactly when no piece of that side at or after the scan point has a legal move |
| Game.NotBothMateAndStalemate | shared/src/main/java/chess/ChessGame.java:190-207 | checkmate and stalemate are never both true |
| Game.MateOnTurn | shared/src/main/java/chess/ChessGame.java:169-207 | for the side to move: checkmate is check with no piece having a legal move; stalemate is no check with no piece having a legal move |
| Game.ChessGame.constructor | shared/src/main/java/chess/ChessGame.java:18-22 | WHITE to move, on a fresh board equal to `resetBoard` applied to an empty board |
| Game.ChessGame.GetTeamTurn | shared/src/main/java/chess/ChessGame.java:27-29 | the turn field |
| Game.ChessGame.SetTeamTurn | shared/src/main/java/chess/ChessGame.java:36-38 | only the turn changes |
| Game.ChessGame.MovePiece | shared/src/main/java/chess/ChessGame.java:48-55 | the board becomes `MovePieceGrid`, whose squares MovePieceAt describes |
| Game.ChessGame.ValidMoves | shared/src/main/java/chess/ChessGame.java:64-95 | None exactly for an empty square; otherwise the candidates of `pieceMoves`, in order, after which the side in the turn field is not in check; the board left behind is `ValidMovesBoard` (see ValidMovesBoardRule) |
| Game.ChessGame.TryMove | shared/src/main/java/chess/ChessGame.java:74-91 | one loop pass: reports check after the move, and restores the board up to the re-created pawn of a promotion |
| Game.ChessGame.MakeMove | shared/src/main/java/chess/ChessGame.java:103-123 | succeeds exactly when the start square holds a piece of the side to move and `validMoves` lists the move; then the move is played and the turn flips; otherwise board and turn are unchanged |
| Game.ChessGame.IsInCheck | shared/src/main/java/chess/ChessGame.java:131-148 | the nested loops compute `InCheck` (see CheckIsCapturableKing) |
| Game.ChessGame.FindKing | shared/src/main/java/chess/ChessGame.java:151-167 | the nested loops compute `FirstKing` |
| Game.ChessGame.HasNoValidMove | shared/src/main/java/chess/ChessGame.java:169-182 | the nested loops compute the result and the board of `NoMoveScan` (see ScanOnTurn) |
| Game.ChessGame.IsInCheckmate | shared/src/main/java/chess/ChessGame.java:190-192 | in check and no valid move; the turn is unchanged |
| Game.ChessGame.IsInStalemate | shared/src/main/java/chess/ChessGame.java:201-207 | not in check and no valid move; the turn is unchanged |
| Game.ChessGame.SetBoard | shared/src/main/java/chess/ChessGame.java:214-216 | the game now holds that board object; the turn is unchanged |
| Game.ChessGame.GetBoard | shared/src/main/java/chess/ChessGame.java:223-225 | the game's own board object |
| Game.ChessGame.Equals | shared/src/main/java/chess/ChessGame.java:227-234 | false against null; otherwise the same side to move and boards equal square by square |
| DataAccess.MemoryDataAccess.constructor | server/src/main/java/dataaccess/MemoryDataAccess.java:17-19 | three empty tables |
| DataAccess.MemoryDataAccess.Clear | server/src/main/java/dataaccess/MemoryDataAccess.java:25-29 | all three tables are emptied |
| DataAccess.MemoryDataAccess.CreateUser | server/src/main/java/dataaccess/MemoryDataAccess.java:32-37 | fails with "User already exists", changing nothing, exactly when the name is taken; otherwise the user table gains exactly that entry; other tables are untouched |
| DataAccess.MemoryDataAccess.GetUser | server/src/main/java/dataaccess/MemoryDataAccess.java:40-45 | the stored user for a present name; "User not found" for an absent one |
| DataAccess.MemoryDataAccess.CreateGame | server/src/main/java/dataaccess/MemoryDataAccess.java:48-53 | insert-if-absent on `gameID`; a duplicate fails with "Game already exists" and changes nothing |
| DataAccess.MemoryDataAccess.GetGame | server/src/main/java/dataaccess/MemoryDataAccess.java:56-63 | the stored game for a present id; "No game found" for an absent one |
| DataAccess.MemoryDataAccess.ListGames | server/src/main/java/dataaccess/MemoryDataAccess.java:66-68 | exactly the stored games, each the one its id looks up, no two with the same id |
| DataAccess.MemoryDataAccess.UpdateGame | server/src/main/java/dataaccess/MemoryDataAccess.java:71-73 | an unconditional upsert: afterwards `getGame(game.gameID)` returns `game`, and other games are unchanged |
| DataAccess.MemoryDataAccess.CreateAuth | server/src/main/java/dataaccess/MemoryDataAccess.java:76-81 | insert-if-absent on the token; a duplicate fails with "Auth token already exists" and changes nothing |
| DataAccess.MemoryDataAccess.GetAuth | server/src/main/java/dataaccess/MemoryDataAccess.java:84-89 | the stored record for a present token; "Invalid auth" for an absent one |
| DataAccess.MemoryDataAccess.DeleteAuth | server/src/main/java/dataaccess/MemoryDataAccess.java:92-99 | removes exactly that token, which then no longer looks up, and leaves other tokens alone; an absent token fails with "Invalid auth" and changes nothing |

## Left out

- Piece.MovesRule: requires that the pawn on the square, if any, does not stand on its last
  rank. The forward read of `pawnRules` (ChessPiece.java:190) has no bounds check, so a pawn
  there would index outside the array.
- Game.ChessGame.IsInCheck: requires that the colour has a king. When it has none, `findKing`
  returns `null` (ChessGame.java:166) and the source looks for moves onto `null`. The model
  requires a king, not exactly one; with two, the first in row-major order is the one used.
- Game.ChessGame.ValidMoves: requires the same two conditions of every board it tries.
  These are that no pawn stands on its last rank, and that the side to move has a king.
  OwnPieceDefined shows both hold whenever the piece belongs to the side to move, that side
  has a king, and no pawn stands on its last rank.
- Game.ChessGame.HasNoValidMove: requires its scan to be defined. For a colour other than the
  side to move, the boards it tries can lack the king of the side to move, which an off-turn
  candidate may capture. ScanOnTurn gives the exact result for the side to move only.
- Behaviour kept as written: `validMoves` tests check for the side in the turn field, not for
  the moving piece. A promoting piece of the other side comes back as a PAWN of the turn
  colour (OffTurnPawnRecoloured, ValidMovesBoardRule).
- `setBoard` aliasing: the game holds the caller's board object, and the model shows only
  that replacement. Later writes through other references are not followed.
- `hashCode` and `toString` methods: these are not modelled.
- Castling and en passant: the source does not implement them, and neither does the model.
- `ConcurrentHashMap`: the three tables are modelled as sequential maps, with no concurrency.
- `listGames` returns a live view of the map's values. The model returns a snapshot `set`, so
  iteration order and later updates through the view are not captured.
- `GameData` has other components (players, name, game state). The store never reads them,
  so they are carried as one `details` string; the record's own file is not part of this model.
- `null` keys and values in the tables are not modelled; `ConcurrentHashMap` rejects them.
- The server (`Server.java`), the services (`UserService.java`, `ClearService.java`), `Main.java`
  and the `DataAccess` interface are not part of this model. They are HTTP and JSON plumbing,
  delegation, random token generation, and an interface with no behaviour.
- `ChessPosition`, `ChessMove` and `InvalidMoveException` are not part of this model's
  source. Positions and moves are datatypes with structural equality, and the exception is
  the `Invalid` outcome of `MakeMove`.
