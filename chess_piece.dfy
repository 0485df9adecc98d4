/** Move geometry of a piece (`ChessPiece.java`): the moves a piece standing on a square
    could make, ignoring whether they leave its own king in check. The board is only read,
    so every rule is a function of the board value (`Grid`); the methods at the end build
    the same lists in the loops of the source and are proved equal to those functions. */
module Piece {
  import opened ChessTypes
  import opened Board

  /** `inBounds`: both coordinates in 1..8. */
  predicate InBounds(x: int, y: int) {
    x > 0 && x <= 8 && y > 0 && y <= 8
  }

  /** `isEmpty`: no piece on (x, y). */
  predicate IsEmpty(g: Grid, x: int, y: int)
    requires InBounds(x, y)
  {
    At(g, ChessPosition(x, y)) == None
  }

  /** `isSameTeam`, whose name says the opposite of what it tests: true when (x, y) is
      empty or holds a piece of the other colour than the piece on `from`. */
  predicate IsSameTeam(g: Grid, from: ChessPosition, x: int, y: int)
    requires InBoard(from) && At(g, from).Some? && InBounds(x, y)
  {
    if At(g, ChessPosition(x, y)) != None then
      At(g, from).value.pieceColor != At(g, ChessPosition(x, y)).value.pieceColor
    else
      true
  }

  /** `inBounds` holds exactly for the squares of the board. */
  lemma InBoundsRule(x: int, y: int)
    ensures InBounds(x, y) <==> InBoard(ChessPosition(x, y))
  {
  }

  /** `isEmpty` reads the array cell the board keeps for (x, y). */
  lemma IsEmptyRule(g: Grid, x: int, y: int)
    requires InBounds(x, y)
    ensures IsEmpty(g, x, y) <==> g[8 - x][y - 1] == None
  {
  }

  /** `isSameTeam` is false exactly when (x, y) holds a piece of the mover's own colour. */
  lemma IsSameTeamRule(g: Grid, from: ChessPosition, x: int, y: int)
    requires InBoard(from) && At(g, from).Some? && InBounds(x, y)
    ensures !IsSameTeam(g, from, x, y) <==>
      exists t: PieceType :: At(g, ChessPosition(x, y)) == Some(ChessPiece(At(g, from).value.pieceColor, t))
  {
    var target := At(g, ChessPosition(x, y));
    if target.Some? && target.value.pieceColor == At(g, from).value.pieceColor {
      assert target == Some(ChessPiece(At(g, from).value.pieceColor, target.value.pieceType));
    }
  }

  /** Direction and offset tables of the source, as (row, column) displacements. */
  const BishopDirections: seq<(int, int)> := [(1, 1), (-1, 1), (1, -1), (-1, -1)]
  const RookDirections: seq<(int, int)> := [(1, 0), (-1, 0), (0, 1), (0, -1)]
  const QueenDirections: seq<(int, int)> :=
    [(1, 0), (-1, 0), (0, 1), (0, -1), (1, 1), (-1, 1), (1, -1), (-1, -1)]
  const KingOffsets: seq<(int, int)> :=
    [(1, 0), (-1, 0), (0, 1), (0, -1), (1, 1), (1, -1), (-1, 1), (-1, -1)]
  const KnightOffsets: seq<(int, int)> :=
    [(2, 1), (1, 2), (-1, 2), (-2, 1), (-2, -1), (-1, -2), (1, -2), (2, -1)]

  /** Every direction is one of the eight unit steps. */
  predicate UnitDirections(dirs: seq<(int, int)>) {
    forall k :: 0 <= k < |dirs| ==> -1 <= dirs[k].0 <= 1 && -1 <= dirs[k].1 <= 1 && dirs[k] != (0, 0)
  }

  /** Steps left before coordinate `n`, moving by `d`, leaves 1..8. */
  function RayBudget(n: int, d: int): int {
    if d > 0 then 9 - n else if d < 0 then n else 0
  }

  /** Coordinate `n` after `k` unit steps in direction `d` (-1, 0 or 1). */
  function Step(n: int, d: int, k: int): int {
    if d == 0 then n else if d > 0 then n + k else n - k
  }

  /** The square `k` steps from (x, y) in direction (dx, dy). */
  function Reach(x: int, y: int, dx: int, dy: int, k: int): ChessPosition {
    ChessPosition(Step(x, dx, k), Step(y, dy, k))
  }

  /** The moves of the inner `while` loop of `getSlidingMoves` for one direction, from the
      square (nx, ny) on: empty squares are taken and the ray goes on; a square of the other
      colour is taken and ends the ray; a square of the same colour ends it untaken. */
  function Ray(g: Grid, x: int, y: int, dx: int, dy: int, nx: int, ny: int): seq<ChessMove>
    requires InBounds(x, y) && At(g, ChessPosition(x, y)).Some?
    requires -1 <= dx <= 1 && -1 <= dy <= 1 && (dx, dy) != (0, 0)
    decreases RayBudget(nx, dx) + RayBudget(ny, dy)
  {
    if !InBounds(nx, ny) then []
    else if IsEmpty(g, nx, ny) then
      [ChessMove(ChessPosition(x, y), ChessPosition(nx, ny), None)] + Ray(g, x, y, dx, dy, nx + dx, ny + dy)
    else if At(g, ChessPosition(x, y)).value.pieceColor != At(g, ChessPosition(nx, ny)).value.pieceColor then
      [ChessMove(ChessPosition(x, y), ChessPosition(nx, ny), None)]
    else
      []
  }

  /** `getSlidingMoves`: the rays of all directions, in the order of the table. */
  function SlidingMoves(g: Grid, x: int, y: int, dirs: seq<(int, int)>): seq<ChessMove>
    requires InBounds(x, y) && At(g, ChessPosition(x, y)).Some?
    requires UnitDirections(dirs)
    decreases |dirs|
  {
    if dirs == [] then []
    else
      var d := dirs[|dirs| - 1];
      SlidingMoves(g, x, y, dirs[..|dirs| - 1]) + Ray(g, x, y, d.0, d.1, x + d.0, y + d.1)
  }

  /** `getChessMoves` (king and knight): each offset whose square is in bounds and empty or
      held by the other colour, in the order of the table. */
  function StepMoves(g: Grid, pos: ChessPosition, offsets: seq<(int, int)>): seq<ChessMove>
    requires InBoard(pos) && At(g, pos).Some?
    decreases |offsets|
  {
    if offsets == [] then []
    else
      var o := offsets[|offsets| - 1];
      var nx := pos.row + o.0;
      var ny := pos.column + o.1;
      StepMoves(g, pos, offsets[..|offsets| - 1]) +
        (if InBounds(nx, ny) && IsSameTeam(g, pos, nx, ny) then [ChessMove(pos, ChessPosition(nx, ny), None)] else [])
  }

  /** Forward direction, start row, and the row from which a pawn promotes. */
  function PawnDirection(c: TeamColor): int {
    if c == BLACK then -1 else 1
  }

  function PawnStartRow(c: TeamColor): int {
    if c == BLACK then 7 else 2
  }

  function PawnEndRow(c: TeamColor): int {
    if c == WHITE then 7 else 2
  }

  /** The rank a pawn of colour `c` moves towards and never stands on. */
  function LastRank(c: TeamColor): int {
    if c == WHITE then 8 else 1
  }

  /** The promotion choices, in the order the source lists them. */
  const PromotionOptions: seq<PieceType> := [QUEEN, BISHOP, KNIGHT, ROOK]

  /** `pawnPromotion` for each choice. */
  function Promotions(from: ChessPosition, to: ChessPosition): seq<ChessMove> {
    [ChessMove(from, to, Some(QUEEN)), ChessMove(from, to, Some(BISHOP)),
     ChessMove(from, to, Some(KNIGHT)), ChessMove(from, to, Some(ROOK))]
  }

  /** The forward part of `pawnRules`: one step onto an empty square (four promotions from
      the promotion row), and two steps from the start row over two empty squares. */
  function PawnForward(g: Grid, pos: ChessPosition, c: TeamColor): seq<ChessMove>
    requires InBoard(pos) && pos.row != LastRank(c)
  {
    var dir := PawnDirection(c);
    if IsEmpty(g, pos.row + dir, pos.column) then
      if pos.row == PawnEndRow(c) then
        Promotions(pos, ChessPosition(pos.row + dir, pos.column))
      else
        [ChessMove(pos, ChessPosition(pos.row + dir, pos.column), None)] +
          if pos.row == PawnStartRow(c) && IsEmpty(g, pos.row + 2 * dir, pos.column) then
            [ChessMove(pos, ChessPosition(pos.row + 2 * dir, pos.column), None)]
          else []
    else []
  }

  /** One iteration of `pawnCapture`: the diagonal square (row + dir, column + dy), if it is
      in bounds and holds a piece of the other colour. */
  function PawnCaptureAt(g: Grid, pos: ChessPosition, dir: int, endRow: int, dy: int): seq<ChessMove>
    requires InBoard(pos) && At(g, pos).Some?
  {
    var nx := pos.row + dir;
    var ny := pos.column + dy;
    if InBounds(nx, ny) && !IsEmpty(g, nx, ny) && IsSameTeam(g, pos, nx, ny) then
      if pos.row == endRow then Promotions(pos, ChessPosition(pos.row + dir, ny))
      else [ChessMove(pos, ChessPosition(nx, ny), None)]
    else []
  }

  /** `pawnCapture`: the left diagonal, then the right one. */
  function PawnCaptures(g: Grid, pos: ChessPosition, dir: int, endRow: int): seq<ChessMove>
    requires InBoard(pos) && At(g, pos).Some?
  {
    PawnCaptureAt(g, pos, dir, endRow, -1) + PawnCaptureAt(g, pos, dir, endRow, 1)
  }

  /** `pawnRules`: forward moves, then captures. */
  function PawnMoves(g: Grid, pos: ChessPosition, piece: ChessPiece): seq<ChessMove>
    requires InBoard(pos) && At(g, pos).Some? && pos.row != LastRank(piece.pieceColor)
  {
    var c := piece.pieceColor;
    PawnForward(g, pos, c) + PawnCaptures(g, pos, PawnDirection(c), PawnEndRow(c))
  }

  /** The forward-step read of `pawnRules` has no bounds check: a pawn on its last rank
      faults. Every caller must keep pawns off their last rank. */
  predicate PawnOffLastRank(g: Grid, pos: ChessPosition)
    requires InBoard(pos)
  {
    At(g, pos).Some? && At(g, pos).value.pieceType == PAWN ==> pos.row != LastRank(At(g, pos).value.pieceColor)
  }

  /** No pawn on the board stands on its last rank. */
  ghost predicate PawnsOffLastRank(g: Grid) {
    forall p {:trigger PawnOffLastRank(g, p)} :: InBoard(p) ==> PawnOffLastRank(g, p)
  }

  /** `pieceMoves`: dispatch on the kind of the piece standing on `pos`. */
  function Moves(g: Grid, pos: ChessPosition): seq<ChessMove>
    requires InBoard(pos) && At(g, pos).Some? && PawnOffLastRank(g, pos)
  {
    var piece := At(g, pos).value;
    match piece.pieceType
    case KING => StepMoves(g, pos, KingOffsets)
    case QUEEN => SlidingMoves(g, pos.row, pos.column, QueenDirections)
    case BISHOP => SlidingMoves(g, pos.row, pos.column, BishopDirections)
    case ROOK => SlidingMoves(g, pos.row, pos.column, RookDirections)
    case KNIGHT => StepMoves(g, pos, KnightOffsets)
    case PAWN => PawnMoves(g, pos, piece)
  }

  // ---------------------------------------------------------------------------------
  // What every generated move satisfies
  // ---------------------------------------------------------------------------------

  /** A move from `pos` onto an in-bounds square other than `pos` that is empty or holds a
      piece of the other colour. */
  predicate Enterable(g: Grid, pos: ChessPosition, m: ChessMove)
    requires InBoard(pos) && At(g, pos).Some?
  {
    && m.startPosition == pos
    && InBoard(m.endPosition)
    && m.endPosition != pos
    && (At(g, m.endPosition) == None || At(g, m.endPosition).value.pieceColor != At(g, pos).value.pieceColor)
  }

  /** Square `k` of the ray from (x, y) is reachable when starting the walk at step `j`: it
      is on the board, every square from step `j` up to it is empty, and it is itself empty
      or held by the other colour. */
  predicate RayOpen(g: Grid, x: int, y: int, dx: int, dy: int, j: int, k: int)
    requires InBounds(x, y) && At(g, ChessPosition(x, y)).Some?
  {
    && InBoard(Reach(x, y, dx, dy, k))
    && (forall i :: j <= i < k ==> InBoard(Reach(x, y, dx, dy, i)) && At(g, Reach(x, y, dx, dy, i)) == None)
    && (At(g, Reach(x, y, dx, dy, k)) == None ||
        At(g, Reach(x, y, dx, dy, k)).value.pieceColor != At(g, ChessPosition(x, y)).value.pieceColor)
  }

  /** The ray walked from step `j` holds exactly the squares RayOpen admits (once each, by RayDistinct),
      without promotion: every empty square before the first occupied one, that square
      itself if and only if it holds the other colour, and nothing beyond it. */
  lemma {:induction false} RayExact(g: Grid, x: int, y: int, dx: int, dy: int, j: int)
    requires InBounds(x, y) && At(g, ChessPosition(x, y)).Some?
    requires -1 <= dx <= 1 && -1 <= dy <= 1 && (dx, dy) != (0, 0)
    requires j >= 1
    ensures forall m :: m in RayFrom(g, x, y, dx, dy, j) ==>
      && m.startPosition == ChessPosition(x, y) && m.promotionPiece == None
      && exists k :: j <= k && m.endPosition == Reach(x, y, dx, dy, k) && RayOpen(g, x, y, dx, dy, j, k)
    ensures forall k :: j <= k ==>
      ((ChessMove(ChessPosition(x, y), Reach(x, y, dx, dy, k), None) in RayFrom(g, x, y, dx, dy, j)) <==>
       RayOpen(g, x, y, dx, dy, j, k))
    decreases RayBudget(Step(x, dx, j), dx) + RayBudget(Step(y, dy, j), dy)
  {
    var from := ChessPosition(x, y);
    var sq := Reach(x, y, dx, dy, j);
    var r := RayFrom(g, x, y, dx, dy, j);
    if !InBoard(sq) {
      forall k | j <= k
        ensures !RayOpen(g, x, y, dx, dy, j, k)
      {
        RayClosedAt(g, x, y, dx, dy, j, k);
      }
    } else {
      forall k | j < k
        ensures Reach(x, y, dx, dy, k) != sq
      {
      }
      if At(g, sq) == None {
        var rest := RayFrom(g, x, y, dx, dy, j + 1);
        assert r == [ChessMove(from, sq, None)] + rest;
        RayExact(g, x, y, dx, dy, j + 1);
        forall m | m in r
          ensures exists k :: j <= k && m.endPosition == Reach(x, y, dx, dy, k) && RayOpen(g, x, y, dx, dy, j, k)
        {
          if m in rest {
            var k :| j + 1 <= k && m.endPosition == Reach(x, y, dx, dy, k) && RayOpen(g, x, y, dx, dy, j + 1, k);
            RayOpenEmptyStep(g, x, y, dx, dy, j, k);
          } else {
            assert RayOpen(g, x, y, dx, dy, j, j);
          }
        }
        forall k | j < k
          ensures RayOpen(g, x, y, dx, dy, j, k) <==> RayOpen(g, x, y, dx, dy, j + 1, k)
        {
          RayOpenEmptyStep(g, x, y, dx, dy, j, k);
        }
      } else {
        forall k | j < k
          ensures !RayOpen(g, x, y, dx, dy, j, k)
        {
          RayClosedAt(g, x, y, dx, dy, j, k);
        }
        if r != [] {
          assert RayOpen(g, x, y, dx, dy, j, j);
        }
      }
    }
  }

  /** The walk from step `j`, the way getSlidingMoves starts it at step 1. */
  function RayFrom(g: Grid, x: int, y: int, dx: int, dy: int, j: int): seq<ChessMove>
    requires InBounds(x, y) && At(g, ChessPosition(x, y)).Some?
    requires -1 <= dx <= 1 && -1 <= dy <= 1 && (dx, dy) != (0, 0)
    requires j >= 1
  {
    Ray(g, x, y, dx, dy, Step(x, dx, j), Step(y, dy, j))
  }

  /** No move occurs twice in the list. */
  predicate NoRepeats(ms: seq<ChessMove>) {
    forall a, b :: 0 <= a < b < |ms| ==> ms[a] != ms[b]
  }

  /** Two lists without repeats and without a common move join into a list without repeats. */
  lemma NoRepeatsAppend(xs: seq<ChessMove>, ys: seq<ChessMove>)
    requires NoRepeats(xs) && NoRepeats(ys)
    requires forall m :: m in xs ==> m !in ys
    ensures NoRepeats(xs + ys)
  {
    var zs := xs + ys;
    forall a, b | 0 <= a < b < |zs|
      ensures zs[a] != zs[b]
    {
      if b < |xs| {
        assert zs[a] == xs[a] && zs[b] == xs[b];
      } else if a >= |xs| {
        assert zs[a] == ys[a - |xs|] && zs[b] == ys[b - |xs|];
      } else {
        assert zs[a] in xs && zs[b] in ys;
      }
    }
  }

  /** Every move of the walk from step `j` ends at step `j` or later. */
  lemma RayBeyond(g: Grid, x: int, y: int, dx: int, dy: int, j: int)
    requires InBounds(x, y) && At(g, ChessPosition(x, y)).Some?
    requires -1 <= dx <= 1 && -1 <= dy <= 1 && (dx, dy) != (0, 0)
    requires j >= 1
    ensures forall m :: m in RayFrom(g, x, y, dx, dy, j) ==>
      exists k :: j <= k && m.endPosition == Reach(x, y, dx, dy, k)
  {
    RayExact(g, x, y, dx, dy, j);
  }

  /** A ray never lists a move twice: its squares lie at ever more steps from the piece. */
  lemma {:induction false} RayDistinct(g: Grid, x: int, y: int, dx: int, dy: int, j: int)
    requires InBounds(x, y) && At(g, ChessPosition(x, y)).Some?
    requires -1 <= dx <= 1 && -1 <= dy <= 1 && (dx, dy) != (0, 0)
    requires j >= 1
    ensures NoRepeats(RayFrom(g, x, y, dx, dy, j))
    decreases RayBudget(Step(x, dx, j), dx) + RayBudget(Step(y, dy, j), dy)
  {
    var sq := Reach(x, y, dx, dy, j);
    var r := RayFrom(g, x, y, dx, dy, j);
    if InBoard(sq) && At(g, sq) == None {
      var rest := RayFrom(g, x, y, dx, dy, j + 1);
      assert r == [ChessMove(ChessPosition(x, y), sq, None)] + rest;
      RayDistinct(g, x, y, dx, dy, j + 1);
      RayBeyond(g, x, y, dx, dy, j + 1);
      forall a, b | 0 <= a < b < |r|
        ensures r[a] != r[b]
      {
        if a == 0 {
          assert r[b] in rest;
          var k :| j + 1 <= k && r[b].endPosition == Reach(x, y, dx, dy, k);
          assert Reach(x, y, dx, dy, k) != sq;
        } else {
          assert r[a] == rest[a - 1] && r[b] == rest[b - 1];
        }
      }
    }
  }

  /** A square that is off the board or occupied at step `j` closes the ray beyond it. */
  lemma RayClosedAt(g: Grid, x: int, y: int, dx: int, dy: int, j: int, k: int)
    requires InBounds(x, y) && At(g, ChessPosition(x, y)).Some?
    requires j <= k
    requires !InBoard(Reach(x, y, dx, dy, j)) || (k > j && At(g, Reach(x, y, dx, dy, j)) != None)
    ensures !RayOpen(g, x, y, dx, dy, j, k)
  {
    if k > j {
      assert !(InBoard(Reach(x, y, dx, dy, j)) && At(g, Reach(x, y, dx, dy, j)) == None);
    }
  }

  /** An empty square at step `j` lets the walk from `j` reach what the walk from `j + 1` reaches. */
  lemma RayOpenEmptyStep(g: Grid, x: int, y: int, dx: int, dy: int, j: int, k: int)
    requires InBounds(x, y) && At(g, ChessPosition(x, y)).Some?
    requires j < k
    requires InBoard(Reach(x, y, dx, dy, j)) && At(g, Reach(x, y, dx, dy, j)) == None
    ensures RayOpen(g, x, y, dx, dy, j, k) <==> RayOpen(g, x, y, dx, dy, j + 1, k)
  {
  }

  /** Every move of a ray walked from step 1 is enterable and carries no promotion. */
  lemma RayEnterable(g: Grid, x: int, y: int, dx: int, dy: int)
    requires InBounds(x, y) && At(g, ChessPosition(x, y)).Some?
    requires -1 <= dx <= 1 && -1 <= dy <= 1 && (dx, dy) != (0, 0)
    ensures forall m :: m in RayFrom(g, x, y, dx, dy, 1) ==>
      Enterable(g, ChessPosition(x, y), m) && m.promotionPiece == None
  {
    RayExact(g, x, y, dx, dy, 1);
    forall m | m in RayFrom(g, x, y, dx, dy, 1)
      ensures Enterable(g, ChessPosition(x, y), m)
    {
      var k :| 1 <= k && m.endPosition == Reach(x, y, dx, dy, k) && RayOpen(g, x, y, dx, dy, 1, k);
    }
  }

  /** A sliding piece's moves are exactly the moves of its rays, one ray per direction. */
  lemma {:induction false} SlidingMovesRays(g: Grid, x: int, y: int, dirs: seq<(int, int)>)
    requires InBounds(x, y) && At(g, ChessPosition(x, y)).Some?
    requires UnitDirections(dirs)
    ensures forall m :: m in SlidingMoves(g, x, y, dirs) <==>
      exists k :: 0 <= k < |dirs| && m in RayFrom(g, x, y, dirs[k].0, dirs[k].1, 1)
    decreases |dirs|
  {
    if dirs != [] {
      var front := dirs[..|dirs| - 1];
      var d := dirs[|dirs| - 1];
      SlidingMovesRays(g, x, y, front);
      assert RayFrom(g, x, y, d.0, d.1, 1) == Ray(g, x, y, d.0, d.1, x + d.0, y + d.1);
      forall m | m in SlidingMoves(g, x, y, dirs)
        ensures exists k :: 0 <= k < |dirs| && m in RayFrom(g, x, y, dirs[k].0, dirs[k].1, 1)
      {
        if m in SlidingMoves(g, x, y, front) {
          var k :| 0 <= k < |front| && m in RayFrom(g, x, y, front[k].0, front[k].1, 1);
          assert dirs[k] == front[k];
        } else {
          assert m in RayFrom(g, x, y, dirs[|dirs| - 1].0, dirs[|dirs| - 1].1, 1);
        }
      }
      forall m, k | 0 <= k < |dirs| && m in RayFrom(g, x, y, dirs[k].0, dirs[k].1, 1)
        ensures m in SlidingMoves(g, x, y, dirs)
      {
        if k < |front| {
          assert dirs[k] == front[k];
        }
      }
    }
  }

  /** Every move of a sliding piece is enterable and carries no promotion. */
  lemma SlidingEnterable(g: Grid, x: int, y: int, dirs: seq<(int, int)>)
    requires InBounds(x, y) && At(g, ChessPosition(x, y)).Some?
    requires UnitDirections(dirs)
    ensures forall m :: m in SlidingMoves(g, x, y, dirs) ==>
      Enterable(g, ChessPosition(x, y), m) && m.promotionPiece == None
  {
    SlidingMovesRays(g, x, y, dirs);
    forall m | m in SlidingMoves(g, x, y, dirs)
      ensures Enterable(g, ChessPosition(x, y), m) && m.promotionPiece == None
    {
      var k :| 0 <= k < |dirs| && m in RayFrom(g, x, y, dirs[k].0, dirs[k].1, 1);
      RayEnterable(g, x, y, dirs[k].0, dirs[k].1);
    }
  }

  /** The directions up to `k + 1` slide as those up to `k`, followed by the ray of direction `k`. */
  lemma SlidingPrefix(g: Grid, x: int, y: int, dirs: seq<(int, int)>, k: int)
    requires InBounds(x, y) && At(g, ChessPosition(x, y)).Some?
    requires UnitDirections(dirs) && 0 <= k < |dirs|
    ensures UnitDirections(dirs[..k]) && UnitDirections(dirs[..k + 1])
    ensures SlidingMoves(g, x, y, dirs[..k + 1]) ==
      SlidingMoves(g, x, y, dirs[..k]) + Ray(g, x, y, dirs[k].0, dirs[k].1, x + dirs[k].0, y + dirs[k].1)
  {
    assert dirs[..k + 1][..k] == dirs[..k];
  }

  /** Two tables of unit directions, one after the other, are a table of unit directions. */
  lemma UnitDirectionsAppend(a: seq<(int, int)>, b: seq<(int, int)>)
    requires UnitDirections(a) && UnitDirections(b)
    ensures UnitDirections(a + b)
  {
    forall k | 0 <= k < |a + b|
      ensures -1 <= (a + b)[k].0 <= 1 && -1 <= (a + b)[k].1 <= 1 && (a + b)[k] != (0, 0)
    {
      if k < |a| {
        assert (a + b)[k] == a[k];
      } else {
        assert (a + b)[k] == b[k - |a|];
      }
    }
  }

  /** Sliding along two direction tables one after the other gives the moves of the first
      followed by the moves of the second. */
  lemma {:induction false} SlidingAppend(g: Grid, x: int, y: int, a: seq<(int, int)>, b: seq<(int, int)>)
    requires InBounds(x, y) && At(g, ChessPosition(x, y)).Some?
    requires UnitDirections(a) && UnitDirections(b)
    ensures UnitDirections(a + b)
    ensures SlidingMoves(g, x, y, a + b) == SlidingMoves(g, x, y, a) + SlidingMoves(g, x, y, b)
    decreases |b|
  {
    UnitDirectionsAppend(a, b);
    if b == [] {
      assert a + b == a;
    } else {
      var front := b[..|b| - 1];
      var d := b[|b| - 1];
      var ab := a + b;
      assert ab[..|ab| - 1] == a + front;
      assert ab[|ab| - 1] == d;
      assert UnitDirections(front);
      SlidingAppend(g, x, y, a, front);
      var ray := Ray(g, x, y, d.0, d.1, x + d.0, y + d.1);
      assert SlidingMoves(g, x, y, ab) == SlidingMoves(g, x, y, a + front) + ray;
      assert SlidingMoves(g, x, y, b) == SlidingMoves(g, x, y, front) + ray;
    }
  }

  /** The queen's table is the rook's followed by the bishop's, so a queen moves exactly as
      a rook and then as a bishop standing on its square. */
  lemma QueenIsRookThenBishop(g: Grid, x: int, y: int)
    requires InBounds(x, y) && At(g, ChessPosition(x, y)).Some?
    ensures QueenDirections == RookDirections + BishopDirections
    ensures SlidingMoves(g, x, y, QueenDirections) ==
      SlidingMoves(g, x, y, RookDirections) + SlidingMoves(g, x, y, BishopDirections)
  {
    assert QueenDirections == RookDirections + BishopDirections;
    SlidingAppend(g, x, y, RookDirections, BishopDirections);
  }

  /** King and knight: at most one move per offset, and each move is enterable, unpromoted
      and displaced by an offset of the table. */
  lemma {:induction false} StepMovesSound(g: Grid, pos: ChessPosition, offsets: seq<(int, int)>)
    requires InBoard(pos) && At(g, pos).Some? && (0, 0) !in offsets
    ensures |StepMoves(g, pos, offsets)| <= |offsets|
    ensures forall m :: m in StepMoves(g, pos, offsets) ==>
      && Enterable(g, pos, m) && m.promotionPiece == None
      && (m.endPosition.row - pos.row, m.endPosition.column - pos.column) in offsets
    decreases |offsets|
  {
    if offsets != [] {
      var front := offsets[..|offsets| - 1];
      var o := offsets[|offsets| - 1];
      assert forall q :: q in front ==> q in offsets;
      StepMovesSound(g, pos, front);
      var nx, ny := pos.row + o.0, pos.column + o.1;
      var step := if InBounds(nx, ny) && IsSameTeam(g, pos, nx, ny) then [ChessMove(pos, ChessPosition(nx, ny), None)] else [];
      assert StepMoves(g, pos, offsets) == StepMoves(g, pos, front) + step;
      assert o in offsets;
    }
  }

  /** King and knight: every offset leading to an in-bounds square that is empty or held by
      the other colour yields a move. */
  lemma {:induction false} StepMovesComplete(g: Grid, pos: ChessPosition, offsets: seq<(int, int)>)
    requires InBoard(pos) && At(g, pos).Some?
    ensures forall o :: (o in offsets && InBounds(pos.row + o.0, pos.column + o.1) &&
                         IsSameTeam(g, pos, pos.row + o.0, pos.column + o.1)) ==>
        ChessMove(pos, ChessPosition(pos.row + o.0, pos.column + o.1), None) in StepMoves(g, pos, offsets)
    decreases |offsets|
  {
    if offsets != [] {
      var front := offsets[..|offsets| - 1];
      StepMovesComplete(g, pos, front);
      forall o | o in offsets
        ensures o in front || o == offsets[|offsets| - 1]
      {
        assert offsets == front + [offsets[|offsets| - 1]];
      }
    }
  }

  /** The king has at most eight moves, every one a step of one square in one of the eight
      directions. */
  lemma KingRule(g: Grid, pos: ChessPosition)
    requires InBoard(pos) && At(g, pos).Some?
    ensures |StepMoves(g, pos, KingOffsets)| <= 8
    ensures forall m :: m in StepMoves(g, pos, KingOffsets) ==>
      (m.endPosition.row - pos.row, m.endPosition.column - pos.column) in KingOffsets
  {
    StepMovesSound(g, pos, KingOffsets);
  }

  /** The knight has at most eight moves, every one a jump of the knight's table. */
  lemma KnightRule(g: Grid, pos: ChessPosition)
    requires InBoard(pos) && At(g, pos).Some?
    ensures |StepMoves(g, pos, KnightOffsets)| <= 8
    ensures forall m :: m in StepMoves(g, pos, KnightOffsets) ==>
      (m.endPosition.row - pos.row, m.endPosition.column - pos.column) in KnightOffsets
  {
    StepMovesSound(g, pos, KnightOffsets);
  }

  /** A pawn's moves are those of `pawnRules`: forward moves, then captures. */
  lemma PawnMovesSplit(g: Grid, pos: ChessPosition, c: TeamColor)
    requires InBoard(pos) && At(g, pos) == Some(ChessPiece(c, PAWN)) && pos.row != LastRank(c)
    ensures Moves(g, pos) == PawnForward(g, pos, c) + PawnCaptures(g, pos, PawnDirection(c), PawnEndRow(c))
  {
  }

  /** The forward moves stay in the pawn's column, go one or two rows forward, and land on
      empty squares of the board. */
  lemma PawnForwardShape(g: Grid, pos: ChessPosition, c: TeamColor)
    requires InBoard(pos) && pos.row != LastRank(c)
    ensures forall m :: m in PawnForward(g, pos, c) ==>
      && m.startPosition == pos && m.endPosition.column == pos.column && InBoard(m.endPosition) && At(g, m.endPosition) == None
      && (m.endPosition.row == pos.row + PawnDirection(c) || m.endPosition.row == pos.row + 2 * PawnDirection(c))
  {
  }

  /** The captures of one diagonal land one row forward and `dy` columns aside, on a square
      of the board held by the other colour. */
  lemma PawnCaptureShape(g: Grid, pos: ChessPosition, c: TeamColor, dy: int)
    requires InBoard(pos) && At(g, pos) == Some(ChessPiece(c, PAWN))
    ensures forall m :: m in PawnCaptureAt(g, pos, PawnDirection(c), PawnEndRow(c), dy) ==>
      && m.startPosition == pos && m.endPosition == ChessPosition(pos.row + PawnDirection(c), pos.column + dy)
      && InBoard(m.endPosition) && At(g, m.endPosition).Some? && At(g, m.endPosition).value.pieceColor != c
  {
  }

  /** A pawn's moves are its forward moves and its captures on either diagonal. */
  lemma PawnMovesParts(g: Grid, pos: ChessPosition, c: TeamColor)
    requires InBoard(pos) && At(g, pos) == Some(ChessPiece(c, PAWN)) && pos.row != LastRank(c)
    ensures forall m :: m in Moves(g, pos) <==>
      (|| m in PawnForward(g, pos, c)
       || m in PawnCaptureAt(g, pos, PawnDirection(c), PawnEndRow(c), -1)
       || m in PawnCaptureAt(g, pos, PawnDirection(c), PawnEndRow(c), 1))
  {
    PawnMovesSplit(g, pos, c);
  }

  /** The single step: WHITE moves up a row and BLACK down; the step onto the square ahead
      exists (as a QUEEN promotion, among others, from the promotion row) if and only if
      that square is empty. */
  lemma PawnStepRule(g: Grid, pos: ChessPosition, c: TeamColor)
    requires InBoard(pos) && At(g, pos) == Some(ChessPiece(c, PAWN)) && pos.row != LastRank(c)
    ensures var ahead := ChessPosition(pos.row + PawnDirection(c), pos.column);
      && (pos.row != PawnEndRow(c) ==> (ChessMove(pos, ahead, None) in Moves(g, pos) <==> At(g, ahead) == None))
      && (pos.row == PawnEndRow(c) ==> (ChessMove(pos, ahead, Some(QUEEN)) in Moves(g, pos) <==> At(g, ahead) == None))
  {
    PawnMovesParts(g, pos, c);
    PawnCaptureShape(g, pos, c, -1);
    PawnCaptureShape(g, pos, c, 1);
  }

  /** The double step exists if and only if the pawn is on its start row and both squares
      ahead are empty. */
  lemma PawnDoubleStepRule(g: Grid, pos: ChessPosition, c: TeamColor)
    requires InBoard(pos) && At(g, pos) == Some(ChessPiece(c, PAWN)) && pos.row != LastRank(c)
    ensures var ahead := ChessPosition(pos.row + PawnDirection(c), pos.column);
      var twoAhead := ChessPosition(pos.row + 2 * PawnDirection(c), pos.column);
      (ChessMove(pos, twoAhead, None) in Moves(g, pos)) <==>
        pos.row == PawnStartRow(c) && At(g, ahead) == None && At(g, twoAhead) == None
  {
    PawnMovesParts(g, pos, c);
    PawnCaptureShape(g, pos, c, -1);
    PawnCaptureShape(g, pos, c, 1);
  }

  /** A pawn moves straight ahead only onto empty squares, one or two rows forward. */
  lemma PawnStraightRule(g: Grid, pos: ChessPosition, c: TeamColor)
    requires InBoard(pos) && At(g, pos) == Some(ChessPiece(c, PAWN)) && pos.row != LastRank(c)
    ensures forall m :: m in Moves(g, pos) && m.endPosition.column == pos.column ==>
      InBoard(m.endPosition) && At(g, m.endPosition) == None &&
      (m.endPosition.row == pos.row + PawnDirection(c) || m.endPosition.row == pos.row + 2 * PawnDirection(c))
  {
    PawnMovesParts(g, pos, c);
    PawnForwardShape(g, pos, c);
    PawnCaptureShape(g, pos, c, -1);
    PawnCaptureShape(g, pos, c, 1);
  }

  /** Pawn diagonal moves: one row forward, one column aside, onto an in-bounds square that
      holds a piece of the other colour. */
  lemma PawnCaptureRule(g: Grid, pos: ChessPosition, c: TeamColor)
    requires InBoard(pos) && At(g, pos) == Some(ChessPiece(c, PAWN)) && pos.row != LastRank(c)
    ensures forall m :: m in Moves(g, pos) && m.endPosition.column != pos.column ==>
      && m.endPosition.row == pos.row + PawnDirection(c)
      && (m.endPosition.column == pos.column - 1 || m.endPosition.column == pos.column + 1)
      && InBoard(m.endPosition)
      && At(g, m.endPosition).Some? && At(g, m.endPosition).value.pieceColor != c
  {
    PawnMovesParts(g, pos, c);
    PawnForwardShape(g, pos, c);
    PawnCaptureShape(g, pos, c, -1);
    PawnCaptureShape(g, pos, c, 1);
  }

  /** The forward moves hold no repeats: the single and the double step end on different
      rows, and the four promotions differ in their kind. */
  lemma PawnForwardNoRepeats(g: Grid, pos: ChessPosition, c: TeamColor)
    requires InBoard(pos) && pos.row != LastRank(c)
    ensures NoRepeats(PawnForward(g, pos, c))
  {
  }

  /** The captures on one diagonal hold no repeats: there is one, or four promotions that
      differ in their kind. */
  lemma PawnCaptureNoRepeats(g: Grid, pos: ChessPosition, c: TeamColor, dy: int)
    requires InBoard(pos) && At(g, pos) == Some(ChessPiece(c, PAWN))
    ensures NoRepeats(PawnCaptureAt(g, pos, PawnDirection(c), PawnEndRow(c), dy))
  {
  }

  /** A pawn never lists a move twice. With PawnPromotionRule, a destination reached from the
      promotion row therefore carries exactly four moves, one per promotion kind. */
  lemma PawnMovesDistinct(g: Grid, pos: ChessPosition, c: TeamColor)
    requires InBoard(pos) && At(g, pos) == Some(ChessPiece(c, PAWN)) && pos.row != LastRank(c)
    ensures NoRepeats(Moves(g, pos))
  {
    var dir := PawnDirection(c);
    var endRow := PawnEndRow(c);
    var f := PawnForward(g, pos, c);
    var l := PawnCaptureAt(g, pos, dir, endRow, -1);
    var r := PawnCaptureAt(g, pos, dir, endRow, 1);
    PawnForwardShape(g, pos, c);
    PawnCaptureShape(g, pos, c, -1);
    PawnCaptureShape(g, pos, c, 1);
    PawnForwardNoRepeats(g, pos, c);
    PawnCaptureNoRepeats(g, pos, c, -1);
    PawnCaptureNoRepeats(g, pos, c, 1);
    // Left and right captures end in different columns, and both off the pawn's column.
    assert forall m :: m in l ==> m.endPosition.column == pos.column - 1;
    assert forall m :: m in r ==> m.endPosition.column == pos.column + 1;
    NoRepeatsAppend(l, r);
    assert forall m :: m in l + r ==> m.endPosition.column != pos.column;
    NoRepeatsAppend(f, l + r);
    PawnMovesSplit(g, pos, c);
    assert Moves(g, pos) == f + (l + r);
  }

  /** Conversely, a piece of the other colour on an in-bounds forward diagonal is always
      captured: by one unpromoted move, or from the promotion row by all four promotions. */
  lemma PawnCaptureComplete(g: Grid, pos: ChessPosition, c: TeamColor, dy: int)
    requires InBoard(pos) && At(g, pos) == Some(ChessPiece(c, PAWN)) && pos.row != LastRank(c)
    requires dy == -1 || dy == 1
    ensures var to := ChessPosition(pos.row + PawnDirection(c), pos.column + dy);
      InBoard(to) && At(g, to).Some? && At(g, to).value.pieceColor != c ==>
        && (pos.row != PawnEndRow(c) ==> ChessMove(pos, to, None) in Moves(g, pos))
        && (pos.row == PawnEndRow(c) ==>
              forall t :: t in PromotionOptions ==> ChessMove(pos, to, Some(t)) in Moves(g, pos))
  {
    PawnMovesParts(g, pos, c);
  }

  /** The promotion pattern of a list of pawn moves from `pos`: from the promotion row every
      move promotes to one of the four choices, lands on the last rank, and comes with its
      three siblings; from any other row none promotes and none lands on the last rank. */
  predicate PromotionPattern(pos: ChessPosition, c: TeamColor, ms: seq<ChessMove>) {
    forall m :: m in ms ==>
      if pos.row == PawnEndRow(c) then
        && m.promotionPiece.Some? && m.promotionPiece.value in PromotionOptions
        && m.endPosition.row == LastRank(c)
        && forall t :: t in PromotionOptions ==> ChessMove(pos, m.endPosition, Some(t)) in ms
      else
        m.promotionPiece == None && m.endPosition.row != LastRank(c)
  }

  /** The pattern survives concatenation. */
  lemma PromotionPatternAppend(pos: ChessPosition, c: TeamColor, a: seq<ChessMove>, b: seq<ChessMove>)
    requires PromotionPattern(pos, c, a) && PromotionPattern(pos, c, b)
    ensures PromotionPattern(pos, c, a + b)
  {
    forall m | m in a + b
      ensures m in a || m in b
    {
    }
  }

  /** The four promotions of one destination on the last rank have the pattern. */
  lemma PromotionsPattern(pos: ChessPosition, c: TeamColor, to: ChessPosition)
    requires pos.row == PawnEndRow(c) && to.row == LastRank(c)
    ensures PromotionPattern(pos, c, Promotions(pos, to))
  {
    var ps := Promotions(pos, to);
    forall m | m in ps
      ensures m.endPosition == to && m.promotionPiece.Some? && m.promotionPiece.value in PromotionOptions
    {
    }
    forall t | t in PromotionOptions
      ensures ChessMove(pos, to, Some(t)) in ps
    {
    }
  }

  /** The forward part of `pawnRules` has the pattern. */
  lemma PawnForwardPattern(g: Grid, pos: ChessPosition, c: TeamColor)
    requires InBoard(pos) && pos.row != LastRank(c)
    ensures PromotionPattern(pos, c, PawnForward(g, pos, c))
  {
    var dir := PawnDirection(c);
    if IsEmpty(g, pos.row + dir, pos.column) && pos.row == PawnEndRow(c) {
      PromotionsPattern(pos, c, ChessPosition(pos.row + dir, pos.column));
    }
  }

  /** Each diagonal of `pawnCapture` has the pattern. */
  lemma PawnCapturePattern(g: Grid, pos: ChessPosition, c: TeamColor, dy: int)
    requires InBoard(pos) && At(g, pos).Some? && pos.row != LastRank(c)
    ensures PromotionPattern(pos, c, PawnCaptureAt(g, pos, PawnDirection(c), PawnEndRow(c), dy))
  {
    var dir := PawnDirection(c);
    var nx, ny := pos.row + dir, pos.column + dy;
    if InBounds(nx, ny) && !IsEmpty(g, nx, ny) && IsSameTeam(g, pos, nx, ny) && pos.row == PawnEndRow(c) {
      PromotionsPattern(pos, c, ChessPosition(nx, ny));
    }
  }

  /** Pawn promotion: from the promotion row (7 for WHITE, 2 for BLACK) every move promotes,
      to a square of the last rank, and each destination comes with all four choices QUEEN,
      BISHOP, KNIGHT and ROOK; from any other row no move promotes. */
  lemma PawnPromotionRule(g: Grid, pos: ChessPosition)
    requires InBoard(pos) && At(g, pos).Some? && At(g, pos).value.pieceType == PAWN
    requires PawnOffLastRank(g, pos)
    ensures PromotionPattern(pos, At(g, pos).value.pieceColor, Moves(g, pos))
  {
    var c := At(g, pos).value.pieceColor;
    var dir := PawnDirection(c);
    var fwd := PawnForward(g, pos, c);
    var left := PawnCaptureAt(g, pos, dir, PawnEndRow(c), -1);
    var right := PawnCaptureAt(g, pos, dir, PawnEndRow(c), 1);
    assert Moves(g, pos) == fwd + (left + right);
    PawnForwardPattern(g, pos, c);
    PawnCapturePattern(g, pos, c, -1);
    PawnCapturePattern(g, pos, c, 1);
    PromotionPatternAppend(pos, c, left, right);
    PromotionPatternAppend(pos, c, fwd, left + right);
  }

  /** Every pawn move is enterable. */
  lemma PawnEnterable(g: Grid, pos: ChessPosition)
    requires InBoard(pos) && At(g, pos).Some? && At(g, pos).value.pieceType == PAWN
    requires PawnOffLastRank(g, pos)
    ensures forall m :: m in Moves(g, pos) ==> Enterable(g, pos, m)
  {
    var c := At(g, pos).value.pieceColor;
    PawnMovesParts(g, pos, c);
    PawnForwardShape(g, pos, c);
    PawnCaptureShape(g, pos, c, -1);
    PawnCaptureShape(g, pos, c, 1);
  }

  /** Only a pawn's moves promote; a king, queen, rook, bishop or knight move never does. */
  lemma OthersNeverPromote(g: Grid, pos: ChessPosition)
    requires InBoard(pos) && At(g, pos).Some? && At(g, pos).value.pieceType != PAWN
    ensures forall m :: m in Moves(g, pos) ==> Enterable(g, pos, m) && m.promotionPiece == None
  {
    var x, y := pos.row, pos.column;
    assert ChessPosition(x, y) == pos;
    match At(g, pos).value.pieceType
    case KING =>
      StepMovesSound(g, pos, KingOffsets);
    case KNIGHT =>
      StepMovesSound(g, pos, KnightOffsets);
    case QUEEN =>
      SlidingEnterable(g, x, y, QueenDirections);
    case BISHOP =>
      SlidingEnterable(g, x, y, BishopDirections);
    case ROOK =>
      SlidingEnterable(g, x, y, RookDirections);
  }

  /** What every generated move satisfies, whatever the piece: it starts on `pos`, ends on
      another square of the board that is empty or held by the other colour; it promotes
      only for a pawn on its promotion row, always to a square of the last rank and to one
      of the four choices; an unpromoted pawn move never ends on the last rank; and either
      all moves of the piece promote or none does. */
  lemma MovesRule(g: Grid, pos: ChessPosition)
    requires InBoard(pos) && At(g, pos).Some? && PawnOffLastRank(g, pos)
    ensures forall m :: m in Moves(g, pos) ==> Enterable(g, pos, m)
    ensures var piece := At(g, pos).value;
      forall m :: m in Moves(g, pos) && m.promotionPiece.Some? ==>
        && piece.pieceType == PAWN && pos.row == PawnEndRow(piece.pieceColor)
        && m.endPosition.row == LastRank(piece.pieceColor)
        && m.promotionPiece.value in PromotionOptions
    ensures var piece := At(g, pos).value;
      forall m :: m in Moves(g, pos) && m.promotionPiece == None && piece.pieceType == PAWN ==>
        m.endPosition.row != LastRank(piece.pieceColor)
    ensures (forall m :: m in Moves(g, pos) ==> m.promotionPiece.Some?) ||
      (forall m :: m in Moves(g, pos) ==> m.promotionPiece == None)
  {
    if At(g, pos).value.pieceType == PAWN {
      PawnEnterable(g, pos);
      PawnPromotionRule(g, pos);
    } else {
      OthersNeverPromote(g, pos);
    }
  }

  /** In the starting position every pawn has exactly its single and its double step, in
      that order, neither promoting. */
  lemma StartingPawnMoves(c: TeamColor, column: int)
    requires 1 <= column <= 8
    ensures var from := ChessPosition(PawnStartRow(c), column);
      Moves(StartingGrid(), from) ==
        [ChessMove(from, ChessPosition(PawnStartRow(c) + PawnDirection(c), column), None),
         ChessMove(from, ChessPosition(PawnStartRow(c) + 2 * PawnDirection(c), column), None)]
  {
    var g := StartingGrid();
    var dir := PawnDirection(c);
    var from := ChessPosition(PawnStartRow(c), column);
    var one := ChessPosition(PawnStartRow(c) + dir, column);
    var two := ChessPosition(PawnStartRow(c) + 2 * dir, column);
    assert At(g, from) == Some(ChessPiece(c, PAWN));
    assert At(g, one) == None && At(g, two) == None;
    assert PawnForward(g, from, c) == [ChessMove(from, one, None), ChessMove(from, two, None)];
    assert PawnCaptureAt(g, from, dir, PawnEndRow(c), -1) == [] by {
      if column > 1 {
        assert At(g, ChessPosition(PawnStartRow(c) + dir, column - 1)) == None;
      }
    }
    assert PawnCaptureAt(g, from, dir, PawnEndRow(c), 1) == [] by {
      if column < 8 {
        assert At(g, ChessPosition(PawnStartRow(c) + dir, column + 1)) == None;
      }
    }
    PawnMovesSplit(g, from, c);
  }

  // ---------------------------------------------------------------------------------
  // The list-building code of the source, proved equal to the rules above
  // ---------------------------------------------------------------------------------

  /** `getSlidingMoves`: for each direction, walk from the next square while in bounds,
      taking empty squares, taking and stopping at the other colour, stopping at one's own. */
  method GetSlidingMoves(x: int, y: int, directions: seq<(int, int)>, board: ChessBoard)
    returns (possibleMoves: seq<ChessMove>)
    requires board.Valid() && InBounds(x, y) && At(board.grid, ChessPosition(x, y)).Some?
    requires UnitDirections(directions)
    ensures possibleMoves == SlidingMoves(board.grid, x, y, directions)
  {
    possibleMoves := [];
    for k := 0 to |directions|
      invariant possibleMoves == SlidingMoves(board.grid, x, y, directions[..k])
    {
      possibleMoves := WalkRay(x, y, directions[k].0, directions[k].1, board, possibleMoves);
      SlidingPrefix(board.grid, x, y, directions, k);
    }
    assert directions[..|directions|] == directions;
  }

  /** The inner `while` loop of `getSlidingMoves`: walks from the square next to (x, y) in
      direction (dx, dy), appending the moves of that ray to `possibleMoves`. */
  method WalkRay(x: int, y: int, dx: int, dy: int, board: ChessBoard, possibleMoves: seq<ChessMove>)
    returns (moves: seq<ChessMove>)
    requires board.Valid() && InBounds(x, y) && At(board.grid, ChessPosition(x, y)).Some?
    requires -1 <= dx <= 1 && -1 <= dy <= 1 && (dx, dy) != (0, 0)
    ensures moves == possibleMoves + Ray(board.grid, x, y, dx, dy, x + dx, y + dy)
  {
    moves := possibleMoves;
    var nx := x + dx;
    var ny := y + dy;
    ghost var ray := Ray(board.grid, x, y, dx, dy, nx, ny);
    while InBounds(nx, ny)
      invariant possibleMoves + ray == moves + Ray(board.grid, x, y, dx, dy, nx, ny)
      decreases RayBudget(nx, dx) + RayBudget(ny, dy)
    {
      if board.GetPiece(ChessPosition(nx, ny)) == None {
        moves := moves + [ChessMove(ChessPosition(x, y), ChessPosition(nx, ny), None)];
      } else if board.GetPiece(ChessPosition(x, y)).value.pieceColor != board.GetPiece(ChessPosition(nx, ny)).value.pieceColor {
        moves := moves + [ChessMove(ChessPosition(x, y), ChessPosition(nx, ny), None)];
        assert moves == possibleMoves + ray;
        return;
      } else {
        assert moves == possibleMoves + ray;
        return;
      }
      nx := nx + dx;
      ny := ny + dy;
    }
  }

  method BishopRules(board: ChessBoard, myPosition: ChessPosition) returns (moves: seq<ChessMove>)
    requires board.Valid() && InBoard(myPosition) && At(board.grid, myPosition).Some?
    ensures moves == SlidingMoves(board.grid, myPosition.row, myPosition.column, BishopDirections)
  {
    var direction := [(1, 1), (-1, 1), (1, -1), (-1, -1)];
    moves := GetSlidingMoves(myPosition.row, myPosition.column, direction, board);
  }

  method RookRules(board: ChessBoard, myPosition: ChessPosition) returns (moves: seq<ChessMove>)
    requires board.Valid() && InBoard(myPosition) && At(board.grid, myPosition).Some?
    ensures moves == SlidingMoves(board.grid, myPosition.row, myPosition.column, RookDirections)
  {
    var direction := [(1, 0), (-1, 0), (0, 1), (0, -1)];
    moves := GetSlidingMoves(myPosition.row, myPosition.column, direction, board);
  }

  method QueenRules(board: ChessBoard, myPosition: ChessPosition) returns (moves: seq<ChessMove>)
    requires board.Valid() && InBoard(myPosition) && At(board.grid, myPosition).Some?
    ensures moves == SlidingMoves(board.grid, myPosition.row, myPosition.column, QueenDirections)
  {
    var direction := [(1, 0), (-1, 0), (0, 1), (0, -1), (1, 1), (-1, 1), (1, -1), (-1, -1)];
    moves := GetSlidingMoves(myPosition.row, myPosition.column, direction, board);
  }

  method KingRules(board: ChessBoard, myPosition: ChessPosition) returns (moves: seq<ChessMove>)
    requires board.Valid() && InBoard(myPosition) && At(board.grid, myPosition).Some?
    ensures moves == StepMoves(board.grid, myPosition, KingOffsets)
  {
    var directions := [(1, 0), (-1, 0), (0, 1), (0, -1), (1, 1), (1, -1), (-1, 1), (-1, -1)];
    moves := GetChessMoves(board, myPosition, [], directions);
  }

  method KnightRules(board: ChessBoard, myPosition: ChessPosition) returns (moves: seq<ChessMove>)
    requires board.Valid() && InBoard(myPosition) && At(board.grid, myPosition).Some?
    ensures moves == StepMoves(board.grid, myPosition, KnightOffsets)
  {
    var offsets := [(2, 1), (1, 2), (-1, 2), (-2, 1), (-2, -1), (-1, -2), (1, -2), (2, -1)];
    moves := GetChessMoves(board, myPosition, [], offsets);
  }

  /** `getChessMoves`: appends to `possibleMoves` the move to each in-bounds offset square
      that is empty or held by the other colour. */
  method GetChessMoves(board: ChessBoard, myPosition: ChessPosition, possibleMoves: seq<ChessMove>,
                       offsets: seq<(int, int)>) returns (moves: seq<ChessMove>)
    requires board.Valid() && InBoard(myPosition) && At(board.grid, myPosition).Some?
    ensures moves == possibleMoves + StepMoves(board.grid, myPosition, offsets)
  {
    moves := possibleMoves;
    for k := 0 to |offsets|
      invariant moves == possibleMoves + StepMoves(board.grid, myPosition, offsets[..k])
    {
      var nx := myPosition.row + offsets[k].0;
      var ny := myPosition.column + offsets[k].1;
      assert offsets[..k + 1][..k] == offsets[..k];
      if InBounds(nx, ny) && (board.GetPiece(ChessPosition(nx, ny)) != None ==>
          board.GetPiece(myPosition).value.pieceColor != board.GetPiece(ChessPosition(nx, ny)).value.pieceColor) {
        moves := moves + [ChessMove(myPosition, ChessPosition(nx, ny), None)];
      }
    }
    assert offsets[..|offsets|] == offsets;
  }

  /** `pawnPromotion`: the move one row forward onto column `y`, promoting to `pieceType`. */
  function PawnPromotion(myPosition: ChessPosition, direction: int, pieceType: PieceType, y: int): (m: ChessMove)
    ensures m.startPosition == myPosition && m.promotionPiece == Some(pieceType)
    ensures m.endPosition == ChessPosition(myPosition.row + direction, y)
  {
    ChessMove(myPosition, ChessPosition(myPosition.row + direction, y), Some(pieceType))
  }

  /** `pawnCapture`: appends the captures on both forward diagonals to `possibleMoves`. */
  method PawnCapture(board: ChessBoard, myPosition: ChessPosition, direction: int, endRow: int,
                     possibleMoves: seq<ChessMove>) returns (moves: seq<ChessMove>)
    requires board.Valid() && InBoard(myPosition) && At(board.grid, myPosition).Some?
    ensures moves == possibleMoves + PawnCaptures(board.grid, myPosition, direction, endRow)
  {
    moves := possibleMoves;
    var dy := -1;
    while dy <= 1
      invariant dy == -1 || dy == 1 || dy == 3
      invariant moves == possibleMoves +
        (if dy == -1 then [] else PawnCaptureAt(board.grid, myPosition, direction, endRow, -1)) +
        (if dy == 3 then PawnCaptureAt(board.grid, myPosition, direction, endRow, 1) else [])
    {
      ghost var before := moves;
      var nx := myPosition.row + direction;
      var ny := myPosition.column + dy;
      if InBounds(nx, ny) && board.GetPiece(ChessPosition(nx, ny)) != None &&
         board.GetPiece(myPosition).value.pieceColor != board.GetPiece(ChessPosition(nx, ny)).value.pieceColor {
        if myPosition.row == endRow {
          var promotionOptions := [QUEEN, BISHOP, KNIGHT, ROOK];
          for k := 0 to 4
            invariant moves == before + Promotions(myPosition, ChessPosition(nx, ny))[..k]
          {
            moves := moves + [PawnPromotion(ChessPosition(myPosition.row, myPosition.column), direction, promotionOptions[k], ny)];
          }
        } else {
          moves := moves + [ChessMove(myPosition, ChessPosition(nx, ny), None)];
        }
      }
      assert moves == before + PawnCaptureAt(board.grid, myPosition, direction, endRow, dy);
      dy := dy + 2;
    }
  }

  /** `pawnRules`: the forward steps, then `pawnCapture`. */
  method PawnRules(board: ChessBoard, myPosition: ChessPosition, piece: ChessPiece) returns (possibleMoves: seq<ChessMove>)
    requires board.Valid() && InBoard(myPosition) && At(board.grid, myPosition) == Some(piece)
    requires myPosition.row != LastRank(piece.pieceColor)
    ensures possibleMoves == PawnMoves(board.grid, myPosition, piece)
  {
    possibleMoves := [];
    var direction := if piece.pieceColor == BLACK then -1 else 1;
    var startRow := if piece.pieceColor == BLACK then 7 else 2;
    var endRow := if piece.pieceColor == WHITE then 7 else 2;
    var ahead := ChessPosition(myPosition.row + direction, myPosition.column);
    if board.GetPiece(ahead) == None {
      if myPosition.row == endRow {
        var promotionOptions := [QUEEN, BISHOP, KNIGHT, ROOK];
        for k := 0 to 4
          invariant possibleMoves == Promotions(myPosition, ahead)[..k]
        {
          possibleMoves := possibleMoves + [PawnPromotion(myPosition, direction, promotionOptions[k], myPosition.column)];
        }
      } else {
        possibleMoves := possibleMoves + [ChessMove(myPosition, ahead, None)];
        if myPosition.row == startRow && board.GetPiece(ChessPosition(myPosition.row + 2 * direction, myPosition.column)) == None {
          possibleMoves := possibleMoves + [ChessMove(myPosition, ChessPosition(myPosition.row + 2 * direction, myPosition.column), None)];
        }
      }
    }
    assert possibleMoves == PawnForward(board.grid, myPosition, piece.pieceColor);
    possibleMoves := PawnCapture(board, myPosition, direction, endRow, possibleMoves);
  }

  /** `pieceMoves`: the moves of the piece standing on `myPosition`, by its kind. */
  method PieceMoves(board: ChessBoard, myPosition: ChessPosition) returns (moves: seq<ChessMove>)
    requires board.Valid() && InBoard(myPosition) && At(board.grid, myPosition).Some?
    requires PawnOffLastRank(board.grid, myPosition)
    ensures moves == Moves(board.grid, myPosition)
  {
    var piece := board.GetPiece(myPosition).value;
    match piece.pieceType
    case KING => moves := KingRules(board, myPosition);
    case QUEEN => moves := QueenRules(board, myPosition);
    case BISHOP => moves := BishopRules(board, myPosition);
    case ROOK => moves := RookRules(board, myPosition);
    case KNIGHT => moves := KnightRules(board, myPosition);
    case PAWN => moves := PawnRules(board, myPosition, piece);
  }
}
