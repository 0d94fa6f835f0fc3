/**
 * The chess move rules and board of Chess/chess.py.
 *
 * The board is an 8x8 grid indexed `grid[y, x]`, exactly as the source indexes
 * `board[y][x]`. White's back rank is y = 0 and its pawns stand on y = 1;
 * Black's back rank is y = 7 and its pawns stand on y = 6. The code has no
 * check, checkmate, stalemate, castling, en passant or promotion, and it does
 * not check whose turn it is; neither does this model.
 */
module Chess {
  import opened Wrappers

  datatype Color = White | Black
  datatype Kind = King | Queen | Rook | Bishop | Knight | Pawn
  datatype Piece = Piece(kind: Kind, color: Color)

  /** A cell holds a piece or is empty (`Cell.piece is None`). */
  type Cell = Option<Piece>

  predicate OnBoard(x: int, y: int) { 0 <= x < 8 && 0 <= y < 8 }

  predicate IsBoard(g: array2<Cell>) { g.Length0 == 8 && g.Length1 == 8 }

  function Opposite(c: Color): Color { if c == White then Black else White }

  function Abs(n: int): nat { if n < 0 then -n else n }

  function Max(a: int, b: int): int { if a < b then b else a }

  // ---------------------------------------------------------------------
  // Sliding paths
  // ---------------------------------------------------------------------

  /** Squares of the same rank, file or diagonal. */
  predicate Colinear(sx: int, sy: int, ex: int, ey: int)
  {
    sx == ex || sy == ey || Abs(ex - sx) == Abs(ey - sy)
  }

  /** Number of unit steps from start to end along a colinear path. */
  function Span(sx: int, sy: int, ex: int, ey: int): nat
  {
    Max(Abs(ex - sx), Abs(ey - sy))
  }

  /** The coordinate reached after k unit steps from s toward e. */
  function StepToward(s: int, e: int, k: int): int
  {
    if s < e then s + k else if e < s then s - k else s
  }

  /** Every square strictly between start and end is empty; the endpoints are not examined. */
  predicate PathClear(g: array2<Cell>, sx: int, sy: int, ex: int, ey: int)
    reads g
    requires IsBoard(g) && OnBoard(sx, sy) && OnBoard(ex, ey) && Colinear(sx, sy, ex, ey)
  {
    forall k :: 0 < k < Span(sx, sy, ex, ey) ==>
      g[StepToward(sy, ey, k), StepToward(sx, ex, k)] == None
  }

  /**
   * `Piece.is_path_clear`: walk from start toward end one unit step at a time
   * and fail at the first occupied square before the end.
   */
  method IsPathClear(g: array2<Cell>, sx: int, sy: int, ex: int, ey: int) returns (clear: bool)
    requires IsBoard(g) && OnBoard(sx, sy) && OnBoard(ex, ey) && Colinear(sx, sy, ex, ey)
    ensures clear == PathClear(g, sx, sy, ex, ey)
  {
    var dx, dy := ex - sx, ey - sy;
    var stepX := if dx > 0 then 1 else if dx < 0 then -1 else 0;
    var stepY := if dy > 0 then 1 else if dy < 0 then -1 else 0;
    ghost var n := Span(sx, sy, ex, ey);
    ghost var k := 1;
    var x, y := sx + stepX, sy + stepY;
    while x != ex || y != ey
      invariant 1 <= k && (n == 0 || k <= n)
      invariant x == StepToward(sx, ex, k) && y == StepToward(sy, ey, k)
      invariant (x == ex && y == ey) <==> (n == 0 || k == n)
      invariant forall j :: 0 < j < k && j < n ==> g[StepToward(sy, ey, j), StepToward(sx, ex, j)] == None
      decreases n - k
    {
      if g[y, x] != None {
        return false;
      }
      x, y := x + stepX, y + stepY;
      k := k + 1;
    }
    return true;
  }

  // ---------------------------------------------------------------------
  // Per-piece geometry (`can_move` of each Piece subclass)
  // ---------------------------------------------------------------------

  /** The colour-dependent forward direction of a pawn. */
  function Forward(c: Color): int { if c == White then 1 else -1 }

  /** The row a pawn of colour c starts on. */
  function PawnRow(c: Color): int { if c == White then 1 else 6 }

  /** The back rank of colour c. */
  function BackRow(c: Color): int { if c == White then 0 else 7 }

  predicate PawnCanMove(c: Color, sx: int, sy: int, ex: int, ey: int, g: array2<Cell>)
    reads g
    requires IsBoard(g) && OnBoard(ex, ey)
  {
    var dx := Abs(sx - ex);
    var dy := if c == White then ey - sy else sy - ey;
    var target := g[ey, ex];
    if dx == 0 && target == None then
      dy == 1 || (dy == 2 && ((sy == 1 && c == White) || (sy == 6 && c == Black)))
    else
      dx == 1 && dy == 1 && target.Some? && target.value.color != c
  }

  /** `can_move` of the piece p, dispatched on its kind. */
  predicate CanMove(p: Piece, sx: int, sy: int, ex: int, ey: int, g: array2<Cell>)
    reads g
    requires IsBoard(g) && OnBoard(sx, sy) && OnBoard(ex, ey)
  {
    var dx, dy := Abs(sx - ex), Abs(sy - ey);
    match p.kind
    case King => Max(dx, dy) == 1
    case Queen => (dx == dy || dx == 0 || dy == 0) && PathClear(g, sx, sy, ex, ey)
    case Rook => (dx == 0 || dy == 0) && PathClear(g, sx, sy, ex, ey)
    case Bishop => dx == dy && PathClear(g, sx, sy, ex, ey)
    case Knight => (dx == 1 && dy == 2) || (dx == 2 && dy == 1)
    case Pawn => PawnCanMove(p.color, sx, sy, ex, ey, g)
  }

  /** Runs the `can_move` of p; the sliding pieces call the path scan. */
  method PieceCanMove(p: Piece, sx: int, sy: int, ex: int, ey: int, g: array2<Cell>) returns (ok: bool)
    requires IsBoard(g) && OnBoard(sx, sy) && OnBoard(ex, ey)
    ensures ok == CanMove(p, sx, sy, ex, ey, g)
  {
    var dx, dy := Abs(sx - ex), Abs(sy - ey);
    match p.kind
    case King =>
      ok := Max(dx, dy) == 1;
    case Queen =>
      ok := false;
      if dx == dy || dx == 0 || dy == 0 {
        ok := IsPathClear(g, sx, sy, ex, ey);
      }
    case Rook =>
      ok := false;
      if dx == 0 || dy == 0 {
        ok := IsPathClear(g, sx, sy, ex, ey);
      }
    case Bishop =>
      ok := false;
      if dx == dy {
        ok := IsPathClear(g, sx, sy, ex, ey);
      }
    case Knight =>
      ok := (dx == 1 && dy == 2) || (dx == 2 && dy == 1);
    case Pawn =>
      ok := PawnCanMove(p.color, sx, sy, ex, ey, g);
  }

  /** The eight squares around (x, y), as offsets. */
  const KingOffsets: set<(int, int)> :=
    {(-1, -1), (-1, 0), (-1, 1), (0, -1), (0, 1), (1, -1), (1, 0), (1, 1)}

  /** The eight knight jumps, as offsets. */
  const KnightOffsets: set<(int, int)> :=
    {(1, 2), (2, 1), (-1, 2), (-2, 1), (1, -2), (2, -1), (-1, -2), (-2, -1)}

  /** A king moves to exactly the eight neighbouring squares, whatever the board holds. */
  lemma KingMovesToNeighbours(c: Color, sx: int, sy: int, ex: int, ey: int, g: array2<Cell>)
    requires IsBoard(g) && OnBoard(sx, sy) && OnBoard(ex, ey)
    ensures CanMove(Piece(King, c), sx, sy, ex, ey, g) <==> (ex - sx, ey - sy) in KingOffsets
  {
  }

  /** A knight moves to exactly the eight (1, 2) / (2, 1) jumps, whatever the board holds. */
  lemma KnightMovesToJumps(c: Color, sx: int, sy: int, ex: int, ey: int, g: array2<Cell>)
    requires IsBoard(g) && OnBoard(sx, sy) && OnBoard(ex, ey)
    ensures CanMove(Piece(Knight, c), sx, sy, ex, ey, g) <==> (ex - sx, ey - sy) in KnightOffsets
  {
  }

  /** A queen moves exactly where a rook or a bishop of its colour could. */
  lemma QueenIsRookOrBishop(c: Color, sx: int, sy: int, ex: int, ey: int, g: array2<Cell>)
    requires IsBoard(g) && OnBoard(sx, sy) && OnBoard(ex, ey)
    ensures CanMove(Piece(Queen, c), sx, sy, ex, ey, g) <==>
      CanMove(Piece(Rook, c), sx, sy, ex, ey, g) || CanMove(Piece(Bishop, c), sx, sy, ex, ey, g)
  {
  }

  predicate IsSlider(k: Kind) { k == Queen || k == Rook || k == Bishop }

  /** An occupied square strictly between start and end blocks every sliding piece. */
  lemma SliderBlocked(p: Piece, sx: int, sy: int, ex: int, ey: int, g: array2<Cell>, k: int)
    requires IsBoard(g) && OnBoard(sx, sy) && OnBoard(ex, ey) && Colinear(sx, sy, ex, ey)
    requires IsSlider(p.kind) && 0 < k < Span(sx, sy, ex, ey)
    requires g[StepToward(sy, ey, k), StepToward(sx, ex, k)] != None
    ensures !CanMove(p, sx, sy, ex, ey, g)
  {
  }

  /** The geometry of every sliding piece accepts the null move (start = end). */
  lemma SliderAcceptsNullMove(p: Piece, x: int, y: int, g: array2<Cell>)
    requires IsBoard(g) && OnBoard(x, y) && IsSlider(p.kind)
    ensures CanMove(p, x, y, x, y, g)
  {
  }

  /**
   * Straight pawn moves: one square forward onto an empty square, or two from
   * the pawn's starting row; the square jumped over is not looked at.
   */
  lemma PawnStraight(c: Color, sx: int, sy: int, ey: int, g: array2<Cell>)
    requires IsBoard(g) && OnBoard(sx, sy) && OnBoard(sx, ey)
    ensures CanMove(Piece(Pawn, c), sx, sy, sx, ey, g) <==>
      g[ey, sx] == None &&
      (ey == sy + Forward(c) || (ey == sy + 2 * Forward(c) && sy == PawnRow(c)))
  {
  }

  /** Diagonal pawn moves: one square forward-diagonally, onto a piece of the other colour. */
  lemma PawnDiagonal(c: Color, sx: int, sy: int, ex: int, ey: int, g: array2<Cell>)
    requires IsBoard(g) && OnBoard(sx, sy) && OnBoard(ex, ey) && Abs(ex - sx) == 1
    ensures CanMove(Piece(Pawn, c), sx, sy, ex, ey, g) <==>
      ey == sy + Forward(c) && g[ey, ex].Some? && g[ey, ex].value.color == Opposite(c)
  {
  }

  /** A pawn never moves two or more files sideways. */
  lemma PawnStaysNearFile(c: Color, sx: int, sy: int, ex: int, ey: int, g: array2<Cell>)
    requires IsBoard(g) && OnBoard(sx, sy) && OnBoard(ex, ey) && Abs(ex - sx) >= 2
    ensures !CanMove(Piece(Pawn, c), sx, sy, ex, ey, g)
  {
  }

  // ---------------------------------------------------------------------
  // Moving a piece
  // ---------------------------------------------------------------------

  /** When `move_piece` succeeds: a piece at the start that can move, and no friendly piece at the end. */
  predicate MoveAllowed(g: array2<Cell>, sx: int, sy: int, ex: int, ey: int)
    reads g
    requires IsBoard(g) && OnBoard(sx, sy) && OnBoard(ex, ey)
  {
    g[sy, sx].Some? && CanMove(g[sy, sx].value, sx, sy, ex, ey, g) &&
    (g[ey, ex].None? || g[ey, ex].value.color != g[sy, sx].value.color)
  }

  /** A move never captures a piece of the mover's own colour. */
  lemma NoFriendlyCapture(g: array2<Cell>, sx: int, sy: int, ex: int, ey: int)
    requires IsBoard(g) && OnBoard(sx, sy) && OnBoard(ex, ey) && MoveAllowed(g, sx, sy, ex, ey)
    ensures g[sy, sx].Some?
    ensures g[ey, ex] == None || g[ey, ex].value.color == Opposite(g[sy, sx].value.color)
  {
  }

  /** The null move is always refused, though the sliding pieces' geometry accepts it. */
  lemma NullMoveRejected(g: array2<Cell>, x: int, y: int)
    requires IsBoard(g) && OnBoard(x, y)
    ensures !MoveAllowed(g, x, y, x, y)
  {
  }

  // ---------------------------------------------------------------------
  // The starting position
  // ---------------------------------------------------------------------

  /** Rook, Knight, Bishop, Queen, King, Bishop, Knight, Rook in columns 0-7. */
  function BackRankKind(x: int): Kind
    requires 0 <= x < 8
  {
    [Rook, Knight, Bishop, Queen, King, Bishop, Knight, Rook][x]
  }

  /** What `initialize_board` leaves in cell (x, y). */
  function InitialCell(x: int, y: int): Cell
    requires OnBoard(x, y)
  {
    if y == 0 then Some(Piece(BackRankKind(x), White))
    else if y == 1 then Some(Piece(Pawn, White))
    else if y == 6 then Some(Piece(Pawn, Black))
    else if y == 7 then Some(Piece(BackRankKind(x), Black))
    else None
  }

  /** The squares where the starting position has a king of colour c. */
  function InitialKingSquares(c: Color): set<(int, int)>
  {
    set x: int, y: int | 0 <= x < 8 && 0 <= y < 8 && InitialCell(x, y) == Some(Piece(King, c)) :: (x, y)
  }

  /** The starting position has exactly one king of each colour, on column 4 of its back rank. */
  lemma InitialKingsUnique(c: Color)
    ensures InitialKingSquares(c) == {(4, BackRow(c))}
    ensures |InitialKingSquares(c)| == 1
  {
    var s := InitialKingSquares(c);
    assert (4, BackRow(c)) in s by {
      assert InitialCell(4, BackRow(c)) == Some(Piece(King, c));
    }
    forall q | q in s ensures q == (4, BackRow(c)) {
      var x, y := q.0, q.1;
      assert InitialCell(x, y) == Some(Piece(King, c));
    }
  }

  /** In the starting position every piece of colour c is on c's two home rows. */
  lemma InitialPiecesAtHome(x: int, y: int)
    requires OnBoard(x, y)
    ensures InitialCell(x, y).Some? <==> y == BackRow(White) || y == PawnRow(White) || y == PawnRow(Black) || y == BackRow(Black)
    ensures InitialCell(x, y).Some? && InitialCell(x, y).value.color == White ==> y < 2
    ensures InitialCell(x, y).Some? && InitialCell(x, y).value.color == Black ==> y > 5
    ensures InitialCell(x, y).Some? ==> (InitialCell(x, y).value.kind == Pawn <==> y == PawnRow(InitialCell(x, y).value.color))
  {
  }

  /** Rows already written after i passes of the colour loop of `initialize_board`. */
  predicate Seeded(y: int, i: int)
  {
    (i >= 1 && (y == 0 || y == 1)) || (i >= 2 && (y == 6 || y == 7))
  }

  class Board {
    const grid: array2<Cell>

    ghost predicate Valid() { IsBoard(grid) }

    /** A fresh board holding the standard starting position. */
    constructor ()
      ensures Valid() && fresh(grid)
      ensures forall x, y :: OnBoard(x, y) ==> grid[y, x] == InitialCell(x, y)
    {
      grid := new Cell[8, 8]((y, x) => None);
      new;
      InitializeBoard();
    }

    /** `get_cell(x, y)` returns `board[y][x]`. */
    function GetCell(x: int, y: int): Cell
      reads grid
      requires Valid() && OnBoard(x, y)
    {
      grid[y, x]
    }

    /** Writes both colours' back ranks and pawn rows; the other rows are left as they were. */
    method InitializeBoard()
      requires Valid()
      modifies grid
      ensures forall x, y :: OnBoard(x, y) && (y < 2 || y > 5) ==> grid[y, x] == InitialCell(x, y)
      ensures forall x, y :: OnBoard(x, y) && 2 <= y <= 5 ==> grid[y, x] == old(grid[y, x])
    {
      for i := 0 to 2
        invariant forall x, y :: OnBoard(x, y) ==>
          grid[y, x] == if Seeded(y, i) then InitialCell(x, y) else old(grid[y, x])
      {
        var color, row, pawnRow := if i == 0 then White else Black, if i == 0 then 0 else 7, if i == 0 then 1 else 6;
        grid[row, 0] := Some(Piece(Rook, color));
        grid[row, 1] := Some(Piece(Knight, color));
        grid[row, 2] := Some(Piece(Bishop, color));
        grid[row, 3] := Some(Piece(Queen, color));
        grid[row, 4] := Some(Piece(King, color));
        grid[row, 5] := Some(Piece(Bishop, color));
        grid[row, 6] := Some(Piece(Knight, color));
        grid[row, 7] := Some(Piece(Rook, color));
        assert forall x :: 0 <= x < 8 ==> grid[row, x] == InitialCell(x, row);
        for col := 0 to 8
          invariant forall x, y :: OnBoard(x, y) ==>
            grid[y, x] == if Seeded(y, i) || y == row || (y == pawnRow && x < col) then InitialCell(x, y) else old(grid[y, x])
        {
          grid[pawnRow, col] := Some(Piece(Pawn, color));
        }
      }
    }

    /**
     * `move_piece`: moves (or captures with) the piece at the start when it
     * can move and the end holds no piece of its colour; otherwise nothing changes.
     */
    method MovePiece(sx: int, sy: int, ex: int, ey: int) returns (moved: bool)
      requires Valid() && OnBoard(sx, sy) && OnBoard(ex, ey)
      modifies grid
      ensures moved == old(MoveAllowed(grid, sx, sy, ex, ey))
      ensures moved ==> grid[ey, ex] == old(grid[sy, sx]) && grid[sy, sx] == None
      ensures moved ==> forall x, y :: OnBoard(x, y) && (x, y) != (sx, sy) && (x, y) != (ex, ey) ==>
        grid[y, x] == old(grid[y, x])
      ensures !moved ==> forall x, y :: OnBoard(x, y) ==> grid[y, x] == old(grid[y, x])
    {
      var start := GetCell(sx, sy);
      var target := GetCell(ex, ey);
      moved := false;
      if start.Some? {
        var ok := PieceCanMove(start.value, sx, sy, ex, ey, grid);
        if ok && (target.None? || target.value.color != start.value.color) {
          grid[ey, ex] := start;
          grid[sy, sx] := None;
          moved := true;
        }
      }
    }
  }

  /** One accepted input of `ChessGame.start_game`: move, then flip the turn if the move succeeded. */
  class ChessGame {
    const board: Board
    var currentTurn: Color

    constructor ()
      ensures board.Valid() && fresh(board) && fresh(board.grid) && currentTurn == White
      ensures forall x, y :: OnBoard(x, y) ==> board.grid[y, x] == InitialCell(x, y)
    {
      board := new Board();
      currentTurn := White;
    }

    method Play(sx: int, sy: int, ex: int, ey: int) returns (moved: bool)
      requires board.Valid() && OnBoard(sx, sy) && OnBoard(ex, ey)
      modifies this, board.grid
      ensures moved == old(MoveAllowed(board.grid, sx, sy, ex, ey))
      ensures currentTurn == if moved then Opposite(old(currentTurn)) else old(currentTurn)
      ensures moved ==> board.grid[ey, ex] == old(board.grid[sy, sx]) && board.grid[sy, sx] == None
      ensures moved ==> forall x, y :: OnBoard(x, y) && (x, y) != (sx, sy) && (x, y) != (ex, ey) ==>
        board.grid[y, x] == old(board.grid[y, x])
      ensures !moved ==> forall x, y :: OnBoard(x, y) ==> board.grid[y, x] == old(board.grid[y, x])
    {
      moved := board.MovePiece(sx, sy, ex, ey);
      if moved {
        currentTurn := if currentTurn == White then Black else White;
      }
    }
  }
}
