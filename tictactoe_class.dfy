/**
 * The N x N tic-tac-toe of TicTacTOe/Tic_tac_toe_class_based.py, modelled as
 * written: its row test only looks at the first cell of each row, and its draw
 * test fires as soon as any one row is full.
 */
module TicTacToeBoard {
  import opened Wrappers

  /** `PlayerType`: EMPTY is the blank cell; X, O, A and B are marks. */
  datatype Mark = Empty | X | O | A | B

  class PlaneBoard {
    const size: nat
    const board: array2<Mark>

    ghost predicate Valid() { board.Length0 == size && board.Length1 == size }

    /** A size x size board with every cell EMPTY. */
    constructor (sizeLength: nat)
      ensures Valid() && size == sizeLength && fresh(board)
      ensures forall i, j :: 0 <= i < size && 0 <= j < size ==> board[i, j] == Empty
    {
      size := sizeLength;
      board := new Mark[sizeLength, sizeLength]((i, j) => Empty);
    }

    /** Writes `player` at (x, y) and answers true exactly when that cell was EMPTY. */
    method MakeMove(x: int, y: int, player: Mark) returns (ok: bool)
      requires Valid() && 0 <= x < size && 0 <= y < size
      modifies board
      ensures ok == (old(board[x, y]) == Empty)
      ensures board[x, y] == if ok then player else old(board[x, y])
      ensures forall i, j :: 0 <= i < size && 0 <= j < size && (i, j) != (x, y) ==> board[i, j] == old(board[i, j])
    {
      if board[x, y] == Empty {
        board[x, y] := player;
        return true;
      }
      return false;
    }

    /** Number of EMPTY cells among the first n cells of row i (`row.count(EMPTY)`). */
    function EmptyInRow(i: nat, n: nat): nat
      reads board
      requires Valid() && i < size && n <= size
    {
      if n == 0 then 0 else EmptyInRow(i, n - 1) + (if board[i, n - 1] == Empty then 1 else 0)
    }

    predicate RowFull(i: nat)
      reads board
      requires Valid() && i < size
    {
      forall j :: 0 <= j < size ==> board[i, j] != Empty
    }

    /** A row has no EMPTY cell exactly when its count of EMPTY cells is zero. */
    lemma {:induction false} EmptyCountZero(i: nat, n: nat)
      requires Valid() && i < size && n <= size
      ensures EmptyInRow(i, n) == 0 <==> forall j :: 0 <= j < n ==> board[i, j] != Empty
    {
      if n > 0 {
        EmptyCountZero(i, n - 1);
      }
    }

    /** `is_draw` as written: true as soon as one row holds no EMPTY cell. */
    method IsDraw() returns (d: bool)
      requires Valid()
      ensures d <==> exists i :: 0 <= i < size && RowFull(i)
    {
      for i := 0 to size
        invariant forall r :: 0 <= r < i ==> !RowFull(r)
      {
        EmptyCountZero(i, size);
        if EmptyInRow(i, size) == 0 {
          assert RowFull(i);
          return true;
        }
      }
      return false;
    }

    /** The first row at or after i whose first cell is not EMPTY. */
    function FirstMarkedRow(i: nat): (r: Option<nat>)
      reads board
      requires Valid() && i <= size
      ensures r.Some? ==> (i <= r.value < size && board[r.value, 0] != Empty &&
        forall k :: i <= k < r.value ==> board[k, 0] == Empty)
      ensures r.None? ==> forall k :: i <= k < size ==> board[k, 0] == Empty
      decreases size - i
    {
      if i == size then None
      else if board[i, 0] != Empty then Some(i)
      else FirstMarkedRow(i + 1)
    }

    predicate ColumnWon(j: nat)
      reads board
      requires Valid() && j < size
    {
      board[0, j] != Empty && forall i :: 0 <= i < size ==> board[i, j] == board[0, j]
    }

    /** The first column at or after j whose top cell is not EMPTY and fills the whole column. */
    function FirstWonColumn(j: nat): (c: Option<nat>)
      reads board
      requires Valid() && j <= size
      ensures c.Some? ==> (j <= c.value < size && ColumnWon(c.value) &&
        forall k :: j <= k < c.value ==> !ColumnWon(k))
      ensures c.None? ==> forall k :: j <= k < size ==> !ColumnWon(k)
      decreases size - j
    {
      if j == size then None
      else if ColumnWon(j) then Some(j)
      else FirstWonColumn(j + 1)
    }

    predicate DiagonalWon()
      reads board
      requires Valid() && size >= 1
    {
      board[0, 0] != Empty && forall i :: 0 <= i < size ==> board[i, i] == board[0, 0]
    }

    /** Cell i of the anti-diagonal that starts at `board[size - 1][0]`. */
    function AntiCell(i: nat): Mark
      reads board
      requires Valid() && i < size
    {
      board[size - 1 - i, i]
    }

    predicate AntiDiagonalWon()
      reads board
      requires Valid() && size >= 1
    {
      board[size - 1, 0] != Empty && forall i :: 0 <= i < size ==> AntiCell(i) == board[size - 1, 0]
    }

    /** What `check_winner` returns: rows first (first cell only), then columns, then the two diagonals. */
    function Winner(): Option<Mark>
      reads board
      requires Valid() && size >= 1
    {
      match FirstMarkedRow(0)
      case Some(r) => Some(board[r, 0])
      case None =>
        match FirstWonColumn(0)
        case Some(c) => Some(board[0, c])
        case None =>
          if DiagonalWon() then Some(board[0, 0])
          else if AntiDiagonalWon() then Some(board[size - 1, 0])
          else None
    }

    /**
     * `check_winner`. The row loop compares `board[i][0]` with itself, so a row
     * "wins" as soon as its first cell is not EMPTY.
     */
    method CheckWinner() returns (w: Option<Mark>)
      requires Valid() && size >= 1
      ensures w == Winner()
    {
      // row iteration
      for i := 0 to size
        invariant FirstMarkedRow(0) == FirstMarkedRow(i)
      {
        var tempPlayer := board[i, 0];
        var winnerFound := true;
        for j := 0 to size
          invariant winnerFound && (j > 0 ==> board[i, 0] != Empty)
        {
          if tempPlayer != board[i, 0] || board[i, 0] == Empty {
            winnerFound := false;
            break;
          }
        }
        if winnerFound {
          return Some(tempPlayer);
        }
      }
      // column iteration
      for j := 0 to size
        invariant FirstWonColumn(0) == FirstWonColumn(j)
      {
        var tempPlayer := board[0, j];
        if tempPlayer != Empty && forall i | 0 <= i < size :: board[i, j] == tempPlayer {
          return Some(tempPlayer);
        }
      }
      // diagonal iteration
      w := CheckDiagonals();
    }

    /** The two diagonal tests that end `check_winner`. */
    method CheckDiagonals() returns (w: Option<Mark>)
      requires Valid() && size >= 1
      ensures w.Some? ==> DiagonalWon() || AntiDiagonalWon()
      ensures w == Some(board[0, 0]) <== DiagonalWon()
      ensures w == Some(board[size - 1, 0]) <== !DiagonalWon() && AntiDiagonalWon()
      ensures w == None <== !DiagonalWon() && !AntiDiagonalWon()
    {
      var tempPlayer := board[0, 0];
      if tempPlayer != Empty && forall i | 0 <= i < size :: board[i, i] == tempPlayer {
        return Some(tempPlayer);
      }
      tempPlayer := board[size - 1, 0];
      if tempPlayer != Empty && forall i | 0 <= i < size :: AntiCell(i) == tempPlayer {
        return Some(tempPlayer);
      }
      return None;
    }

    /** The reported winner is never EMPTY. */
    lemma WinnerNotEmpty()
      requires Valid() && size >= 1
      ensures Winner().Some? ==> Winner().value != Empty
    {
    }

    /**
     * The row quirk: any non-EMPTY first cell of a row makes a winner, whatever
     * the rest of that row holds; the first such row decides.
     */
    lemma {:induction false} MarkedRowWins(r: nat)
      requires Valid() && r < size && board[r, 0] != Empty
      ensures Winner().Some?
      ensures exists k :: 0 <= k <= r && Winner() == Some(board[k, 0])
    {
      var first := FirstMarkedRow(0);
      assert first.Some?;
      assert first.value <= r;
    }

    /**
     * The diagonal tests never decide: a non-EMPTY `board[0][0]` or
     * `board[size - 1][0]` is already returned by the row scan.
     */
    lemma DiagonalsNeverDecide()
      requires Valid() && size >= 1
      ensures Winner() == match FirstMarkedRow(0)
        case Some(r) => Some(board[r, 0])
        case None => match FirstWonColumn(0)
          case Some(c) => Some(board[0, c])
          case None => None
    {
      if FirstMarkedRow(0).None? {
        assert board[0, 0] == Empty && board[size - 1, 0] == Empty;
      }
    }

    /** There is no winner exactly when no row starts with a mark and no column or diagonal is won. */
    lemma NoWinnerIff()
      requires Valid() && size >= 1
      ensures Winner() == None <==>
        (forall i :: 0 <= i < size ==> board[i, 0] == Empty) &&
        (forall j :: 0 <= j < size ==> !ColumnWon(j)) &&
        !DiagonalWon() && !AntiDiagonalWon()
    {
    }
  }

  datatype TurnResult = Retry | Won(winner: Mark) | Drawn | Next

  /** The game: a board, the list of players, and the index of the player to move. */
  class TicTacToe {
    const board: PlaneBoard
    const players: seq<Mark>
    var currentPlayer: nat

    constructor (sizeLength: nat, players: seq<Mark>)
      ensures board.Valid() && board.size == sizeLength && fresh(board) && fresh(board.board)
      ensures this.players == players && currentPlayer == 0
    {
      board := new PlaneBoard(sizeLength);
      this.players := players;
      currentPlayer := 0;
    }

    /**
     * One pass of the loop of `start_game`: an out-of-range cell or a taken
     * cell leaves everything as it was; otherwise the mark is written, a win is
     * tested before a draw, and only then does the turn advance modulo the
     * number of players.
     */
    method PlayTurn(row: int, col: int) returns (res: TurnResult)
      requires board.Valid() && currentPlayer < |players|
      modifies this, board.board
      ensures currentPlayer < |players|
      ensures !(0 <= row < board.size && 0 <= col < board.size) ==>
        res == Retry && currentPlayer == old(currentPlayer) &&
        forall i, j :: 0 <= i < board.size && 0 <= j < board.size ==> board.board[i, j] == old(board.board[i, j])
      ensures 0 <= row < board.size && 0 <= col < board.size ==>
        board.board[row, col] == (if old(board.board[row, col]) == Empty then players[old(currentPlayer)] else old(board.board[row, col])) &&
        (forall i, j :: 0 <= i < board.size && 0 <= j < board.size && (i, j) != (row, col) ==> board.board[i, j] == old(board.board[i, j])) &&
        res == (if old(board.board[row, col]) != Empty then Retry
                else if board.Winner().Some? then Won(board.Winner().value)
                else if exists i :: 0 <= i < board.size && board.RowFull(i) then Drawn
                else Next)
      ensures currentPlayer == if res == Next then (old(currentPlayer) + 1) % |players| else old(currentPlayer)
    {
      var current := players[currentPlayer];
      if !(0 <= row < board.size && 0 <= col < board.size) {
        return Retry;
      }
      var moved := board.MakeMove(row, col, current);
      if !moved {
        return Retry;
      }
      var winner := board.CheckWinner();
      if winner.Some? {
        return Won(winner.value);
      }
      var draw := board.IsDraw();
      if draw {
        return Drawn;
      }
      currentPlayer := (currentPlayer + 1) % |players|;
      return Next;
    }
  }
}
