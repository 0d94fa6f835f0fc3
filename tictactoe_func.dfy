/**
 * The 3x3 tic-tac-toe of TicTacTOe/tic_tac_toe_using_func.py: the pure
 * winner and draw tests, and one pass of the game loop's body (read a cell,
 * write the mark, test for a win, then a draw, then switch player).
 */
module TicTacToeFunctional {
  import opened Wrappers

  const Blank: string := " "
  const Players: seq<string> := ["X", "O"]

  predicate Is3x3(b: array2<string>) { b.Length0 == 3 && b.Length1 == 3 }

  type Square = (int, int)

  /** The eight lines in the order `check_winner` tries them: row i, column i for i = 0..2, main diagonal, anti-diagonal. */
  const Lines: seq<seq<Square>> := [
    [(0, 0), (0, 1), (0, 2)], [(0, 0), (1, 0), (2, 0)],
    [(1, 0), (1, 1), (1, 2)], [(0, 1), (1, 1), (2, 1)],
    [(2, 0), (2, 1), (2, 2)], [(0, 2), (1, 2), (2, 2)],
    [(0, 0), (1, 1), (2, 2)], [(0, 2), (1, 1), (2, 0)]]

  predicate IsLine(l: seq<Square>)
  {
    |l| == 3 && forall i :: 0 <= i < 3 ==> 0 <= l[i].0 < 3 && 0 <= l[i].1 < 3
  }

  /** Three equal cells, none of them blank, along line l. */
  predicate LineWon(b: array2<string>, l: seq<Square>)
    reads b
    requires Is3x3(b) && IsLine(l)
  {
    b[l[0].0, l[0].1] == b[l[1].0, l[1].1] == b[l[2].0, l[2].1] && b[l[2].0, l[2].1] != Blank
  }

  /** Reference reading of `check_winner`: the first cell of the first won line in ls, if any. */
  function FirstWon(b: array2<string>, ls: seq<seq<Square>>): (r: Option<string>)
    reads b
    requires Is3x3(b) && forall i :: 0 <= i < |ls| ==> IsLine(ls[i])
    ensures r.Some? ==> (r.value != Blank &&
      exists k :: 0 <= k < |ls| && LineWon(b, ls[k]) && r.value == b[ls[k][0].0, ls[k][0].1] &&
        forall j :: 0 <= j < k ==> !LineWon(b, ls[j]))
    ensures r.None? <==> forall k :: 0 <= k < |ls| ==> !LineWon(b, ls[k])
  {
    if ls == [] then None
    else if LineWon(b, ls[0]) then Some(b[ls[0][0].0, ls[0][0].1])
    else
      var r := FirstWon(b, ls[1..]);
      assert forall k :: 1 <= k < |ls| ==> ls[k] == ls[1..][k - 1];
      r
  }

  /** Rows and columns from index i on, then the two diagonals, as `check_winner` scans them. */
  function ScanFrom(b: array2<string>, i: nat): Option<string>
    reads b
    requires Is3x3(b) && i <= 3
    decreases 3 - i
  {
    if i == 3 then
      if b[0, 0] == b[1, 1] == b[2, 2] && b[2, 2] != Blank then Some(b[0, 0])
      else if b[0, 2] == b[1, 1] == b[2, 0] && b[2, 0] != Blank then Some(b[0, 2])
      else None
    else if b[i, 0] == b[i, 1] == b[i, 2] && b[i, 2] != Blank then Some(b[i, 0])
    else if b[0, i] == b[1, i] == b[2, i] && b[2, i] != Blank then Some(b[0, i])
    else ScanFrom(b, i + 1)
  }

  /** The source's row/column/diagonal scan from index i on is the first-won-line search over Lines[2 * i..]. */
  lemma {:induction false} ScanFromIsFirstWon(b: array2<string>, i: nat)
    requires Is3x3(b) && i <= 3
    ensures ScanFrom(b, i) == FirstWon(b, Lines[2 * i..])
    decreases 3 - i
  {
    var ls := Lines[2 * i..];
    if i == 3 {
      assert ls == [Lines[6], Lines[7]];
      assert ls[1..] == [Lines[7]] && ls[1..][1..] == [];
    } else {
      ScanFromIsFirstWon(b, i + 1);
      assert ls[1..] == Lines[2 * i + 1..] && ls[1..][1..] == Lines[2 * (i + 1)..];
    }
  }

  /**
   * `check_winner`: some mark w exactly when a row, column or diagonal holds
   * three equal non-blank cells, w being the first cell of the first such line
   * in scan order; None when there is no such line.
   */
  function CheckWinner(b: array2<string>): (w: Option<string>)
    reads b
    requires Is3x3(b)
    ensures w.Some? ==> (w.value != Blank &&
      exists k :: 0 <= k < 8 && LineWon(b, Lines[k]) && w.value == b[Lines[k][0].0, Lines[k][0].1] &&
        forall j :: 0 <= j < k ==> !LineWon(b, Lines[j]))
    ensures w.None? <==> forall k :: 0 <= k < 8 ==> !LineWon(b, Lines[k])
  {
    ScanFromIsFirstWon(b, 0);
    assert Lines[2 * 0..] == Lines;
    ScanFrom(b, 0)
  }

  /** `is_draw`: every one of the nine cells is taken. */
  predicate IsDraw(b: array2<string>)
    reads b
    requires Is3x3(b)
  {
    forall i, j :: 0 <= i < 3 && 0 <= j < 3 ==> b[i, j] != Blank
  }

  /** On a drawn board every entry is refused: the cell is out of range or taken. */
  lemma DrawnBoardRefusesEveryCell(b: array2<string>, row: int, col: int)
    requires Is3x3(b) && IsDraw(b)
    ensures var r, c := PyIndex(row, 3), PyIndex(col, 3);
      r.None? || c.None? || b[r.value, c.value] != Blank
  {
  }

  /** Python list indexing: -n..-1 count from the end; anything else out of range raises IndexError. */
  function PyIndex(i: int, n: nat): (r: Option<nat>)
    ensures r.Some? <==> -(n as int) <= i < n
    ensures r.Some? ==> r.value < n && (r.value == i || r.value == i + n)
  {
    if 0 <= i < n then Some(i) else if -(n as int) <= i < 0 then Some(i + n) else None
  }

  datatype TurnResult = Retry | Won(winner: string) | Drawn | Next(player: nat)

  /**
   * One pass of the loop body of `tic_tac_toe` for player `current` entering
   * (row, col): an invalid or taken cell leaves the board alone and the same
   * player tries again; otherwise the mark is written, a win is tested before a
   * draw, and only then does the turn pass to player 1 - current.
   */
  method PlayTurn(b: array2<string>, current: nat, row: int, col: int) returns (res: TurnResult)
    requires Is3x3(b) && current < 2
    modifies b
    ensures var r, c := PyIndex(row, 3), PyIndex(col, 3);
      if r.None? || c.None? || old(b[r.value, c.value]) != Blank then
        res == Retry && forall i, j :: 0 <= i < 3 && 0 <= j < 3 ==> b[i, j] == old(b[i, j])
      else
        b[r.value, c.value] == Players[current] &&
        (forall i, j :: 0 <= i < 3 && 0 <= j < 3 && (i, j) != (r.value, c.value) ==> b[i, j] == old(b[i, j])) &&
        res == if CheckWinner(b).Some? then Won(CheckWinner(b).value)
               else if IsDraw(b) then Drawn
               else Next(1 - current)
    ensures res.Next? ==> res.player < 2 && res.player != current
  {
    var r, c := PyIndex(row, 3), PyIndex(col, 3);
    if r.None? || c.None? {
      return Retry;
    }
    if b[r.value, c.value] != Blank {
      return Retry;
    }
    b[r.value, c.value] := Players[current];
    var winner := CheckWinner(b);
    if winner.Some? {
      return Won(winner.value);
    }
    if IsDraw(b) {
      return Drawn;
    }
    return Next(1 - current);
  }
}
