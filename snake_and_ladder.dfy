/**
 * The board and turn rule of SnakeAndLadder/snake_and_ladder.py. Snakes and
 * ladders are both a start cell and an end cell; the board keeps one list of
 * each. A turn adds the dice roll to the player's cell, applies at most one
 * snake and then at most one ladder, and moves the player only when the
 * resulting cell is still on the board.
 */
module SnakeAndLadder {

  /** A snake or a ladder: landing on `startCell` takes the player to `endCell`. */
  datatype Jump = Jump(startCell: int, endCell: int)

  /** Index of the first jump in list order that starts at `p`, or -1. */
  function FirstStarting(jumps: seq<Jump>, p: int): (k: int)
    ensures -1 <= k < |jumps|
    ensures k >= 0 ==> jumps[k].startCell == p && forall j :: 0 <= j < k ==> jumps[j].startCell != p
    ensures k == -1 <==> forall j :: 0 <= j < |jumps| ==> jumps[j].startCell != p
  {
    if jumps == [] then -1
    else if jumps[0].startCell == p then 0
    else
      var k := FirstStarting(jumps[1..], p);
      if k == -1 then -1 else k + 1
  }

  /** Taking the first jump of the list that starts at `p`, or none when there is none. */
  function Take(jumps: seq<Jump>, p: int): int
  {
    var k := FirstStarting(jumps, p);
    if k >= 0 then jumps[k].endCell else p
  }

  /**
   * The relation one `next(... , None)` lookup establishes between a cell and
   * where the player ends up: no jump starts there and the cell is kept, or the
   * k-th jump is the first that starts there and its end is taken.
   */
  predicate JumpStep(jumps: seq<Jump>, p: int, q: int)
  {
    ((forall j :: 0 <= j < |jumps| ==> jumps[j].startCell != p) && q == p) ||
    (exists k :: 0 <= k < |jumps| && jumps[k].startCell == p && q == jumps[k].endCell &&
       forall j :: 0 <= j < k ==> jumps[j].startCell != p)
  }

  /** `get_new_position` on the given lists: a snake step followed by a ladder step. */
  function Resolve(snakes: seq<Jump>, ladders: seq<Jump>, p: int): (q: int)
    ensures JumpStep(snakes, p, Take(snakes, p)) && JumpStep(ladders, Take(snakes, p), q)
  {
    Take(ladders, Take(snakes, p))
  }

  /** The lookup relation is functional, so `Resolve` is the only outcome it allows. */
  lemma JumpStepUnique(jumps: seq<Jump>, p: int, q: int)
    requires JumpStep(jumps, p, q)
    ensures q == Take(jumps, p)
  {
    var k := FirstStarting(jumps, p);
    if k >= 0 {
      if k' :| 0 <= k' < |jumps| && jumps[k'].startCell == p && q == jumps[k'].endCell &&
               forall j :: 0 <= j < k' ==> jumps[j].startCell != p {
        assert k' == k;
      }
    }
  }

  /** A cell that starts no snake and no ladder is returned unchanged. */
  lemma NoJumpKeepsCell(snakes: seq<Jump>, ladders: seq<Jump>, p: int)
    requires forall j :: 0 <= j < |snakes| ==> snakes[j].startCell != p
    requires forall j :: 0 <= j < |ladders| ==> ladders[j].startCell != p
    ensures Resolve(snakes, ladders, p) == p
  {
  }

  /** The result is the cell itself or the end of one snake or one ladder. */
  lemma ResolveLandsOnAnEnd(snakes: seq<Jump>, ladders: seq<Jump>, p: int)
    ensures var q := Resolve(snakes, ladders, p);
      q == p ||
      (exists j :: 0 <= j < |snakes| && q == snakes[j].endCell) ||
      (exists j :: 0 <= j < |ladders| && q == ladders[j].endCell)
  {
    var k := FirstStarting(snakes, p);
    var mid := Take(snakes, p);
    var l := FirstStarting(ladders, mid);
    if l >= 0 {
      assert Resolve(snakes, ladders, p) == ladders[l].endCell;
    } else if k >= 0 {
      assert Resolve(snakes, ladders, p) == snakes[k].endCell;
    }
  }

  /** The snakes and ladders of the demo game on a 100-cell board. */
  const DemoSnakes: seq<Jump> := [Jump(14, 3), Jump(36, 17), Jump(55, 25)]
  const DemoLadders: seq<Jump> :=
    [Jump(1, 38), Jump(4, 14), Jump(9, 31), Jump(21, 42), Jump(37, 56), Jump(58, 84)]

  /**
   * On the demo board a ladder ending on a snake's head is not followed by
   * that snake (4 reaches 14 and stays), and a snake's tail is not followed
   * by a ladder unless one starts there.
   */
  lemma DemoLadderFromStart()
    ensures Resolve(DemoSnakes, DemoLadders, 1) == 38
  {
  }

  lemma DemoLadderOntoSnakeHead()
    ensures Resolve(DemoSnakes, DemoLadders, 4) == 14
  {
  }

  lemma DemoSnakeOnly()
    ensures Resolve(DemoSnakes, DemoLadders, 14) == 3
  {
  }

  lemma DemoPlainCell()
    ensures Resolve(DemoSnakes, DemoLadders, 50) == 50
  {
  }

  class Board {
    const numCells: int
    var snakes: seq<Jump>
    var ladders: seq<Jump>

    constructor (numCells: int, snakes: seq<Jump>, ladders: seq<Jump>)
      ensures this.numCells == numCells && this.snakes == snakes && this.ladders == ladders
    {
      this.numCells := numCells;
      this.snakes := snakes;
      this.ladders := ladders;
    }

    method AddSnake(s: Jump)
      modifies this
      ensures snakes == old(snakes) + [s] && ladders == old(ladders)
    {
      snakes := snakes + [s];
    }

    method AddLadder(l: Jump)
      modifies this
      ensures ladders == old(ladders) + [l] && snakes == old(snakes)
    {
      ladders := ladders + [l];
    }

    predicate IsCellValid(p: int)
    {
      p <= numCells
    }

    predicate IsWinner(p: int)
    {
      p == numCells
    }

    function GetNewPosition(p: int): int
      reads this
    {
      Resolve(snakes, ladders, p)
    }
  }

  class Player {
    const name: string
    var position: int

    constructor (name: string, position: int)
      ensures this.name == name && this.position == position
    {
      this.name := name;
      this.position := position;
    }
  }

  class Game {
    const board: Board
    const players: seq<Player>

    /** No player stands beyond the last cell. */
    predicate OnBoard()
      reads players
    {
      forall j :: 0 <= j < |players| ==> players[j].position <= board.numCells
    }

    constructor (board: Board, players: seq<Player>)
      ensures this.board == board && this.players == players
    {
      this.board := board;
      this.players := players;
    }

    /**
     * One player's turn with dice value `roll`: the new cell is computed
     * first and validity is tested on it, so a jump can bring an overshooting
     * roll back onto the board.
     */
    method PlayTurn(i: nat, roll: int) returns (won: bool)
      requires i < |players| && 1 <= roll <= 6
      modifies players[i]
      ensures var q := board.GetNewPosition(old(players[i].position) + roll);
        if board.IsCellValid(q) then players[i].position == q && won == board.IsWinner(q)
        else players[i].position == old(players[i].position) && !won
      ensures players[i].position == Landing(old(players[i].position), roll)
      ensures won == Reaches(old(players[i].position), roll)
    {
      var newPosition := players[i].position + roll;
      newPosition := board.GetNewPosition(newPosition);
      won := false;
      if board.IsCellValid(newPosition) {
        players[i].position := newPosition;
        if board.IsWinner(newPosition) {
          won := true;
        }
      }
    }

    /** The cell a player standing on `p` ends the turn on after rolling `roll`. */
    function Landing(p: int, roll: int): int
      reads board
    {
      var q := board.GetNewPosition(p + roll);
      if board.IsCellValid(q) then q else p
    }

    /** Whether rolling `roll` from `p` wins the game. */
    predicate Reaches(p: int, roll: int)
      reads board
    {
      var q := board.GetNewPosition(p + roll);
      board.IsCellValid(q) && board.IsWinner(q)
    }

    /** Each player appears once in the list. */
    predicate Distinct()
    {
      forall a, b :: 0 <= a < b < |players| ==> players[a] != players[b]
    }

    /**
     * One pass of the game loop: the players move in list order with the
     * given rolls, and the pass stops at the first player who reaches the
     * last cell. Returns that player's index, or -1.
     */
    method PlayRound(rolls: seq<int>) returns (winner: int)
      requires |rolls| == |players| && forall j :: 0 <= j < |rolls| ==> 1 <= rolls[j] <= 6
      requires Distinct() && OnBoard()
      modifies set p | p in players
      ensures OnBoard()
      ensures -1 <= winner < |players|
      // everyone up to and including the stopping player has moved
      ensures forall j :: 0 <= j < |players| && (winner == -1 || j <= winner) ==>
        players[j].position == Landing(old(players[j].position), rolls[j])
      // the players after the stopping one have not moved
      ensures forall j :: 0 <= j < |players| && 0 <= winner < j ==>
        players[j].position == old(players[j].position)
      // the winner is the first player whose roll reaches the last cell
      ensures forall j :: 0 <= j < |players| && (winner == -1 || j < winner) ==>
        !Reaches(old(players[j].position), rolls[j])
      ensures winner >= 0 ==>
        Reaches(old(players[winner].position), rolls[winner]) && players[winner].position == board.numCells
      // when nobody started on the last cell, nobody stands on it exactly when nobody won
      ensures (forall j :: 0 <= j < |players| ==> old(players[j].position) != board.numCells) ==>
        (winner == -1 <==> forall j :: 0 <= j < |players| ==> players[j].position != board.numCells)
    {
      winner := -1;
      for j := 0 to |players|
        invariant OnBoard()
        invariant winner == -1
        invariant forall k :: 0 <= k < j ==>
          players[k].position == Landing(old(players[k].position), rolls[k]) &&
          !Reaches(old(players[k].position), rolls[k])
        invariant forall k :: j <= k < |players| ==> players[k].position == old(players[k].position)
      {
        var won := PlayTurn(j, rolls[j]);
        assert forall k :: 0 <= k < |players| && k != j ==> players[k] != players[j];
        if won {
          winner := j;
          return;
        }
      }
      forall j | 0 <= j < |players| && old(players[j].position) != board.numCells
        ensures players[j].position != board.numCells
      {
        LandingMissesEnd(old(players[j].position), rolls[j]);
      }
    }

    /** A roll that does not win leaves a player who was not on the last cell off it. */
    lemma LandingMissesEnd(p: int, roll: int)
      requires p != board.numCells && !Reaches(p, roll)
      ensures Landing(p, roll) != board.numCells
    {
    }
  }
}
