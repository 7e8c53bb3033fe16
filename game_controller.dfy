/** The game state of GameController.cs with its Unity presentation stripped:
    the board array, the move counter, the side to move and the two scores.
    What the controller shows on screen (the winner text, the DRAW panel,
    the winning line) is returned by a click as an Outcome instead. */
module Controller {
  import opened Board

  /** What a click makes the controller announce. Win carries the mark of
      the winner and the index, in Board.Solutions, of the line it shows. */
  datatype Outcome = InProgress | Win(mark: int, line: int) | Draw

  /** What a click should announce after mover m has just played on board b:
      the first line of the table that m holds, else a draw if the board is
      full, else nothing. */
  function Judge(b: seq<int>, m: int): Outcome
    requires |b| == 9
  {
    if WinningLine(b, m) != -1 then Win(m, WinningLine(b, m))
    else if IsFull(b) then Draw
    else InProgress
  }

  /** What a click announces, given what WinCheck found: a win on the line
      it found, else a draw on the ninth move, else nothing; WinCheck is not
      run for the first four moves. */
  function Announce(turns: int, didPlayerWin: bool, mark: int, line: int): Outcome
  {
    if turns > 4 && didPlayerWin then Win(mark, line)
    else if turns > 4 && turns >= 9 then Draw
    else InProgress
  }

  /** After a click on an alternated board with `turns` cells now filled,
      what the controller announces, skipping WinCheck for the first four
      moves, is what Judge says of the new board. */
  lemma ClickIsJudged(after: seq<int>, ti: int, turns: int, didPlayerWin: bool, line: int)
    requires Alternated(after, 1 - ti) && turns == FilledCount(after)
    requires turns > 4 ==> line == WinningLine(after, ti + 1) && (didPlayerWin <==> line != -1)
    ensures Announce(turns, didPlayerWin, ti + 1, line) == Judge(after, ti + 1)
  {
    FullIffNineFilled(after);
    if turns <= 4 {
      NoWinBeforeFifthMove(after, 1 - ti);
    }
  }

  class GameController {
    /** 0 while X is to move, 1 while O is to move. */
    var turnIndicator: int
    /** Moves played in the current game. */
    var turnsCounter: int
    var playerXScore: int
    var playerOScore: int
    /** One cell per grid space: Empty, XMark or OMark. */
    var filledSpaces: array<int>

    ghost function Cells(): seq<int>
      reads this`filledSpaces, filledSpaces
    {
      filledSpaces[..]
    }

    /** The board invariant kept between clicks: nine valid cells, the
        counter equal to the number of filled cells, and X and O having
        taken turns, X first, with turnIndicator naming the side to move. */
    ghost predicate BoardValid()
      reads this, filledSpaces
    {
      && turnsCounter == FilledCount(Cells())
      && Alternated(Cells(), turnIndicator)
    }

    ghost predicate Valid()
      reads this, filledSpaces
    {
      BoardValid() && playerXScore >= 0 && playerOScore >= 0
    }

    /** A new controller: the C# fields start at 0 and Start runs GameSetup. */
    constructor ()
      ensures Valid() && fresh(filledSpaces)
      ensures Cells() == EmptyBoard && turnsCounter == 0 && turnIndicator == 0
      ensures playerXScore == 0 && playerOScore == 0
    {
      turnIndicator, turnsCounter := 0, 0;
      playerXScore, playerOScore := 0, 0;
      filledSpaces := new int[0];
      new;
      GameSetup();
    }

    /** Starts a game: X to move, no move played, all nine cells empty.
        The scores are left as they are. */
    method GameSetup()
      modifies this
      ensures BoardValid() && fresh(filledSpaces)
      ensures Cells() == EmptyBoard && turnsCounter == 0 && turnIndicator == 0
      ensures playerXScore == old(playerXScore) && playerOScore == old(playerOScore)
    {
      turnIndicator := 0;
      turnsCounter := 0;
      filledSpaces := new int[9];
      var i := 0;
      while i < filledSpaces.Length
        invariant 0 <= i <= filledSpaces.Length == 9
        invariant fresh(filledSpaces)
        invariant forall k :: 0 <= k < i ==> filledSpaces[k] == Empty
        invariant turnIndicator == 0 && turnsCounter == 0
        invariant playerXScore == old(playerXScore) && playerOScore == old(playerOScore)
      {
        filledSpaces[i] := Empty;
        i := i + 1;
      }
      assert Cells() == EmptyBoard;
      EmptyBoardCounts();
    }

    /** The mover's mark goes into the clicked cell and the counter goes up.
        From the fifth move on the controller runs WinCheck and, when that
        fails on the ninth move, announces a draw. Then the turn passes to
        the other player, after a winning move too. The cell must be in the
        grid and empty; only the button being disabled guarantees that. */
    method TicTacToeSpaceClicked(gridNumber: int) returns (outcome: Outcome)
      requires Valid()
      requires 0 <= gridNumber < 9 && filledSpaces[gridNumber] == Empty
      modifies this, filledSpaces
      ensures Valid() && filledSpaces == old(filledSpaces)
      ensures Cells() == old(Cells())[gridNumber := old(turnIndicator) + 1]
      ensures turnsCounter == old(turnsCounter) + 1
      ensures turnIndicator == 1 - old(turnIndicator)
      ensures outcome == Judge(Cells(), old(turnIndicator) + 1)
      ensures outcome.Draw? ==> turnsCounter == 9
      ensures outcome.Win? && outcome.mark == XMark ==>
        playerXScore == old(playerXScore) + 1 && playerOScore == old(playerOScore)
      ensures outcome.Win? && outcome.mark == OMark ==>
        playerOScore == old(playerOScore) + 1 && playerXScore == old(playerXScore)
      ensures !outcome.Win? ==>
        playerXScore == old(playerXScore) && playerOScore == old(playerOScore)
    {
      ghost var ti := turnIndicator;
      ghost var after := Cells()[gridNumber := ti + 1];
      PlaceKeepsAlternation(Cells(), ti, gridNumber);
      filledSpaces[gridNumber] := turnIndicator + 1;
      turnsCounter := turnsCounter + 1;
      assert Cells() == after;
      var didPlayerWin, line := false, -1;
      if turnsCounter > 4 {
        didPlayerWin, line := WinCheck();
      }
      outcome := Announce(turnsCounter, didPlayerWin, turnIndicator + 1, line);
      ClickIsJudged(after, ti, turnsCounter, didPlayerWin, line);

      // Change turns
      if turnIndicator == 0 {
        turnIndicator := 1;
      } else {
        turnIndicator := 0;
      }
    }

    /** Adds up the eight triples of the table and scans them in order for
        the first whose sum is three times the mover's mark; on a hit it
        hands that index to WinnerDisplay. By the sum trick that is the
        first line the mover holds outright. */
    method WinCheck() returns (didPlayerWin: bool, indexSolution: int)
      requires ValidCells(Cells()) && (turnIndicator == 0 || turnIndicator == 1)
      modifies this
      ensures filledSpaces == old(filledSpaces) && Cells() == old(Cells())
      ensures turnIndicator == old(turnIndicator) && turnsCounter == old(turnsCounter)
      ensures indexSolution == WinningLine(Cells(), turnIndicator + 1)
      ensures didPlayerWin <==> indexSolution != -1
      ensures didPlayerWin && turnIndicator == 0 ==>
        playerXScore == old(playerXScore) + 1 && playerOScore == old(playerOScore)
      ensures didPlayerWin && turnIndicator == 1 ==>
        playerOScore == old(playerOScore) + 1 && playerXScore == old(playerXScore)
      ensures !didPlayerWin ==>
        playerXScore == old(playerXScore) && playerOScore == old(playerOScore)
    {
      var solutions := Sums(filledSpaces[..]);
      ghost var b := Cells();
      var i := 0;
      while i < |solutions| && solutions[i] != 3 * (turnIndicator + 1)
        invariant 0 <= i <= |solutions|
        invariant forall j :: 0 <= j < i ==> solutions[j] != 3 * (turnIndicator + 1)
      {
        i := i + 1;
      }
      if i < |solutions| {
        FirstMatchingSumIsWinningLine(b, turnIndicator + 1, i);
        WinnerDisplay(i);
        return true, i;
      }
      FirstMatchingSumIsWinningLine(b, turnIndicator + 1, -1);
      return false, -1;
    }

    /** Credits the win to the player to move: X's score when turnIndicator
        is 0, O's otherwise. The index names the line the screen highlights
        and does not affect the state. */
    method WinnerDisplay(indexSolution: int)
      modifies this
      ensures filledSpaces == old(filledSpaces)
      ensures turnIndicator == old(turnIndicator) && turnsCounter == old(turnsCounter)
      ensures old(turnIndicator) == 0 ==>
        playerXScore == old(playerXScore) + 1 && playerOScore == old(playerOScore)
      ensures old(turnIndicator) != 0 ==>
        playerOScore == old(playerOScore) + 1 && playerXScore == old(playerXScore)
    {
      if turnIndicator == 0 {
        playerXScore := playerXScore + 1;
      } else {
        playerOScore := playerOScore + 1;
      }
    }

    /** A new game with the scores kept. */
    method Rematch()
      requires Valid()
      modifies this
      ensures Valid() && fresh(filledSpaces)
      ensures Cells() == EmptyBoard && turnsCounter == 0 && turnIndicator == 0
      ensures playerXScore == old(playerXScore) && playerOScore == old(playerOScore)
    {
      GameSetup();
    }

    /** A new game with both scores back at 0. */
    method Restart()
      requires Valid()
      modifies this
      ensures Valid() && fresh(filledSpaces)
      ensures Cells() == EmptyBoard && turnsCounter == 0 && turnIndicator == 0
      ensures playerXScore == 0 && playerOScore == 0
    {
      Rematch();
      playerOScore := 0;
      playerXScore := 0;
    }
  }
}
