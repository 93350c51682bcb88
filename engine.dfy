/** The game engine: the board, whose turn it is, whether the game is still
    running, the markers in force and the status line, changed in place by a
    cell click, by the result check that follows it, and by a restart. */
module Engine {
  import opened Rules
  import opened Display

  /** The engine invariant, over the board contents b, the cells played since the
      last reset, the markers c, the current player cp, the active flag and the
      status. While the game runs it is the turn of the player who makes the next
      move, nobody has won and a cell is free; once it is over the current player
      is the one who moved last, and either every winning line is theirs and the
      status says they won, or the board is full without a winning line and the
      status says draw. */
  predicate GameInvariant(b: seq<string>, played: seq<int>, c: Config, cp: Player, active: bool, st: Status) {
    && |b| == 9 && ValidConfig(c) && Recorded(b, played, c)
    && (active ==>
          && cp == MoverOf(|played|)
          && st == Turn(cp)
          && !HasWin(b) && !Full(b))
    && (!active ==>
          && |played| > 0 && cp == MoverOf(|played| - 1)
          && ((st == Won(cp) && HasWin(b) && AllLinesHold(b, Marker(cp, c)))
              || (st == Draw && !HasWin(b) && Full(b))))
  }

  /** The state between stamping a marker and checking the result: player cp has
      just made the last recorded move and any winning line is theirs. */
  predicate JustMoved(b: seq<string>, played: seq<int>, c: Config, cp: Player) {
    && |b| == 9 && ValidConfig(c) && Recorded(b, played, c)
    && |played| > 0 && cp == MoverOf(|played| - 1)
    && AllLinesHold(b, Marker(cp, c))
  }

  /** The reset state satisfies the invariant, whatever the markers. */
  lemma ResetKeepsInvariant(c: Config)
    requires ValidConfig(c)
    ensures GameInvariant(EmptyBoard, [], c, 1, true, Turn(1))
  {
    ResetRecorded(c);
  }

  /** An accepted click, stamping the current player's marker into an empty cell of a
      running game, reaches the state that the result check starts from. */
  lemma MoveKeepsRecord(b: seq<string>, played: seq<int>, c: Config, cp: Player, st: Status, idx: int)
    requires GameInvariant(b, played, c, cp, true, st)
    requires 0 <= idx < 9 && b[idx] == ""
    ensures JustMoved(b[idx := Marker(cp, c)], played + [idx], c, cp)
  {
    MoveRecorded(b, played, c, idx);
    MoveWinsForMover(b, idx, Marker(cp, c));
  }

  /** A win ends the game with the mover announced as winner and the turn not passed. */
  lemma WinEndsGame(b: seq<string>, played: seq<int>, c: Config, cp: Player)
    requires JustMoved(b, played, c, cp) && HasWin(b)
    ensures GameInvariant(b, played, c, cp, false, Won(cp))
  {
  }

  /** Without a win, a full board ends the game as a draw. */
  lemma FullBoardDraws(b: seq<string>, played: seq<int>, c: Config, cp: Player)
    requires JustMoved(b, played, c, cp) && !HasWin(b) && Full(b)
    ensures GameInvariant(b, played, c, cp, false, Draw)
  {
  }

  /** Without a win and with a cell free, the turn passes to the other player. */
  lemma TurnPasses(b: seq<string>, played: seq<int>, c: Config, cp: Player)
    requires JustMoved(b, played, c, cp) && !HasWin(b) && !Full(b)
    ensures GameInvariant(b, played, c, Other(cp), true, Turn(Other(cp)))
  {
  }

  /** While the game runs, the marker counts show whose turn it is: equal counts on
      player 1's turn, one more mark of player 1's on player 2's turn. */
  lemma TurnBalance(b: seq<string>, played: seq<int>, c: Config, cp: Player, st: Status)
    requires GameInvariant(b, played, c, cp, true, st)
    ensures cp == 1 ==> Count(b, c.p1) == Count(b, c.p2)
    ensures cp == 2 ==> Count(b, c.p1) == Count(b, c.p2) + 1
  {
  }

  class Game {
    /** `boardState`: nine cells, "" when empty. The array itself is never replaced. */
    const board: array<string>
    /** `currentPlayer`. */
    var currentPlayer: Player
    /** `gameActive`. */
    var gameActive: bool
    /** `config.p1` and `config.p2`. */
    var config: Config
    /** What the status element shows. */
    var status: Status
    /** The cells played since the last reset, in order. */
    ghost var played: seq<int>

    /** The board has nine cells and the markers are usable. */
    ghost predicate Shape()
      reads this
    {
      board.Length == 9 && ValidConfig(config)
    }

    /** The object invariant: the nine-cell board and the fields satisfy the
        engine invariant. */
    ghost predicate Valid()
      reads this, board
    {
      board.Length == 9 && GameInvariant(board[..], played, config, currentPlayer, gameActive, status)
    }

    /** The state between stamping a marker and checking the result. */
    ghost predicate Moved()
      reads this, board
    {
      board.Length == 9 && gameActive && JustMoved(board[..], played, config, currentPlayer)
    }

    /** The guard of a click: the index is a cell, the cell is empty and the game is
        running. An index outside 0..8 reads `undefined`, which is not "". */
    ghost predicate Accepts(idx: int)
      reads this, board
    {
      0 <= idx < board.Length && board[idx] == "" && gameActive
    }

    /** The outcome of the result check after `mover` has moved: the first winning
        line in list order ends the game as a win for the mover; otherwise a full
        board ends it as a draw; otherwise the turn passes to the other player. */
    ghost predicate Settled(mover: Player, winningLine: seq<int>)
      reads this, board
    {
      match FirstWin(board[..], 0)
      case Some(k) =>
        winningLine == Cells(Lines[k]) && !gameActive && currentPlayer == mover && status == Won(mover)
      case None =>
        && winningLine == []
        && (Full(board[..]) ==> !gameActive && currentPlayer == mover && status == Draw)
        && (!Full(board[..]) ==> gameActive && currentPlayer == Other(mover) && status == Turn(Other(mover)))
    }

    /** The text the status element shows. */
    function StatusLine(): string
      reads this
      requires ValidConfig(config)
    {
      StatusText(status, config)
    }

    /** The page's initial state: an empty board, player 1 to move, markers X and O. */
    constructor ()
      ensures Valid() && fresh(board)
      ensures board[..] == EmptyBoard && currentPlayer == 1 && gameActive
      ensures config == DefaultConfig && status == Turn(1)
    {
      board := new string[9](_ => "");
      currentPlayer := 1;
      gameActive := true;
      config := DefaultConfig;
      status := Turn(1);
      played := [];
      new;
      assert board[..] == EmptyBoard;
      ResetKeepsInvariant(config);
    }

    /** `handleCellClick`: a rejected click changes nothing; an accepted one writes
        the mover's marker into that one cell and then runs the result check. The
        returned line is the one handed to the highlighting, [] when nobody won. */
    method HandleCellClick(idx: int) returns (winningLine: seq<int>)
      requires Valid()
      modifies this, board
      ensures Valid() && config == old(config)
      ensures !old(Accepts(idx)) ==> unchanged(this, board) && winningLine == []
      ensures old(Accepts(idx)) ==>
                && board[..] == old(board[..])[idx := Marker(old(currentPlayer), config)]
                && played == old(played) + [idx]
                && Settled(old(currentPlayer), winningLine)
    {
      if !(0 <= idx < board.Length && board[idx] == "") || !gameActive {
        return [];
      }
      ghost var before := board[..];
      var m := Marker(currentPlayer, config);
      MoveKeepsRecord(before, played, config, currentPlayer, status, idx);
      board[idx] := m;
      played := played + [idx];
      assert board[..] == before[idx := m];
      winningLine := HandleResultValidation();
    }

    /** The loop of `handleResultValidation` that looks for the first winning line. */
    method ScanLines() returns (roundWon: bool, winningLine: seq<int>)
      requires board.Length == 9
      ensures roundWon <==> HasWin(board[..])
      ensures roundWon ==> FirstWin(board[..], 0).Some? && winningLine == Cells(Lines[FirstWin(board[..], 0).value])
      ensures !roundWon ==> winningLine == []
    {
      roundWon, winningLine := false, [];
      LinesOnBoard();
      var i := 0;
      while i < |Lines|
        invariant 0 <= i <= |Lines|
        invariant forall j :: 0 <= j < i ==> !Wins(board[..], Lines[j])
      {
        assert Lines[i] in Lines;
        var (a, b, c) := Lines[i];
        if board[a] != "" && board[a] == board[b] && board[a] == board[c] {
          assert Wins(board[..], Lines[i]);
          roundWon, winningLine := true, [a, b, c];
          break;
        }
        i := i + 1;
      }
    }

    /** `handleResultValidation`: a win ends the game without passing the turn, so the
        announced winner is the player who just moved; otherwise a full board ends it
        as a draw; otherwise the turn passes to the other player. */
    method HandleResultValidation() returns (winningLine: seq<int>)
      requires Moved()
      modifies this
      ensures Valid()
      ensures config == old(config) && played == old(played)
      ensures Settled(old(currentPlayer), winningLine)
    {
      var roundWon;
      roundWon, winningLine := ScanLines();
      if roundWon {
        WinEndsGame(board[..], played, config, currentPlayer);
        status := Won(currentPlayer);
        gameActive := false;
        return;
      }
      if "" !in board[..] {
        FullBoardDraws(board[..], played, config, currentPlayer);
        status := Draw;
        gameActive := false;
        return;
      }
      TurnPasses(board[..], played, config, currentPlayer);
      currentPlayer := if currentPlayer == 1 then 2 else 1;
      status := Turn(currentPlayer);
    }

    /** `restartGame`: from any state with a nine-cell board and usable markers, clear
        every cell in place, give the turn to player 1 and reopen the game. The new
        state does not depend on the old one, so restarting twice is restarting once. */
    method RestartGame()
      requires Shape()
      modifies this, board
      ensures Valid() && config == old(config)
      ensures board[..] == EmptyBoard && currentPlayer == 1 && gameActive && played == []
      ensures status == Turn(1)
    {
      gameActive := true;
      currentPlayer := 1;
      forall i | 0 <= i < board.Length {
        board[i] := "";
      }
      status := Turn(1);
      played := [];
      assert board[..] == EmptyBoard;
      ResetKeepsInvariant(config);
    }
  }
}
