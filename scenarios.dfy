/** Client programs that drive the engine through whole games, using only the
    contracts of its methods. */
module Scenarios {
  import opened Rules
  import opened Display
  import opened Engine
  import opened Settings
  import opened Tutorial

  /** Player 1 plays 0, 1, 2 and player 2 plays 4, 5: after the fifth move the top
      row is the first winning line, so the result check reports [0, 1, 2]. */
  lemma TopRowBoard()
    ensures FirstWin(["X", "X", "X", "", "O", "O", "", "", ""], 0) == Some(0)
    ensures Cells(Lines[0]) == [0, 1, 2]
  {
  }

  /** Clicking the cells 0 to 8 in order does not end in a draw: after the seventh
      click player 1 holds the diagonal 2-4-6, the only winning line. */
  lemma DiagonalBoard()
    ensures !HasWin(["X", "O", "X", "O", "X", "O", "", "", ""])
    ensures FirstWin(["X", "O", "X", "O", "X", "O", "X", "", ""], 0) == Some(7)
    ensures Cells(Lines[7]) == [2, 4, 6]
  {
    assert FirstWin(["X", "O", "X", "O", "X", "O", "", "", ""], 0) == None;
  }

  /** The order 0, 2, 1, 3, 5, 4, 6, 7, 8 fills the board with no three in a row. */
  lemma DrawBoard()
    ensures FirstWin(["X", "X", "O", "O", "O", "X", "X", "O", "X"], 0) == None
    ensures Full(["X", "X", "O", "O", "O", "X", "X", "O", "X"])
  {
  }

  /** Choosing the dog for player 1 and the rocket for player 2 and saving restarts
      the game, and player 1's first move stamps the dog. */
  method ScenarioMarkers() {
    var g := new Game();
    var line := g.HandleCellClick(4);
    var picker := new AvatarPicker();
    picker.OpenSettings(g);
    picker.Pick(true, "\U{1F436}");
    picker.Pick(false, "\U{1F436}");
    assert picker.tempP2 == "O";
    picker.Pick(false, "\U{1F680}");
    picker.SaveSettings(g);
    assert g.board[4] == "";
    line := g.HandleCellClick(0);
    assert g.board[0] == "\U{1F436}";
  }

  /** Restarting twice leaves the game exactly as restarting once. */
  method ScenarioRestartTwice(g: Game)
    requires g.Valid()
    modifies g, g.board
  {
    g.RestartGame();
    ghost var once := (g.board[..], g.currentPlayer, g.gameActive, g.config, g.status, g.played);
    g.RestartGame();
    assert (g.board[..], g.currentPlayer, g.gameActive, g.config, g.status, g.played) == once;
  }

  /** Starting the tutorial and pressing "next" five times walks through the five
      steps and then closes the overlay. */
  method ScenarioTutorial() {
    var t := new Walkthrough();
    t.StartTutorial();
    t.NextTutorialStep();
    t.NextTutorialStep();
    t.NextTutorialStep();
    t.NextTutorialStep();
    assert t.overlayShown && t.highlighted == Some("bottom-controls");
    t.NextTutorialStep();
    assert !t.overlayShown && t.tutorialStep == 5;
  }
}
