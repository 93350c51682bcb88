/** The settings dialog: the two players' pending avatar choices, the pick rule that
    keeps them apart, and saving them as the game's markers. */
module Settings {
  import opened Rules
  import opened Display
  import opened Engine

  /** The avatar-pick rule: a click on avatar av in player 1's grid (isP1) or in player
      2's grid becomes that player's pending choice, unless av is the other player's
      pending choice, which the grid shows disabled and without a click handler. The
      other player's choice never changes, and distinct choices stay distinct. */
  function PickAvatar(isP1: bool, av: string, t1: string, t2: string): (r: (string, string))
    ensures isP1 ==> r.1 == t2
    ensures !isP1 ==> r.0 == t1
    ensures isP1 && av != t2 ==> r.0 == av
    ensures !isP1 && av != t1 ==> r.1 == av
    ensures av == (if isP1 then t2 else t1) ==> r == (t1, t2)
    ensures t1 != t2 ==> r.0 != r.1
  {
    if isP1 then
      if av != t2 then (av, t2) else (t1, t2)
    else
      if av != t1 then (t1, av) else (t1, t2)
  }

  class AvatarPicker {
    /** `tempP1` and `tempP2`. */
    var tempP1: string
    var tempP2: string

    /** Both pending choices are avatars and they differ. */
    ghost predicate Valid()
      reads this
    {
      ValidConfig(Config(tempP1, tempP2))
    }

    constructor ()
      ensures Valid() && Config(tempP1, tempP2) == DefaultConfig
    {
      tempP1, tempP2 := "X", "O";
    }

    /** `openSettings`: the pending choices start from the game's markers. */
    method OpenSettings(g: Game)
      requires g.Valid()
      modifies this
      ensures Valid() && Config(tempP1, tempP2) == g.config
    {
      tempP1, tempP2 := g.config.p1, g.config.p2;
    }

    /** The click handler of an avatar in one of the two grids, which offer only the
        available avatars. */
    method Pick(isP1: bool, av: string)
      requires Valid() && av in Avatars
      modifies this
      ensures Valid()
      ensures (tempP1, tempP2) == PickAvatar(isP1, av, old(tempP1), old(tempP2))
    {
      var other := if isP1 then tempP2 else tempP1;
      if av != other {
        if isP1 { tempP1 := av; } else { tempP2 := av; }
      }
    }

    /** `saveSettings`: the pending choices become the markers and the game restarts,
        so the markers only ever change together with a full reset. */
    method SaveSettings(g: Game)
      requires Valid() && g.board.Length == 9
      modifies g, g.board
      ensures g.Valid() && g.config == Config(tempP1, tempP2)
      ensures g.board[..] == EmptyBoard && g.currentPlayer == 1 && g.gameActive
      ensures g.status == Turn(1) && g.played == []
    {
      g.config := Config(tempP1, tempP2);
      g.RestartGame();
    }
  }
}
