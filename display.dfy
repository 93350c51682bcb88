/** What the status line shows: whose turn it is, who won, or a draw,
    and the text the page writes for each. */
module Display {
  import opened Rules

  datatype Status = Turn(player: Player) | Won(player: Player) | Draw

  function Digit(p: Player): char {
    if p == 1 then '1' else '2'
  }

  /** The status texts written into the status element: the turn line names the
      marker of the player to move, the win line carries a party-popper emoji and
      the draw line a handshake emoji. */
  function StatusText(s: Status, c: Config): string
    requires ValidConfig(c)
  {
    match s
    case Turn(p) => "Player " + [Digit(p)] + "'s Turn (" + Marker(p, c) + ")"
    case Won(p) => "\U{1F389} Player " + [Digit(p)] + " Wins!"
    case Draw => "It's a Draw! \U{1F91D}"
  }

  /** Distinct statuses are shown as distinct texts, so the text tells the
      players exactly who is to move or who has won. */
  lemma StatusTextInjective(s: Status, t: Status, c: Config)
    requires ValidConfig(c)
    requires StatusText(s, c) == StatusText(t, c)
    ensures s == t
  {
    var x, y := StatusText(s, c), StatusText(t, c);
    assert x[0] == y[0];
    match s
    case Turn(p) =>
      assert x[7] == Digit(p);
      if t.Turn? { assert y[7] == Digit(t.player); }
    case Won(p) =>
      assert x[9] == Digit(p);
      if t.Won? { assert y[9] == Digit(t.player); }
    case Draw =>
  }
}
