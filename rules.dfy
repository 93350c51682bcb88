/** The fixed rules of the 3x3 game: players, markers, the eight winning
    lines, the line test and the counting facts the engine's invariant uses. */
module Rules {

  datatype Option<T> = None | Some(value: T)

  /** A player number, as `currentPlayer` holds it: 1 or 2. */
  type Player = p: int | p == 1 || p == 2 witness 1

  /** The turn toggle `currentPlayer === 1 ? 2 : 1`. */
  function Other(p: Player): (q: Player)
    ensures q != p
  {
    if p == 1 then 2 else 1
  }

  /** The player who makes the k-th move (counting from 0) after a reset. */
  function MoverOf(k: nat): Player {
    if k % 2 == 0 then 1 else 2
  }

  /** The marker part of `config`; the theme is not modelled. */
  datatype Config = Config(p1: string, p2: string)

  /** `availableAvatars`, the markers the settings grids offer. */
  const Avatars: seq<string> :=
    ["X", "O", "\U{1F436}", "\U{1F431}", "\U{1F680}", "\U{2B50}", "\U{1F525}", "\U{1F480}"]

  const DefaultConfig: Config := Config("X", "O")

  /** Markers come from the avatar list and are distinct. */
  predicate ValidConfig(c: Config) {
    c.p1 in Avatars && c.p2 in Avatars && c.p1 != c.p2
  }

  /** The marker stamped by player p: `currentPlayer === 1 ? config.p1 : config.p2`. */
  function Marker(p: Player, c: Config): (m: string)
    requires ValidConfig(c)
    ensures m != ""
    ensures m in Avatars
  {
    if p == 1 then c.p1 else c.p2
  }

  /** A winning line: three cell indices. */
  type Line = (int, int, int)

  /** `winningConditions`: rows, then columns, then diagonals. */
  const Lines: seq<Line> :=
    [(0, 1, 2), (3, 4, 5), (6, 7, 8), (0, 3, 6), (1, 4, 7), (2, 5, 8), (0, 4, 8), (2, 4, 6)]

  /** The board after a reset: nine empty cells. */
  const EmptyBoard: seq<string> := ["", "", "", "", "", "", "", "", ""]

  function Cells(l: Line): seq<int> {
    [l.0, l.1, l.2]
  }

  /** Every winning line lies on the 3x3 board. */
  lemma LinesOnBoard()
    ensures forall l :: l in Lines ==> 0 <= l.0 < 9 && 0 <= l.1 < 9 && 0 <= l.2 < 9
  {
  }

  /** The test `boardState[a] && boardState[a] === boardState[b] && boardState[a] === boardState[c]`.
      An index outside the board reads `undefined`, which is falsy, so such a line never wins. */
  predicate Wins(b: seq<string>, l: Line) {
    && 0 <= l.0 < |b| && 0 <= l.1 < |b| && 0 <= l.2 < |b|
    && b[l.0] != "" && b[l.0] == b[l.1] && b[l.0] == b[l.2]
  }

  /** Some winning line holds three equal non-empty cells. */
  predicate HasWin(b: seq<string>) {
    exists k :: 0 <= k < |Lines| && Wins(b, Lines[k])
  }

  /** `!boardState.includes("")`. */
  predicate Full(b: seq<string>) {
    "" !in b
  }

  /** The index of the first winning line at or after `from`, in list order. */
  function FirstWin(b: seq<string>, from: nat): (r: Option<nat>)
    requires from <= |Lines|
    ensures r.Some? ==> from <= r.value < |Lines| && Wins(b, Lines[r.value])
    ensures r.Some? ==> forall j :: from <= j < r.value ==> !Wins(b, Lines[j])
    ensures r.None? <==> forall j :: from <= j < |Lines| ==> !Wins(b, Lines[j])
    decreases |Lines| - from
  {
    if from == |Lines| then None
    else if Wins(b, Lines[from]) then Some(from)
    else FirstWin(b, from + 1)
  }

  /** The number of cells holding marker m. */
  function Count(b: seq<string>, m: string): nat {
    if b == [] then 0 else (if b[0] == m then 1 else 0) + Count(b[1..], m)
  }

  /** Writing v into cell i moves one cell from its old value's count to v's count. */
  lemma {:induction false} CountUpdate(b: seq<string>, i: int, v: string, m: string)
    requires 0 <= i < |b|
    ensures Count(b[i := v], m) == Count(b, m) - (if b[i] == m then 1 else 0) + (if v == m then 1 else 0)
  {
    if i == 0 {
      assert b[i := v][1..] == b[1..];
    } else {
      assert b[i := v][1..] == b[1..][i - 1 := v];
      CountUpdate(b[1..], i - 1, v, m);
    }
  }

  /** A marker that does not occur has count zero. */
  lemma {:induction false} CountAbsent(b: seq<string>, m: string)
    requires m !in b
    ensures Count(b, m) == 0
  {
    if b != [] {
      assert m !in b[1..];
      CountAbsent(b[1..], m);
    }
  }

  /** On a board without a win, every line a single move completes runs through the
      moved cell and holds the mover's marker: the winner is always the player who
      just moved, and two lines completed at once never disagree. */
  lemma WinThroughMove(b: seq<string>, idx: int, m: string, k: int)
    requires 0 <= idx < |b| && 0 <= k < |Lines|
    requires !HasWin(b)
    requires Wins(b[idx := m], Lines[k])
    ensures idx in Cells(Lines[k])
    ensures b[idx := m][Lines[k].0] == m
  {
    // A line not through idx reads the same cells as before the move.
  }

  /** Every winning line on board b holds marker m. */
  predicate AllLinesHold(b: seq<string>, m: string) {
    forall k :: 0 <= k < |Lines| && Wins(b, Lines[k]) ==> b[Lines[k].0] == m
  }

  /** A move on a board without a win leaves every winning line holding the mover's marker. */
  lemma MoveWinsForMover(b: seq<string>, idx: int, m: string)
    requires 0 <= idx < |b|
    requires !HasWin(b)
    ensures AllLinesHold(b[idx := m], m)
  {
    forall k | 0 <= k < |Lines| && Wins(b[idx := m], Lines[k])
      ensures b[idx := m][Lines[k].0] == m
    {
      WinThroughMove(b, idx, m, k);
    }
  }

  /** Board b records the moves `played` since a reset under markers c: every cell is
      empty or holds a marker; the non-empty cells are exactly the cells played, each
      played once, and the k-th of them holds the marker of the player whose turn the
      k-th move was (player 1 first, then strictly alternating); so player 1 has made
      half the moves rounded up and player 2 half rounded down. */
  predicate Recorded(b: seq<string>, played: seq<int>, c: Config)
    requires |b| == 9 && ValidConfig(c)
  {
    && (forall i :: 0 <= i < 9 ==> b[i] == "" || b[i] == c.p1 || b[i] == c.p2)
    && (forall k :: 0 <= k < |played| ==> 0 <= played[k] < 9 && b[played[k]] == Marker(MoverOf(k), c))
    && (forall j, k :: 0 <= j < k < |played| ==> played[j] != played[k])
    && (forall i :: 0 <= i < 9 && b[i] != "" ==> i in played)
    && Count(b, c.p1) == (|played| + 1) / 2
    && Count(b, c.p2) == |played| / 2
  }

  /** The empty board records no moves. */
  lemma ResetRecorded(c: Config)
    requires ValidConfig(c)
    ensures Recorded(EmptyBoard, [], c)
  {
    CountAbsent(EmptyBoard, c.p1);
    CountAbsent(EmptyBoard, c.p2);
  }

  /** Stamping the next mover's marker into an empty cell extends the record by that cell. */
  lemma MoveRecorded(b: seq<string>, played: seq<int>, c: Config, idx: int)
    requires |b| == 9 && ValidConfig(c)
    requires Recorded(b, played, c)
    requires 0 <= idx < 9 && b[idx] == ""
    ensures Recorded(b[idx := Marker(MoverOf(|played|), c)], played + [idx], c)
  {
    var m := Marker(MoverOf(|played|), c);
    var b', p' := b[idx := m], played + [idx];
    CountUpdate(b, idx, m, c.p1);
    CountUpdate(b, idx, m, c.p2);
    forall k | 0 <= k < |p'|
      ensures 0 <= p'[k] < 9 && b'[p'[k]] == Marker(MoverOf(k), c)
    {
      if k < |played| {
        assert b[played[k]] != "";
      }
    }
  }
}
