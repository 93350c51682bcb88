# Tic-tac-toe game engine

This project models the game logic of a browser tic-tac-toe page (`script.js`).
The page keeps a nine-cell board (`boardState`, `""` for an empty cell), the
player to move (`currentPlayer`, 1 or 2), a flag saying whether the game is
still running (`gameActive`) and the two player markers (`config.p1`,
`config.p2`). A click on a cell is guarded and then stamps the mover's marker.
The result check then looks through the eight winning lines (rows, columns,
diagonals) for three equal non-empty cells and stops at the first one. A win
ends the game. Otherwise a full board ends it as a draw. Otherwise the turn
passes. A restart clears the board in place. Around the engine sit a settings
dialog and a tutorial. In the dialog each player picks an avatar as marker,
and an avatar the other player holds cannot be picked. The tutorial is a
five-step walkthrough driven by a counter.

The model has these modules:

- `Rules` (rules.dfy): players, markers, the winning lines, the line test
  `Wins`, the first-win search `FirstWin` and marker counts. It also holds
  the record predicate `Recorded`: the non-empty cells are exactly the cells
  played since the reset, in strictly alternating order.
- `Display` (display.dfy): the status datatype `Turn(p) | Won(p) | Draw` and
  the text the page writes for each status.
- `Engine` (engine.dfy): the class `Game`. It keeps the board as an
  `array<string>` and has one method per engine function. `GameInvariant` is
  the engine invariant, stated over values, with one lemma per transition.
- `Settings` (settings.dfy): the class `AvatarPicker` (`tempP1`, `tempP2`)
  and the pure pick rule `PickAvatar`.
- `Tutorial` (tutorial.dfy): the class `Walkthrough`, which holds the step
  counter, the overlay, the highlighted element and the tooltip text.
- `Scenarios` (scenarios.dfy): outcomes on concrete boards, and three client
  methods that use only the method contracts. `ScenarioRestartTwice` restarts
  twice and checks that the second restart changes nothing. `ScenarioMarkers`
  picks new avatars, saves them, plays a move and checks that the move stamps
  the new marker. `ScenarioTutorial` walks through the five steps and checks
  that the overlay then closes.

The engine invariant (`Engine.GameInvariant`, kept by every `Game` method) says:

- every cell is empty or holds one of the two distinct markers;
- the non-empty cells are exactly the cells played since the last reset,
  each played once, and the k-th move carries player 1's marker when k is
  even and player 2's when k is odd;
- player 1 has made half the moves rounded up and player 2 half rounded down;
- while the game runs, it is the turn of the next mover, the status says so,
  no line wins and a cell is free;
- once the game is over, the current player is the last mover, and either
  every winning line holds their marker and the status is `Won` for them, or
  the board is full, no line wins and the status is `Draw`.

Clicking the cells 0, 1, …, 8 in order does not end in a draw. After the
seventh click player 1 holds the diagonal 2-4-6 (`Scenarios.DiagonalBoard`).
The model's draw board comes from the order 0, 2, 1, 3, 5, 4, 6, 7, 8
(`Scenarios.DrawBoard`).

## Model

| member | source | states |
|---|---|---|
| `Rules.Other` | script.js:42 | the turn toggle always hands the turn to the other player |
| `Rules.Marker` | script.js:22 | the stamped marker is player 1's marker for player 1 and player 2's otherwise; it is a non-empty avatar |
| `Rules.LinesOnBoard` | script.js:16 | all eight winning lines index cells 0..8 |
| `Rules.FirstWin` | script.js:31-36 | the result is the first line in list order whose three cells are equal and non-empty; there is no result exactly when no line wins |
| `Rules.CountUpdate` | script.js:22 | writing one cell changes only the counts of the old and the new value, each by one |
| `Rules.CountAbsent` | script.js:49 | a cleared board holds no marks of either player |
| `Rules.WinThroughMove` | script.js:33-39 | on a board without a win, any line one move completes passes through the moved cell and holds the mover's marker |
| `Rules.MoveWinsForMover` | script.js:37-39 | after a move on a board without a win, every winning line holds the mover's marker, so simultaneous lines never disagree about the winner |
| `Rules.ResetRecorded` | script.js:49 | the cleared board records no moves |
| `Rules.MoveRecorded` | script.js:21-22 | stamping the next mover's marker into an empty cell adds exactly that cell to the record, keeps strict alternation and moves the counts on by one |
| `Display.StatusTextInjective` | script.js:38-50 | the turn, win and draw texts of distinct statuses differ, so the status line tells who is to move or who won |
| `Engine.ResetKeepsInvariant` | script.js:48-50 | the reset state (empty board, player 1, running, status naming player 1's turn) satisfies the engine invariant for any distinct markers |
| `Engine.MoveKeepsRecord` | script.js:19-25 | an accepted click on a running game reaches the state the result check starts from: the record gains the cell and every winning line is the mover's |
| `Engine.WinEndsGame` | script.js:37-39 | a win stops the game, keeps the turn with the mover and announces the mover as winner |
| `Engine.FullBoardDraws` | script.js:41 | with no winning line, a full board stops the game as a draw |
| `Engine.TurnPasses` | script.js:42-43 | with no winning line and a free cell, the turn passes to the other player and the game keeps running |
| `Engine.TurnBalance` | script.js:22-42 | while the game runs, both players have equally many marks on player 1's turn, and player 1 has one more on player 2's turn |
| `Engine.Game.constructor` | script.js:2-5 | the initial state is an empty board, player 1 to move, game running, markers X and O |
| `Engine.Game.HandleCellClick` | script.js:19-26 | a click outside 0..8, on an occupied cell or after the game ended changes nothing; otherwise exactly the clicked cell receives the mover's marker, the move is recorded and the result check settles the outcome; the invariant is kept |
| `Engine.Game.ScanLines` | script.js:29-36 | the loop finds a line exactly when some line wins, and then reports the first winning line in list order; otherwise it reports no line |
| `Engine.Game.HandleResultValidation` | script.js:28-44 | the first winning line makes the mover the winner and ends the game; otherwise a full board is a draw; otherwise the other player is to move; the board and markers are untouched |
| `Engine.Game.RestartGame` | script.js:48-53 | from any state, the board is cleared in place, player 1 is to move, the game is running and the status says so; the markers are kept, so a second restart changes nothing |
| `Settings.PickAvatar` | script.js:63-65 | a pick changes only the picking player's choice, is ignored when the avatar is the other player's choice, and keeps distinct choices distinct |
| `Settings.AvatarPicker.constructor` | script.js:7 | the pending choices start as X and O |
| `Settings.AvatarPicker.OpenSettings` | script.js:56 | the pending choices are copied from the game's markers |
| `Settings.AvatarPicker.Pick` | script.js:59-69 | a click on an avatar in a grid updates the pending choices by the pick rule, so they stay distinct |
| `Settings.AvatarPicker.SaveSettings` | script.js:73 | the pending choices become the markers and the game restarts, so markers change only together with a full reset |
| `Tutorial.Walkthrough.constructor` | script.js:78 | the counter starts at 0 |
| `Tutorial.Walkthrough.StartTutorial` | script.js:91-95 | the counter goes back to 0, the overlay is shown and the first step is on display |
| `Tutorial.Walkthrough.ShowStep` | script.js:100-113 | once the counter is at or past the fifth step the tutorial ends; otherwise the current step's element is the only one highlighted and its text is shown |
| `Tutorial.Walkthrough.NextTutorialStep` | script.js:140 | the counter goes up by exactly one, and the overlay stays up exactly while the counter is inside the five steps |
| `Tutorial.Walkthrough.EndTutorial` | script.js:141 | the highlight is removed and the overlay hidden |
| `Scenarios.TopRowBoard` | script.js:31-39 | after X at 0, 1, 2 and O at 4, 5, the first winning line is the top row [0, 1, 2] |
| `Scenarios.DiagonalBoard` | script.js:31-39 | clicking 0..8 in order gives no win after six moves and the diagonal [2, 4, 6] after seven |
| `Scenarios.DrawBoard` | script.js:31-41 | the board from 0, 2, 1, 3, 5, 4, 6, 7, 8 is full with no winning line |

## Left out

- DOM reads and writes: cell contents, CSS classes, `highlightWin`'s styling and the modal's display. These are presentation only. The status element is modelled by the `status` field, and `Display.StatusText` gives its text.
- `parseInt` of the `data-index` attribute. The index is an `int` parameter. A non-numeric attribute gives `NaN`, which reads `undefined` and fails the guard like any index outside 0..8.
- Confetti (`triggerConfetti`). It uses random numbers, CSS animation strings and timers. The engine returns the winning line. In the source a win always comes with the confetti call, so a non-empty line stands for it.
- Tooltip placement in `showStep`. It is floating-point pixel arithmetic over the browser's layout API.
- Themes: `changeTheme` and the theme part of `saveSettings`. The theme is an opaque string forwarded to CSS, so `Config` has only the two markers.
- Engine.Game.constructor: the page's initial status text is set in its HTML, which is not part of this model. The constructor starts with the status `Turn(1)`, the text a restart writes.
- Tutorial.Walkthrough.constructor: whether the overlay is shown when the page loads is decided by the HTML. The model starts with it hidden.
- Scenarios: whole games are shown as outcomes on concrete boards. They are not runs of `Game` methods, because proof obligations over concrete string boards under the full method contracts are too costly for the verifier.
