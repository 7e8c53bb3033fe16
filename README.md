# Tic-tac-toe game controller, modelled in Dafny

This project models the game state kept by `GameController` in a Unity
tic-tac-toe game (`Assets/Scripts/GameController.cs`), with every Unity
presentation call removed. What remains is a small state machine:

- `filledSpaces`, nine integer cells in row-major order. A cell holds -100
  while it is empty, 1 once X has filled it and 2 once O has.
- `turnsCounter`, the number of moves played in the current game.
- `turnIndicator`, 0 while X is to move and 1 while O is to move.
- `playerXScore` and `playerOScore`, the wins of each player across games.

A click on a cell writes the mover's mark (`turnIndicator + 1`) and counts the
move. From the fifth move on, `WinCheck` adds up the three cells of each of
eight fixed triples and looks for the first sum equal to three times the
mover's mark. A hit credits the mover with a win. A miss on the ninth move is
announced as a draw. Then the turn passes to the other player. `Rematch`
starts a new game and keeps the scores; `Restart` also zeroes them.

Files:

- `board.dfy`, module `Board`: the cell values, the table of eight triples
  exactly as the controller writes it, the eight sums, and a reference
  definition of a win (`WinningLine`: the first triple of the table that the
  mover holds outright). It also has the counting functions and the lemmas:
  the sum test is equivalent to "all three cells hold the mover's mark", the
  move counter is the number of filled cells, the players alternate, and no
  line can be complete within the first four moves.
- `game_controller.dfy`, module `Controller`: class `GameController` with the
  five fields and the methods `GameSetup`, `TicTacToeSpaceClicked`,
  `WinCheck`, `WinnerDisplay`, `Rematch` and `Restart`. Each method is proved
  against the functions of `Board`. A click returns an `Outcome`
  (`InProgress`, `Win(mark, line)` or `Draw`), which stands for what the
  controller shows on screen. `Judge` says what a click should announce for
  the new board, and `ClickIsJudged` proves the controller announces exactly
  that, although it skips `WinCheck` for the first four moves.
- `grid_lines.dfy`, module `GridLines`: the lines of a 3x3 grid defined
  independently from row and column coordinates, and the finding below.

The controller's integer state is modelled as it is written. The table's
eighth triple is {0,4,6}, as at line 87. A description of the game that lists
the anti-diagonal {2,4,6} as the eighth winning line disagrees with the code
here. The model follows the code and records the difference under Findings.

## Model

| member | source | states |
|---|---|---|
| Board.SumTestIsHeld | Assets/Scripts/GameController.cs:80-91 | when every cell is -100, 1 or 2 and m is 1 or 2, a triple adds up to 3*m exactly when all three of its cells hold m |
| Board.SumsMatchHeld | Assets/Scripts/GameController.cs:80-91 | on a valid board, WinCheck's j-th sum equals three times the mover's mark exactly when the mover holds the j-th triple of the table |
| Board.SolutionsWellFormed | Assets/Scripts/GameController.cs:80-87 | each of the eight triples of the table names three distinct cells of the nine |
| Board.FirstHeld | Assets/Scripts/GameController.cs:89-98 | the result is the first index from i on whose triple the mark holds, or -1 when it holds none of them |
| Board.FirstHeldAt | Assets/Scripts/GameController.cs:89-98 | the first held triple and the absence of earlier ones determine the index of the first held triple |
| Board.FirstMatchingSumIsWinningLine | Assets/Scripts/GameController.cs:88-98 | the first of the eight sums that equals 3*m (or none) picks out the first triple of the table that m holds (or none) |
| Board.CountOf | Assets/Scripts/GameController.cs:19 | a count of cells holding a value never exceeds the number of cells |
| Board.CountUpdate | Assets/Scripts/GameController.cs:51 | overwriting one cell moves that cell from the count of its old value to the count of its new value and changes no other count |
| Board.CountZeroIffAbsent | Assets/Scripts/GameController.cs:56 | a value has count 0 exactly when no cell holds it |
| Board.CountAllOf | Assets/Scripts/GameController.cs:40-43 | a board whose every cell holds v counts all of its cells as v |
| Board.FilledIsXPlusO | Assets/Scripts/GameController.cs:19-21 | on a board of -100, 1 and 2 cells, the number of filled cells is the number of X cells plus the number of O cells |
| Board.FullIffNineFilled | Assets/Scripts/GameController.cs:56 | nine filled cells is the same as no empty cell being left |
| Board.EmptyBoardCounts | Assets/Scripts/GameController.cs:39-43 | the all -100 board is valid and has no filled cell, no X and no O |
| Board.HeldNeedsThree | Assets/Scripts/GameController.cs:53 | to hold a triple of three distinct cells a mark needs at least three cells |
| Board.NoWinWithTwoMarks | Assets/Scripts/GameController.cs:53 | a mark with at most two cells holds no triple of the table |
| Board.PlaceKeepsAlternation | Assets/Scripts/GameController.cs:51-52 | writing turnIndicator + 1 into an empty cell fills one more cell and keeps X and O alternating, with the other side to move |
| Board.NoWinBeforeFifthMove | Assets/Scripts/GameController.cs:53 | after at most four alternating moves neither X nor O holds a triple of the table, so skipping WinCheck loses no win |
| Controller.ClickIsJudged | Assets/Scripts/GameController.cs:53-61 | what a click announces (a win from WinCheck from the fifth move on, else a draw on the ninth move) is the first held line of the new board, else a draw exactly when the board is full, else nothing |
| Controller.GameController.constructor | Assets/Scripts/GameController.cs:19-26 | a new controller has an empty board, X to move, no move counted and both scores 0 |
| Controller.GameController.GameSetup | Assets/Scripts/GameController.cs:28-44 | a fresh nine-cell array with every cell -100, turnsCounter 0 and turnIndicator 0; the scores are unchanged and the board invariant holds |
| Controller.GameController.TicTacToeSpaceClicked | Assets/Scripts/GameController.cs:46-76 | the clicked cell and no other now holds the mover's mark, the counter is one higher, the turn flips even after a win, the announced outcome is Judge of the new board (a draw only on the ninth move), exactly the winner's score goes up by one on a win and no score changes otherwise, and the invariant is kept |
| Controller.GameController.WinCheck | Assets/Scripts/GameController.cs:78-99 | reports a win exactly when the mover holds a triple of the table, returns the index of the first such triple in table order, credits that win to the mover's score only and leaves the board, counter and side to move unchanged |
| Controller.GameController.WinnerDisplay | Assets/Scripts/GameController.cs:101-114 | X's score goes up by one when turnIndicator is 0 and O's otherwise; nothing else changes |
| Controller.GameController.Rematch | Assets/Scripts/GameController.cs:125-133 | a new empty board with X to move and no move counted; both scores unchanged |
| Controller.GameController.Restart | Assets/Scripts/GameController.cs:135-142 | a new empty board with X to move and no move counted, and both scores 0 |
| GridLines.EighthTripleIsNoLine | Assets/Scripts/GameController.cs:80-87 | the first seven triples of the table are lines of the grid, the eighth {0,4,6} is not, and the anti-diagonal {2,4,6} is |
| GridLines.IntendedLineAt | Assets/Scripts/GameController.cs:80-87 | every triple of the corrected table is a line of the grid |
| GridLines.GridLineInTable | Assets/Scripts/GameController.cs:80-87 | every line of the grid (a row, a column or a diagonal) is in the corrected table |
| GridLines.IntendedWinIsGridLine | Assets/Scripts/GameController.cs:89-98 | a win found by the corrected check is on a line of the grid that the mover holds |
| GridLines.GridLineIsIntendedWin | Assets/Scripts/GameController.cs:89-98 | a line of the grid held by the mover is always found by the corrected check |
| GridLines.IntendedWinIffGridLine | Assets/Scripts/GameController.cs:78-98 | the corrected check reports a win exactly when the mover holds all three cells of some line of the grid |
| GridLines.FindingBoardsReachable | Assets/Scripts/GameController.cs:46-52 | both counterexample boards arise from five clicks on empty cells from the empty board, X moving last |
| GridLines.AsWrittenReportsFalseWin | Assets/Scripts/GameController.cs:87-94 | with X on 0, 4, 6 and O on 1, 2 the table as written reports a win on its eighth triple, although X holds no line of the grid |
| GridLines.AsWrittenMissesAntiDiagonal | Assets/Scripts/GameController.cs:87-98 | with X on 2, 4, 6 and O on 0, 1 X holds the anti-diagonal, yet the table as written reports no win and the corrected one reports its eighth line |

## Findings

| source | as written | input that shows it | evidently intended | confidence | as-written member | corrected member |
|---|---|---|---|---|---|---|
| Assets/Scripts/GameController.cs:87 | `solution8` adds cells 0, 4 and 6, which are not a line of the grid | X clicks 0, O 1, X 4, O 2, X 6: the fifth click is reported as a win for X with no three in a row | `solution8` adds cells 2, 4 and 6, the anti-diagonal | high; not executed | GridLines.AsWrittenReportsFalseWin | GridLines.IntendedWinIffGridLine |
| Assets/Scripts/GameController.cs:87 | no triple of the table covers the anti-diagonal 2, 4, 6 | X clicks 2, O 0, X 4, O 1, X 6: X holds the anti-diagonal and no win is reported | `solution8` adds cells 2, 4 and 6, the anti-diagonal | high; not executed | GridLines.AsWrittenMissesAntiDiagonal | GridLines.IntendedWinIffGridLine |

The corrected check is `GridLines.IntendedWinningLine`, which scans
`GridLines.IntendedSolutions`. `GridLines.IntendedWinIffGridLine` proves that
it reports a win exactly when the mover holds a row, a column or a diagonal.
The controller class keeps the table as written, because it models what
the controller does.

## Left out

- All Unity presentation: sprites, `Button.interactable`, `turnIcons`,
  `winningPanel`, `winningLines`, the winner and score texts, and
  `GetComponent`. They are foreign calls with no effect on the integer state.
  The text a click shows is modelled as the returned `Outcome`.
- The `Start` lifecycle hook is engine plumbing. The constructor stands in for
  it: it runs `GameSetup` once, on fields that start at 0 as C# fields do.
- A board size taken from `gridSpaces.Length`. `WinCheck` reads cells 0 to 8
  directly, so the array always has nine cells.
- Controller.GameController.TicTacToeSpaceClicked: requires an empty cell in
  range. Only the button being disabled protects a filled cell in the source.
  For the same reason the model does not stop clicks after a win. In the
  source, `WinnerDisplay` disables every button at that point.
- Controller.GameController.WinnerDisplay: the scores are unbounded integers,
  whereas the C# `int` scores would wrap after 2^31 - 1 wins.
- An opponent that picks moves by search, difficulty levels, random move
  choice, board cloning, and error values for an occupied or out-of-range
  cell. None of these exist in `GameController.cs`.
