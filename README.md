# Turtle challenge: a verified model of the move simulator

The turtle challenge replays a scripted list of orders for a turtle on a
rectangular board. The settings give the board's inclusive bounds `MaxX`,
`MaxY`, a starting tile and facing, an exit tile and a list of mine tiles.
Each order is `MOVE` (one tile ahead, or no change at the edge the turtle
faces) or `ROTATE` (the next facing in the enumeration order NORTH → WEST →
SOUTH → EAST → NORTH). After every order the program logs one line: the
order, a message and the turtle's position. The message is chosen in a
fixed order: the exit ("You found the exit point! YOU WIN!"), then a mine
on the new tile ("You have hit a mine"), then, for a `ROTATE` only, a mine
one tile ahead in the new facing ("Still in danger"), and otherwise
"Success!". Only the exit ends the game. A mine is logged and the game goes on.

The project has three modules:

- `TurtleTypes` (`types.dfy`) holds the values: `Tile`, `Board`, `Settings`,
  `Direction` (with its enumeration values) and `Command` (the two orders),
  `Message`, `Evaluation` and `Record` (one log line).
- `TurtleRules` (`rules.dfy`) holds the rules of one order as pure functions:
  `StepPos` (a `MOVE`), `Rotated` (a `ROTATE`), `Danger` (the look-ahead after
  a turn) and `Evaluate` (the message and the win flag). Each is proved
  against an independent reference: a direction → axis-step table `Delta` and
  the unclamped neighbour `Ahead`; the numeric cycle of the enumeration; and
  membership of a tile in the mine list.
- `TurtleSimulation` (`simulation.dfy`) holds the run. `Simulate` is the
  specification of a game's log. `Replay` applies orders with no evaluation and
  no stopping, and the lemmas tie the log to it. The class `Turtle` holds the
  mutable position and facing. `Turtle.Play` is the loop: it applies the orders
  in turn to the turtle in place, logs each one and stops after the first win.
  `Run` creates the turtle from the settings and plays the orders. Both are
  proved to return exactly `Simulate`'s log and final state.

In the program, a tile is an object passed by reference. `GetPositionFromMove`
changes the caller's tile in place, so the "new" and "current" positions of a
`MOVE` are the same object, and so is the settings' starting tile. The model
treats tiles as values. The visible results are the same. The exit and the
mines are separate objects that are never changed. The only place the old
position is read after a move is the danger check, and that check runs only
for a `ROTATE`, where the position does not change.

The program's edge test compares with `!=`, not `<`/`>`. So "a `MOVE` never
leaves the board" holds only for a turtle that starts on the board, and the
bounds results carry that precondition (`StepFromOffBoard` shows a turtle off
the board walking further away). The orders MOVE, MOVE, MOVE, ROTATE, MOVE,
MOVE from (0, 0) facing NORTH do not reach the exit (2, 2): the turn faces
WEST, which raises x along row 3, so the turtle ends at (2, 3)
(`ScenarioWithoutWin`). `WinningScenario` shows an order list that does win.

## Model

| member | source | states |
|---|---|---|
| TurtleTypes.Code | TurtleChallenge/TurtleChallenge/Program.cs:250-256 | the enumeration value of each facing lies in 1..4 |
| TurtleTypes.FromCode | TurtleChallenge/TurtleChallenge/Program.cs:250-256 | every value in 1..4 names the facing whose code it is |
| TurtleTypes.CodeRoundTrip | TurtleChallenge/TurtleChallenge/Program.cs:250-256 | code and facing are in one-to-one correspondence |
| TurtleTypes.Text | TurtleChallenge/TurtleChallenge/Program.cs:176-199 | each outcome is written with its own non-empty text |
| TurtleTypes.TextInjective | TurtleChallenge/TurtleChallenge/Program.cs:181-198 | distinct outcomes have distinct texts, so a log line identifies its outcome |
| TurtleRules.Delta | TurtleChallenge/TurtleChallenge/Program.cs:120-131 | each facing moves along exactly one axis, by one |
| TurtleRules.Ahead | TurtleChallenge/TurtleChallenge/Program.cs:147-161 | the tile ahead differs from the current one in exactly one coordinate, by exactly one |
| TurtleRules.StepPos | TurtleChallenge/TurtleChallenge/Program.cs:116-134 | a MOVE goes to the tile ahead unless the turtle is on the edge it faces, where it stays; from a tile on the board it stays on the board |
| TurtleRules.StepIsUnitOrStay | TurtleChallenge/TurtleChallenge/Program.cs:120-131 | a MOVE changes nothing at the edge it faces, and otherwise gives exactly: NORTH (x, y+1), EAST (x-1, y), SOUTH (x, y-1), WEST (x+1, y) |
| TurtleRules.StepFromOffBoard | TurtleChallenge/TurtleChallenge/Program.cs:121-130 | the `!=` edge test lets a turtle that starts off the board move further off, so the bounds result needs its precondition |
| TurtleRules.Rotated | TurtleChallenge/TurtleChallenge/Program.cs:93 | a ROTATE always changes the facing, to the next enumeration value, with EAST (4) wrapping to NORTH (1) |
| TurtleRules.RotateCycle | TurtleChallenge/TurtleChallenge/Program.cs:93 | the turns go NORTH → WEST → SOUTH → EAST → NORTH |
| TurtleRules.RotateInjective | TurtleChallenge/TurtleChallenge/Program.cs:93 | two facings that turn to the same facing are equal |
| TurtleRules.RotateNAdd | TurtleChallenge/TurtleChallenge/Program.cs:93 | a turns followed by k turns give the same facing as a + k turns |
| TurtleRules.FourRotations | TurtleChallenge/TurtleChallenge/Program.cs:93 | four turns return the original facing |
| TurtleRules.RotateNPeriod | TurtleChallenge/TurtleChallenge/Program.cs:93 | n turns equal n mod 4 turns, and return the original facing exactly when n is a multiple of 4 |
| TurtleRules.Danger | TurtleChallenge/TurtleChallenge/Program.cs:144-163 | danger holds exactly when some mine lies on the unclamped tile ahead in the given facing |
| TurtleRules.Evaluate | TurtleChallenge/TurtleChallenge/Program.cs:174-200 | win exactly on the exit; the exit message exactly on the exit; the mine message exactly on a mine that is not the exit; "Still in danger" exactly for a ROTATE off exit and mines with a mine ahead; "Success!" in every other case |
| TurtleRules.ExitBeatsMine | TurtleChallenge/TurtleChallenge/Program.cs:178-183 | reaching an exit that is also a mine wins |
| TurtleRules.MoveNeverInDanger | TurtleChallenge/TurtleChallenge/Program.cs:189-196 | a MOVE is never reported as "Still in danger" |
| TurtleSimulation.Transition | TurtleChallenge/TurtleChallenge/Program.cs:87-96 | a MOVE goes to the position StepPos gives and keeps the facing; a ROTATE keeps the position and turns; a state on the board stays on it |
| TurtleSimulation.Simulate | TurtleChallenge/TurtleChallenge/Program.cs:82-104 | a game logs at most one record per order, and at least one when there is an order |
| TurtleSimulation.SimulateFollowsOrders | TurtleChallenge/TurtleChallenge/Program.cs:82-86 | record i is about order i, so the orders are processed in input order |
| TurtleSimulation.SimulateStopsAtFirstWin | TurtleChallenge/TurtleChallenge/Program.cs:98-103 | only the last record can be a win, and a log shorter than the order list ends with a win |
| TurtleSimulation.NoWinProcessesAll | TurtleChallenge/TurtleChallenge/Program.cs:82-104 | a game without a win logs every order |
| TurtleSimulation.SimulateMatchesReplay | TurtleChallenge/TurtleChallenge/Program.cs:84-101 | record i holds the position reached by applying orders 0..i, with the message evaluated from the states before and after order i; the final state applies exactly the logged orders |
| TurtleSimulation.SimulateIgnoresAfterWin | TurtleChallenge/TurtleChallenge/Program.cs:103 | orders queued after a win change nothing in the log or final state |
| TurtleSimulation.ReplayInBounds | TurtleChallenge/TurtleChallenge/Program.cs:90-94 | from a tile on the board, any list of orders keeps the turtle on the board |
| TurtleSimulation.SimulateInBounds | TurtleChallenge/TurtleChallenge/Program.cs:99-101 | from a tile on the board, every logged position and the final position are on the board |
| TurtleSimulation.ReplayFacing | TurtleChallenge/TurtleChallenge/Program.cs:93 | the facing after a list of orders is the start facing turned once per ROTATE in it |
| TurtleSimulation.Turtle.constructor | TurtleChallenge/TurtleChallenge/Program.cs:79-80 | the turtle starts at the settings' tile and facing |
| TurtleSimulation.Turtle.Advance | TurtleChallenge/TurtleChallenge/Program.cs:116-134 | the in-place MOVE leaves the turtle where StepPos says and keeps its facing |
| TurtleSimulation.Turtle.Turn | TurtleChallenge/TurtleChallenge/Program.cs:93 | the in-place ROTATE turns the facing as Rotated says and keeps the position |
| TurtleSimulation.Turtle.Play | TurtleChallenge/TurtleChallenge/Program.cs:82-104 | the loop, updating the turtle in place, returns the log Simulate gives from the turtle's state on entry and leaves the turtle in Simulate's final state |
| TurtleSimulation.RunShape | TurtleChallenge/TurtleChallenge/Program.cs:82-104 | a log equal to Simulate's follows the orders, is no longer than them, and stops at its first win |
| TurtleSimulation.RunInBounds | TurtleChallenge/TurtleChallenge/Program.cs:99-101 | a log equal to Simulate's from a tile on the board has all its positions on the board |
| TurtleSimulation.Run | TurtleChallenge/TurtleChallenge/Program.cs:79-104 | the loop returns Simulate's log and final state: one record per processed order in input order, a stop right after the first win, every order processed without a win, an empty log and the start state for no orders, and positions on the board when the start is |
| TurtleSimulation.WinningScenario | TurtleChallenge/TurtleChallenge/Program.cs:82-104 | on a 5 x 5 board, a mine hit does not end the game, the exit does, and the order after it is not processed |
| TurtleSimulation.ScenarioWithoutWin | TurtleChallenge/TurtleChallenge/Program.cs:82-104 | the orders MOVE, MOVE, MOVE, ROTATE, MOVE, MOVE from (0, 0) facing NORTH end at (2, 3) without reaching the exit (2, 2) |
| TurtleSimulation.DangerScenario | TurtleChallenge/TurtleChallenge/Program.cs:189-196 | a turn from NORTH to WEST with a mine to the west is "Still in danger" and leaves the turtle in place |
| TurtleSimulation.EdgeScenario | TurtleChallenge/TurtleChallenge/Program.cs:120-121 | a MOVE north on the top edge leaves the turtle in place and is a success |

## Left out

- Reading the settings file and the moves file, JSON deserialisation and `Enum.Parse` of the comma-separated orders (Program.cs:37-64): I/O and library calls. The model starts from parsed `Settings` and a `seq<Command>`.
- Writing the log file: the header line with the board and the mines (Program.cs:66-77), the formatting of each line (Program.cs:101) and `Console.WriteLine`. These are I/O and string formatting. A log line is a `Record` holding the order, a `Message` tag (its text is `Text`) and the position.
- `Main` and the construction of file paths from the current directory (Program.cs:13-25): plumbing.
- Orders outside the two named ones: `Enum.Parse` also accepts a numeric token such as `3`. No case of the order switch (Program.cs:87-96) matches it, so the program moves the turtle to the fresh tile (0, 0) it created for the new position (Program.cs:84, :99). `Command` has only MOVE and ROTATE.
- Enumeration values outside 1..4 for the facing (the JSON reader accepts any integer). `Direction` has only the four named values.
- Missing fields in the settings file, which make the program fail with a null reference: the model's settings always have every field.
- Danger: uses unbounded integers for the tile ahead. The program's 32-bit look-ahead wraps. `X + 1`/`Y + 1` (WEST, NORTH) wraps when the turtle stands at `int.MaxValue`, which an on-board turtle reaches only when `MaxX` or `MaxY` is `int.MaxValue`; a mine at `int.MinValue` then makes the program report "Still in danger" where the model reports "Success!". `X - 1`/`Y - 1` (EAST, SOUTH) wraps only from a position at `int.MinValue`, which is off the board.
- StepPos: uses unbounded integers. From a tile on the board the program's 32-bit step cannot overflow. Only a turtle off the board at `int.MaxValue` or `int.MinValue` could wrap.
- Update in place of a shared tile object: tiles are values (see above for why the results are the same).
- TurtleChallenge/PowerRanger/Program.cs is not part of this model. It is a separate counting program built on floating-point roots.
