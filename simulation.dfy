/** The run of a whole game: the turtle's state, the transition each order
    makes, the log a run produces, and the loop that produces it. */
module TurtleSimulation {
  import opened TurtleTypes
  import opened TurtleRules

  /** What the run loop keeps between orders: the committed position and facing. */
  datatype State = State(pos: Tile, dir: Direction)

  /** The log of a run and the state it ends in. */
  datatype Trace = Trace(log: seq<Record>, final: State)

  /** The state a game starts in. */
  function Start(s: Settings): State {
    State(s.start, s.direction)
  }

  /** One order: a MOVE steps in the current facing and keeps it; a ROTATE
      turns and keeps the position. */
  function Transition(st: State, m: Command, b: Board): (r: State)
    ensures m.Move? ==> r.pos == StepPos(st.pos, st.dir, b) && r.dir == st.dir
    ensures m.Rotate? ==> r.pos == st.pos && r.dir == Rotated(st.dir)
    ensures InBounds(st.pos, b) ==> InBounds(r.pos, b)
  {
    match m
    case Move => State(StepPos(st.pos, st.dir, b), st.dir)
    case Rotate => State(st.pos, Rotated(st.dir))
  }

  /** The state after applying all of the orders, with no evaluation and no
      stopping: the reference the logged positions are compared with. */
  function Replay(st: State, moves: seq<Command>, b: Board): State
    decreases |moves|
  {
    if moves == [] then st else Replay(Transition(st, moves[0], b), moves[1..], b)
  }

  /** The number of ROTATE orders in a list. */
  function Rotations(moves: seq<Command>): nat
    decreases |moves|
  {
    if moves == [] then 0
    else (if moves[0].Rotate? then 1 else 0) + Rotations(moves[1..])
  }

  /** The log of a game: each order in turn is applied, evaluated and
      recorded with the position it leaves the turtle at; the run stops
      right after the first winning order. */
  function Simulate(s: Settings, st: State, moves: seq<Command>): (r: Trace)
    ensures |r.log| <= |moves|
    ensures moves != [] ==> |r.log| > 0
    decreases |moves|
  {
    if moves == [] then Trace([], st)
    else
      var next := Transition(st, moves[0], s.board);
      var eval := Evaluate(s, next.pos, st.pos, moves[0], next.dir);
      var rec := Record(moves[0], eval.message, next.pos);
      if eval.win then Trace([rec], next)
      else
        var rest := Simulate(s, next, moves[1..]);
        Trace([rec] + rest.log, rest.final)
  }

  /** Early termination: only the last record of a log may be a win, and a
      log shorter than its orders ends with one. */
  lemma {:induction false} SimulateStopsAtFirstWin(s: Settings, st: State, moves: seq<Command>)
    ensures var r := Simulate(s, st, moves);
      (forall i | 0 <= i < |r.log| - 1 :: r.log[i].message != FoundExit)
      && (|r.log| < |moves| ==> |r.log| > 0 && r.log[|r.log| - 1].message == FoundExit)
    decreases |moves|
  {
    if moves != [] {
      SimulateStopsAtFirstWin(s, Transition(st, moves[0], s.board), moves[1..]);
    }
  }

  /** The log follows the orders: record i is about order i. */
  lemma {:induction false} SimulateFollowsOrders(s: Settings, st: State, moves: seq<Command>)
    ensures var r := Simulate(s, st, moves);
      forall i | 0 <= i < |r.log| :: r.log[i].move == moves[i]
    decreases |moves|
  {
    if moves != [] {
      SimulateFollowsOrders(s, Transition(st, moves[0], s.board), moves[1..]);
    }
  }

  /** Without a win every order is processed. */
  lemma NoWinProcessesAll(s: Settings, st: State, moves: seq<Command>)
    requires forall i | 0 <= i < |Simulate(s, st, moves).log| ::
      Simulate(s, st, moves).log[i].message != FoundExit
    ensures |Simulate(s, st, moves).log| == |moves|
  {
    SimulateStopsAtFirstWin(s, st, moves);
  }

  /** Each record holds the state reached by replaying the orders up to and
      including its own, with the message Evaluate gives for that step; the
      final state is the replay of exactly the processed orders, so no order
      after a win is applied. */
  lemma {:induction false} SimulateMatchesReplay(s: Settings, st: State, moves: seq<Command>)
    ensures var r := Simulate(s, st, moves);
      r.final == Replay(st, moves[..|r.log|], s.board)
      && forall i | 0 <= i < |r.log| ::
           var before := Replay(st, moves[..i], s.board);
           var after := Replay(st, moves[..i + 1], s.board);
           r.log[i].position == after.pos
           && r.log[i].message == Evaluate(s, after.pos, before.pos, moves[i], after.dir).message
    decreases |moves|
  {
    if moves != [] {
      var next := Transition(st, moves[0], s.board);
      var r := Simulate(s, st, moves);
      var rest := Simulate(s, next, moves[1..]);
      SimulateMatchesReplay(s, next, moves[1..]);
      forall i | 0 <= i <= |r.log|
        ensures i > 0 ==> Replay(st, moves[..i], s.board) == Replay(next, moves[1..][..i - 1], s.board)
      {
        if i > 0 {
          assert moves[..i][1..] == moves[1..][..i - 1];
        }
      }
      assert Replay(st, moves[..0], s.board) == st;
    }
  }

  /** A game that starts on the board stays on the board, in every record. */
  lemma {:induction false} ReplayInBounds(st: State, moves: seq<Command>, b: Board)
    requires InBounds(st.pos, b)
    ensures InBounds(Replay(st, moves, b).pos, b)
    decreases |moves|
  {
    if moves != [] {
      ReplayInBounds(Transition(st, moves[0], b), moves[1..], b);
    }
  }

  /** Every logged position and the final position lie on the board when
      the start does. */
  lemma SimulateInBounds(s: Settings, st: State, moves: seq<Command>)
    requires InBounds(st.pos, s.board)
    ensures var r := Simulate(s, st, moves);
      InBounds(r.final.pos, s.board)
      && forall i | 0 <= i < |r.log| :: InBounds(r.log[i].position, s.board)
  {
    var r := Simulate(s, st, moves);
    SimulateMatchesReplay(s, st, moves);
    ReplayInBounds(st, moves[..|r.log|], s.board);
    forall i | 0 <= i < |r.log|
      ensures InBounds(r.log[i].position, s.board)
    {
      ReplayInBounds(st, moves[..i + 1], s.board);
    }
  }

  /** The facing only changes on ROTATE: after a list of orders it is the
      start facing turned once per ROTATE among them. */
  lemma {:induction false} ReplayFacing(st: State, moves: seq<Command>, b: Board)
    ensures Replay(st, moves, b).dir == RotateN(st.dir, Rotations(moves))
    decreases |moves|
  {
    if moves != [] {
      ReplayFacing(Transition(st, moves[0], b), moves[1..], b);
    }
  }

  /** Orders queued after a winning prefix are never looked at. */
  lemma {:induction false} SimulateIgnoresAfterWin(s: Settings, st: State, moves: seq<Command>, more: seq<Command>)
    requires var r := Simulate(s, st, moves);
      |r.log| > 0 && r.log[|r.log| - 1].message == FoundExit
    ensures Simulate(s, st, moves + more) == Simulate(s, st, moves)
    decreases |moves|
  {
    var next := Transition(st, moves[0], s.board);
    var eval := Evaluate(s, next.pos, st.pos, moves[0], next.dir);
    assert (moves + more)[0] == moves[0];
    if !eval.win {
      assert (moves + more)[1..] == moves[1..] + more;
      SimulateIgnoresAfterWin(s, next, moves[1..], more);
    }
  }

  /** A log already written, followed by the trace of the rest of the run. */
  function Prepend(log: seq<Record>, t: Trace): Trace {
    Trace(log + t.log, t.final)
  }

  /** Writing a record and then the rest is writing both after the log. */
  lemma PrependAppend(log: seq<Record>, rec: Record, t: Trace)
    ensures Prepend(log, Prepend([rec], t)) == Prepend(log + [rec], t)
  {
    assert log + ([rec] + t.log) == (log + [rec]) + t.log;
  }

  /** One step of Simulate: the record of the first order, then either the
      end of the run (on a win) or the run of the remaining orders. */
  lemma SimulateStep(s: Settings, st: State, moves: seq<Command>, next: State, eval: Evaluation)
    requires moves != []
    requires next == Transition(st, moves[0], s.board)
    requires eval == Evaluate(s, next.pos, st.pos, moves[0], next.dir)
    ensures var rec := Record(moves[0], eval.message, next.pos);
      Simulate(s, st, moves) ==
        if eval.win then Trace([rec], next) else Prepend([rec], Simulate(s, next, moves[1..]))
  {
  }

  /** The turtle: its current position and facing, updated in place. */
  class Turtle {
    var pos: Tile
    var dir: Direction

    constructor (start: Tile, facing: Direction)
      ensures pos == start && dir == facing
    {
      pos := start;
      dir := facing;
    }

    /** The state the turtle is in. */
    function Current(): State
      reads this
    {
      State(pos, dir)
    }

    /** A MOVE: the one coordinate along the facing is changed in place
        unless the turtle is at the edge it faces. */
    method Advance(b: Board)
      modifies this
      ensures pos == StepPos(old(pos), old(dir), b) && dir == old(dir)
    {
      match dir
      case North => pos := pos.(y := if pos.y != b.maxY then pos.y + 1 else pos.y);
      case East => pos := pos.(x := if pos.x != 0 then pos.x - 1 else pos.x);
      case South => pos := pos.(y := if pos.y != 0 then pos.y - 1 else pos.y);
      case West => pos := pos.(x := if pos.x != b.maxX then pos.x + 1 else pos.x);
    }

    /** A ROTATE: the next enumeration value, EAST wrapping to NORTH. */
    method Turn()
      modifies this
      ensures dir == Rotated(old(dir)) && pos == old(pos)
    {
      var c := Code(dir);
      dir := if c != 4 then FromCode(c + 1) else North;
    }

    /** The loop of a game: apply the orders in turn from the current state,
        log each one, and stop after the first win. */
    method Play(s: Settings, moves: seq<Command>) returns (log: seq<Record>)
      modifies this
      ensures Trace(log, Current()) == Simulate(s, old(Current()), moves)
    {
      log := [];
      var won := false;
      var i := 0;
      ghost var whole := Simulate(s, Current(), moves);
      while i < |moves| && !won
        invariant 0 <= i <= |moves|
        invariant won ==> whole == Trace(log, Current())
        invariant !won ==> whole == Prepend(log, Simulate(s, Current(), moves[i..]))
        decreases |moves| - i
      {
        var m := moves[i];
        var current := pos;
        ghost var before := Current();
        match m {
          case Move => Advance(s.board);
          case Rotate => Turn();
        }
        var eval := Evaluate(s, pos, current, m, dir);
        var rec := Record(m, eval.message, pos);
        assert moves[i..][0] == m && moves[i..][1..] == moves[i + 1..];
        RunStep(s, whole, log, moves[i..], before, Current(), eval);
        log := log + [rec];
        won := eval.win;
        i := i + 1;
      }
      assert !won ==> moves[i..] == [];
    }
  }

  /** One pass of Run's loop: if a game is the written log followed by the
      game of the remaining orders, then after the next order it is the
      longer log followed by the game of the rest, or just that log on a win. */
  lemma RunStep(s: Settings, whole: Trace, log: seq<Record>, rest: seq<Command>,
                before: State, next: State, eval: Evaluation)
    requires rest != []
    requires whole == Prepend(log, Simulate(s, before, rest))
    requires next == Transition(before, rest[0], s.board)
    requires eval == Evaluate(s, next.pos, before.pos, rest[0], next.dir)
    ensures var written := log + [Record(rest[0], eval.message, next.pos)];
      if eval.win then whole == Trace(written, next)
      else whole == Prepend(written, Simulate(s, next, rest[1..]))
  {
    var rec := Record(rest[0], eval.message, next.pos);
    SimulateStep(s, before, rest, next, eval);
    if !eval.win {
      PrependAppend(log, rec, Simulate(s, next, rest[1..]));
    }
  }

  /** The shape of a game's log, restated for the values Run returns. */
  lemma RunShape(s: Settings, moves: seq<Command>, log: seq<Record>, final: State)
    requires Trace(log, final) == Simulate(s, Start(s), moves)
    ensures |log| <= |moves|
    ensures forall i | 0 <= i < |log| :: log[i].move == moves[i]
    ensures forall i | 0 <= i < |log| - 1 :: log[i].message != FoundExit
    ensures |log| < |moves| ==> |log| > 0 && log[|log| - 1].message == FoundExit
  {
    SimulateStopsAtFirstWin(s, Start(s), moves);
    SimulateFollowsOrders(s, Start(s), moves);
    assert log == Simulate(s, Start(s), moves).log;
  }

  /** The bounds of a game's log, restated for the values Run returns. */
  lemma RunInBounds(s: Settings, moves: seq<Command>, log: seq<Record>, final: State)
    requires Trace(log, final) == Simulate(s, Start(s), moves)
    requires InBounds(s.start, s.board)
    ensures InBounds(final.pos, s.board)
    ensures forall i | 0 <= i < |log| :: InBounds(log[i].position, s.board)
  {
    SimulateInBounds(s, Start(s), moves);
  }

  /** Play a game: start from the settings, apply the orders in turn, log
      each one, and stop after the first win. Returns the log and the state
      the turtle is left in. */
  method Run(s: Settings, moves: seq<Command>) returns (log: seq<Record>, final: State)
    ensures Trace(log, final) == Simulate(s, Start(s), moves)
    ensures |log| <= |moves|
    ensures forall i | 0 <= i < |log| :: log[i].move == moves[i]
    ensures forall i | 0 <= i < |log| - 1 :: log[i].message != FoundExit
    ensures |log| < |moves| ==> |log| > 0 && log[|log| - 1].message == FoundExit
    ensures moves == [] ==> log == [] && final == Start(s)
    ensures InBounds(s.start, s.board) ==>
      InBounds(final.pos, s.board) && forall i | 0 <= i < |log| :: InBounds(log[i].position, s.board)
  {
    var turtle := new Turtle(s.start, s.direction);
    log := turtle.Play(s, moves);
    final := turtle.Current();
    RunShape(s, moves, log, final);
    if InBounds(s.start, s.board) {
      RunInBounds(s, moves, log, final);
    }
  }

  /** A sample game on a 5 x 5 board that reaches the exit: the first MOVE
      lands on a mine and the game goes on; after the win the last MOVE is
      not processed. */
  lemma WinningScenario()
    ensures var s := Settings(Tile(0, 0), Tile(2, 2), [Tile(0, 1)], North, Board(4, 4));
      Simulate(s, Start(s), [Move, Move, Rotate, Move, Move, Move]) ==
        Trace([Record(Move, HitMine, Tile(0, 1)),
               Record(Move, Success, Tile(0, 2)),
               Record(Rotate, Success, Tile(0, 2)),
               Record(Move, Success, Tile(1, 2)),
               Record(Move, FoundExit, Tile(2, 2))],
              State(Tile(2, 2), West))
  {
    var s := Settings(Tile(0, 0), Tile(2, 2), [Tile(0, 1)], North, Board(4, 4));
    var moves := [Move, Move, Rotate, Move, Move, Move];
    var st0, st1, st2 := Start(s), State(Tile(0, 1), North), State(Tile(0, 2), North);
    var st3, st4, st5 := State(Tile(0, 2), West), State(Tile(1, 2), West), State(Tile(2, 2), West);
    SimulateStep(s, st4, moves[4..], st5, Evaluation(true, FoundExit));
    SimulateStep(s, st3, moves[3..], st4, Evaluation(false, Success));
    assert moves[3..][1..] == moves[4..];
    SimulateStep(s, st2, moves[2..], st3, Evaluation(false, Success));
    assert moves[2..][1..] == moves[3..];
    SimulateStep(s, st1, moves[1..], st2, Evaluation(false, Success));
    assert moves[1..][1..] == moves[2..];
    SimulateStep(s, st0, moves, st1, Evaluation(false, HitMine));
  }

  /** The orders MOVE, MOVE, MOVE, ROTATE, MOVE, MOVE from the same start
      never reach the exit (2, 2): the turn from NORTH faces WEST, which
      raises x along row 3. All six orders are processed. */
  lemma ScenarioWithoutWin()
    ensures var s := Settings(Tile(0, 0), Tile(2, 2), [Tile(0, 1)], North, Board(4, 4));
      Simulate(s, Start(s), [Move, Move, Move, Rotate, Move, Move]) ==
        Trace([Record(Move, HitMine, Tile(0, 1)),
               Record(Move, Success, Tile(0, 2)),
               Record(Move, Success, Tile(0, 3)),
               Record(Rotate, Success, Tile(0, 3)),
               Record(Move, Success, Tile(1, 3)),
               Record(Move, Success, Tile(2, 3))],
              State(Tile(2, 3), West))
  {
    var s := Settings(Tile(0, 0), Tile(2, 2), [Tile(0, 1)], North, Board(4, 4));
    var moves := [Move, Move, Move, Rotate, Move, Move];
    var st0, st1, st2 := Start(s), State(Tile(0, 1), North), State(Tile(0, 2), North);
    var st3, st4 := State(Tile(0, 3), North), State(Tile(0, 3), West);
    var st5, st6 := State(Tile(1, 3), West), State(Tile(2, 3), West);
    SimulateStep(s, st5, moves[5..], st6, Evaluation(false, Success));
    assert moves[5..][1..] == [];
    SimulateStep(s, st4, moves[4..], st5, Evaluation(false, Success));
    assert moves[4..][1..] == moves[5..];
    SimulateStep(s, st3, moves[3..], st4, Evaluation(false, Success));
    assert moves[3..][1..] == moves[4..];
    SimulateStep(s, st2, moves[2..], st3, Evaluation(false, Success));
    assert moves[2..][1..] == moves[3..];
    SimulateStep(s, st1, moves[1..], st2, Evaluation(false, Success));
    assert moves[1..][1..] == moves[2..];
    SimulateStep(s, st0, moves, st1, Evaluation(false, HitMine));
  }

  /** With the same board, a turn from NORTH to WEST with a mine to the west
      is reported as "Still in danger" and does not move the turtle. */
  lemma DangerScenario()
    ensures var s := Settings(Tile(0, 0), Tile(4, 4), [Tile(1, 0)], North, Board(4, 4));
      Simulate(s, Start(s), [Rotate]) ==
        Trace([Record(Rotate, StillInDanger, Tile(0, 0))], State(Tile(0, 0), West))
  {
  }

  /** A MOVE north from the top edge leaves the turtle in place and, with no
      exit or mine there, is a success. */
  lemma EdgeScenario()
    ensures var s := Settings(Tile(0, 4), Tile(2, 2), [], North, Board(4, 4));
      Simulate(s, Start(s), [Move]) ==
        Trace([Record(Move, Success, Tile(0, 4))], State(Tile(0, 4), North))
  {
  }
}
