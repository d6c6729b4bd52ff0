/** The rules of a single move: where a MOVE takes the turtle, how a ROTATE
    turns it, the look-ahead for mines after a turn, and the classification
    of the outcome. */
module TurtleRules {
  import opened TurtleTypes

  /** The turtle is on the board. */
  predicate InBounds(p: Tile, b: Board) {
    0 <= p.x <= b.maxX && 0 <= p.y <= b.maxY
  }

  /** The axis step of each facing, as a table: NORTH raises y, SOUTH lowers
      it, WEST raises x and EAST lowers it. */
  function Delta(d: Direction): (r: (int, int))
    ensures (r.0 == 0) != (r.1 == 0)
    ensures -1 <= r.0 <= 1 && -1 <= r.1 <= 1
  {
    match d
    case North => (0, 1)
    case West => (1, 0)
    case South => (0, -1)
    case East => (-1, 0)
  }

  /** The tile one step ahead, without regard to the board. */
  function Ahead(p: Tile, d: Direction): (r: Tile)
    ensures (r.x == p.x && (r.y == p.y + 1 || r.y == p.y - 1))
         || (r.y == p.y && (r.x == p.x + 1 || r.x == p.x - 1))
  {
    Tile(p.x + Delta(d).0, p.y + Delta(d).1)
  }

  /** The turtle stands on the edge it faces. The program tests the edge with
      equality, so a turtle outside the board is never at an edge. */
  predicate AtEdge(p: Tile, d: Direction, b: Board) {
    match d
    case North => p.y == b.maxY
    case West => p.x == b.maxX
    case South => p.y == 0
    case East => p.x == 0
  }

  /** The position after a MOVE: one step ahead, or no change at the edge
      the turtle faces. From a tile on the board it never leaves the board. */
  function StepPos(p: Tile, d: Direction, b: Board): (r: Tile)
    ensures r == if AtEdge(p, d, b) then p else Ahead(p, d)
    ensures InBounds(p, b) ==> InBounds(r, b)
  {
    match d
    case North => p.(y := if p.y != b.maxY then p.y + 1 else p.y)
    case East => p.(x := if p.x != 0 then p.x - 1 else p.x)
    case South => p.(y := if p.y != 0 then p.y - 1 else p.y)
    case West => p.(x := if p.x != b.maxX then p.x + 1 else p.x)
  }

  /** A MOVE changes nothing at the edge the turtle faces, and otherwise
      exactly one coordinate by exactly one: NORTH y + 1, EAST x - 1,
      SOUTH y - 1, WEST x + 1. */
  lemma StepIsUnitOrStay(p: Tile, d: Direction, b: Board)
    ensures AtEdge(p, d, b) ==> StepPos(p, d, b) == p
    ensures !AtEdge(p, d, b) && d == North ==> StepPos(p, d, b) == Tile(p.x, p.y + 1)
    ensures !AtEdge(p, d, b) && d == East ==> StepPos(p, d, b) == Tile(p.x - 1, p.y)
    ensures !AtEdge(p, d, b) && d == South ==> StepPos(p, d, b) == Tile(p.x, p.y - 1)
    ensures !AtEdge(p, d, b) && d == West ==> StepPos(p, d, b) == Tile(p.x + 1, p.y)
  {
  }

  /** Without the in-bounds precondition the edge test lets a turtle that
      starts off the board walk further away. */
  lemma StepFromOffBoard()
    ensures var b := Board(4, 4);
      !InBounds(Tile(5, 0), b) && StepPos(Tile(5, 0), West, b) == Tile(6, 0)
  {
  }

  /** A ROTATE: the next enumeration value, wrapping from EAST (4) to NORTH (1). */
  function Rotated(d: Direction): (r: Direction)
    ensures r != d
    ensures Code(r) == Code(d) % 4 + 1
  {
    FromCode(if Code(d) != 4 then Code(d) + 1 else Code(North))
  }

  /** The rotation cycle is NORTH -> WEST -> SOUTH -> EAST -> NORTH, which
      is not compass order: a turn from NORTH faces WEST. */
  lemma RotateCycle()
    ensures Rotated(North) == West && Rotated(West) == South
    ensures Rotated(South) == East && Rotated(East) == North
  {
  }

  /** Distinct facings rotate to distinct facings. */
  lemma RotateInjective(a: Direction, c: Direction)
    requires Rotated(a) == Rotated(c)
    ensures a == c
  {
    CodeRoundTrip(a);
    CodeRoundTrip(c);
  }

  /** The facing after n rotations. */
  function RotateN(d: Direction, n: nat): Direction
    decreases n
  {
    if n == 0 then d else RotateN(Rotated(d), n - 1)
  }

  /** Rotations compose: a turns followed by k turns are a + k turns. */
  lemma {:induction false} RotateNAdd(d: Direction, a: nat, k: nat)
    ensures RotateN(RotateN(d, a), k) == RotateN(d, a + k)
    decreases a
  {
    if a > 0 {
      RotateNAdd(Rotated(d), a - 1, k);
    }
  }

  /** Four rotations return the original facing. */
  lemma FourRotations(d: Direction)
    ensures Rotated(Rotated(Rotated(Rotated(d)))) == d
    ensures RotateN(d, 4) == d
  {
  }

  /** Rotation is periodic with period four, and with no shorter period. */
  lemma {:induction false} RotateNPeriod(d: Direction, n: nat)
    ensures RotateN(d, n) == RotateN(d, n % 4)
    ensures RotateN(d, n) == d <==> n % 4 == 0
    decreases n
  {
    if n >= 4 {
      RotateNPeriod(d, n - 4);
      FourRotations(d);
      RotateNAdd(d, 4, n - 4);
    }
    var k := n % 4;
    if k == 1 {
      assert RotateN(d, 1) == Rotated(d);
    } else if k == 2 {
      assert RotateN(d, 2) == Rotated(Rotated(d));
    } else if k == 3 {
      assert RotateN(d, 3) == Rotated(Rotated(Rotated(d)));
    }
  }

  /** After a turn: some mine lies one unclamped step ahead in the new facing
      of the unchanged position. Each facing tests its own axis, as the
      program's switch does. */
  function Danger(mines: seq<Tile>, d: Direction, p: Tile): (r: bool)
    ensures r <==> Ahead(p, d) in mines
  {
    match d
    case North => exists i | 0 <= i < |mines| :: mines[i].y == p.y + 1 && mines[i].x == p.x
    case East => exists i | 0 <= i < |mines| :: mines[i].x == p.x - 1 && mines[i].y == p.y
    case South => exists i | 0 <= i < |mines| :: mines[i].y == p.y - 1 && mines[i].x == p.x
    case West => exists i | 0 <= i < |mines| :: mines[i].x == p.x + 1 && mines[i].y == p.y
  }

  /** The outcome of one move, checked in a fixed order: the exit first, then
      a mine on the new tile, then (for a ROTATE only) a mine ahead, and
      otherwise success. Only reaching the exit sets the win flag. */
  function Evaluate(s: Settings, newPos: Tile, cur: Tile, m: Command, dir: Direction): (r: Evaluation)
    ensures r.win <==> newPos == s.exit
    ensures r.message == FoundExit <==> newPos == s.exit
    ensures r.message == HitMine <==> newPos != s.exit && newPos in s.mines
    ensures r.message == StillInDanger <==>
      newPos != s.exit && newPos !in s.mines && m.Rotate? && Ahead(cur, dir) in s.mines
    ensures r.message == Success <==>
      newPos != s.exit && newPos !in s.mines && (m.Move? || Ahead(cur, dir) !in s.mines)
  {
    if newPos.x == s.exit.x && newPos.y == s.exit.y then
      Evaluation(true, FoundExit)
    else if exists i | 0 <= i < |s.mines| :: s.mines[i].x == newPos.x && s.mines[i].y == newPos.y then
      Evaluation(false, HitMine)
    else if m.Rotate? && Danger(s.mines, dir, cur) then
      Evaluation(false, StillInDanger)
    else
      Evaluation(false, Success)
  }

  /** The exit wins even when a mine lies on the same tile. */
  lemma ExitBeatsMine(s: Settings, cur: Tile, m: Command, dir: Direction)
    requires s.exit in s.mines
    ensures Evaluate(s, s.exit, cur, m, dir) == Evaluation(true, FoundExit)
  {
  }

  /** A MOVE is never reported as "Still in danger". */
  lemma MoveNeverInDanger(s: Settings, newPos: Tile, cur: Tile, dir: Direction)
    ensures Evaluate(s, newPos, cur, Move, dir).message != StillInDanger
  {
  }
}
