/** The values the turtle challenge works on: tiles, the board, the settings
    of one game, the two enumerations and the outcome of one evaluated move. */
module TurtleTypes {

  /** A grid coordinate. The program's Tile is a mutable object passed by
      reference; here it is a value (see README for why this is equivalent). */
  datatype Tile = Tile(x: int, y: int)

  /** Inclusive upper bounds of a zero-based grid. */
  datatype Board = Board(maxX: int, maxY: int)

  /** The facing of the turtle; the enumeration values are given by Code. */
  datatype Direction = North | West | South | East

  /** The two kinds of order in a moves file. */
  datatype Command = Move | Rotate

  /** Everything read from the settings file. Mines are a list: order is
      irrelevant and duplicates are allowed. */
  datatype Settings = Settings(
    start: Tile,
    exit: Tile,
    mines: seq<Tile>,
    direction: Direction,
    board: Board)

  /** The four messages a move can be logged with. */
  datatype Message = FoundExit | HitMine | StillInDanger | Success

  /** The result of evaluating one move: the win flag and the message. */
  datatype Evaluation = Evaluation(win: bool, message: Message)

  /** One line of the log: the order, its message and the position after it. */
  datatype Record = Record(move: Command, message: Message, position: Tile)

  /** The enumeration value of a direction: NORTH = 1, WEST = 2, SOUTH = 3, EAST = 4. */
  function Code(d: Direction): (c: int)
    ensures 1 <= c <= 4
  {
    match d
    case North => 1
    case West => 2
    case South => 3
    case East => 4
  }

  /** The direction with a given enumeration value. */
  function FromCode(c: int): (d: Direction)
    requires 1 <= c <= 4
    ensures Code(d) == c
  {
    if c == 1 then North
    else if c == 2 then West
    else if c == 3 then South
    else East
  }

  /** Code and FromCode are inverse: every direction has its own value. */
  lemma CodeRoundTrip(d: Direction)
    ensures FromCode(Code(d)) == d
  {
  }

  /** The text the program writes for each message. */
  function Text(msg: Message): (s: string)
    ensures |s| > 0
  {
    match msg
    case FoundExit => "You found the exit point! YOU WIN!"
    case HitMine => "You have hit a mine"
    case StillInDanger => "Still in danger"
    case Success => "Success!"
  }

  /** Distinct messages are written as distinct texts, so a log line
      determines the outcome it reports. */
  lemma TextInjective(a: Message, b: Message)
    requires Text(a) == Text(b)
    ensures a == b
  {
  }
}
