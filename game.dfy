/** A model of the game state of a terminal snake game: a board of u16
    cells holding a snake and one piece of food, inside a game that keeps a
    score. The random number generator and the terminal are outside the
    model: random cells are supplied by the caller, constrained by the range
    the generator draws from, and drawing is not modelled. */
module SnakeGame {

  /** Rust's `u16`. */
  type U16 = n: int | 0 <= n < 0x1_0000

  const MaxU16: U16 := 0xFFFF

  datatype Option<T> = None | Some(value: T)

  datatype Position = Position(x: U16, y: U16)

  datatype Direction = Up | Down | Left | Right

  /** The keys the game loop tells apart: the four arrows, characters
      (of which 'q' quits), and every other key. */
  datatype KeyEvent = Arrow(dir: Direction) | Char(c: char) | OtherKey

  /** What one poll of the input source yields when it yields something. */
  datatype InputEvent = Keyboard(key: KeyEvent) | OtherEvent

  // ---------------------------------------------------------------------
  // Geometry

  /** The unit delta of a heading, with the y axis pointing down the screen. */
  function DeltaX(d: Direction): int
  {
    match d
    case Left => -1
    case Right => 1
    case _ => 0
  }

  function DeltaY(d: Direction): int
  {
    match d
    case Up => -1
    case Down => 1
    case _ => 0
  }

  function Opposite(d: Direction): Direction
  {
    match d
    case Up => Down
    case Down => Up
    case Left => Right
    case Right => Left
  }

  /** Whether stepping from `p` towards `d` stays within u16 arithmetic;
      otherwise the subtraction or addition overflows and the program panics. */
  function CanMove(p: Position, d: Direction): (ok: bool)
    ensures ok <==> 0 <= p.x + DeltaX(d) <= MaxU16 && 0 <= p.y + DeltaY(d) <= MaxU16
  {
    match d
    case Up => p.y > 0
    case Down => p.y < MaxU16
    case Left => p.x > 0
    case Right => p.x < MaxU16
  }

  /** The cell one step from `p` towards `d`. */
  function Moved(p: Position, d: Direction): (q: Position)
    requires CanMove(p, d)
    ensures q.x == p.x + DeltaX(d) && q.y == p.y + DeltaY(d)
    ensures (q.x == p.x) != (q.y == p.y)
  {
    match d
    case Up => p.(y := p.y - 1)
    case Down => p.(y := p.y + 1)
    case Left => p.(x := p.x - 1)
    case Right => p.(x := p.x + 1)
  }

  /** A step can always be undone by a step the opposite way. */
  lemma MovedUndo(p: Position, d: Direction)
    requires CanMove(p, d)
    ensures CanMove(Moved(p, d), Opposite(d))
    ensures Moved(Moved(p, d), Opposite(d)) == p
  {
  }

  /** The range `random_position(width, height)` draws from: `0..width-1`
      and `0..height-1`, both half-open. */
  function RandomPosition(width: U16, height: U16, p: Position): (inRange: bool)
    ensures inRange ==> 2 <= width && 2 <= height
    ensures inRange ==> p.x <= width - 2 && p.y <= height - 2
  {
    p.x < width - 1 && p.y < height - 1
  }

  /** The range is empty unless both dimensions are at least 2, in which
      case sampling it panics. */
  lemma RandomPositionNonEmpty(width: U16, height: U16)
    ensures (exists p :: RandomPosition(width, height, p)) <==> 2 <= width && 2 <= height
  {
    if 2 <= width && 2 <= height {
      assert RandomPosition(width, height, Position(0, 0));
    }
  }

  /** Reading back a glyph painted for the snake's head. */
  function GlyphDirection(glyph: string): Option<Direction>
  {
    if glyph == "^" then Some(Up)
    else if glyph == "v" then Some(Down)
    else if glyph == ">" then Some(Right)
    else if glyph == "<" then Some(Left)
    else None
  }

  // ---------------------------------------------------------------------
  // Snake

  class Snake {
    var head: Position
    var direction: Direction
    var body: seq<Position>

    /** The snake `Board::new` builds: no body, heading up. */
    constructor (start: Position)
      ensures head == start && direction == Up && body == []
    {
      head := start;
      direction := Up;
      body := [];
    }

    /** The glyph to paint at cell (x, y): the heading's arrow on the head,
        nothing elsewhere. */
    function AtHead(x: U16, y: U16): (glyph: Option<string>)
      reads this
      ensures glyph.Some? <==> head == Position(x, y)
      ensures glyph.Some? ==> |glyph.value| == 1 && GlyphDirection(glyph.value) == Some(direction)
    {
      if head.x == x && head.y == y then
        match direction
        case Up => Some("^")
        case Down => Some("v")
        case Right => Some(">")
        case Left => Some("<")
      else
        None
    }

    /** Despite its name, moves the head one cell towards `d` and records
        the heading; the body is left as it is. */
    method Grow(d: Direction)
      requires CanMove(head, d)
      modifies this
      ensures head == Moved(old(head), d)
      ensures direction == d
      ensures body == old(body)
    {
      match d {
        case Up => head := head.(y := head.y - 1);
        case Down => head := head.(y := head.y + 1);
        case Left => head := head.(x := head.x - 1);
        case Right => head := head.(x := head.x + 1);
      }
      direction := d;
    }
  }

  // ---------------------------------------------------------------------
  // Board

  class Board {
    const height: U16
    const width: U16
    var food: Position
    const snake: Snake

    /** `Board::new`, with the two cells drawn by `random_position` passed in. */
    constructor (height: U16, width: U16, snakeStart: Position, foodStart: Position)
      requires RandomPosition(width, height, snakeStart)
      requires RandomPosition(width, height, foodStart)
      ensures this.height == height && this.width == width
      ensures fresh(snake)
      ensures snake.head == snakeStart && snake.direction == Up && snake.body == []
      ensures food == foodStart
    {
      this.height := height;
      this.width := width;
      snake := new Snake(snakeStart);
      food := foodStart;
    }

    /** The cells `draw` paints as wall: the outermost ring of the board. */
    function IsWall(p: Position): (onWall: bool)
      ensures p.x == 0 || p.y == 0 ==> onWall
      ensures p.x < width && p.y < height ==>
        (onWall <==> !(0 < p.x < width - 1 && 0 < p.y < height - 1))
    {
      p.y == 0 || p.y == height - 1 || p.x == 0 || p.x == width - 1
    }

    /** `is_legal` as written: the bounds on x and y are exclusive at 0
        but stop at the board's size, not at the far wall. */
    function IsLegal(p: Position): (legal: bool)
      ensures p.x == 0 || p.y == 0 ==> !legal
      ensures legal ==> p.x < width && p.y < height
      ensures 0 < p.x < width && 0 < p.y < height ==> legal
      ensures legal && IsWall(p) ==> p.x == width - 1 || p.y == height - 1
    {
      p.x > 0 && p.x < width && p.y < height && p.y > 0
    }

    /** The legality test with the far wall excluded: exactly the legal
        cells that are not painted as wall. */
    function IsInterior(p: Position): (inside: bool)
      ensures inside <==> IsLegal(p) && !IsWall(p)
    {
      0 < p.x < width - 1 && 0 < p.y < height - 1
    }
  }

  /** `is_legal` accepts a cell that `draw` paints as wall on every board
      with an interior column. */
  lemma IsLegalAcceptsWall(b: Board)
    requires 2 <= b.width && 2 <= b.height
    ensures exists p :: b.IsLegal(p) && b.IsWall(p)
  {
    var p := Position(b.width - 1, 1);
    assert b.IsLegal(p) && b.IsWall(p);
  }

  /** `random_position` can return a wall cell, one that `is_legal` rejects. */
  lemma RandomPositionReachesWall(b: Board)
    requires 2 <= b.width && 2 <= b.height
    ensures exists p :: RandomPosition(b.width, b.height, p) && b.IsWall(p) && !b.IsLegal(p)
  {
    var p := Position(0, 0);
    assert RandomPosition(b.width, b.height, p) && b.IsWall(p) && !b.IsLegal(p);
  }

  // ---------------------------------------------------------------------
  // Game: the state as a value, and one pass of the keyboard branch

  datatype GameState = GameState(
    height: U16,
    width: U16,
    head: Position,
    direction: Direction,
    body: seq<Position>,
    food: Position,
    score: U16)

  /** How one pass ends: the game runs on, the player quit with a score,
      or u16 arithmetic overflowed and the program panicked. */
  datatype Outcome = Running(state: GameState) | Quit(finalScore: U16) | Panicked

  /** What holds of every reachable state: the body is empty and the food
      lies in the range `random_position` draws from. */
  predicate WellFormed(s: GameState)
  {
    s.body == [] && RandomPosition(s.width, s.height, s.food)
  }

  /** One pass of the keyboard branch of `Game::tick`: an arrow moves the
      head, 'q' quits, any other key moves nothing; then, unless the player
      quit, a head on the food scores one and the food moves to `newFood`.
      On a board narrower or shorter than 2 the code would panic when it
      draws the new food; no reachable state has such a board (see
      `WellFormed` and the constructors), so `KeyStep` does not model that
      panic. */
  function KeyStep(s: GameState, key: KeyEvent, newFood: Position): (r: Outcome)
    ensures r.Quit? <==> key == Char('q')
    ensures r.Quit? ==> r.finalScore == s.score
    ensures key.Arrow? && !CanMove(s.head, key.dir) ==> r.Panicked?
    ensures r.Panicked? ==>
      (key.Arrow? && !CanMove(s.head, key.dir)) ||
      (s.score == MaxU16 && (if key.Arrow? then Moved(s.head, key.dir) else s.head) == s.food)
    ensures r.Running? ==>
      r.state.height == s.height && r.state.width == s.width && r.state.body == s.body
    ensures r.Running? && key.Arrow? ==>
      CanMove(s.head, key.dir) && r.state.head == Moved(s.head, key.dir) && r.state.direction == key.dir
    ensures r.Running? && !key.Arrow? ==>
      r.state.head == s.head && r.state.direction == s.direction
    ensures r.Running? && r.state.head == s.food ==>
      r.state.score == s.score + 1 && r.state.food == newFood
    ensures r.Running? && r.state.head != s.food ==>
      r.state.score == s.score && r.state.food == s.food
  {
    if key == Char('q') then
      Quit(s.score)
    else if key.Arrow? && !CanMove(s.head, key.dir) then
      Panicked
    else
      var moved := if key.Arrow? then s.(head := Moved(s.head, key.dir), direction := key.dir) else s;
      if moved.head != moved.food then
        Running(moved)
      else if moved.score == MaxU16 then
        Panicked
      else
        Running(moved.(food := newFood, score := moved.score + 1))
  }

  /** A pass keeps the state well formed when the new food comes from the
      range of `random_position`. */
  lemma KeyStepPreservesWellFormed(s: GameState, key: KeyEvent, newFood: Position)
    requires WellFormed(s)
    requires RandomPosition(s.width, s.height, newFood)
    ensures KeyStep(s, key, newFood).Running? ==> WellFormed(KeyStep(s, key, newFood).state)
  {
  }

  class Game {
    const board: Board
    var score: U16

    function State(): GameState
      reads this, board, board.snake
    {
      GameState(board.height, board.width, board.snake.head, board.snake.direction,
                board.snake.body, board.food, score)
    }

    predicate Valid()
      reads this, board, board.snake
    {
      WellFormed(State())
    }

    /** `Game::new`, with the cells drawn by `Board::new` passed in. */
    constructor (height: U16, width: U16, snakeStart: Position, foodStart: Position)
      requires RandomPosition(width, height, snakeStart)
      requires RandomPosition(width, height, foodStart)
      ensures fresh(board) && fresh(board.snake)
      ensures Valid()
      ensures State() == GameState(height, width, snakeStart, Up, [], foodStart, 0)
    {
      board := new Board(height, width, snakeStart, foodStart);
      score := 0;
    }

    /** One pass of the keyboard branch of `Game::tick` for `key`; `newFood`
        stands for the cell `random_position` would draw. Returns whether the
        player quit, in which case nothing changes. */
    method Step(key: KeyEvent, newFood: Position) returns (ended: bool)
      requires Valid()
      requires RandomPosition(board.width, board.height, newFood)
      requires !KeyStep(State(), key, newFood).Panicked?
      modifies this, board, board.snake
      ensures Valid()
      ensures ended <==> KeyStep(old(State()), key, newFood).Quit?
      ensures ended ==> State() == old(State())
      ensures !ended ==> KeyStep(old(State()), key, newFood) == Running(State())
    {
      ghost var s := State();
      KeyStepPreservesWellFormed(s, key, newFood);
      match key {
        case Arrow(d) =>
          board.snake.Grow(d);
        case Char(c) =>
          if c == 'q' {
            ended := true;
            return;
          }
        case OtherKey =>
      }
      ended := false;
      if board.food == board.snake.head {
        board.food := newFood;
        score := score + 1;
      }
    }
  }
}
