# Snake game state, modelled in Dafny

This project models the game logic of a small terminal snake game written in Rust (`src/game.rs`). The state is a `Board` of `u16` cells. The board holds a `Snake` (head, heading, body) and one food `Position`. A `Game` holds the board and a `u16` score. The game loop reads one input event per pass:

- an arrow key moves the head one cell and records the heading;
- `'q'` ends the session;
- any other key moves nothing.

After a keyboard event other than `'q'`, the food rule applies: if the head is on the food, the score rises by one and the food moves to a freshly drawn random cell. A poll that yields nothing, or an event that is not a key, skips the food rule and changes nothing.

The code does less than a full snake game, and the model keeps it that way:

- the body starts empty and stays empty;
- there is no wall or self collision;
- the snake does not move without an arrow key;
- nothing keeps the food off the snake or off the wall.

Files:

- `game.dfy`, module `SnakeGame`, holds the data model:
  - `Position` over a `U16` subset type;
  - `Direction`, and the key and input events;
  - the step geometry (`CanMove`, `Moved`);
  - the range `random_position` draws from (`RandomPosition`);
  - the classes `Snake`, `Board` and `Game`, whose methods update their fields in place;
  - `KeyStep`, a pure function giving one pass of the keyboard branch on a `GameState` value. `Game.Step` is proved against it.
- `runs.dfy`, module `SnakeGameRuns`, holds `Run`. It repeats the loop body over a finite script of polls. The multi-step lemmas are stated about `Run`.

Inputs outside the model become parameters:

- Random cells are supplied by the caller. Each is constrained to `RandomPosition(width, height, p)`, that is `x < width-1` and `y < height-1`.
- The input source becomes a `KeyEvent` argument, or a sequence of `Option<InputEvent>` polls.

`u16` arithmetic follows the debug-build semantics, where overflow panics. In the pure functions an overflow is the `Panicked` outcome. The methods require that no panic happens. This covers five cases:

- `head.y - 1` with `head.y == 0` (Up);
- `head.y + 1` with `head.y == 65535` (Down);
- `head.x - 1` with `head.x == 0` (Left);
- `head.x + 1` with `head.x == 65535` (Right);
- `score + 1` with `score == 65535`, reached only when the head is on the food.

A complete snake game would do several things this code does not, and the model follows the code:

- it would keep the head off the whole wall ring; `is_legal` accepts the far column `x == width-1` and the far row `y == height-1`, which `draw` paints as wall;
- it would keep the food off the wall; `random_position` can return `x == 0` or `y == 0`;
- it would end the game on a collision, grow the body when the snake eats, and advance the snake on a tick without input; the code does none of these.

## Model

| member | source | states |
|---|---|---|
| `SnakeGame.CanMove` | src/game.rs:223-236 | a step towards `d` is free of u16 overflow exactly when both shifted coordinates stay within 0..65535 (Up needs `y > 0`, Left needs `x > 0`, Down and Right need the coordinate below 65535) |
| `SnakeGame.Moved` | src/game.rs:223-236 | the new head is the old one plus the heading's unit delta (Up = (0,-1), Down = (0,1), Left = (-1,0), Right = (1,0)): exactly one coordinate changes |
| `SnakeGame.MovedUndo` | src/game.rs:223-236 | a step can always be taken back, and the opposite step returns the head to where it was |
| `SnakeGame.RandomPosition` | src/game.rs:119-124 | a cell lies in the range `random_position` draws from only on a board of at least 2 × 2, and then its coordinates are at most width-2 and height-2 |
| `SnakeGame.RandomPositionNonEmpty` | src/game.rs:119-124 | the range `random_position` draws from has a cell exactly when width ≥ 2 and height ≥ 2; below that, sampling the empty or underflowed range panics |
| `SnakeGame.RandomPositionReachesWall` | src/game.rs:119-124 | on every board of at least 2 × 2, the random range contains a cell that `draw` paints as wall and that `is_legal` rejects, namely (0, 0) |
| `SnakeGame.Snake.constructor` | src/game.rs:32-36 | the snake starts at the given cell with an empty body, heading Up |
| `SnakeGame.Snake.AtHead` | src/game.rs:209-219 | a glyph is returned exactly when (x, y) is the head; it is one character and reads back as the current heading (^ Up, v Down, > Right, < Left); elsewhere it returns None |
| `SnakeGame.Snake.Grow` | src/game.rs:221-239 | the head moves one cell towards `d` (requires no u16 overflow), the heading becomes `d`, and the body is unchanged |
| `SnakeGame.Board.constructor` | src/game.rs:25-39 | the board stores the given height and width, a fresh snake at the first drawn cell with an empty body heading Up, and the food at the second drawn cell; both cells lie in the random range |
| `SnakeGame.Board.IsWall` | src/game.rs:72 | every cell with x == 0 or y == 0 is wall; within the board, a cell is wall exactly when it is not strictly inside the outermost ring |
| `SnakeGame.Board.IsLegal` | src/game.rs:45-50 | a cell is legal exactly when 0 < x < width and 0 < y < height: cells with x == 0 or y == 0 are rejected, and the far column and far row are accepted; a legal cell that is painted as wall lies on the far column x == width-1 or the far row y == height-1 |
| `SnakeGame.IsLegalAcceptsWall` | src/game.rs:45-50 | on every board of at least 2 × 2, some cell is both legal and painted as wall by `draw` (line 72) |
| `SnakeGame.Board.IsInterior` | src/game.rs:45-50 | the corrected test holds exactly for the legal cells that are not painted as wall |
| `SnakeGame.KeyStep` | src/game.rs:146-183 | 'q' quits with the score unchanged; an arrow moves the head by `Moved` and sets the heading, and panics when the step overflows; any other key moves nothing; height, width and body never change; if the new head is on the food, the score rises by exactly one and the food becomes the new cell, and only then does score 65535 panic; otherwise score and food are unchanged |
| `SnakeGame.KeyStepPreservesWellFormed` | src/game.rs:179-183 | if the body is empty and the food lies in the random range, both still hold after a pass whose new food is drawn from that range |
| `SnakeGame.Game.constructor` | src/game.rs:133-138 | a new game has the given dimensions, the snake at its start cell heading Up with no body, the food at its start cell, score 0, and is well formed |
| `SnakeGame.Game.Step` | src/game.rs:145-184 | one keyboard pass updates the fields in place to exactly the state `KeyStep` gives; on 'q' it reports the end and changes nothing; the game stays well formed |
| `SnakeGameRuns.Run` | src/game.rs:144-189 | over any script of polls, the game stops at the first quit or panic; the score never falls and rises by at most one per poll; height, width and body never change |
| `SnakeGameRuns.RunPreservesWellFormed` | src/game.rs:179-183 | every state the loop reaches has an empty body and food in the random range, provided every new food cell is drawn from that range |
| `SnakeGameRuns.RunFoodFollowsScore` | src/game.rs:179-183 | the food moves only when the snake eats: a run that ends with its starting score ends with the food in its starting cell |
| `SnakeGameRuns.RunWithoutKeysIsIdle` | src/game.rs:145-188 | polls that yield no event or a non-keyboard event leave the whole state unchanged, so the snake does not advance by itself |
| `SnakeGameRuns.ArrowsAloneMoveTheHead` | src/game.rs:149-155 | on a 24 × 24 board, head (5,5) heading Up, the script Right, (no event), Right, Down ends with head (7,6) heading Down and score 0 |
| `SnakeGameRuns.WallIsNotFatal` | src/game.rs:149-155 | from head (1,5), Left puts the head on the wall column x == 0 and the game keeps running with its score unchanged |

## Findings

| source | as written | input that shows it | evidently intended | confidence | as-written member | corrected member |
|---|---|---|---|---|---|---|
| src/game.rs:45-50 | `is_legal` bounds x by `width` and y by `height`, so it accepts the far column and the far row | cell (width-1, 1) on any board of at least 2 × 2: it is legal, yet `draw` (line 72) paints it as wall | only cells off the wall ring are legal: 0 < x < width-1 and 0 < y < height-1 | medium, not executed (`is_legal` has no caller in the repository) | `SnakeGame.IsLegalAcceptsWall` | `SnakeGame.Board.IsInterior` |

`Board.IsLegal` is kept as written. The model itself never calls either test, because the code has no collision check.

## Left out

- `Board::draw` and every crossterm call (cursor moves, colours, printing, screen clears): these are terminal rendering. `IsWall` models only the wall test at line 72, and `Snake.AtHead` models the head glyph. The error that a failed `draw` or screen clear propagates out of `tick` or `grow` is not modelled.
- The screen clear at the start of `Snake::grow` is left out. It is terminal I/O.
- The `'q'` branch prints the score, stops the input reader and exits the process. This is modelled only as the `Quit(score)` outcome: the session ends and the state is unchanged.
- The usage message printed for other keys is left out. It is terminal output; the state is unchanged.
- The `AsyncReader` input source and the endless `loop` of `Game::tick` are left out. `Game.Step` models one keyboard pass, and `Run` models a finite script of polls.
- The randomness of `rand::thread_rng` is left out. Drawn cells are caller-supplied values constrained to the range of `random_position`. Uniformity is not modelled.
- `Board::random_position` (lines 41-43) only delegates to `random_position` with the board's own width and height. It has no caller, and the model uses `RandomPosition(width, height, p)` directly.
- KeyStep: does not model the panic of `random_position` (line 181) on a board narrower or shorter than 2, because no reachable state has such a board (the constructors and `WellFormed` exclude it).
- Release-build wrap-around of `u16` arithmetic is left out. The model takes the debug-build semantics, where overflow panics.
- `src/main.rs` is left out. It sets up the terminal, calls `Game::new(24, 24)` and calls `tick` forever; it has no game logic.
- Collision detection, body growth and keeping the food off the snake are not part of the model. They do not exist in the code.
