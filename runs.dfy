/** The game loop of `Game::tick` over a finite script of polls: each poll
    yields nothing, a non-keyboard event, or a key, and comes with the cell
    `random_position` would draw should the snake eat on that pass. */
module SnakeGameRuns {
  import opened SnakeGame

  /** The outcome of running the loop body once per poll, stopping at the
      first quit or panic. The score never falls and rises at most once per
      poll; the board and the body never change. */
  function Run(s: GameState, polls: seq<Option<InputEvent>>, foods: seq<Position>): (r: Outcome)
    requires |foods| == |polls|
    decreases |polls|
    ensures r.Running? ==>
      r.state.height == s.height && r.state.width == s.width && r.state.body == s.body
    ensures r.Running? ==> s.score <= r.state.score <= s.score + |polls|
    ensures r.Quit? ==> s.score <= r.finalScore <= s.score + |polls|
  {
    if polls == [] then
      Running(s)
    else
      var first :=
        match polls[0]
        case Some(Keyboard(key)) => KeyStep(s, key, foods[0])
        case _ => Running(s);
      match first
      case Running(t) => Run(t, polls[1..], foods[1..])
      case _ => first
  }

  /** Every state the loop reaches is well formed, provided each food cell
      comes from the range of `random_position`. */
  lemma {:induction false} RunPreservesWellFormed(s: GameState, polls: seq<Option<InputEvent>>, foods: seq<Position>)
    requires |foods| == |polls|
    requires WellFormed(s)
    requires forall i :: 0 <= i < |foods| ==> RandomPosition(s.width, s.height, foods[i])
    ensures Run(s, polls, foods).Running? ==> WellFormed(Run(s, polls, foods).state)
    decreases |polls|
  {
    if polls != [] {
      match polls[0]
      case Some(Keyboard(key)) =>
        KeyStepPreservesWellFormed(s, key, foods[0]);
        var first := KeyStep(s, key, foods[0]);
        if first.Running? {
          RunPreservesWellFormed(first.state, polls[1..], foods[1..]);
        }
      case _ =>
        RunPreservesWellFormed(s, polls[1..], foods[1..]);
    }
  }

  /** The food only moves when the snake eats it: a run that ends with the
      score it started with ends with the food where it started. */
  lemma {:induction false} RunFoodFollowsScore(s: GameState, polls: seq<Option<InputEvent>>, foods: seq<Position>)
    requires |foods| == |polls|
    ensures var r := Run(s, polls, foods);
      r.Running? && r.state.score == s.score ==> r.state.food == s.food
    decreases |polls|
  {
    if polls != [] {
      match polls[0]
      case Some(Keyboard(key)) =>
        var first := KeyStep(s, key, foods[0]);
        if first.Running? {
          RunFoodFollowsScore(first.state, polls[1..], foods[1..]);
        }
      case _ =>
        RunFoodFollowsScore(s, polls[1..], foods[1..]);
    }
  }

  /** Polls that yield no key leave the whole state as it is: the snake does
      not advance on its own. */
  lemma {:induction false} RunWithoutKeysIsIdle(s: GameState, polls: seq<Option<InputEvent>>, foods: seq<Position>)
    requires |foods| == |polls|
    requires forall i :: 0 <= i < |polls| ==> !(polls[i].Some? && polls[i].value.Keyboard?)
    ensures Run(s, polls, foods) == Running(s)
    decreases |polls|
  {
    if polls != [] {
      RunWithoutKeysIsIdle(s, polls[1..], foods[1..]);
    }
  }

  function Press(d: Direction): Option<InputEvent>
  {
    Some(Keyboard(Arrow(d)))
  }

  /** On a 24 x 24 board with the head at (5, 5) heading up, the keys
      Right, Right, Down with an empty poll among them take the head to
      (7, 6): it moves only when an arrow is pressed. */
  lemma ArrowsAloneMoveTheHead(food: Position)
    requires food.y > 6
    ensures var s := GameState(24, 24, Position(5, 5), Up, [], food, 0);
      Run(s, [Press(Right), None, Press(Right), Press(Down)], [food, food, food, food])
      == Running(s.(head := Position(7, 6), direction := Down))
  {
  }

  /** There is no wall collision: from (1, 5), Left puts the head on the
      wall column x == 0 and the game runs on with the score unchanged. */
  lemma WallIsNotFatal(food: Position)
    requires food.x > 0
    ensures var s := GameState(24, 24, Position(1, 5), Left, [], food, 3);
      Run(s, [Press(Left)], [food]) == Running(s.(head := Position(0, 5)))
  {
  }
}
