/** The Snake game state machine of the `useSnakeGame` hook.

    The hook keeps six pieces of state: the snake (head first), the food
    cell, the heading, the game-over and pause flags, and the score.  The
    pure part of this module gives each transition as a function on a
    `State` value; class `Game` holds the six fields and changes them in
    place, each method proved equal to its transition function.  Walls end
    the game (there is no wrap-around) and the heading guard accepts only a
    request on the same axis as the current heading. */
module SnakeGame {

  import opened Optional

  const GridSize: int := 20
  /** Points added for each food eaten. */
  const Points: int := 10

  /** A grid position, row first. */
  datatype Cell = Cell(row: int, col: int)

  /** A heading, as a row delta and a column delta. */
  datatype Dir = Dir(dr: int, dc: int)

  const Up: Dir := Dir(-1, 0)
  const Down: Dir := Dir(1, 0)
  const Left: Dir := Dir(0, -1)
  const Right: Dir := Dir(0, 1)

  const InitialSnake: seq<Cell> := [Cell(10, 10)]
  const InitialFood: Cell := Cell(5, 5)
  const InitialDirection: Dir := Right

  predicate IsUnit(d: Dir) {
    d == Up || d == Down || d == Left || d == Right
  }

  function Opposite(d: Dir): Dir {
    Dir(-d.dr, -d.dc)
  }

  predicate InGrid(c: Cell) {
    0 <= c.row < GridSize && 0 <= c.col < GridSize
  }

  function Advance(c: Cell, d: Dir): Cell {
    Cell(c.row + d.dr, c.col + d.dc)
  }

  predicate Adjacent(a: Cell, b: Cell) {
    IsUnit(Dir(b.row - a.row, b.col - a.col))
  }

  /** Consecutive segments are neighbours on the grid. */
  predicate Connected(snake: seq<Cell>) {
    forall i :: 0 <= i < |snake| - 1 ==> Adjacent(snake[i], snake[i + 1])
  }

  /** A candidate head hits the body when it equals a segment other than
      the tail, which moves away on the same tick. */
  predicate HitsBody(snake: seq<Cell>, head: Cell) {
    exists i :: 0 <= i < |snake| - 1 && snake[i] == head
  }

  /** The collision rule: leaving the grid or hitting the body. */
  predicate Collides(snake: seq<Cell>, head: Cell) {
    !InGrid(head) || HitsBody(snake, head)
  }

  /** Some grid cell is not covered by the snake, so rejection sampling ends. */
  predicate HasFreeCell(snake: seq<Cell>) {
    exists r, c :: 0 <= r < GridSize && 0 <= c < GridSize && Cell(r, c) !in snake
  }

  /** What a drawn food cell satisfies when the sampling loop exits. */
  predicate FoodOk(snake: seq<Cell>, f: Cell) {
    InGrid(f) && f !in snake
  }

  /** The heading guard: the request is taken when it keeps the row delta
      at zero or keeps the column delta at zero. */
  predicate Accepts(current: Dir, requested: Dir) {
    (current.dr == 0 && requested.dr == 0) || (current.dc == 0 && requested.dc == 0)
  }

  datatype State = State(
    snake: seq<Cell>,
    food: Cell,
    direction: Dir,
    gameOver: bool,
    score: int,
    isPaused: bool)

  /** The state the hook starts in and returns to on restart. */
  function Initial(): (s: State)
    ensures |s.snake| == 1 && s.score == 0 && !s.gameOver && !s.isPaused
  {
    State(InitialSnake, InitialFood, InitialDirection, false, 0, false)
  }

  /** The facts every reachable state keeps: a non-empty snake inside the
      grid, food inside the grid, and ten points per segment grown. */
  predicate Inv(s: State) {
    && |s.snake| >= 1
    && (forall i :: 0 <= i < |s.snake| ==> InGrid(s.snake[i]))
    && InGrid(s.food)
    && s.score == Points * (|s.snake| - 1)
  }

  predicate Active(s: State) {
    !s.gameOver && !s.isPaused
  }

  function NextHead(s: State): Cell
    requires |s.snake| >= 1
  {
    Advance(s.snake[0], s.direction)
  }

  /** The tick moves the head onto the food. */
  predicate Eats(s: State)
    requires |s.snake| >= 1
  {
    Active(s) && !Collides(s.snake, NextHead(s)) && NextHead(s) == s.food
  }

  /** One tick; `drawn` is the food cell drawn when the tick eats. */
  function Step(s: State, drawn: Cell): State
    requires |s.snake| >= 1
  {
    if !Active(s) then s
    else
      var head := NextHead(s);
      if Collides(s.snake, head) then s.(gameOver := true)
      else if head == s.food then
        s.(snake := [head] + s.snake, food := drawn, score := s.score + Points)
      else
        s.(snake := [head] + s.snake[..|s.snake| - 1])
  }

  /** A heading request passed through the guard. */
  function Turn(s: State, d: Dir): State {
    if Accepts(s.direction, d) then s.(direction := d) else s
  }

  /** `toLowerCase` on one character, for the ASCII letters. */
  function LowerChar(ch: char): char {
    if 'A' <= ch <= 'Z' then (ch as int - 'A' as int + 'a' as int) as char else ch
  }

  /** `KeyboardEvent.key.toLowerCase()`: every upper-case ASCII letter is
      replaced by its lower-case form, every other character kept. */
  function ToLower(key: string): (r: string)
    ensures |r| == |key|
    ensures forall i :: 0 <= i < |key| ==> r[i] == LowerChar(key[i])
  {
    seq(|key|, i requires 0 <= i < |key| => LowerChar(key[i]))
  }

  /** The key table: arrows and w/a/s/d, on the lower-cased key. */
  function KeyDirection(key: string): (r: Option<Dir>)
    ensures r.Some? ==> IsUnit(r.value)
  {
    if key == "arrowup" || key == "w" then Some(Up)
    else if key == "arrowdown" || key == "s" then Some(Down)
    else if key == "arrowleft" || key == "a" then Some(Left)
    else if key == "arrowright" || key == "d" then Some(Right)
    else None
  }

  /** The key handler: nothing once the game is over; space flips pause;
      a mapped key requests a heading. */
  function KeyPressed(s: State, key: string): State {
    if s.gameOver then s
    else
      var k := ToLower(key);
      if k == " " then s.(isPaused := !s.isPaused)
      else
        match KeyDirection(k)
        case Some(d) => Turn(s, d)
        case None => s
  }

  /** A tap on the on-screen pad: ignored once the game is over. */
  function ControlClicked(s: State, d: Dir): State {
    if s.gameOver then s else Turn(s, d)
  }

  // ---------------------------------------------------------------------
  // Properties of one tick

  /** While the game is over or paused a tick changes nothing. */
  lemma IdleTickIsNoOp(s: State, drawn: Cell)
    requires |s.snake| >= 1
    requires s.gameOver || s.isPaused
    ensures Step(s, drawn) == s
  {
  }

  /** A colliding tick only sets the game-over flag. */
  lemma CollisionEndsGame(s: State, drawn: Cell)
    requires |s.snake| >= 1 && Active(s) && Collides(s.snake, NextHead(s))
    ensures Step(s, drawn) == s.(gameOver := true)
    ensures Step(s, drawn).snake == s.snake && Step(s, drawn).food == s.food
    ensures Step(s, drawn).score == s.score
  {
  }

  /** Without food the snake shifts by one cell: the head advances by the
      heading, the tail cell is dropped, the length stays. */
  lemma PlainMoveShifts(s: State, drawn: Cell)
    requires |s.snake| >= 1 && Active(s) && !Collides(s.snake, NextHead(s))
    requires NextHead(s) != s.food
    ensures var t := Step(s, drawn);
      && |t.snake| == |s.snake|
      && t.snake[0] == Advance(s.snake[0], s.direction)
      && t.snake[1..] == s.snake[..|s.snake| - 1]
      && InGrid(t.snake[0])
      && t.food == s.food && t.score == s.score && !t.gameOver
  {
    var t := Step(s, drawn);
    assert t.snake == [NextHead(s)] + s.snake[..|s.snake| - 1];
  }

  /** Eating keeps the whole old body, grows by one and scores ten. */
  lemma EatingGrows(s: State, drawn: Cell)
    requires |s.snake| >= 1 && Eats(s)
    ensures var t := Step(s, drawn);
      && |t.snake| == |s.snake| + 1
      && t.snake[0] == s.food
      && t.snake[1..] == s.snake
      && t.score == s.score + Points
      && t.food == drawn && !t.gameOver
  {
    var t := Step(s, drawn);
    assert t.snake == [s.food] + s.snake;
  }

  /** A tick keeps the invariant when the drawn food satisfies the
      sampling loop's exit condition. */
  lemma StepPreservesInv(s: State, drawn: Cell)
    requires Inv(s)
    requires Eats(s) ==> FoodOk(s.snake, drawn)
    ensures Inv(Step(s, drawn))
  {
    var t := Step(s, drawn);
    if Active(s) && !Collides(s.snake, NextHead(s)) {
      var head := NextHead(s);
      var body := if head == s.food then s.snake else s.snake[..|s.snake| - 1];
      assert t.snake == [head] + body;
      forall i | 0 <= i < |t.snake| ensures InGrid(t.snake[i]) {
        if i > 0 {
          assert t.snake[i] == s.snake[i - 1];
        }
      }
    }
  }

  /** With one of the four headings, a tick keeps consecutive segments
      adjacent. */
  lemma StepKeepsConnected(s: State, drawn: Cell)
    requires |s.snake| >= 1 && Connected(s.snake) && IsUnit(s.direction)
    ensures Connected(Step(s, drawn).snake)
  {
    var t := Step(s, drawn);
    if Active(s) && !Collides(s.snake, NextHead(s)) {
      var head := NextHead(s);
      var body := if head == s.food then s.snake else s.snake[..|s.snake| - 1];
      assert t.snake == [head] + body;
      assert Adjacent(head, s.snake[0]) by {
        assert Dir(s.snake[0].row - head.row, s.snake[0].col - head.col) == Opposite(s.direction);
      }
      forall i | 0 <= i < |t.snake| - 1 ensures Adjacent(t.snake[i], t.snake[i + 1]) {
        if i > 0 {
          assert t.snake[i] == s.snake[i - 1] && t.snake[i + 1] == s.snake[i];
        }
      }
    }
  }

  /** Pausing, letting the timer fire and resuming gives back the exact
      state from before the pause. */
  lemma PauseResumeRestoresState(s: State, drawn: Cell)
    requires |s.snake| >= 1 && Active(s)
    ensures KeyPressed(Step(KeyPressed(s, " "), drawn), " ") == s
  {
    assert ToLower(" ") == " ";
  }

  /** Food is only kept off the snake from before the move, so after an
      eating tick the new food may sit on the new head. */
  lemma FoodMayLandOnNewHead()
    ensures var s := State([Cell(10, 10)], Cell(10, 11), Right, false, 0, false);
      FoodOk(s.snake, Cell(10, 11)) && Step(s, Cell(10, 11)).food == Step(s, Cell(10, 11)).snake[0]
  {
  }

  /** The tail is not an obstacle, so a snake whose tail holds the food can
      move onto it, grow, and hold the same cell twice. */
  lemma SnakeMayRepeatCell()
    ensures var s := State([Cell(0, 0), Cell(0, 1), Cell(1, 1), Cell(1, 0)], Cell(1, 0), Down, false, 30, false);
      && Inv(s) && Connected(s.snake) && Eats(s)
      && var t := Step(s, Cell(5, 5)); t.snake[0] == t.snake[|t.snake| - 1] && |t.snake| == 5
  {
    var s := State([Cell(0, 0), Cell(0, 1), Cell(1, 1), Cell(1, 0)], Cell(1, 0), Down, false, 30, false);
    RepeatFacts(s);
    EatingTailRepeats(s, Cell(5, 5));
  }

  /** Eating food that lies on the tail puts the new head on the cell the
      tail still holds. */
  lemma EatingTailRepeats(s: State, drawn: Cell)
    requires |s.snake| >= 1 && Eats(s) && s.food == s.snake[|s.snake| - 1]
    ensures var t := Step(s, drawn);
      t.snake[0] == t.snake[|t.snake| - 1] && |t.snake| == |s.snake| + 1
  {
    EatingGrows(s, drawn);
    var t := Step(s, drawn);
    assert t.snake[|t.snake| - 1] == t.snake[1..][|s.snake| - 1];
  }

  /** The starting state of SnakeMayRepeatCell: valid, connected, and the
      next head (1,0) is the tail cell, which the body test skips. */
  lemma RepeatFacts(s: State)
    requires s == State([Cell(0, 0), Cell(0, 1), Cell(1, 1), Cell(1, 0)], Cell(1, 0), Down, false, 30, false)
    ensures Inv(s) && Connected(s.snake) && Eats(s)
  {
    assert !HitsBody(s.snake, Cell(1, 0));
  }

  /** The first tick from the start moves the head one cell right. */
  lemma FirstTickMovesRight(drawn: Cell)
    ensures var t := Step(Initial(), drawn);
      t.snake == [Cell(10, 11)] && t.food == Cell(5, 5) && t.score == 0 && !t.gameOver
  {
  }

  /** Moving right off the last column ends the game: there is no
      wrap-around to column 0. */
  lemma RightEdgeIsAWall(food: Cell, drawn: Cell)
    ensures var t := Step(State([Cell(0, 19)], food, Right, false, 0, false), drawn);
      t.gameOver && t.snake == [Cell(0, 19)]
  {
  }

  // ---------------------------------------------------------------------
  // Properties of input

  /** On the four headings the guard takes a request exactly when it is the
      current heading or its reversal: turns are refused, U-turns taken. */
  lemma GuardOnUnitHeadings(current: Dir, requested: Dir)
    requires IsUnit(current) && IsUnit(requested)
    ensures Accepts(current, requested) <==> requested == current || requested == Opposite(current)
  {
  }

  /** Every key the table knows maps to one of the four headings, and each
      heading has a key. */
  lemma KeyTableCoversHeadings(d: Dir)
    requires IsUnit(d)
    ensures exists k :: k in ["arrowup", "arrowdown", "arrowleft", "arrowright"] && KeyDirection(k) == Some(d)
  {
    if d == Up { assert KeyDirection("arrowup") == Some(d); }
    else if d == Down { assert KeyDirection("arrowdown") == Some(d); }
    else if d == Left { assert KeyDirection("arrowleft") == Some(d); }
    else { assert KeyDirection("arrowright") == Some(d); }
  }

  /** The keys a browser reports for the arrows and for w/a/s/d, in either
      case, reach the table and request their heading. */
  lemma BrowserKeysTurn(s: State)
    requires !s.gameOver
    ensures KeyPressed(s, "ArrowUp") == Turn(s, Up)
    ensures KeyPressed(s, "ArrowDown") == Turn(s, Down)
    ensures KeyPressed(s, "ArrowLeft") == Turn(s, Left)
    ensures KeyPressed(s, "ArrowRight") == Turn(s, Right)
    ensures KeyPressed(s, "w") == KeyPressed(s, "W") == Turn(s, Up)
    ensures KeyPressed(s, "s") == KeyPressed(s, "S") == Turn(s, Down)
    ensures KeyPressed(s, "a") == KeyPressed(s, "A") == Turn(s, Left)
    ensures KeyPressed(s, "d") == KeyPressed(s, "D") == Turn(s, Right)
  {
    ArrowNamesLower();
    LetterKeysLower();
    KeyTurns(s, "ArrowUp", "arrowup", Up);
    KeyTurns(s, "ArrowDown", "arrowdown", Down);
    KeyTurns(s, "ArrowLeft", "arrowleft", Left);
    KeyTurns(s, "ArrowRight", "arrowright", Right);
    KeyTurns(s, "w", "w", Up);
    KeyTurns(s, "W", "w", Up);
    KeyTurns(s, "s", "s", Down);
    KeyTurns(s, "S", "s", Down);
    KeyTurns(s, "a", "a", Left);
    KeyTurns(s, "A", "a", Left);
    KeyTurns(s, "d", "d", Right);
    KeyTurns(s, "D", "d", Right);
  }

  lemma KeyTurns(s: State, key: string, lowered: string, d: Dir)
    requires !s.gameOver && ToLower(key) == lowered && lowered != " "
    requires KeyDirection(lowered) == Some(d)
    ensures KeyPressed(s, key) == Turn(s, d)
  {
  }

  lemma ArrowNamesLower()
    ensures ToLower("ArrowUp") == "arrowup"
    ensures ToLower("ArrowDown") == "arrowdown"
    ensures ToLower("ArrowLeft") == "arrowleft"
    ensures ToLower("ArrowRight") == "arrowright"
  {
  }

  lemma LetterKeysLower()
    ensures ToLower("w") == ToLower("W") == "w"
    ensures ToLower("s") == ToLower("S") == "s"
    ensures ToLower("a") == ToLower("A") == "a"
    ensures ToLower("d") == ToLower("D") == "d"
  {
  }

  /** Once the game is over keys and taps are ignored. */
  lemma InputIgnoredAfterGameOver(s: State, key: string, d: Dir)
    requires s.gameOver
    ensures KeyPressed(s, key) == s && ControlClicked(s, d) == s
  {
  }

  /** Space flips the pause flag, and only that, while the game runs. */
  lemma SpaceTogglesPause(s: State)
    requires !s.gameOver
    ensures KeyPressed(s, " ") == s.(isPaused := !s.isPaused)
  {
    assert ToLower(" ") == " ";
  }

  /** Input never touches the snake, the food or the score, and a heading
      request changes the heading exactly when the guard accepts it. */
  lemma InputKeepsBoard(s: State, key: string, d: Dir)
    ensures var t := KeyPressed(s, key);
      t.snake == s.snake && t.food == s.food && t.score == s.score && t.gameOver == s.gameOver
    ensures var t := ControlClicked(s, d);
      && t.snake == s.snake && t.food == s.food && t.score == s.score && t.isPaused == s.isPaused
      && (t.direction == d <==> (!s.gameOver && Accepts(s.direction, d)) || s.direction == d)
  {
  }

  /** A key that is neither space nor in the table leaves the whole state
      as it was. */
  lemma OtherKeysIgnored(s: State, key: string)
    requires KeyDirection(ToLower(key)).None? && ToLower(key) != " "
    ensures KeyPressed(s, key) == s
  {
  }

  // ---------------------------------------------------------------------
  // Runs of events

  datatype Event = Tick(drawn: Cell) | Key(key: string) | Control(d: Dir) | Restart

  function Apply(s: State, e: Event): State
    requires |s.snake| >= 1
  {
    match e
    case Tick(drawn) => Step(s, drawn)
    case Key(key) => KeyPressed(s, key)
    case Control(d) => ControlClicked(s, d)
    case Restart => Initial()
  }

  /** Each event finds a snake, and each eating tick draws food off it. */
  predicate Admissible(s: State, es: seq<Event>)
    decreases |es|
  {
    es == [] ||
    (&& |s.snake| >= 1
     && (es[0].Tick? && Eats(s) ==> FoodOk(s.snake, es[0].drawn))
     && Admissible(Apply(s, es[0]), es[1..]))
  }

  function Run(s: State, es: seq<Event>): State
    requires Admissible(s, es)
    decreases |es|
  {
    if es == [] then s else Run(Apply(s, es[0]), es[1..])
  }

  lemma ApplyPreservesInv(s: State, e: Event)
    requires Inv(s)
    requires e.Tick? && Eats(s) ==> FoodOk(s.snake, e.drawn)
    ensures Inv(Apply(s, e))
  {
    if e.Tick? {
      StepPreservesInv(s, e.drawn);
    }
  }

  /** Every state reached from a valid one keeps the invariant; in
      particular the score is always ten times the growth. */
  lemma {:induction false} RunPreservesInv(s: State, es: seq<Event>)
    requires Inv(s) && Admissible(s, es)
    ensures Inv(Run(s, es))
    ensures Run(s, es).score % Points == 0 && Run(s, es).score >= 0
    decreases |es|
  {
    if es != [] {
      ApplyPreservesInv(s, es[0]);
      RunPreservesInv(Apply(s, es[0]), es[1..]);
    }
  }

  /** Restart resets every field, whatever came before. */
  lemma RestartResets(s: State, es: seq<Event>)
    requires Admissible(s, es + [Restart])
    ensures Run(s, es + [Restart]) == Initial()
    decreases |es|
  {
    if es != [] {
      assert (es + [Restart])[1..] == es[1..] + [Restart];
      RestartResets(Apply(s, es[0]), es[1..]);
    }
  }

  // ---------------------------------------------------------------------
  // Play with the keyboard alone

  /** The page wires up the keyboard but not the on-screen pad. */
  predicate KeyboardOnly(es: seq<Event>) {
    forall i :: 0 <= i < |es| ==> !es[i].Control?
  }

  /** What keyboard play from the start keeps: the guard only lets the
      heading change along its own axis, so it stays left or right, and the
      one-cell snake stays on row 10, away from the food on row 5. */
  predicate KeyboardReachable(s: State) {
    && (s.direction == Left || s.direction == Right)
    && |s.snake| == 1 && s.snake[0].row == 10
    && s.food == InitialFood && s.score == 0
  }

  lemma KeyboardStep(s: State, e: Event)
    requires KeyboardReachable(s) && !e.Control?
    ensures KeyboardReachable(Apply(s, e))
  {
    if e.Key? && !s.gameOver {
      var k := ToLower(e.key);
      if k != " " && KeyDirection(k).Some? {
        var d := KeyDirection(k).value;
        assert Accepts(s.direction, d) ==> d == Left || d == Right;
      }
    }
  }

  /** With the keyboard alone the heading never leaves the horizontal axis,
      so the snake never reaches the food and the score stays 0. */
  lemma {:induction false} KeyboardNeverScores(s: State, es: seq<Event>)
    requires KeyboardReachable(s) && KeyboardOnly(es) && Admissible(s, es)
    ensures KeyboardReachable(Run(s, es))
    ensures Run(s, es).score == 0 && |Run(s, es).snake| == 1
    decreases |es|
  {
    if es != [] {
      KeyboardStep(s, es[0]);
      assert KeyboardOnly(es[1..]) by {
        forall i | 0 <= i < |es[1..]| ensures !es[1..][i].Control? {
          assert es[1..][i] == es[i + 1];
        }
      }
      KeyboardNeverScores(Apply(s, es[0]), es[1..]);
    }
  }

  lemma InitialKeyboardReachable()
    ensures KeyboardReachable(Initial())
  {
  }

  // ---------------------------------------------------------------------
  // The hook's state, updated in place

  class Game {
    var snake: seq<Cell>
    var food: Cell
    var direction: Dir
    var gameOver: bool
    var score: int
    var isPaused: bool

    function Snapshot(): State
      reads this
    {
      State(snake, food, direction, gameOver, score, isPaused)
    }

    ghost predicate Valid()
      reads this
    {
      Inv(Snapshot())
    }

    constructor ()
      ensures Valid() && Snapshot() == Initial()
    {
      snake := InitialSnake;
      food := InitialFood;
      direction := InitialDirection;
      gameOver := false;
      score := 0;
      isPaused := false;
    }

    /** `checkCollision`: the wall test, then a scan of every segment but
        the tail. */
    method CheckCollision(head: Cell) returns (hit: bool)
      ensures hit == Collides(snake, head)
    {
      if head.row < 0 || head.row >= GridSize || head.col < 0 || head.col >= GridSize {
        return true;
      }
      var i := 0;
      while i < |snake| - 1
        invariant 0 <= i && (i <= |snake| - 1 || i == 0)
        invariant forall j :: 0 <= j < i ==> snake[j] != head
      {
        if snake[i] == head {
          return true;
        }
        i := i + 1;
      }
      return false;
    }

    /** `generateFood`: a uniformly drawn cell, redrawn while it lies on
        the snake; the draw is a nondeterministic choice here. */
    method GenerateFood() returns (f: Cell)
      requires HasFreeCell(snake)
      ensures FoodOk(snake, f)
    {
      var r: int, c: int :| 0 <= r < GridSize && 0 <= c < GridSize && Cell(r, c) !in snake;
      f := Cell(r, c);
    }

    /** `moveSnake`: one timer tick. */
    method Tick()
      requires Valid()
      requires Eats(Snapshot()) ==> HasFreeCell(snake)
      modifies this
      ensures Valid()
      ensures Snapshot() == Step(old(Snapshot()), food)
      ensures Eats(old(Snapshot())) ==> FoodOk(old(snake), food)
    {
      ghost var before := Snapshot();
      if gameOver || isPaused {
        return;
      }
      var newSnake := snake;
      var head := Cell(newSnake[0].row + direction.dr, newSnake[0].col + direction.dc);
      var hit := CheckCollision(head);
      if hit {
        gameOver := true;
        return;
      }
      newSnake := [head] + newSnake;
      if head == food {
        // drawn against the snake from before the move
        var f := GenerateFood();
        food := f;
        score := score + Points;
      } else {
        newSnake := newSnake[..|newSnake| - 1];
      }
      snake := newSnake;
      StepPreservesInv(before, food);
    }

    /** `handleDirectionChange`. */
    method ChangeDirection(d: Dir)
      modifies this
      ensures Snapshot() == Turn(old(Snapshot()), d)
    {
      if (direction.dr == 0 && d.dr == 0) || (direction.dc == 0 && d.dc == 0) {
        direction := d;
      }
    }

    method TogglePause()
      modifies this
      ensures Snapshot() == old(Snapshot()).(isPaused := !old(isPaused))
    {
      isPaused := !isPaused;
    }

    /** The `keydown` listener. */
    method KeyDown(key: string)
      requires Valid()
      modifies this
      ensures Valid()
      ensures Snapshot() == KeyPressed(old(Snapshot()), key)
    {
      if gameOver {
        return;
      }
      var k := ToLower(key);
      if k == " " {
        TogglePause();
        return;
      }
      var d := KeyDirection(k);
      if d.Some? {
        ChangeDirection(d.value);
      }
    }

    /** `handleControlClick`. */
    method ControlClick(d: Dir)
      requires Valid()
      modifies this
      ensures Valid()
      ensures Snapshot() == ControlClicked(old(Snapshot()), d)
    {
      if !gameOver {
        ChangeDirection(d);
      }
    }

    /** `restartGame`. */
    method Restart()
      modifies this
      ensures Valid()
      ensures Snapshot() == Initial()
    {
      snake := InitialSnake;
      food := InitialFood;
      direction := InitialDirection;
      gameOver := false;
      score := 0;
      isPaused := false;
    }
  }
}
