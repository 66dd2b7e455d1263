/** The game orchestrator of the older revision (src/game.rs): one bonus, a score that is
    reset but never raised, and a run state that the first key release switches on. The
    random generator is a nondeterministic choice within the board and the clock is the
    `now` parameter; rendering is not modelled. */
module OlderGame {
  import opened Board
  import opened OlderSnakeBody
  import S = OlderSnake
  import K = Keycodes

  /** `check_game_over`'s test: the head's target is off the board (upper bounds inclusive)
      or a settled segment lies on the head's tile. */
  predicate IsGameOver(dest: Pos, curr: Pos, body: seq<SnakeBody>) {
    dest.x < 0 || dest.x > WIDTH || dest.y < 0 || dest.y > HEIGHT
    || exists i :: 0 <= i < |body| && body[i].curr == curr && !IsPending(body[i])
  }

  /** The off-board part of the test lets the head target column 25 and row 14, one past the
      last tile, and rejects one step further. */
  lemma GameOverBoundary(y: int)
    requires 0 <= y <= HEIGHT
    ensures !IsGameOver(Pos(WIDTH, y), Pos(WIDTH - 1, y), [])
    ensures IsGameOver(Pos(WIDTH + 1, y), Pos(WIDTH, y), [])
    ensures IsGameOver(Pos(-1, y), Pos(0, y), [])
  {
  }

  /** The turn an arrow key asks for; any other key asks for none. */
  function ArrowDir(k: K.KeyCode): (d: S.Dir)
    ensures d == S.NONE <==> !(k == K.Up || k == K.Left || k == K.Down || k == K.Right)
  {
    match k
    case Up => S.UP
    case Left => S.LEFT
    case Down => S.DOWN
    case Right => S.RIGHT
    case _ => S.NONE
  }

  class Game {
    const snake: S.Snake
    var bonus: Pos
    var score: int
    var running: bool
    const width: int
    const height: int

    /** The score stays 0 for good: nothing in this revision raises it. */
    ghost predicate Valid()
      reads this, snake
    {
      snake.Valid()
      && width == WIDTH && height == HEIGHT
      && InBoard(bonus)
      && InClosedBoard(snake.curr) && InClosedBoard(snake.dest)
      && score == 0
    }

    /** The state `init` establishes. */
    ghost predicate IsFreshGame()
      reads this, snake
    {
      score == 0 && !running && InBoard(bonus)
      && snake.body == [] && snake.nextDir == S.NONE && snake.dir == S.RIGHT
      && snake.curr == Pos(12, 7) && snake.dest == Pos(13, 7)
    }

    /** `Game::new`: a fresh snake, then `init`. */
    constructor (now: int)
      ensures Valid() && IsFreshGame() && snake.lastMoveStart == now && fresh(snake)
    {
      snake := new S.Snake(now);
      bonus := Pos(0, 0);
      width := 25;
      height := 14;
      score := 0;
      running := false;
      new;
      Init();
    }

    method Init()
      requires width == WIDTH && height == HEIGHT
      modifies this, snake
      ensures Valid() && IsFreshGame()
      ensures snake.lastMoveStart == old(snake.lastMoveStart)
    {
      snake.Reset();
      score := 0;
      running := false;
      SpawnBonus();
    }

    /** Moves the bonus to a random tile of the board. */
    method SpawnBonus()
      requires width == WIDTH && height == HEIGHT
      modifies this`bonus
      ensures InBoard(bonus)
    {
      var x :| 0 <= x < width;
      var y :| 0 <= y < height;
      bonus := Pos(x, y);
    }

    /** What a tick of the movement clock leaves behind, against the state before it. The
        head reaches its target and heads one tile further along the pending turn (or its
        heading), and the body follows as `BodyStep` says. When the game-over test holds
        there, the game restarts from `init`, and the bonus check then runs on the reset
        state: only a fresh bonus on the start tile (12, 7) is eaten at once, growing the
        snake by one segment there. Otherwise a bonus on the tile the head reached is eaten:
        the snake grows by one pending segment and the bonus moves to a new tile. Either way
        the movement clock restarts at `now`. */
    twostate predicate Ticked(now: int)
      requires old(snake.Valid())
      reads this, snake
    {
      var dir := if old(snake.nextDir) != S.NONE then old(snake.nextDir) else old(snake.dir);
      var dest := S.Step(old(snake.dest), dir);
      var body := S.BodyStep(old(snake.body), old(snake.curr), old(snake.dest));
      var eaten := old(snake.dest) == old(bonus);
      var grown := S.GrowthTile(body, old(snake.dest));
      && snake.lastMoveStart == now
      && (if IsGameOver(dest, old(snake.dest), body) then
            && !running && score == 0
            && snake.curr == Pos(12, 7) && snake.dest == Pos(13, 7)
            && snake.dir == S.RIGHT && snake.nextDir == S.NONE
            && (snake.body == [] || snake.body == [New(12, 7)])
          else
            && running == old(running) && score == old(score)
            && snake.curr == old(snake.dest) && snake.dest == dest && snake.dir == dir
            && snake.nextDir == old(snake.nextDir)
            && snake.body == body + (if eaten then [New(grown.x, grown.y)] else [])
            && (if eaten then InBoard(bonus) else bonus == old(bonus)))
    }

    /** `real_game_update`: nothing happens until the movement clock fires; then the
        game-over check runs and afterwards the bonus check, against the head's tile as the
        game-over check left it. */
    method RealGameUpdate(now: int)
      requires Valid() && snake.lastMoveStart <= now
      modifies this, snake
      ensures Valid()
      ensures now - old(snake.lastMoveStart) <= S.MOVE_RATIO ==> unchanged(this, snake)
      ensures now - old(snake.lastMoveStart) > S.MOVE_RATIO ==> Ticked(now)
    {
      var reach := snake.CheckReach(now);
      if !reach {
        return;
      }
      CheckGameOver();
      if snake.curr.x == bonus.x && snake.curr.y == bonus.y {
        snake.Grow();
        SpawnBonus();
      }
    }

    /** Restarts from `init` when `IsGameOver` holds; otherwise changes nothing. */
    method CheckGameOver()
      requires snake.Valid() && width == WIDTH && height == HEIGHT
      requires InBoard(bonus) && score == 0 && InClosedBoard(snake.curr)
      modifies this, snake
      ensures Valid()
      ensures old(IsGameOver(snake.dest, snake.curr, snake.body)) ==>
                IsFreshGame() && snake.lastMoveStart == old(snake.lastMoveStart)
      ensures !old(IsGameOver(snake.dest, snake.curr, snake.body)) ==> unchanged(this, snake)
    {
      var over := snake.dest.x < 0 || snake.dest.x > width || snake.dest.y < 0 || snake.dest.y > height;
      if !over {
        over := snake.EatHimself();
      }
      if over {
        Init();
      }
    }

    /** Key routing on release. While idle any key starts the run and the snake's clock;
        while running an arrow requests a turn and Escape orders quit (the returned flag). */
    method KeyUpEvent(key: K.KeyCode, now: int) returns (quit: bool)
      requires Valid()
      modifies this`running, snake`nextDir, snake`lastMoveStart
      ensures Valid()
      ensures quit <==> old(running) && key == K.Escape
      ensures running
      ensures !old(running) ==> snake.lastMoveStart == now && snake.nextDir == old(snake.nextDir)
      ensures old(running) ==> snake.lastMoveStart == old(snake.lastMoveStart)
      ensures old(running) && ArrowDir(key) != S.NONE ==>
                snake.nextDir == if old(snake.nextDir) == S.NONE && S.Perpendicular(snake.dir, ArrowDir(key))
                                 then ArrowDir(key) else old(snake.nextDir)
      ensures old(running) && ArrowDir(key) == S.NONE ==> snake.nextDir == old(snake.nextDir)
    {
      quit := false;
      if !running {
        running := true;
        snake.Start(now);
      } else {
        match key {
          case Up => snake.TryAdd(S.UP);
          case Left => snake.TryAdd(S.LEFT);
          case Down => snake.TryAdd(S.DOWN);
          case Right => snake.TryAdd(S.RIGHT);
          case Escape => quit := true;
          case _ =>
        }
      }
    }

    /** Advances the simulation only while running. */
    method Update(now: int)
      requires Valid() && snake.lastMoveStart <= now
      modifies this, snake
      ensures Valid()
      ensures !old(running) ==> unchanged(this, snake)
      ensures old(running) && now - old(snake.lastMoveStart) <= S.MOVE_RATIO ==> unchanged(this, snake)
      ensures old(running) && now - old(snake.lastMoveStart) > S.MOVE_RATIO ==> Ticked(now)
    {
      if running {
        RealGameUpdate(now);
      }
    }
  }

  /** A client run: the first key release starts the game; after 251 ms the head stands on
      (13, 7) and targets (14, 7). */
  method FirstKeyStartsTheGame()
  {
    var g := new Game(0);
    var quit := g.KeyUpEvent(K.P, 0);
    assert g.running && !quit;
    g.Update(251);
    assert !IsGameOver(Pos(14, 7), Pos(13, 7), []);
    assert g.snake.curr == Pos(13, 7) && g.snake.dest == Pos(14, 7);
  }
}
