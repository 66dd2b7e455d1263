/** The game orchestrator of the current revision (rust_snake/src/game.rs): the difficulty
    ladder, the bonus list, the score and the run state, driven by key presses and by
    `update(now)`. The random generator is a nondeterministic choice within the board;
    message boxes and the window title are not modelled. */
module CurrentGame {
  import opened Board
  import S = CurrentSnake
  import K = Keycodes

  datatype DifficultyLevel = Easy | Medium | Hard | Insane

  /** `move_duration` is in milliseconds. */
  datatype Difficulty = Difficulty(
    moveDuration: int,
    scorePerBonus: int,
    bonusCount: int,
    level: DifficultyLevel,
    nextLevelTrigger: int)

  /** Position on the ladder, Easy = 0 .. Insane = 3. */
  function Rank(l: DifficultyLevel): nat {
    match l
    case Easy => 0
    case Medium => 1
    case Hard => 2
    case Insane => 3
  }

  /** The fixed preset table. Every step up the ladder is 100 ms faster and keeps one
      bonus fewer on the board. */
  function GetDifficulty(level: DifficultyLevel): (d: Difficulty)
    ensures d.level == level
    ensures d.moveDuration == 400 - 100 * Rank(level)
    ensures d.bonusCount == 4 - Rank(level)
    ensures d.scorePerBonus > 0 && d.nextLevelTrigger > 0
  {
    match level
    case Easy => Difficulty(400, 1, 4, Easy, 10)
    case Medium => Difficulty(300, 4, 3, Medium, 50)
    case Hard => Difficulty(200, 6, 2, Hard, 100)
    case Insane => Difficulty(100, 10, 1, Insane, 9999999)
  }

  /** The level `get_new_difficulty` would move to: one step up, Insane staying Insane. */
  function NextLevel(l: DifficultyLevel): (n: DifficultyLevel)
    ensures Rank(n) == if l == Insane then 3 else Rank(l) + 1
  {
    match l
    case Easy => Medium
    case Medium => Hard
    case Hard => Insane
    case _ => l
  }

  /** Each level-up lowers the bonus target by exactly one, raises the reward, shortens the
      tick and raises the next threshold. */
  lemma LevelUpLadder(l: DifficultyLevel)
    requires l != Insane
    ensures GetDifficulty(NextLevel(l)).bonusCount == GetDifficulty(l).bonusCount - 1
    ensures GetDifficulty(NextLevel(l)).moveDuration < GetDifficulty(l).moveDuration
    ensures GetDifficulty(NextLevel(l)).scorePerBonus > GetDifficulty(l).scorePerBonus
    ensures GetDifficulty(NextLevel(l)).nextLevelTrigger > GetDifficulty(l).nextLevelTrigger
  {
  }

  /** Index of the first entry equal to `p`, or `|s|` when there is none. */
  function FirstMatch(s: seq<Pos>, p: Pos): (k: nat)
    ensures k <= |s|
    ensures k < |s| ==> s[k] == p
    ensures forall j :: 0 <= j < k ==> s[j] != p
    ensures k == |s| <==> p !in s
  {
    if s == [] then 0
    else if s[0] == p then 0
    else 1 + FirstMatch(s[1..], p)
  }

  /** The game-over test on a head position and body: strict lower bounds, inclusive upper
      bounds, or the head on a body entry. */
  predicate IsGameOver(pos: Pos, body: seq<Pos>) {
    pos.x < 0 || pos.x > WIDTH || pos.y < 0 || pos.y > HEIGHT || pos in body
  }

  /** The board edge: `x == WIDTH` still passes, `x == -1` does not. */
  lemma GameOverBoundary(y: int)
    requires 0 <= y <= HEIGHT
    ensures !IsGameOver(Pos(WIDTH, y), [])
    ensures IsGameOver(Pos(-1, y), [])
    ensures IsGameOver(Pos(WIDTH + 1, y), [])
  {
  }

  predicate IsArrow(k: K.KeyCode) {
    k == K.Up || k == K.Left || k == K.Down || k == K.Right
  }

  /** The heading an arrow key names: left and right give the horizontal headings. */
  function ArrowDir(k: K.KeyCode): (d: S.Dir)
    requires IsArrow(k)
    ensures (d == S.Left || d == S.Right) <==> (k == K.Left || k == K.Right)
  {
    match k
    case Up => S.Up
    case Left => S.Left
    case Down => S.Down
    case Right => S.Right
  }

  class Game {
    const snake: S.Snake
    var difficulty: Difficulty
    var bonusList: seq<Pos>
    var score: int
    var running: bool
    const width: int
    const height: int

    /** Everything `update` relies on except the head's position. */
    ghost predicate Consistent()
      reads this, snake
    {
      snake.Valid()
      && width == WIDTH && height == HEIGHT
      && difficulty == GetDifficulty(difficulty.level)
      && |bonusList| == difficulty.bonusCount
      && (forall b :: b in bonusList ==> InBoard(b))
      && score >= 0
    }

    /** Between updates the head is on a tile the game-over check accepts. */
    ghost predicate Valid()
      reads this, snake
    {
      Consistent() && InClosedBoard(snake.pos)
    }

    /** The state `init` establishes. */
    ghost predicate IsFreshGame()
      reads this, snake
    {
      score == 0 && !running && difficulty == GetDifficulty(Easy)
      && |bonusList| == 4 && (forall b :: b in bonusList ==> InBoard(b))
      && snake.body == [] && snake.dir == S.Right && snake.nextDir == S.Right
      && snake.pos == S.CENTER
    }

    /** `Game::new`: a fresh snake, then `init`. */
    constructor (now: int)
      ensures Valid() && IsFreshGame() && snake.lastMoveStart == now && fresh(snake)
    {
      snake := new S.Snake(now);
      difficulty := GetDifficulty(Easy);
      bonusList := [];
      width := SCREEN_WIDTH / BOX_SIZE;
      height := SCREEN_HEIGHT / BOX_SIZE;
      score := 0;
      running := false;
      new;
      Init();
    }

    method Init()
      requires width == WIDTH && height == HEIGHT
      modifies this, snake
      ensures Valid() && IsFreshGame()
      ensures snake.lastMoveStart == old(snake.lastMoveStart)
    {
      snake.Reset();
      score := 0;
      running := false;
      difficulty := GetDifficulty(Easy);
      bonusList := [];
      SpawnBonus();
    }

    /** Appends random in-board positions until the list holds `bonus_count` entries;
        existing entries keep their values and order. */
    method SpawnBonus()
      requires width == WIDTH && height == HEIGHT
      modifies this`bonusList
      ensures |bonusList| == if |old(bonusList)| < difficulty.bonusCount then difficulty.bonusCount
                             else |old(bonusList)|
      ensures bonusList[..|old(bonusList)|] == old(bonusList)
      ensures forall i :: |old(bonusList)| <= i < |bonusList| ==> InBoard(bonusList[i])
      ensures (forall b :: b in old(bonusList) ==> InBoard(b)) ==> forall b :: b in bonusList ==> InBoard(b)
    {
      while |bonusList| < difficulty.bonusCount
        invariant |old(bonusList)| <= |bonusList|
        invariant |old(bonusList)| < difficulty.bonusCount ==> |bonusList| <= difficulty.bonusCount
        invariant |old(bonusList)| >= difficulty.bonusCount ==> bonusList == old(bonusList)
        invariant bonusList[..|old(bonusList)|] == old(bonusList)
        invariant forall i :: |old(bonusList)| <= i < |bonusList| ==> InBoard(bonusList[i])
        decreases difficulty.bonusCount - |bonusList|
      {
        var x :| 0 <= x < width;
        var y :| 0 <= y < height;
        bonusList := bonusList + [Pos(x, y)];
      }
      if forall b :: b in old(bonusList) ==> InBoard(b) {
        forall j | 0 <= j < |bonusList|
          ensures InBoard(bonusList[j])
        {
          if j < |old(bonusList)| {
            assert bonusList[j] == old(bonusList)[j];
          }
        }
      }
    }

    /** What a tick of the movement clock leaves behind, against the state before it. The
        head moves one tile along the pending heading and the body shifts behind it. When the
        game-over test holds there, the game restarts from `init`, and the bonus check then
        runs on the reset state: only a fresh bonus on the centre tile is eaten at once, for a
        score of 1 and one grown segment. Otherwise the first bonus under the head, if any, is
        eaten: it is removed, the old level's reward is added, the level is reconsidered
        against the old threshold, the snake grows by one and the list is refilled to the
        (possibly new) target. Either way the movement clock restarts at `now`. */
    twostate predicate Ticked(now: int)
      reads this, snake
    {
      var head := S.Step(old(snake.pos), old(snake.nextDir));
      var body := S.Shifted(old(snake.body), old(snake.pos));
      var eaten := head in old(bonusList);
      var k := FirstMatch(old(bonusList), head);
      && snake.lastMoveStart == now
      && (if IsGameOver(head, body) then
            && !running && difficulty == GetDifficulty(Easy) && |bonusList| == 4
            && snake.pos == S.CENTER && snake.dir == S.Right && snake.nextDir == S.Right
            && ((score == 0 && snake.body == []) || (score == 1 && snake.body == [SENTINEL]))
          else
            && running == old(running)
            && snake.pos == head && snake.dir == old(snake.nextDir) && snake.nextDir == old(snake.nextDir)
            && snake.body == body + (if eaten then [SENTINEL] else [])
            && score == old(score) + (if eaten then old(difficulty.scorePerBonus) else 0)
            && difficulty == (if eaten && score > old(difficulty.nextLevelTrigger)
                              then GetDifficulty(NextLevel(old(difficulty.level)))
                              else old(difficulty))
            && |bonusList| == difficulty.bonusCount
            && (if eaten then
                  && |old(bonusList)| - 1 <= |bonusList|
                  && bonusList[..|old(bonusList)| - 1] == old(bonusList)[..k] + old(bonusList)[k + 1..]
                else bonusList == old(bonusList)))
    }

    /** `real_game_update`: nothing happens until the movement clock fires; then the
        game-over check runs and afterwards the bonus check, on whatever state the
        game-over check left (so a bonus spawned on the centre tile by a reset is eaten
        at once). */
    method RealGameUpdate(now: int)
      requires Valid() && snake.lastMoveStart <= now
      modifies this, snake
      ensures Valid()
      ensures now - old(snake.lastMoveStart) <= old(difficulty.moveDuration) ==> unchanged(this, snake)
      ensures now - old(snake.lastMoveStart) > old(difficulty.moveDuration) ==> Ticked(now)
    {
      var reach := snake.CheckReach(now, difficulty.moveDuration);
      if !reach {
        return;
      }
      CheckGameOver();
      CollectBonus(now);
    }

    /** Ends the run and restarts from `init` when the head left the board (the upper
        bounds are inclusive) or lies on a body entry; otherwise changes nothing. */
    method CheckGameOver()
      requires Consistent()
      modifies this, snake
      ensures Valid()
      ensures old(IsGameOver(snake.pos, snake.body)) ==>
                IsFreshGame() && snake.lastMoveStart == old(snake.lastMoveStart)
      ensures !old(IsGameOver(snake.pos, snake.body)) ==> unchanged(this, snake)
    {
      var over := snake.pos.x < 0 || snake.pos.x > width || snake.pos.y < 0 || snake.pos.y > height;
      if !over {
        over := snake.EatHimself();
      }
      if over {
        running := false;
        Init();
      }
    }

    /** The bonus part of `real_game_update`: the first bonus under the head is removed,
        the score rises by the reward of the level before the level check, the level is
        reconsidered, the snake grows and the list is refilled to the (possibly new) target. */
    method CollectBonus(now: int)
      requires Valid()
      modifies this, snake
      ensures Valid()
      ensures running == old(running) && snake.pos == old(snake.pos) && snake.dir == old(snake.dir)
      ensures score == old(score) || score == old(score) + old(difficulty.scorePerBonus)
      ensures FirstMatch(old(bonusList), snake.pos) == |old(bonusList)| ==> unchanged(this, snake)
      ensures var k := FirstMatch(old(bonusList), old(snake.pos));
              k < |old(bonusList)| ==>
                && score == old(score) + old(difficulty.scorePerBonus)
                && difficulty == (if score > old(difficulty.nextLevelTrigger)
                                  then GetDifficulty(NextLevel(old(difficulty.level)))
                                  else old(difficulty))
                && |bonusList| == difficulty.bonusCount
                && bonusList[..|old(bonusList)| - 1] == old(bonusList[..k] + bonusList[k + 1..])
                && snake.body == old(snake.body) + [SENTINEL]
                && snake.pos == old(snake.pos) && snake.dir == old(snake.dir)
                && snake.nextDir == old(snake.nextDir) && snake.lastMoveStart == now
                && running == old(running)
    {
      var i := 0;
      var n := |bonusList|;
      while i < n
        invariant 0 <= i <= n == |bonusList|
        invariant forall j :: 0 <= j < i ==> bonusList[j] != snake.pos
        invariant unchanged(this, snake)
      {
        var b := bonusList[i];
        if snake.pos.x == b.x && snake.pos.y == b.y {
          assert i == FirstMatch(bonusList, snake.pos);
          EatBonus(i, now);
          return;
        }
        i := i + 1;
      }
    }

    /** The bonus loop's body once entry `i`, the first under the head, is found: the
        reward, the clock, the removal, the level check, the growth and the refill. */
    method EatBonus(i: nat, now: int)
      requires Valid() && i < |bonusList| && i == FirstMatch(bonusList, snake.pos)
      modifies this, snake
      ensures Valid()
      ensures score == old(score) + old(difficulty.scorePerBonus)
      ensures difficulty == (if score > old(difficulty.nextLevelTrigger)
                             then GetDifficulty(NextLevel(old(difficulty.level)))
                             else old(difficulty))
      ensures |bonusList| == difficulty.bonusCount
      ensures bonusList[..|old(bonusList)| - 1] == old(bonusList[..i] + bonusList[i + 1..])
      ensures snake.body == old(snake.body) + [SENTINEL]
      ensures snake.pos == old(snake.pos) && snake.dir == old(snake.dir)
      ensures snake.nextDir == old(snake.nextDir) && snake.lastMoveStart == now
      ensures running == old(running)
    {
      score := score + difficulty.scorePerBonus;
      snake.Start(now);
      RemoveBonus(i);
      ghost var before := difficulty;
      GetNewDifficulty();
      if difficulty != before {
        LevelUpLadder(before.level);
      }
      snake.Grow();
      SpawnBonus();
    }

    /** `bonus_list.remove(i)`: entry `i` is dropped and the others keep their order. */
    method RemoveBonus(i: nat)
      requires i < |bonusList| && forall b :: b in bonusList ==> InBoard(b)
      modifies this`bonusList
      ensures bonusList == old(bonusList[..i] + bonusList[i + 1..])
      ensures forall b :: b in bonusList ==> InBoard(b)
    {
      ghost var list := bonusList;
      bonusList := bonusList[..i] + bonusList[i + 1..];
      forall j | 0 <= j < |bonusList|
        ensures InBoard(bonusList[j])
      {
        var from := if j < i then j else j + 1;
        assert bonusList[j] == list[from];
        assert list[from] in list;
      }
    }

    /** Moves one step up the ladder exactly when the score exceeds the current threshold. */
    method GetNewDifficulty()
      requires difficulty == GetDifficulty(difficulty.level)
      modifies this`difficulty
      ensures difficulty == if score > old(difficulty.nextLevelTrigger)
                            then GetDifficulty(NextLevel(old(difficulty.level)))
                            else old(difficulty)
    {
      var newDifficulty := match difficulty.level
        case Easy => Medium
        case Medium => Hard
        case Hard => Insane
        case _ => difficulty.level;
      if score > difficulty.nextLevelTrigger {
        difficulty := GetDifficulty(newDifficulty);
      }
    }

    /** Key routing. Escape always orders quit (the returned flag). While idle only an arrow
        starts the run, without telling the snake the direction; while running an arrow
        requests a turn and P pauses. */
    method KeyDownEvent(key: K.KeyCode) returns (quit: bool)
      requires Valid()
      modifies this`running, snake`nextDir
      ensures Valid()
      ensures quit <==> key == K.Escape
      ensures !old(running) ==> running == IsArrow(key) && snake.nextDir == old(snake.nextDir)
      ensures old(running) ==> running == (key != K.P)
      ensures old(running) && IsArrow(key) ==>
                snake.nextDir == if S.Perpendicular(snake.dir, ArrowDir(key)) then ArrowDir(key)
                                 else old(snake.nextDir)
      ensures old(running) && !IsArrow(key) ==> snake.nextDir == old(snake.nextDir)
    {
      quit := key == K.Escape;
      if !running {
        match key {
          case Up => running := true;
          case Left => running := true;
          case Down => running := true;
          case Right => running := true;
          case _ =>
        }
      } else {
        match key {
          case Up => snake.TryAdd(S.Up);
          case Left => snake.TryAdd(S.Left);
          case Down => snake.TryAdd(S.Down);
          case Right => snake.TryAdd(S.Right);
          case P => running := false;
          case _ =>
        }
      }
    }

    /** Advances the simulation only while running. */
    method Update(now: int)
      requires Valid() && snake.lastMoveStart <= now
      modifies this, snake
      ensures Valid()
      ensures !old(running) ==> unchanged(this, snake)
      ensures old(running) && now - old(snake.lastMoveStart) <= old(difficulty.moveDuration) ==> unchanged(this, snake)
      ensures old(running) && now - old(snake.lastMoveStart) > old(difficulty.moveDuration) ==> Ticked(now)
    {
      if running {
        RealGameUpdate(now);
      }
    }
  }

  /** A client run: the first arrow starts the game, and once 401 ms have passed the snake
      has moved from the centre one tile to the right. */
  method FirstInputStartsTheGame()
  {
    var g := new Game(0);
    var quit := g.KeyDownEvent(K.Right);
    assert g.running && !quit;
    g.Update(401);
    assert !IsGameOver(Pos(13, 7), []);
    assert g.snake.pos == Pos(13, 7);
  }
}
