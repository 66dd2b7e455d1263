/** The snake of the current revision (rust_snake/src/game/snake.rs): a head tile, the
    committed and the pending direction, and the body trail, head-adjacent first, where
    `SENTINEL` marks a segment grown since the last move. */
module CurrentSnake {
  import opened Board
  import opened Quad

  datatype Dir = Left | Right | Up | Down

  /** Where the snake starts: the middle of the board, (12, 7). */
  const CENTER: Pos := Pos(SCREEN_WIDTH / (2 * BOX_SIZE), SCREEN_HEIGHT / (2 * BOX_SIZE))

  function Opposite(d: Dir): (r: Dir)
    ensures r != d && !Perpendicular(d, r)
  {
    match d
    case Left => Right
    case Right => Left
    case Up => Down
    case Down => Up
  }

  /** A turn the snake accepts: from a horizontal heading only to a vertical one and back. */
  predicate Perpendicular(a: Dir, b: Dir) {
    (a == Left || a == Right) <==> (b == Up || b == Down)
  }

  /** The head's move for one tick: one tile along `d`, the other coordinate kept. */
  function Step(p: Pos, d: Dir): (q: Pos)
    ensures (d == Left || d == Right) ==> q.y == p.y && (q.x - p.x == 1 || p.x - q.x == 1)
    ensures (d == Up || d == Down) ==> q.x == p.x && (q.y - p.y == 1 || p.y - q.y == 1)
  {
    match d
    case Left => Pos(p.x - 1, p.y)
    case Right => Pos(p.x + 1, p.y)
    case Up => Pos(p.x, p.y + 1)
    case Down => Pos(p.x, p.y - 1)
  }

  /** The heading one quarter turn clockwise, with +y up. */
  function TurnClockwise(d: Dir): (r: Dir)
    ensures Perpendicular(d, r)
  {
    match d
    case Up => Right
    case Right => Down
    case Down => Left
    case Left => Up
  }

  /** The sprite rotation the head is drawn with: heading up is the unrotated sprite, and the
      horizontal headings are the quarter turns. */
  function GetRotation(d: Dir): (r: Rotation)
    ensures r == Unrotated <==> d == Up
    ensures (r == Clockwise90 || r == Clockwise270) <==> (d == Left || d == Right)
  {
    match d
    case Left => Clockwise270
    case Right => Clockwise90
    case Up => Unrotated
    case Down => Clockwise180
  }

  /** The body after one tick: the old head becomes the first segment and every segment
      takes the place of the one before it; the old tail is dropped. */
  function Shifted(body: seq<Pos>, head: Pos): (r: seq<Pos>)
    ensures |r| == |body|
    ensures |body| > 0 ==> r[0] == head
    ensures forall i :: 0 < i < |body| ==> r[i] == body[i - 1]
  {
    if body == [] then [] else [head] + body[..|body| - 1]
  }

  lemma StepThenOpposite(p: Pos, d: Dir)
    ensures Step(Step(p, d), Opposite(d)) == p
  {
  }

  /** The head sprite turns a quarter clockwise whenever the heading does; heading up is unrotated. */
  lemma GetRotationFollowsHeading(d: Dir)
    ensures GetRotation(TurnClockwise(d)) == RotateClockwise(GetRotation(d))
    ensures GetRotation(Up) == Unrotated
    ensures forall e :: GetRotation(e) == GetRotation(d) ==> e == d
  {
  }

  /** A grown segment is overwritten by the next tick: shifting `body + [SENTINEL]` yields the
      old head followed by the whole old body. */
  lemma {:induction false} ShiftedAfterGrow(body: seq<Pos>, head: Pos)
    ensures Shifted(body + [SENTINEL], head) == [head] + body
  {
    assert (body + [SENTINEL])[..|body|] == body;
  }

  /** Shifting never introduces a sentinel: if neither the head nor the body holds one, the shifted body does not. */
  lemma ShiftedKeepsRealPositions(body: seq<Pos>, head: Pos)
    requires head != SENTINEL && SENTINEL !in body
    ensures SENTINEL !in Shifted(body, head)
  {
  }

  class Snake {
    var pos: Pos
    var dir: Dir
    var nextDir: Dir
    var body: seq<Pos>
    var lastMoveStart: int

    /** The pending heading is never a reversal of the committed one. */
    ghost predicate Valid()
      reads this
    {
      nextDir != Opposite(dir)
    }

    /** `Snake::new` (its two sprites are not part of this model). */
    constructor (now: int)
      ensures Valid()
      ensures body == [] && dir == Right && nextDir == Right && pos == CENTER
      ensures lastMoveStart == now
    {
      body := [];
      dir := Right;
      nextDir := Right;
      pos := CENTER;
      lastMoveStart := now;
    }

    method Reset()
      modifies this
      ensures Valid()
      ensures body == [] && dir == Right && nextDir == Right && pos == CENTER
      ensures lastMoveStart == old(lastMoveStart)
    {
      body := [];
      dir := Right;
      nextDir := Right;
      pos := Pos(SCREEN_WIDTH / (2 * BOX_SIZE), pos.y);
      pos := Pos(pos.x, SCREEN_HEIGHT / (2 * BOX_SIZE));
    }

    method Start(now: int)
      modifies this`lastMoveStart
      ensures lastMoveStart == now
    {
      lastMoveStart := now;
    }

    /** One tick of the movement clock: moves only once more than `moveDuration`
        milliseconds have passed since the last move. */
    method CheckReach(now: int, moveDuration: int) returns (reach: bool)
      requires Valid() && lastMoveStart <= now
      modifies this
      ensures Valid()
      ensures reach == (now - old(lastMoveStart) > moveDuration)
      ensures reach ==> (dir == old(nextDir) && nextDir == old(nextDir)
                         && pos == Step(old(pos), old(nextDir))
                         && body == Shifted(old(body), old(pos))
                         && lastMoveStart == now)
      ensures !reach ==> unchanged(this)
    {
      reach := false;
      var currMoveDuration := now - lastMoveStart;
      if currMoveDuration > moveDuration {
        reach := true;
        ComputeTarget();
        lastMoveStart := now;
      }
    }

    /** Queues a turn: accepted exactly when it is perpendicular to the committed heading;
        a later accepted request overwrites an earlier one. */
    method TryAdd(d: Dir)
      requires Valid()
      modifies this`nextDir
      ensures Valid()
      ensures nextDir == if Perpendicular(dir, d) then d else old(nextDir)
    {
      match dir
      case Left =>
        if d == Up || d == Down {
          nextDir := d;
        }
      case Right =>
        if d == Up || d == Down {
          nextDir := d;
        }
      case Up =>
        if d == Left || d == Right {
          nextDir := d;
        }
      case Down =>
        if d == Left || d == Right {
          nextDir := d;
        }
    }

    /** Appends one not-yet-placed segment (the body sprite's shader clock is not modelled). */
    method Grow()
      modifies this`body
      ensures body == old(body) + [SENTINEL]
    {
      body := body + [SENTINEL];
    }

    /** Commits the pending heading, moves the head and shifts the body in place. */
    method ComputeTarget()
      modifies this`dir, this`pos, this`body
      ensures dir == old(nextDir)
      ensures pos == Step(old(pos), old(nextDir))
      ensures body == Shifted(old(body), old(pos))
    {
      dir := nextDir;

      var lastX, lastY := pos.x, pos.y;
      match dir {
        case Left => pos := Pos(pos.x - 1, pos.y);
        case Right => pos := Pos(pos.x + 1, pos.y);
        case Up => pos := Pos(pos.x, pos.y + 1);
        case Down => pos := Pos(pos.x, pos.y - 1);
      }

      var i := 0;
      while i < |body|
        invariant 0 <= i <= |body| == |old(body)|
        invariant dir == old(nextDir) && pos == Step(old(pos), old(nextDir))
        invariant Pos(lastX, lastY) == if i == 0 then old(pos) else old(body)[i - 1]
        invariant forall j :: 0 <= j < i ==> body[j] == if j == 0 then old(pos) else old(body)[j - 1]
        invariant forall j :: i <= j < |body| ==> body[j] == old(body)[j]
      {
        var currX, currY := body[i].x, body[i].y;
        body := body[i := Pos(lastX, lastY)];
        lastX, lastY := currX, currY;
        i := i + 1;
      }
    }

    /** True iff the head lies on some body entry (a sentinel entry included). */
    method EatHimself() returns (hit: bool)
      ensures hit <==> pos in body
    {
      var i := 0;
      while i < |body|
        invariant 0 <= i <= |body|
        invariant pos !in body[..i]
      {
        if body[i].x == pos.x && body[i].y == pos.y {
          return true;
        }
        i := i + 1;
      }
      assert body[..i] == body;
      return false;
    }
  }
}
