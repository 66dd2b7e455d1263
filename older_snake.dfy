/** The snake of the older revision (src/game/snake.rs). The head and every segment carry the
    tile they stand on (`curr`) and the tile they move to (`dest`); the pending turn is a
    single slot that starts as `NONE`. Movement is fixed at one tile per 250 ms; the `f32`
    interpolation between ticks is not modelled. */
module OlderSnake {
  import opened Board
  import opened Quad
  import opened OlderSnakeBody

  datatype Dir = LEFT | RIGHT | UP | DOWN | NONE

  /** Time to cross one tile, in milliseconds. */
  const MOVE_RATIO: int := 250

  predicate Perpendicular(a: Dir, b: Dir) {
    ((a == LEFT || a == RIGHT) && (b == UP || b == DOWN))
    || ((a == UP || a == DOWN) && (b == LEFT || b == RIGHT))
  }

  /** One tile along a concrete direction, the other coordinate kept. */
  function Step(p: Pos, d: Dir): (q: Pos)
    requires d != NONE
    ensures (d == LEFT || d == RIGHT) ==> q.y == p.y && (q.x - p.x == 1 || p.x - q.x == 1)
    ensures (d == UP || d == DOWN) ==> q.x == p.x && (q.y - p.y == 1 || p.y - q.y == 1)
  {
    match d
    case LEFT => Pos(p.x - 1, p.y)
    case RIGHT => Pos(p.x + 1, p.y)
    case UP => Pos(p.x, p.y + 1)
    case DOWN => Pos(p.x, p.y - 1)
  }

  /** The sprite rotation the head is drawn with; the `NONE` arm draws it unrotated, like `UP`. */
  function GetRotation(d: Dir): (r: Rotation)
    ensures r == Unrotated <==> (d == UP || d == NONE)
  {
    match d
    case LEFT => Clockwise270
    case RIGHT => Clockwise90
    case UP => Unrotated
    case DOWN => Clockwise180
    case NONE => Unrotated
  }

  /** The four headings are drawn with four different rotations, each a quarter turn clockwise
      from the one before in the order UP, RIGHT, DOWN, LEFT. */
  lemma GetRotationDistinct()
    ensures forall a, b :: a != NONE && b != NONE && GetRotation(a) == GetRotation(b) ==> a == b
    ensures GetRotation(RIGHT) == RotateClockwise(GetRotation(UP))
    ensures GetRotation(DOWN) == RotateClockwise(GetRotation(RIGHT))
    ensures GetRotation(LEFT) == RotateClockwise(GetRotation(DOWN))
  {
  }

  /** A segment's tile after a tick: a pending segment jumps onto the old head tile, any
      other one reaches its target. */
  function NewCurr(b: SnakeBody, oldHead: Pos): Pos {
    if IsPending(b) then oldHead else b.dest
  }

  /** The body after a tick: every segment moves as `NewCurr` says, the first one then
      targets the new head tile and each later one the tile its predecessor now stands on. */
  function BodyStep(body: seq<SnakeBody>, oldHead: Pos, newHead: Pos): (r: seq<SnakeBody>)
    ensures |r| == |body|
    ensures forall i :: 0 <= i < |body| ==> r[i].curr == NewCurr(body[i], oldHead)
    ensures |body| > 0 ==> r[0].dest == newHead
    ensures forall i :: 0 < i < |body| ==> r[i].dest == r[i - 1].curr
  {
    seq(|body|, i requires 0 <= i < |body| =>
      SnakeBody(NewCurr(body[i], oldHead), if i == 0 then newHead else NewCurr(body[i - 1], oldHead)))
  }

  /** After a tick no segment is pending any more, as long as neither head tile has a -1 coordinate. */
  lemma BodyStepLeavesNothingPending(body: seq<SnakeBody>, oldHead: Pos, newHead: Pos)
    requires oldHead.x != -1 && oldHead.y != -1 && newHead.x != -1 && newHead.y != -1
    ensures forall i :: 0 <= i < |body| ==> !IsPending(BodyStep(body, oldHead, newHead)[i])
  {
    var r := BodyStep(body, oldHead, newHead);
    forall i | 0 <= i < |body|
      ensures !IsPending(r[i])
    {
      if i > 0 {
        assert r[i].dest == NewCurr(body[i - 1], oldHead);
      }
    }
  }

  /** The tile a newly grown segment starts on: the last segment's, or the head's. */
  function GrowthTile(body: seq<SnakeBody>, head: Pos): Pos {
    if body == [] then head else body[|body| - 1].curr
  }

  class Snake {
    var curr: Pos
    var dest: Pos
    var dir: Dir
    var nextDir: Dir
    var body: seq<SnakeBody>
    var lastMoveStart: int

    /** `dir` only ever holds a concrete heading, which keeps the `todo!()` arms unreachable. */
    ghost predicate Valid()
      reads this
    {
      dir != NONE
    }

    /** `Snake::new` (its sprites are not modelled). */
    constructor (now: int)
      ensures Valid()
      ensures body == [] && nextDir == NONE && dir == RIGHT
      ensures curr == Pos(12, 7) && dest == Pos(13, 7) && lastMoveStart == now
    {
      nextDir := NONE;
      body := [];
      curr := Pos(12, 7);
      dest := Pos(13, 7);
      dir := RIGHT;
      lastMoveStart := now;
    }

    method Reset()
      modifies this
      ensures Valid()
      ensures body == [] && nextDir == NONE && dir == RIGHT
      ensures curr == Pos(12, 7) && dest == Pos(13, 7)
      ensures lastMoveStart == old(lastMoveStart)
    {
      body := [];
      nextDir := NONE;
      curr := Pos(12, 7);
      dest := Pos(13, 7);
      dir := RIGHT;
    }

    method Start(now: int)
      modifies this`lastMoveStart
      ensures lastMoveStart == now
    {
      lastMoveStart := now;
    }

    /** Fires once more than 250 ms have passed since the last move. */
    method CheckReach(now: int) returns (reach: bool)
      requires Valid() && lastMoveStart <= now
      modifies this
      ensures Valid()
      ensures reach == (now - old(lastMoveStart) > MOVE_RATIO)
      ensures reach ==> lastMoveStart == now && curr == old(dest)
                         && dir == (if old(nextDir) != NONE then old(nextDir) else old(dir))
                         && dest == Step(old(dest), dir) && nextDir == old(nextDir)
                         && body == BodyStep(old(body), old(curr), old(dest))
      ensures !reach ==> unchanged(this)
    {
      reach := false;
      var moveDuration := now - lastMoveStart;
      if moveDuration > MOVE_RATIO {
        reach := true;
        ComputeTarget();
        lastMoveStart := now;
      }
    }

    /** Only the first accepted request counts: once `next_dir` is set, later calls do nothing.
        From `NONE` it takes `d` only when `d` is perpendicular to the heading. */
    method TryAdd(d: Dir)
      requires Valid()
      modifies this`nextDir
      ensures nextDir == if old(nextDir) == NONE && Perpendicular(dir, d) then d else old(nextDir)
    {
      if nextDir != NONE {
        return;
      }
      match dir
      case LEFT =>
        if d == UP || d == DOWN {
          nextDir := d;
        }
      case RIGHT =>
        if d == UP || d == DOWN {
          nextDir := d;
        }
      case UP =>
        if d == LEFT || d == RIGHT {
          nextDir := d;
        }
      case DOWN =>
        if d == LEFT || d == RIGHT {
          nextDir := d;
        }
      case NONE =>
        assert false;
    }

    /** Appends a pending segment standing on the last segment's tile, or the head's. */
    method Grow()
      modifies this`body
      ensures body == old(body) + [New(GrowthTile(old(body), curr).x, GrowthTile(old(body), curr).y)]
    {
      var x := curr.x;
      var y := curr.y;
      if |body| > 0 {
        var last := body[|body| - 1];
        x := last.curr.x;
        y := last.curr.y;
      }
      body := body + [New(x, y)];
    }

    /** The head reaches its target and picks the next one (the pending turn if one is set,
        which is never cleared); the body follows as `BodyStep` says. */
    method ComputeTarget()
      requires Valid()
      modifies this`curr, this`dest, this`dir, this`body
      ensures Valid()
      ensures curr == old(dest)
      ensures dir == if old(nextDir) != NONE then old(nextDir) else old(dir)
      ensures dest == Step(old(dest), dir)
      ensures body == BodyStep(old(body), old(curr), old(dest))
    {
      var newDir := if nextDir != NONE then nextDir else dir;

      var lastX := curr.x;
      var lastY := curr.y;
      curr := Pos(dest.x, curr.y);
      curr := Pos(curr.x, dest.y);
      match newDir {
        case LEFT =>
          dir := LEFT;
          dest := Pos(curr.x - 1, dest.y);
        case RIGHT =>
          dir := RIGHT;
          dest := Pos(curr.x + 1, dest.y);
        case UP =>
          dir := UP;
          dest := Pos(dest.x, curr.y + 1);
        case DOWN =>
          dir := DOWN;
          dest := Pos(dest.x, curr.y - 1);
        case NONE =>
          assert false;
      }

      FollowHead(Pos(lastX, lastY), curr);
    }

    /** The body loop of `compute_target`: each segment takes the tile it was heading for
        (a pending one the old head tile) and then heads for the tile its predecessor, or
        for the first segment the head, has just left. */
    method FollowHead(oldHead: Pos, newHead: Pos)
      modifies this`body
      ensures body == BodyStep(old(body), oldHead, newHead)
    {
      ghost var expected := BodyStep(body, oldHead, newHead);
      var destX := newHead.x;
      var destY := newHead.y;
      var i := 0;
      while i < |body|
        invariant 0 <= i <= |body| == |old(body)|
        invariant Pos(destX, destY) == if i == 0 then newHead else NewCurr(old(body)[i - 1], oldHead)
        invariant forall j :: 0 <= j < i ==> body[j] == expected[j]
        invariant forall j :: i <= j < |body| ==> body[j] == old(body)[j]
      {
        var b := body[i];
        var c := if b.dest.x == -1 || b.dest.y == -1 then oldHead else Pos(b.dest.x, b.dest.y);
        body := body[i := SnakeBody(c, Pos(destX, destY))];
        destX := c.x;
        destY := c.y;
        i := i + 1;
      }
    }

    /** True iff a segment that is not pending stands on the head's tile. */
    method EatHimself() returns (hit: bool)
      ensures hit <==> exists i :: 0 <= i < |body| && body[i].curr == curr && !IsPending(body[i])
    {
      var i := 0;
      while i < |body|
        invariant 0 <= i <= |body|
        invariant forall j :: 0 <= j < i ==> !(body[j].curr == curr && !IsPending(body[j]))
      {
        var b := body[i];
        if b.curr.x == curr.x && b.curr.y == curr.y && b.dest.x != -1 && b.dest.y != -1 {
          return true;
        }
        i := i + 1;
      }
      return false;
    }
  }

  /** The pending slot latches: after one accepted turn and any number of ticks, every later
      request is ignored until `reset`. */
  method TurnRequestsLatch(s: Snake)
    requires s.Valid()
    modifies s
  {
    s.Reset();
    s.TryAdd(UP);
    assert s.nextDir == UP;
    s.ComputeTarget();
    s.TryAdd(LEFT);
    assert s.nextDir == UP;
    s.ComputeTarget();
    assert s.dir == UP;
  }
}
