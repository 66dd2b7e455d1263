/** A body segment of the older revision (src/game/snake_body.rs): the tile it stands on
    and the tile it is moving to. A `dest` with a -1 coordinate means "no target yet".
    The interpolated `f32` drawing position is not modelled. */
module OlderSnakeBody {
  import opened Board

  datatype SnakeBody = SnakeBody(curr: Pos, dest: Pos)

  /** The test the snake applies to a segment's target: pending while either coordinate is -1. */
  predicate IsPending(b: SnakeBody) {
    b.dest.x == -1 || b.dest.y == -1
  }

  /** `SnakeBody::new`: total over every coordinate pair; the new segment stands on `(x, y)`
      and is pending. */
  function New(x: int, y: int): (b: SnakeBody)
    ensures b.curr == Pos(x, y)
    ensures b.dest == SENTINEL && IsPending(b)
  {
    SnakeBody(Pos(x, y), Pos(-1, -1))
  }
}
