/** The tile board shared by both revisions of the game: a 1600 x 896 window cut into
    64-pixel boxes, so 25 x 14 tiles, with +y pointing up. */
module Board {

  const BOX_SIZE: int := 64
  const SCREEN_WIDTH: int := 1600
  const SCREEN_HEIGHT: int := 896

  /** Board extents in tiles (25 and 14). */
  const WIDTH: int := SCREEN_WIDTH / BOX_SIZE
  const HEIGHT: int := SCREEN_HEIGHT / BOX_SIZE

  /** A tile coordinate; `i16` in the source. */
  datatype Pos = Pos(x: int, y: int)

  /** The "no position yet" marker used for freshly grown segments. */
  const SENTINEL: Pos := Pos(-1, -1)

  /** Interior tiles: where bonuses are spawned. */
  predicate InBoard(p: Pos) {
    0 <= p.x < WIDTH && 0 <= p.y < HEIGHT
  }

  /** Tiles the game-over check accepts: its upper bounds are inclusive. */
  predicate InClosedBoard(p: Pos) {
    0 <= p.x <= WIDTH && 0 <= p.y <= HEIGHT
  }
}
