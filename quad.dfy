/** The textured quad every sprite draws: four vertices with a position in normalised
    device coordinates and a texture coordinate. Positions are kept symbolic as exact
    quotients (`-w / 1600` stays `Ratio(-w, 1600)`), texture coordinates are the exact
    values 0 and 1 the tables use. */
module Quad {
  import opened Board

  /** The four quarter turns a sprite can be drawn with (`ROTATION::None` / `NONE` is `Unrotated`). */
  datatype Rotation = Unrotated | Clockwise90 | Clockwise180 | Clockwise270

  /** An exact quotient `num / den`, standing for the `f32` division of the source. */
  datatype Ratio = Ratio(num: int, den: int)

  datatype Corner = Corner(x: Ratio, y: Ratio)

  datatype Uv = Uv(u: int, v: int)

  datatype Vertex = Vertex(pos: Corner, uv: Uv)

  /** The quarter turn one step further clockwise. */
  function RotateClockwise(r: Rotation): Rotation {
    match r
    case Unrotated => Clockwise90
    case Clockwise90 => Clockwise180
    case Clockwise180 => Clockwise270
    case Clockwise270 => Unrotated
  }

  /** Half extents of a `w` x `h` pixel sprite: bottom-left, bottom-right, top-right, top-left. */
  function QuadCorners(w: int, h: int): seq<Corner> {
    [ Corner(Ratio(-w, SCREEN_WIDTH), Ratio(-h, SCREEN_HEIGHT)),
      Corner(Ratio( w, SCREEN_WIDTH), Ratio(-h, SCREEN_HEIGHT)),
      Corner(Ratio( w, SCREEN_WIDTH), Ratio( h, SCREEN_HEIGHT)),
      Corner(Ratio(-w, SCREEN_WIDTH), Ratio( h, SCREEN_HEIGHT)) ]
  }

  /** The corners of the unit texture square. */
  const UNIT_SQUARE: seq<Uv> := [Uv(0, 0), Uv(1, 0), Uv(1, 1), Uv(0, 1)]

  /** A quad of a `w` x `h` sprite whose corners carry the texture coordinates `uvs`. */
  function MakeQuad(w: int, h: int, uvs: seq<Uv>): (vs: seq<Vertex>)
    requires |uvs| == 4
    ensures |vs| == 4
    ensures forall i :: 0 <= i < 4 ==> vs[i] == Vertex(QuadCorners(w, h)[i], uvs[i])
    ensures Positions(vs) == QuadCorners(w, h) && Uvs(vs) == uvs
  {
    var c := QuadCorners(w, h);
    [Vertex(c[0], uvs[0]), Vertex(c[1], uvs[1]), Vertex(c[2], uvs[2]), Vertex(c[3], uvs[3])]
  }

  function Positions(vs: seq<Vertex>): (ps: seq<Corner>)
    ensures |ps| == |vs| && forall i :: 0 <= i < |vs| ==> ps[i] == vs[i].pos
  {
    if vs == [] then [] else [vs[0].pos] + Positions(vs[1..])
  }

  function Uvs(vs: seq<Vertex>): (us: seq<Uv>)
    ensures |us| == |vs| && forall i :: 0 <= i < |vs| ==> us[i] == vs[i].uv
  {
    if vs == [] then [] else [vs[0].uv] + Uvs(vs[1..])
  }

  /** `uvs` lists each corner of the unit texture square exactly once: four entries, no two
      alike, each a corner of the square (so, the square having four corners, every corner
      appears). */
  predicate IsUnitSquarePermutation(uvs: seq<Uv>) {
    |uvs| == 4
    && (forall i, j :: 0 <= i < j < |uvs| ==> uvs[i] != uvs[j])
    && (forall i :: 0 <= i < |uvs| ==> uvs[i] in UNIT_SQUARE)
  }

  /** `s` rotated left by `k` places: element `i` is `s[(i + k) % |s|]`. */
  function ShiftLeft<T>(s: seq<T>, k: nat): (r: seq<T>)
    requires |s| > 0
    ensures |r| == |s|
  {
    seq(|s|, i requires 0 <= i < |s| => s[(i + k) % |s|])
  }

  function Reverse<T>(s: seq<T>): (r: seq<T>)
    ensures |r| == |s| && forall i :: 0 <= i < |s| ==> r[i] == s[|s| - 1 - i]
  {
    if s == [] then [] else Reverse(s[1..]) + [s[0]]
  }
}
