/** A sprite of the older revision (src/graphical_object.rs): the same textured quad as the
    current revision, drawn through miniquad. */
module OlderSprite {
  import opened Wrappers
  import opened Board
  import opened Quad
  import Graphics
  import opened Miniquad

  /** One `Vertex` (two `Vec2` of `f32`) and the four of a quad. */
  const VERTEX_BYTES: nat := 16
  const QUAD_BYTES: nat := 4 * VERTEX_BYTES
  /** The two triangles of the quad, as indices into its four corners, stored as `u16`. */
  const QUAD_INDICES: seq<nat> := [0, 1, 2, 0, 2, 3]
  const INDEX_BYTES: nat := 2 * 6
  /** `Uniforms`: one `(f32, f32)` offset. */
  const UNIFORMS_BYTES: nat := 8
  /** The side of the texture `init_bindings` creates, whatever the sprite's size. */
  const TEXTURE_SIDE: nat := 64

  const UNWRAP_ERR := "called `Result::unwrap()` on an `Err` value"

  /** `pos` and `uv`, both read from the default (first) buffer layout. */
  const SPRITE_ATTRIBUTES: seq<Graphics.VertexAttribute> := [Graphics.VertexAttribute("pos", 0), Graphics.VertexAttribute("uv", 0)]

  /** The texture coordinates this revision's `get_rot_vertex` gives the corners bottom-left,
      bottom-right, top-right, top-left for each rotation. */
  function RotUvs(rotation: Rotation): (uvs: seq<Uv>)
    ensures |uvs| == 4
  {
    match rotation
    case Unrotated => [Uv(0, 0), Uv(1, 0), Uv(1, 1), Uv(0, 1)]
    case Clockwise90 => [Uv(1, 0), Uv(1, 1), Uv(0, 1), Uv(0, 0)]
    case Clockwise180 => [Uv(0, 1), Uv(1, 1), Uv(1, 0), Uv(0, 0)]
    case Clockwise270 => [Uv(0, 1), Uv(0, 0), Uv(1, 0), Uv(1, 1)]
  }

  /** `get_rot_vertex`: the same four corners in the same order for every rotation, the
      texture coordinates a reordering of the unit square's corners. */
  function GetRotVertex(rotation: Rotation, width: int, height: int): (vs: seq<Vertex>)
    ensures |vs| == 4
    ensures Positions(vs) == QuadCorners(width, height)
    ensures IsUnitSquarePermutation(Uvs(vs))
  {
    RotUvsPermuteUnitSquare(rotation);
    MakeQuad(width, height, RotUvs(rotation))
  }

  /** Every row of the table uses each corner of the unit square once. */
  lemma RotUvsPermuteUnitSquare(rotation: Rotation)
    ensures IsUnitSquarePermutation(RotUvs(rotation))
  {
    var uvs := RotUvs(rotation);
    assert uvs[0] in UNIT_SQUARE && uvs[1] in UNIT_SQUARE && uvs[2] in UNIT_SQUARE && uvs[3] in UNIT_SQUARE;
  }

  /** Against the unrotated coordinates, a quarter turn clockwise shifts them left by one
      place, three quarter turns by three places, and a half turn reverses them. */
  lemma RotationsAgainstUnrotated()
    ensures RotUvs(Unrotated) == UNIT_SQUARE
    ensures RotUvs(Clockwise90) == ShiftLeft(RotUvs(Unrotated), 1)
    ensures RotUvs(Clockwise180) == Reverse(RotUvs(Unrotated))
    ensures RotUvs(Clockwise270) == ShiftLeft(RotUvs(Unrotated), 3)
  {
    var none := RotUvs(Unrotated);
    var one, three, reversed := ShiftLeft(none, 1), ShiftLeft(none, 3), Reverse(none);
    assert one[0] == none[1] && one[1] == none[2] && one[2] == none[3] && one[3] == none[0];
    assert three[0] == none[3] && three[1] == none[0] && three[2] == none[1] && three[3] == none[2];
    assert reversed[0] == none[3] && reversed[1] == none[2] && reversed[2] == none[1] && reversed[3] == none[0];
  }

  /** `init_bindings`: the unrotated quad, the six indices and a 64 x 64 texture from the
      pixel bytes, in that order. The sprite's size shapes the quad only: the texture is
      64 x 64 whatever `width` and `height` are. The ids are the ones miniquad hands out. */
  method InitBindings(ctx: Context, texture: seq<bv8>, width: int, height: int,
                      vertexId: nat, indexId: nat, textureId: nat)
    returns (b: Graphics.Bindings, ghost quad: seq<Vertex>)
    modifies ctx`requests
    ensures quad == GetRotVertex(Unrotated, width, height)
    ensures b == Graphics.Bindings([Graphics.Buffer(vertexId)], Graphics.Buffer(indexId),
                                   [Graphics.Texture(textureId, TEXTURE_SIDE, TEXTURE_SIDE)])
    ensures ctx.requests == old(ctx.requests) + [ NewBuffer(Graphics.VertexBuffer, QUAD_BYTES, vertexId),
                                                  NewBuffer(Graphics.IndexBuffer, INDEX_BYTES, indexId),
                                                  NewTexture(TEXTURE_SIDE, TEXTURE_SIDE, |texture|, textureId) ]
  {
    quad := GetRotVertex(Unrotated, width, height);
    var vertexBuffer := ctx.BufferImmutable(Graphics.VertexBuffer, QUAD_BYTES, vertexId);
    var indexBuffer := ctx.BufferImmutable(Graphics.IndexBuffer, INDEX_BYTES, indexId);
    var image := ctx.TextureFromRgba8(TEXTURE_SIDE, TEXTURE_SIDE, texture, textureId);
    b := Graphics.Bindings([vertexBuffer], indexBuffer, [image]);
  }

  /** `init_pipeline`: a shader (whose compilation outcome is `program`), unwrapped, then a
      pipeline with the `pos` and `uv` attributes; `pipelineId` is the new pipeline. */
  method InitPipeline(ctx: Context, program: Result<nat>, pipelineId: nat) returns (r: Result<nat>)
    modifies ctx`requests
    ensures r.Ok? <==> program.Ok?
    ensures program.Failed? ==> r == Failed(UNWRAP_ERR) && ctx.requests == old(ctx.requests)
    ensures program.Ok? ==>
              && r.value == pipelineId
              && ctx.requests == old(ctx.requests) + [NewShader(program.value), NewPipeline(SPRITE_ATTRIBUTES, program.value, pipelineId)]
  {
    var shader := ctx.ShaderNew(program);
    if shader.Failed? {
      return Failed(UNWRAP_ERR);
    }
    var pipeline := ctx.PipelineNew(SPRITE_ATTRIBUTES, shader.value, pipelineId);
    r := Ok(pipeline);
  }

  /** A sprite: its size in pixels, the offsets that put its bottom-left corner at the
      origin, what is bound for drawing it and its pipeline. */
  class GraphicalObject {
    const width: int
    const height: int
    /** `width / 1600` and `height / 896`, kept exact. */
    const xOffset: Ratio
    const yOffset: Ratio
    var bindings: Graphics.Bindings
    const pipeline: nat
    /** The vertices last uploaded into `bindings`' vertex buffer. */
    ghost var quad: seq<Vertex>

    constructor (width: int, height: int, bindings: Graphics.Bindings, pipeline: nat, ghost quad: seq<Vertex>)
      ensures this.width == width && this.height == height
      ensures xOffset == Ratio(width, SCREEN_WIDTH) && yOffset == Ratio(height, SCREEN_HEIGHT)
      ensures this.bindings == bindings && this.pipeline == pipeline && this.quad == quad
    {
      this.width := width;
      this.height := height;
      xOffset := Ratio(width, SCREEN_WIDTH);
      yOffset := Ratio(height, SCREEN_HEIGHT);
      this.bindings := bindings;
      this.pipeline := pipeline;
      this.quad := quad;
    }

    /** `rotate`: uploads the quad for `rotation` into a new vertex buffer (`vertexId`) and
        makes it the only one; the index buffer and the texture stay. */
    method Rotate(ctx: Context, rotation: Rotation, vertexId: nat)
      modifies this`bindings, this`quad, ctx`requests
      ensures bindings == old(bindings).(vertexBuffers := [Graphics.Buffer(vertexId)])
      ensures bindings.indexBuffer == old(bindings.indexBuffer) && bindings.images == old(bindings.images)
      ensures quad == GetRotVertex(rotation, width, height)
      ensures ctx.requests == old(ctx.requests) + [NewBuffer(Graphics.VertexBuffer, QUAD_BYTES, vertexId)]
    {
      quad := GetRotVertex(rotation, width, height);
      var vertexBuffer := ctx.BufferImmutable(Graphics.VertexBuffer, QUAD_BYTES, vertexId);
      bindings := bindings.(vertexBuffers := [vertexBuffer]);
    }

    /** `draw`: the pipeline, the bindings, the 8-byte offset uniform, then the six indices
        drawn once, in that order; the sprite itself is not changed. The offset's value (a
        float expression of the position) is not modelled. */
    method Draw(ctx: Context)
      modifies ctx`requests
      ensures ctx.requests == old(ctx.requests) + [ ApplyPipeline(pipeline), ApplyBindings(bindings),
                                                    ApplyUniforms(UNIFORMS_BYTES), Miniquad.Draw(0, |QUAD_INDICES|, 1) ]
    {
      ctx.ApplyPipelineOf(pipeline);
      ctx.ApplyBindingsOf(bindings);
      ctx.ApplyUniformsOf(UNIFORMS_BYTES);
      ctx.DrawElements(0, |QUAD_INDICES|, 1);
    }
  }

  /** `GraphicalObject::new`: the bindings, then the pipeline. Only a shader that fails to
      build panics, and then after the bindings have been created. */
  method NewGraphicalObject(ctx: Context, texture: seq<bv8>, width: int, height: int,
                            vertexId: nat, indexId: nat, textureId: nat,
                            program: Result<nat>, pipelineId: nat)
    returns (r: Result<GraphicalObject>)
    requires -0x8000 <= width < 0x8000 && -0x8000 <= height < 0x8000
    modifies ctx`requests
    ensures r.Ok? <==> program.Ok?
    ensures r.Ok? ==>
              && fresh(r.value)
              && r.value.width == width && r.value.height == height
              && r.value.xOffset == Ratio(width, SCREEN_WIDTH) && r.value.yOffset == Ratio(height, SCREEN_HEIGHT)
              && r.value.bindings == Graphics.Bindings([Graphics.Buffer(vertexId)], Graphics.Buffer(indexId),
                                                       [Graphics.Texture(textureId, TEXTURE_SIDE, TEXTURE_SIDE)])
              && r.value.pipeline == pipelineId
              && r.value.quad == GetRotVertex(Unrotated, width, height)
    ensures ctx.requests == old(ctx.requests) + [ NewBuffer(Graphics.VertexBuffer, QUAD_BYTES, vertexId),
                                                  NewBuffer(Graphics.IndexBuffer, INDEX_BYTES, indexId),
                                                  NewTexture(TEXTURE_SIDE, TEXTURE_SIDE, |texture|, textureId) ]
                                                + (if program.Ok? then [NewShader(program.value), NewPipeline(SPRITE_ATTRIBUTES, program.value, pipelineId)]
                                                   else [])
  {
    var bindings, quad := InitBindings(ctx, texture, width, height, vertexId, indexId, textureId);
    var pipeline := InitPipeline(ctx, program, pipelineId);
    if pipeline.Failed? {
      return Failed(pipeline.reason);
    }
    var sprite := new GraphicalObject(width, height, bindings, pipeline.value, quad);
    r := Ok(sprite);
  }
}

/** The two revisions' texture tables side by side. */
module SpriteRevisions {
  import opened Quad
  import CurrentSprite
  import OlderSprite

  /** The current revision's coordinates for a rotation are the older revision's for the
      rotation a half turn further: the texture was turned upside down between the two. */
  lemma CurrentIsOlderTurnedHalfway(r: Rotation)
    ensures CurrentSprite.RotUvs(r) == OlderSprite.RotUvs(RotateClockwise(RotateClockwise(r)))
    ensures CurrentSprite.GetRotVertex(r, 1, 1) != OlderSprite.GetRotVertex(r, 1, 1)
  {
    var current, older := CurrentSprite.GetRotVertex(r, 1, 1), OlderSprite.GetRotVertex(r, 1, 1);
    assert Uvs(current) == CurrentSprite.RotUvs(r) && Uvs(older) == OlderSprite.RotUvs(r);
    assert CurrentSprite.RotUvs(r)[0] != OlderSprite.RotUvs(r)[0];
  }
}
