/** A sprite of the current revision (rust_snake/src/graphical_object.rs): a textured quad
    drawn through a winopengl `GraphicsContext`, with a vertex buffer that `rotate`
    replaces. */
module CurrentSprite {
  import opened Wrappers
  import opened Quad
  import opened GlTypes
  import opened GlCache
  import opened Graphics
  import opened GlTexture

  /** One `Vertex`: two `f32` for the position and two for the texture coordinate. */
  const VERTEX_BYTES: nat := 16
  /** The four vertices of a quad. */
  const QUAD_BYTES: nat := 4 * VERTEX_BYTES
  /** The two triangles of the quad, as indices into its four corners. */
  const QUAD_INDICES: seq<nat> := [0, 1, 2, 0, 2, 3]
  /** Six `u16` indices. */
  const INDEX_BYTES: nat := 2 * 6
  /** `Uniforms`: one `(f32, f32)` offset. */
  const UNIFORMS_BYTES: nat := 8

  const VERTEX_SHADER := "./shaders/shader.vs"
  const PLAIN_FRAGMENT_SHADER := "./shaders/shader.fs"
  const BODY_FRAGMENT_SHADER := "./shaders/body_shader.fs"

  const UNWRAP_ERR := "called `Result::unwrap()` on an `Err` value"

  /** The two attributes of a sprite vertex, both read from vertex buffer 0. */
  const SPRITE_ATTRIBUTES: seq<VertexAttribute> := [VertexAttribute("pos", 0), VertexAttribute("uv", 0)]

  /** Pixel data as `get_texture` produces it: three bytes per pixel. */
  datatype TextureData = TextureData(width: nat, height: nat, data: seq<bv8>)

  /** The texture coordinates `get_rot_vertex` gives the corners bottom-left, bottom-right,
      top-right, top-left for each rotation. */
  function RotUvs(rotation: Rotation): (uvs: seq<Uv>)
    ensures |uvs| == 4
  {
    match rotation
    case Unrotated => [Uv(0, 1), Uv(1, 1), Uv(1, 0), Uv(0, 0)]
    case Clockwise90 => [Uv(0, 1), Uv(0, 0), Uv(1, 0), Uv(1, 1)]
    case Clockwise180 => [Uv(0, 0), Uv(1, 0), Uv(1, 1), Uv(0, 1)]
    case Clockwise270 => [Uv(1, 0), Uv(1, 1), Uv(0, 1), Uv(0, 0)]
  }

  /** `get_rot_vertex`: whatever the rotation, the quad has the same four corners in the same
      order, and only the texture coordinates move, each corner of the texture used once. */
  function GetRotVertex(rotation: Rotation, width: int, height: int): (vs: seq<Vertex>)
    ensures |vs| == 4
    ensures Positions(vs) == QuadCorners(width, height)
    ensures IsUnitSquarePermutation(Uvs(vs))
  {
    RotUvsPermuteUnitSquare(rotation);
    MakeQuad(width, height, RotUvs(rotation))
  }

  /** Every row of the table uses each corner of the unit square once. */
  lemma RotUvsPermuteUnitSquare(rotation: Rotation)
    ensures IsUnitSquarePermutation(RotUvs(rotation))
  {
    var uvs := RotUvs(rotation);
    assert uvs[0] in UNIT_SQUARE && uvs[1] in UNIT_SQUARE && uvs[2] in UNIT_SQUARE && uvs[3] in UNIT_SQUARE;
  }

  /** The three quarter turns are the unit square turned by 3, 0 and 1 places. */
  lemma RotationsAgainstUnitSquare()
    ensures RotUvs(Clockwise90) == ShiftLeft(UNIT_SQUARE, 3)
    ensures RotUvs(Clockwise180) == UNIT_SQUARE
    ensures RotUvs(Clockwise270) == ShiftLeft(UNIT_SQUARE, 1)
  {
    var three, one := ShiftLeft(UNIT_SQUARE, 3), ShiftLeft(UNIT_SQUARE, 1);
    assert three[0] == UNIT_SQUARE[3] && three[1] == UNIT_SQUARE[0] && three[2] == UNIT_SQUARE[1] && three[3] == UNIT_SQUARE[2];
    assert one[0] == UNIT_SQUARE[1] && one[1] == UNIT_SQUARE[2] && one[2] == UNIT_SQUARE[3] && one[3] == UNIT_SQUARE[0];
  }

  /** `Unrotated` mirrors the unit square top to bottom, and no turn of the square gives it. */
  lemma UnrotatedIsMirrored()
    ensures forall i :: 0 <= i < 4 ==> RotUvs(Unrotated)[i] == Uv(UNIT_SQUARE[i].u, 1 - UNIT_SQUARE[i].v)
    ensures forall k :: 0 <= k < 4 ==> RotUvs(Unrotated) != ShiftLeft(UNIT_SQUARE, k)
  {
    forall k | 0 <= k < 4
      ensures RotUvs(Unrotated) != ShiftLeft(UNIT_SQUARE, k)
    {
      var shifted := ShiftLeft(UNIT_SQUARE, k);
      if k == 3 {
        assert shifted[1] == UNIT_SQUARE[0];
      } else {
        assert shifted[0] == UNIT_SQUARE[k];
      }
    }
  }

  /** Both triangles index corners of the quad, and together they use all four. */
  lemma QuadIndicesCoverQuad()
    ensures |QUAD_INDICES| == 6 && |QUAD_INDICES| % 3 == 0
    ensures forall i :: 0 <= i < |QUAD_INDICES| ==> QUAD_INDICES[i] < 4
    ensures forall c :: 0 <= c < 4 ==> c in QUAD_INDICES
    ensures INDEX_BYTES == 2 * |QUAD_INDICES|
  {
  }

  /** `meta`: one image, `tex`, and one uniform, `offset`, a single `vec2`. */
  function Meta(): (m: ShaderMeta)
    ensures m.images == ["tex"] && m.uniforms == [UniformDesc("offset", 1)]
  {
    ShaderMeta([UniformDesc("offset", 1)], ["tex"])
  }

  /** A shader built from `meta` declares exactly as many images as `init_bindings` binds,
      and its uniform block is exactly the 8-byte `Uniforms` struct `draw` sends. */
  lemma MetaMatchesSprite(program: nat, imageLocs: seq<Option<int>>, uniformLocs: seq<Option<int>>, b: Bindings)
    requires |imageLocs| == 1 && |uniformLocs| == 1 && |b.images| == 1
    ensures var shader := ShaderInternal(program, ShaderImages(imageLocs), ScanUniforms(Meta().uniforms, uniformLocs, 0));
            && ImagesAccepted(shader.images, b)
            && UniformsFit(UniformCounts(shader.uniforms), UNIFORMS_BYTES)
            && FLOAT2_SIZE * Sum(UniformCounts(shader.uniforms)) == UNIFORMS_BYTES
  {
    var counts := UniformCounts(ScanUniforms(Meta().uniforms, uniformLocs, 0));
    assert counts == DescCounts(Meta().uniforms) == [1];
    assert Sum(counts) == 1 by {
      assert counts[1..] == [];
    }
    UniformsFitIffStructHoldsAll(counts, UNIFORMS_BYTES);
  }

  /** The fragment shader `init_pipeline` loads: the body shader exactly for a body part. */
  function FragmentShader(body: bool): (path: string)
    ensures path == BODY_FRAGMENT_SHADER <==> body
    ensures path == PLAIN_FRAGMENT_SHADER <==> !body
  {
    if body then BODY_FRAGMENT_SHADER else PLAIN_FRAGMENT_SHADER
  }

  /** Every attribute location the driver reported is -1 (not found) or one of the two slots
      of the pipeline's layout. */
  predicate LocationsUsable(attrLocs: seq<int>) {
    forall k :: 0 <= k < |attrLocs| ==> attrLocs[k] == -1 || 0 <= attrLocs[k] < 2
  }

  /** The sprite attributes are accepted by `Pipeline::with_params` exactly when each
      location the driver reports is -1 or one of the two allocated slots; the stride they
      give is the size of one `Vertex`. */
  lemma SpriteAttributesAccepted(attrLocs: seq<int>)
    ensures PipelineAccepted(SPRITE_ATTRIBUTES, attrLocs) <==> LocationsUsable(attrLocs)
    ensures 8 * |SPRITE_ATTRIBUTES| == VERTEX_BYTES
  {
  }

  /** `init_bindings`: the unrotated quad in a vertex buffer (`vertexId`), the six indices in
      an index buffer (`indexId`) and the pixel data as a texture (`textureId`); the ids are
      the driver's. Panics, after creating both buffers, when `Texture::new` refuses the
      size. */
  method InitBindings(ctx: GraphicsContext, texture: TextureData, vertexId: nat, indexId: nat, textureId: nat)
    returns (r: Result<Bindings>)
    requires ctx.Valid() && texture.width < 0x1_0000 && texture.height < 0x1_0000
    modifies ctx`trace, ctx.cache`vertexBuffer, ctx.cache`indexBuffer, ctx.cache`storedVertexBuffer,
             ctx.cache`storedIndexBuffer, ctx.cache`storedTexture, ctx.cache.textures
    ensures ctx.Valid()
    ensures r.Ok? <==> SizeAccepted(|texture.data|, texture.width, texture.height)
    ensures r.Ok? ==> r.value == Bindings([Buffer(vertexId)], Buffer(indexId), [Graphics.Texture(textureId, texture.width, texture.height)])
    ensures ctx.cache.textures[..] == old(ctx.cache.textures[..])
    ensures ctx.trace == old(ctx.trace) + UploadCalls(GL_ARRAY_BUFFER, old(ctx.cache.vertexBuffer), vertexId, QUAD_BYTES)
                         + UploadCalls(GL_ELEMENT_ARRAY_BUFFER, old(ctx.cache.indexBuffer), indexId, INDEX_BYTES)
                         + (if r.Ok? then NewTextureCalls(textureId, old(ctx.cache.textures[0]), texture.width, texture.height) else [])
    ensures ctx.cache.vertexBuffer == (if old(ctx.cache.vertexBuffer) != 0 then old(ctx.cache.vertexBuffer) else vertexId)
    ensures ctx.cache.indexBuffer == (if old(ctx.cache.indexBuffer) != 0 then old(ctx.cache.indexBuffer) else indexId)
    ensures ctx.cache.storedVertexBuffer == 0 && ctx.cache.storedIndexBuffer == 0
    ensures ctx.cache.storedTexture == if r.Ok? then old(ctx.cache.textures[0]) else old(ctx.cache.storedTexture)
  {
    ghost var slot0 := ctx.cache.textures[0];
    var vertexBuffer, indexBuffer := UploadQuad(ctx, vertexId, indexId);
    assert ctx.cache.textures[0] == slot0;
    var image := NewTexture(ctx, texture.data, texture.width, texture.height, textureId);
    if image.Failed? {
      return Failed(image.reason);
    }
    r := Ok(Bindings([vertexBuffer], indexBuffer, [image.value]));
  }

  /** The vertex buffer of the quad, then its index buffer. Each buffer stays bound only when
      nothing of its kind was bound before, and both saved bindings end cleared. */
  method UploadQuad(ctx: GraphicsContext, vertexId: nat, indexId: nat) returns (vertexBuffer: Buffer, indexBuffer: Buffer)
    requires ctx.Valid()
    modifies ctx`trace, ctx.cache`vertexBuffer, ctx.cache`indexBuffer, ctx.cache`storedVertexBuffer, ctx.cache`storedIndexBuffer
    ensures ctx.Valid()
    ensures vertexBuffer == Buffer(vertexId) && indexBuffer == Buffer(indexId)
    ensures ctx.trace == old(ctx.trace) + UploadCalls(GL_ARRAY_BUFFER, old(ctx.cache.vertexBuffer), vertexId, QUAD_BYTES)
                         + UploadCalls(GL_ELEMENT_ARRAY_BUFFER, old(ctx.cache.indexBuffer), indexId, INDEX_BYTES)
    ensures ctx.cache.vertexBuffer == (if old(ctx.cache.vertexBuffer) != 0 then old(ctx.cache.vertexBuffer) else vertexId)
    ensures ctx.cache.indexBuffer == (if old(ctx.cache.indexBuffer) != 0 then old(ctx.cache.indexBuffer) else indexId)
    ensures ctx.cache.storedVertexBuffer == 0 && ctx.cache.storedIndexBuffer == 0
  {
    ghost var vertexCalls := UploadCalls(GL_ARRAY_BUFFER, ctx.cache.vertexBuffer, vertexId, QUAD_BYTES);
    ghost var indexCalls := UploadCalls(GL_ELEMENT_ARRAY_BUFFER, ctx.cache.indexBuffer, indexId, INDEX_BYTES);
    ghost var before := ctx.trace;
    vertexBuffer := ctx.BufferImmutable(VertexBuffer, QUAD_BYTES, vertexId);
    assert ctx.trace == before + vertexCalls;
    indexBuffer := ctx.BufferImmutable(IndexBuffer, INDEX_BYTES, indexId);
    assert ctx.trace == before + vertexCalls + indexCalls;
  }

  /** `init_pipeline`: a shader from `meta` and the chosen fragment shader, then a pipeline
      with the `pos` and `uv` attributes. `plainProgram` and `bodyProgram` are the loader's
      outcomes for the plain and the body fragment shader; the locations are what the driver
      reports for the program used. A failed load is unwrapped and panics. */
  method InitPipeline(ctx: GraphicsContext, body: bool, plainProgram: Result<nat>, bodyProgram: Result<nat>,
                      imageLocs: seq<Option<int>>, uniformLocs: seq<Option<int>>, attrLocs: seq<int>)
    returns (r: Result<nat>)
    requires ctx.Valid() && |imageLocs| == 1 && |uniformLocs| == 1 && |attrLocs| == 2
    modifies ctx`shaders, ctx`pipelines, ctx`trace
    ensures ctx.Valid()
    ensures var program := if body then bodyProgram else plainProgram;
            && (r.Ok? <==> program.Ok? && PipelineAccepted(SPRITE_ATTRIBUTES, attrLocs))
            && ctx.trace == old(ctx.trace) + (if program.Ok? then [UseProgram(program.value)] else [])
            && (program.Ok? ==> ctx.shaders == old(ctx.shaders) + [ShaderInternal(program.value, ShaderImages(imageLocs),
                                                                                  ScanUniforms(Meta().uniforms, uniformLocs, 0))])
            && (r.Failed? ==> ctx.pipelines == old(ctx.pipelines))
            && (program.Failed? ==> r == Failed(UNWRAP_ERR) && ctx.shaders == old(ctx.shaders) && ctx.pipelines == old(ctx.pipelines))
            && (r.Ok? ==>
                  && ctx.shaders == old(ctx.shaders) + [ShaderInternal(program.value, ShaderImages(imageLocs),
                                                                       ScanUniforms(Meta().uniforms, uniformLocs, 0))]
                  && r.value == |old(ctx.pipelines)|
                  && ctx.pipelines == old(ctx.pipelines) + [PipelineInternal(LayoutOf(attrLocs, VERTEX_BYTES), |old(ctx.shaders)|)])
  {
    var fragment := FragmentShader(body);
    var program := if fragment == BODY_FRAGMENT_SHADER then bodyProgram else plainProgram;
    var shader := ctx.NewShader(Meta(), program, imageLocs, uniformLocs);
    if shader.Failed? {
      return Failed(UNWRAP_ERR);
    }
    r := ctx.PipelineWithParams(SPRITE_ATTRIBUTES, shader.value, attrLocs);
  }

  /** `draw` gets through: the bound textures and vertex buffers satisfy the pipeline, and
      the 8-byte uniform struct holds the shader's uniforms. */
  predicate SpriteDrawable(p: PipelineInternal, shader: ShaderInternal, b: Bindings) {
    ImagesAccepted(shader.images, b) && AttributesAccepted(p.layout, b, MAX_VERTEX_ATTRIBUTES)
    && UniformsFit(UniformCounts(shader.uniforms), UNIFORMS_BYTES)
  }

  /** A sprite: its size in pixels, what is bound for drawing it and its pipeline. */
  class GraphicalObject {
    const width: int
    const height: int
    var bindings: Bindings
    const pipeline: nat
    /** The vertices last uploaded into `bindings`' vertex buffer. */
    ghost var quad: seq<Vertex>

    constructor (width: int, height: int, bindings: Bindings, pipeline: nat)
      ensures this.width == width && this.height == height
      ensures this.bindings == bindings && this.pipeline == pipeline
      ensures quad == GetRotVertex(Unrotated, width, height)
    {
      this.width := width;
      this.height := height;
      this.bindings := bindings;
      this.pipeline := pipeline;
      quad := GetRotVertex(Unrotated, width, height);
    }

    /** `rotate`: uploads the quad for `rotation` into a new vertex buffer (`glBuf`) and makes
        it the only one; the index buffer and the images stay. */
    method Rotate(ctx: GraphicsContext, rotation: Rotation, glBuf: nat)
      modifies this`bindings, this`quad, ctx`trace, ctx.cache`vertexBuffer, ctx.cache`indexBuffer,
               ctx.cache`storedVertexBuffer, ctx.cache`storedIndexBuffer
      ensures bindings == old(bindings).(vertexBuffers := [Buffer(glBuf)])
      ensures quad == GetRotVertex(rotation, width, height)
      ensures ctx.trace == old(ctx.trace) + UploadCalls(GL_ARRAY_BUFFER, old(ctx.cache.vertexBuffer), glBuf, QUAD_BYTES)
      ensures ctx.cache.vertexBuffer == if old(ctx.cache.vertexBuffer) != 0 then old(ctx.cache.vertexBuffer) else glBuf
      ensures ctx.cache.indexBuffer == old(ctx.cache.indexBuffer)
    {
      quad := GetRotVertex(rotation, width, height);
      var vertexBuffer := ctx.BufferImmutable(VertexBuffer, QUAD_BYTES, glBuf);
      bindings := bindings.(vertexBuffers := [vertexBuffer]);
    }

    /** `draw`: binds the pipeline, then the bindings, sends the 8-byte offset uniform and
        draws the six indices once, in that order. Panics exactly when `apply_bindings` or
        `apply_uniforms` does; the offset's value (a float expression of the position) is
        not modelled. */
    method Draw(ctx: GraphicsContext) returns (r: Outcome)
      requires ctx.Valid() && pipeline < |ctx.pipelines|
      modifies ctx`trace, ctx.cache`curPipeline, ctx.cache`vertexBuffer, ctx.cache`indexBuffer,
               ctx.cache.textures, ctx.cache.attributes
      ensures ctx.Valid() && ctx.cache.curPipeline == Some(pipeline)
      ensures r.Done? <==> SpriteDrawable(ctx.pipelines[pipeline], ctx.shaders[ctx.pipelines[pipeline].shader], bindings)
      ensures r.Done? ==>
                var p := ctx.pipelines[pipeline];
                var shader := ctx.shaders[p.shader];
                ctx.trace == old(ctx.trace)
                             + [UseProgram(shader.program), Enable(GL_SCISSOR_TEST), Disable(GL_DEPTH_TEST), FrontFace(GL_CCW)]
                             + BindingsCalls(shader.images, p.layout, bindings, old(ctx.cache.textures[..]), old(ctx.cache.attributes[..]),
                                             old(ctx.cache.indexBuffer), old(ctx.cache.vertexBuffer), ctx.instancing)
                             + UniformCalls(shader.uniforms)
                             + [DrawElementsInstanced(GL_TRIANGLES, |QUAD_INDICES|, GL_UNSIGNED_SHORT, 0, 1)]
    {
      r := ApplySprite(ctx, pipeline, bindings);
      if r.Panic? {
        return;
      }
      assert ctx.BoundShader() == ctx.shaders[ctx.pipelines[pipeline].shader];
      r := DrawQuad(ctx);
    }
  }

  /** The second half of `draw`, with a pipeline bound: the 8-byte uniforms, then the six
      indices drawn once. Panics exactly when the struct does not hold the bound shader's
      uniforms. */
  method DrawQuad(ctx: GraphicsContext) returns (r: Outcome)
    requires ctx.Valid() && ctx.cache.curPipeline.Some?
    modifies ctx`trace
    ensures r.Done? <==> UniformsFit(UniformCounts(ctx.BoundShader().uniforms), UNIFORMS_BYTES)
    ensures r.Done? ==>
              ctx.trace == old(ctx.trace) + UniformCalls(ctx.BoundShader().uniforms)
                           + [DrawElementsInstanced(GL_TRIANGLES, |QUAD_INDICES|, GL_UNSIGNED_SHORT, 0, 1)]
  {
    r := ctx.ApplyUniformsFromBytes(UNIFORMS_BYTES);
    if r.Panic? {
      return;
    }
    r := ctx.Draw(0, |QUAD_INDICES|, 1);
  }

  /** The first half of `draw`: the pipeline, then the bindings. */
  method ApplySprite(ctx: GraphicsContext, pipeline: nat, b: Bindings) returns (r: Outcome)
    requires ctx.Valid() && pipeline < |ctx.pipelines|
    modifies ctx`trace, ctx.cache`curPipeline, ctx.cache`vertexBuffer, ctx.cache`indexBuffer,
             ctx.cache.textures, ctx.cache.attributes
    ensures ctx.Valid() && ctx.cache.curPipeline == Some(pipeline)
    ensures var p := ctx.pipelines[pipeline];
            r.Done? <==> ImagesAccepted(ctx.shaders[p.shader].images, b) && AttributesAccepted(p.layout, b, MAX_VERTEX_ATTRIBUTES)
    ensures r.Done? ==>
              var p := ctx.pipelines[pipeline];
              var shader := ctx.shaders[p.shader];
              ctx.trace == old(ctx.trace)
                           + [UseProgram(shader.program), Enable(GL_SCISSOR_TEST), Disable(GL_DEPTH_TEST), FrontFace(GL_CCW)]
                           + BindingsCalls(shader.images, p.layout, b, old(ctx.cache.textures[..]), old(ctx.cache.attributes[..]),
                                           old(ctx.cache.indexBuffer), old(ctx.cache.vertexBuffer), ctx.instancing)
  {
    ctx.ApplyPipeline(pipeline);
    r := ctx.ApplyBindings(b);
  }

  /** `GraphicalObject::new`: the bindings, then the pipeline; the first panic of either is
      the result. The driver's ids and answers are parameters as in `init_bindings` and
      `init_pipeline`. */
  method NewGraphicalObject(ctx: GraphicsContext, texture: TextureData, body: bool,
                            vertexId: nat, indexId: nat, textureId: nat,
                            plainProgram: Result<nat>, bodyProgram: Result<nat>,
                            imageLocs: seq<Option<int>>, uniformLocs: seq<Option<int>>, attrLocs: seq<int>)
    returns (r: Result<GraphicalObject>)
    requires ctx.Valid() && texture.width < 0x1_0000 && texture.height < 0x1_0000
    requires |imageLocs| == 1 && |uniformLocs| == 1 && |attrLocs| == 2
    modifies ctx`shaders, ctx`pipelines, ctx`trace, ctx.cache`vertexBuffer, ctx.cache`indexBuffer,
             ctx.cache`storedVertexBuffer, ctx.cache`storedIndexBuffer, ctx.cache`storedTexture, ctx.cache.textures
    ensures ctx.Valid()
    ensures r.Ok? <==> SizeAccepted(|texture.data|, texture.width, texture.height)
                       && (if body then bodyProgram else plainProgram).Ok?
                       && LocationsUsable(attrLocs)
    ensures r.Ok? ==>
              && fresh(r.value)
              && r.value.width == texture.width && r.value.height == texture.height
              && r.value.bindings == Bindings([Buffer(vertexId)], Buffer(indexId), [Graphics.Texture(textureId, texture.width, texture.height)])
              && r.value.pipeline == |old(ctx.pipelines)| && r.value.pipeline < |ctx.pipelines|
              && ctx.pipelines[r.value.pipeline].layout == LayoutOf(attrLocs, VERTEX_BYTES)
    ensures !SizeAccepted(|texture.data|, texture.width, texture.height) ==>
              && ctx.trace == old(ctx.trace) + UploadCalls(GL_ARRAY_BUFFER, old(ctx.cache.vertexBuffer), vertexId, QUAD_BYTES)
                              + UploadCalls(GL_ELEMENT_ARRAY_BUFFER, old(ctx.cache.indexBuffer), indexId, INDEX_BYTES)
              && ctx.shaders == old(ctx.shaders) && ctx.pipelines == old(ctx.pipelines)
    ensures var program := if body then bodyProgram else plainProgram;
            SizeAccepted(|texture.data|, texture.width, texture.height) ==>
              && ctx.trace == old(ctx.trace) + UploadCalls(GL_ARRAY_BUFFER, old(ctx.cache.vertexBuffer), vertexId, QUAD_BYTES)
                              + UploadCalls(GL_ELEMENT_ARRAY_BUFFER, old(ctx.cache.indexBuffer), indexId, INDEX_BYTES)
                              + NewTextureCalls(textureId, old(ctx.cache.textures[0]), texture.width, texture.height)
                              + (if program.Ok? then [UseProgram(program.value)] else [])
              && ctx.shaders == (if program.Ok?
                                 then old(ctx.shaders) + [ShaderInternal(program.value, ShaderImages(imageLocs),
                                                                         ScanUniforms(Meta().uniforms, uniformLocs, 0))]
                                 else old(ctx.shaders))
              && ctx.pipelines == (if r.Ok? then old(ctx.pipelines) + [PipelineInternal(LayoutOf(attrLocs, VERTEX_BYTES), |old(ctx.shaders)|)]
                                   else old(ctx.pipelines))
    ensures ctx.cache.textures[..] == old(ctx.cache.textures[..])
    ensures ctx.cache.vertexBuffer == (if old(ctx.cache.vertexBuffer) != 0 then old(ctx.cache.vertexBuffer) else vertexId)
    ensures ctx.cache.indexBuffer == (if old(ctx.cache.indexBuffer) != 0 then old(ctx.cache.indexBuffer) else indexId)
  {
    var bindings := InitBindings(ctx, texture, vertexId, indexId, textureId);
    ghost var textures := ctx.cache.textures[..];
    r := FinishGraphicalObject(ctx, texture.width, texture.height, bindings, body, plainProgram, bodyProgram,
                               imageLocs, uniformLocs, attrLocs);
    assert ctx.cache.textures[..] == textures;
  }

  /** The second half of `GraphicalObject::new`: a panic of `init_bindings` is passed on with
      nothing more done; otherwise `init_pipeline`, then the sprite itself. */
  method FinishGraphicalObject(ctx: GraphicsContext, width: int, height: int, made: Result<Bindings>, body: bool,
                               plainProgram: Result<nat>, bodyProgram: Result<nat>,
                               imageLocs: seq<Option<int>>, uniformLocs: seq<Option<int>>, attrLocs: seq<int>)
    returns (r: Result<GraphicalObject>)
    requires ctx.Valid() && |imageLocs| == 1 && |uniformLocs| == 1 && |attrLocs| == 2
    modifies ctx`shaders, ctx`pipelines, ctx`trace
    ensures ctx.Valid()
    ensures made.Failed? ==> r == Failed(made.reason) && ctx.trace == old(ctx.trace)
                             && ctx.shaders == old(ctx.shaders) && ctx.pipelines == old(ctx.pipelines)
    ensures var program := if body then bodyProgram else plainProgram;
            made.Ok? ==>
              && (r.Ok? <==> program.Ok? && LocationsUsable(attrLocs))
              && ctx.trace == old(ctx.trace) + (if program.Ok? then [UseProgram(program.value)] else [])
              && ctx.shaders == (if program.Ok?
                                 then old(ctx.shaders) + [ShaderInternal(program.value, ShaderImages(imageLocs),
                                                                         ScanUniforms(Meta().uniforms, uniformLocs, 0))]
                                 else old(ctx.shaders))
              && ctx.pipelines == (if r.Ok? then old(ctx.pipelines) + [PipelineInternal(LayoutOf(attrLocs, VERTEX_BYTES), |old(ctx.shaders)|)]
                                   else old(ctx.pipelines))
    ensures r.Ok? ==>
              && fresh(r.value)
              && r.value.width == width && r.value.height == height
              && made.Ok? && r.value.bindings == made.value && r.value.pipeline == |old(ctx.pipelines)|
              && r.value.quad == GetRotVertex(Unrotated, width, height)
  {
    if made.Failed? {
      return Failed(made.reason);
    }
    SpriteAttributesAccepted(attrLocs);
    var pipeline := InitPipeline(ctx, body, plainProgram, bodyProgram, imageLocs, uniformLocs, attrLocs);
    if pipeline.Failed? {
      return Failed(pipeline.reason);
    }
    var sprite := new GraphicalObject(width, height, made.value, pipeline.value);
    r := Ok(sprite);
  }
}
