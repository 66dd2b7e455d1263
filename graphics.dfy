/** The graphics context of winopengl/src/graphics.rs: shader and pipeline tables whose
    handles are positions in those tables, the binding cache, and the driver calls made so
    far (`trace`). Compiling and linking shaders, and every query answered by the driver
    (the link result, uniform and attribute locations, generated ids), are parameters. */
module Graphics {
  import opened Wrappers
  import opened GlTypes
  import opened GlCache

  /** Bytes in one `vec2` uniform. */
  const FLOAT2_SIZE: nat := 8

  const IMAGE_COUNT_MISMATCH: string := "Image count in bindings and shader did not match!"
  const UNIFORM_LAYOUT_MISMATCH: string := "Uniforms struct does not match shader uniforms layout"
  const DRAW_WITHOUT_PIPELINE: string := "Drawing without any binded pipeline"
  const EXPLICIT_PANIC: string := "explicit panic"
  const ASSERTION_FAILED: string := "assertion failed"
  /** What `CString::new` reports for a name holding a NUL byte (the position is left out). */
  const NUL_IN_NAME: string := "nul byte found in provided data"

  datatype ShaderImage = ShaderImage(glLoc: Option<int>)
  datatype ShaderUniform = ShaderUniform(glLoc: Option<int>, offset: nat, size: nat, arrayCount: nat)
  datatype ShaderInternal = ShaderInternal(program: nat, images: seq<ShaderImage>, uniforms: seq<ShaderUniform>)
  datatype PipelineInternal = PipelineInternal(layout: seq<Option<VertexAttributeInternal>>, shader: nat)

  datatype UniformDesc = UniformDesc(name: string, arrayCount: nat)
  datatype ShaderMeta = ShaderMeta(uniforms: seq<UniformDesc>, images: seq<string>)
  datatype VertexAttribute = VertexAttribute(name: string, bufferIndex: nat)

  datatype Buffer = Buffer(glBuf: nat)
  datatype Texture = Texture(texture: nat, width: nat, height: nat)
  datatype Bindings = Bindings(vertexBuffers: seq<Buffer>, indexBuffer: Buffer, images: seq<Texture>)
  datatype BufferType = VertexBuffer | IndexBuffer

  function Target(t: BufferType): (target: nat)
    ensures target == GL_ARRAY_BUFFER <==> t == VertexBuffer
  {
    match t
    case VertexBuffer => GL_ARRAY_BUFFER
    case IndexBuffer => GL_ELEMENT_ARRAY_BUFFER
  }

  // ---------------------------------------------------------------------------------------
  // Uniform layout: the byte offsets given by the shader loader and the float offsets walked
  // by `apply_uniforms_from_bytes`.

  function Sum(s: seq<nat>): nat
    decreases |s|
  {
    if s == [] then 0 else s[0] + Sum(s[1..])
  }

  lemma {:induction false} SumSnoc(s: seq<nat>, k: nat)
    requires k < |s|
    ensures Sum(s[..k + 1]) == Sum(s[..k]) + s[k]
    decreases k
  {
    if k > 0 {
      SumSnoc(s[1..], k - 1);
      assert s[..k + 1][1..] == s[1..][..k];
      assert s[..k][1..] == s[1..][..k - 1];
    }
  }

  lemma {:induction false} SumPrefixBound(s: seq<nat>, k: nat)
    requires k <= |s|
    ensures Sum(s[..k]) <= Sum(s)
    decreases k
  {
    if k > 0 {
      SumPrefixBound(s[1..], k - 1);
      assert s[..k][1..] == s[1..][..k - 1];
    }
  }

  function DescCounts(ds: seq<UniformDesc>): (r: seq<nat>)
    ensures |r| == |ds| && forall i :: 0 <= i < |ds| ==> r[i] == ds[i].arrayCount
  {
    seq(|ds|, i requires 0 <= i < |ds| => ds[i].arrayCount)
  }

  function UniformCounts(us: seq<ShaderUniform>): (r: seq<nat>)
    ensures |r| == |us| && forall i :: 0 <= i < |us| ==> r[i] == us[i].arrayCount
  {
    seq(|us|, i requires 0 <= i < |us| => us[i].arrayCount)
  }

  /** The `scan` of `load_shader_internal`: each uniform records the running byte offset,
      which then grows by 8 bytes per array element. */
  function ScanUniforms(descs: seq<UniformDesc>, locs: seq<Option<int>>, offset: nat): (r: seq<ShaderUniform>)
    requires |locs| == |descs|
    ensures |r| == |descs|
    ensures UniformCounts(r) == DescCounts(descs)
    ensures forall k :: 0 <= k < |r| ==> r[k].glLoc == locs[k] && r[k].size == FLOAT2_SIZE
    decreases |descs|
  {
    if descs == [] then []
    else [ShaderUniform(locs[0], offset, FLOAT2_SIZE, descs[0].arrayCount)]
         + ScanUniforms(descs[1..], locs[1..], offset + FLOAT2_SIZE * descs[0].arrayCount)
  }

  /** The k-th uniform starts 8 bytes per array element declared before it. */
  lemma {:induction false} ScanOffsets(descs: seq<UniformDesc>, locs: seq<Option<int>>, offset: nat, k: nat)
    requires |locs| == |descs| && k < |descs|
    ensures ScanUniforms(descs, locs, offset)[k].offset == offset + FLOAT2_SIZE * Sum(DescCounts(descs)[..k])
    decreases k
  {
    if k > 0 {
      var rest := descs[1..];
      ScanOffsets(rest, locs[1..], offset + FLOAT2_SIZE * descs[0].arrayCount, k - 1);
      assert DescCounts(descs)[..k][1..] == DescCounts(rest)[..k - 1];
    }
  }

  /** The per-uniform test as written: the running offset, counted in floats, is compared
      with the struct size, counted in bytes, less the float count of one `vec2`; a size
      below 2 underflows, which panics. */
  predicate FitsAsWritten(floatOffset: nat, size: nat) {
    size >= FLOAT2_SIZE / 4 && floatOffset <= size - FLOAT2_SIZE / 4
  }

  /** The loop as written passes for uniforms with array counts `counts`: each one's float
      offset, two floats per earlier array element, passes `FitsAsWritten`. */
  predicate AcceptedAsWritten(counts: seq<nat>, size: nat) {
    forall k :: 0 <= k < |counts| ==> FitsAsWritten(FLOAT2_SIZE / 4 * Sum(counts[..k]), size)
  }

  /** The intended test: the floats the uniform reads, from its offset on, lie inside the
      `size`-byte struct. */
  predicate UniformFits(floatOffset: nat, count: nat, size: nat) {
    4 * (floatOffset + FLOAT2_SIZE / 4 * count) <= size
  }

  predicate UniformsFit(counts: seq<nat>, size: nat) {
    forall k :: 0 <= k < |counts| ==> UniformFits(FLOAT2_SIZE / 4 * Sum(counts[..k]), counts[k], size)
  }

  /** Two one-element `vec2` uniforms and an 8-byte struct: the test as written accepts, yet
      the second uniform reads bytes 8 to 16. */
  lemma AsWrittenAcceptsShortStruct()
    ensures AcceptedAsWritten([1, 1], 8)
    ensures !UniformsFit([1, 1], 8)
  {
    var c: seq<nat> := [1, 1];
    assert c[..0] == [] && c[..1] == [1];
    assert Sum([1]) == 1;
    assert !UniformFits(FLOAT2_SIZE / 4 * Sum(c[..1]), c[1], 8);
  }

  /** The intended test accepts exactly the structs that hold every declared `vec2`. */
  lemma {:induction false} UniformsFitIffStructHoldsAll(counts: seq<nat>, size: nat)
    ensures UniformsFit(counts, size) <==> FLOAT2_SIZE * Sum(counts) <= size
  {
    if |counts| == 0 {
      return;
    }
    var n := |counts| - 1;
    SumSnoc(counts, n);
    assert counts[..n + 1] == counts;
    if FLOAT2_SIZE * Sum(counts) <= size {
      forall k | 0 <= k < |counts|
        ensures UniformFits(FLOAT2_SIZE / 4 * Sum(counts[..k]), counts[k], size)
      {
        SumSnoc(counts, k);
        SumPrefixBound(counts, k + 1);
      }
    }
  }

  /** The float offsets walked by `apply_uniforms_from_bytes` are the loader's byte offsets
      divided by 4. */
  lemma WalkMatchesScan(descs: seq<UniformDesc>, locs: seq<Option<int>>, k: nat)
    requires |locs| == |descs| && k < |descs|
    ensures 4 * (FLOAT2_SIZE / 4 * Sum(UniformCounts(ScanUniforms(descs, locs, 0))[..k]))
            == ScanUniforms(descs, locs, 0)[k].offset
  {
    ScanOffsets(descs, locs, 0, k);
  }

  /** The `glUniform2fv` calls for the uniforms `us`, in order, each reading from its float
      offset; uniforms without a location are skipped. */
  function UniformCalls(us: seq<ShaderUniform>): seq<GlCall>
    decreases |us|
  {
    if us == [] then []
    else
      var n := |us| - 1;
      UniformCalls(us[..n])
      + (if us[n].glLoc.Some?
         then [Uniform2fv(us[n].glLoc.value, us[n].arrayCount, FLOAT2_SIZE / 4 * Sum(UniformCounts(us[..n])))]
         else [])
  }

  // ---------------------------------------------------------------------------------------
  // `apply_bindings`: the image pass and the attribute pass.

  /** Every image the shader declares has a supplied texture, and every one with a location
      is on one of the 12 slots. */
  predicate ImagesAccepted(images: seq<ShaderImage>, b: Bindings) {
    |b.images| >= |images|
    && forall n :: 0 <= n < |images| && images[n].glLoc.Some? ==> n < MAX_SHADERSTAGE_IMAGES
  }

  /** The calls of the image pass, given the slot contents `tex` before it: each image with
      a location is bound on its own slot and its sampler set to that slot. */
  function ImageCalls(images: seq<ShaderImage>, b: Bindings, tex: seq<nat>): seq<GlCall>
    requires ImagesAccepted(images, b) && |tex| == MAX_SHADERSTAGE_IMAGES
    decreases |images|
  {
    if images == [] then []
    else
      var n := |images| - 1;
      assert ImagesAccepted(images[..n], b);
      ImageCalls(images[..n], b, tex)
      + (if images[n].glLoc.Some?
         then TextureBindCalls(n, tex[n], b.images[n].texture) + [Uniform1i(images[n].glLoc.value, n)]
         else [])
  }

  /** When every slot already holds its image, the image pass only selects units and sets
      samplers. */
  lemma {:induction false} ImageCallsInSync(images: seq<ShaderImage>, b: Bindings, tex: seq<nat>)
    requires ImagesAccepted(images, b) && |tex| == MAX_SHADERSTAGE_IMAGES
    requires forall n :: 0 <= n < |images| && images[n].glLoc.Some? ==> tex[n] == b.images[n].texture
    ensures forall c :: c in ImageCalls(images, b, tex) ==> c.ActiveTexture? || c.Uniform1i?
    decreases |images|
  {
    if images != [] {
      var n := |images| - 1;
      assert ImagesAccepted(images[..n], b);
      ImageCallsInSync(images[..n], b, tex);
    }
  }

  /** Every attribute slot below 16 that the pipeline fills names a supplied vertex buffer. */
  predicate AttributesAccepted(layout: seq<Option<VertexAttributeInternal>>, b: Bindings, n: nat) {
    forall i :: 0 <= i < |layout| && i < n && layout[i].Some? ==> layout[i].value.bufferIndex < |b.vertexBuffers|
  }

  /** What attribute slot `i` is left pointing at: the pipeline's entry and its buffer, or
      nothing when the pipeline has no attribute there. */
  function ExpectedAttribute(layout: seq<Option<VertexAttributeInternal>>, b: Bindings, i: nat): Option<CachedAttribute> {
    if i < |layout| && layout[i].Some? && layout[i].value.bufferIndex < |b.vertexBuffers|
    then Some(CachedAttribute(layout[i].value, b.vertexBuffers[layout[i].value.bufferIndex].glBuf))
    else None
  }

  /** The calls for one attribute slot that held `had` and should hold `want`, with `vb` the
      cached vertex buffer: a changed attribute is re-pointed and enabled, a stale one
      disabled, an unchanged one costs nothing. */
  function SlotCalls(i: nat, want: Option<CachedAttribute>, had: Option<CachedAttribute>, vb: nat, instancing: bool): (calls: seq<GlCall>)
    ensures had == want ==> calls == []
  {
    match want
    case Some(ca) =>
      if had != want then
        BufferBindCalls(GL_ARRAY_BUFFER, vb, ca.glVbuf)
        + [VertexAttribPointer(i, ca.attribute.size, ca.attribute.kind, ca.attribute.stride, ca.attribute.offset)]
        + (if instancing then [VertexAttribDivisor(i, ca.attribute.divisor)] else [])
        + [EnableVertexAttribArray(i)]
      else []
    case None =>
      if had.Some? then [DisableVertexAttribArray(i)] else []
  }

  /** A slot's calls enable it exactly when it gets an attribute it did not hold, disable it
      exactly when it held one and gets none, and touch no other slot. */
  lemma SlotCallsTouchOnlyChanged(i: nat, want: Option<CachedAttribute>, had: Option<CachedAttribute>, vb: nat, instancing: bool)
    ensures forall j :: EnableVertexAttribArray(j) in SlotCalls(i, want, had, vb, instancing) <==> j == i && want.Some? && had != want
    ensures forall j :: DisableVertexAttribArray(j) in SlotCalls(i, want, had, vb, instancing) <==> j == i && want.None? && had.Some?
  {
  }

  /** The calls of the attribute pass over slots `[0, n)` and the vertex buffer left cached. */
  function AttributePass(layout: seq<Option<VertexAttributeInternal>>, b: Bindings, had: seq<Option<CachedAttribute>>,
                         vb: nat, instancing: bool, n: nat): (seq<GlCall>, nat)
    requires n <= |had|
    decreases n
  {
    if n == 0 then ([], vb)
    else
      var prev := AttributePass(layout, b, had, vb, instancing, n - 1);
      var want := ExpectedAttribute(layout, b, n - 1);
      (prev.0 + SlotCalls(n - 1, want, had[n - 1], prev.1, instancing),
       if want.Some? && had[n - 1] != want then want.value.glVbuf else prev.1)
  }

  /** Slot `n` admitted as well extends the accepted prefix by one; a refused slot below 16
      refuses the whole layout. */
  lemma AttributesAcceptedStep(layout: seq<Option<VertexAttributeInternal>>, b: Bindings, n: nat)
    ensures var refused := n < |layout| && layout[n].Some? && layout[n].value.bufferIndex >= |b.vertexBuffers|;
            && (AttributesAccepted(layout, b, n + 1) <==> AttributesAccepted(layout, b, n) && !refused)
            && (refused && n < MAX_VERTEX_ATTRIBUTES ==> !AttributesAccepted(layout, b, MAX_VERTEX_ATTRIBUTES))
  {
  }

  /** Handling slot `n` extends the pass by that slot's calls and the slots by its entry. */
  lemma AttributePassStep(layout: seq<Option<VertexAttributeInternal>>, b: Bindings, had: seq<Option<CachedAttribute>>,
                          vb: nat, instancing: bool, n: nat)
    requires n < |had|
    ensures var prev := AttributePass(layout, b, had, vb, instancing, n);
            var want := ExpectedAttribute(layout, b, n);
            && AttributePass(layout, b, had, vb, instancing, n + 1)
               == (prev.0 + SlotCalls(n, want, had[n], prev.1, instancing),
                   if want.Some? && had[n] != want then want.value.glVbuf else prev.1)
  {
  }

  /** Slot `i` is enabled by the pass exactly when it gets an attribute it did not already
      hold, and disabled exactly when it held one and the pipeline has none there. */
  lemma AttributePassEnablesChangedSlots(layout: seq<Option<VertexAttributeInternal>>, b: Bindings,
                                         had: seq<Option<CachedAttribute>>, vb: nat, instancing: bool, n: nat)
    requires n <= |had|
    ensures forall i :: 0 <= i < n ==>
              (EnableVertexAttribArray(i) in AttributePass(layout, b, had, vb, instancing, n).0
               <==> ExpectedAttribute(layout, b, i).Some? && had[i] != ExpectedAttribute(layout, b, i))
    ensures forall i :: 0 <= i < n ==>
              (DisableVertexAttribArray(i) in AttributePass(layout, b, had, vb, instancing, n).0
               <==> ExpectedAttribute(layout, b, i).None? && had[i].Some?)
    ensures forall i :: n <= i ==>
              EnableVertexAttribArray(i) !in AttributePass(layout, b, had, vb, instancing, n).0
              && DisableVertexAttribArray(i) !in AttributePass(layout, b, had, vb, instancing, n).0
  {
    forall i | 0 <= i {
      AttributePassTouchesSlot(layout, b, had, vb, instancing, n, i);
    }
  }

  /** The same for one slot `i`, by induction on the number of slots handled. */
  lemma {:induction false} AttributePassTouchesSlot(layout: seq<Option<VertexAttributeInternal>>, b: Bindings,
                                                    had: seq<Option<CachedAttribute>>, vb: nat, instancing: bool, n: nat, i: nat)
    requires n <= |had|
    ensures EnableVertexAttribArray(i) in AttributePass(layout, b, had, vb, instancing, n).0
            <==> i < n && ExpectedAttribute(layout, b, i).Some? && had[i] != ExpectedAttribute(layout, b, i)
    ensures DisableVertexAttribArray(i) in AttributePass(layout, b, had, vb, instancing, n).0
            <==> i < n && ExpectedAttribute(layout, b, i).None? && had[i].Some?
    decreases n
  {
    if n > 0 {
      AttributePassTouchesSlot(layout, b, had, vb, instancing, n - 1, i);
      var prev := AttributePass(layout, b, had, vb, instancing, n - 1);
      var slot := SlotCalls(n - 1, ExpectedAttribute(layout, b, n - 1), had[n - 1], prev.1, instancing);
      SlotCallsTouchOnlyChanged(n - 1, ExpectedAttribute(layout, b, n - 1), had[n - 1], prev.1, instancing);
      var calls := AttributePass(layout, b, had, vb, instancing, n).0;
      assert calls == prev.0 + slot;
      InAppend(calls, prev.0, slot);
    }
  }

  /** A pass over slots that already hold what the pipeline wants makes no call and leaves
      the vertex buffer cache alone. */
  lemma {:induction false} AttributePassInSync(layout: seq<Option<VertexAttributeInternal>>, b: Bindings,
                                               had: seq<Option<CachedAttribute>>, vb: nat, instancing: bool, n: nat)
    requires n <= |had|
    requires forall i :: 0 <= i < n ==> had[i] == ExpectedAttribute(layout, b, i)
    ensures AttributePass(layout, b, had, vb, instancing, n) == ([], vb)
    decreases n
  {
    if n > 0 {
      AttributePassInSync(layout, b, had, vb, instancing, n - 1);
      var prev := AttributePass(layout, b, had, vb, instancing, n - 1);
      var want := ExpectedAttribute(layout, b, n - 1);
      assert prev.0 == [] && prev.1 == vb;
      assert had[n - 1] == want;
      var slot := SlotCalls(n - 1, want, had[n - 1], prev.1, instancing);
      assert slot == [];
      assert AttributePass(layout, b, had, vb, instancing, n) == (prev.0 + slot, prev.1);
      assert prev.0 + slot == [];
    }
  }

  /** All the driver calls of `apply_bindings` for `b`, a shader with `images` and a pipeline
      with `layout`, from the cache state `tex`, `attrs`, `indexBuffer`, `vb`: the image
      pass, the index buffer bind, the attribute pass. */
  function BindingsCalls(images: seq<ShaderImage>, layout: seq<Option<VertexAttributeInternal>>, b: Bindings,
                         tex: seq<nat>, attrs: seq<Option<CachedAttribute>>, indexBuffer: nat, vb: nat, instancing: bool): seq<GlCall>
    requires ImagesAccepted(images, b) && |tex| == MAX_SHADERSTAGE_IMAGES && |attrs| == MAX_VERTEX_ATTRIBUTES
  {
    ImageCalls(images, b, tex) + BufferBindCalls(GL_ELEMENT_ARRAY_BUFFER, indexBuffer, b.indexBuffer.glBuf)
    + AttributePass(layout, b, attrs, vb, instancing, MAX_VERTEX_ATTRIBUTES).0
  }

  lemma AppendAssoc(a: seq<GlCall>, x: seq<GlCall>, y: seq<GlCall>, z: seq<GlCall>)
    ensures a + (x + y + z) == a + x + y + z
  {
  }

  /** A call is in an append exactly when it is in one of the two parts. */
  lemma InAppend(calls: seq<GlCall>, x: seq<GlCall>, y: seq<GlCall>)
    requires calls == x + y
    ensures forall c :: c in calls <==> c in x || c in y
  {
  }

  /** Regrouping an append of three call lists. */
  lemma AppendAssoc2(a: seq<GlCall>, x: seq<GlCall>, y: seq<GlCall>)
    ensures a + x + y == a + (x + y)
  {
  }

  /** Appending two empty call lists changes nothing. */
  lemma AppendEmpty(a: seq<GlCall>, x: seq<GlCall>, y: seq<GlCall>)
    requires x == [] && y == []
    ensures a + x + y == a
  {
  }

  /** A cache that already reflects `b`: the slot contents `tex`, the attribute slots
      `attrs` and the bound index buffer are what the image pass, the index bind and the
      attribute pass would set. */
  predicate InSync(images: seq<ShaderImage>, layout: seq<Option<VertexAttributeInternal>>, b: Bindings,
                   tex: seq<nat>, attrs: seq<Option<CachedAttribute>>, indexBuffer: nat)
  {
    && |tex| == MAX_SHADERSTAGE_IMAGES && |attrs| == MAX_VERTEX_ATTRIBUTES
    && ImagesAccepted(images, b)
    && indexBuffer == b.indexBuffer.glBuf
    && (forall n :: 0 <= n < |images| && images[n].glLoc.Some? ==> tex[n] == b.images[n].texture)
    && (forall i :: 0 <= i < MAX_VERTEX_ATTRIBUTES ==> attrs[i] == ExpectedAttribute(layout, b, i))
  }

  /** Calls that change no binding: unit selections and sampler assignments. */
  predicate OnlySelects(calls: seq<GlCall>) {
    forall c :: c in calls ==> c.ActiveTexture? || c.Uniform1i?
  }

  /** Re-applying bindings the cache already reflects binds nothing: the calls of all three
      passes are unit selections and sampler assignments. */
  lemma ReapplyOnlySelects(images: seq<ShaderImage>, layout: seq<Option<VertexAttributeInternal>>, b: Bindings,
                           tex: seq<nat>, attrs: seq<Option<CachedAttribute>>, indexBuffer: nat, vb: nat, instancing: bool)
    requires InSync(images, layout, b, tex, attrs, indexBuffer)
    ensures OnlySelects(BindingsCalls(images, layout, b, tex, attrs, indexBuffer, vb, instancing))
  {
    ImageCallsInSync(images, b, tex);
    AttributePassInSync(layout, b, attrs, vb, instancing, MAX_VERTEX_ATTRIBUTES);
    var imageCalls := ImageCalls(images, b, tex);
    var indexCalls := BufferBindCalls(GL_ELEMENT_ARRAY_BUFFER, indexBuffer, b.indexBuffer.glBuf);
    var attributeCalls := AttributePass(layout, b, attrs, vb, instancing, MAX_VERTEX_ATTRIBUTES).0;
    AppendEmpty(imageCalls, indexCalls, attributeCalls);
  }

  /** The layout `with_params` builds for attribute locations `locs` (one per attribute, -1
      for none): two slots, attribute k written to slot `locs[k]` with offset 8k. */
  function LayoutOf(locs: seq<int>, stride: int): (layout: seq<Option<VertexAttributeInternal>>)
    requires forall k :: 0 <= k < |locs| ==> locs[k] == -1 || 0 <= locs[k] < 2
    ensures |layout| == 2
    decreases |locs|
  {
    if locs == [] then [None, None]
    else
      var n := |locs| - 1;
      var prev := LayoutOf(locs[..n], stride);
      if locs[n] == -1 then prev
      else prev[locs[n] := Some(VertexAttributeInternal(locs[n], 2, GL_FLOAT, 8 * n, stride, 0, 0))]
  }

  /** A slot where no attribute was found stays empty. */
  lemma {:induction false} LayoutOfEmptySlot(locs: seq<int>, stride: int, l: nat)
    requires forall k :: 0 <= k < |locs| ==> locs[k] == -1 || 0 <= locs[k] < 2
    requires l < 2 && forall k :: 0 <= k < |locs| ==> locs[k] != l
    ensures LayoutOf(locs, stride)[l] == None
    decreases |locs|
  {
    if locs != [] {
      LayoutOfEmptySlot(locs[..|locs| - 1], stride, l);
    }
  }

  /** A slot holds the last attribute found at that location, with its offset 8 bytes per
      attribute before it. */
  lemma {:induction false} LayoutOfLastWins(locs: seq<int>, stride: int, l: nat, k: nat)
    requires forall j :: 0 <= j < |locs| ==> locs[j] == -1 || 0 <= locs[j] < 2
    requires k < |locs| && locs[k] == l && forall j :: k < j < |locs| ==> locs[j] != l
    ensures LayoutOf(locs, stride)[l] == Some(VertexAttributeInternal(l, 2, GL_FLOAT, 8 * k, stride, 0, 0))
    decreases |locs|
  {
    var n := |locs| - 1;
    if k < n {
      var prefix := locs[..n];
      LayoutOfLastWins(prefix, stride, l, k);
    }
  }

  /** What `with_params` lets through: every attribute on buffer 0, a stride of at most 255
      bytes, every name free of NUL bytes (so that it converts to a C string), and every
      location found one of the two allocated slots. */
  predicate PipelineAccepted(attributes: seq<VertexAttribute>, locs: seq<int>) {
    (forall k :: 0 <= k < |attributes| ==> attributes[k].bufferIndex == 0)
    && 8 * |attributes| <= 255
    && (forall k :: 0 <= k < |attributes| ==> '\0' !in attributes[k].name)
    && (forall k :: 0 <= k < |locs| ==> locs[k] == -1 || 0 <= locs[k] < 2)
  }

  /** The shaders `images` built from the uniform locations the driver reported. */
  function ShaderImages(locs: seq<Option<int>>): (images: seq<ShaderImage>)
    ensures |images| == |locs| && forall n :: 0 <= n < |locs| ==> images[n].glLoc == locs[n]
  {
    seq(|locs|, n requires 0 <= n < |locs| => ShaderImage(locs[n]))
  }

  /** The calls of `Buffer::immutable` uploading `size` bytes into the new buffer `glBuf` on
      `target` while `bound` is bound there: generate, bind, allocate, fill, and bind `bound`
      back unless nothing was bound. */
  function UploadCalls(target: nat, bound: nat, glBuf: nat, size: nat): (calls: seq<GlCall>)
    ensures |calls| >= 3 && calls[0] == GenBuffer(glBuf)
    ensures BufferData(target, size, GL_STATIC_DRAW) in calls && BufferSubData(target, 0, size) in calls
    ensures bound == glBuf ==> calls == [GenBuffer(glBuf), BufferData(target, size, GL_STATIC_DRAW), BufferSubData(target, 0, size)]
  {
    [GenBuffer(glBuf)] + BufferBindCalls(target, bound, glBuf)
    + [BufferData(target, size, GL_STATIC_DRAW), BufferSubData(target, 0, size)]
    + (if bound != 0 then BufferBindCalls(target, glBuf, bound) else [])
  }

  class GraphicsContext {
    var shaders: seq<ShaderInternal>
    var pipelines: seq<PipelineInternal>
    const defaultFramebuffer: nat
    const cache: GlCache
    const width: int
    const height: int
    var instancing: bool
    /** The driver calls made so far, oldest first. */
    var trace: seq<GlCall>

    /** Handles only ever index their tables, and the cache has its fixed slot counts. */
    ghost predicate Valid()
      reads this, cache
    {
      cache.Valid()
      && (forall p :: p in pipelines ==> p.shader < |shaders|)
      && (cache.curPipeline.Some? ==> cache.curPipeline.value < |pipelines|)
    }

    /** The shader of the bound pipeline. */
    ghost function BoundShader(): ShaderInternal
      reads this, cache
      requires Valid() && cache.curPipeline.Some?
    {
      shaders[pipelines[cache.curPipeline.value].shader]
    }

    /** `GraphicsContext::new`: reads the default framebuffer, creates and binds one vertex
        array object, and starts from an empty cache with instancing on. */
    constructor (width: int, height: int, framebuffer: nat, vao: nat)
      ensures Valid() && fresh(cache) && fresh(cache.textures) && fresh(cache.attributes)
      ensures shaders == [] && pipelines == [] && instancing
      ensures defaultFramebuffer == framebuffer && this.width == width && this.height == height
      ensures trace == [GenVertexArray(vao), BindVertexArray(vao)]
      ensures cache.vertexBuffer == 0 && cache.indexBuffer == 0 && cache.curPipeline == None
      ensures cache.storedVertexBuffer == 0 && cache.storedIndexBuffer == 0 && cache.storedTexture == 0
      ensures forall i :: 0 <= i < MAX_SHADERSTAGE_IMAGES ==> cache.textures[i] == 0
      ensures forall i :: 0 <= i < MAX_VERTEX_ATTRIBUTES ==> cache.attributes[i] == None
    {
      defaultFramebuffer := framebuffer;
      shaders := [];
      pipelines := [];
      instancing := true;
      this.width := width;
      this.height := height;
      cache := new GlCache();
      trace := [GenVertexArray(vao), BindVertexArray(vao)];
    }

    /** Records the pipeline as bound and sets the fixed render state. */
    method ApplyPipeline(pipeline: nat)
      requires Valid() && pipeline < |pipelines|
      modifies this`trace, cache`curPipeline
      ensures Valid()
      ensures cache.curPipeline == Some(pipeline)
      ensures trace == old(trace) + [UseProgram(shaders[pipelines[pipeline].shader].program),
                                     Enable(GL_SCISSOR_TEST), Disable(GL_DEPTH_TEST), FrontFace(GL_CCW)]
    {
      cache.curPipeline := Some(pipeline);
      var p := pipelines[pipeline];
      var shader := shaders[p.shader];
      trace := trace + [UseProgram(shader.program)];
      trace := trace + [Enable(GL_SCISSOR_TEST)];
      trace := trace + [Disable(GL_DEPTH_TEST)];
      trace := trace + [FrontFace(GL_CCW)];
    }

    /** The bound pipeline's images and attributes reconciled against `b`: panics without a
        bound pipeline, with fewer textures than the shader declares, with an image location
        past slot 11, or with an attribute naming a missing vertex buffer. Afterwards each
        attribute slot holds what the pipeline wants there, and the driver is asked to
        change only what the cache says differs. */
    method ApplyBindings(b: Bindings) returns (r: Outcome)
      requires Valid()
      modifies this`trace, cache`vertexBuffer, cache`indexBuffer, cache.textures, cache.attributes
      ensures Valid()
      ensures r.Done? <==> cache.curPipeline.Some?
                           && var p := pipelines[cache.curPipeline.value];
                              ImagesAccepted(shaders[p.shader].images, b) && AttributesAccepted(p.layout, b, MAX_VERTEX_ATTRIBUTES)
      ensures r.Done? ==>
                var p := pipelines[cache.curPipeline.value];
                var images := shaders[p.shader].images;
                var pass := AttributePass(p.layout, b, old(cache.attributes[..]), old(cache.vertexBuffer), instancing, MAX_VERTEX_ATTRIBUTES);
                && trace == old(trace) + BindingsCalls(images, p.layout, b, old(cache.textures[..]), old(cache.attributes[..]),
                                                       old(cache.indexBuffer), old(cache.vertexBuffer), instancing)
                && cache.vertexBuffer == pass.1
                && cache.indexBuffer == b.indexBuffer.glBuf
                && (forall n :: 0 <= n < MAX_SHADERSTAGE_IMAGES ==>
                      cache.textures[n] == if n < |images| && images[n].glLoc.Some? then b.images[n].texture
                                           else old(cache.textures[n]))
                && (forall i :: 0 <= i < MAX_VERTEX_ATTRIBUTES ==> cache.attributes[i] == ExpectedAttribute(p.layout, b, i))
    {
      if cache.curPipeline.None? {
        return Panic(UNWRAP_NONE);
      }
      var pip := pipelines[cache.curPipeline.value];
      var shader := shaders[pip.shader];
      r := ApplyImagesAndIndex(shader.images, b);
      if r.Panic? {
        return;
      }
      ghost var mid := trace;
      assert mid == old(trace) + ImageCalls(shader.images, b, old(cache.textures[..]))
                    + BufferBindCalls(GL_ELEMENT_ARRAY_BUFFER, old(cache.indexBuffer), b.indexBuffer.glBuf);
      r := ApplyAttributes(pip.layout, b);
      if r.Done? {
        ghost var imageCalls := ImageCalls(shader.images, b, old(cache.textures[..]));
        ghost var indexCalls := BufferBindCalls(GL_ELEMENT_ARRAY_BUFFER, old(cache.indexBuffer), b.indexBuffer.glBuf);
        ghost var attributeCalls := AttributePass(pip.layout, b, old(cache.attributes[..]), old(cache.vertexBuffer), instancing, MAX_VERTEX_ATTRIBUTES).0;
        assert trace == old(trace) + imageCalls + indexCalls + attributeCalls;
        AppendAssoc(old(trace), imageCalls, indexCalls, attributeCalls);
      }
    }

    /** The image pass, then the index buffer bind. */
    method ApplyImagesAndIndex(images: seq<ShaderImage>, b: Bindings) returns (r: Outcome)
      requires cache.Valid()
      modifies this`trace, cache`vertexBuffer, cache`indexBuffer, cache.textures
      ensures cache.vertexBuffer == old(cache.vertexBuffer)
      ensures r.Done? <==> ImagesAccepted(images, b)
      ensures r.Done? ==> trace == old(trace) + ImageCalls(images, b, old(cache.textures[..]))
                                    + BufferBindCalls(GL_ELEMENT_ARRAY_BUFFER, old(cache.indexBuffer), b.indexBuffer.glBuf)
      ensures r.Done? ==> cache.indexBuffer == b.indexBuffer.glBuf
      ensures r.Done? ==> forall n :: 0 <= n < MAX_SHADERSTAGE_IMAGES ==>
                cache.textures[n] == if n < |images| && images[n].glLoc.Some? then b.images[n].texture
                                     else old(cache.textures[n])
    {
      r := ApplyImages(images, b);
      if r.Panic? {
        return;
      }
      var calls := cache.BindBuffer(GL_ELEMENT_ARRAY_BUFFER, b.indexBuffer.glBuf);
      trace := trace + calls;
    }

    /** The image pass of `apply_bindings`. */
    method ApplyImages(images: seq<ShaderImage>, b: Bindings) returns (r: Outcome)
      requires cache.Valid()
      modifies this`trace, cache.textures
      ensures r.Done? <==> ImagesAccepted(images, b)
      ensures r.Done? ==> trace == old(trace) + ImageCalls(images, b, old(cache.textures[..]))
      ensures r.Done? ==> forall n :: 0 <= n < MAX_SHADERSTAGE_IMAGES ==>
                cache.textures[n] == if n < |images| && images[n].glLoc.Some? then b.images[n].texture
                                     else old(cache.textures[n])
    {
      ghost var tex := cache.textures[..];
      ghost var trace0 := trace;
      for n := 0 to |images|
        invariant ImagesAccepted(images[..n], b)
        invariant trace == trace0 + ImageCalls(images[..n], b, tex)
        invariant forall j :: 0 <= j < MAX_SHADERSTAGE_IMAGES ==>
                    cache.textures[j] == if j < n && images[j].glLoc.Some? then b.images[j].texture else tex[j]
      {
        r := ApplyImage(images, b, tex, trace0, n);
        if r.Panic? {
          return;
        }
      }
      assert images[..|images|] == images;
      return Done;
    }

    /** Image `n` of the image pass, once images `[0, n)` are done: afterwards images
        `[0, n + 1)` are, or the images are refused. */
    method ApplyImage(images: seq<ShaderImage>, b: Bindings, ghost tex: seq<nat>, ghost trace0: seq<GlCall>, n: nat)
      returns (r: Outcome)
      requires cache.Valid() && n < |images| && |tex| == MAX_SHADERSTAGE_IMAGES
      requires ImagesAccepted(images[..n], b)
      requires trace == trace0 + ImageCalls(images[..n], b, tex)
      requires forall j :: 0 <= j < MAX_SHADERSTAGE_IMAGES ==>
                 cache.textures[j] == if j < n && images[j].glLoc.Some? then b.images[j].texture else tex[j]
      modifies this`trace, cache.textures
      ensures r.Panic? ==> !ImagesAccepted(images, b)
      ensures r.Done? ==>
                && ImagesAccepted(images[..n + 1], b)
                && trace == trace0 + ImageCalls(images[..n + 1], b, tex)
                && forall j :: 0 <= j < MAX_SHADERSTAGE_IMAGES ==>
                     cache.textures[j] == if j < n + 1 && images[j].glLoc.Some? then b.images[j].texture else tex[j]
    {
      if n >= |b.images| {
        return Panic(IMAGE_COUNT_MISMATCH);
      }
      assert images[..n + 1][..n] == images[..n];
      if images[n].glLoc.Some? {
        if n >= MAX_SHADERSTAGE_IMAGES {
          return Panic(INDEX_OUT_OF_BOUNDS);
        }
        BindImage(images, b, tex, trace0, n);
      } else {
        assert ImageCalls(images[..n + 1], b, tex) == ImageCalls(images[..n], b, tex) + [];
      }
      return Done;
    }

    /** The located image `n` of the image pass: its texture bound on slot `n` through the
        cache, then its sampler pointed at that slot. */
    method BindImage(images: seq<ShaderImage>, b: Bindings, ghost tex: seq<nat>, ghost trace0: seq<GlCall>, n: nat)
      requires cache.Valid() && n < |images| && n < |b.images| && n < MAX_SHADERSTAGE_IMAGES && |tex| == MAX_SHADERSTAGE_IMAGES
      requires images[n].glLoc.Some? && ImagesAccepted(images[..n], b)
      requires trace == trace0 + ImageCalls(images[..n], b, tex)
      requires forall j :: 0 <= j < MAX_SHADERSTAGE_IMAGES ==>
                 cache.textures[j] == if j < n && images[j].glLoc.Some? then b.images[j].texture else tex[j]
      modifies this`trace, cache.textures
      ensures ImagesAccepted(images[..n + 1], b)
      ensures trace == trace0 + ImageCalls(images[..n + 1], b, tex)
      ensures forall j :: 0 <= j < MAX_SHADERSTAGE_IMAGES ==>
                cache.textures[j] == if j < n + 1 && images[j].glLoc.Some? then b.images[j].texture else tex[j]
    {
      assert images[..n + 1][..n] == images[..n];
      assert ImageCalls(images[..n + 1], b, tex) == ImageCalls(images[..n], b, tex)
             + TextureBindCalls(n, tex[n], b.images[n].texture) + [Uniform1i(images[n].glLoc.value, n)];
      ghost var before := cache.textures[..];
      var calls := cache.BindTexture(n, b.images[n].texture);
      trace := trace + calls + [Uniform1i(images[n].glLoc.value, n)];
      forall j | 0 <= j < MAX_SHADERSTAGE_IMAGES
        ensures cache.textures[j] == if j < n + 1 && images[j].glLoc.Some? then b.images[j].texture else tex[j]
      {
        assert cache.textures[j] == before[n := b.images[n].texture][j];
      }
    }

    /** The attribute pass of `apply_bindings`, over all 16 slots. */
    method ApplyAttributes(layout: seq<Option<VertexAttributeInternal>>, b: Bindings) returns (r: Outcome)
      requires cache.Valid()
      modifies this`trace, cache`vertexBuffer, cache`indexBuffer, cache.attributes
      ensures cache.indexBuffer == old(cache.indexBuffer)
      ensures r.Done? <==> AttributesAccepted(layout, b, MAX_VERTEX_ATTRIBUTES)
      ensures r.Done? ==>
                var pass := AttributePass(layout, b, old(cache.attributes[..]), old(cache.vertexBuffer), instancing, MAX_VERTEX_ATTRIBUTES);
                trace == old(trace) + pass.0 && cache.vertexBuffer == pass.1
                && forall i :: 0 <= i < MAX_VERTEX_ATTRIBUTES ==> cache.attributes[i] == ExpectedAttribute(layout, b, i)
    {
      ghost var had := cache.attributes[..];
      ghost var vb0 := cache.vertexBuffer;
      ghost var trace0 := trace;
      ghost var inst := instancing;
      for i := 0 to MAX_VERTEX_ATTRIBUTES
        invariant AttributesAccepted(layout, b, i)
        invariant trace == trace0 + AttributePass(layout, b, had, vb0, inst, i).0
        invariant cache.vertexBuffer == AttributePass(layout, b, had, vb0, inst, i).1
        invariant forall j :: 0 <= j < i ==> cache.attributes[j] == ExpectedAttribute(layout, b, j)
        invariant forall j :: i <= j < MAX_VERTEX_ATTRIBUTES ==> cache.attributes[j] == had[j]
        invariant cache.indexBuffer == old(cache.indexBuffer)
      {
        r := ApplySlotInPass(layout, b, had, vb0, trace0, inst, i);
        if r.Panic? {
          return;
        }
      }
      return Done;
    }

    /** Slot `i` of the attribute pass, once slots `[0, i)` are done: afterwards slots
        `[0, i + 1)` are, or the layout is refused. */
    method ApplySlotInPass(layout: seq<Option<VertexAttributeInternal>>, b: Bindings,
                           ghost had: seq<Option<CachedAttribute>>, ghost vb0: nat, ghost trace0: seq<GlCall>,
                           ghost inst: bool, i: nat)
      returns (r: Outcome)
      requires cache.Valid() && i < MAX_VERTEX_ATTRIBUTES == |had| && inst == instancing
      requires AttributesAccepted(layout, b, i)
      requires trace == trace0 + AttributePass(layout, b, had, vb0, inst, i).0
      requires cache.vertexBuffer == AttributePass(layout, b, had, vb0, inst, i).1
      requires forall j :: 0 <= j < i ==> cache.attributes[j] == ExpectedAttribute(layout, b, j)
      requires forall j :: i <= j < MAX_VERTEX_ATTRIBUTES ==> cache.attributes[j] == had[j]
      modifies this`trace, cache`vertexBuffer, cache`indexBuffer, cache.attributes
      ensures cache.indexBuffer == old(cache.indexBuffer)
      ensures r.Panic? ==> !AttributesAccepted(layout, b, MAX_VERTEX_ATTRIBUTES)
      ensures r.Done? ==>
                && AttributesAccepted(layout, b, i + 1)
                && trace == trace0 + AttributePass(layout, b, had, vb0, inst, i + 1).0
                && cache.vertexBuffer == AttributePass(layout, b, had, vb0, inst, i + 1).1
                && (forall j :: 0 <= j < i + 1 ==> cache.attributes[j] == ExpectedAttribute(layout, b, j))
                && (forall j :: i + 1 <= j < MAX_VERTEX_ATTRIBUTES ==> cache.attributes[j] == had[j])
    {
      ghost var prev := AttributePass(layout, b, had, vb0, inst, i);
      ghost var want := ExpectedAttribute(layout, b, i);
      ghost var before := cache.attributes[..];
      assert before[i] == had[i];
      AttributePassStep(layout, b, had, vb0, inst, i);
      AttributesAcceptedStep(layout, b, i);
      r := ApplySlot(layout, b, i);
      if r.Done? {
        ghost var slot := SlotCalls(i, want, had[i], prev.1, inst);
        AppendAssoc2(trace0, prev.0, slot);
        forall j | 0 <= j < MAX_VERTEX_ATTRIBUTES
          ensures cache.attributes[j] == if j < i + 1 then ExpectedAttribute(layout, b, j) else had[j]
        {
          assert cache.attributes[j] == before[i := want][j];
        }
      }
    }

    /** One attribute slot of the attribute pass. */
    method ApplySlot(layout: seq<Option<VertexAttributeInternal>>, b: Bindings, i: nat) returns (r: Outcome)
      requires cache.Valid() && i < MAX_VERTEX_ATTRIBUTES
      modifies this`trace, cache`vertexBuffer, cache`indexBuffer, cache.attributes
      ensures cache.indexBuffer == old(cache.indexBuffer)
      ensures r.Done? <==> !(i < |layout| && layout[i].Some? && layout[i].value.bufferIndex >= |b.vertexBuffers|)
      ensures r.Done? ==>
                var want := ExpectedAttribute(layout, b, i);
                && trace == old(trace) + SlotCalls(i, want, old(cache.attributes[i]), old(cache.vertexBuffer), instancing)
                && cache.vertexBuffer == (if want.Some? && old(cache.attributes[i]) != want then want.value.glVbuf
                                          else old(cache.vertexBuffer))
                && cache.attributes[..] == old(cache.attributes[..])[i := want]
    {
      var entry := if i < |layout| then layout[i] else None;
      match entry {
        case Some(attribute) =>
          if attribute.bufferIndex >= |b.vertexBuffers| {
            return Panic(INDEX_OUT_OF_BOUNDS);
          }
          var vb := b.vertexBuffers[attribute.bufferIndex];
          var cached := cache.attributes[i];
          if cached.None? || attribute != cached.value.attribute || cached.value.glVbuf != vb.glBuf {
            var calls := cache.BindBuffer(GL_ARRAY_BUFFER, vb.glBuf);
            trace := trace + calls;
            trace := trace + [VertexAttribPointer(i, attribute.size, attribute.kind, attribute.stride, attribute.offset)];
            if instancing {
              trace := trace + [VertexAttribDivisor(i, attribute.divisor)];
            }
            trace := trace + [EnableVertexAttribArray(i)];
            cache.attributes[i] := Some(CachedAttribute(attribute, vb.glBuf));
          }
        case None =>
          if cache.attributes[i].Some? {
            trace := trace + [DisableVertexAttribArray(i)];
            cache.attributes[i] := None;
          }
      }
      return Done;
    }

    /** Walks the bound shader's uniforms in floats, uploading each one that has a location
        from its offset in the `size`-byte struct. Checks that each uniform fits with the
        intended test (see `FitsAsWritten` for the one in the source). */
    method ApplyUniformsFromBytes(size: nat) returns (r: Outcome)
      requires Valid()
      modifies this`trace
      ensures cache.curPipeline.None? ==> r.Panic? && trace == old(trace)
      ensures cache.curPipeline.Some? ==>
                var us := BoundShader().uniforms;
                && (r.Done? <==> UniformsFit(UniformCounts(us), size))
                && (r.Done? ==> trace == old(trace) + UniformCalls(us))
    {
      if cache.curPipeline.None? {
        return Panic(UNWRAP_NONE);
      }
      var pip := pipelines[cache.curPipeline.value];
      var us := shaders[pip.shader].uniforms;
      ghost var counts := UniformCounts(us);
      ghost var trace0 := trace;
      var offset := 0;
      for k := 0 to |us|
        invariant offset == FLOAT2_SIZE / 4 * Sum(counts[..k])
        invariant forall j :: 0 <= j < k ==> UniformFits(FLOAT2_SIZE / 4 * Sum(counts[..j]), counts[j], size)
        invariant trace == trace0 + UniformCalls(us[..k])
      {
        r := ApplyUniform(us, size, trace0, k, offset);
        if r.Panic? {
          return;
        }
        SumSnoc(counts, k);
        offset := offset + FLOAT2_SIZE / 4 * us[k].arrayCount;
      }
      assert us[..|us|] == us;
      return Done;
    }

    /** Uniform `k`, `offset` floats into the struct: panics unless it fits, otherwise
        uploads it when it has a location. */
    method ApplyUniform(us: seq<ShaderUniform>, size: nat, ghost trace0: seq<GlCall>, k: nat, offset: nat)
      returns (r: Outcome)
      requires k < |us| && offset == FLOAT2_SIZE / 4 * Sum(UniformCounts(us)[..k])
      requires trace == trace0 + UniformCalls(us[..k])
      modifies this`trace
      ensures r.Panic? <==> !UniformFits(offset, UniformCounts(us)[k], size)
      ensures r.Done? ==> trace == trace0 + UniformCalls(us[..k + 1])
    {
      if !(4 * (offset + FLOAT2_SIZE / 4 * us[k].arrayCount) <= size) {
        return Panic(UNIFORM_LAYOUT_MISMATCH);
      }
      assert us[..k + 1][..k] == us[..k];
      assert UniformCounts(us[..k]) == UniformCounts(us)[..k];
      if us[k].glLoc.Some? {
        trace := trace + [Uniform2fv(us[k].glLoc.value, us[k].arrayCount, offset)];
      }
      return Done;
    }

    /** Clears colour and depth. */
    method Clear()
      modifies this`trace
      ensures trace == old(trace) + [ClearColor, ClearDepth, GlCall.Clear(GL_COLOR_BUFFER_BIT + GL_DEPTH_BUFFER_BIT)]
    {
      // The two mask bits are disjoint, so or-ing them in is adding them.
      var bits := 0;
      bits := bits + GL_COLOR_BUFFER_BIT;
      trace := trace + [ClearColor];
      bits := bits + GL_DEPTH_BUFFER_BIT;
      trace := trace + [ClearDepth];
      if bits != 0 {
        trace := trace + [GlCall.Clear(bits)];
      }
    }

    method BeginDefaultPass()
      modifies this`trace
      ensures trace == old(trace) + [BindFramebuffer(GL_FRAMEBUFFER, defaultFramebuffer), Viewport(width, height),
                                     Scissor(width, height), ClearColor, ClearDepth,
                                     GlCall.Clear(GL_COLOR_BUFFER_BIT + GL_DEPTH_BUFFER_BIT)]
    {
      BeginPass();
    }

    /** Targets the default framebuffer over the whole window, then clears it. */
    method BeginPass()
      modifies this`trace
      ensures trace == old(trace) + [BindFramebuffer(GL_FRAMEBUFFER, defaultFramebuffer), Viewport(width, height),
                                     Scissor(width, height), ClearColor, ClearDepth,
                                     GlCall.Clear(GL_COLOR_BUFFER_BIT + GL_DEPTH_BUFFER_BIT)]
    {
      trace := trace + [BindFramebuffer(GL_FRAMEBUFFER, defaultFramebuffer), Viewport(width, height), Scissor(width, height)];
      Clear();
    }

    /** Rebinds the default framebuffer and unbinds both buffer targets through the cache. */
    method EndRenderPass()
      modifies this`trace, cache`vertexBuffer, cache`indexBuffer
      ensures cache.vertexBuffer == 0 && cache.indexBuffer == 0
      ensures trace == old(trace) + [BindFramebuffer(GL_FRAMEBUFFER, defaultFramebuffer)]
                       + BufferBindCalls(GL_ARRAY_BUFFER, old(cache.vertexBuffer), 0)
                       + BufferBindCalls(GL_ELEMENT_ARRAY_BUFFER, old(cache.indexBuffer), 0)
    {
      trace := trace + [BindFramebuffer(GL_FRAMEBUFFER, defaultFramebuffer)];
      var first := cache.BindBuffer(GL_ARRAY_BUFFER, 0);
      trace := trace + first;
      var second := cache.BindBuffer(GL_ELEMENT_ARRAY_BUFFER, 0);
      trace := trace + second;
    }

    /** Unbinds both buffers and every bound texture slot. */
    method CommitFrame()
      requires Valid()
      modifies this`trace, cache`vertexBuffer, cache`indexBuffer, cache.textures
      ensures Valid()
      ensures cache.vertexBuffer == 0 && cache.indexBuffer == 0
      ensures forall i :: 0 <= i < MAX_SHADERSTAGE_IMAGES ==> cache.textures[i] == 0
      ensures trace == old(trace) + BufferBindCalls(GL_ARRAY_BUFFER, old(cache.vertexBuffer), 0)
                       + BufferBindCalls(GL_ELEMENT_ARRAY_BUFFER, old(cache.indexBuffer), 0)
                       + UnbindCalls(old(cache.textures[..]))
    {
      var buffers := cache.ClearBufferBindings();
      var textures := cache.ClearTextureBindings();
      trace := trace + buffers + textures;
    }

    /** One instanced draw of `numElements` 16-bit indices from element `baseElement`;
        panics without a bound pipeline, and is skipped when instancing is unavailable and
        more (or fewer) than one instance is asked for. */
    method Draw(baseElement: int, numElements: int, numInstances: int) returns (r: Outcome)
      modifies this`trace
      ensures r.Panic? <==> cache.curPipeline.None?
      ensures r.Panic? ==> trace == old(trace)
      ensures r.Done? && !instancing && numInstances != 1 ==> trace == old(trace)
      ensures r.Done? && (instancing || numInstances == 1) ==>
                trace == old(trace) + [DrawElementsInstanced(GL_TRIANGLES, numElements, GL_UNSIGNED_SHORT, 2 * baseElement, numInstances)]
    {
      if cache.curPipeline.None? {
        return Panic(DRAW_WITHOUT_PIPELINE);
      }
      if !instancing && numInstances != 1 {
        return Done;
      }
      trace := trace + [DrawElementsInstanced(GL_TRIANGLES, numElements, GL_UNSIGNED_SHORT, 2 * baseElement, numInstances)];
      return Done;
    }

    /** `Shader::new`. The loader's outcome is `program` (compilation and linking are not
        modelled) and the locations it looked up are `imageLocs` and `uniformLocs`. A failure
        is passed on and adds nothing; a success appends the shader and returns its position,
        one past every earlier handle. */
    method NewShader(meta: ShaderMeta, program: Result<nat>, imageLocs: seq<Option<int>>, uniformLocs: seq<Option<int>>)
      returns (r: Result<nat>)
      requires Valid() && |imageLocs| == |meta.images| && |uniformLocs| == |meta.uniforms|
      modifies this`shaders, this`trace
      ensures Valid()
      ensures program.Failed? ==> r == Failed(program.reason) && shaders == old(shaders) && trace == old(trace)
      ensures program.Ok? ==>
                && r == Ok(|old(shaders)|)
                && shaders == old(shaders) + [ShaderInternal(program.value, ShaderImages(imageLocs),
                                                             ScanUniforms(meta.uniforms, uniformLocs, 0))]
                && trace == old(trace) + [UseProgram(program.value)]
    {
      if program.Failed? {
        return Failed(program.reason);
      }
      trace := trace + [UseProgram(program.value)];
      var shader := ShaderInternal(program.value, ShaderImages(imageLocs), ScanUniforms(meta.uniforms, uniformLocs, 0));
      shaders := shaders + [shader];
      r := Ok(|shaders| - 1);
    }

    /** `Pipeline::with_params`: the stride is 8 bytes per attribute, attribute k sits at
        offset 8k, and the attribute locations the driver reports (`attrLocs`, -1 for none)
        place the attributes in a two-slot layout. Panics as `PipelineAccepted` says, a NUL in a
        name before that name's location is looked at; on success the pipeline is appended and
        its position returned. */
    method PipelineWithParams(attributes: seq<VertexAttribute>, shader: nat, attrLocs: seq<int>) returns (r: Result<nat>)
      requires Valid() && shader < |shaders| && |attrLocs| == |attributes|
      modifies this`pipelines
      ensures Valid()
      ensures r.Ok? <==> PipelineAccepted(attributes, attrLocs)
      ensures r.Failed? ==> pipelines == old(pipelines)
      ensures r.Ok? ==>
                r.value == |old(pipelines)|
                && pipelines == old(pipelines) + [PipelineInternal(LayoutOf(attrLocs, 8 * |attributes|), shader)]
    {
      var stride := 0;
      for k := 0 to |attributes|
        invariant stride == 8 * k
        invariant forall j :: 0 <= j < k ==> attributes[j].bufferIndex == 0
      {
        if attributes[k].bufferIndex != 0 {
          return Failed(EXPLICIT_PANIC);
        }
        stride := stride + 8;
        if stride > 255 {
          return Failed(ASSERTION_FAILED);
        }
      }
      var layout: seq<Option<VertexAttributeInternal>> := [None, None];
      var offset := 0;
      for k := 0 to |attributes|
        invariant offset == 8 * k
        invariant forall j :: 0 <= j < k ==> '\0' !in attributes[j].name
        invariant forall j :: 0 <= j < k ==> attrLocs[j] == -1 || 0 <= attrLocs[j] < 2
        invariant layout == LayoutOf(attrLocs[..k], stride)
      {
        assert attrLocs[..k + 1][..k] == attrLocs[..k];
        if '\0' in attributes[k].name {
          return Failed(NUL_IN_NAME);
        }
        var loc := attrLocs[k];
        if loc != -1 {
          if !(0 <= loc < 2) {
            return Failed(ASSERTION_FAILED);
          }
          layout := layout[loc := Some(VertexAttributeInternal(loc, 2, GL_FLOAT, offset, stride, attributes[k].bufferIndex, 0))];
        }
        offset := offset + 8;
      }
      assert attrLocs[..|attributes|] == attrLocs;
      pipelines := pipelines + [PipelineInternal(layout, shader)];
      r := Ok(|pipelines| - 1);
    }

    /** `Buffer::immutable`: generates the id `glBuf`, binds it (remembering what was bound),
        uploads `size` bytes and restores the previous binding, or leaves the new buffer
        bound when nothing was bound before. */
    method BufferImmutable(bufferType: BufferType, size: nat, glBuf: nat) returns (buffer: Buffer)
      modifies this`trace, cache`vertexBuffer, cache`indexBuffer, cache`storedVertexBuffer, cache`storedIndexBuffer
      ensures buffer == Buffer(glBuf)
      ensures var t := Target(bufferType);
              && cache.Bound(t) == (if old(cache.Bound(t)) != 0 then old(cache.Bound(t)) else glBuf)
              && cache.Stored(t) == 0
              && trace == old(trace) + UploadCalls(t, old(cache.Bound(t)), glBuf, size)
      ensures bufferType == VertexBuffer ==> cache.indexBuffer == old(cache.indexBuffer) && cache.storedIndexBuffer == old(cache.storedIndexBuffer)
      ensures bufferType == IndexBuffer ==> cache.vertexBuffer == old(cache.vertexBuffer) && cache.storedVertexBuffer == old(cache.storedVertexBuffer)
    {
      var target := Target(bufferType);
      ghost var before := cache.Bound(target);
      cache.StoreBufferBinding(target);
      var bound := cache.BindBuffer(target, glBuf);
      var restored := cache.RestoreBufferBinding(target);
      assert restored == if before != 0 then BufferBindCalls(target, glBuf, before) else [];
      trace := trace + ([GenBuffer(glBuf)] + bound + [BufferData(target, size, GL_STATIC_DRAW), BufferSubData(target, 0, size)] + restored);
      buffer := Buffer(glBuf);
    }
  }

  /** Applying the same bindings twice: the second application only selects texture units
      and sets samplers. */
  method ApplyBindingsTwice(ctx: GraphicsContext, b: Bindings)
    requires ctx.Valid()
    modifies ctx`trace, ctx.cache`vertexBuffer, ctx.cache`indexBuffer, ctx.cache.textures, ctx.cache.attributes
  {
    var first := ctx.ApplyBindings(b);
    if first.Panic? {
      return;
    }
    ghost var p := ctx.pipelines[ctx.cache.curPipeline.value];
    ghost var images := ctx.shaders[p.shader].images;
    ghost var tex := ctx.cache.textures[..];
    ghost var attrs := ctx.cache.attributes[..];
    assert ImagesAccepted(images, b);
    forall n | 0 <= n < |images| && images[n].glLoc.Some?
      ensures tex[n] == b.images[n].texture
    {
      assert n < MAX_SHADERSTAGE_IMAGES;
    }
    forall i | 0 <= i < MAX_VERTEX_ATTRIBUTES
      ensures attrs[i] == ExpectedAttribute(p.layout, b, i)
    {
      assert attrs[i] == ctx.cache.attributes[i];
    }
    assert InSync(images, p.layout, b, tex, attrs, ctx.cache.indexBuffer);
    var second := ReapplyBindings(ctx, b);
    assert second.Done?;
  }

  /** `apply_bindings` on a cache already in step with `b`: it gets through and asks the
      driver for nothing but unit selections and sampler assignments. */
  method ReapplyBindings(ctx: GraphicsContext, b: Bindings) returns (r: Outcome)
    requires ctx.Valid() && ctx.cache.curPipeline.Some?
    requires var p := ctx.pipelines[ctx.cache.curPipeline.value];
             && AttributesAccepted(p.layout, b, MAX_VERTEX_ATTRIBUTES)
             && InSync(ctx.shaders[p.shader].images, p.layout, b, ctx.cache.textures[..], ctx.cache.attributes[..], ctx.cache.indexBuffer)
    modifies ctx`trace, ctx.cache`vertexBuffer, ctx.cache`indexBuffer, ctx.cache.textures, ctx.cache.attributes
    ensures r.Done?
    ensures |old(ctx.trace)| <= |ctx.trace| && OnlySelects(ctx.trace[|old(ctx.trace)|..])
  {
    ghost var p := ctx.pipelines[ctx.cache.curPipeline.value];
    ghost var images := ctx.shaders[p.shader].images;
    ghost var tex, attrs := ctx.cache.textures[..], ctx.cache.attributes[..];
    ghost var idx, vb := ctx.cache.indexBuffer, ctx.cache.vertexBuffer;
    ReapplyOnlySelects(images, p.layout, b, tex, attrs, idx, vb, ctx.instancing);
    r := ctx.ApplyBindings(b);
    ghost var calls := BindingsCalls(images, p.layout, b, tex, attrs, idx, vb, ctx.instancing);
    assert ctx.trace == old(ctx.trace) + calls;
    assert ctx.trace[|old(ctx.trace)|..] == calls;
  }
}
