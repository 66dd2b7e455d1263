/** `Texture::new` of winopengl (winopengl/src/graphics/texture.rs): checks that the pixel
    data is exactly `width` x `height` RGB triples, then creates the texture on slot 0 and
    puts back whatever slot 0 held before. */
module GlTexture {
  import opened Wrappers
  import opened GlTypes
  import opened GlCache
  import opened Graphics

  /** One past the largest `u32`. */
  const U32_LIMIT: nat := 0x1_0000_0000

  const MULTIPLY_OVERFLOW := "attempt to multiply with overflow"
  const SIZE_MISMATCH := "assertion `left == right` failed"

  /** `3 * width * height` evaluated on `u32` with overflow checks, as `(3 * width) * height`:
      `None` where either product overflows. */
  function CheckedPixelBytes(width: nat, height: nat): (r: Option<nat>)
    ensures r.Some? ==> r.value == 3 * width * height && r.value < U32_LIMIT
  {
    if 3 * width >= U32_LIMIT then None
    else if 3 * width * height >= U32_LIMIT then None
    else Some(3 * width * height)
  }

  /** The size check passes: no overflow, and one RGB triple per pixel. */
  predicate SizeAccepted(byteCount: nat, width: nat, height: nat) {
    CheckedPixelBytes(width, height) == Some(byteCount)
  }

  /** For a texture at least one pixel high the check is exactly "three bytes per pixel and
      fewer than 2^32 bytes"; a zero-height texture is still refused when `3 * width`
      overflows on its own. */
  lemma SizeAcceptedIffExact(byteCount: nat, width: nat, height: nat)
    ensures height > 0 ==>
              (SizeAccepted(byteCount, width, height) <==> byteCount == 3 * width * height && byteCount < U32_LIMIT)
    ensures height == 0 ==> (SizeAccepted(byteCount, width, height) <==> byteCount == 0 && 3 * width < U32_LIMIT)
  {
    if height > 0 {
      assert 3 * width <= 3 * width * height by {
        MulMonotone(3 * width, height);
      }
    }
  }

  lemma MulMonotone(a: nat, h: nat)
    requires h > 0
    ensures a <= a * h
  {
    assert a * h == a + a * (h - 1);
  }

  /** The texture parameters set between binding and restoring, in the order they are set. */
  function SetupCalls(width: nat, height: nat): (calls: seq<GlCall>)
    ensures |calls| == 7
    ensures calls[0] == PixelStorei(GL_UNPACK_ALIGNMENT, 1)
    ensures calls[2] == TexImage2D(GL_TEXTURE_2D, GL_RGB, width, height, GL_RGB, GL_UNSIGNED_BYTE)
  {
    [ PixelStorei(GL_UNPACK_ALIGNMENT, 1),
      TexParameteri(GL_TEXTURE_2D, GL_TEXTURE_SWIZZLE_A, GL_ALPHA),
      TexImage2D(GL_TEXTURE_2D, GL_RGB, width, height, GL_RGB, GL_UNSIGNED_BYTE),
      TexParameteri(GL_TEXTURE_2D, GL_TEXTURE_WRAP_S, GL_CLAMP_TO_EDGE),
      TexParameteri(GL_TEXTURE_2D, GL_TEXTURE_WRAP_T, GL_CLAMP_TO_EDGE),
      TexParameteri(GL_TEXTURE_2D, GL_TEXTURE_MIN_FILTER, GL_LINEAR),
      TexParameteri(GL_TEXTURE_2D, GL_TEXTURE_MAG_FILTER, GL_LINEAR) ]
  }

  /** The calls of a texture upload while slot 0 holds `previous`: generate, bind on slot 0,
      set up, and bind `previous` back. */
  function NewTextureCalls(generated: nat, previous: nat, width: nat, height: nat): seq<GlCall>
  {
    [GenTexture(generated)] + TextureBindCalls(0, previous, generated) + SetupCalls(width, height)
    + TextureBindCalls(0, generated, previous)
  }

  /** `Texture::new(ctx, bytes, width, height)`; `generated` is the id the driver hands out.
      Refused sizes panic before anything is touched. Otherwise the texture is bound on
      slot 0 only for its upload: every slot ends as it was, and the returned texture
      carries the new id and the given size. */
  method NewTexture(ctx: GraphicsContext, bytes: seq<bv8>, width: nat, height: nat, generated: nat)
    returns (r: Result<Texture>)
    requires ctx.Valid() && width < U32_LIMIT && height < U32_LIMIT
    modifies ctx`trace, ctx.cache`storedTexture, ctx.cache.textures
    ensures ctx.Valid()
    ensures r.Ok? <==> SizeAccepted(|bytes|, width, height)
    ensures r.Failed? ==> ctx.trace == old(ctx.trace) && ctx.cache.storedTexture == old(ctx.cache.storedTexture)
    ensures ctx.cache.textures[..] == old(ctx.cache.textures[..])
    ensures r.Ok? ==>
              && r.value == Texture(generated, width, height)
              && ctx.cache.storedTexture == old(ctx.cache.textures[0])
              && ctx.trace == old(ctx.trace) + NewTextureCalls(generated, old(ctx.cache.textures[0]), width, height)
  {
    var checked := CheckedPixelBytes(width, height);
    if checked.None? {
      return Failed(MULTIPLY_OVERFLOW);
    }
    if checked.value != |bytes| {
      return Failed(SIZE_MISMATCH);
    }
    UploadTexture(ctx, width, height, generated);
    r := Ok(Texture(generated, width, height));
  }

  /** The driver side of `Texture::new`, once the size is accepted. */
  method UploadTexture(ctx: GraphicsContext, width: nat, height: nat, generated: nat)
    requires ctx.Valid()
    modifies ctx`trace, ctx.cache`storedTexture, ctx.cache.textures
    ensures ctx.Valid()
    ensures ctx.cache.textures[..] == old(ctx.cache.textures[..])
    ensures ctx.cache.storedTexture == old(ctx.cache.textures[0])
    ensures ctx.trace == old(ctx.trace) + NewTextureCalls(generated, old(ctx.cache.textures[0]), width, height)
  {
    ghost var tex := ctx.cache.textures[..];
    ghost var trace0 := ctx.trace;
    ctx.cache.StoreTextureBinding(0);
    ctx.trace := ctx.trace + [GenTexture(generated)];
    var bound := ctx.cache.BindTexture(0, generated);
    ctx.trace := ctx.trace + bound + SetupCalls(width, height);
    var restored := ctx.cache.RestoreTextureBinding(0);
    ctx.trace := ctx.trace + restored;
    AppendAssoc2(trace0, [GenTexture(generated)], bound);
    AppendAssoc(trace0, [GenTexture(generated)] + bound, SetupCalls(width, height), restored);
    forall j | 0 <= j < MAX_SHADERSTAGE_IMAGES
      ensures ctx.cache.textures[j] == tex[j]
    {
      assert ctx.cache.textures[j] == tex[0 := generated][0 := tex[0]][j];
    }
  }
}
