/** The binding cache of winopengl/src/graphics.rs (`GlCache`): the bound vertex and index
    buffers, the texture bound on each of the 12 image slots, the bound pipeline and what
    each of the 16 attribute slots was last configured with, plus a one-deep store for
    each buffer target and for one texture. Each method returns the driver calls it makes,
    and a bind call is made only when the cached value differs. */
module GlCache {
  import opened Wrappers
  import opened GlTypes

  const MAX_VERTEX_ATTRIBUTES: nat := 16
  const MAX_SHADERSTAGE_IMAGES: nat := 12

  /** A pipeline's description of one attribute slot. */
  datatype VertexAttributeInternal = VertexAttributeInternal(
    attrLoc: nat,
    size: int,
    kind: nat,
    offset: int,
    stride: int,
    bufferIndex: nat,
    divisor: int)

  /** What an attribute slot was last pointed at: the layout entry and the vertex buffer. */
  datatype CachedAttribute = CachedAttribute(attribute: VertexAttributeInternal, glVbuf: nat)

  /** The calls `bind_buffer` makes when `cached` is bound on `target` and `buffer` is asked for. */
  function BufferBindCalls(target: nat, cached: nat, buffer: nat): (calls: seq<GlCall>)
    ensures calls == [] <==> cached == buffer
    ensures forall c :: c in calls ==> c == BindBuffer(target, buffer)
  {
    if cached != buffer then [BindBuffer(target, buffer)] else []
  }

  /** The calls `bind_texture` makes for image slot `slot`: the unit is always selected, the
      texture is bound only when `cached` differs. */
  function TextureBindCalls(slot: nat, cached: nat, texture: nat): (calls: seq<GlCall>)
    ensures |calls| >= 1 && calls[0] == ActiveTexture(GL_TEXTURE0 + slot)
    ensures BindTexture(GL_TEXTURE_2D, texture) in calls <==> cached != texture
    ensures forall c :: c in calls ==> c == ActiveTexture(GL_TEXTURE0 + slot) || c == BindTexture(GL_TEXTURE_2D, texture)
  {
    [ActiveTexture(GL_TEXTURE0 + slot)] + (if cached != texture then [BindTexture(GL_TEXTURE_2D, texture)] else [])
  }

  /** The calls `clear_texture_bindings` makes for the slot contents `slots`, slot by slot. */
  function UnbindCalls(slots: seq<nat>): seq<GlCall>
    decreases |slots|
  {
    if |slots| == 0 then []
    else
      var last := |slots| - 1;
      UnbindCalls(slots[..last]) + (if slots[last] != 0 then TextureBindCalls(last, slots[last], 0) else [])
  }

  /** Clearing binds nothing but texture 0 and selects only units whose slot is bound. */
  lemma {:induction false} UnbindCallsOnlyBoundSlots(slots: seq<nat>)
    ensures forall c :: c in UnbindCalls(slots) ==>
              c == BindTexture(GL_TEXTURE_2D, 0)
              || (c.ActiveTexture? && GL_TEXTURE0 <= c.unit < GL_TEXTURE0 + |slots| && slots[c.unit - GL_TEXTURE0] != 0)
    decreases |slots|
  {
    if |slots| > 0 {
      var last := |slots| - 1;
      var prefix := slots[..last];
      UnbindCallsOnlyBoundSlots(prefix);
      var tail := if slots[last] != 0 then TextureBindCalls(last, slots[last], 0) else [];
      assert UnbindCalls(slots) == UnbindCalls(prefix) + tail;
      forall c | c in UnbindCalls(slots)
        ensures c == BindTexture(GL_TEXTURE_2D, 0)
                || (c.ActiveTexture? && GL_TEXTURE0 <= c.unit < GL_TEXTURE0 + |slots| && slots[c.unit - GL_TEXTURE0] != 0)
      {
        if c in UnbindCalls(prefix) {
          if c.ActiveTexture? {
            assert slots[c.unit - GL_TEXTURE0] == prefix[c.unit - GL_TEXTURE0];
          }
        } else {
          assert c in tail;
        }
      }
    }
  }

  /** Every bound slot gets its unit selected. */
  lemma {:induction false} UnbindCallsCoverBoundSlots(slots: seq<nat>, i: nat)
    requires i < |slots| && slots[i] != 0
    ensures ActiveTexture(GL_TEXTURE0 + i) in UnbindCalls(slots)
    decreases |slots|
  {
    var last := |slots| - 1;
    var prefix := slots[..last];
    var tail := if slots[last] != 0 then TextureBindCalls(last, slots[last], 0) else [];
    assert UnbindCalls(slots) == UnbindCalls(prefix) + tail;
    if i < last {
      assert prefix[i] == slots[i];
      UnbindCallsCoverBoundSlots(prefix, i);
    } else {
      assert tail[0] == ActiveTexture(GL_TEXTURE0 + i);
    }
  }

  /** Clearing selects exactly the units whose slot is bound, and makes no call at all when
      every slot is already 0. */
  lemma UnbindCallsSelectBoundSlots(slots: seq<nat>)
    ensures forall i :: 0 <= i < |slots| ==> (ActiveTexture(GL_TEXTURE0 + i) in UnbindCalls(slots) <==> slots[i] != 0)
    ensures UnbindCalls(slots) == [] <==> forall i :: 0 <= i < |slots| ==> slots[i] == 0
  {
    UnbindCallsOnlyBoundSlots(slots);
    forall i | 0 <= i < |slots| && slots[i] != 0
      ensures ActiveTexture(GL_TEXTURE0 + i) in UnbindCalls(slots)
    {
      UnbindCallsCoverBoundSlots(slots, i);
    }
    if forall i :: 0 <= i < |slots| ==> slots[i] == 0 {
      if UnbindCalls(slots) != [] {
        UnbindCallsStartWithSelect(slots);
        assert UnbindCalls(slots)[0] in UnbindCalls(slots);
      }
    }
  }

  /** A non-empty clearing sequence starts by selecting a unit. */
  lemma {:induction false} UnbindCallsStartWithSelect(slots: seq<nat>)
    ensures UnbindCalls(slots) != [] ==> UnbindCalls(slots)[0].ActiveTexture?
    decreases |slots|
  {
    if |slots| > 0 {
      var last := |slots| - 1;
      var prefix := slots[..last];
      UnbindCallsStartWithSelect(prefix);
    }
  }

  class GlCache {
    var storedIndexBuffer: nat
    var storedVertexBuffer: nat
    var storedTexture: nat
    var indexBuffer: nat
    var vertexBuffer: nat
    const textures: array<nat>
    var curPipeline: Option<nat>
    const attributes: array<Option<CachedAttribute>>

    ghost predicate Valid()
      reads this
    {
      textures.Length == MAX_SHADERSTAGE_IMAGES && attributes.Length == MAX_VERTEX_ATTRIBUTES
    }

    /** The cached buffer for a target: `GL_ARRAY_BUFFER` is the vertex buffer, every other
        target is taken for the element buffer. */
    function Bound(target: nat): nat
      reads this
    {
      if target == GL_ARRAY_BUFFER then vertexBuffer else indexBuffer
    }

    function Stored(target: nat): nat
      reads this
    {
      if target == GL_ARRAY_BUFFER then storedVertexBuffer else storedIndexBuffer
    }

    /** The cache as `GraphicsContext::new` builds it: nothing bound, nothing stored. */
    constructor ()
      ensures Valid() && fresh(textures) && fresh(attributes)
      ensures storedIndexBuffer == 0 && storedVertexBuffer == 0 && storedTexture == 0
      ensures indexBuffer == 0 && vertexBuffer == 0 && curPipeline == None
      ensures forall i :: 0 <= i < MAX_SHADERSTAGE_IMAGES ==> textures[i] == 0
      ensures forall i :: 0 <= i < MAX_VERTEX_ATTRIBUTES ==> attributes[i] == None
    {
      storedIndexBuffer := 0;
      storedVertexBuffer := 0;
      storedTexture := 0;
      indexBuffer := 0;
      vertexBuffer := 0;
      curPipeline := None;
      textures := new nat[MAX_SHADERSTAGE_IMAGES](_ => 0);
      attributes := new Option<CachedAttribute>[MAX_VERTEX_ATTRIBUTES](_ => None);
    }

    /** Binds `buffer` on `target` unless it is already the cached one; the other target's
        entry is untouched. */
    method BindBuffer(target: nat, buffer: nat) returns (emitted: seq<GlCall>)
      modifies this`vertexBuffer, this`indexBuffer
      ensures Bound(target) == buffer
      ensures target == GL_ARRAY_BUFFER ==> indexBuffer == old(indexBuffer)
      ensures target != GL_ARRAY_BUFFER ==> vertexBuffer == old(vertexBuffer)
      ensures emitted == BufferBindCalls(target, old(Bound(target)), buffer)
    {
      emitted := [];
      if target == GL_ARRAY_BUFFER {
        if vertexBuffer != buffer {
          vertexBuffer := buffer;
          emitted := [GlCall.BindBuffer(target, buffer)];
        }
      } else {
        if indexBuffer != buffer {
          indexBuffer := buffer;
          emitted := [GlCall.BindBuffer(target, buffer)];
        }
      }
    }

    method StoreBufferBinding(target: nat)
      modifies this`storedVertexBuffer, this`storedIndexBuffer
      ensures Stored(target) == Bound(target)
      ensures target == GL_ARRAY_BUFFER ==> storedIndexBuffer == old(storedIndexBuffer)
      ensures target != GL_ARRAY_BUFFER ==> storedVertexBuffer == old(storedVertexBuffer)
    {
      if target == GL_ARRAY_BUFFER {
        storedVertexBuffer := vertexBuffer;
      } else {
        storedIndexBuffer := indexBuffer;
      }
    }

    /** Rebinds the stored buffer only when it is not 0, then forgets it; a stored 0 leaves
        whatever is bound in place. */
    method RestoreBufferBinding(target: nat) returns (emitted: seq<GlCall>)
      modifies this`vertexBuffer, this`indexBuffer, this`storedVertexBuffer, this`storedIndexBuffer
      ensures Stored(target) == 0
      ensures Bound(target) == if old(Stored(target)) != 0 then old(Stored(target)) else old(Bound(target))
      ensures emitted == if old(Stored(target)) != 0 then BufferBindCalls(target, old(Bound(target)), old(Stored(target))) else []
      ensures target == GL_ARRAY_BUFFER ==> indexBuffer == old(indexBuffer) && storedIndexBuffer == old(storedIndexBuffer)
      ensures target != GL_ARRAY_BUFFER ==> vertexBuffer == old(vertexBuffer) && storedVertexBuffer == old(storedVertexBuffer)
    {
      emitted := [];
      if target == GL_ARRAY_BUFFER {
        if storedVertexBuffer != 0 {
          emitted := BindBuffer(target, storedVertexBuffer);
          storedVertexBuffer := 0;
        }
      } else if storedIndexBuffer != 0 {
        emitted := BindBuffer(target, storedIndexBuffer);
        storedIndexBuffer := 0;
      }
    }

    /** Selects unit `slot` and binds `texture` there unless the slot already holds it. Only
        that slot changes. */
    method BindTexture(slot: nat, texture: nat) returns (emitted: seq<GlCall>)
      requires Valid() && slot < MAX_SHADERSTAGE_IMAGES
      modifies textures
      ensures textures[..] == old(textures[..])[slot := texture]
      ensures emitted == TextureBindCalls(slot, old(textures[slot]), texture)
    {
      emitted := [ActiveTexture(GL_TEXTURE0 + slot)];
      if textures[slot] != texture {
        emitted := emitted + [GlCall.BindTexture(GL_TEXTURE_2D, texture)];
        textures[slot] := texture;
      }
    }

    method StoreTextureBinding(slot: nat)
      requires Valid() && slot < MAX_SHADERSTAGE_IMAGES
      modifies this`storedTexture
      ensures storedTexture == textures[slot]
    {
      storedTexture := textures[slot];
    }

    /** Binds the stored texture back on `slot`; unlike the buffer store it is not forgotten. */
    method RestoreTextureBinding(slot: nat) returns (emitted: seq<GlCall>)
      requires Valid() && slot < MAX_SHADERSTAGE_IMAGES
      modifies textures
      ensures textures[..] == old(textures[..])[slot := storedTexture]
      ensures emitted == TextureBindCalls(slot, old(textures[slot]), storedTexture)
    {
      emitted := BindTexture(slot, storedTexture);
    }

    /** Unbinds both buffer targets, calling the driver only for a target that has one bound. */
    method ClearBufferBindings() returns (emitted: seq<GlCall>)
      modifies this`vertexBuffer, this`indexBuffer
      ensures vertexBuffer == 0 && indexBuffer == 0
      ensures emitted == BufferBindCalls(GL_ARRAY_BUFFER, old(vertexBuffer), 0)
                         + BufferBindCalls(GL_ELEMENT_ARRAY_BUFFER, old(indexBuffer), 0)
    {
      var first := BindBuffer(GL_ARRAY_BUFFER, 0);
      vertexBuffer := 0;
      var second := BindBuffer(GL_ELEMENT_ARRAY_BUFFER, 0);
      indexBuffer := 0;
      emitted := first + second;
    }

    /** Unbinds every image slot that holds a texture; slots already at 0 cost no call. */
    method ClearTextureBindings() returns (emitted: seq<GlCall>)
      requires Valid()
      modifies textures
      ensures forall i :: 0 <= i < MAX_SHADERSTAGE_IMAGES ==> textures[i] == 0
      ensures emitted == UnbindCalls(old(textures[..]))
    {
      emitted := [];
      for ix := 0 to MAX_SHADERSTAGE_IMAGES
        invariant forall i :: 0 <= i < ix ==> textures[i] == 0
        invariant forall i :: ix <= i < MAX_SHADERSTAGE_IMAGES ==> textures[i] == old(textures[i])
        invariant emitted == UnbindCalls(old(textures[..])[..ix])
      {
        assert old(textures[..])[..ix + 1][..ix] == old(textures[..])[..ix];
        if textures[ix] != 0 {
          var calls := BindTexture(ix, 0);
          emitted := emitted + calls;
          textures[ix] := 0;
        }
      }
      assert old(textures[..])[..MAX_SHADERSTAGE_IMAGES] == old(textures[..]);
    }
  }
}
