/** The part of miniquad the older revision (src/) draws through. miniquad's own code is
    not part of this model: its context is a record of the requests made of it, in order,
    and the ids it hands out for new buffers, textures, shaders and pipelines are given by
    the caller. */
module Miniquad {
  import opened Wrappers
  import Graphics

  /** One request made of the miniquad context. Buffer and texture contents are recorded by
      their size only. */
  datatype Request =
    | NewBuffer(kind: Graphics.BufferType, bytes: nat, id: nat)
    | NewTexture(width: nat, height: nat, bytes: nat, id: nat)
    | NewShader(id: nat)
    | NewPipeline(attributes: seq<Graphics.VertexAttribute>, shader: nat, id: nat)
    | ApplyPipeline(pipeline: nat)
    | ApplyBindings(bindings: Graphics.Bindings)
    | ApplyUniforms(bytes: nat)
    | Draw(baseElement: nat, numElements: nat, numInstances: nat)

  class Context {
    /** Every request so far, oldest first. */
    var requests: seq<Request>

    constructor ()
      ensures requests == []
    {
      requests := [];
    }

    /** `Buffer::immutable(ctx, kind, data)` for `bytes` bytes of data; `id` is the new buffer. */
    method BufferImmutable(kind: Graphics.BufferType, bytes: nat, id: nat) returns (buffer: Graphics.Buffer)
      modifies this`requests
      ensures buffer == Graphics.Buffer(id)
      ensures requests == old(requests) + [NewBuffer(kind, bytes, id)]
    {
      requests := requests + [NewBuffer(kind, bytes, id)];
      buffer := Graphics.Buffer(id);
    }

    /** `Texture::from_rgba8(ctx, width, height, bytes)`; `id` is the new texture. */
    method TextureFromRgba8(width: nat, height: nat, bytes: seq<bv8>, id: nat) returns (texture: Graphics.Texture)
      modifies this`requests
      ensures texture == Graphics.Texture(id, width, height)
      ensures requests == old(requests) + [NewTexture(width, height, |bytes|, id)]
    {
      requests := requests + [NewTexture(width, height, |bytes|, id)];
      texture := Graphics.Texture(id, width, height);
    }

    /** `Shader::new(ctx, vertex, fragment, meta)`; `outcome` is whether the driver compiled
        and linked the program, and the id of the new shader when it did. */
    method ShaderNew(outcome: Result<nat>) returns (shader: Result<nat>)
      modifies this`requests
      ensures shader == outcome
      ensures requests == old(requests) + (if outcome.Ok? then [NewShader(outcome.value)] else [])
    {
      if outcome.Ok? {
        requests := requests + [NewShader(outcome.value)];
      }
      shader := outcome;
    }

    /** `Pipeline::new(ctx, &[BufferLayout::default()], attributes, shader)`; `id` is the new
        pipeline. */
    method PipelineNew(attributes: seq<Graphics.VertexAttribute>, shader: nat, id: nat) returns (pipeline: nat)
      modifies this`requests
      ensures pipeline == id
      ensures requests == old(requests) + [NewPipeline(attributes, shader, id)]
    {
      requests := requests + [NewPipeline(attributes, shader, id)];
      pipeline := id;
    }

    method ApplyPipelineOf(pipeline: nat)
      modifies this`requests
      ensures requests == old(requests) + [ApplyPipeline(pipeline)]
    {
      requests := requests + [ApplyPipeline(pipeline)];
    }

    method ApplyBindingsOf(bindings: Graphics.Bindings)
      modifies this`requests
      ensures requests == old(requests) + [ApplyBindings(bindings)]
    {
      requests := requests + [ApplyBindings(bindings)];
    }

    /** `apply_uniforms` with a uniform struct of `bytes` bytes. */
    method ApplyUniformsOf(bytes: nat)
      modifies this`requests
      ensures requests == old(requests) + [ApplyUniforms(bytes)]
    {
      requests := requests + [ApplyUniforms(bytes)];
    }

    method DrawElements(baseElement: nat, numElements: nat, numInstances: nat)
      modifies this`requests
      ensures requests == old(requests) + [Draw(baseElement, numElements, numInstances)]
    {
      requests := requests + [Draw(baseElement, numElements, numInstances)];
    }
  }
}
