/** The OpenGL constants winopengl passes to the driver (winopengl/src/native/gl.rs) and the
    driver calls it makes, as trace events. What a call does inside the driver is not
    modelled; floating-point arguments are left out of the events. */
module GlTypes {
  const GL_ARRAY_BUFFER: nat := 0x8892
  const GL_ELEMENT_ARRAY_BUFFER: nat := 0x8893
  const GL_STATIC_DRAW: nat := 0x88E4
  const GL_TEXTURE0: nat := 0x84C0
  const GL_TEXTURE_2D: nat := 0x0DE1
  const GL_FLOAT: nat := 0x1406
  const GL_TRIANGLES: nat := 0x0004
  const GL_UNSIGNED_BYTE: nat := 0x1401
  const GL_UNSIGNED_SHORT: nat := 0x1403
  const GL_SCISSOR_TEST: nat := 0x0C11
  const GL_DEPTH_TEST: nat := 0x0B71
  const GL_CCW: nat := 0x0901
  const GL_FRAMEBUFFER: nat := 0x8D40
  const GL_COLOR_BUFFER_BIT: nat := 0x4000
  const GL_DEPTH_BUFFER_BIT: nat := 0x0100
  const GL_CLAMP_TO_EDGE: nat := 0x812F
  const GL_LINEAR: nat := 0x2601
  const GL_TEXTURE_WRAP_S: nat := 0x2802
  const GL_TEXTURE_WRAP_T: nat := 0x2803
  const GL_TEXTURE_MIN_FILTER: nat := 0x2801
  const GL_TEXTURE_MAG_FILTER: nat := 0x2800
  const GL_RGB: nat := 0x1907
  const GL_ALPHA: nat := 6406
  const GL_UNPACK_ALIGNMENT: nat := 3317
  const GL_TEXTURE_SWIZZLE_A: nat := 36421

  /** One driver call, with the integer arguments that identify it. */
  datatype GlCall =
    | GenVertexArray(vao: nat)
    | BindVertexArray(vao: nat)
    | BindBuffer(target: nat, buffer: nat)
    | ActiveTexture(unit: nat)
    | BindTexture(target: nat, texture: nat)
    | UseProgram(program: nat)
    | Enable(cap: nat)
    | Disable(cap: nat)
    | FrontFace(mode: nat)
    | Uniform1i(location: int, value: int)
    | Uniform2fv(location: int, count: int, floatOffset: nat)
    | VertexAttribPointer(index: nat, size: int, kind: nat, stride: int, offset: int)
    | VertexAttribDivisor(index: nat, divisor: int)
    | EnableVertexAttribArray(index: nat)
    | DisableVertexAttribArray(index: nat)
    | ClearColor
    | ClearDepth
    | Clear(mask: nat)
    | BindFramebuffer(target: nat, framebuffer: nat)
    | Viewport(width: int, height: int)
    | Scissor(width: int, height: int)
    | DrawElementsInstanced(mode: nat, count: int, kind: nat, byteOffset: int, instances: int)
    | GenBuffer(buffer: nat)
    | BufferData(target: nat, dataSize: nat, usage: nat)
    | BufferSubData(target: nat, dataOffset: nat, dataSize: nat)
    | GenTexture(texture: nat)
    | PixelStorei(pname: nat, param: int)
    | TexParameteri(target: nat, pname: nat, param: int)
    | TexImage2D(target: nat, internalFormat: nat, texWidth: nat, texHeight: nat, format: nat, kind: nat)
}
