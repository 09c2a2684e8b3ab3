/**
 * The renderer interface as Mesh sees it: render buffers are immutable arrays of
 * values behind a handle, and the renderer records the calls made on it.
 */
module Render {
  import opened Math

  /** The contents of a render buffer: 32-bit floats or 16-bit unsigned indices. */
  datatype BufferData = F32(floats: seq<Float>) | U16(shorts: seq<uint16>)

  /** A RenderBuffer handle; what the factory's makeBufferF32 / makeBufferU16 return. */
  class RenderBuffer {
    const data: BufferData

    constructor (data: BufferData)
      ensures this.data == data
    {
      this.data := data;
    }
  }

  /** An image the backend has decoded; Mesh only passes it through. */
  class RenderImage {
    constructor () {}
  }

  datatype BlendMode = BlendMode(code: nat)

  /** One call made on the renderer: transform(...) or drawImageMesh(...). */
  datatype RenderCall =
    | Transform(transform: Mat2D)
    | DrawImageMesh(image: RenderImage, vertices: RenderBuffer?, uvCoords: RenderBuffer?,
                    indices: RenderBuffer?, blendMode: BlendMode, opacity: Float)

  class Renderer {
    var calls: seq<RenderCall>

    constructor ()
      ensures calls == []
    {
      calls := [];
    }
  }
}
