/** The state a frame buffer declares: an optional viewport and its named
    attachments. */
module FrameBuffers {
  import opened RenderTypes

  /** The viewport rectangle fields are only meaningful while `viewportSet`
      holds. Attachments are ordered (name, buffer) pairs. */
  datatype FrameBufferState = FrameBufferState(
    viewportSet: bool,
    viewportX: Int32,
    viewportY: Int32,
    viewportSizeX: UInt32,
    viewportSizeY: UInt32,
    renderBuffers: seq<(string, RenderBuffer)>,
    textureBuffers: seq<(string, TextureBuffer)>)

  /** A newly created frame buffer. The viewport fields have no initialiser,
      so whatever they hold is a parameter. The attachment vectors are
      default-constructed, hence empty, and `generateFrameBuffer` takes no
      buffer to attach. */
  function NewFrameBuffer(x: Int32, y: Int32, sizeX: UInt32, sizeY: UInt32): (fb: FrameBufferState)
    ensures !fb.viewportSet
    ensures fb.renderBuffers == [] && fb.textureBuffers == []
  {
    FrameBufferState(false, x, y, sizeX, sizeY, [], [])
  }
}
