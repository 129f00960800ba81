/** Shared vocabulary of the render layer: the enumerations the engine header
    declares, the fixed-width integers its fields use, the shader-stage
    declaration records and the two buffer records whose getters are inline. */
module RenderTypes {

  /** Drawing topologies a shader program can issue. */
  datatype DrawMode =
    | Points
    | LinesAdjacency
    | Triangles
    | TrianglesAdjacency
    | Patches
    | IndexedTriangles
    | Lines
    | IndexedLines
    | IndexedLineStrip
    | IndexedLinesAdjacency
    | IndexedLineStripAdjacency

  datatype FilterMode = Nearest | Linear
  datatype TextureFormat = RGB8 | RGBA8 | RGBA32F | RGB32F | R32F
  datatype RenderBufferType = Color | ColorAlpha | Depth | Float4

  /** Value shapes a uniform or attribute slot may be declared with. */
  datatype DataType =
    | Vector2Float
    | Vector3Float
    | Vector4Float
    | Matrix44Float
    | Float
    | Int
    | UInt
    | Index

  datatype ShaderStageType = Vertex | Tessellation | Evaluation | Geometry | Fragment

  /** A C++ `int` (32-bit two's complement). */
  type Int32 = x: int | -0x8000_0000 <= x < 0x8000_0000

  /** A C++ `unsigned int` (32 bits). */
  type UInt32 = x: int | 0 <= x < 0x1_0000_0000

  const MaxUInt32: UInt32 := 0xFFFF_FFFF

  /** The C++ conversion of an integer to `unsigned int`: the unique value in
      range that is congruent to `x` modulo 2^32 (so -1 becomes the largest
      unsigned value). */
  function ToUInt32(x: int): (r: UInt32)
    ensures (r - x) % 0x1_0000_0000 == 0
    ensures 0 <= x < 0x1_0000_0000 ==> r == x
  {
    x % 0x1_0000_0000
  }

  lemma MinusOneIsMaxUInt32()
    ensures ToUInt32(-1) == MaxUInt32
  {
  }

  /** Pass, or a failure carrying why. */
  datatype Outcome<+E> = Pass | Fail(error: E)

  datatype Option<+T> = None | Some(value: T)

  // Declarations a shader stage publishes about the data it needs.

  datatype ShaderUniformSpec = ShaderUniformSpec(name: string, dataType: DataType)

  /** `arrayCount` is the number of times the element is repeated in an array
      input such as `in vec3 vertexVal[3]`. */
  datatype ShaderAttributeSpec = ShaderAttributeSpec(name: string, dataType: DataType, arrayCount: Int32)

  datatype ShaderTextureSpec = ShaderTextureSpec(name: string, dim: Int32)

  datatype ShaderStageSpecification = ShaderStageSpecification(
    stage: ShaderStageType,
    uniforms: seq<ShaderUniformSpec>,
    attributes: seq<ShaderAttributeSpec>,
    textures: seq<ShaderTextureSpec>,
    outputLoc: string,
    src: string)

  /** The two attribute-declaration constructors: without an explicit count
      the attribute is a plain, non-array input. */
  function DeclareAttribute(name: string, dataType: DataType, arrayCount: Int32 := 1): (a: ShaderAttributeSpec)
    ensures a.name == name && a.dataType == dataType
    ensures a.arrayCount == arrayCount
  {
    ShaderAttributeSpec(name, dataType, arrayCount)
  }

  lemma PlainAttributeIsNotArray(name: string, dataType: DataType)
    ensures DeclareAttribute(name, dataType).arrayCount == 1
  {
  }

  /** Texture and render buffers as far as their inline getters expose them;
      `getSizeX`, `getSizeY`, `getDimension` and `getType` are the field
      selectors. */
  datatype TextureBuffer = TextureBuffer(format: TextureFormat, sizeX: UInt32, sizeY: UInt32, dim: Int32)

  datatype RenderBuffer = RenderBuffer(bufferType: RenderBufferType, sizeX: UInt32, sizeY: UInt32)
}
