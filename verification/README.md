# Polyscope render engine interface: interleaved attribute upload

This project models the backend-independent render layer of Polyscope, as
declared in `include/polyscope/render/engine.h`. Almost everything in that
header is a pure-virtual or body-less operation of a GPU backend that is not
part of this model. The one operation with a visible body is the
array-valued convenience `ShaderProgram::setAttribute<T, C>`. It takes a
vector of fixed-width tuples `std::array<T, C>`. It lays their components
out one after another: tuple 0's `C` components, then tuple 1's, and so on.
It then forwards that flat vector to the scalar `setAttribute` overload,
passing `name`, `update`, `offset` and `size` through unchanged.

Modules:

- `Interleave` (`interleave.dfy`): `Flatten` is the interleaving, with its
  inverse `Unflatten`. `InterleaveTuples` is the nested `push_back` loop
  of `ShaderProgram::setAttribute<T, C>`, proved equal to `Flatten`. The lemmas cover length,
  row-major index mapping, concatenation, width one and both round trips.
- `Shaders` (`shaders.dfy`): `SetArrayAttribute` is the forwarded call. An
  attribute slot's `dataSize` is -1 while nothing is stored. An
  `update = true` call is permitted only on a slot that holds data
  (`UpdatePermitted`). A
  fresh program starts with the default index and primitive-restart state.
- `FrameBuffers` (`frame_buffers.dfy`): a frame buffer's state. A new
  buffer has `viewportSet` false and empty attachment lists.
- `RenderTypes` (`render_types.dfy`): the header's enumerations,
  its 32-bit integer types, the stage-declaration records, and the
  texture/render buffer records. The inline getters `getSizeX`,
  `getSizeY`, `getDimension` and `getType` are the records' field
  selectors.

A tuple `std::array<T, C>` is a `seq<T>` of length `c`. A vector of them is
a `seq<seq<T>>` for which `Uniform(data, c)` holds. `T` stays generic.

The header's comments say that the array convenience is meant for shader
inputs such as `in vec3 vertexVal[3]`. The template never compares `C`
with the slot's declared `arrayCount`; the model does not either.

## Model

| member | source | states |
|---|---|---|
| Interleave.Flatten | include/polyscope/render/engine.h:333-339 | the interleaved sequence has exactly `c` times the number of tuples components; an empty input gives an empty sequence |
| Interleave.InterleaveTuples | include/polyscope/render/engine.h:333-339 | the nested loop that appends each tuple's components in turn produces exactly `Flatten(data, c)`, of length `c` times the number of tuples |
| Interleave.FlattenIndex | include/polyscope/render/engine.h:335-339 | component `j` of tuple `i` sits at position `i * c + j`, which is in range (row-major layout) |
| Interleave.FlattenIndexAll | include/polyscope/render/engine.h:335-339 | the row-major index mapping holds for every tuple and every component at once |
| Interleave.FlattenAppend | include/polyscope/render/engine.h:335-339 | interleaving `a + b` gives the interleaving of `a` followed by that of `b`, so tuple order is kept and nothing is dropped |
| Interleave.FlattenWidthOne | include/polyscope/render/engine.h:335-339 | with width one the result is the projection of every tuple onto its only component |
| Interleave.Unflatten | include/polyscope/render/engine.h:335-339 | cutting `c * n` components into consecutive runs gives `n` tuples, each of width `c`; this is the inverse used to show nothing is lost |
| Interleave.UnflattenFlatten | include/polyscope/render/engine.h:335-339 | the tuples are recovered exactly from their interleaving, so the layout is lossless and injective |
| Interleave.FlattenUnflatten | include/polyscope/render/engine.h:335-339 | every sequence of `c * n` components is the interleaving of some `n` tuples of width `c`, so the two are in one-to-one correspondence |
| Shaders.SetArrayAttribute | include/polyscope/render/engine.h:328-341 | the forwarded call carries the same `name`, `update`, `offset` and `size` (defaults false, 0, -1), and its data has `c` times the number of tuples elements with tuple `i`'s component `j` at position `i * c + j` |
| Shaders.ForwardedDataRecoversTuples | include/polyscope/render/engine.h:335-340 | the data passed to the scalar overload can be cut back into exactly the input tuples |
| Shaders.ForwardedDataOfConcatenation | include/polyscope/render/engine.h:335-340 | forwarding a concatenated batch passes the concatenation of the two batches' forwarded data |
| Shaders.ArrayUpdateNeedsAllocation | include/polyscope/render/engine.h:178 | the array convenience passes `update` through, so it is permitted to update only a slot whose `dataSize` is not -1 (the "nothing stored" value of line 236), whatever the tuples |
| Shaders.InitialIndexState | include/polyscope/render/engine.h:265-269 | a fresh program is not indexed, has `indexSize` -1, has primitive restart off and unset, and holds the restart index -1 converted to `unsigned int` (0xFFFFFFFF) |
| RenderTypes.ToUInt32 | include/polyscope/render/engine.h:269 | storing an integer into an `unsigned int` yields the in-range value congruent to it modulo 2^32, and leaves in-range values unchanged |
| RenderTypes.MinusOneIsMaxUInt32 | include/polyscope/render/engine.h:269 | -1 stored into an `unsigned int` becomes 0xFFFFFFFF |
| RenderTypes.DeclareAttribute | include/polyscope/render/engine.h:144-146 | a declared attribute keeps its name and type and has the given `arrayCount`, which is 1 when no count is given |
| RenderTypes.PlainAttributeIsNotArray | include/polyscope/render/engine.h:144 | an attribute declared without a count has `arrayCount` 1 |
| FrameBuffers.NewFrameBuffer | include/polyscope/render/engine.h:128-134 | a new frame buffer has `viewportSet` false and no render or texture attachments |

## Left out

- Backend operations with no visible body are not modelled, since any model would invent behaviour. These are `bindForRendering`, `clear`, the `bindTo*` methods, `setViewport`, `resizeBuffers`, `readFloat4`, `draw`, `setIndex`, `setPrimitiveRestartIndex`, `setUniform`, every scalar `setAttribute` overload, `checkError`, `initialize`, `clearGBuffer`, `computeLighting`, `toDisplay`, `compileGLProgram`, `setDataLocations`, `createBuffers`, `activateTextures`, `deleteAttributeBuffer` and `freeTexture`.
- `validateData`, `addUniqueAttribute`, `addUniqueUniform`, `addUniqueTexture`, `hasUniform`, `hasAttribute`, `getRenderBuffer`, `getTextureBuffer` and `initCommonShaders` are only declared. No validation, de-duplication or lookup rule is given for them, so none is modelled.
- What the scalar `setAttribute` does with the forwarded call is not modelled, apart from the stated rule that an update needs earlier data. This includes the meaning of `offset` and `size` and how `dataSize` changes.
- What happens when an update reaches a slot with no data is not modelled. The header states only that the caller must allocate first, not how a violation is reported, so `UpdatePermitted` is a predicate and no error value is produced.
- The engine factories, `GBuffer` and shared ownership are left out: reference counting and lifetime are not modelled.
- Floating-point state is left out: `glm` vectors, `clearColor`, `clearAlpha` and the lossy `double`-to-`float` uniform overload.
- Texture uploads (`fillTextureData1D`, `fillTextureData2D`), texture `resize` and `setFilterMode` are device I/O with no visible body.
- A program's initial state covers only the index fields. `drawMode`, `drawDataLength` and `nPatchVertices` have no initialiser in the header. The uniform, attribute and texture vectors start empty as members, but construction from stage specifications fills them through `addUniqueUniform`, `addUniqueAttribute` and `addUniqueTexture`, whose bodies are not shown, so what a created program holds there is unknown. A frame buffer differs: `generateFrameBuffer` takes nothing to attach, so its empty attachment vectors are what a new frame buffer holds.
- The `reserve(C * data.size())` call is a capacity hint with no observable effect on the result and is not modelled. The same goes for `size_t` overflow of that product.
