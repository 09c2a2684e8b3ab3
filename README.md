# Mesh and KeyedObject of the rive scene graph, in Dafny

This project models two components of the rive runtime's scene graph and proves
what they promise.

- **Mesh** (`src/shapes/mesh.cpp`) is a class, module `Shapes`. A mesh holds vertices and a
  triangle index buffer, and it deforms an Image.
  - At load time it checks its parent and its indices.
  - It decodes its index buffer from bytes, or shares another mesh's buffer.
  - It registers as a dependent of its parent and of its optional skin.
  - It handles its dirt flags. Vertex dirt drops the cached vertex render buffer,
    and `draw` rebuilds that buffer only when none is cached.
- **KeyedObject** (`src/animation/keyed_object.cpp`) is a class, module `Animation`. It holds
  the keyed properties an animation drives on one target, which it names by id.
  - It validates the target and the properties at load time.
  - It applies every property to the resolved target, and skips a target that does not resolve.
  - It hands itself to the most recent linear-animation importer.

Supporting modules:
- `Status` holds the status codes.
- `Component` holds dirt flags and dependent registration.
- `Math` holds uninterpreted float values and the fixed-width integer types.
- `Render` holds render-buffer handles and a renderer that records the calls made on it.
- `BinaryReading` holds the varuint reader that decodes index bytes.

Assumptions. The sources of these collaborators are not part of this model, so each is modelled from how the two files use it:
- **Dirt** is a set of flags. `addDirt` is set union, and it reports whether a flag was new. `hasDirt(value, flags)` tests inclusion.
- **addDependent** appends the component unless it is already registered. Earlier dependents keep their order.
- **readVarUintAs<uint16_t>** decodes unsigned LEB128. A read that fails yields 0 and moves the reader to the end of the span. A read fails when the span ends inside a varuint or when the value does not fit 16 bits.
- **ImportStack::latest** returns the most recently pushed linear-animation importer.
- **The factory** returns a fresh render-buffer handle holding exactly the values passed in.
- **The superclass hooks** (`Super::onAddedDirty`, `Super::onAddedClean`, `Super::import`) are represented by the status they return, passed in as a parameter. `Super::update` and `Super::buildDependencies` do nothing that Mesh depends on. What these superclass hooks do beyond their status is not modelled, and neither is the fact that `onAddedClean` (src/shapes/mesh.cpp:48-52) skips `Super::onAddedClean` after a bad index or that `import` (src/animation/keyed_object.cpp:50-55) skips `Super::import` when there is no importer.
- **A keyed property's own `onAddedDirty`, `onAddedClean` and `apply`** are function parameters or recorded events. Their bodies are not part of this model.

## Model

| member | source | states |
|---|---|---|
| `Shapes.Mesh.MarkDrawableDirty` | src/shapes/mesh.cpp:14-19 | the mesh gains Vertices dirt; the skin, when there is one, gains Skin dirt; no other state changes |
| `Shapes.Mesh.AddVertex` | src/shapes/mesh.cpp:21 | the vertex list becomes the old list with the vertex appended at the end |
| `Shapes.Mesh.OnAddedDirty` | src/shapes/mesh.cpp:23-37 | a non-Ok superclass status is returned unchanged and the parent is left alone; a parent that is not an Image gives MissingObject and the mesh slot is untouched; otherwise the Image's mesh slot is this mesh and the result is Ok |
| `Shapes.Mesh.OnAddedClean` | src/shapes/mesh.cpp:39-53 | no index buffer gives InvalidObject; an index not below the vertex count gives InvalidObject; otherwise exactly the superclass status |
| `Shapes.Mesh.DecodeTriangleIndexBytes` | src/shapes/mesh.cpp:55-64 | the index buffer is a freshly allocated one holding the decoding of the whole span, one value per varuint read, in input order, reading until the end of the span |
| `BinaryReading.DecodeIndices` | src/shapes/mesh.cpp:59-62 | the read loop as a function: an empty remainder gives no index, otherwise the first index is the value of the first read; every read consumes at least one byte, so there are never more indices than bytes left |
| `BinaryReading.DecodeSingleByteIndices` | src/shapes/mesh.cpp:60-62 | a span of varuints that are one byte each decodes to one index per byte, equal to that byte, in order |
| `BinaryReading.DecodeIndicesAppend` | src/shapes/mesh.cpp:59-62 | a run of whole 16-bit varuints followed by any bytes decodes to the run's indices followed by the decoding of the remaining bytes |
| `BinaryReading.ReadVarUint16` | src/shapes/mesh.cpp:61 | each read moves the reader forward and stays within the span; a failed read yields 0 and ends the reading |
| `BinaryReading.ReadVarUint` | src/shapes/mesh.cpp:61 | the assumed LEB128 decoding behind readVarUintAs: a successful read consumes at least one byte and ends within the span |
| `BinaryReading.ReadVarUintExtent` | src/shapes/mesh.cpp:61 | a varuint ends at the first byte without the continuation bit, and the read fails exactly when every remaining byte has that bit set |
| `Shapes.Mesh.CopyTriangleIndexBytes` | src/shapes/mesh.cpp:66-68 | the mesh now shares the other mesh's index buffer object |
| `Shapes.Mesh.MarkSkinDirty` | src/shapes/mesh.cpp:71 | the mesh gains Vertices dirt and nothing else changes |
| `Component.WithDependent` | src/shapes/mesh.cpp:75-78 | registration makes the mesh a dependent, keeps the earlier dependents and their order, and adds at most one entry |
| `Shapes.Mesh.BuildDependencies` | src/shapes/mesh.cpp:73-97 | the mesh is registered with the parent, and with the skin when there is one; the uv buffer holds the interleaved texture coordinates and the index render buffer holds the index buffer's values |
| `Shapes.Interleave` | src/shapes/mesh.cpp:86-92 | the fill of x then y for each point produces the flattening of the points, of length twice the number of points |
| `Shapes.FlattenAt` | src/shapes/mesh.cpp:89-92 | point i of the input lands at positions 2i (x) and 2i+1 (y) of the flattened array |
| `Shapes.UVLayout` | src/shapes/mesh.cpp:86-92 | the uv array has 2·\|vertices\| entries, with vertex i's u at 2i and its v at 2i+1 |
| `Shapes.VertexLayout` | src/shapes/mesh.cpp:112-118 | the vertex array has 2·\|vertices\| entries, with vertex i's render x at 2i and its y at 2i+1 |
| `Shapes.Mesh.Update` | src/shapes/mesh.cpp:99-107 | Vertices in the update mask clears the cached vertex buffer and sends the vertices to the skin's deform, once, when a skin exists; without Vertices the cache and the skin are unchanged |
| `Shapes.Mesh.Draw` | src/shapes/mesh.cpp:109-129 | a cached vertex buffer is kept; a missing one is rebuilt from the interleaved render translations; afterwards there is one; the renderer receives the parent's transform only without a skin, then one drawImageMesh call with the three buffers |
| `Component.AddDirt` | src/shapes/mesh.cpp:16-18 | after addDirt the mask holds the old flags and the added ones and nothing else, and "changed" holds exactly when the mask differs from the old one |
| `Component.AddDirtAgain` | src/shapes/mesh.cpp:16-18 | adding the same flags a second time leaves the mask unchanged and reports no change |
| `Component.HasDirt` | src/shapes/mesh.cpp:100 | hasDirt(value, flags) holds exactly when adding the flags to the mask would not change it |
| `Animation.KeyedObject.AddKeyedProperty` | src/animation/keyed_object.cpp:12-14 | the property list becomes the old list with the property appended at the end |
| `Animation.KeyedObject.OnAddedDirty` | src/animation/keyed_object.cpp:16-29 | an unresolved target gives MissingObject, whatever the properties would answer; otherwise Ok exactly when every property is Ok, and any other result is the status of the first failing property |
| `Animation.FirstFailure` | src/animation/keyed_object.cpp:22-28 | the scan returns Ok exactly when every property is Ok, and otherwise the status of the first property that is not Ok |
| `Animation.FirstFailureAppend` | src/animation/keyed_object.cpp:22-28 | no property after the first failing one can change the result; after an all-Ok prefix the result is that of the rest |
| `Animation.KeyedObject.OnAddedClean` | src/animation/keyed_object.cpp:31-36 | every property is cleaned once, in stored order, and the status is Ok whatever they return |
| `Animation.KeyedObject.Apply` | src/animation/keyed_object.cpp:38-46 | an unresolved target leaves everything unchanged; otherwise only the target changes, and it receives each property once, in stored order, with the same time and mix |
| `Animation.ApplicationsAppend` | src/animation/keyed_object.cpp:43-45 | the applications of two runs of properties, one after the other, are the applications of their concatenation, which is what lets each loop step extend the target's record by one property |
| `Animation.LatestAnimationImporterIndex` | src/animation/keyed_object.cpp:49 | the position found holds a linear-animation importer and no entry above it does; -1 exactly when the stack holds none |
| `Animation.LatestAnimationImporter` | src/animation/keyed_object.cpp:49-52 | no importer exactly when the stack holds no linear-animation importer; otherwise the topmost such importer |
| `Animation.KeyedObject.Import` | src/animation/keyed_object.cpp:48-56 | with no linear-animation importer the result is MissingObject; otherwise only that importer changes, gaining this keyed object at the end of its list, and the superclass status is returned |

## Left out

- Floating-point values: coordinates, uv values, time, mix, opacity and transforms are uninterpreted 32-bit values. Vector arithmetic is not modelled.
- `Skin::deform`: its effect on vertices is not modelled. The model records only that deform was called with the mesh's vertices.
- `KeyedProperty::apply` and interpolation or blending by mix are not modelled. The model records only that each property was applied with the call's time and mix.
- Vertices are values, not shared `MeshVertex` objects. A vertex that moves without going through the mesh is not represented. Only `markDrawableDirty`, which such a move triggers, is modelled.
- `ReadVarUint16`: the reader assumption decodes every varuint exactly, with no 64-bit limit, and only then applies the 16-bit range check. A reader with a 64-bit accumulator loses high bits from a ten-byte varuint on, so it can take a value that is too wide for an in-range one and read on. Nine 0x80 bytes followed by 0x02 encode 2^64: the model rejects it, yielding 0 and ending the reading, while a truncating reader would push 0 and keep reading. The model does not capture that case.
- Superclass hooks: their effects are not modelled, and neither is their skipping on the early returns of `onAddedClean` (src/shapes/mesh.cpp:48-52) and `import` (src/animation/keyed_object.cpp:50-55), because each hook is represented only by the status it returns.
- The index buffer is built as a local sequence and then allocated. The source allocates the vector first and appends to it in place.
- `BuildDependencies` requires an index buffer, because the source dereferences it. `onAddedClean` has already rejected a mesh without one.
- Reference counting and the ownership transfer of `import` are not modelled. Ownership is represented by appending the keyed object to the importer's list.
- Renderer-side drawing, the graph-wide dependency sort and the update pass are not modelled. `animation_state.cpp` is a one-line factory with no behaviour to state.
- The renderer and factory interfaces are opaque. The Skia backend is not part of this model.
- The numeric value of `LinearAnimationBase::typeKey` is not modelled. Import-stack entries are tagged by kind instead.
