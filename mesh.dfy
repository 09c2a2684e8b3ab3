/**
 * Mesh (src/shapes/mesh.cpp): a mesh of vertices and triangle indices deforming an
 * Image. It validates itself at load time, decodes its index buffer, registers as a
 * dependent of its parent and of its optional skin, and keeps a cached vertex render
 * buffer that vertex dirt invalidates and draw rebuilds.
 */
module Shapes {
  import opened Status
  import opened Math
  import opened Render
  import opened Component
  import opened BinaryReading

  /** A mesh vertex as Mesh reads it: its texture coordinate and its render translation. */
  datatype MeshVertex = MeshVertex(u: Float, v: Float, renderTranslation: Vec2D)

  datatype ContainerKind = Image | OtherContainer

  /** The mesh's parent: its kind, its dependents, its world transform and, for an Image, its mesh slot. */
  class ContainerComponent {
    const kind: ContainerKind
    var dependents: seq<object>
    var mesh: Mesh?
    var worldTransform: Mat2D

    constructor (kind: ContainerKind, worldTransform: Mat2D)
      ensures this.kind == kind && this.worldTransform == worldTransform
      ensures dependents == [] && mesh == null
    {
      this.kind := kind;
      this.worldTransform := worldTransform;
      dependents := [];
      mesh := null;
    }
  }

  /** The skin that deforms a mesh: its dirt, its dependents and the deform calls it received. */
  class Skin {
    var dirt: Dirt
    var dependents: seq<object>
    var deformCalls: seq<seq<MeshVertex>>

    constructor ()
      ensures dirt == {} && dependents == [] && deformCalls == []
    {
      dirt := {};
      dependents := [];
      deformCalls := [];
    }
  }

  /** The reference-counted triangle index buffer; several meshes may share one. */
  class IndexBuffer {
    const indices: seq<uint16>

    constructor (indices: seq<uint16>)
      ensures this.indices == indices
    {
      this.indices := indices;
    }
  }

  /** Every triangle index names an existing vertex. */
  predicate IndicesInRange(indices: seq<uint16>, vertexCount: nat) {
    forall i :: 0 <= i < |indices| ==> indices[i] < vertexCount
  }

  /** The texture coordinates of the vertices, one (u, v) pair each. */
  function UVCoords(vertices: seq<MeshVertex>): seq<Vec2D>
  {
    seq(|vertices|, i requires 0 <= i < |vertices| => Vec2D(vertices[i].u, vertices[i].v))
  }

  /** The render translations of the vertices. */
  function RenderTranslations(vertices: seq<MeshVertex>): seq<Vec2D>
  {
    seq(|vertices|, i requires 0 <= i < |vertices| => vertices[i].renderTranslation)
  }

  /** The float array of a sequence of points: x then y, point after point. */
  function Flatten(points: seq<Vec2D>): seq<Float> {
    if points == [] then []
    else Flatten(points[..|points| - 1]) + [points[|points| - 1].x, points[|points| - 1].y]
  }

  /** Point i of the input sits at positions 2i (x) and 2i+1 (y) of its flattening. */
  lemma {:induction false} FlattenAt(points: seq<Vec2D>, i: nat)
    requires i < |points|
    ensures |Flatten(points)| == 2 * |points|
    ensures Flatten(points)[2 * i] == points[i].x && Flatten(points)[2 * i + 1] == points[i].y
  {
    var n := |points| - 1;
    FlattenLength(points[..n]);
    if i < n {
      FlattenAt(points[..n], i);
    }
  }

  lemma {:induction false} FlattenLength(points: seq<Vec2D>)
    ensures |Flatten(points)| == 2 * |points|
  {
    if points != [] {
      FlattenLength(points[..|points| - 1]);
    }
  }

  /** The uv array of buildDependencies: 2·|vertices| floats, vertex i's u at 2i and v at 2i+1. */
  lemma UVLayout(vertices: seq<MeshVertex>, i: nat)
    requires i < |vertices|
    ensures |Flatten(UVCoords(vertices))| == 2 * |vertices|
    ensures Flatten(UVCoords(vertices))[2 * i] == vertices[i].u
    ensures Flatten(UVCoords(vertices))[2 * i + 1] == vertices[i].v
  {
    FlattenAt(UVCoords(vertices), i);
  }

  /** The vertex array of draw: 2·|vertices| floats, vertex i's render x at 2i and y at 2i+1. */
  lemma VertexLayout(vertices: seq<MeshVertex>, i: nat)
    requires i < |vertices|
    ensures |Flatten(RenderTranslations(vertices))| == 2 * |vertices|
    ensures Flatten(RenderTranslations(vertices))[2 * i] == vertices[i].renderTranslation.x
    ensures Flatten(RenderTranslations(vertices))[2 * i + 1] == vertices[i].renderTranslation.y
  {
    FlattenAt(RenderTranslations(vertices), i);
  }

  /**
   * The fill of a float array twice as long as the point list, x then y for each point,
   * that buildDependencies (texture coordinates) and draw (render translations) both do.
   */
  method Interleave(points: seq<Vec2D>) returns (values: seq<Float>)
    ensures values == Flatten(points)
    ensures |values| == 2 * |points|
  {
    var buffer := new Float[|points| * 2];
    var index := 0;
    var k := 0;
    while k < |points|
      invariant 0 <= k <= |points| && index == 2 * k
      invariant buffer[..index] == Flatten(points[..k])
    {
      FlattenLength(points[..k]);
      assert points[..k + 1][..k] == points[..k];
      buffer[index] := points[k].x;
      index := index + 1;
      buffer[index] := points[k].y;
      index := index + 1;
      k := k + 1;
    }
    assert points[..k] == points;
    assert buffer[..] == buffer[..index];
    values := buffer[..];
    FlattenLength(points);
  }

  class Mesh {
    const parent: ContainerComponent
    var skin: Skin?
    var vertices: seq<MeshVertex>
    var indexBuffer: IndexBuffer?
    var dirt: Dirt
    var vertexRenderBuffer: RenderBuffer?
    var uvRenderBuffer: RenderBuffer?
    var indexRenderBuffer: RenderBuffer?

    constructor (parent: ContainerComponent, skin: Skin?)
      ensures this.parent == parent && this.skin == skin
      ensures vertices == [] && indexBuffer == null && dirt == {}
      ensures vertexRenderBuffer == null && uvRenderBuffer == null && indexRenderBuffer == null
    {
      this.parent := parent;
      this.skin := skin;
      vertices := [];
      indexBuffer := null;
      dirt := {};
      vertexRenderBuffer := null;
      uvRenderBuffer := null;
      indexRenderBuffer := null;
    }

    /** The skin, as a frame: empty when the mesh has none. */
    function SkinFrame(): set<Skin>
      reads this
    {
      if skin == null then {} else {skin}
    }

    /** markDrawableDirty, called when a vertex moves: Skin dirt on the skin, Vertices dirt on the mesh. */
    method MarkDrawableDirty()
      modifies this`dirt, SkinFrame()`dirt
      ensures dirt == AddDirt(old(dirt), {Vertices}).0
      ensures skin != null ==> skin.dirt == AddDirt(old(skin.dirt), {DirtFlag.Skin}).0
    {
      if skin != null {
        skin.dirt := AddDirt(skin.dirt, {DirtFlag.Skin}).0;
      }
      dirt := AddDirt(dirt, {Vertices}).0;
    }

    /** addVertex: the vertex goes at the end, the earlier ones keep their order. */
    method AddVertex(vertex: MeshVertex)
      modifies this`vertices
      ensures vertices == old(vertices) + [vertex]
    {
      vertices := vertices + [vertex];
    }

    /**
     * onAddedDirty: a failing superclass status is returned unchanged; a parent that
     * is not an Image is MissingObject; otherwise the Image's mesh slot becomes this mesh.
     */
    method OnAddedDirty(superStatus: StatusCode) returns (status: StatusCode)
      modifies parent`mesh
      ensures superStatus != Ok ==> status == superStatus && parent.mesh == old(parent.mesh)
      ensures superStatus == Ok && parent.kind != Image
              ==> status == MissingObject && parent.mesh == old(parent.mesh)
      ensures superStatus == Ok && parent.kind == Image ==> status == Ok && parent.mesh == this
    {
      if superStatus != Ok {
        return superStatus;
      }
      if parent.kind != Image {
        return MissingObject;
      }
      parent.mesh := this;
      return Ok;
    }

    /**
     * onAddedClean: InvalidObject without an index buffer or with an index that names
     * no vertex; otherwise the superclass status.
     */
    method OnAddedClean(superStatus: StatusCode) returns (status: StatusCode)
      ensures indexBuffer == null ==> status == InvalidObject
      ensures indexBuffer != null && !IndicesInRange(indexBuffer.indices, |vertices|)
              ==> status == InvalidObject
      ensures indexBuffer != null && IndicesInRange(indexBuffer.indices, |vertices|)
              ==> status == superStatus
    {
      if indexBuffer == null {
        return InvalidObject;
      }
      var indices := indexBuffer.indices;
      var k := 0;
      while k < |indices|
        invariant 0 <= k <= |indices|
        invariant forall i :: 0 <= i < k ==> indices[i] < |vertices|
      {
        if indices[k] >= |vertices| {
          return InvalidObject;
        }
        k := k + 1;
      }
      return superStatus;
    }

    /** decodeTriangleIndexBytes: a fresh index buffer holding every varuint of the span, in order. */
    method DecodeTriangleIndexBytes(value: seq<byte>)
      modifies this`indexBuffer
      ensures fresh(indexBuffer)
      ensures indexBuffer.indices == DecodeIndices(value, 0)
    {
      var buffer: seq<uint16> := [];
      var position := 0;
      while position < |value|
        invariant position <= |value|
        invariant buffer + DecodeIndices(value, position) == DecodeIndices(value, 0)
        decreases |value| - position
      {
        var (index, next) := ReadVarUint16(value, position);
        buffer := buffer + [index];
        position := next;
      }
      indexBuffer := new IndexBuffer(buffer);
    }

    /** copyTriangleIndexBytes: share the other mesh's index buffer. */
    method CopyTriangleIndexBytes(other: Mesh)
      modifies this`indexBuffer
      ensures indexBuffer == other.indexBuffer
    {
      indexBuffer := other.indexBuffer;
    }

    /** markSkinDirty, called when a bone of the skin moves: Vertices dirt on the mesh only. */
    method MarkSkinDirty()
      modifies this`dirt
      ensures dirt == AddDirt(old(dirt), {Vertices}).0
    {
      dirt := AddDirt(dirt, {Vertices}).0;
    }

    /**
     * buildDependencies: register with the skin (if any) and the parent, then make the
     * texture-coordinate and index render buffers. The source dereferences the index
     * buffer here, which onAddedClean has already required to exist.
     */
    method BuildDependencies()
      requires indexBuffer != null
      modifies parent`dependents, SkinFrame()`dependents, this`uvRenderBuffer, this`indexRenderBuffer
      ensures parent.dependents == WithDependent(old(parent.dependents), this)
      ensures skin != null ==> skin.dependents == WithDependent(old(skin.dependents), this)
      ensures fresh(uvRenderBuffer) && uvRenderBuffer.data == F32(Flatten(UVCoords(vertices)))
      ensures fresh(indexRenderBuffer) && indexRenderBuffer.data == U16(indexBuffer.indices)
    {
      if skin != null {
        skin.dependents := WithDependent(skin.dependents, this);
      }
      parent.dependents := WithDependent(parent.dependents, this);
      var uv := Interleave(UVCoords(vertices));
      uvRenderBuffer := new RenderBuffer(F32(uv));
      indexRenderBuffer := new RenderBuffer(U16(indexBuffer.indices));
    }

    /** update: Vertices dirt deforms through the skin (if any) and drops the cached vertex buffer. */
    method Update(value: Dirt)
      modifies this`vertexRenderBuffer, SkinFrame()`deformCalls
      ensures HasDirt(value, {Vertices}) ==> vertexRenderBuffer == null
      ensures !HasDirt(value, {Vertices}) ==> vertexRenderBuffer == old(vertexRenderBuffer)
      ensures skin != null ==> skin.deformCalls == old(skin.deformCalls) +
                                (if HasDirt(value, {Vertices}) then [vertices] else [])
    {
      if HasDirt(value, {Vertices}) {
        if skin != null {
          skin.deformCalls := skin.deformCalls + [vertices];
        }
        vertexRenderBuffer := null;
      }
    }

    /**
     * draw: rebuild the vertex buffer only when none is cached, set the parent's world
     * transform when there is no skin, then draw the image mesh with the three buffers.
     */
    method Draw(renderer: Renderer, image: RenderImage, blendMode: BlendMode, opacity: Float)
      modifies this`vertexRenderBuffer, renderer`calls
      ensures vertexRenderBuffer != null
      ensures old(vertexRenderBuffer) != null ==> vertexRenderBuffer == old(vertexRenderBuffer)
      ensures old(vertexRenderBuffer) == null ==>
                fresh(vertexRenderBuffer) &&
                vertexRenderBuffer.data == F32(Flatten(RenderTranslations(vertices)))
      ensures renderer.calls == old(renderer.calls)
                + (if skin == null then [Transform(parent.worldTransform)] else [])
                + [DrawImageMesh(image, vertexRenderBuffer, uvRenderBuffer, indexRenderBuffer,
                                 blendMode, opacity)]
    {
      if vertexRenderBuffer == null {
        var values := Interleave(RenderTranslations(vertices));
        vertexRenderBuffer := new RenderBuffer(F32(values));
      }
      if skin == null {
        renderer.calls := renderer.calls + [Transform(parent.worldTransform)];
      }
      renderer.calls := renderer.calls + [DrawImageMesh(image, vertexRenderBuffer, uvRenderBuffer,
                                                        indexRenderBuffer, blendMode, opacity)];
    }
  }
}
