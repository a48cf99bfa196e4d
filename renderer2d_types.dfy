/**
 * The declarations the 2D renderer is built from: the capacity constants and
 * vertex layouts of its batching state, the statistics it reports, the default
 * arguments of its draw entry points, and the graphics calls it issues, which
 * the model records in a log instead of performing.
 */
module Renderer2DTypes {
  import opened Geometry

  // ---------------------------------------------------------------------------
  // Capacity constants (all uint32 in the source)

  const MaxQuads: nat := 20000
  const MaxVertices: nat := MaxQuads * 4
  const MaxIndices: nat := MaxQuads * 6
  const MaxTextureSlots: nat := 32

  /** The capacities spelled out; the index capacity exceeds the vertex capacity. */
  lemma CapacityConstants()
    ensures MaxVertices == 80000 && MaxIndices == 120000
    ensures MaxIndices > MaxVertices
    ensures MaxVertices % 4 == 0 && MaxVertices % CircleSegments == 0
  {
  }

  // ---------------------------------------------------------------------------
  // uint32 arithmetic

  const U32Modulus: nat := 0x1_0000_0000

  type U32 = x: nat | x < 0x1_0000_0000

  /** `a + n` on uint32: wraps around past 2^32 - 1. */
  function Add32(a: U32, n: nat): (r: U32)
    ensures a + n < U32Modulus ==> r == a + n
    ensures a + n >= U32Modulus && n < U32Modulus ==> r == a + n - U32Modulus
  {
    (a + n) % 0x1_0000_0000
  }

  /** Adding in two steps is adding the sum, wrap-around included. */
  lemma Add32Twice(a: U32, n: nat, m: nat)
    ensures Add32(Add32(a, n), m) == Add32(a, n + m)
  {
    var k := (a + n) / U32Modulus;
    assert a + n == k * U32Modulus + Add32(a, n);
    assert a + n + m == k * U32Modulus + (Add32(a, n) + m);
    ModAddMultiple(Add32(a, n) + m, k);
  }

  lemma ModAddMultiple(x: nat, k: nat)
    ensures (k * U32Modulus + x) % U32Modulus == x % U32Modulus
  {
    if k > 0 {
      ModAddMultiple(x, k - 1);
      assert k * U32Modulus + x == (k - 1) * U32Modulus + x + U32Modulus;
    }
  }

  // ---------------------------------------------------------------------------
  // Renderer2D::Statistics

  datatype Statistics = Statistics(drawCalls: U32, quadCount: U32)
  {
    /** GetTotalVertexCount: four vertices per quad, computed in uint32. */
    function TotalVertexCount(): (r: U32)
      ensures quadCount < 0x4000_0000 ==> r == 4 * quadCount
      ensures r % 4 == 0
    {
      (quadCount * 4) % U32Modulus
    }

    /** GetTotalIndexCount: six indices per quad, computed in uint32. */
    function TotalIndexCount(): (r: U32)
      ensures quadCount < 0x2AAA_AAAB ==> r == 6 * quadCount
    {
      (quadCount * 6) % U32Modulus
    }
  }

  /** The member initialisers of Statistics; also what ResetStats writes. */
  const ZeroStatistics: Statistics := Statistics(0, 0)

  // ---------------------------------------------------------------------------
  // Vertex layouts

  datatype QuadVertex = QuadVertex(
    position: WorldPos,
    color: Vec4,
    texCoord: Vec2,
    tilingFactor: Vec2,
    entityID: int)

  datatype CircleVertex = CircleVertex(
    worldPosition: WorldPos,
    localPosition: Vec3,
    color: Vec4,
    thickness: real,
    fade: real,
    entityID: int)

  datatype ColliderVertex = ColliderVertex(
    position: WorldPos,
    color: Vec4,
    entityID: int)

  /**
   * sizeof of each vertex struct, with 4-byte floats and ints and no padding:
   * (3 + 4 + 2 + 2) floats and an int, (3 + 3 + 4 + 1 + 1) floats and an int,
   * (3 + 4) floats and an int.
   */
  const QuadVertexSize: nat := 48
  const CircleVertexSize: nat := 52
  const ColliderVertexSize: nat := 32

  // ---------------------------------------------------------------------------
  // Fixed vertex data

  /** The canonical unit quad, set up once by Init. */
  const QuadVertexPositions: seq<Vec4> := [
    Vec4(-0.5, -0.5, 0.0, 1.0),
    Vec4( 0.5, -0.5, 0.0, 1.0),
    Vec4( 0.5,  0.5, 0.0, 1.0),
    Vec4(-0.5,  0.5, 0.0, 1.0)]

  /** The texture coordinates DrawQuad gives its four vertices, in order. */
  const TextureCoords: seq<Vec2> := [Vec2(0.0, 0.0), Vec2(1.0, 0.0), Vec2(1.0, 1.0), Vec2(0.0, 1.0)]

  const TilingFactor: Vec2 := Vec2(1.0, 1.0)

  /** DrawBoxCollider's own corner table (the same values as the unit quad). */
  const BoxColliderCorners: seq<Vec4> := [
    Vec4(-0.5, -0.5, 0.0, 1.0),
    Vec4( 0.5, -0.5, 0.0, 1.0),
    Vec4( 0.5,  0.5, 0.0, 1.0),
    Vec4(-0.5,  0.5, 0.0, 1.0)]

  /** Points per circle-collider outline, and the vertex stride of its line loops. */
  const CircleSegments: nat := 32

  /** Vertices per quad-shaped primitive (quad, circle, box collider). */
  const QuadVertexCount: nat := 4

  // ---------------------------------------------------------------------------
  // Default arguments of the draw entry points

  const DefaultEntityID: int := -1
  const DefaultThickness: real := 1.0
  const DefaultFade: real := 0.005

  // ---------------------------------------------------------------------------
  // Graphics calls, recorded instead of performed

  /** The four batches; also names the vertex array, vertex buffer and shader of each. */
  datatype BatchKind = QuadBatch | CircleBatch | BoxColliderBatch | CircleColliderBatch

  /**
   * The graphics calls that carry data: buffer creation and uploads, and the
   * draws. Binding shaders and vertex arrays, the depth test and the line width
   * change no data the model tracks and are not recorded.
   */
  datatype GpuCall =
      /** IndexBuffer::Create with the given contents */
    | CreateIndexBuffer(indices: seq<nat>)
      /** CameraUniformBuffer->SetData with the given view-projection */
    | UploadCamera(viewProjection: Mat4)
      /** VertexBuffer->SetData(base, bytes) on the vertex buffer of `batch` */
    | UploadVertices(batch: BatchKind, bytes: nat)
      /** glDrawElements(GL_TRIANGLES, indexCount, ...) on the vertex array of `batch` */
    | DrawTriangles(batch: BatchKind, indexCount: nat)
      /** glDrawArrays(GL_LINE_LOOP, first, count) on the vertex array of `batch` */
    | DrawLineLoop(batch: BatchKind, first: nat, count: nat)
}
