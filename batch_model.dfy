/**
 * The batching state of Renderer2D.cpp as a value, and the effect of each of
 * its operations as a function on that value. The class Renderer2D (module
 * Renderer2D) is proved to follow these functions step by step; the lemmas
 * here state what the operations achieve over a whole frame: agreement of
 * cursors and index counts, capacity bounds, no empty draw, and the number and
 * size of the draw calls as a function of the number of submissions.
 */
module BatchModel {
  import opened Geometry
  import opened Renderer2DTypes

  // ===========================================================================
  // State

  /** One batch's pending data: the vertices between base and cursor, and its index count. */
  datatype Pending<V> = Pending(vertices: seq<V>, indexCount: nat)

  datatype Frame = Frame(
    quads: Pending<QuadVertex>,
    circles: Pending<CircleVertex>,
    boxColliders: Pending<ColliderVertex>,
    circleColliders: Pending<ColliderVertex>,
    viewProjection: Mat4,
    stats: Statistics,
    calls: seq<GpuCall>)

  /** A quad or circle batch: four vertices per six indices, within the index capacity. */
  predicate TrianglesConsistent<V>(p: Pending<V>)
  {
    && |p.vertices| % 4 == 0
    && 2 * p.indexCount == 3 * |p.vertices|
    && p.indexCount <= MaxIndices
  }

  /** The box-collider batch: one index per vertex, whole outlines of 4 corners, within the vertex capacity. */
  predicate BoxOutlinesConsistent(p: Pending<ColliderVertex>)
  {
    && |p.vertices| % 4 == 0
    && p.indexCount == |p.vertices| <= MaxVertices
  }

  /** The circle-collider batch: one index per vertex, whole outlines of 32 points, within the vertex capacity. */
  predicate CircleOutlinesConsistent(p: Pending<ColliderVertex>)
  {
    && |p.vertices| % 32 == 0
    && p.indexCount == |p.vertices| <= MaxVertices
  }

  /** Cursor and index count agree in every batch, and the vertices fit the arrays. */
  predicate Consistent(f: Frame)
  {
    && TrianglesConsistent(f.quads)
    && TrianglesConsistent(f.circles)
    && BoxOutlinesConsistent(f.boxColliders)
    && CircleOutlinesConsistent(f.circleColliders)
  }

  /** Quads (or circles) pending in a batch. */
  function QuadsPending(f: Frame): nat { |f.quads.vertices| / 4 }
  function CirclesPending(f: Frame): nat { |f.circles.vertices| / 4 }

  // ===========================================================================
  // Reading the call log

  datatype Aspect = TriangleDraws | LineLoopStarts | LineLoopLengths | UploadBytes

  /** What one call contributes to the trace of `aspect` on batch `b`. */
  function Observe(c: GpuCall, b: BatchKind, aspect: Aspect): seq<nat>
  {
    match c
    case DrawTriangles(b', n) => if aspect == TriangleDraws && b' == b then [n] else []
    case DrawLineLoop(b', first, n) =>
      if aspect == LineLoopStarts && b' == b then [first]
      else if aspect == LineLoopLengths && b' == b then [n]
      else []
    case UploadVertices(b', bytes) => if aspect == UploadBytes && b' == b then [bytes] else []
    case _ => []
  }

  /** The numbers `aspect` picks out of the calls on batch `b`, in call order. */
  function Trace(calls: seq<GpuCall>, b: BatchKind, aspect: Aspect): seq<nat>
  {
    if calls == [] then [] else Observe(calls[0], b, aspect) + Trace(calls[1..], b, aspect)
  }

  lemma {:induction false} TraceAppend(x: seq<GpuCall>, y: seq<GpuCall>, b: BatchKind, aspect: Aspect)
    ensures Trace(x + y, b, aspect) == Trace(x, b, aspect) + Trace(y, b, aspect)
  {
    if x == [] {
      assert x + y == y;
    } else {
      assert (x + y)[0] == x[0];
      assert (x + y)[1..] == x[1..] + y;
      TraceAppend(x[1..], y, b, aspect);
    }
  }

  lemma TraceSingle(c: GpuCall, b: BatchKind, aspect: Aspect)
    ensures Trace([c], b, aspect) == Observe(c, b, aspect)
  {
    assert [c][1..] == [];
  }

  /** The index counts of the triangle draws issued on batch `b`. */
  function DrawSizes(calls: seq<GpuCall>, b: BatchKind): seq<nat>
  {
    Trace(calls, b, TriangleDraws)
  }

  /** All indexed triangle draws: what Stats.DrawCalls counts. */
  function TriangleDrawCount(calls: seq<GpuCall>): nat
  {
    |DrawSizes(calls, QuadBatch)| + |DrawSizes(calls, CircleBatch)|
  }

  /** r was reached from f by issuing calls, and DrawCalls grew (in uint32) by exactly the triangle draws issued. */
  predicate StatsTrackDraws(f: Frame, r: Frame)
  {
    && f.calls <= r.calls
    && TriangleDrawCount(f.calls) <= TriangleDrawCount(r.calls)
    && r.stats.drawCalls == Add32(f.stats.drawCalls, TriangleDrawCount(r.calls) - TriangleDrawCount(f.calls))
  }

  lemma StatsTrackTransitive(f: Frame, g: Frame, r: Frame)
    requires StatsTrackDraws(f, g) && StatsTrackDraws(g, r)
    ensures StatsTrackDraws(f, r)
  {
    Add32Twice(f.stats.drawCalls, TriangleDrawCount(g.calls) - TriangleDrawCount(f.calls),
               TriangleDrawCount(r.calls) - TriangleDrawCount(g.calls));
  }

  // ===========================================================================
  // Batch lifecycle

  /** StartBatch: every index count to 0 and every cursor back to its base. */
  function StartBatch(f: Frame): (r: Frame)
    ensures Consistent(r)
    ensures r.quads.vertices == [] && r.circles.vertices == []
    ensures r.boxColliders.vertices == [] && r.circleColliders.vertices == []
    ensures r.quads.indexCount == 0 && r.circles.indexCount == 0
    ensures r.boxColliders.indexCount == 0 && r.circleColliders.indexCount == 0
    ensures r.stats == f.stats && r.calls == f.calls && r.viewProjection == f.viewProjection
  {
    f.(quads := Pending([], 0), circles := Pending([], 0),
       boxColliders := Pending([], 0), circleColliders := Pending([], 0))
  }

  /** The calls Flush issues for a non-empty batch: upload base..cursor, then one indexed draw. */
  function FlushCalls(b: BatchKind, bytes: nat, indexCount: nat): seq<GpuCall>
  {
    [UploadVertices(b, bytes), DrawTriangles(b, indexCount)]
  }

  /** Of the two calls, the upload shows as its size and the draw as its index count. */
  lemma FlushCallsTrace(b: BatchKind, bytes: nat, n: nat, b': BatchKind, aspect: Aspect)
    ensures Trace(FlushCalls(b, bytes, n), b', aspect) ==
      if b' == b && aspect == UploadBytes then [bytes]
      else if b' == b && aspect == TriangleDraws then [n]
      else []
  {
    var up, draw := UploadVertices(b, bytes), DrawTriangles(b, n);
    TraceSingle(up, b', aspect);
    TraceSingle(draw, b', aspect);
    TraceAppend([up], [draw], b', aspect);
    assert FlushCalls(b, bytes, n) == [up] + [draw];
  }

  /** The calls Flush issues for one batch that holds `indexCount` indices. */
  function BatchFlushCalls(b: BatchKind, bytes: nat, indexCount: nat): seq<GpuCall>
  {
    if indexCount > 0 then FlushCalls(b, bytes, indexCount) else []
  }

  /** What Flush issues on `batch`, seen through `aspect`. */
  lemma {:induction false} FlushedTrace(f: Frame, r: Frame, batch: BatchKind, aspect: Aspect)
    requires r.calls == f.calls
      + BatchFlushCalls(QuadBatch, |f.quads.vertices| * QuadVertexSize, f.quads.indexCount)
      + BatchFlushCalls(CircleBatch, |f.circles.vertices| * CircleVertexSize, f.circles.indexCount)
    ensures Trace(r.calls, batch, aspect) == Trace(f.calls, batch, aspect)
      + (if batch == QuadBatch && f.quads.indexCount > 0 && aspect == UploadBytes then [|f.quads.vertices| * QuadVertexSize]
         else if batch == QuadBatch && f.quads.indexCount > 0 && aspect == TriangleDraws then [f.quads.indexCount]
         else if batch == CircleBatch && f.circles.indexCount > 0 && aspect == UploadBytes then [|f.circles.vertices| * CircleVertexSize]
         else if batch == CircleBatch && f.circles.indexCount > 0 && aspect == TriangleDraws then [f.circles.indexCount]
         else [])
  {
    var qc := BatchFlushCalls(QuadBatch, |f.quads.vertices| * QuadVertexSize, f.quads.indexCount);
    var cc := BatchFlushCalls(CircleBatch, |f.circles.vertices| * CircleVertexSize, f.circles.indexCount);
    TraceAppend(f.calls, qc, batch, aspect);
    TraceAppend(f.calls + qc, cc, batch, aspect);
    if f.quads.indexCount > 0 {
      FlushCallsTrace(QuadBatch, |f.quads.vertices| * QuadVertexSize, f.quads.indexCount, batch, aspect);
    }
    if f.circles.indexCount > 0 {
      FlushCallsTrace(CircleBatch, |f.circles.vertices| * CircleVertexSize, f.circles.indexCount, batch, aspect);
    }
  }

  /**
   * What Flush achieves: one upload and one indexed draw per non-empty quad or
   * circle batch, quads first, each draw covering exactly the batch's index
   * count and each upload exactly base..cursor, DrawCalls counting the draws;
   * nothing is reset and the collider batches are not touched.
   */
  predicate FlushEffect(f: Frame, r: Frame)
  {
    && r.quads == f.quads && r.circles == f.circles
    && r.boxColliders == f.boxColliders && r.circleColliders == f.circleColliders
    && r.viewProjection == f.viewProjection && r.stats.quadCount == f.stats.quadCount
    && DrawSizes(r.calls, QuadBatch) == DrawSizes(f.calls, QuadBatch)
         + (if f.quads.indexCount > 0 then [f.quads.indexCount] else [])
    && DrawSizes(r.calls, CircleBatch) == DrawSizes(f.calls, CircleBatch)
         + (if f.circles.indexCount > 0 then [f.circles.indexCount] else [])
    && Trace(r.calls, QuadBatch, UploadBytes) == Trace(f.calls, QuadBatch, UploadBytes)
         + (if f.quads.indexCount > 0 then [|f.quads.vertices| * QuadVertexSize] else [])
    && Trace(r.calls, CircleBatch, UploadBytes) == Trace(f.calls, CircleBatch, UploadBytes)
         + (if f.circles.indexCount > 0 then [|f.circles.vertices| * CircleVertexSize] else [])
    && (forall aspect :: Trace(r.calls, BoxColliderBatch, aspect) == Trace(f.calls, BoxColliderBatch, aspect))
    && (forall aspect :: Trace(r.calls, CircleColliderBatch, aspect) == Trace(f.calls, CircleColliderBatch, aspect))
    && (forall b :: Trace(r.calls, b, LineLoopStarts) == Trace(f.calls, b, LineLoopStarts))
    && StatsTrackDraws(f, r)
  }

  lemma FlushSteps(f: Frame, r: Frame)
    requires r.calls == f.calls
      + BatchFlushCalls(QuadBatch, |f.quads.vertices| * QuadVertexSize, f.quads.indexCount)
      + BatchFlushCalls(CircleBatch, |f.circles.vertices| * CircleVertexSize, f.circles.indexCount)
    requires r.quads == f.quads && r.circles == f.circles
    requires r.boxColliders == f.boxColliders && r.circleColliders == f.circleColliders
    requires r.viewProjection == f.viewProjection && r.stats.quadCount == f.stats.quadCount
    requires r.stats.drawCalls ==
      Add32(f.stats.drawCalls, (if f.quads.indexCount > 0 then 1 else 0) + (if f.circles.indexCount > 0 then 1 else 0))
    ensures FlushEffect(f, r)
  {
    FlushedTrace(f, r, QuadBatch, TriangleDraws);
    FlushedTrace(f, r, CircleBatch, TriangleDraws);
    FlushedTrace(f, r, QuadBatch, UploadBytes);
    FlushedTrace(f, r, CircleBatch, UploadBytes);
    forall aspect
      ensures Trace(r.calls, BoxColliderBatch, aspect) == Trace(f.calls, BoxColliderBatch, aspect)
      ensures Trace(r.calls, CircleColliderBatch, aspect) == Trace(f.calls, CircleColliderBatch, aspect)
    {
      FlushedTrace(f, r, BoxColliderBatch, aspect);
      FlushedTrace(f, r, CircleColliderBatch, aspect);
    }
    forall b
      ensures Trace(r.calls, b, LineLoopStarts) == Trace(f.calls, b, LineLoopStarts)
    {
      FlushedTrace(f, r, b, LineLoopStarts);
    }
  }

  /** Flush: the quad batch, then the circle batch. */
  function Flush(f: Frame): Frame
  {
    var quadDraws := if f.quads.indexCount > 0 then 1 else 0;
    var circleDraws := if f.circles.indexCount > 0 then 1 else 0;
    f.(calls := f.calls
          + BatchFlushCalls(QuadBatch, |f.quads.vertices| * QuadVertexSize, f.quads.indexCount)
          + BatchFlushCalls(CircleBatch, |f.circles.vertices| * CircleVertexSize, f.circles.indexCount),
       stats := f.stats.(drawCalls := Add32(Add32(f.stats.drawCalls, quadDraws), circleDraws)))
  }

  lemma FlushSpec(f: Frame)
    ensures FlushEffect(f, Flush(f))
  {
    Add32Twice(f.stats.drawCalls, if f.quads.indexCount > 0 then 1 else 0, if f.circles.indexCount > 0 then 1 else 0);
    FlushSteps(f, Flush(f));
  }

  /** NextBatch: Flush, then StartBatch on all four batches. */
  function NextBatch(f: Frame): Frame
  {
    StartBatch(Flush(f))
  }

  /** The overflow step of the draw entry points: NextBatch when `full`, else nothing. */
  function Reserve(f: Frame, full: bool): Frame
  {
    if full then NextBatch(f) else f
  }

  /** Reserve leaves a consistent state, draws only what it counts, and empties every batch when it restarts. */
  lemma ReserveSpec(f: Frame, full: bool)
    ensures Consistent(f) ==> Consistent(Reserve(f, full))
    ensures StatsTrackDraws(f, Reserve(f, full)) && Reserve(f, full).stats.quadCount == f.stats.quadCount
    ensures full ==> Reserve(f, full).quads.indexCount == 0 && Reserve(f, full).circles.indexCount == 0
    ensures full ==> Reserve(f, full).boxColliders.indexCount == 0 && Reserve(f, full).circleColliders.indexCount == 0
  {
    if full {
      FlushSpec(f);
    }
  }

  /**
   * NextBatch on a full batch of either kind also draws whatever the other of
   * the quad and circle batches holds, ahead of time.
   */
  lemma NextBatchDraws(f: Frame)
    ensures DrawSizes(NextBatch(f).calls, QuadBatch) == DrawSizes(f.calls, QuadBatch)
      + (if f.quads.indexCount > 0 then [f.quads.indexCount] else [])
    ensures DrawSizes(NextBatch(f).calls, CircleBatch) == DrawSizes(f.calls, CircleBatch)
      + (if f.circles.indexCount > 0 then [f.circles.indexCount] else [])
    ensures NextBatch(f).quads == Pending([], 0) && NextBatch(f).circles == Pending([], 0)
  {
    FlushSpec(f);
  }

  /**
   * NextBatch rewinds the collider batches too, and issues no upload and no
   * line loop for them: pending collider outlines are dropped undrawn.
   */
  lemma NextBatchDiscardsColliders(f: Frame)
    ensures NextBatch(f).boxColliders == Pending([], 0) && NextBatch(f).circleColliders == Pending([], 0)
    ensures forall aspect :: Trace(NextBatch(f).calls, BoxColliderBatch, aspect) == Trace(f.calls, BoxColliderBatch, aspect)
    ensures forall aspect :: Trace(NextBatch(f).calls, CircleColliderBatch, aspect) == Trace(f.calls, CircleColliderBatch, aspect)
  {
    FlushSpec(f);
  }

  // ---------------------------------------------------------------------------
  // Collider outlines

  /** `a / b` rounded up: the iteration count of `for (i = 0; i < a; i += b)`. */
  function DivCeil(a: nat, b: nat): nat
    requires b > 0
  {
    (a + b - 1) / b
  }

  /** The line loops of `for (i = first; i < count; i += step) glDrawArrays(GL_LINE_LOOP, i, step)`. */
  function LineLoops(b: BatchKind, first: nat, count: nat, step: nat): seq<GpuCall>
    requires step > 0
    decreases count - first
  {
    if first >= count then [] else [DrawLineLoop(b, first, step)] + LineLoops(b, first + step, count, step)
  }

  /** first, first + step, first + 2 * step, ... while below count: the values of that loop's `i`. */
  function Strided(first: nat, count: nat, step: nat): seq<nat>
    requires step > 0
    decreases count - first
  {
    if first >= count then [] else [first] + Strided(first + step, count, step)
  }

  /** The calls of one collider branch of RenderColliderDebug: upload base..cursor, then the line loops. */
  function OutlineCalls(b: BatchKind, bytes: nat, indexCount: nat, step: nat): seq<GpuCall>
    requires step > 0
  {
    [UploadVertices(b, bytes)] + LineLoops(b, 0, indexCount, step)
  }

  function BoxOutlineCalls(f: Frame): seq<GpuCall>
  {
    if f.boxColliders.indexCount > 0 then
      OutlineCalls(BoxColliderBatch, |f.boxColliders.vertices| * ColliderVertexSize, f.boxColliders.indexCount, 4)
    else []
  }

  function CircleOutlineCalls(f: Frame): seq<GpuCall>
  {
    if f.circleColliders.indexCount > 0 then
      OutlineCalls(CircleColliderBatch, |f.circleColliders.vertices| * ColliderVertexSize, f.circleColliders.indexCount, 32)
    else []
  }

  /**
   * RenderColliderDebug: nothing when both collider batches are empty, else the
   * box outlines (4 points per loop), then the circle outlines (32 points per loop).
   */
  function RenderColliderDebug(f: Frame): Frame
  {
    if f.boxColliders.indexCount == 0 && f.circleColliders.indexCount == 0 then f
    else f.(calls := f.calls + BoxOutlineCalls(f) + CircleOutlineCalls(f))
  }

  // ---------------------------------------------------------------------------
  // The index buffer Init builds, shared by the quad and circle batches

  /** The six indices of one quad, relative to its first vertex: triangles 0-1-2 and 2-3-0. */
  const QuadIndexOrder: seq<nat> := [0, 1, 2, 2, 3, 0]

  /** Entry j of the index buffer: the vertex that the (j % 6)-th index of quad j / 6 refers to. */
  function QuadIndexEntry(j: nat): nat
  {
    4 * (j / 6) + QuadIndexOrder[j % 6]
  }

  /** The whole buffer: MaxIndices entries. */
  function QuadIndexPattern(): seq<nat>
  {
    seq(MaxIndices, j requires 0 <= j => QuadIndexEntry(j))
  }

  /**
   * Quad k owns positions 6k .. 6k+5 of the buffer, and they hold
   * 4k, 4k+1, 4k+2, 4k+2, 4k+3, 4k.
   */
  lemma QuadIndexPatternEntries(k: nat)
    requires k < MaxQuads
    ensures |QuadIndexPattern()| == MaxIndices && 6 * k + 5 < MaxIndices
    ensures QuadIndexPattern()[6 * k] == 4 * k && QuadIndexPattern()[6 * k + 1] == 4 * k + 1
    ensures QuadIndexPattern()[6 * k + 2] == 4 * k + 2 && QuadIndexPattern()[6 * k + 3] == 4 * k + 2
    ensures QuadIndexPattern()[6 * k + 4] == 4 * k + 3 && QuadIndexPattern()[6 * k + 5] == 4 * k
  {
    QuadIndexAt(k, 0);
    QuadIndexAt(k, 1);
    QuadIndexAt(k, 2);
    QuadIndexAt(k, 3);
    QuadIndexAt(k, 4);
    QuadIndexAt(k, 5);
  }

  lemma QuadIndexAt(k: nat, c: nat)
    requires c < 6
    ensures QuadIndexEntry(6 * k + c) == 4 * k + QuadIndexOrder[c]
  {
    assert (6 * k + c) / 6 == k;
  }

  /** The six entries quad k owns, as QuadIndexEntry gives them. */
  lemma QuadIndexEntries(k: nat)
    ensures QuadIndexEntry(6 * k) == 4 * k && QuadIndexEntry(6 * k + 1) == 4 * k + 1
    ensures QuadIndexEntry(6 * k + 2) == 4 * k + 2 && QuadIndexEntry(6 * k + 3) == 4 * k + 2
    ensures QuadIndexEntry(6 * k + 4) == 4 * k + 3 && QuadIndexEntry(6 * k + 5) == 4 * k
  {
    QuadIndexAt(k, 0);
    QuadIndexAt(k, 1);
    QuadIndexAt(k, 2);
    QuadIndexAt(k, 3);
    QuadIndexAt(k, 4);
    QuadIndexAt(k, 5);
  }

  /** Every entry refers to a vertex inside the 80000-vertex arrays. */
  lemma QuadIndicesInRange(j: nat)
    requires j < MaxIndices
    ensures QuadIndexPattern()[j] < MaxVertices
  {
    assert j / 6 < MaxQuads;
  }

  // ---------------------------------------------------------------------------
  // Scene bracket

  /** BeginScene: upload the camera's view-projection, then StartBatch. */
  function BeginScene(f: Frame, vp: Mat4): (r: Frame)
    ensures Consistent(r) && r.viewProjection == vp && r.stats == f.stats
    ensures r.quads == Pending([], 0) && r.circles == Pending([], 0)
    ensures r.calls == f.calls + [UploadCamera(vp)]
  {
    StartBatch(f.(viewProjection := vp, calls := f.calls + [UploadCamera(vp)]))
  }

  /** The camera upload of BeginScene shows in no trace, and DrawCalls is left as it is. */
  lemma BeginSceneTraces(f: Frame, vp: Mat4)
    ensures forall b, aspect :: Trace(BeginScene(f, vp).calls, b, aspect) == Trace(f.calls, b, aspect)
    ensures StatsTrackDraws(f, BeginScene(f, vp))
  {
    forall b, aspect
      ensures Trace(BeginScene(f, vp).calls, b, aspect) == Trace(f.calls, b, aspect)
    {
      TraceAppend(f.calls, [UploadCamera(vp)], b, aspect);
      TraceSingle(UploadCamera(vp), b, aspect);
    }
  }

  /** EndScene: Flush, then RenderColliderDebug; the batches are left as they are. */
  function EndScene(f: Frame): Frame
  {
    RenderColliderDebug(Flush(f))
  }

  /** ResetStats: both counters to zero. */
  function ResetStats(f: Frame): Frame
  {
    f.(stats := ZeroStatistics)
  }

  // ===========================================================================
  // Draw entry points

  function QuadVertexAt(transform: Mat4, color: Vec4, entityID: int, i: nat): QuadVertex
    requires i < 4
  {
    QuadVertex(Transformed(transform, At(QuadVertexPositions[i])), color, TextureCoords[i], TilingFactor, entityID)
  }

  /** The four vertices DrawQuad writes. */
  function QuadVertices(transform: Mat4, color: Vec4, entityID: int): seq<QuadVertex>
  {
    seq(4, i requires 0 <= i < 4 => QuadVertexAt(transform, color, entityID, i))
  }

  function CircleVertexAt(transform: Mat4, color: Vec4, thickness: real, fade: real, entityID: int, i: nat): CircleVertex
    requires i < 4
  {
    CircleVertex(Transformed(transform, At(QuadVertexPositions[i])),
                 Truncate(Scale4(QuadVertexPositions[i], 2.0)),
                 color, thickness, fade, entityID)
  }

  /** The four vertices DrawCircle writes. */
  function CircleVertices(transform: Mat4, color: Vec4, thickness: real, fade: real, entityID: int): seq<CircleVertex>
  {
    seq(4, i requires 0 <= i < 4 => CircleVertexAt(transform, color, thickness, fade, entityID, i))
  }

  /**
   * The quad vertices get texture coordinates (0,0), (1,0), (1,1), (0,1) in
   * order, tiling (1,1), the unit-quad corners through the transform, and
   * the colour and entity ID unchanged.
   */
  lemma QuadVertexFields(transform: Mat4, color: Vec4, entityID: int)
    ensures |QuadVertices(transform, color, entityID)| == QuadVertexCount
    ensures QuadVertices(transform, color, entityID)[0].texCoord == Vec2(0.0, 0.0)
    ensures QuadVertices(transform, color, entityID)[1].texCoord == Vec2(1.0, 0.0)
    ensures QuadVertices(transform, color, entityID)[2].texCoord == Vec2(1.0, 1.0)
    ensures QuadVertices(transform, color, entityID)[3].texCoord == Vec2(0.0, 1.0)
    ensures forall i :: 0 <= i < 4 ==>
      && QuadVertices(transform, color, entityID)[i].position == Transformed(transform, At(QuadVertexPositions[i]))
      && QuadVertices(transform, color, entityID)[i].tilingFactor == Vec2(1.0, 1.0)
      && QuadVertices(transform, color, entityID)[i].color == color
      && QuadVertices(transform, color, entityID)[i].entityID == entityID
  {
  }

  /**
   * The circle vertices get local positions (-1,-1,0), (1,-1,0), (1,1,0),
   * (-1,1,0): twice the unit-quad corners, without w; and the colour,
   * thickness, fade and entity ID unchanged.
   */
  lemma CircleVertexFields(transform: Mat4, color: Vec4, thickness: real, fade: real, entityID: int)
    ensures |CircleVertices(transform, color, thickness, fade, entityID)| == QuadVertexCount
    ensures CircleVertices(transform, color, thickness, fade, entityID)[0].localPosition == Vec3(-1.0, -1.0, 0.0)
    ensures CircleVertices(transform, color, thickness, fade, entityID)[1].localPosition == Vec3(1.0, -1.0, 0.0)
    ensures CircleVertices(transform, color, thickness, fade, entityID)[2].localPosition == Vec3(1.0, 1.0, 0.0)
    ensures CircleVertices(transform, color, thickness, fade, entityID)[3].localPosition == Vec3(-1.0, 1.0, 0.0)
    ensures forall i :: 0 <= i < 4 ==>
      && CircleVertices(transform, color, thickness, fade, entityID)[i].worldPosition
           == Transformed(transform, At(QuadVertexPositions[i]))
      && CircleVertices(transform, color, thickness, fade, entityID)[i].color == color
      && CircleVertices(transform, color, thickness, fade, entityID)[i].thickness == thickness
      && CircleVertices(transform, color, thickness, fade, entityID)[i].fade == fade
      && CircleVertices(transform, color, thickness, fade, entityID)[i].entityID == entityID
  {
  }

  function BoxColliderVertexAt(transform: Mat4, color: Vec4, entityID: int, i: nat): ColliderVertex
    requires i < 4
  {
    ColliderVertex(Transformed(transform, At(BoxColliderCorners[i])), color, entityID)
  }

  /** The four vertices DrawBoxCollider writes. */
  function BoxColliderVertices(transform: Mat4, color: Vec4, entityID: int): seq<ColliderVertex>
  {
    seq(4, i requires 0 <= i < 4 => BoxColliderVertexAt(transform, color, entityID, i))
  }

  function CircleColliderVertexAt(transform: Mat4, color: Vec4, entityID: int, i: nat): ColliderVertex
  {
    ColliderVertex(Transformed(transform, OnCircle(i, CircleSegments)), color, entityID)
  }

  /** The 32 outline points DrawCircleCollider writes. */
  function CircleColliderVertices(transform: Mat4, color: Vec4, entityID: int): seq<ColliderVertex>
  {
    seq(CircleSegments, i requires 0 <= i => CircleColliderVertexAt(transform, color, entityID, i))
  }

  /**
   * The overflow test of the two collider draws, against the vertex capacity
   * of the collider arrays. The source compares against the index capacity
   * instead (ColliderGuardAsWritten); see BatchTheorems for what that allows.
   */
  predicate ColliderNeedsFlush(indexCount: nat)
  {
    indexCount >= MaxVertices
  }

  /** The collider overflow test as Renderer2D.cpp writes it: against MaxIndices (120000). */
  predicate ColliderGuardAsWritten(indexCount: nat)
  {
    indexCount >= MaxIndices
  }

  /**
   * DrawQuad(transform, color, entityID): flush and restart when the quad batch
   * is full, then append four vertices and six indices and count one quad.
   */
  function DrawQuad(f: Frame, transform: Mat4, color: Vec4, entityID: int): Frame
  {
    AppendQuad(Reserve(f, f.quads.indexCount >= MaxIndices), transform, color, entityID)
  }

  /** The write part of DrawQuad: four vertices, six indices, one more quad counted. */
  function AppendQuad(g: Frame, transform: Mat4, color: Vec4, entityID: int): Frame
  {
    g.(quads := Pending(g.quads.vertices + QuadVertices(transform, color, entityID), g.quads.indexCount + 6),
       stats := g.stats.(quadCount := Add32(g.stats.quadCount, 1)))
  }

  /**
   * DrawQuad writes exactly four vertices after the pending ones (after none
   * when the batch was full and restarted), adds six indices and counts one quad.
   */
  lemma DrawQuadAppends(f: Frame, transform: Mat4, color: Vec4, entityID: int)
    ensures DrawQuad(f, transform, color, entityID).quads.vertices ==
      (if f.quads.indexCount >= MaxIndices then [] else f.quads.vertices) + QuadVertices(transform, color, entityID)
    ensures DrawQuad(f, transform, color, entityID).quads.indexCount ==
      (if f.quads.indexCount >= MaxIndices then 0 else f.quads.indexCount) + 6
    ensures DrawQuad(f, transform, color, entityID).stats.quadCount == Add32(f.stats.quadCount, 1)
  {
    ReserveSpec(f, f.quads.indexCount >= MaxIndices);
  }

  /** Four more vertices and six more indices fit a consistent quad or circle batch that is not full. */
  lemma TrianglesAppendFour<V>(p: Pending<V>, vs: seq<V>)
    requires TrianglesConsistent(p) && p.indexCount < MaxIndices && |vs| == 4
    ensures TrianglesConsistent(Pending(p.vertices + vs, p.indexCount + 6))
  {
    var k := |p.vertices| / 4;
    assert |p.vertices| == 4 * k && p.indexCount == 6 * k;
  }

  /** DrawQuad keeps every batch consistent and counts in DrawCalls exactly the draws its overflow issues. */
  lemma DrawQuadKeeps(f: Frame, transform: Mat4, color: Vec4, entityID: int)
    ensures Consistent(f) ==> Consistent(DrawQuad(f, transform, color, entityID))
    ensures StatsTrackDraws(f, DrawQuad(f, transform, color, entityID))
  {
    var g := Reserve(f, f.quads.indexCount >= MaxIndices);
    ReserveSpec(f, f.quads.indexCount >= MaxIndices);
    if Consistent(f) {
      TrianglesAppendFour(g.quads, QuadVertices(transform, color, entityID));
    }
  }

  /**
   * DrawCircle: flush and restart when the circle batch is full, then append
   * four vertices and six indices and count one quad.
   */
  function DrawCircle(f: Frame, transform: Mat4, color: Vec4, thickness: real, fade: real, entityID: int): Frame
  {
    AppendCircle(Reserve(f, f.circles.indexCount >= MaxIndices), transform, color, thickness, fade, entityID)
  }

  /** The write part of DrawCircle: four vertices, six indices, one more quad counted. */
  function AppendCircle(g: Frame, transform: Mat4, color: Vec4, thickness: real, fade: real, entityID: int): Frame
  {
    g.(circles := Pending(g.circles.vertices + CircleVertices(transform, color, thickness, fade, entityID),
                          g.circles.indexCount + 6),
       stats := g.stats.(quadCount := Add32(g.stats.quadCount, 1)))
  }

  /**
   * DrawCircle writes exactly four vertices after the pending ones (after none
   * when the batch was full and restarted), adds six indices and counts one quad.
   */
  lemma DrawCircleAppends(f: Frame, transform: Mat4, color: Vec4, thickness: real, fade: real, entityID: int)
    ensures DrawCircle(f, transform, color, thickness, fade, entityID).circles.vertices ==
      (if f.circles.indexCount >= MaxIndices then [] else f.circles.vertices)
      + CircleVertices(transform, color, thickness, fade, entityID)
    ensures DrawCircle(f, transform, color, thickness, fade, entityID).circles.indexCount ==
      (if f.circles.indexCount >= MaxIndices then 0 else f.circles.indexCount) + 6
    ensures DrawCircle(f, transform, color, thickness, fade, entityID).stats.quadCount == Add32(f.stats.quadCount, 1)
  {
    ReserveSpec(f, f.circles.indexCount >= MaxIndices);
  }

  /** DrawCircle keeps every batch consistent and counts in DrawCalls exactly the draws its overflow issues. */
  lemma DrawCircleKeeps(f: Frame, transform: Mat4, color: Vec4, thickness: real, fade: real, entityID: int)
    ensures Consistent(f) ==> Consistent(DrawCircle(f, transform, color, thickness, fade, entityID))
    ensures StatsTrackDraws(f, DrawCircle(f, transform, color, thickness, fade, entityID))
  {
    var g := Reserve(f, f.circles.indexCount >= MaxIndices);
    ReserveSpec(f, f.circles.indexCount >= MaxIndices);
    if Consistent(f) {
      TrianglesAppendFour(g.circles, CircleVertices(transform, color, thickness, fade, entityID));
    }
  }

  /** The write part of DrawBoxCollider: four outline points and four indices; Stats untouched. */
  function AppendBoxOutline(g: Frame, transform: Mat4, color: Vec4, entityID: int): Frame
  {
    g.(boxColliders := Pending(g.boxColliders.vertices + BoxColliderVertices(transform, color, entityID),
                               g.boxColliders.indexCount + 4))
  }

  /** DrawBoxCollider: flush and restart when the box-collider batch is full, then write the outline. */
  function DrawBoxCollider(f: Frame, transform: Mat4, color: Vec4, entityID: int): Frame
  {
    AppendBoxOutline(Reserve(f, ColliderNeedsFlush(f.boxColliders.indexCount)), transform, color, entityID)
  }

  /**
   * DrawBoxCollider with the guard Renderer2D.cpp has: the batch is restarted
   * only at MaxIndices, so below that the four corners always go after the
   * pending ones, whatever the collider array holds.
   */
  function DrawBoxColliderAsWritten(f: Frame, transform: Mat4, color: Vec4, entityID: int): (r: Frame)
    ensures r.boxColliders.vertices ==
      (if f.boxColliders.indexCount >= MaxIndices then [] else f.boxColliders.vertices)
      + BoxColliderVertices(transform, color, entityID)
    ensures r.boxColliders.indexCount ==
      (if f.boxColliders.indexCount >= MaxIndices then 0 else f.boxColliders.indexCount) + 4
    ensures r.stats.quadCount == f.stats.quadCount
  {
    ReserveSpec(f, ColliderGuardAsWritten(f.boxColliders.indexCount));
    AppendBoxOutline(Reserve(f, ColliderGuardAsWritten(f.boxColliders.indexCount)), transform, color, entityID)
  }

  /**
   * DrawBoxCollider writes exactly four outline points after the pending ones
   * (after none when the batches were restarted), adds four indices and
   * leaves QuadCount as it is.
   */
  lemma DrawBoxColliderAppends(f: Frame, transform: Mat4, color: Vec4, entityID: int)
    ensures DrawBoxCollider(f, transform, color, entityID).boxColliders.vertices ==
      (if ColliderNeedsFlush(f.boxColliders.indexCount) then [] else f.boxColliders.vertices)
      + BoxColliderVertices(transform, color, entityID)
    ensures DrawBoxCollider(f, transform, color, entityID).boxColliders.indexCount ==
      (if ColliderNeedsFlush(f.boxColliders.indexCount) then 0 else f.boxColliders.indexCount) + 4
    ensures DrawBoxCollider(f, transform, color, entityID).stats.quadCount == f.stats.quadCount
  {
    ReserveSpec(f, ColliderNeedsFlush(f.boxColliders.indexCount));
  }

  /**
   * DrawBoxCollider keeps every batch consistent, in particular within the
   * 80000 entries of the collider array, and counts only the draws its
   * overflow issues.
   */
  lemma DrawBoxColliderKeeps(f: Frame, transform: Mat4, color: Vec4, entityID: int)
    ensures Consistent(f) ==> Consistent(DrawBoxCollider(f, transform, color, entityID))
    ensures StatsTrackDraws(f, DrawBoxCollider(f, transform, color, entityID))
  {
    ReserveSpec(f, ColliderNeedsFlush(f.boxColliders.indexCount));
  }

  /** The write part of DrawCircleCollider: 32 outline points and 32 indices; Stats untouched. */
  function AppendCircleOutline(g: Frame, transform: Mat4, color: Vec4, entityID: int): Frame
  {
    g.(circleColliders := Pending(g.circleColliders.vertices + CircleColliderVertices(transform, color, entityID),
                                  g.circleColliders.indexCount + CircleSegments))
  }

  /** DrawCircleCollider: flush and restart when the circle-collider batch is full, then write the outline. */
  function DrawCircleCollider(f: Frame, transform: Mat4, color: Vec4, entityID: int): Frame
  {
    AppendCircleOutline(Reserve(f, ColliderNeedsFlush(f.circleColliders.indexCount)), transform, color, entityID)
  }

  /**
   * DrawCircleCollider with the guard Renderer2D.cpp has: the batch is
   * restarted only at MaxIndices, so below that the 32 outline points always
   * go after the pending ones.
   */
  function DrawCircleColliderAsWritten(f: Frame, transform: Mat4, color: Vec4, entityID: int): (r: Frame)
    ensures r.circleColliders.vertices ==
      (if f.circleColliders.indexCount >= MaxIndices then [] else f.circleColliders.vertices)
      + CircleColliderVertices(transform, color, entityID)
    ensures r.circleColliders.indexCount ==
      (if f.circleColliders.indexCount >= MaxIndices then 0 else f.circleColliders.indexCount) + CircleSegments
    ensures r.stats.quadCount == f.stats.quadCount
  {
    ReserveSpec(f, ColliderGuardAsWritten(f.circleColliders.indexCount));
    AppendCircleOutline(Reserve(f, ColliderGuardAsWritten(f.circleColliders.indexCount)), transform, color, entityID)
  }

  /**
   * DrawCircleCollider writes exactly 32 outline points after the pending ones
   * (after none when the batches were restarted), adds 32 indices and leaves
   * QuadCount as it is.
   */
  lemma DrawCircleColliderAppends(f: Frame, transform: Mat4, color: Vec4, entityID: int)
    ensures DrawCircleCollider(f, transform, color, entityID).circleColliders.vertices ==
      (if ColliderNeedsFlush(f.circleColliders.indexCount) then [] else f.circleColliders.vertices)
      + CircleColliderVertices(transform, color, entityID)
    ensures DrawCircleCollider(f, transform, color, entityID).circleColliders.indexCount ==
      (if ColliderNeedsFlush(f.circleColliders.indexCount) then 0 else f.circleColliders.indexCount) + CircleSegments
    ensures DrawCircleCollider(f, transform, color, entityID).stats.quadCount == f.stats.quadCount
  {
    ReserveSpec(f, ColliderNeedsFlush(f.circleColliders.indexCount));
  }

  /**
   * DrawCircleCollider keeps every batch consistent, in particular within the
   * 80000 entries of the collider array, and counts only the draws its
   * overflow issues.
   */
  lemma DrawCircleColliderKeeps(f: Frame, transform: Mat4, color: Vec4, entityID: int)
    ensures Consistent(f) ==> Consistent(DrawCircleCollider(f, transform, color, entityID))
    ensures StatsTrackDraws(f, DrawCircleCollider(f, transform, color, entityID))
  {
    ReserveSpec(f, ColliderNeedsFlush(f.circleColliders.indexCount));
  }

  /** DrawSprite: DrawQuad with the sprite's colour. */
  function DrawSprite(f: Frame, transform: Mat4, colour: Vec4, entityID: int): Frame
  {
    DrawQuad(f, transform, colour, entityID)
  }

  /** The transform DrawQuad(position, size, color) builds: translate(position) * scale(size, 1). */
  function PlacedQuad(position: Vec3, size: Vec2): Mat4
  {
    Product(Translation(position), Scaling(Vec3(size.x, size.y, 1.0)))
  }

  /** The transform DrawRotatedQuad builds: translate(position) * rotateZ(radians(zRotation)) * scale(size, 1). */
  function RotatedQuad(position: Vec3, size: Vec2, zRotation: real): Mat4
  {
    Product(Product(Translation(position), RotationZ(zRotation)), Scaling(Vec3(size.x, size.y, 1.0)))
  }

  // ===========================================================================
  // Sequences the properties are stated with

  /** k copies of x. */
  function Repeat(x: nat, k: nat): seq<nat>
  {
    if k == 0 then [] else [x] + Repeat(x, k - 1)
  }

  function Sum(s: seq<nat>): nat
  {
    if s == [] then 0 else s[0] + Sum(s[1..])
  }

  lemma {:induction false} RepeatFacts(x: nat, k: nat)
    ensures |Repeat(x, k)| == k
    ensures forall i :: 0 <= i < k ==> Repeat(x, k)[i] == x
  {
    if k > 0 {
      RepeatFacts(x, k - 1);
    }
  }

  lemma {:induction false} SumAppend(a: seq<nat>, b: seq<nat>)
    ensures Sum(a + b) == Sum(a) + Sum(b)
  {
    if a == [] {
      assert a + b == b;
    } else {
      assert (a + b)[0] == a[0];
      assert (a + b)[1..] == a[1..] + b;
      SumAppend(a[1..], b);
    }
  }

  lemma {:induction false} SumRepeat(x: nat, k: nat)
    ensures Sum(Repeat(x, k)) == k * x
  {
    if k > 0 {
      SumRepeat(x, k - 1);
      assert (k - 1) * x + x == k * x;
    }
  }

  /** The values of `for (i = first; i < count; i += step)` when the distance is m whole steps. */
  lemma {:induction false} StridedLength(first: nat, count: nat, step: nat, m: nat)
    requires step > 0 && count == first + m * step
    ensures |Strided(first, count, step)| == m
    decreases m
  {
    if m > 0 {
      assert (m - 1) * step + step == m * step;
      StridedLength(first + step, count, step, m - 1);
    }
  }

  lemma {:induction false} StridedElements(first: nat, count: nat, step: nat, m: nat)
    requires step > 0 && count == first + m * step
    ensures forall j :: 0 <= j < |Strided(first, count, step)| ==> Strided(first, count, step)[j] == first + j * step
    decreases m
  {
    if m > 0 {
      assert (m - 1) * step + step == m * step;
      StridedElements(first + step, count, step, m - 1);
      forall j | 0 < j < |Strided(first, count, step)|
        ensures Strided(first, count, step)[j] == first + j * step
      {
        assert Strided(first, count, step)[j] == Strided(first + step, count, step)[j - 1];
        assert (j - 1) * step + step == j * step;
      }
    }
  }

  // ===========================================================================
  // Collider outlines and the end of a scene

  lemma {:induction false} LineLoopsTrace(b: BatchKind, first: nat, count: nat, step: nat, b': BatchKind, aspect: Aspect)
    requires step > 0
    ensures Trace(LineLoops(b, first, count, step), b', aspect) ==
      if b' == b && aspect == LineLoopStarts then Strided(first, count, step)
      else if b' == b && aspect == LineLoopLengths then Repeat(step, |Strided(first, count, step)|)
      else []
    decreases count - first
  {
    if first < count {
      LineLoopsTrace(b, first + step, count, step, b', aspect);
      TraceAppend([DrawLineLoop(b, first, step)], LineLoops(b, first + step, count, step), b', aspect);
      TraceSingle(DrawLineLoop(b, first, step), b', aspect);
      assert Strided(first, count, step) == [first] + Strided(first + step, count, step);
      assert Repeat(step, |Strided(first, count, step)|) == [step] + Repeat(step, |Strided(first + step, count, step)|);
    }
  }

  lemma OutlineCallsTrace(b: BatchKind, bytes: nat, count: nat, step: nat, b': BatchKind, aspect: Aspect)
    requires step > 0
    ensures Trace(OutlineCalls(b, bytes, count, step), b', aspect) ==
      (if b' == b && aspect == UploadBytes then [bytes] else [])
      + Trace(LineLoops(b, 0, count, step), b', aspect)
  {
    TraceAppend([UploadVertices(b, bytes)], LineLoops(b, 0, count, step), b', aspect);
    TraceSingle(UploadVertices(b, bytes), b', aspect);
  }

  /** What the outline pass of one collider batch shows on batch `b'` through `aspect`. */
  function OutlineTrace(p: Pending<ColliderVertex>, own: BatchKind, step: nat, b': BatchKind, aspect: Aspect): seq<nat>
    requires step > 0
  {
    if b' != own then []
    else if aspect == UploadBytes then (if p.indexCount > 0 then [|p.vertices| * ColliderVertexSize] else [])
    else if aspect == LineLoopStarts then Strided(0, p.indexCount, step)
    else if aspect == LineLoopLengths then Repeat(step, |Strided(0, p.indexCount, step)|)
    else []
  }

  lemma BoxOutlineTrace(f: Frame, b': BatchKind, aspect: Aspect)
    ensures Trace(BoxOutlineCalls(f), b', aspect) == OutlineTrace(f.boxColliders, BoxColliderBatch, 4, b', aspect)
  {
    if f.boxColliders.indexCount > 0 {
      OutlineCallsTrace(BoxColliderBatch, |f.boxColliders.vertices| * ColliderVertexSize,
                        f.boxColliders.indexCount, 4, b', aspect);
      LineLoopsTrace(BoxColliderBatch, 0, f.boxColliders.indexCount, 4, b', aspect);
    }
  }

  lemma CircleOutlineTrace(f: Frame, b': BatchKind, aspect: Aspect)
    ensures Trace(CircleOutlineCalls(f), b', aspect) == OutlineTrace(f.circleColliders, CircleColliderBatch, 32, b', aspect)
  {
    if f.circleColliders.indexCount > 0 {
      OutlineCallsTrace(CircleColliderBatch, |f.circleColliders.vertices| * ColliderVertexSize,
                        f.circleColliders.indexCount, 32, b', aspect);
      LineLoopsTrace(CircleColliderBatch, 0, f.circleColliders.indexCount, 32, b', aspect);
    }
  }

  lemma ColliderDebugTrace(f: Frame, b: BatchKind, aspect: Aspect)
    ensures Trace(RenderColliderDebug(f).calls, b, aspect) == Trace(f.calls, b, aspect)
      + OutlineTrace(f.boxColliders, BoxColliderBatch, 4, b, aspect)
      + OutlineTrace(f.circleColliders, CircleColliderBatch, 32, b, aspect)
  {
    BoxOutlineTrace(f, b, aspect);
    CircleOutlineTrace(f, b, aspect);
    if !(f.boxColliders.indexCount == 0 && f.circleColliders.indexCount == 0) {
      TraceAppend(f.calls, BoxOutlineCalls(f), b, aspect);
      TraceAppend(f.calls + BoxOutlineCalls(f), CircleOutlineCalls(f), b, aspect);
    }
  }

  /** The outline loops of a whole number of `step`-point outlines start at 0, step, 2 * step, ... */
  lemma OutlineStarts(count: nat, step: nat)
    requires step > 0 && count % step == 0
    ensures |Strided(0, count, step)| == count / step
    ensures forall j :: 0 <= j < count / step ==> Strided(0, count, step)[j] == j * step
  {
    OutlineCount(count, step);
    StridedElements(0, count, step, count / step);
  }

  lemma OutlineCount(count: nat, step: nat)
    requires step > 0 && count % step == 0
    ensures |Strided(0, count, step)| == count / step
  {
    StridedLength(0, count, step, count / step);
  }

  /**
   * RenderColliderDebug changes nothing but the call log, issues nothing when
   * both collider batches are empty, uploads base..cursor of each non-empty
   * collider batch, and issues no triangle draw.
   */
  lemma ColliderDebugUploads(f: Frame)
    ensures RenderColliderDebug(f) == f.(calls := RenderColliderDebug(f).calls)
    ensures f.boxColliders.indexCount == 0 && f.circleColliders.indexCount == 0 ==> RenderColliderDebug(f) == f
    ensures Trace(RenderColliderDebug(f).calls, BoxColliderBatch, UploadBytes) == Trace(f.calls, BoxColliderBatch, UploadBytes)
      + (if f.boxColliders.indexCount > 0 then [|f.boxColliders.vertices| * ColliderVertexSize] else [])
    ensures Trace(RenderColliderDebug(f).calls, CircleColliderBatch, UploadBytes) == Trace(f.calls, CircleColliderBatch, UploadBytes)
      + (if f.circleColliders.indexCount > 0 then [|f.circleColliders.vertices| * ColliderVertexSize] else [])
    ensures forall b :: DrawSizes(RenderColliderDebug(f).calls, b) == DrawSizes(f.calls, b)
  {
    ColliderDebugTrace(f, BoxColliderBatch, UploadBytes);
    ColliderDebugTrace(f, CircleColliderBatch, UploadBytes);
    forall b
      ensures DrawSizes(RenderColliderDebug(f).calls, b) == DrawSizes(f.calls, b)
    {
      ColliderDebugTrace(f, b, TriangleDraws);
    }
  }

  /** RenderColliderDebug issues one line loop per box outline, starting at 0, 4, 8, ... */
  lemma ColliderDebugBoxStarts(f: Frame)
    ensures Trace(RenderColliderDebug(f).calls, BoxColliderBatch, LineLoopStarts) ==
      Trace(f.calls, BoxColliderBatch, LineLoopStarts) + Strided(0, f.boxColliders.indexCount, 4)
  {
    ColliderDebugTrace(f, BoxColliderBatch, LineLoopStarts);
  }

  /** Each line loop of a box outline joins 4 points. */
  lemma ColliderDebugBoxLengths(f: Frame)
    requires f.boxColliders.indexCount % 4 == 0
    ensures Trace(RenderColliderDebug(f).calls, BoxColliderBatch, LineLoopLengths) ==
      Trace(f.calls, BoxColliderBatch, LineLoopLengths) + Repeat(4, f.boxColliders.indexCount / 4)
  {
    OutlineCount(f.boxColliders.indexCount, 4);
    ColliderDebugTrace(f, BoxColliderBatch, LineLoopLengths);
  }

  /** RenderColliderDebug issues one line loop per circle outline, starting at 0, 32, 64, ... */
  lemma ColliderDebugCircleStarts(f: Frame)
    ensures Trace(RenderColliderDebug(f).calls, CircleColliderBatch, LineLoopStarts) ==
      Trace(f.calls, CircleColliderBatch, LineLoopStarts) + Strided(0, f.circleColliders.indexCount, 32)
  {
    ColliderDebugTrace(f, CircleColliderBatch, LineLoopStarts);
  }

  /** Each line loop of a circle outline joins 32 points. */
  lemma ColliderDebugCircleLengths(f: Frame)
    requires f.circleColliders.indexCount % 32 == 0
    ensures Trace(RenderColliderDebug(f).calls, CircleColliderBatch, LineLoopLengths) ==
      Trace(f.calls, CircleColliderBatch, LineLoopLengths) + Repeat(32, f.circleColliders.indexCount / 32)
  {
    OutlineCount(f.circleColliders.indexCount, 32);
    ColliderDebugTrace(f, CircleColliderBatch, LineLoopLengths);
  }

  /**
   * EndScene draws the pending quads and circles once each (when there are any)
   * and then the collider outlines, counts only the triangle draws in DrawCalls,
   * and resets nothing: the batches keep their contents until the next BeginScene.
   */
  lemma EndSceneDraws(f: Frame)
    ensures EndScene(f).quads == f.quads && EndScene(f).circles == f.circles
    ensures EndScene(f).boxColliders == f.boxColliders && EndScene(f).circleColliders == f.circleColliders
    ensures DrawSizes(EndScene(f).calls, QuadBatch) == DrawSizes(f.calls, QuadBatch)
      + (if f.quads.indexCount > 0 then [f.quads.indexCount] else [])
    ensures DrawSizes(EndScene(f).calls, CircleBatch) == DrawSizes(f.calls, CircleBatch)
      + (if f.circles.indexCount > 0 then [f.circles.indexCount] else [])
    ensures Trace(EndScene(f).calls, BoxColliderBatch, LineLoopStarts) ==
      Trace(f.calls, BoxColliderBatch, LineLoopStarts) + Strided(0, f.boxColliders.indexCount, 4)
    ensures Trace(EndScene(f).calls, CircleColliderBatch, LineLoopStarts) ==
      Trace(f.calls, CircleColliderBatch, LineLoopStarts) + Strided(0, f.circleColliders.indexCount, 32)
    ensures StatsTrackDraws(f, EndScene(f)) && EndScene(f).stats.quadCount == f.stats.quadCount
  {
    var g := Flush(f);
    FlushSpec(f);
    ColliderDebugUploads(g);
    ColliderDebugBoxStarts(g);
    ColliderDebugCircleStarts(g);
    StatsTrackTransitive(f, g, EndScene(f));
  }
}
