/**
 * Renderer2D.cpp over Renderer2DData.h: the renderer's global state as a
 * class whose fields are the members of Renderer2DData, with the four CPU
 * vertex arrays as Dafny arrays and each write pointer as an offset from its
 * array's base. Every operation is proved to move the state exactly as the
 * matching function of BatchModel moves the abstract Frame, so the theorems
 * proved there (and in BatchTheorems) hold of this code.
 */
module Renderer2D {
  import opened Geometry
  import opened Renderer2DTypes
  import opened BatchModel
  import opened Components

  /**
   * The index-generation loop of Init: for each quad, two triangles 0-1-2
   * and 2-3-0 over its four vertices.
   */
  method GenerateQuadIndices() returns (quadIndices: array<nat>)
    ensures quadIndices.Length == MaxIndices
    ensures quadIndices[..] == QuadIndexPattern()
  {
    quadIndices := new nat[MaxIndices];
    var k := 0;
    while k < MaxQuads
      invariant k <= MaxQuads
      invariant forall j :: 0 <= j < 6 * k ==> quadIndices[j] == QuadIndexEntry(j)
    {
      WriteQuadIndices(quadIndices, k);
      k := k + 1;
    }
  }

  /** One turn of GenerateQuadIndices: the six indices of quad k, written at 6k .. 6k+5. */
  method WriteQuadIndices(a: array<nat>, k: nat)
    requires 6 * k + 6 <= a.Length
    modifies a
    ensures forall j :: 0 <= j < 6 * k ==> a[j] == old(a[j])
    ensures forall j :: 6 * k <= j < 6 * k + 6 ==> a[j] == QuadIndexEntry(j)
  {
    QuadIndexEntries(k);
    var offset := 4 * k;
    a[6 * k + 0] := offset + 0;
    a[6 * k + 1] := offset + 1;
    a[6 * k + 2] := offset + 2;
    a[6 * k + 3] := offset + 2;
    a[6 * k + 4] := offset + 3;
    a[6 * k + 5] := offset + 0;
  }

  /** The vertex loop of DrawQuad: four vertices written from `at` on, nothing else touched. */
  method WriteQuadVertices(a: array<QuadVertex>, at: nat, transform: Mat4, color: Vec4, entityID: int)
    requires at + QuadVertexCount <= a.Length
    modifies a
    ensures a[..at + QuadVertexCount] == old(a[..at]) + QuadVertices(transform, color, entityID)
  {
    var i := 0;
    while i < QuadVertexCount
      invariant 0 <= i <= QuadVertexCount
      invariant a[..at + i] == old(a[..at]) + QuadVertices(transform, color, entityID)[..i]
    {
      a[at + i] := QuadVertexAt(transform, color, entityID, i);
      i := i + 1;
    }
    assert QuadVertices(transform, color, entityID)[..QuadVertexCount] == QuadVertices(transform, color, entityID);
  }

  /** The vertex loop of DrawCircle. */
  method WriteCircleVertices(a: array<CircleVertex>, at: nat, transform: Mat4, color: Vec4,
                             thickness: real, fade: real, entityID: int)
    requires at + 4 <= a.Length
    modifies a
    ensures a[..at + 4] == old(a[..at]) + CircleVertices(transform, color, thickness, fade, entityID)
  {
    var i := 0;
    while i < 4
      invariant 0 <= i <= 4
      invariant a[..at + i] == old(a[..at]) + CircleVertices(transform, color, thickness, fade, entityID)[..i]
    {
      a[at + i] := CircleVertexAt(transform, color, thickness, fade, entityID, i);
      i := i + 1;
    }
    assert CircleVertices(transform, color, thickness, fade, entityID)[..4] == CircleVertices(transform, color, thickness, fade, entityID);
  }

  /** The vertex loop of DrawBoxCollider: the four corners. */
  method WriteBoxColliderVertices(a: array<ColliderVertex>, at: nat, transform: Mat4, color: Vec4, entityID: int)
    requires at + 4 <= a.Length
    modifies a
    ensures a[..at + 4] == old(a[..at]) + BoxColliderVertices(transform, color, entityID)
  {
    var i := 0;
    while i < 4
      invariant 0 <= i <= 4
      invariant a[..at + i] == old(a[..at]) + BoxColliderVertices(transform, color, entityID)[..i]
    {
      a[at + i] := BoxColliderVertexAt(transform, color, entityID, i);
      i := i + 1;
    }
    assert BoxColliderVertices(transform, color, entityID)[..4] == BoxColliderVertices(transform, color, entityID);
  }

  /** The vertex loop of DrawCircleCollider: 32 points round the unit circle. */
  method WriteCircleColliderVertices(a: array<ColliderVertex>, at: nat, transform: Mat4, color: Vec4, entityID: int)
    requires at + CircleSegments <= a.Length
    modifies a
    ensures a[..at + CircleSegments] == old(a[..at]) + CircleColliderVertices(transform, color, entityID)
  {
    var i := 0;
    while i < CircleSegments
      invariant 0 <= i <= CircleSegments
      invariant a[..at + i] == old(a[..at]) + CircleColliderVertices(transform, color, entityID)[..i]
    {
      a[at + i] := CircleColliderVertexAt(transform, color, entityID, i);
      i := i + 1;
    }
    assert CircleColliderVertices(transform, color, entityID)[..CircleSegments] == CircleColliderVertices(transform, color, entityID);
  }

  /** The loop of RenderColliderDebug over one collider batch: a line loop of `step` points every `step` indices. */
  method IssueLineLoops(b: BatchKind, indexCount: nat, step: nat) returns (issued: seq<GpuCall>)
    requires step > 0
    ensures issued == LineLoops(b, 0, indexCount, step)
  {
    issued := [];
    var i: nat := 0;
    while i < indexCount
      invariant issued + LineLoops(b, i, indexCount, step) == LineLoops(b, 0, indexCount, step)
      decreases indexCount - i
    {
      issued := issued + [DrawLineLoop(b, i, step)];
      i := i + step;
    }
  }

  /**
   * Where one batch stands: its index count (…IndexCount) and how many
   * vertices its write pointer (…VertexBufferPtr) is past the array's base.
   */
  datatype BatchPosition = BatchPosition(indexCount: nat, offset: nat)

  /** What StartBatch sets each batch to: no indices, pointer at the base. */
  const Rewound: BatchPosition := BatchPosition(0, 0)

  class Renderer2D {
    /** The four CPU vertex arrays (…VertexBufferBase); null until Init. */
    var quadVertexBase: array?<QuadVertex>
    var circleVertexBase: array?<CircleVertex>
    var boxColliderVertexBase: array?<ColliderVertex>
    var circleColliderVertexBase: array?<ColliderVertex>

    /** Index count and write pointer of each batch. */
    var quad: BatchPosition
    var circle: BatchPosition
    var boxCollider: BatchPosition
    var circleCollider: BatchPosition

    /** The write pointers are null until the first StartBatch sets them to the bases. */
    var cursorsSet: bool

    /** CameraBuffer.ViewProjection */
    var viewProjection: Mat4
    var stats: Statistics

    /** The graphics calls issued so far. */
    ghost var calls: seq<GpuCall>

    ghost var Repr: set<object>

    /** The member initialisers: no arrays, null pointers, zero counts. */
    ghost predicate Uninitialised()
      reads this
    {
      && quadVertexBase == null && circleVertexBase == null
      && boxColliderVertexBase == null && circleColliderVertexBase == null
      && !cursorsSet
      && quad == Rewound && circle == Rewound && boxCollider == Rewound && circleCollider == Rewound
    }

    /** Init has allocated the four arrays of MaxVertices entries; every write pointer lies within its array. */
    ghost predicate Initialised()
      reads this
    {
      && quadVertexBase != null && circleVertexBase != null
      && boxColliderVertexBase != null && circleColliderVertexBase != null
      && quadVertexBase.Length == MaxVertices && circleVertexBase.Length == MaxVertices
      && boxColliderVertexBase.Length == MaxVertices && circleColliderVertexBase.Length == MaxVertices
      && boxColliderVertexBase != circleColliderVertexBase
      && quad.offset <= MaxVertices && circle.offset <= MaxVertices
      && boxCollider.offset <= MaxVertices && circleCollider.offset <= MaxVertices
      && this in Repr && quadVertexBase in Repr && circleVertexBase in Repr
      && boxColliderVertexBase in Repr && circleColliderVertexBase in Repr
    }

    /** The state as a Frame: each batch is what lies between its base and its write pointer. */
    ghost function Model(): Frame
      reads this, Repr
      requires Initialised()
    {
      Frame(
        Pending(quadVertexBase[..quad.offset], quad.indexCount),
        Pending(circleVertexBase[..circle.offset], circle.indexCount),
        Pending(boxColliderVertexBase[..boxCollider.offset], boxCollider.indexCount),
        Pending(circleColliderVertexBase[..circleCollider.offset], circleCollider.indexCount),
        viewProjection, stats, calls)
    }

    /**
     * Write pointer and index count agree in every batch: four vertices per
     * six indices for quads and circles, one index per vertex for the collider
     * outlines, whole primitives only, within capacity.
     */
    ghost predicate CountsAgree()
      reads this
    {
      && quad.offset % 4 == 0 && 2 * quad.indexCount == 3 * quad.offset && quad.indexCount <= MaxIndices
      && circle.offset % 4 == 0 && 2 * circle.indexCount == 3 * circle.offset && circle.indexCount <= MaxIndices
      && boxCollider.offset % 4 == 0 && boxCollider.indexCount == boxCollider.offset <= MaxVertices
      && circleCollider.offset % 32 == 0 && circleCollider.indexCount == circleCollider.offset <= MaxVertices
    }

    /** CountsAgree is BatchModel.Consistent read off the fields. */
    lemma ModelConsistent()
      requires Initialised()
      ensures Consistent(Model()) <==> CountsAgree()
    {
    }

    /**
     * Initialised, every batch consistent, and no pending data while the
     * pointers are still null.
     */
    ghost predicate Valid()
      reads this, Repr
    {
      && Initialised()
      && CountsAgree()
      && (!cursorsSet ==> quad == Rewound && circle == Rewound && boxCollider == Rewound && circleCollider == Rewound)
    }

    /** The static s_Data before Init: the member initialisers of Renderer2DData and Statistics. */
    constructor ()
      ensures Uninitialised()
      ensures stats == ZeroStatistics && calls == []
    {
      quadVertexBase, circleVertexBase := null, null;
      boxColliderVertexBase, circleColliderVertexBase := null, null;
      quad, circle, boxCollider, circleCollider := Rewound, Rewound, Rewound, Rewound;
      cursorsSet := false;
      stats := ZeroStatistics;
      calls := [];
    }

    /**
     * Init: allocate the four vertex arrays and create the shared index
     * buffer from the generated pattern. The write pointers stay null.
     */
    method Init()
      requires Uninitialised()
      modifies this
      ensures Valid() && !cursorsSet && fresh(Repr - {this})
      ensures Model() == Frame(Pending([], 0), Pending([], 0), Pending([], 0), Pending([], 0),
                               old(viewProjection), old(stats), old(calls) + [CreateIndexBuffer(QuadIndexPattern())])
    {
      var quadIndices := GenerateQuadIndices();
      var quads := new QuadVertex[MaxVertices];
      var circles := new CircleVertex[MaxVertices];
      var boxes := new ColliderVertex[MaxVertices];
      var rings := new ColliderVertex[MaxVertices];
      quadVertexBase, circleVertexBase, boxColliderVertexBase, circleColliderVertexBase := quads, circles, boxes, rings;
      calls := calls + [CreateIndexBuffer(quadIndices[..])];
      Repr := {this, quads, circles, boxes, rings};
    }

    method StartBatch()
      requires Valid()
      modifies this
      ensures Valid() && cursorsSet && Repr == old(Repr)
      ensures Model() == BatchModel.StartBatch(old(Model()))
    {
      quad := Rewound;
      circle := Rewound;
      boxCollider := Rewound;
      circleCollider := Rewound;
      cursorsSet := true;
    }

    method Flush()
      requires Valid()
      modifies this
      ensures Valid() && cursorsSet == old(cursorsSet) && Repr == old(Repr)
      ensures Model() == BatchModel.Flush(old(Model()))
    {
      if quad.indexCount > 0 {
        var dataSize := quad.offset * QuadVertexSize;
        calls := calls + FlushCalls(QuadBatch, dataSize, quad.indexCount);
        stats := stats.(drawCalls := Add32(stats.drawCalls, 1));
      }
      if circle.indexCount > 0 {
        var dataSize := circle.offset * CircleVertexSize;
        calls := calls + FlushCalls(CircleBatch, dataSize, circle.indexCount);
        stats := stats.(drawCalls := Add32(stats.drawCalls, 1));
      }
    }

    method RenderColliderDebug()
      requires Valid()
      modifies this
      ensures Valid() && cursorsSet == old(cursorsSet) && Repr == old(Repr)
      ensures Model() == BatchModel.RenderColliderDebug(old(Model()))
    {
      ghost var f := Model();
      if boxCollider.indexCount == 0 && circleCollider.indexCount == 0 {
        return;
      }
      assert |f.boxColliders.vertices| == boxCollider.offset && |f.circleColliders.vertices| == circleCollider.offset;
      if boxCollider.indexCount > 0 {
        var dataSize := boxCollider.offset * ColliderVertexSize;
        calls := calls + [UploadVertices(BoxColliderBatch, dataSize)];
        var lineLoops := IssueLineLoops(BoxColliderBatch, boxCollider.indexCount, 4);
        calls := calls + lineLoops;
      }
      assert calls == f.calls + BoxOutlineCalls(f);
      if circleCollider.indexCount > 0 {
        var dataSize := circleCollider.offset * ColliderVertexSize;
        calls := calls + [UploadVertices(CircleColliderBatch, dataSize)];
        var lineLoops := IssueLineLoops(CircleColliderBatch, circleCollider.indexCount, CircleSegments);
        calls := calls + lineLoops;
      }
      assert calls == f.calls + BoxOutlineCalls(f) + CircleOutlineCalls(f);
    }

    method NextBatch()
      requires Valid()
      modifies this
      ensures Valid() && cursorsSet && Repr == old(Repr)
      ensures Model() == BatchModel.NextBatch(old(Model()))
    {
      Flush();
      StartBatch();
    }

    /** BeginScene(camera, transform): the view-projection is projection * inverse(transform). */
    method BeginScene(projection: Mat4, transform: Mat4)
      requires Valid()
      modifies this
      ensures Valid() && cursorsSet && Repr == old(Repr)
      ensures Model() == BatchModel.BeginScene(old(Model()), Product(projection, Inverse(transform)))
    {
      viewProjection := Product(projection, Inverse(transform));
      calls := calls + [UploadCamera(viewProjection)];
      StartBatch();
    }

    /** BeginScene(editorCamera): the editor camera's own view-projection. */
    method BeginEditorScene(cameraViewProjection: Mat4)
      requires Valid()
      modifies this
      ensures Valid() && cursorsSet && Repr == old(Repr)
      ensures Model() == BatchModel.BeginScene(old(Model()), cameraViewProjection)
    {
      viewProjection := cameraViewProjection;
      calls := calls + [UploadCamera(viewProjection)];
      StartBatch();
    }

    method EndScene()
      requires Valid()
      modifies this
      ensures Valid() && cursorsSet == old(cursorsSet) && Repr == old(Repr)
      ensures Model() == BatchModel.EndScene(old(Model()))
    {
      Flush();
      RenderColliderDebug();
    }

    /** DrawQuad(transform, color, entityID): the entry point every quad overload ends in. */
    method DrawQuad(transform: Mat4, color: Vec4, entityID: int)
      requires Valid() && cursorsSet
      modifies Repr
      ensures Valid() && cursorsSet && Repr == old(Repr)
      ensures Model() == BatchModel.DrawQuad(old(Model()), transform, color, entityID)
    {
      if quad.indexCount >= MaxIndices {
        NextBatch();
      }
      AppendQuad(transform, color, entityID);
    }

    /** The loop of DrawQuad and the two counters after it. */
    method AppendQuad(transform: Mat4, color: Vec4, entityID: int)
      requires Valid() && cursorsSet && quad.indexCount < MaxIndices
      modifies this, quadVertexBase
      ensures Valid() && cursorsSet && Repr == old(Repr)
      ensures Model() == BatchModel.AppendQuad(old(Model()), transform, color, entityID)
    {
      WriteQuadVertices(quadVertexBase, quad.offset, transform, color, entityID);
      quad := BatchPosition(quad.indexCount + 6, quad.offset + QuadVertexCount);
      stats := stats.(quadCount := Add32(stats.quadCount, 1));
    }

    /** DrawQuad(position, size, color) with a 3D position: translate(position) * scale(size, 1), entity ID -1. */
    method DrawQuadAt(position: Vec3, size: Vec2, color: Vec4)
      requires Valid() && cursorsSet
      modifies Repr
      ensures Valid() && cursorsSet && Repr == old(Repr)
      ensures Model() == BatchModel.DrawQuad(old(Model()), PlacedQuad(position, size), color, DefaultEntityID)
    {
      var transform := Product(Translation(position), Scaling(Vec3(size.x, size.y, 1.0)));
      DrawQuad(transform, color, DefaultEntityID);
    }

    /** DrawQuad(position, size, color) with a 2D position: z is 0. */
    method DrawQuadAtXY(position: Vec2, size: Vec2, color: Vec4)
      requires Valid() && cursorsSet
      modifies Repr
      ensures Valid() && cursorsSet && Repr == old(Repr)
      ensures Model() == BatchModel.DrawQuad(old(Model()), PlacedQuad(Vec3(position.x, position.y, 0.0), size),
                                             color, DefaultEntityID)
    {
      DrawQuadAt(Vec3(position.x, position.y, 0.0), size, color);
    }

    /** DrawRotatedQuad with a 3D position: translate * rotate about z * scale, entity ID -1. */
    method DrawRotatedQuad(position: Vec3, size: Vec2, zRotation: real, color: Vec4)
      requires Valid() && cursorsSet
      modifies Repr
      ensures Valid() && cursorsSet && Repr == old(Repr)
      ensures Model() == BatchModel.DrawQuad(old(Model()), RotatedQuad(position, size, zRotation), color, DefaultEntityID)
    {
      var transform := Product(Product(Translation(position), RotationZ(zRotation)), Scaling(Vec3(size.x, size.y, 1.0)));
      DrawQuad(transform, color, DefaultEntityID);
    }

    /** DrawRotatedQuad with a 2D position: z is 0. */
    method DrawRotatedQuadXY(position: Vec2, size: Vec2, zRotation: real, color: Vec4)
      requires Valid() && cursorsSet
      modifies Repr
      ensures Valid() && cursorsSet && Repr == old(Repr)
      ensures Model() == BatchModel.DrawQuad(old(Model()), RotatedQuad(Vec3(position.x, position.y, 0.0), size, zRotation),
                                             color, DefaultEntityID)
    {
      DrawRotatedQuad(Vec3(position.x, position.y, 0.0), size, zRotation, color);
    }

    method DrawCircle(transform: Mat4, color: Vec4, thickness: real, fade: real, entityID: int)
      requires Valid() && cursorsSet
      modifies Repr
      ensures Valid() && cursorsSet && Repr == old(Repr)
      ensures Model() == BatchModel.DrawCircle(old(Model()), transform, color, thickness, fade, entityID)
    {
      if circle.indexCount >= MaxIndices {
        NextBatch();
      }
      AppendCircle(transform, color, thickness, fade, entityID);
    }

    /** The loop of DrawCircle and the two counters after it. */
    method AppendCircle(transform: Mat4, color: Vec4, thickness: real, fade: real, entityID: int)
      requires Valid() && cursorsSet && circle.indexCount < MaxIndices
      modifies this, circleVertexBase
      ensures Valid() && cursorsSet && Repr == old(Repr)
      ensures Model() == BatchModel.AppendCircle(old(Model()), transform, color, thickness, fade, entityID)
    {
      WriteCircleVertices(circleVertexBase, circle.offset, transform, color, thickness, fade, entityID);
      circle := BatchPosition(circle.indexCount + 6, circle.offset + QuadVertexCount);
      stats := stats.(quadCount := Add32(stats.quadCount, 1));
    }

    /** DrawBoxCollider, with the overflow test against the vertex capacity of the collider array. */
    method DrawBoxCollider(transform: Mat4, color: Vec4, entityID: int)
      requires Valid() && cursorsSet
      modifies Repr
      ensures Valid() && cursorsSet && Repr == old(Repr)
      ensures Model() == BatchModel.DrawBoxCollider(old(Model()), transform, color, entityID)
    {
      if boxCollider.indexCount >= MaxVertices {
        NextBatch();
      }
      AppendBoxOutline(transform, color, entityID);
    }

    /** The loop of DrawBoxCollider and the index count after it. */
    method AppendBoxOutline(transform: Mat4, color: Vec4, entityID: int)
      requires Valid() && cursorsSet && boxCollider.indexCount < MaxVertices
      modifies this, boxColliderVertexBase
      ensures Valid() && cursorsSet && Repr == old(Repr)
      ensures Model() == BatchModel.AppendBoxOutline(old(Model()), transform, color, entityID)
    {
      WriteBoxColliderVertices(boxColliderVertexBase, boxCollider.offset, transform, color, entityID);
      boxCollider := BatchPosition(boxCollider.indexCount + 4, boxCollider.offset + 4);
    }

    /** DrawCircleCollider, with the overflow test against the vertex capacity of the collider array. */
    method DrawCircleCollider(transform: Mat4, color: Vec4, entityID: int)
      requires Valid() && cursorsSet
      modifies Repr
      ensures Valid() && cursorsSet && Repr == old(Repr)
      ensures Model() == BatchModel.DrawCircleCollider(old(Model()), transform, color, entityID)
    {
      if circleCollider.indexCount >= MaxVertices {
        NextBatch();
      }
      AppendCircleOutline(transform, color, entityID);
    }

    /** The loop of DrawCircleCollider and the index count after it. */
    method AppendCircleOutline(transform: Mat4, color: Vec4, entityID: int)
      requires Valid() && cursorsSet && circleCollider.indexCount < MaxVertices
      modifies this, circleColliderVertexBase
      ensures Valid() && cursorsSet && Repr == old(Repr)
      ensures Model() == BatchModel.AppendCircleOutline(old(Model()), transform, color, entityID)
    {
      WriteCircleColliderVertices(circleColliderVertexBase, circleCollider.offset, transform, color, entityID);
      circleCollider := BatchPosition(circleCollider.indexCount + CircleSegments, circleCollider.offset + CircleSegments);
    }

    /** DrawSprite: DrawQuad with the sprite's colour. */
    method DrawSprite(transform: Mat4, src: SpriteRendererComponent, entityID: int)
      requires Valid() && cursorsSet
      modifies Repr
      ensures Valid() && cursorsSet && Repr == old(Repr)
      ensures Model() == BatchModel.DrawSprite(old(Model()), transform, src.colour, entityID)
    {
      DrawQuad(transform, src.colour, entityID);
    }

    method ResetStats()
      requires Valid()
      modifies this
      ensures Valid() && cursorsSet == old(cursorsSet) && Repr == old(Repr)
      ensures Model() == BatchModel.ResetStats(old(Model()))
    {
      stats := ZeroStatistics;
    }

    method GetStats() returns (s: Statistics)
      requires Valid()
      ensures s == Model().stats
    {
      s := stats;
    }
  }
}
