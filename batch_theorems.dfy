/**
 * What a whole scene of submissions does to the batches and to the draw
 * calls: how many quads are pending after n DrawQuad calls, how many times
 * the batch overflows on the way, which draws the overflows issue, and, for a
 * scene of sprites followed by circles (the order Scene::OnUpdateEditor and
 * Scene::OnUpdateRuntime submit in), the exact sizes of the indexed draws
 * issued between BeginScene and EndScene.
 */
module BatchTheorems {
  import opened Geometry
  import opened Renderer2DTypes
  import opened BatchModel

  // ===========================================================================
  // Counting overflows

  /**
   * The primitives pending after n more submissions into a batch that holds
   * p of them and takes `capacity`: each submission first restarts a full
   * batch, then adds one.
   */
  function PendingAfter(p: nat, n: nat, capacity: nat): nat
    decreases n
  {
    if n == 0 then p else PendingAfter(if p == capacity then 1 else p + 1, n - 1, capacity)
  }

  /** How many of those n submissions find the batch full and restart it. */
  function Overflows(p: nat, n: nat, capacity: nat): nat
    decreases n
  {
    if n == 0 then 0
    else (if p == capacity then 1 else 0) + Overflows(if p == capacity then 1 else p + 1, n - 1, capacity)
  }

  /**
   * From an empty batch, n submissions leave (n - 1) % capacity + 1 pending
   * after (n - 1) / capacity restarts (in closed form, for the quad capacity).
   */
  lemma {:induction false} OverflowsClosedForm(p: nat, n: nat)
    requires 1 <= p <= MaxQuads
    ensures Overflows(p, n, MaxQuads) == (p + n - 1) / MaxQuads
    ensures n > 0 ==> PendingAfter(p, n, MaxQuads) == (p + n - 1) % MaxQuads + 1
    ensures n == 0 ==> PendingAfter(p, n, MaxQuads) == p
    decreases n
  {
    if n > 0 {
      OverflowsClosedForm(if p == MaxQuads then 1 else p + 1, n - 1);
    }
  }

  lemma FromEmpty(n: nat)
    requires n > 0
    ensures Overflows(0, n, MaxQuads) == (n - 1) / MaxQuads
    ensures PendingAfter(0, n, MaxQuads) == (n - 1) % MaxQuads + 1
  {
    OverflowsClosedForm(1, n - 1);
  }

  // ===========================================================================
  // Sprites

  /** The arguments of one DrawQuad(transform, color, entityID) call. */
  datatype QuadArgs = QuadArgs(transform: Mat4, color: Vec4, entityID: int)

  function DrawQuadWith(f: Frame, a: QuadArgs): Frame
  {
    DrawQuad(f, a.transform, a.color, a.entityID)
  }

  /** DrawQuad for each element, in order. */
  function DrawQuads(f: Frame, qs: seq<QuadArgs>): Frame
    decreases |qs|
  {
    if qs == [] then f else DrawQuads(DrawQuadWith(f, qs[0]), qs[1..])
  }

  /** Each DrawQuad keeps the batches consistent and DrawCalls in step with the draws issued; so does a run of them. */
  lemma {:induction false} QuadPhaseKeeps(f: Frame, qs: seq<QuadArgs>)
    ensures Consistent(f) ==> Consistent(DrawQuads(f, qs))
    ensures StatsTrackDraws(f, DrawQuads(f, qs))
    decreases |qs|
  {
    if qs != [] {
      var g := DrawQuadWith(f, qs[0]);
      DrawQuadKeeps(f, qs[0].transform, qs[0].color, qs[0].entityID);
      QuadPhaseKeeps(g, qs[1..]);
      StatsTrackTransitive(f, g, DrawQuads(f, qs));
    }
  }

  /** The quad batch never holds more than MaxQuads quads, and is full exactly at MaxQuads. */
  lemma QuadCapacity(f: Frame)
    requires Consistent(f)
    ensures QuadsPending(f) <= MaxQuads && f.quads.indexCount == 6 * QuadsPending(f)
    ensures CirclesPending(f) <= MaxQuads && f.circles.indexCount == 6 * CirclesPending(f)
  {
  }

  /** One DrawQuad: a full batch is drawn (MaxIndices indices) and restarted before the quad is added. */
  lemma DrawQuadStep(f: Frame, a: QuadArgs)
    requires Consistent(f)
    ensures QuadsPending(DrawQuadWith(f, a)) == if QuadsPending(f) == MaxQuads then 1 else QuadsPending(f) + 1
    ensures DrawSizes(DrawQuadWith(f, a).calls, QuadBatch) == DrawSizes(f.calls, QuadBatch)
      + (if QuadsPending(f) == MaxQuads then [MaxIndices] else [])
  {
    QuadCapacity(f);
    DrawQuadAppends(f, a.transform, a.color, a.entityID);
    if QuadsPending(f) == MaxQuads {
      NextBatchDraws(f);
    }
  }

  /** n sprites: the quads pending after them. */
  lemma {:induction false} QuadPhasePending(f: Frame, qs: seq<QuadArgs>)
    requires Consistent(f)
    ensures QuadsPending(DrawQuads(f, qs)) == PendingAfter(QuadsPending(f), |qs|, MaxQuads)
    decreases |qs|
  {
    if qs != [] {
      DrawQuadStep(f, qs[0]);
      DrawQuadKeeps(f, qs[0].transform, qs[0].color, qs[0].entityID);
      QuadPhasePending(DrawQuadWith(f, qs[0]), qs[1..]);
    }
  }

  /** n sprites add n to QuadCount, in uint32. */
  lemma {:induction false} QuadPhaseQuadCount(f: Frame, qs: seq<QuadArgs>)
    ensures DrawQuads(f, qs).stats.quadCount == Add32(f.stats.quadCount, |qs|)
    decreases |qs|
  {
    if qs != [] {
      var g := DrawQuadWith(f, qs[0]);
      var q0, q1 := f.stats.quadCount, g.stats.quadCount;
      DrawQuadAppends(f, qs[0].transform, qs[0].color, qs[0].entityID);
      QuadPhaseQuadCount(g, qs[1..]);
      assert DrawQuads(f, qs).stats.quadCount == Add32(q1, |qs| - 1);
      Add32Twice(q0, 1, |qs| - 1);
    }
  }

  /** The bookkeeping of one submission, on the sequence of draw sizes alone. */
  lemma OverflowDrawsStep(d0: seq<nat>, d1: seq<nat>, d2: seq<nat>, p: nat, n: nat, capacity: nat, size: nat)
    requires n > 0
    requires d1 == d0 + (if p == capacity then [size] else [])
    requires d2 == d1 + Repeat(size, Overflows(if p == capacity then 1 else p + 1, n - 1, capacity))
    ensures d2 == d0 + Repeat(size, Overflows(p, n, capacity))
  {
    if p == capacity {
      assert d0 + [size] + Repeat(size, Overflows(1, n - 1, capacity)) == d0 + Repeat(size, Overflows(p, n, capacity));
    }
  }

  /** n sprites: one draw of MaxIndices indices per overflow, and no other quad draw. */
  lemma {:induction false} QuadPhaseDraws(f: Frame, qs: seq<QuadArgs>)
    requires Consistent(f)
    ensures DrawSizes(DrawQuads(f, qs).calls, QuadBatch) == DrawSizes(f.calls, QuadBatch)
      + Repeat(MaxIndices, Overflows(QuadsPending(f), |qs|, MaxQuads))
    decreases |qs|
  {
    if qs != [] {
      var g := DrawQuadWith(f, qs[0]);
      DrawQuadStep(f, qs[0]);
      DrawQuadKeeps(f, qs[0].transform, qs[0].color, qs[0].entityID);
      QuadPhaseDraws(g, qs[1..]);
      OverflowDrawsStep(DrawSizes(f.calls, QuadBatch), DrawSizes(g.calls, QuadBatch), DrawSizes(DrawQuads(g, qs[1..]).calls, QuadBatch),
                        QuadsPending(f), |qs|, MaxQuads, MaxIndices);
    }
  }

  /** One DrawQuad on a full quad batch also draws and empties the circle batch. */
  lemma DrawQuadStepCircles(f: Frame, a: QuadArgs)
    requires Consistent(f)
    ensures DrawQuadWith(f, a).circles == if QuadsPending(f) == MaxQuads then Pending([], 0) else f.circles
    ensures DrawSizes(DrawQuadWith(f, a).calls, CircleBatch) == DrawSizes(f.calls, CircleBatch)
      + (if QuadsPending(f) == MaxQuads && f.circles.indexCount > 0 then [f.circles.indexCount] else [])
  {
    QuadCapacity(f);
    DrawQuadAppends(f, a.transform, a.color, a.entityID);
    if QuadsPending(f) == MaxQuads {
      NextBatchDraws(f);
    }
  }

  /**
   * n sprites: if the quad batch overflows at least once, the circles pending
   * before them are drawn at the first overflow and the circle batch is left
   * empty; otherwise the circle batch is untouched.
   */
  lemma {:induction false} QuadPhaseCircles(f: Frame, qs: seq<QuadArgs>)
    requires Consistent(f)
    ensures DrawQuads(f, qs).circles ==
      if Overflows(QuadsPending(f), |qs|, MaxQuads) > 0 then Pending([], 0) else f.circles
    ensures DrawSizes(DrawQuads(f, qs).calls, CircleBatch) == DrawSizes(f.calls, CircleBatch)
      + (if Overflows(QuadsPending(f), |qs|, MaxQuads) > 0 && f.circles.indexCount > 0 then [f.circles.indexCount] else [])
    decreases |qs|
  {
    if qs != [] {
      var g := DrawQuadWith(f, qs[0]);
      DrawQuadStep(f, qs[0]);
      DrawQuadKeeps(f, qs[0].transform, qs[0].color, qs[0].entityID);
      DrawQuadStepCircles(f, qs[0]);
      QuadPhaseCircles(g, qs[1..]);
    }
  }

  // ===========================================================================
  // Circles

  /** The arguments of one DrawCircle(transform, color, thickness, fade, entityID) call. */
  datatype CircleArgs = CircleArgs(transform: Mat4, color: Vec4, thickness: real, fade: real, entityID: int)

  function DrawCircleWith(f: Frame, a: CircleArgs): Frame
  {
    DrawCircle(f, a.transform, a.color, a.thickness, a.fade, a.entityID)
  }

  /** DrawCircle for each element, in order. */
  function DrawCircles(f: Frame, cs: seq<CircleArgs>): Frame
    decreases |cs|
  {
    if cs == [] then f else DrawCircles(DrawCircleWith(f, cs[0]), cs[1..])
  }

  /** Each DrawCircle keeps the batches consistent and DrawCalls in step with the draws issued; so does a run of them. */
  lemma {:induction false} CirclePhaseKeeps(f: Frame, cs: seq<CircleArgs>)
    ensures Consistent(f) ==> Consistent(DrawCircles(f, cs))
    ensures StatsTrackDraws(f, DrawCircles(f, cs))
    decreases |cs|
  {
    if cs != [] {
      var g := DrawCircleWith(f, cs[0]);
      DrawCircleKeeps(f, cs[0].transform, cs[0].color, cs[0].thickness, cs[0].fade, cs[0].entityID);
      CirclePhaseKeeps(g, cs[1..]);
      StatsTrackTransitive(f, g, DrawCircles(f, cs));
    }
  }

  /** One DrawCircle: a full circle batch is drawn and restarted before the circle is added. */
  lemma DrawCircleStep(f: Frame, a: CircleArgs)
    requires Consistent(f)
    ensures CirclesPending(DrawCircleWith(f, a)) == if CirclesPending(f) == MaxQuads then 1 else CirclesPending(f) + 1
    ensures DrawSizes(DrawCircleWith(f, a).calls, CircleBatch) == DrawSizes(f.calls, CircleBatch)
      + (if CirclesPending(f) == MaxQuads then [MaxIndices] else [])
  {
    QuadCapacity(f);
    DrawCircleAppends(f, a.transform, a.color, a.thickness, a.fade, a.entityID);
    if CirclesPending(f) == MaxQuads {
      NextBatchDraws(f);
    }
  }

  /** One DrawCircle on a full circle batch also draws and empties the quad batch. */
  lemma DrawCircleStepQuads(f: Frame, a: CircleArgs)
    requires Consistent(f)
    ensures DrawCircleWith(f, a).quads == if CirclesPending(f) == MaxQuads then Pending([], 0) else f.quads
    ensures DrawSizes(DrawCircleWith(f, a).calls, QuadBatch) == DrawSizes(f.calls, QuadBatch)
      + (if CirclesPending(f) == MaxQuads && f.quads.indexCount > 0 then [f.quads.indexCount] else [])
  {
    QuadCapacity(f);
    DrawCircleAppends(f, a.transform, a.color, a.thickness, a.fade, a.entityID);
    if CirclesPending(f) == MaxQuads {
      NextBatchDraws(f);
    }
  }

  /** n circles: the circles pending after them. */
  lemma {:induction false} CirclePhasePending(f: Frame, cs: seq<CircleArgs>)
    requires Consistent(f)
    ensures CirclesPending(DrawCircles(f, cs)) == PendingAfter(CirclesPending(f), |cs|, MaxQuads)
    decreases |cs|
  {
    if cs != [] {
      DrawCircleStep(f, cs[0]);
      DrawCircleKeeps(f, cs[0].transform, cs[0].color, cs[0].thickness, cs[0].fade, cs[0].entityID);
      CirclePhasePending(DrawCircleWith(f, cs[0]), cs[1..]);
    }
  }

  /** n circles add n to QuadCount too, in uint32. */
  lemma {:induction false} CirclePhaseQuadCount(f: Frame, cs: seq<CircleArgs>)
    ensures DrawCircles(f, cs).stats.quadCount == Add32(f.stats.quadCount, |cs|)
    decreases |cs|
  {
    if cs != [] {
      var g := DrawCircleWith(f, cs[0]);
      var q0, q1 := f.stats.quadCount, g.stats.quadCount;
      DrawCircleAppends(f, cs[0].transform, cs[0].color, cs[0].thickness, cs[0].fade, cs[0].entityID);
      CirclePhaseQuadCount(g, cs[1..]);
      assert DrawCircles(f, cs).stats.quadCount == Add32(q1, |cs| - 1);
      Add32Twice(q0, 1, |cs| - 1);
    }
  }

  /** n circles: one circle draw of MaxIndices indices per overflow, and no other circle draw. */
  lemma {:induction false} CirclePhaseDraws(f: Frame, cs: seq<CircleArgs>)
    requires Consistent(f)
    ensures DrawSizes(DrawCircles(f, cs).calls, CircleBatch) == DrawSizes(f.calls, CircleBatch)
      + Repeat(MaxIndices, Overflows(CirclesPending(f), |cs|, MaxQuads))
    decreases |cs|
  {
    if cs != [] {
      var g := DrawCircleWith(f, cs[0]);
      DrawCircleStep(f, cs[0]);
      DrawCircleKeeps(f, cs[0].transform, cs[0].color, cs[0].thickness, cs[0].fade, cs[0].entityID);
      CirclePhaseDraws(g, cs[1..]);
      OverflowDrawsStep(DrawSizes(f.calls, CircleBatch), DrawSizes(g.calls, CircleBatch), DrawSizes(DrawCircles(g, cs[1..]).calls, CircleBatch),
                        CirclesPending(f), |cs|, MaxQuads, MaxIndices);
    }
  }

  /**
   * n circles: if the circle batch overflows at least once, the quads pending
   * before them are drawn at the first overflow and the quad batch is left
   * empty; otherwise the quad batch is untouched.
   */
  lemma {:induction false} CirclePhaseQuads(f: Frame, cs: seq<CircleArgs>)
    requires Consistent(f)
    ensures DrawCircles(f, cs).quads ==
      if Overflows(CirclesPending(f), |cs|, MaxQuads) > 0 then Pending([], 0) else f.quads
    ensures DrawSizes(DrawCircles(f, cs).calls, QuadBatch) == DrawSizes(f.calls, QuadBatch)
      + (if Overflows(CirclesPending(f), |cs|, MaxQuads) > 0 && f.quads.indexCount > 0 then [f.quads.indexCount] else [])
    decreases |cs|
  {
    if cs != [] {
      var g := DrawCircleWith(f, cs[0]);
      DrawCircleStep(f, cs[0]);
      DrawCircleKeeps(f, cs[0].transform, cs[0].color, cs[0].thickness, cs[0].fade, cs[0].entityID);
      DrawCircleStepQuads(f, cs[0]);
      CirclePhaseQuads(g, cs[1..]);
    }
  }

  // ===========================================================================
  // A scene of sprites and circles

  /**
   * The indexed draws n quads (or n circles) submitted into an empty batch
   * end up as: one full batch of MaxIndices indices per 20000 quads, then the
   * remainder, which is never empty.
   */
  function QuadSchedule(n: nat): seq<nat>
  {
    if n == 0 then [] else Repeat(MaxIndices, (n - 1) / MaxQuads) + [6 * ((n - 1) % MaxQuads + 1)]
  }

  /**
   * ceil(n / 20000) draws, no empty draw and none above the index capacity,
   * and six indices per quad in all.
   */
  lemma QuadScheduleShape(n: nat)
    ensures |QuadSchedule(n)| == DivCeil(n, MaxQuads)
    ensures forall i :: 0 <= i < |QuadSchedule(n)| ==> 0 < QuadSchedule(n)[i] <= MaxIndices
    ensures Sum(QuadSchedule(n)) == 6 * n
  {
    if n > 0 {
      var k := (n - 1) / MaxQuads;
      RepeatFacts(MaxIndices, k);
      SumAppend(Repeat(MaxIndices, k), [6 * ((n - 1) % MaxQuads + 1)]);
      SumRepeat(MaxIndices, k);
      assert Sum([6 * ((n - 1) % MaxQuads + 1)]) == 6 * ((n - 1) % MaxQuads + 1);
    }
  }

  /** BeginScene, the sprites, then the circles, then EndScene: what Scene::OnUpdateRuntime submits. */
  function SpritesThenCircles(f: Frame, vp: Mat4, qs: seq<QuadArgs>, cs: seq<CircleArgs>): Frame
  {
    EndScene(DrawCircles(DrawQuads(BeginScene(f, vp), qs), cs))
  }

  /**
   * The draws of one batch that starts empty, on the sequences alone: the
   * overflows of its own phase, then one draw of what it holds at the end.
   */
  lemma ScheduleAssembly(d0: seq<nat>, d1: seq<nat>, d2: seq<nat>, n: nat, held: nat)
    requires d1 == d0 + Repeat(MaxIndices, Overflows(0, n, MaxQuads))
    requires held == 6 * PendingAfter(0, n, MaxQuads)
    requires d2 == d1 + (if held > 0 then [held] else [])
    ensures d2 == d0 + QuadSchedule(n)
  {
    if n > 0 {
      FromEmpty(n);
    }
  }

  /**
   * The quads pending when the circles start are drawn exactly once more:
   * at the first circle overflow if there is one, else by EndScene.
   */
  lemma CirclesThenEndQuads(h: Frame, cs: seq<CircleArgs>)
    requires Consistent(h)
    ensures DrawSizes(EndScene(DrawCircles(h, cs)).calls, QuadBatch) ==
      DrawSizes(h.calls, QuadBatch) + (if h.quads.indexCount > 0 then [h.quads.indexCount] else [])
  {
    var h2 := DrawCircles(h, cs);
    CirclePhaseQuads(h, cs);
    EndSceneQuadDraws(h2);
  }

  lemma EndSceneQuadDraws(f: Frame)
    ensures DrawSizes(EndScene(f).calls, QuadBatch) == DrawSizes(f.calls, QuadBatch)
      + (if f.quads.indexCount > 0 then [f.quads.indexCount] else [])
  {
    EndSceneDraws(f);
  }

  lemma EndSceneCircleDraws(f: Frame)
    ensures DrawSizes(EndScene(f).calls, CircleBatch) == DrawSizes(f.calls, CircleBatch)
      + (if f.circles.indexCount > 0 then [f.circles.indexCount] else [])
  {
    EndSceneDraws(f);
  }

  /** From empty batches: the quad draws of the sprites, the circles and EndScene are QuadSchedule(number of sprites). */
  lemma QuadsFromEmpty(g: Frame, qs: seq<QuadArgs>, cs: seq<CircleArgs>)
    requires Consistent(g) && g.quads == Pending([], 0)
    ensures DrawSizes(EndScene(DrawCircles(DrawQuads(g, qs), cs)).calls, QuadBatch) ==
      DrawSizes(g.calls, QuadBatch) + QuadSchedule(|qs|)
  {
    var h1 := DrawQuads(g, qs);
    QuadPhaseKeeps(g, qs);
    QuadPhaseDraws(g, qs);
    QuadPhasePending(g, qs);
    QuadCapacity(h1);
    CirclesThenEndQuads(h1, cs);
    ScheduleAssembly(DrawSizes(g.calls, QuadBatch), DrawSizes(h1.calls, QuadBatch),
                     DrawSizes(EndScene(DrawCircles(h1, cs)).calls, QuadBatch), |qs|, h1.quads.indexCount);
  }

  /** From an empty circle batch: the circle draws of the circles and EndScene are QuadSchedule(number of circles). */
  lemma CirclesFromEmpty(h: Frame, cs: seq<CircleArgs>)
    requires Consistent(h) && h.circles == Pending([], 0)
    ensures DrawSizes(EndScene(DrawCircles(h, cs)).calls, CircleBatch) ==
      DrawSizes(h.calls, CircleBatch) + QuadSchedule(|cs|)
  {
    var h2 := DrawCircles(h, cs);
    CirclePhaseKeeps(h, cs);
    CirclePhaseDraws(h, cs);
    CirclePhasePending(h, cs);
    QuadCapacity(h2);
    EndSceneCircleDraws(h2);
    ScheduleAssembly(DrawSizes(h.calls, CircleBatch), DrawSizes(h2.calls, CircleBatch),
                     DrawSizes(EndScene(h2).calls, CircleBatch), |cs|, h2.circles.indexCount);
  }

  /** The quad draws of such a scene: exactly QuadSchedule(number of sprites), whatever the circles do. */
  lemma SceneQuadDraws(f: Frame, vp: Mat4, qs: seq<QuadArgs>, cs: seq<CircleArgs>)
    ensures DrawSizes(SpritesThenCircles(f, vp, qs, cs).calls, QuadBatch) ==
      DrawSizes(f.calls, QuadBatch) + QuadSchedule(|qs|)
  {
    BeginSceneTraces(f, vp);
    QuadsFromEmpty(BeginScene(f, vp), qs, cs);
  }

  /** The circle draws of such a scene: exactly QuadSchedule(number of circles). */
  lemma SceneCircleDraws(f: Frame, vp: Mat4, qs: seq<QuadArgs>, cs: seq<CircleArgs>)
    ensures DrawSizes(SpritesThenCircles(f, vp, qs, cs).calls, CircleBatch) ==
      DrawSizes(f.calls, CircleBatch) + QuadSchedule(|cs|)
  {
    var g := BeginScene(f, vp);
    BeginSceneTraces(f, vp);
    assert DrawSizes(g.calls, CircleBatch) == DrawSizes(f.calls, CircleBatch);
    SpritesKeepEmptyCircles(g, qs);
    QuadPhaseKeeps(g, qs);
    CirclesFromEmpty(DrawQuads(g, qs), cs);
  }

  /** Sprites leave an empty circle batch empty, and draw no circles. */
  lemma SpritesKeepEmptyCircles(g: Frame, qs: seq<QuadArgs>)
    requires Consistent(g) && g.circles == Pending([], 0)
    ensures DrawQuads(g, qs).circles == Pending([], 0)
    ensures DrawSizes(DrawQuads(g, qs).calls, CircleBatch) == DrawSizes(g.calls, CircleBatch)
  {
    QuadPhaseCircles(g, qs);
  }

  /** DrawCalls counts every indexed draw of such a scene. */
  lemma SceneTracksDraws(f: Frame, vp: Mat4, qs: seq<QuadArgs>, cs: seq<CircleArgs>)
    ensures StatsTrackDraws(f, SpritesThenCircles(f, vp, qs, cs))
  {
    var g := BeginScene(f, vp);
    var h1 := DrawQuads(g, qs);
    var h2 := DrawCircles(h1, cs);
    BeginSceneTraces(f, vp);
    QuadPhaseKeeps(g, qs);
    CirclePhaseKeeps(h1, cs);
    EndSceneDraws(h2);
    StatsTrackTransitive(f, g, h1);
    StatsTrackTransitive(f, h1, h2);
    StatsTrackTransitive(f, h2, EndScene(h2));
  }

  /** DrawCalls over a stretch of calls whose quad and circle draws follow QuadSchedule(S) and QuadSchedule(C). */
  lemma DrawCallsOfSchedules(f: Frame, r: Frame, s: nat, c: nat)
    requires StatsTrackDraws(f, r)
    requires DrawSizes(r.calls, QuadBatch) == DrawSizes(f.calls, QuadBatch) + QuadSchedule(s)
    requires DrawSizes(r.calls, CircleBatch) == DrawSizes(f.calls, CircleBatch) + QuadSchedule(c)
    ensures r.stats.drawCalls == Add32(f.stats.drawCalls, DivCeil(s, MaxQuads) + DivCeil(c, MaxQuads))
  {
    QuadScheduleShape(s);
    QuadScheduleShape(c);
  }

  /** Such a scene adds ceil(S / 20000) + ceil(C / 20000) to DrawCalls (in uint32), for S sprites and C circles. */
  lemma SceneDrawCalls(f: Frame, vp: Mat4, qs: seq<QuadArgs>, cs: seq<CircleArgs>)
    ensures SpritesThenCircles(f, vp, qs, cs).stats.drawCalls ==
      Add32(f.stats.drawCalls, DivCeil(|qs|, MaxQuads) + DivCeil(|cs|, MaxQuads))
  {
    SceneTracksDraws(f, vp, qs, cs);
    SceneQuadDraws(f, vp, qs, cs);
    SceneCircleDraws(f, vp, qs, cs);
    DrawCallsOfSchedules(f, SpritesThenCircles(f, vp, qs, cs), |qs|, |cs|);
  }

  /** Such a scene adds S + C to QuadCount (in uint32). */
  lemma SceneQuadCount(f: Frame, vp: Mat4, qs: seq<QuadArgs>, cs: seq<CircleArgs>)
    ensures SpritesThenCircles(f, vp, qs, cs).stats.quadCount == Add32(f.stats.quadCount, |qs| + |cs|)
  {
    var g := BeginScene(f, vp);
    var h1 := DrawQuads(g, qs);
    QuadPhaseQuadCount(g, qs);
    QuadCountOverCircles(h1, cs);
    AddInSteps(f.stats.quadCount, h1.stats.quadCount, EndScene(DrawCircles(h1, cs)).stats.quadCount, |qs|, |cs|, |qs| + |cs|);
  }

  lemma QuadCountOverCircles(h: Frame, cs: seq<CircleArgs>)
    ensures EndScene(DrawCircles(h, cs)).stats.quadCount == Add32(h.stats.quadCount, |cs|)
  {
    CirclePhaseQuadCount(h, cs);
    EndSceneQuadCount(DrawCircles(h, cs));
  }

  lemma AddInSteps(q0: U32, q1: U32, q2: U32, n: nat, m: nat, total: nat)
    requires q1 == Add32(q0, n) && q2 == Add32(q1, m) && total == n + m
    ensures q2 == Add32(q0, total)
  {
    Add32Twice(q0, n, m);
  }

  lemma EndSceneQuadCount(f: Frame)
    ensures EndScene(f).stats.quadCount == f.stats.quadCount
  {
  }

  // ===========================================================================
  // The collider guard as written

  /** The arguments of one DrawBoxCollider or DrawCircleCollider call. */
  datatype ColliderArgs = ColliderArgs(transform: Mat4, color: Vec4, entityID: int)

  /** DrawBoxCollider, with the source's guard, for each element in order. */
  function DrawBoxCollidersAsWritten(f: Frame, xs: seq<ColliderArgs>): Frame
    decreases |xs|
  {
    if xs == [] then f
    else DrawBoxCollidersAsWritten(DrawBoxColliderAsWritten(f, xs[0].transform, xs[0].color, xs[0].entityID), xs[1..])
  }

  /** DrawCircleCollider, with the source's guard, for each element in order. */
  function DrawCircleCollidersAsWritten(f: Frame, xs: seq<ColliderArgs>): Frame
    decreases |xs|
  {
    if xs == [] then f
    else DrawCircleCollidersAsWritten(DrawCircleColliderAsWritten(f, xs[0].transform, xs[0].color, xs[0].entityID), xs[1..])
  }

  /** Below 120000 indices the source's guard never fires: every box outline is appended to the same batch. */
  lemma {:induction false} BoxCollidersAsWrittenFill(f: Frame, xs: seq<ColliderArgs>)
    requires |f.boxColliders.vertices| == f.boxColliders.indexCount
    requires f.boxColliders.indexCount + 4 * |xs| <= MaxIndices
    ensures DrawBoxCollidersAsWritten(f, xs).boxColliders.indexCount == f.boxColliders.indexCount + 4 * |xs|
    ensures |DrawBoxCollidersAsWritten(f, xs).boxColliders.vertices| == f.boxColliders.indexCount + 4 * |xs|
    decreases |xs|
  {
    if xs != [] {
      BoxCollidersAsWrittenFill(DrawBoxColliderAsWritten(f, xs[0].transform, xs[0].color, xs[0].entityID), xs[1..]);
    }
  }

  /** Below 120000 indices the source's guard never fires: every circle outline is appended to the same batch. */
  lemma {:induction false} CircleCollidersAsWrittenFill(f: Frame, xs: seq<ColliderArgs>)
    requires |f.circleColliders.vertices| == f.circleColliders.indexCount
    requires f.circleColliders.indexCount + CircleSegments * |xs| <= MaxIndices
    ensures DrawCircleCollidersAsWritten(f, xs).circleColliders.indexCount ==
      f.circleColliders.indexCount + CircleSegments * |xs|
    ensures |DrawCircleCollidersAsWritten(f, xs).circleColliders.vertices| ==
      f.circleColliders.indexCount + CircleSegments * |xs|
    decreases |xs|
  {
    if xs != [] {
      CircleCollidersAsWrittenFill(DrawCircleColliderAsWritten(f, xs[0].transform, xs[0].color, xs[0].entityID), xs[1..]);
    }
  }

  /**
   * With the source's guard, 20001 box colliders in one scene write 80004
   * outline points: the last four land past the end of the 80000-entry array.
   */
  lemma BoxColliderOverrunAsWritten(f: Frame, vp: Mat4, xs: seq<ColliderArgs>)
    requires |xs| == MaxQuads + 1
    ensures |DrawBoxCollidersAsWritten(BeginScene(f, vp), xs).boxColliders.vertices| == MaxVertices + 4
    ensures !Consistent(DrawBoxCollidersAsWritten(BeginScene(f, vp), xs))
  {
    BoxCollidersAsWrittenFill(BeginScene(f, vp), xs);
  }

  /**
   * With the source's guard, 2501 circle colliders in one scene write 80032
   * outline points: the last 32 land past the end of the 80000-entry array.
   */
  lemma CircleColliderOverrunAsWritten(f: Frame, vp: Mat4, xs: seq<ColliderArgs>)
    requires |xs| == MaxVertices / CircleSegments + 1
    ensures |DrawCircleCollidersAsWritten(BeginScene(f, vp), xs).circleColliders.vertices| == MaxVertices + CircleSegments
    ensures !Consistent(DrawCircleCollidersAsWritten(BeginScene(f, vp), xs))
  {
    CircleCollidersAsWrittenFill(BeginScene(f, vp), xs);
  }

  // ===========================================================================
  // Colliders and the editor scene

  /** DrawBoxCollider for each element, in order. */
  function DrawBoxColliders(f: Frame, xs: seq<ColliderArgs>): Frame
    decreases |xs|
  {
    if xs == [] then f else DrawBoxColliders(DrawBoxCollider(f, xs[0].transform, xs[0].color, xs[0].entityID), xs[1..])
  }

  /** DrawCircleCollider for each element, in order. */
  function DrawCircleColliders(f: Frame, xs: seq<ColliderArgs>): Frame
    decreases |xs|
  {
    if xs == [] then f else DrawCircleColliders(DrawCircleCollider(f, xs[0].transform, xs[0].color, xs[0].entityID), xs[1..])
  }

  /** One more sprite at the end of a run: the run, then that DrawQuad. */
  lemma {:induction false} DrawQuadsSnoc(f: Frame, qs: seq<QuadArgs>, a: QuadArgs)
    ensures DrawQuads(f, qs + [a]) == DrawQuadWith(DrawQuads(f, qs), a)
    decreases |qs|
  {
    if qs != [] {
      assert (qs + [a])[1..] == qs[1..] + [a];
      DrawQuadsSnoc(DrawQuadWith(f, qs[0]), qs[1..], a);
    }
  }

  /** One more circle at the end of a run: the run, then that DrawCircle. */
  lemma {:induction false} DrawCirclesSnoc(f: Frame, cs: seq<CircleArgs>, a: CircleArgs)
    ensures DrawCircles(f, cs + [a]) == DrawCircleWith(DrawCircles(f, cs), a)
    decreases |cs|
  {
    if cs != [] {
      assert (cs + [a])[1..] == cs[1..] + [a];
      DrawCirclesSnoc(DrawCircleWith(f, cs[0]), cs[1..], a);
    }
  }

  /** One more box collider at the end of a run: the run, then that DrawBoxCollider. */
  lemma {:induction false} DrawBoxCollidersSnoc(f: Frame, xs: seq<ColliderArgs>, a: ColliderArgs)
    ensures DrawBoxColliders(f, xs + [a]) == DrawBoxCollider(DrawBoxColliders(f, xs), a.transform, a.color, a.entityID)
    decreases |xs|
  {
    if xs != [] {
      assert (xs + [a])[1..] == xs[1..] + [a];
      DrawBoxCollidersSnoc(DrawBoxCollider(f, xs[0].transform, xs[0].color, xs[0].entityID), xs[1..], a);
    }
  }

  /** One more circle collider at the end of a run: the run, then that DrawCircleCollider. */
  lemma {:induction false} DrawCircleCollidersSnoc(f: Frame, xs: seq<ColliderArgs>, a: ColliderArgs)
    ensures DrawCircleColliders(f, xs + [a]) == DrawCircleCollider(DrawCircleColliders(f, xs), a.transform, a.color, a.entityID)
    decreases |xs|
  {
    if xs != [] {
      assert (xs + [a])[1..] == xs[1..] + [a];
      DrawCircleCollidersSnoc(DrawCircleCollider(f, xs[0].transform, xs[0].color, xs[0].entityID), xs[1..], a);
    }
  }

  /**
   * What Scene::OnUpdateEditor submits: BeginScene with the editor camera,
   * the sprites, the circles, the box and then the circle collider outlines
   * when colliders are shown, and EndScene.
   */
  function EditorScene(f: Frame, vp: Mat4, qs: seq<QuadArgs>, cs: seq<CircleArgs>,
                       boxes: seq<ColliderArgs>, rings: seq<ColliderArgs>, showColliders: bool): Frame
  {
    var h := DrawCircles(DrawQuads(BeginScene(f, vp), qs), cs);
    EndScene(if showColliders then DrawCircleColliders(DrawBoxColliders(h, boxes), rings) else h)
  }

  /** No collider batch holds anything. */
  predicate NoColliders(f: Frame)
  {
    f.boxColliders == Pending([], 0) && f.circleColliders == Pending([], 0)
  }

  /** Sprites never put anything into the collider batches: they stay empty through a run of DrawQuad. */
  lemma {:induction false} QuadPhaseNoColliders(f: Frame, qs: seq<QuadArgs>)
    requires NoColliders(f)
    ensures NoColliders(DrawQuads(f, qs))
    decreases |qs|
  {
    if qs != [] {
      var a := qs[0];
      NextBatchDiscardsColliders(f);
      QuadPhaseNoColliders(DrawQuadWith(f, a), qs[1..]);
    }
  }

  /** Circles never put anything into the collider batches either. */
  lemma {:induction false} CirclePhaseNoColliders(f: Frame, cs: seq<CircleArgs>)
    requires NoColliders(f)
    ensures NoColliders(DrawCircles(f, cs))
    decreases |cs|
  {
    if cs != [] {
      var a := cs[0];
      NextBatchDiscardsColliders(f);
      CirclePhaseNoColliders(DrawCircleWith(f, a), cs[1..]);
    }
  }

  /**
   * With colliders hidden the editor scene draws no outline at all: it ends
   * with the Flush of the sprites and circles, and RenderColliderDebug adds
   * nothing.
   */
  lemma HiddenCollidersDrawNothing(f: Frame, vp: Mat4, qs: seq<QuadArgs>, cs: seq<CircleArgs>,
                                   boxes: seq<ColliderArgs>, rings: seq<ColliderArgs>)
    ensures EditorScene(f, vp, qs, cs, boxes, rings, false) == Flush(DrawCircles(DrawQuads(BeginScene(f, vp), qs), cs))
  {
    var g := BeginScene(f, vp);
    QuadPhaseNoColliders(g, qs);
    var h := DrawQuads(g, qs);
    CirclePhaseNoColliders(h, cs);
    FlushSpec(DrawCircles(h, cs));
  }

  /** With colliders hidden the editor scene submits exactly what the runtime scene does, under the editor camera. */
  lemma HiddenCollidersAsRuntime(f: Frame, vp: Mat4, qs: seq<QuadArgs>, cs: seq<CircleArgs>,
                                 boxes: seq<ColliderArgs>, rings: seq<ColliderArgs>)
    ensures EditorScene(f, vp, qs, cs, boxes, rings, false) == SpritesThenCircles(f, vp, qs, cs)
  {
    HiddenCollidersDrawNothing(f, vp, qs, cs, boxes, rings);
  }
}
