# DemoEngine 2D renderer and scene core, modelled in Dafny

This project models two parts of DemoEngine.

**The batched 2D renderer** (`Renderer2D`, with its static `Renderer2DData s_Data`).

- There are four batches: quads, filled circles, box-collider outlines and circle-collider outlines. Each is a CPU vertex array with a write pointer and an index count.
- Draws append vertices to their batch. `Flush` uploads the quad and circle batches and issues one indexed draw for each non-empty one. `RenderColliderDebug` uploads the collider batches and draws them as line loops.
- `DrawQuad` or `DrawCircle` on a full batch first calls `NextBatch`.
- `Statistics` counts draw calls and quads in `uint32`.

**Scene and entity bookkeeping** (`Scene`, `Entity`).

- A scene owns an entt registry of entities and their components, a one-slot component clipboard, the handlers called when a component is added, and its flags and viewport.
- Entities are created, duplicated, destroyed, found by tag and copied into another scene. Each copy keeps its UUID and tag.
- Each frame, the scene's views are walked and the sprites, circles and collider outlines are submitted to the renderer.

The renderer is the class `Renderer2D.Renderer2D`. Its fields are the four vertex arrays (`array`s of `MaxVertices` entries), the per-batch index counts and write offsets, the camera's view-projection, the statistics, and a log of the graphics calls issued.

Every method is proved to leave `Model()` equal to a pure function of the old `Model()`. `Model()` reads each batch as the array slice between its base and its write pointer. The pure functions, over the value `BatchModel.Frame`, are in `batch_model.dfy`. The whole-scene properties are proved about those functions in `batch_theorems.dfy`:

- cursors and index counts always agree;
- no batch overruns its array;
- no draw is empty;
- n sprites give exactly `ceil(n / 20000)` quad draws, with the sizes given;
- `DrawCalls` counts every indexed draw.

The registry is the value `Registries.Registry`, a map from entity handle to that entity's components keyed by component type. It is held in a field of the class `Scenes.Scene`, and the scene's methods reassign it. The module `Registries` states, as functions on registries, what each loop of the scene computes. Those are:

- the duplicate of an entity;
- the copied scene: entities recreated, then the component pools copied through the UUID map;
- the draw arguments of each view;
- the first primary camera;
- the resized cameras.

The lemmas about these functions state:

- a copy reproduces every entity;
- a duplicate is the entity under a new UUID;
- a resize touches only free cameras;
- the network lookup creates a remote entity only once.

Floating-point values are `real`s. Matrices and world positions are kept as symbolic terms (module `Geometry`).

## Model

| member | source | states |
|---|---|---|
| Renderer2DTypes.CapacityConstants | DemoEngine/src/Renderer/2D/Renderer2DData.h:27-30 | MaxVertices is 80000 and MaxIndices is 120000, so the index capacity exceeds the vertex capacity; both the 4-vertex and the 32-point outline strides divide the vertex capacity |
| Renderer2DTypes.Add32 | DemoEngine/src/Renderer/2D/Renderer2D.h:42-43 | adding to a uint32 counter gives the plain sum below 2^32 and wraps modulo 2^32 above it |
| Renderer2DTypes.Add32Twice | DemoEngine/src/Renderer/2D/Renderer2D.cpp:175-185 | two uint32 increments in a row equal one increment by their sum, wrap-around included |
| Renderer2DTypes.Statistics.TotalVertexCount | DemoEngine/src/Renderer/2D/Renderer2D.h:44 | the vertex count is 4 × QuadCount whenever that fits in uint32, and is always a multiple of 4 |
| Renderer2DTypes.Statistics.TotalIndexCount | DemoEngine/src/Renderer/2D/Renderer2D.h:45 | the index count is 6 × QuadCount whenever that fits in uint32 |
| Components.CopiedTypesAreAllButID | DemoEngine/src/Scene/Scene.cpp:107-116 | the ten types DuplicateEntity and CopyTo copy are exactly the component types other than IDComponent |
| BatchModel.StartBatch | DemoEngine/src/Renderer/2D/Renderer2D.cpp:150-163 | all four batches are empty with zero index counts; stats, call log and camera are unchanged |
| BatchModel.FlushSpec | DemoEngine/src/Renderer/2D/Renderer2D.cpp:166-187 | Flush adds one upload of exactly base..cursor and one indexed draw of exactly the batch's index count for each non-empty quad or circle batch, quads first. DrawCalls grows by the draws issued. Nothing is reset and the collider batches see no call |
| BatchModel.ReserveSpec | DemoEngine/src/Renderer/2D/Renderer2D.cpp:256-257 | the overflow step keeps the batches consistent and counts its draws; when it fires it empties all four batches |
| BatchModel.NextBatchDraws | DemoEngine/src/Renderer/2D/Renderer2D.cpp:228-232 | NextBatch draws whatever the quad batch and the circle batch hold, each once, and leaves both empty |
| BatchModel.NextBatchDiscardsColliders | DemoEngine/src/Renderer/2D/Renderer2D.cpp:228-232 | NextBatch empties both collider batches without issuing a single call on them: pending outlines are dropped |
| BatchModel.QuadIndexPatternEntries | DemoEngine/src/Renderer/2D/Renderer2D.cpp:35-46 | the index buffer has MaxIndices entries; quad k's six entries are 4k, 4k+1, 4k+2, 4k+2, 4k+3, 4k |
| BatchModel.QuadIndicesInRange | DemoEngine/src/Renderer/2D/Renderer2D.cpp:35-46 | every entry of the index buffer points inside the vertex arrays (below MaxVertices) |
| BatchModel.BeginScene | DemoEngine/src/Renderer/2D/Renderer2D.cpp:127-140 | the camera's view-projection is stored and uploaded as the one new call; the quad and circle batches are empty, every batch is consistent, and the stats are unchanged |
| BatchModel.BeginSceneTraces | DemoEngine/src/Renderer/2D/Renderer2D.cpp:127-140 | BeginScene issues no upload, draw or line loop on any batch, and no draw for DrawCalls to count |
| BatchModel.QuadVertexFields | DemoEngine/src/Renderer/2D/Renderer2D.cpp:259-267 | DrawQuad writes four vertices: vertex i is the transform applied to unit-quad corner i, with the colour, the entity ID, texture coordinate i and tiling factor (1, 1) |
| BatchModel.CircleVertexFields | DemoEngine/src/Renderer/2D/Renderer2D.cpp:293-301 | DrawCircle writes four vertices: vertex i is the transform applied to unit-quad corner i, with local position twice that corner, and the colour, thickness, fade and entity ID |
| BatchModel.DrawQuadAppends | DemoEngine/src/Renderer/2D/Renderer2D.cpp:248-271 | DrawQuad appends its four vertices and six indices to the quad batch, after restarting it when it is at MaxIndices, and adds 1 to QuadCount in uint32 |
| BatchModel.DrawQuadKeeps | DemoEngine/src/Renderer/2D/Renderer2D.cpp:248-271 | DrawQuad keeps cursor and index count in step in every batch and within capacity, and DrawCalls counts the draws it issues |
| BatchModel.DrawCircleAppends | DemoEngine/src/Renderer/2D/Renderer2D.cpp:288-305 | DrawCircle appends its four vertices and six indices to the circle batch, after restarting it when full, and adds 1 to QuadCount |
| BatchModel.DrawCircleKeeps | DemoEngine/src/Renderer/2D/Renderer2D.cpp:288-305 | DrawCircle keeps every batch consistent and within capacity, and DrawCalls counts its draws |
| BatchModel.DrawBoxColliderAppends | DemoEngine/src/Renderer/2D/Renderer2D.cpp:308-329 | DrawBoxCollider appends the four transformed corners and 4 indices to the box-collider batch (restarted first when full); QuadCount is unchanged |
| BatchModel.DrawBoxColliderKeeps | DemoEngine/src/Renderer/2D/Renderer2D.cpp:308-329 | with the overflow test against the vertex capacity, DrawBoxCollider never writes past the 80000-entry array and keeps every batch consistent |
| BatchModel.DrawCircleColliderAppends | DemoEngine/src/Renderer/2D/Renderer2D.cpp:332-349 | DrawCircleCollider appends 32 outline points and 32 indices to the circle-collider batch (restarted first when full); QuadCount is unchanged |
| BatchModel.DrawCircleColliderKeeps | DemoEngine/src/Renderer/2D/Renderer2D.cpp:332-349 | with the overflow test against the vertex capacity, DrawCircleCollider never writes past the array and keeps every batch consistent |
| BatchModel.DrawBoxColliderAsWritten | DemoEngine/src/Renderer/2D/Renderer2D.cpp:308-329 | with the guard as written, the batch restarts only at 120000 indices; below that the four corners always go after the pending ones and 4 indices are added; QuadCount is unchanged |
| BatchModel.DrawCircleColliderAsWritten | DemoEngine/src/Renderer/2D/Renderer2D.cpp:332-349 | with the guard as written, the batch restarts only at 120000 indices; below that the 32 outline points always go after the pending ones and 32 indices are added; QuadCount is unchanged |
| BatchModel.LineLoopsTrace | DemoEngine/src/Renderer/2D/Renderer2D.cpp:206-207 | the collider loop issues, on its own batch only, line loops starting at first, first+step, ... below the count, each `step` points long |
| BatchModel.ColliderDebugTrace | DemoEngine/src/Renderer/2D/Renderer2D.cpp:190-225 | RenderColliderDebug adds, on each batch, exactly the box-outline calls and then the circle-outline calls that batch's pending outlines call for |
| BatchModel.ColliderDebugUploads | DemoEngine/src/Renderer/2D/Renderer2D.cpp:190-225 | RenderColliderDebug changes only the call log. It does nothing when both collider batches are empty. It uploads base..cursor of each non-empty collider batch and issues no indexed draw |
| BatchModel.ColliderDebugBoxStarts | DemoEngine/src/Renderer/2D/Renderer2D.cpp:206-207 | the box outlines are drawn as line loops starting at 0, 4, 8, ... up to the box index count |
| BatchModel.ColliderDebugBoxLengths | DemoEngine/src/Renderer/2D/Renderer2D.cpp:206-207 | one line loop of 4 points per pending box outline |
| BatchModel.ColliderDebugCircleStarts | DemoEngine/src/Renderer/2D/Renderer2D.cpp:218-220 | the circle outlines are drawn as line loops starting at 0, 32, 64, ... up to the circle-collider index count |
| BatchModel.ColliderDebugCircleLengths | DemoEngine/src/Renderer/2D/Renderer2D.cpp:218-220 | one line loop of 32 points per pending circle outline |
| BatchModel.EndSceneDraws | DemoEngine/src/Renderer/2D/Renderer2D.cpp:143-147 | EndScene leaves the batches as they were. It draws the pending quads and circles once each and outlines every pending collider. DrawCalls counts the draws and QuadCount is unchanged |
| Renderer2D.GenerateQuadIndices | DemoEngine/src/Renderer/2D/Renderer2D.cpp:35-46 | the loop fills an array of MaxIndices entries with the quad index pattern |
| Renderer2D.WriteQuadIndices | DemoEngine/src/Renderer/2D/Renderer2D.cpp:39-45 | one pass writes the six indices of quad k at 6k..6k+5 and leaves the earlier entries alone |
| Renderer2D.WriteQuadVertices | DemoEngine/src/Renderer/2D/Renderer2D.cpp:259-267 | the vertex loop writes the quad's four vertices at the cursor and keeps what lies before it |
| Renderer2D.WriteCircleVertices | DemoEngine/src/Renderer/2D/Renderer2D.cpp:293-301 | the vertex loop writes the circle's four vertices at the cursor and keeps what lies before it |
| Renderer2D.WriteBoxColliderVertices | DemoEngine/src/Renderer/2D/Renderer2D.cpp:320-326 | the corner loop writes the four transformed corners at the cursor and keeps what lies before it |
| Renderer2D.WriteCircleColliderVertices | DemoEngine/src/Renderer/2D/Renderer2D.cpp:338-346 | the segment loop writes the 32 transformed outline points at the cursor and keeps what lies before it |
| Renderer2D.IssueLineLoops | DemoEngine/src/Renderer/2D/Renderer2D.cpp:218-220 | the `i += step` loop issues exactly the line loops starting at 0, step, 2·step, ... below the index count |
| Renderer2D.Renderer2D.ModelConsistent | DemoEngine/src/Renderer/2D/Renderer2DData.h:37-72 | the field-level agreement of counts and write offsets is exactly consistency of the modelled Frame |
| Renderer2D.Renderer2D.constructor | DemoEngine/src/Renderer/2D/Renderer2DData.h:37-52 | the member initialisers: no arrays, null write pointers, zero counts, zero statistics |
| Renderer2D.Renderer2D.Init | DemoEngine/src/Renderer/2D/Renderer2D.cpp:19-106 | four fresh arrays of MaxVertices entries. The write pointers are still unset, all batches are empty, and the quad index pattern is handed to one index buffer that all four vertex arrays share |
| Renderer2D.Renderer2D.StartBatch | DemoEngine/src/Renderer/2D/Renderer2D.cpp:150-163 | the new state is BatchModel.StartBatch of the old; write pointers now set |
| Renderer2D.Renderer2D.Flush | DemoEngine/src/Renderer/2D/Renderer2D.cpp:166-187 | the new state is BatchModel.Flush of the old, whose effect FlushSpec states |
| Renderer2D.Renderer2D.RenderColliderDebug | DemoEngine/src/Renderer/2D/Renderer2D.cpp:190-225 | the new state is BatchModel.RenderColliderDebug of the old |
| Renderer2D.Renderer2D.NextBatch | DemoEngine/src/Renderer/2D/Renderer2D.cpp:228-232 | the new state is BatchModel.NextBatch of the old: Flush then StartBatch |
| Renderer2D.Renderer2D.BeginScene | DemoEngine/src/Renderer/2D/Renderer2D.cpp:127-132 | the view-projection is projection × inverse(transform), uploaded, then StartBatch |
| Renderer2D.Renderer2D.BeginEditorScene | DemoEngine/src/Renderer/2D/Renderer2D.cpp:135-140 | the editor camera's view-projection is uploaded, then StartBatch |
| Renderer2D.Renderer2D.EndScene | DemoEngine/src/Renderer/2D/Renderer2D.cpp:143-147 | the new state is BatchModel.EndScene of the old: Flush then RenderColliderDebug |
| Renderer2D.Renderer2D.DrawQuad | DemoEngine/src/Renderer/2D/Renderer2D.cpp:248-271 | the new state is BatchModel.DrawQuad of the old (see DrawQuadAppends, DrawQuadKeeps) |
| Renderer2D.Renderer2D.AppendQuad | DemoEngine/src/Renderer/2D/Renderer2D.cpp:259-270 | below capacity, the loop and the two counters give BatchModel.AppendQuad of the old state |
| Renderer2D.Renderer2D.DrawQuadAt | DemoEngine/src/Renderer/2D/Renderer2D.cpp:240-245 | DrawQuad with translate(position) × scale(size, 1) and entity ID -1 |
| Renderer2D.Renderer2D.DrawQuadAtXY | DemoEngine/src/Renderer/2D/Renderer2D.cpp:235-238 | the 3D overload with z = 0 |
| Renderer2D.Renderer2D.DrawRotatedQuad | DemoEngine/src/Renderer/2D/Renderer2D.cpp:279-285 | DrawQuad with translate × rotate about z × scale and entity ID -1 |
| Renderer2D.Renderer2D.DrawRotatedQuadXY | DemoEngine/src/Renderer/2D/Renderer2D.cpp:274-277 | the 3D overload with z = 0 |
| Renderer2D.Renderer2D.DrawCircle | DemoEngine/src/Renderer/2D/Renderer2D.cpp:288-305 | the new state is BatchModel.DrawCircle of the old (see DrawCircleAppends, DrawCircleKeeps) |
| Renderer2D.Renderer2D.AppendCircle | DemoEngine/src/Renderer/2D/Renderer2D.cpp:293-304 | below capacity, the loop and the two counters give BatchModel.AppendCircle of the old state |
| Renderer2D.Renderer2D.DrawBoxCollider | DemoEngine/src/Renderer/2D/Renderer2D.cpp:308-329 | the new state is BatchModel.DrawBoxCollider of the old, with the corrected overflow test |
| Renderer2D.Renderer2D.AppendBoxOutline | DemoEngine/src/Renderer/2D/Renderer2D.cpp:320-328 | below the vertex capacity, the corner loop and the count give BatchModel.AppendBoxOutline |
| Renderer2D.Renderer2D.DrawCircleCollider | DemoEngine/src/Renderer/2D/Renderer2D.cpp:332-349 | the new state is BatchModel.DrawCircleCollider of the old, with the corrected overflow test |
| Renderer2D.Renderer2D.AppendCircleOutline | DemoEngine/src/Renderer/2D/Renderer2D.cpp:337-348 | below the vertex capacity, the segment loop and the count give BatchModel.AppendCircleOutline |
| Renderer2D.Renderer2D.DrawSprite | DemoEngine/src/Renderer/2D/Renderer2D.cpp:352-354 | DrawQuad with the sprite's colour |
| Renderer2D.Renderer2D.ResetStats | DemoEngine/src/Renderer/2D/Renderer2D.cpp:357-360 | both counters become zero; nothing else changes |
| Renderer2D.Renderer2D.GetStats | DemoEngine/src/Renderer/2D/Renderer2D.cpp:363-366 | returns the current statistics, changing nothing |
| BatchTheorems.OverflowsClosedForm | DemoEngine/src/Renderer/2D/Renderer2D.cpp:256-257 | starting from p pending quads, n more cause (p + n - 1) div 20000 restarts and leave (p + n - 1) mod 20000 + 1 pending |
| BatchTheorems.FromEmpty | DemoEngine/src/Renderer/2D/Renderer2D.cpp:256-257 | from an empty batch, n ≥ 1 quads cause (n - 1) div 20000 restarts and leave (n - 1) mod 20000 + 1 pending |
| BatchTheorems.QuadPhaseKeeps | DemoEngine/src/Renderer/2D/Renderer2D.cpp:248-271 | any run of DrawQuad keeps the batches consistent and DrawCalls equal to the draws issued |
| BatchTheorems.QuadCapacity | DemoEngine/src/Renderer/2D/Renderer2DData.h:27-29 | a consistent quad or circle batch holds at most 20000 quads and six indices per quad |
| BatchTheorems.DrawQuadStep | DemoEngine/src/Renderer/2D/Renderer2D.cpp:256-269 | one DrawQuad on a full batch issues one draw of exactly 120000 indices and leaves 1 quad pending; otherwise it draws nothing and adds one |
| BatchTheorems.QuadPhasePending | DemoEngine/src/Renderer/2D/Renderer2D.cpp:248-271 | after n sprites the quads pending are those the overflow count predicts |
| BatchTheorems.QuadPhaseQuadCount | DemoEngine/src/Renderer/2D/Renderer2D.cpp:270 | n DrawQuad calls add n to QuadCount, in uint32 |
| BatchTheorems.QuadPhaseDraws | DemoEngine/src/Renderer/2D/Renderer2D.cpp:248-271 | n sprites issue one full quad draw (120000 indices) per overflow and no other quad draw |
| BatchTheorems.DrawQuadStepCircles | DemoEngine/src/Renderer/2D/Renderer2D.cpp:228-232 | a DrawQuad on a full quad batch also draws the pending circles and empties the circle batch |
| BatchTheorems.QuadPhaseCircles | DemoEngine/src/Renderer/2D/Renderer2D.cpp:228-232 | across n sprites, the circles pending before them are drawn exactly at the first quad overflow, if there is one, and are otherwise untouched |
| BatchTheorems.CirclePhaseKeeps | DemoEngine/src/Renderer/2D/Renderer2D.cpp:288-305 | any run of DrawCircle keeps the batches consistent and DrawCalls equal to the draws issued |
| BatchTheorems.DrawCircleStep | DemoEngine/src/Renderer/2D/Renderer2D.cpp:290-303 | one DrawCircle on a full circle batch issues one draw of 120000 indices and leaves 1 circle pending |
| BatchTheorems.DrawCircleStepQuads | DemoEngine/src/Renderer/2D/Renderer2D.cpp:228-232 | a DrawCircle on a full circle batch also draws the pending quads and empties the quad batch |
| BatchTheorems.CirclePhasePending | DemoEngine/src/Renderer/2D/Renderer2D.cpp:288-305 | after n circles the circles pending are those the overflow count predicts |
| BatchTheorems.CirclePhaseQuadCount | DemoEngine/src/Renderer/2D/Renderer2D.cpp:304 | n DrawCircle calls add n to QuadCount, in uint32 |
| BatchTheorems.CirclePhaseDraws | DemoEngine/src/Renderer/2D/Renderer2D.cpp:288-305 | n circles issue one full circle draw per overflow and no other circle draw |
| BatchTheorems.CirclePhaseQuads | DemoEngine/src/Renderer/2D/Renderer2D.cpp:228-232 | across n circles, the quads pending before them are drawn exactly at the first circle overflow, if any |
| BatchTheorems.QuadScheduleShape | DemoEngine/src/Renderer/2D/Renderer2DData.h:26-29 | the draws of n quads from an empty batch are ceil(n / 20000) in number, none empty, none above 120000 indices, and 6n indices in all |
| BatchTheorems.CirclesThenEndQuads | DemoEngine/src/Renderer/2D/Renderer2D.cpp:143-147 | the quads pending when the circles start are drawn exactly once more, at the first circle overflow or at EndScene |
| BatchTheorems.EndSceneQuadDraws | DemoEngine/src/Renderer/2D/Renderer2D.cpp:143-147 | EndScene draws the pending quads once, if any |
| BatchTheorems.EndSceneCircleDraws | DemoEngine/src/Renderer/2D/Renderer2D.cpp:143-147 | EndScene draws the pending circles once, if any |
| BatchTheorems.QuadsFromEmpty | DemoEngine/src/Scene/Scene.cpp:310-329 | from an empty quad batch, the quad draws of the sprites, the circles and EndScene are exactly the schedule for the number of sprites |
| BatchTheorems.CirclesFromEmpty | DemoEngine/src/Scene/Scene.cpp:321-328 | from an empty circle batch, the circle draws of the circles and EndScene are exactly the schedule for the number of circles |
| BatchTheorems.SceneQuadDraws | DemoEngine/src/Scene/Scene.cpp:310-329 | a scene of S sprites then circles issues exactly ceil(S / 20000) quad draws of the scheduled sizes, whatever the circles do |
| BatchTheorems.SceneCircleDraws | DemoEngine/src/Scene/Scene.cpp:310-329 | a scene of C circles issues exactly ceil(C / 20000) circle draws of the scheduled sizes, whatever the sprites did |
| BatchTheorems.SpritesKeepEmptyCircles | DemoEngine/src/Scene/Scene.cpp:314-319 | sprites leave an empty circle batch empty and issue no circle draw |
| BatchTheorems.SceneTracksDraws | DemoEngine/src/Scene/Scene.cpp:310-329 | over a whole scene, DrawCalls grows by exactly the indexed draws issued |
| BatchTheorems.DrawCallsOfSchedules | DemoEngine/src/Renderer/2D/Renderer2D.cpp:175-185 | when the draws follow the two schedules, DrawCalls grows by ceil(S / 20000) + ceil(C / 20000) |
| BatchTheorems.SceneDrawCalls | DemoEngine/src/Scene/Scene.cpp:310-329 | a scene of S sprites and C circles adds ceil(S / 20000) + ceil(C / 20000) to DrawCalls, in uint32 |
| BatchTheorems.SceneQuadCount | DemoEngine/src/Scene/Scene.cpp:310-329 | such a scene adds S + C to QuadCount, in uint32 |
| BatchTheorems.QuadCountOverCircles | DemoEngine/src/Renderer/2D/Renderer2D.cpp:303-304 | circles then EndScene add the number of circles to QuadCount |
| BatchTheorems.EndSceneQuadCount | DemoEngine/src/Renderer/2D/Renderer2D.cpp:143-147 | EndScene leaves QuadCount alone |
| BatchTheorems.BoxCollidersAsWrittenFill | DemoEngine/src/Renderer/2D/Renderer2D.cpp:310 | with the guard as written, below 120000 indices every box outline goes into the same batch: the guard never fires |
| BatchTheorems.CircleCollidersAsWrittenFill | DemoEngine/src/Renderer/2D/Renderer2D.cpp:334 | with the guard as written, below 120000 indices every circle outline goes into the same batch |
| BatchTheorems.BoxColliderOverrunAsWritten | DemoEngine/src/Renderer/2D/Renderer2D.cpp:310 | with the guard as written, 20001 box colliders in one scene write 80004 points into the 80000-entry array, and the batch state is no longer consistent |
| BatchTheorems.CircleColliderOverrunAsWritten | DemoEngine/src/Renderer/2D/Renderer2D.cpp:334 | with the guard as written, 2501 circle colliders in one scene write 80032 points into the 80000-entry array, and the batch state is no longer consistent |
| BatchTheorems.QuadPhaseNoColliders | DemoEngine/src/Renderer/2D/Renderer2D.cpp:248-271 | a run of DrawQuad leaves empty collider batches empty |
| BatchTheorems.CirclePhaseNoColliders | DemoEngine/src/Renderer/2D/Renderer2D.cpp:288-305 | a run of DrawCircle leaves empty collider batches empty |
| BatchTheorems.HiddenCollidersDrawNothing | DemoEngine/src/Scene/Scene.cpp:151-187 | with colliders hidden the editor scene ends with the Flush of its sprites and circles, and RenderColliderDebug adds nothing |
| BatchTheorems.HiddenCollidersAsRuntime | DemoEngine/src/Scene/Scene.cpp:126-188 | with colliders hidden the editor scene submits exactly what the runtime render submits, under the editor camera |
| Registries.EntityID | DemoEngine/src/Scene/Scene.cpp:136 | `(int)entity` is a signed 32-bit value congruent to the handle modulo 2^32, equal to the handle below 2^31 |
| Registries.EmplaceOrReplace | DemoEngine/src/Scene/Scene.h:99 | the entity carries the component afterwards and nothing else in the registry changes |
| Registries.Remove | DemoEngine/src/Scene/Entity.h:59-63 | the entity no longer carries the type and keeps everything else; other entities are untouched |
| Registries.DefaultTag | DemoEngine/src/Scene/Scene.cpp:88 | the tag is the name, or "Entity" when the name is empty; never empty |
| Registries.NewEntityShape | DemoEngine/src/Scene/Scene.cpp:81-91 | a new entity holds exactly a default transform, the given UUID and the default tag |
| Registries.Restrict | DemoEngine/src/Scene/Scene.h:94-101 | the components of the listed types, exactly those the set has |
| Registries.DuplicateIsCopyButID | DemoEngine/src/Scene/Scene.cpp:93-119 | the duplicate of an entity with a tag and a transform is that entity with its ID replaced by the new UUID, and nothing else |
| Registries.DuplicateDefaults | DemoEngine/src/Scene/Scene.cpp:97-104 | a source without tag or transform gives the duplicate tag "Entity" and the default transform; the duplicate always has the new UUID |
| Registries.CopiedTypesInOrder | DemoEngine/src/Scene/Scene.cpp:107-116 | the ten CopyComponentIfExists calls, in order, cover the copied types |
| Registries.CopiedOverAll | DemoEngine/src/Scene/Scene.cpp:107-116 | putting every copied component of the source over the new entity gives the duplicate, and the registry stays well typed |
| Registries.IdView | DemoEngine/src/Scene/Scene.cpp:48 | the ID view lists only entities below the bound that carry an IDComponent |
| Registries.IdViewSorted | DemoEngine/src/Scene/Scene.cpp:48-58 | the ID view is walked in strictly ascending handle order, so no entity is visited twice |
| Registries.IdViewComplete | DemoEngine/src/Scene/Scene.cpp:48-58 | every entity with an IDComponent is in the ID view |
| Registries.RecreatedSnoc | DemoEngine/src/Scene/Scene.cpp:51-58 | one more pass recreates one more entity at the next handle under its UUID and tag, and maps its UUID there |
| Registries.RecreatedBelowNext | DemoEngine/src/Scene/Scene.cpp:51-58 | visiting one more source handle recreates it when it has an ID and changes nothing otherwise |
| Registries.RecreatedBelowIsRecreated | DemoEngine/src/Scene/Scene.cpp:51-58 | the handle-by-handle loop builds the same registry as recreating the ID view in order |
| Registries.UuidMapBelowIsUuidMap | DemoEngine/src/Scene/Scene.cpp:51-58 | the handle-by-handle loop builds the same UUID map as the ID view |
| Registries.RecreatedShape | DemoEngine/src/Scene/Scene.cpp:51-58 | recreation adds exactly the handles base..base+k-1, the k-th holding the k-th view entity's UUID and tag, and keeps the destination's own entities |
| Registries.RecreatedKeeps | DemoEngine/src/Scene/Scene.cpp:51-58 | recreation adds exactly the new handles and keeps the destination's entities |
| Registries.RecreatedAt | DemoEngine/src/Scene/Scene.cpp:53-55 | the entity recreated at base + k carries the k-th view entity's UUID, tag and a default transform |
| Registries.RecreatedWellTyped | DemoEngine/src/Scene/Scene.cpp:51-58 | recreation keeps every pool well typed |
| Registries.UuidMapRange | DemoEngine/src/Scene/Scene.cpp:57 | every view entity's UUID is mapped, and only to a recreated handle |
| Registries.UuidMapDistinct | DemoEngine/src/Scene/Scene.cpp:57 | with distinct UUIDs the k-th view entity's UUID maps to base + k |
| Registries.CopyPool | DemoEngine/src/Scene/Scene.h:104-113 | CopyComponent<T> never adds or removes an entity |
| Registries.CopyPoolUntargeted | DemoEngine/src/Scene/Scene.h:104-113 | an entity no source maps to keeps its components through CopyComponent<T> |
| Registries.CopyPoolAt | DemoEngine/src/Scene/Scene.h:104-113 | the sole source entity of a target gives it its T when it has one, and leaves it alone otherwise |
| Registries.CopyPools | DemoEngine/src/Scene/Scene.cpp:61-70 | the ten pool copies never add or remove an entity |
| Registries.CopyPoolsAt | DemoEngine/src/Scene/Scene.cpp:61-70 | a target with a sole source ends up with what it held, overwritten by that source's components of the copied types |
| Registries.CopyPoolWellTyped | DemoEngine/src/Scene/Scene.h:104-113 | copying a pool keeps the destination well typed |
| Registries.CopyPoolsWellTyped | DemoEngine/src/Scene/Scene.cpp:61-70 | copying the pools keeps the destination well typed |
| Registries.IdViewIdentified | DemoEngine/src/Scene/Scene.cpp:53-54 | when every ID-carrying entity has a tag, every view entity has an ID and a tag, as the first loop reads |
| Registries.CopyReady | DemoEngine/src/Scene/Scene.h:109 | after the first loop, `enttMap.at` finds every source entity's UUID, and it maps to a live destination entity |
| Registries.CopiedScene | DemoEngine/src/Scene/Scene.cpp:34-74 | the copied registry holds exactly the destination's entities plus one new handle per ID-view entity |
| Registries.CopyStageReady | DemoEngine/src/Scene/Scene.cpp:48-70 | the state the first loop leaves lets the pool copies run, and the two together give the copied scene, well typed |
| Registries.CopyTargets | DemoEngine/src/Scene/Scene.cpp:57 | with distinct UUIDs the k-th view entity goes to base + k and distinct entities go to distinct handles |
| Registries.NewEntityOverwritten | DemoEngine/src/Scene/Scene.cpp:61-70 | a new entity under c's UUID and tag, overwritten by all of c but its ID, is c itself |
| Registries.CopiedSceneKeepsEntities | DemoEngine/src/Scene/Scene.cpp:34-74 | with distinct UUIDs and every entity tagged and transformed, each copied entity holds exactly its source's components, and the destination's own entities are untouched |
| Registries.CopiedSceneAt | DemoEngine/src/Scene/Scene.cpp:34-74 | the k-th view entity's copy at base + k holds exactly its components |
| Registries.CopiedSceneOutside | DemoEngine/src/Scene/Scene.cpp:34-74 | the destination's own entities come through the copy untouched |
| Registries.CopiedEntityAt | DemoEngine/src/Scene/Scene.cpp:61-70 | a recreated entity whose source is its only source ends with exactly the source's components |
| Registries.CopyPoolsUntargeted | DemoEngine/src/Scene/Scene.cpp:61-70 | an entity no UUID maps to keeps its components through all the pool copies |
| Registries.FirstPrimaryCamera | DemoEngine/src/Scene/Scene.cpp:292-307 | the result is a primary camera with a transform and no earlier entity is one; with no result, no entity below the bound is one |
| Registries.ResizedBelow | DemoEngine/src/Scene/Scene.cpp:337-345 | the resize loop adds and removes no entity |
| Registries.ResizeEffect | DemoEngine/src/Scene/Scene.cpp:332-346 | a resize gives every free camera the new viewport size, leaves fixed-ratio cameras as they were, changes no other component and keeps the registry well typed |
| Registries.DigitChar | DemoEngine/src/Scene/Scene.cpp:208 | a decimal digit character with the digit's value |
| Registries.NatToString | DemoEngine/src/Scene/Scene.cpp:208 | a non-empty string of digits without a leading zero |
| Registries.NatToStringValue | DemoEngine/src/Scene/Scene.cpp:208 | reading the digits back gives the number |
| Registries.IntToStringValue | DemoEngine/src/Scene/Scene.cpp:208 | `std::to_string(i)` starts with '-' exactly for negative i and its digits read back to abs(i) |
| Registries.IntToStringInjective | DemoEngine/src/Scene/Scene.cpp:208 | distinct ids give distinct strings |
| Registries.RemoteNameInjective | DemoEngine/src/Scene/Scene.cpp:208 | distinct ids give distinct "Remote_<id>" names |
| Registries.FirstTagged | DemoEngine/src/Scene/Scene.cpp:209-214 | the result is tagged with the name and no earlier entity is; with no result, no entity below the bound is |
| Registries.RemoteEntity | DemoEngine/src/Scene/Scene.cpp:215-216 | the remote entity holds a transform, an ID, the tag "Remote_<id>" and a cyan sprite, each in its own pool |
| Registries.FirstTaggedBelow | DemoEngine/src/Scene/Scene.cpp:209-214 | the tag search below n depends only on the entities below n |
| Registries.RemoteEntityFoundAgain | DemoEngine/src/Scene/Scene.cpp:206-218 | once "Remote_<id>" was created, the next search finds it, so a second call creates nothing |
| Scenes.Handled | DemoEngine/src/Scene/Scene.cpp:15-21 | the camera handler gives an added camera the scene's viewport size and keeps its flags; an external or absent handler and every other type leave the component as added |
| Scenes.Logged | DemoEngine/src/Scene/Scene.h:73-87 | OnComponentAdded calls the outside handler registered for the type, if any, once, on that entity |
| Scenes.CreationLogSteps | DemoEngine/src/Scene/Scene.cpp:85-87 | the three AddComponent calls log the handlers for transform, ID and tag, in that order |
| Scenes.NewEntitySteps | DemoEngine/src/Scene/Scene.cpp:84-88 | the components added one by one, with the tag set afterwards, make up the new entity |
| Scenes.RecreatedUpToNext | DemoEngine/src/Scene/Scene.cpp:51-58 | one pass of the first CopyTo loop recreates the entity at the next handle and logs its creation, or changes nothing |
| Scenes.Pasted | DemoEngine/src/Scene/Scene.h:123-128 | the target carries the component afterwards: added through its handler when it had none of that type, overwritten as copied otherwise; nothing else changes |
| Scenes.CameraHandlerDispatch | DemoEngine/src/Scene/Scene.cpp:11-22 | with the constructor's handlers a new camera takes the viewport size and no outside handler runs; registering one for cameras replaces that |
| Scenes.Entity.IsValid | DemoEngine/src/Scene/Entity.h:72 | true exactly when the handle is not null |
| Scenes.Entity.Equals | DemoEngine/src/Scene/Entity.h:75 | equal exactly when handle and scene are equal |
| Scenes.Entity.NotEquals | DemoEngine/src/Scene/Entity.h:78 | the negation of == |
| Scenes.NullEntityIsFalse | DemoEngine/src/Scene/Entity.h:92-95 | the default Entity is false, and differs from every valid one |
| Scenes.CopyComponentIfExists | DemoEngine/src/Scene/Scene.h:94-101 | the destination gets the source's T, added or replaced, when the source has one, and keeps everything else |
| Scenes.CopyEntityComponents | DemoEngine/src/Scene/Scene.cpp:107-116 | the ten calls put every component of the source but its ID over the destination |
| Scenes.CopyComponent | DemoEngine/src/Scene/Scene.h:104-113 | the view loop of CopyComponent<T> computes the pool copy CopyPool |
| Scenes.CopyComponentPools | DemoEngine/src/Scene/Scene.cpp:61-70 | the ten calls compute the pool copies in declaration order |
| Scenes.Scene.constructor | DemoEngine/src/Scene/Scene.cpp:11-22 | an empty registry, the member initialisers (colliders shown, not connecting, zero viewport, empty clipboard), the camera handler registered |
| Scenes.Scene.GetComponent | DemoEngine/src/Scene/Entity.h:29-33 | only on an entity that has a T; returns its T |
| Scenes.Scene.AddComponent | DemoEngine/src/Scene/Entity.h:17-25 | only on an entity without a T. The component is emplaced and then passed through the handler, which logs its outside call if any; nothing else changes |
| Scenes.Scene.ReplaceComponent | DemoEngine/src/Scene/Entity.h:29-33 | writing through the returned reference replaces the entity's T and nothing else |
| Scenes.Scene.RemoveComponent | DemoEngine/src/Scene/Entity.h:59-63 | only on an entity with a T; afterwards it has none and keeps the rest |
| Scenes.Scene.RegisterComponentHandler | DemoEngine/src/Scene/Scene.h:66-71 | the handler for T is set, replacing any earlier one |
| Scenes.Scene.OnComponentAdded | DemoEngine/src/Scene/Scene.h:73-87 | the handler registered for T runs on the entity's T, if there is one |
| Scenes.Scene.CopyComponent | DemoEngine/src/Scene/Scene.h:116-129 | an entity with a T fills the clipboard with it; one without leaves the clipboard alone |
| Scenes.Scene.PasteComponent | DemoEngine/src/Scene/Scene.h:131-138 | with a copied component it is pasted into the target (see Pasted) and the clipboard is emptied; with none nothing changes |
| Scenes.Scene.PasteInto | DemoEngine/src/Scene/Scene.h:123-128 | the paste function: AddComponent when the target has none of the type, otherwise overwrite |
| Scenes.Scene.HasComponent | DemoEngine/src/Scene/Entity.h:45-48 | true exactly when the entity is live and carries a T |
| Scenes.Scene.HasCopiedComponent | DemoEngine/src/Scene/Scene.h:140-143 | true exactly when the clipboard holds a component; CopyComponent fills it and PasteComponent empties it |
| Scenes.Scene.GetShowColliders | DemoEngine/src/Scene/Scene.h:57 | returns the collider flag: true in a new scene (constructor row) and as SetShowColliders last set it |
| Components.SceneCamera.SetViewportSize | DemoEngine/src/Scene/Scene.cpp:337-345 | the camera takes the new width and height, and its projection becomes the one for that size; SceneCamera.cpp is not part of this model, so the projection is a symbolic term |
| Scenes.Scene.SetShowColliders | DemoEngine/src/Scene/Scene.h:56-57 | the collider flag is set, and GetShowColliders returns it |
| Scenes.Scene.CreateEntityWithID | DemoEngine/src/Scene/Scene.cpp:81-91 | a new handle holding the new-entity components, with the three creation handler calls logged |
| Scenes.Scene.CreateHandle | DemoEngine/src/Scene/Scene.cpp:84 | `m_Registry.create()` hands out a fresh handle with no components |
| Scenes.Scene.CreateEntity | DemoEngine/src/Scene/Scene.cpp:76-79 | CreateEntityWithID under a freshly drawn UUID |
| Scenes.Scene.DuplicateEntity | DemoEngine/src/Scene/Scene.cpp:93-119 | a new handle holding the duplicate of the source, with the creation handler calls logged |
| Scenes.Scene.CopyComponentsOver | DemoEngine/src/Scene/Scene.cpp:107-116 | the ten copies turn the new entity into the duplicate of the source |
| Scenes.Scene.DestroyEntity | DemoEngine/src/Scene/Scene.cpp:121-124 | the entity and all its components leave the registry; nothing else changes |
| Scenes.Scene.FindOrCreateNetworkEntity | DemoEngine/src/Scene/Scene.cpp:206-218 | the first entity tagged "Remote_<id>" when there is one, changing nothing; otherwise a new remote entity with its handler calls |
| Scenes.Scene.CreateNetworkEntity | DemoEngine/src/Scene/Scene.cpp:215-217 | a new entity tagged "Remote_<id>" with a cyan sprite, added through AddComponent |
| Scenes.Scene.OnViewportResize | DemoEngine/src/Scene/Scene.cpp:332-346 | the scene keeps the new size and the cameras are resized as ResizeEffect states |
| Scenes.Scene.OnUpdateEditor | DemoEngine/src/Scene/Scene.cpp:126-188 | the renderer ends in the state of the editor frame: BeginScene, the sprite, circle and (when shown) collider views, EndScene |
| Scenes.Scene.OnUpdateRuntime | DemoEngine/src/Scene/Scene.cpp:292-329 | the renderer ends in the runtime frame: nothing without a primary camera, otherwise the sprites and circles under the first primary camera |
| Scenes.Scene.RecreateEntities | DemoEngine/src/Scene/Scene.cpp:48-58 | the first CopyTo loop recreates the ID view at the next handles and returns the UUID map, logging each creation |
| Scenes.Scene.RecreateEntity | DemoEngine/src/Scene/Scene.cpp:51-58 | one pass of that loop keeps the loop invariant one handle further |
| Scenes.Scene.CopyTo | DemoEngine/src/Scene/Scene.cpp:34-74 | the destination gets the source's viewport and scene ID and the copied registry, and is marked a non-editor scene with the source's connect flag |
| Scenes.Scene.CopyInto | DemoEngine/src/Scene/Scene.cpp:39-73 | the body of CopyTo on a scene: metadata, the two loops, the flags |
| Scenes.Scene.CopyEntities | DemoEngine/src/Scene/Scene.cpp:43-70 | the two loops of CopyTo give the copied scene |
| Scenes.Scene.Copy | DemoEngine/src/Scene/Scene.cpp:27-32 | a fresh scene named "UntitledScene" with the constructor's handlers and an empty clipboard, holding the copied registry and the source's viewport, scene ID and connect flag |
| Scenes.SubmitSprites | DemoEngine/src/Scene/Scene.cpp:131-138 | the sprite loop submits DrawSprite for each Transform+SpriteRenderer entity in order |
| Scenes.SubmitSprite | DemoEngine/src/Scene/Scene.cpp:133-137 | one pass of the sprite loop |
| Scenes.SubmitCircles | DemoEngine/src/Scene/Scene.cpp:140-148 | the circle loop submits DrawCircle for each Transform+CircleRenderer entity, with its colour, thickness and fade |
| Scenes.SubmitCircle | DemoEngine/src/Scene/Scene.cpp:143-147 | one pass of the circle loop |
| Scenes.SubmitBoxColliders | DemoEngine/src/Scene/Scene.cpp:155-167 | the box loop submits a green DrawBoxCollider per Transform+BoxCollider2D entity, translated by the offset scaled by the entity's scale |
| Scenes.SubmitBoxCollider | DemoEngine/src/Scene/Scene.cpp:156-167 | one pass of the box collider loop |
| Scenes.SubmitCircleColliders | DemoEngine/src/Scene/Scene.cpp:171-183 | the circle collider loop submits a green DrawCircleCollider per Transform+CircleCollider2D entity at the scaled offset |
| Scenes.SubmitCircleCollider | DemoEngine/src/Scene/Scene.cpp:172-183 | one pass of the circle collider loop |
| Scenes.HiddenCollidersEditorIsRuntime | DemoEngine/src/Scene/Scene.cpp:151-187 | with colliders hidden the editor frame is the sprites-then-circles scene the runtime submits |
| Scenes.NoPrimaryCameraNoDraw | DemoEngine/src/Scene/Scene.cpp:310 | without a primary camera the runtime issues nothing at all |
| Scenes.FindTagged | DemoEngine/src/Scene/Scene.cpp:209-214 | the tag loop returns the first entity tagged with the name, or none |
| Scenes.ResizeCameras | DemoEngine/src/Scene/Scene.cpp:337-345 | the camera loop gives the resized registry and keeps it well typed |

## Left out

- Shader, texture-slot and vertex-array binding, the depth test and the line width are left out. They change no data the model tracks, so the call log does not record them.
- The shader mismatch is left out. The box-collider branch binds the circle-collider shader but sets the view-projection uniform on the box-collider shader (DemoEngine/src/Renderer/2D/Renderer2D.cpp:202-203). No shader is modelled, so its effect is not captured. Shader.cpp is not part of this model.
- Shutdown, Clear and SetClearColor are left out. Shutdown only frees the quad vertex array, and the model has no deallocation. Clear and SetClearColor are plain OpenGL state calls.
- Floating-point arithmetic is not modelled. Colours and sizes are `real`s. Matrices and world positions are symbolic terms, so `transform * point` is the term that would be evaluated, not its value.
- The circle-collider outline angle `i / 32 * 2π` is kept as the point's segment number.
- Renderer2D.Renderer2D.DrawQuad and the other draw entry points require that StartBatch has run since Init, through BeginScene. The source writes through a null pointer otherwise, so the model states this as a precondition rather than an error path.
- Physics (box2d stepping, contact events, syncing transforms), audio, the network client (ENet), the player controller system, the serialiser and the editor panels are not modelled. This covers the parts of OnUpdateRuntime before the camera search (DemoEngine/src/Scene/Scene.cpp:222-289).
- UUIDs and the scene ID are drawn at random in the source. Here they are inputs to the methods that draw them.
- entt views are walked in ascending handle order. entt walks a view over the packed array of its smallest pool, which need not be creation or handle order. The model fixes one order, and that order decides:
  - the order in which SubmitSprites, SubmitCircles and the two collider loops append vertices, and so the contents and order of every recorded UploadVertices call;
  - which sprites and circles share a batch when one overflows at 20000;
  - which destination handle base + k each entity receives in CopyTo's first loop (Registries.RecreatedAt), and which of two entities with the same UUID wins the UUID map;
  - which entity is "first" for the primary-camera search and the tag search.
  The counting theorems (BatchTheorems.SceneDrawCalls, BatchTheorems.QuadScheduleShape, BatchTheorems.SceneQuadCount) do not depend on the order.
- Registries.FirstPrimaryCamera and Registries.FirstTagged: "no earlier entity" means no lower handle, the fixed order above; the program's first match is the first in entt's pool order, which the model does not capture.
- Handles are handed out in increasing order and never recycled. entt reuses destroyed handles with a new version.
- Outside handlers are known by a number, and the model logs each call to one. What a registered handler does to the component is not modelled, because handlers registered outside the core cannot be seen.
- The renderer is a parameter of OnUpdateEditor and OnUpdateRuntime, not a global, and the editor camera is reduced to its view-projection.
- The `Timestep` argument is not modelled, because the render part does not use it.
- Scenes.Scene.CopyTo requires that every entity with an IDComponent also has a TagComponent, because the source reads both for each entity. It also requires that every source entity lies below the next handle, that every source entity carries an IDComponent, and that the source is not the destination. The source would assert or misbehave on an entity without a tag. The IDComponent requirement is stronger than the source needs: an entity with a copied component but no ID fails at `get<IDComponent>` or `enttMap.at` (DemoEngine/src/Scene/Scene.h:109), but an entity with no component at all is skipped by every view (DemoEngine/src/Scene/Scene.cpp:48, DemoEngine/src/Scene/Scene.h:104-113). Every creation path of the model (CreateEntityWithID, DuplicateEntity, CopyTo) gives the entity an ID; only RemoveComponent of the ID, or a bare `m_Registry.create()`, leaves an entity outside the requirement.
- Scenes.Scene.CopyTo: when the destination is null, the source copies into a new scene that the caller never sees. The model does the same by leaving nothing changed.
- Scenes.Scene.CopyInto, Scenes.Scene.RecreateEntities and Scenes.Scene.CopyEntities take the source scene as values: its registry, handle bound and settings. Source and destination are therefore never aliased.
- Registries.UuidOf and Registries.TagOf give 0 and the empty string for an entity without an ID or a tag. Every caller's precondition rules that case out.
- Viewport sizes are `nat`. The source's `uint32_t` sizes are only stored and passed on, never computed with.
- `LOG_INFO` calls, including the default branch of OnComponentAdded when no handler is registered, are not modelled.
- Renderer2D.Renderer2D.DrawBoxCollider and Renderer2D.Renderer2D.DrawCircleCollider use the corrected overflow test described under Findings. The guard as written is modelled separately by BatchModel.DrawBoxColliderAsWritten and BatchModel.DrawCircleColliderAsWritten.
- A DrawQuad or DrawCircle on a full batch calls NextBatch. That flushes both the quad and the circle batch and restarts all four batches, so pending collider outlines are discarded without being drawn (BatchModel.NextBatchDiscardsColliders). The source's own comment on NextBatch (DemoEngine/src/Renderer/2D/Renderer2D.cpp:227) speaks of the current batch; the model follows the code, and the lemmas state the consequences.

## Findings

| source | as written | input that shows it | evidently intended | confidence | as-written member | corrected member |
|---|---|---|---|---|---|---|
| DemoEngine/src/Renderer/2D/Renderer2D.cpp:310 | DrawBoxCollider restarts the batch only at `BoxColliderIndexCount >= MaxIndices` (120000). The box-collider array holds MaxVertices (80000) vertices, one index per vertex | 20001 DrawBoxCollider calls after one BeginScene: the guard never fires and the last outline writes vertices 80000..80003, past the end of the array | restart when the index count reaches the vertex capacity (`>= MaxVertices`), so every batch fits its array | not executed | BatchTheorems.BoxColliderOverrunAsWritten | BatchModel.DrawBoxColliderKeeps |
| DemoEngine/src/Renderer/2D/Renderer2D.cpp:334 | DrawCircleCollider restarts the batch only at `CircleColliderIndexCount >= MaxIndices` (120000). The circle-collider array holds 80000 vertices, 32 per outline | 2501 DrawCircleCollider calls after one BeginScene: the last outline writes vertices 80000..80031, past the end of the array | restart when the index count reaches the vertex capacity (`>= MaxVertices`) | not executed | BatchTheorems.CircleColliderOverrunAsWritten | BatchModel.DrawCircleColliderKeeps |
