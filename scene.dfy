/**
 * Scene.h, Scene.cpp and Entity.h: a Scene owns the entt registry of its
 * entities, a one-slot component clipboard, the handlers called when a
 * component is added, and the flags the editor sets; an Entity is a handle
 * paired with the scene it lives in.
 *
 * The registry is the value Registries.Registry, held in a field the methods
 * reassign; handles are handed out in increasing order and never reused.
 * The renderer is passed to the methods that draw, and every registry view
 * is walked in ascending handle order.
 */
module Scenes {
  import opened Geometry
  import opened Components
  import opened BatchModel
  import opened BatchTheorems
  import opened Registries
  import Renderer2D

  /**
   * A function stored in m_ComponentHandlers: the camera handler the Scene
   * constructor registers, or a handler registered from outside, known only
   * by a number.
   */
  datatype Handler = CameraViewportHandler | ExternalHandler(id: nat)

  /** One call of an outside handler: which handler, on which entity, for which component type. */
  datatype HandlerCall = HandlerCall(handler: nat, entity: nat, componentType: ComponentType)

  /**
   * The component as it stands after OnComponentAdded: the camera handler
   * gives a newly added camera the scene's viewport size; no other handler
   * changes what was added.
   */
  function Handled(c: Component, hs: map<ComponentType, Handler>, width: nat, height: nat): (r: Component)
    ensures r.Type() == c.Type()
    ensures !c.Camera? ==> r == c
    ensures c.Camera? ==> r.camera.primary == c.camera.primary && r.camera.fixedAspectRatio == c.camera.fixedAspectRatio
    ensures c.Camera? && (CameraType !in hs || hs[CameraType].ExternalHandler?) ==> r == c
    ensures c.Camera? && CameraType in hs && hs[CameraType] == CameraViewportHandler ==>
      r.camera.camera == SceneCamera(width, height)
  {
    if c.Camera? && CameraType in hs && hs[CameraType] == CameraViewportHandler
    then Camera(c.camera.(camera := c.camera.camera.SetViewportSize(width, height)))
    else c
  }

  /** The outside handler call OnComponentAdded makes for a component of type t on entity h, if any. */
  function Logged(hs: map<ComponentType, Handler>, h: nat, t: ComponentType): (calls: seq<HandlerCall>)
    ensures |calls| <= 1
    ensures calls != [] <==> t in hs && hs[t].ExternalHandler?
    ensures calls != [] ==> calls[0] == HandlerCall(hs[t].id, h, t)
  {
    if t in hs && hs[t].ExternalHandler? then [HandlerCall(hs[t].id, h, t)] else []
  }

  /** The handler calls of CreateEntityWithID: for the transform, the ID and the tag, in that order. */
  function CreationLog(hs: map<ComponentType, Handler>, h: nat): seq<HandlerCall>
  {
    Logged(hs, h, TransformType) + Logged(hs, h, IDType) + Logged(hs, h, TagType)
  }

  /** The handler calls of the three AddComponent calls of CreateEntityWithID, appended one by one. */
  lemma CreationLogSteps(log: seq<HandlerCall>, hs: map<ComponentType, Handler>, h: nat)
    ensures log + Logged(hs, h, TransformType) + Logged(hs, h, IDType) + Logged(hs, h, TagType) == log + CreationLog(hs, h)
  {
  }

  /** The components CreateEntityWithID adds one by one, the tag then set to its default, make up NewEntity. */
  lemma NewEntitySteps(uuid: UUID, name: string)
    ensures map[TransformType := Transform(DefaultTransform)][IDType := ID(IDComponent(uuid))]
              [TagType := Tag(TagComponent(""))][TagType := Tag(TagComponent(DefaultTag(name)))] == NewEntity(uuid, name)
  {
  }

  lemma UpdateTwice(r: Registry, h: nat, a: ComponentSet, b: ComponentSet)
    ensures r[h := a][h := b] == r[h := b]
  {
  }

  /** The handler calls of creating k entities at handles base, base + 1, ... */
  function CreationLogs(hs: map<ComponentType, Handler>, base: nat, k: nat): seq<HandlerCall>
  {
    if k == 0 then [] else CreationLogs(hs, base, k - 1) + CreationLog(hs, base + k - 1)
  }

  /** One more creation appended to a log holding the first k: the log of the first k + 1. */
  lemma CreationLogsStep(log: seq<HandlerCall>, hs: map<ComponentType, Handler>, base: nat, k: nat)
    ensures log + CreationLogs(hs, base, k) + CreationLog(hs, base + k) == log + CreationLogs(hs, base, k + 1)
  {
  }

  /**
   * A destination state (registry, next handle, handler calls) once the
   * entities of the ID view of src below h are recreated from handle base on,
   * m mapping their UUIDs to the new handles.
   */
  ghost predicate RecreatedUpTo(r: Registry, n: nat, calls: seq<HandlerCall>, hs: map<ComponentType, Handler>,
                                sr: Registry, h: nat, m: map<UUID, nat>, d0: Registry, base: nat, log0: seq<HandlerCall>)
  {
    && r == RecreatedBelow(d0, base, sr, h)
    && m == UuidMapBelow(base, sr, h)
    && n == base + |IdView(sr, h)|
    && calls == log0 + CreationLogs(hs, base, |IdView(sr, h)|)
  }

  /** Visiting source entity h recreates it at the next handle when it carries an ID, and changes nothing otherwise. */
  lemma RecreatedUpToNext(r: Registry, n: nat, calls: seq<HandlerCall>, hs: map<ComponentType, Handler>,
                          sr: Registry, h: nat, m: map<UUID, nat>, d0: Registry, base: nat, log0: seq<HandlerCall>)
    requires RecreatedUpTo(r, n, calls, hs, sr, h, m, d0, base, log0)
    ensures Has(sr, h, IDType) ==>
      RecreatedUpTo(r[n := NewEntity(UuidOf(sr, h), TagOf(sr, h))], n + 1, calls + CreationLog(hs, n), hs,
                    sr, h + 1, m[UuidOf(sr, h) := n], d0, base, log0)
    ensures !Has(sr, h, IDType) ==> RecreatedUpTo(r, n, calls, hs, sr, h + 1, m, d0, base, log0)
  {
    RecreatedBelowNext(d0, base, sr, h + 1);
    if Has(sr, h, IDType) {
      assert IdView(sr, h + 1) == IdView(sr, h) + [h];
      CreationLogsStep(log0, hs, base, |IdView(sr, h)|);
    } else {
      assert IdView(sr, h + 1) == IdView(sr, h);
    }
  }

  /**
   * PasteComponent's effect on the target registry: the component is added,
   * through OnComponentAdded, when the target lacks its type, and otherwise
   * overwrites the one there; nothing else changes.
   */
  function Pasted(r: Registry, h: nat, c: Component, hs: map<ComponentType, Handler>, width: nat, height: nat): (r': Registry)
    requires h in r
    ensures Has(r', h, c.Type())
    ensures r'.Keys == r.Keys && forall k :: k in r && k != h ==> r'[k] == r[k]
    ensures r'[h] - {c.Type()} == r[h] - {c.Type()}
    ensures Has(r, h, c.Type()) ==> r'[h][c.Type()] == c
    ensures !Has(r, h, c.Type()) ==> r'[h][c.Type()] == Handled(c, hs, width, height)
    ensures WellTyped(r) ==> WellTyped(r')
  {
    if Has(r, h, c.Type()) then r[h := r[h][c.Type() := c]]
    else r[h := r[h][c.Type() := Handled(c, hs, width, height)]]
  }

  /** The handlers a new Scene starts with: the camera handler, for CameraComponent. */
  const DefaultHandlers: map<ComponentType, Handler> := map[CameraType := CameraViewportHandler]

  /**
   * With the constructor's handlers, adding a camera sets it to the scene's
   * viewport size and calls no outside handler; a handler registered for
   * CameraComponent replaces that behaviour.
   */
  lemma CameraHandlerDispatch(c: CameraComponent, h: nat, width: nat, height: nat, id: nat)
    ensures Handled(Camera(c), DefaultHandlers, width, height) == Camera(c.(camera := SceneCamera(width, height)))
    ensures Logged(DefaultHandlers, h, CameraType) == []
    ensures Handled(Camera(c), DefaultHandlers[CameraType := ExternalHandler(id)], width, height) == Camera(c)
    ensures Logged(DefaultHandlers[CameraType := ExternalHandler(id)], h, CameraType) == [HandlerCall(id, h, CameraType)]
  {
  }

  /** The scene's plain fields, grouped so that a method can say which of them it leaves alone. */
  datatype SceneSettings = SceneSettings(
    name: string, isEditorScene: bool, showColliders: bool, shouldConnectToServer: bool,
    viewportWidth: nat, viewportHeight: nat, sceneID: UUID)

  /** Entity: an entt handle and the scene it belongs to; the default one is the null handle in no scene. */
  datatype Entity = Entity(handle: EntityHandle, scene: Scene?)
  {
    /** operator bool: the handle is not null. */
    function IsValid(): (b: bool)
      ensures b <==> handle != NullHandle
    {
      handle.Handle?
    }

    /** operator ==: same handle and same scene. */
    function Equals(other: Entity): (b: bool)
      ensures b <==> this == other
    {
      handle == other.handle && scene == other.scene
    }

    /** operator !=: the negation of ==. */
    function NotEquals(other: Entity): (b: bool)
      ensures b <==> this != other
    {
      !Equals(other)
    }
  }

  /** Entity(): the null handle and no scene. */
  const NullEntity: Entity := Entity(NullHandle, null)

  /** A default-constructed Entity is false. */
  lemma NullEntityIsFalse()
    ensures !NullEntity.IsValid()
    ensures forall e: Entity :: e.IsValid() ==> e.NotEquals(NullEntity)
  {
  }

  /**
   * CopyComponentIfExists<T>(dst, src): when the source entity has a T, the
   * destination gets it, added or replaced. Entities are given by their
   * component sets; the result is the destination's set afterwards.
   */
  method CopyComponentIfExists(dst: ComponentSet, src: ComponentSet, t: ComponentType) returns (r: ComponentSet)
    ensures r == dst + Restrict(src, [t])
  {
    r := dst;
    if t in src {
      r := r[t := src[t]];
    }
    assert t in src ==> Restrict(src, [t]) == map[t := src[t]];
    assert t !in src ==> Restrict(src, [t]) == map[];
  }

  /**
   * The ten CopyComponentIfExists<T> calls DuplicateEntity makes, one per
   * copied type in declaration order: the destination ends up with every
   * component the source has, the IDComponent excepted, put over its own.
   */
  method CopyEntityComponents(dst: ComponentSet, src: ComponentSet) returns (r: ComponentSet)
    ensures r == dst + Restrict(src, CopiedTypes)
  {
    ghost var ts: seq<ComponentType> := [];
    assert dst + Restrict(src, ts) == dst;
    r := dst;
    CopyOverNext(dst, src, ts, TagType);
    r := CopyComponentIfExists(r, src, TagType);
    ts := ts + [TagType];
    CopyOverNext(dst, src, ts, TransformType);
    r := CopyComponentIfExists(r, src, TransformType);
    ts := ts + [TransformType];
    CopyOverNext(dst, src, ts, CameraType);
    r := CopyComponentIfExists(r, src, CameraType);
    ts := ts + [CameraType];
    CopyOverNext(dst, src, ts, SpriteRendererType);
    r := CopyComponentIfExists(r, src, SpriteRendererType);
    ts := ts + [SpriteRendererType];
    CopyOverNext(dst, src, ts, CircleRendererType);
    r := CopyComponentIfExists(r, src, CircleRendererType);
    ts := ts + [CircleRendererType];
    CopyOverNext(dst, src, ts, Rigidbody2DType);
    r := CopyComponentIfExists(r, src, Rigidbody2DType);
    ts := ts + [Rigidbody2DType];
    CopyOverNext(dst, src, ts, BoxCollider2DType);
    r := CopyComponentIfExists(r, src, BoxCollider2DType);
    ts := ts + [BoxCollider2DType];
    CopyOverNext(dst, src, ts, CircleCollider2DType);
    r := CopyComponentIfExists(r, src, CircleCollider2DType);
    ts := ts + [CircleCollider2DType];
    CopyOverNext(dst, src, ts, AudioType);
    r := CopyComponentIfExists(r, src, AudioType);
    ts := ts + [AudioType];
    CopyOverNext(dst, src, ts, PlayerControllerType);
    r := CopyComponentIfExists(r, src, PlayerControllerType);
    ts := ts + [PlayerControllerType];
    CopiedTypesInOrder();
  }

  /**
   * CopyComponent<T>(dst, src, enttMap): every source entity below n with a
   * T has it copied, added or replaced, into the destination entity its
   * UUID maps to; the result is the destination registry afterwards.
   */
  method CopyComponent(dst: Registry, src: Registry, m: map<UUID, nat>, t: ComponentType, n: nat) returns (r: Registry)
    requires PoolReady(dst, src, m, n)
    ensures r == CopyPool(dst, src, m, t, n)
  {
    r := dst;
    var h := 0;
    while h < n
      invariant h <= n
      invariant r == CopyPool(dst, src, m, t, h)
    {
      if h in src && t in src[h] {
        var x := m[src[h][IDType].id.id];
        r := r[x := r[x][t := src[h][t]]];
      }
      h := h + 1;
    }
  }

  /** The ten CopyComponent<T> calls of CopyTo, one per copied type in declaration order. */
  method CopyComponentPools(dst: Registry, src: Registry, m: map<UUID, nat>, n: nat) returns (r: Registry)
    requires PoolReady(dst, src, m, n)
    ensures r == CopyPools(dst, src, m, CopiedTypes, n)
  {
    ghost var ts: seq<ComponentType> := [];
    r := dst;
    CopyPoolsSnoc(dst, src, m, ts, TagType, n);
    r := CopyComponent(r, src, m, TagType, n);
    ts := ts + [TagType];
    CopyPoolsSnoc(dst, src, m, ts, TransformType, n);
    r := CopyComponent(r, src, m, TransformType, n);
    ts := ts + [TransformType];
    CopyPoolsSnoc(dst, src, m, ts, CameraType, n);
    r := CopyComponent(r, src, m, CameraType, n);
    ts := ts + [CameraType];
    CopyPoolsSnoc(dst, src, m, ts, SpriteRendererType, n);
    r := CopyComponent(r, src, m, SpriteRendererType, n);
    ts := ts + [SpriteRendererType];
    CopyPoolsSnoc(dst, src, m, ts, CircleRendererType, n);
    r := CopyComponent(r, src, m, CircleRendererType, n);
    ts := ts + [CircleRendererType];
    CopyPoolsSnoc(dst, src, m, ts, Rigidbody2DType, n);
    r := CopyComponent(r, src, m, Rigidbody2DType, n);
    ts := ts + [Rigidbody2DType];
    CopyPoolsSnoc(dst, src, m, ts, BoxCollider2DType, n);
    r := CopyComponent(r, src, m, BoxCollider2DType, n);
    ts := ts + [BoxCollider2DType];
    CopyPoolsSnoc(dst, src, m, ts, CircleCollider2DType, n);
    r := CopyComponent(r, src, m, CircleCollider2DType, n);
    ts := ts + [CircleCollider2DType];
    CopyPoolsSnoc(dst, src, m, ts, AudioType, n);
    r := CopyComponent(r, src, m, AudioType, n);
    ts := ts + [AudioType];
    CopyPoolsSnoc(dst, src, m, ts, PlayerControllerType, n);
    r := CopyComponent(r, src, m, PlayerControllerType, n);
    ts := ts + [PlayerControllerType];
    CopiedTypesInOrder();
  }

  class Scene {
    /** m_Registry */
    var registry: Registry
    /** The handle m_Registry.create() hands out next. */
    var nextHandle: nat
    var name: string
    var isEditorScene: bool
    var showColliders: bool
    var shouldConnectToServer: bool
    var viewportWidth: nat
    var viewportHeight: nat
    var sceneID: UUID
    /** m_CopiedComponent: the component its paste function holds while its Type is not void. */
    var clipboard: Option<Component>
    /** m_ComponentHandlers */
    var handlers: map<ComponentType, Handler>
    /** The calls made to outside handlers so far. */
    ghost var handlerCalls: seq<HandlerCall>

    /** Every pool holds its own type and every live handle was handed out. */
    ghost predicate Valid()
      reads this
    {
      WellTyped(registry) && forall h :: h in registry ==> h < nextHandle
    }

    function Settings(): SceneSettings
      reads this
    {
      SceneSettings(name, isEditorScene, showColliders, shouldConnectToServer, viewportWidth, viewportHeight, sceneID)
    }

    /**
     * Scene(name, isEditorScene): an empty registry, the member initialisers,
     * and the camera handler registered. `sceneID` is the random UUID the
     * member m_SceneID draws.
     */
    constructor (name: string, isEditorScene: bool, sceneID: UUID)
      ensures Valid() && registry == map[] && nextHandle == 0
      ensures Settings() == SceneSettings(name, isEditorScene, true, false, 0, 0, sceneID)
      ensures !HasCopiedComponent() && GetShowColliders()
      ensures handlers == DefaultHandlers && handlerCalls == []
    {
      registry := map[];
      nextHandle := 0;
      this.name := name;
      this.isEditorScene := isEditorScene;
      showColliders := true;
      shouldConnectToServer := false;
      viewportWidth, viewportHeight := 0, 0;
      this.sceneID := sceneID;
      clipboard := None;
      handlers := DefaultHandlers;
      handlerCalls := [];
    }

    // -------------------------------------------------------------------------
    // Entity.h: component access on an entity of this scene

    /** Entity::HasComponent<T>: registry.all_of<T>, true exactly when the live entity carries a T. */
    predicate HasComponent(h: nat, t: ComponentType): (b: bool)
      reads this
      ensures b <==> h in registry && t in registry[h]
    {
      Has(registry, h, t)
    }

    /** Entity::GetComponent<T>: only on an entity that has a T. */
    function GetComponent(h: nat, t: ComponentType): (c: Component)
      reads this
      requires Valid() && HasComponent(h, t)
      ensures c.Type() == t
    {
      registry[h][t]
    }

    /**
     * Entity::AddComponent<T>: only on an entity without a T; the component
     * is emplaced and OnComponentAdded runs its handler.
     */
    method AddComponent(h: nat, c: Component)
      requires Valid() && h in registry && !HasComponent(h, c.Type())
      modifies this
      ensures Valid() && HasComponent(h, c.Type())
      ensures registry == old(registry)[h := old(registry)[h][c.Type() := Handled(c, handlers, viewportWidth, viewportHeight)]]
      ensures !c.Camera? ==> registry == old(registry)[h := old(registry)[h][c.Type() := c]]
      ensures handlerCalls == old(handlerCalls) + Logged(handlers, h, c.Type())
      ensures nextHandle == old(nextHandle) && Settings() == old(Settings())
      ensures clipboard == old(clipboard) && handlers == old(handlers)
    {
      ghost var r0 := registry;
      registry := registry[h := registry[h][c.Type() := c]];
      OnComponentAdded(h, c.Type());
      ghost var added := Handled(c, handlers, viewportWidth, viewportHeight);
      assert r0[h][c.Type() := c][c.Type() := added] == r0[h][c.Type() := added];
    }

    /**
     * A write through the reference GetComponent<T> or AddComponent<T>
     * returns: the entity's T becomes `c`; nothing else changes.
     */
    method ReplaceComponent(h: nat, c: Component)
      requires Valid() && HasComponent(h, c.Type())
      modifies this
      ensures Valid() && HasComponent(h, c.Type()) && GetComponent(h, c.Type()) == c
      ensures registry == old(registry)[h := old(registry)[h][c.Type() := c]]
      ensures nextHandle == old(nextHandle) && Settings() == old(Settings())
      ensures clipboard == old(clipboard) && handlers == old(handlers) && handlerCalls == old(handlerCalls)
    {
      registry := registry[h := registry[h][c.Type() := c]];
    }

    /** Entity::RemoveComponent<T>: only on an entity that has a T; afterwards it has none. */
    method RemoveComponent(h: nat, t: ComponentType)
      requires Valid() && HasComponent(h, t)
      modifies this
      ensures Valid() && h in registry && !HasComponent(h, t)
      ensures registry == Remove(old(registry), h, t)
      ensures nextHandle == old(nextHandle) && Settings() == old(Settings())
      ensures clipboard == old(clipboard) && handlers == old(handlers) && handlerCalls == old(handlerCalls)
    {
      registry := Remove(registry, h, t);
    }

    // -------------------------------------------------------------------------
    // Scene.h: handlers, the clipboard, the collider flag

    /** RegisterComponentHandler<T>: the handler for T, replacing any earlier one. */
    method RegisterComponentHandler(t: ComponentType, id: nat)
      modifies this
      ensures handlers == old(handlers)[t := ExternalHandler(id)]
      ensures registry == old(registry) && nextHandle == old(nextHandle) && Settings() == old(Settings())
      ensures clipboard == old(clipboard) && handlerCalls == old(handlerCalls)
    {
      handlers := handlers[t := ExternalHandler(id)];
    }

    /** OnComponentAdded<T>: call the handler registered for T, if there is one. */
    method OnComponentAdded(h: nat, t: ComponentType)
      requires Valid() && HasComponent(h, t)
      modifies this
      ensures Valid()
      ensures registry == old(registry)[h := old(registry)[h][t := Handled(old(registry)[h][t], handlers, viewportWidth, viewportHeight)]]
      ensures handlerCalls == old(handlerCalls) + Logged(handlers, h, t)
      ensures nextHandle == old(nextHandle) && Settings() == old(Settings())
      ensures clipboard == old(clipboard) && handlers == old(handlers)
    {
      assert registry[h][t := registry[h][t]] == registry[h];
      assert registry[h := registry[h][t := registry[h][t]]] == registry;
      if t in handlers {
        match handlers[t]
        case CameraViewportHandler =>
          var c := GetComponent(h, t);
          if c.Camera? && t == CameraType {
            registry := registry[h := registry[h][t := Camera(c.camera.(camera := c.camera.camera.SetViewportSize(viewportWidth, viewportHeight)))]];
          }
        case ExternalHandler(id) =>
          handlerCalls := handlerCalls + [HandlerCall(id, h, t)];
      }
    }

    /** CopyComponent<T>(entity): an entity with a T fills the clipboard with it; one without leaves it alone. */
    method CopyComponent(e: Entity, t: ComponentType)
      requires e.scene != null && e.scene.Valid() && e.handle.Handle? && e.handle.id in e.scene.registry
      modifies this
      ensures clipboard == if Has(old(e.scene.registry), e.handle.id, t) then Some(old(e.scene.registry)[e.handle.id][t]) else old(clipboard)
      ensures Has(old(e.scene.registry), e.handle.id, t) ==> HasCopiedComponent()
      ensures registry == old(registry) && nextHandle == old(nextHandle) && Settings() == old(Settings())
      ensures handlers == old(handlers) && handlerCalls == old(handlerCalls)
    {
      var s := e.scene;
      if !s.HasComponent(e.handle.id, t) {
        return;
      }
      var c := s.GetComponent(e.handle.id, t);
      clipboard := Some(c);
    }

    /**
     * PasteComponent(target): with a copied component, add it to the target
     * or overwrite the target's, then empty the clipboard; with an empty
     * clipboard, nothing happens. The target may live in another scene,
     * whose handlers and viewport then apply.
     */
    method PasteComponent(target: Entity)
      requires Valid()
      requires clipboard.Some? ==>
        target.scene != null && target.scene.Valid() && target.handle.Handle? && target.handle.id in target.scene.registry
      modifies this, target.scene
      ensures old(clipboard).None? ==> unchanged(this) && (target.scene != null ==> unchanged(target.scene))
      ensures !HasCopiedComponent()
      ensures old(clipboard).Some? ==>
        && target.scene.Valid()
        && target.scene.registry == Pasted(old(target.scene.registry), target.handle.id, old(clipboard).value,
             old(target.scene.handlers), old(target.scene.viewportWidth), old(target.scene.viewportHeight))
        && target.scene.handlerCalls == old(target.scene.handlerCalls)
             + (if Has(old(target.scene.registry), target.handle.id, old(clipboard).value.Type()) then []
                else Logged(old(target.scene.handlers), target.handle.id, old(clipboard).value.Type()))
        && target.scene.nextHandle == old(target.scene.nextHandle) && target.scene.Settings() == old(target.scene.Settings())
        && target.scene.handlers == old(target.scene.handlers)
      ensures target.scene != this ==>
        registry == old(registry) && nextHandle == old(nextHandle) && handlerCalls == old(handlerCalls)
      ensures Settings() == old(Settings()) && handlers == old(handlers)
    {
      if clipboard.None? {
        return;
      }
      target.scene.PasteInto(target.handle.id, clipboard.value);
      clipboard := None;
    }

    /** The target half of PasteComponent: c added to entity h of this scene, or put over the one of its type. */
    method PasteInto(h: nat, c: Component)
      requires Valid() && h in registry
      modifies this
      ensures Valid()
      ensures registry == Pasted(old(registry), h, c, handlers, viewportWidth, viewportHeight)
      ensures handlerCalls == old(handlerCalls) + (if Has(old(registry), h, c.Type()) then [] else Logged(handlers, h, c.Type()))
      ensures nextHandle == old(nextHandle) && Settings() == old(Settings())
      ensures clipboard == old(clipboard) && handlers == old(handlers)
    {
      if !HasComponent(h, c.Type()) {
        AddComponent(h, c);
      } else {
        registry := registry[h := registry[h][c.Type() := c]];
      }
    }

    /** HasCopiedComponent: the clipboard holds a component (its Type is not void). */
    predicate HasCopiedComponent(): (b: bool)
      reads this
      ensures b <==> clipboard != None
    {
      clipboard.Some?
    }

    method SetShowColliders(show: bool)
      modifies this
      ensures GetShowColliders() == show
      ensures Settings() == old(Settings()).(showColliders := show)
      ensures registry == old(registry) && nextHandle == old(nextHandle) && clipboard == old(clipboard)
      ensures handlers == old(handlers) && handlerCalls == old(handlerCalls)
    {
      showColliders := show;
    }

    /** GetShowColliders: the collider flag, true in a new scene and as SetShowColliders last left it. */
    function GetShowColliders(): (show: bool)
      reads this
      ensures show <==> Settings().showColliders
    {
      showColliders
    }

    // -------------------------------------------------------------------------
    // Scene.cpp: creating, duplicating and destroying entities

    /**
     * CreateEntityWithID(uuid, name): a new entity with a default transform,
     * the UUID and a tag (the name, or "Entity"), each added through
     * AddComponent; the tag is added empty and set afterwards.
     */
    method CreateEntityWithID(uuid: UUID, name: string) returns (e: Entity)
      requires Valid()
      modifies this
      ensures Valid()
      ensures e == Entity(Handle(old(nextHandle)), this) && nextHandle == old(nextHandle) + 1
      ensures registry == old(registry)[old(nextHandle) := NewEntity(uuid, name)]
      ensures handlerCalls == old(handlerCalls) + CreationLog(handlers, old(nextHandle))
      ensures Settings() == old(Settings()) && clipboard == old(clipboard) && handlers == old(handlers)
    {
      ghost var r0, log0 := registry, handlerCalls;
      var h := CreateHandle();
      e := Entity(Handle(h), this);
      ghost var m0: ComponentSet := map[];
      ghost var m1 := m0[TransformType := Transform(DefaultTransform)];
      ghost var m2 := m1[IDType := ID(IDComponent(uuid))];
      ghost var m3 := m2[TagType := Tag(TagComponent(""))];
      ghost var m4 := m3[TagType := Tag(TagComponent(DefaultTag(name)))];
      AddComponent(h, Transform(DefaultTransform));
      UpdateTwice(r0, h, m0, m1);
      AddComponent(h, ID(IDComponent(uuid)));
      UpdateTwice(r0, h, m1, m2);
      AddComponent(h, Tag(TagComponent("")));
      UpdateTwice(r0, h, m2, m3);
      ReplaceComponent(h, Tag(TagComponent(DefaultTag(name))));
      UpdateTwice(r0, h, m3, m4);
      NewEntitySteps(uuid, name);
      CreationLogSteps(log0, handlers, h);
    }

    /** m_Registry.create(): a fresh handle with no components. */
    method CreateHandle() returns (h: nat)
      requires Valid()
      modifies this
      ensures Valid() && h == old(nextHandle) && h !in old(registry)
      ensures registry == old(registry)[h := map[]] && nextHandle == h + 1
      ensures Settings() == old(Settings()) && clipboard == old(clipboard)
      ensures handlers == old(handlers) && handlerCalls == old(handlerCalls)
    {
      h := nextHandle;
      registry := registry[h := map[]];
      nextHandle := h + 1;
    }

    /** CreateEntity(name): CreateEntityWithID under the UUID the call draws, here given as `uuid`. */
    method CreateEntity(name: string, uuid: UUID) returns (e: Entity)
      requires Valid()
      modifies this
      ensures Valid()
      ensures e == Entity(Handle(old(nextHandle)), this) && nextHandle == old(nextHandle) + 1
      ensures registry == old(registry)[old(nextHandle) := NewEntity(uuid, name)]
      ensures handlerCalls == old(handlerCalls) + CreationLog(handlers, old(nextHandle))
      ensures Settings() == old(Settings()) && clipboard == old(clipboard) && handlers == old(handlers)
    {
      e := CreateEntityWithID(uuid, name);
    }

    /**
     * DuplicateEntity(entity): a new entity under the source's tag, then
     * every component but the IDComponent copied from the source when it has
     * one. The new UUID is given as `uuid`.
     */
    method DuplicateEntity(e: Entity, uuid: UUID) returns (copy: Entity)
      requires Valid() && e.scene == this && e.handle.Handle? && e.handle.id in registry
      modifies this
      ensures Valid()
      ensures copy == Entity(Handle(old(nextHandle)), this) && nextHandle == old(nextHandle) + 1
      ensures registry == old(registry)[old(nextHandle) := Duplicated(old(registry)[e.handle.id], uuid)]
      ensures handlerCalls == old(handlerCalls) + CreationLog(handlers, old(nextHandle))
      ensures Settings() == old(Settings()) && clipboard == old(clipboard) && handlers == old(handlers)
    {
      var s := e.handle.id;
      var name := if HasComponent(s, TagType) then GetComponent(s, TagType).tag.tag else "";
      copy := CreateEntity(name, uuid);
      var d := copy.handle.id;
      assert s != d && registry[s] == old(registry)[s];
      CopyComponentsOver(d, s, uuid);
      UpdateTwice(old(registry), d, NewEntity(uuid, name), Duplicated(old(registry)[s], uuid));
    }

    /** The copying half of DuplicateEntity: every copied type of s put over the new entity d. */
    method CopyComponentsOver(d: nat, s: nat, ghost uuid: UUID)
      requires Valid() && d in registry && s in registry && d != s
      requires registry[d] == NewEntity(uuid, DuplicateName(registry[s]))
      modifies this
      ensures Valid()
      ensures registry == old(registry)[d := Duplicated(old(registry)[s], uuid)]
      ensures nextHandle == old(nextHandle) && handlerCalls == old(handlerCalls)
      ensures Settings() == old(Settings()) && clipboard == old(clipboard) && handlers == old(handlers)
    {
      var copied := CopyEntityComponents(registry[d], registry[s]);
      CopiedOverAll(registry, d, s, uuid);
      registry := registry[d := copied];
    }

    /** DestroyEntity(entity): the entity and all its components leave the registry. */
    method DestroyEntity(e: Entity)
      requires Valid() && e.scene == this && e.handle.Handle? && e.handle.id in registry
      modifies this
      ensures Valid()
      ensures registry == old(registry) - {e.handle.id}
      ensures forall t :: !HasComponent(e.handle.id, t)
      ensures nextHandle == old(nextHandle) && Settings() == old(Settings())
      ensures clipboard == old(clipboard) && handlers == old(handlers) && handlerCalls == old(handlerCalls)
    {
      registry := registry - {e.handle.id};
    }

    /**
     * FindOrCreateNetworkEntity(id): the first entity tagged "Remote_<id>"
     * if there is one; otherwise a new entity so tagged, given a cyan sprite.
     * The UUID of a new entity is given as `uuid`.
     */
    method FindOrCreateNetworkEntity(id: int, uuid: UUID) returns (e: Entity)
      requires Valid()
      modifies this
      ensures Valid()
      ensures FirstTagged(old(registry), RemoteName(id), old(nextHandle)).Some? ==>
        && e == Entity(Handle(FirstTagged(old(registry), RemoteName(id), old(nextHandle)).value), this)
        && registry == old(registry) && nextHandle == old(nextHandle) && handlerCalls == old(handlerCalls)
      ensures FirstTagged(old(registry), RemoteName(id), old(nextHandle)).None? ==>
        && e == Entity(Handle(old(nextHandle)), this) && nextHandle == old(nextHandle) + 1
        && registry == old(registry)[old(nextHandle) := RemoteEntity(uuid, id)]
        && handlerCalls == old(handlerCalls) + CreationLog(handlers, old(nextHandle)) + Logged(handlers, old(nextHandle), SpriteRendererType)
      ensures Settings() == old(Settings()) && clipboard == old(clipboard) && handlers == old(handlers)
    {
      var found := FindTagged(registry, RemoteName(id), nextHandle);
      if found.Some? {
        return Entity(Handle(found.value), this);
      }
      e := CreateNetworkEntity(id, uuid);
    }

    /** The creation branch of FindOrCreateNetworkEntity: an entity tagged "Remote_<id>" with a cyan sprite. */
    method CreateNetworkEntity(id: int, uuid: UUID) returns (e: Entity)
      requires Valid()
      modifies this
      ensures Valid()
      ensures e == Entity(Handle(old(nextHandle)), this) && nextHandle == old(nextHandle) + 1
      ensures registry == old(registry)[old(nextHandle) := RemoteEntity(uuid, id)]
      ensures handlerCalls == old(handlerCalls) + CreationLog(handlers, old(nextHandle)) + Logged(handlers, old(nextHandle), SpriteRendererType)
      ensures Settings() == old(Settings()) && clipboard == old(clipboard) && handlers == old(handlers)
    {
      ghost var r0, n := registry, nextHandle;
      ghost var c0 := NewEntity(uuid, RemoteName(id));
      ghost var c1 := c0[SpriteRendererType := SpriteRenderer(DefaultSprite)];
      ghost var c2 := c0[SpriteRendererType := SpriteRenderer(SpriteRendererComponent(RemoteColour))];
      e := CreateEntity(RemoteName(id), uuid);
      NewEntityShape(uuid, RemoteName(id));
      AddComponent(e.handle.id, SpriteRenderer(DefaultSprite));
      UpdateTwice(r0, n, c0, c1);
      registry := registry[e.handle.id := registry[e.handle.id][SpriteRendererType := SpriteRenderer(SpriteRendererComponent(RemoteColour))]];
      assert c1[SpriteRendererType := SpriteRenderer(SpriteRendererComponent(RemoteColour))] == c2;
      UpdateTwice(r0, n, c1, c2);
      assert c2 == RemoteEntity(uuid, id);
    }

    /**
     * OnViewportResize(width, height): the scene keeps the new size, and every
     * camera without a fixed aspect ratio takes it.
     */
    method OnViewportResize(width: nat, height: nat)
      requires Valid()
      modifies this
      ensures Valid()
      ensures registry == ResizedBelow(old(registry), width, height, old(nextHandle))
      ensures Settings() == old(Settings()).(viewportWidth := width, viewportHeight := height)
      ensures nextHandle == old(nextHandle) && clipboard == old(clipboard)
      ensures handlers == old(handlers) && handlerCalls == old(handlerCalls)
    {
      viewportWidth := width;
      viewportHeight := height;
      registry := ResizeCameras(registry, width, height, nextHandle);
    }

    // -------------------------------------------------------------------------
    // Scene.cpp: what the scene submits to the renderer

    /**
     * OnUpdateEditor(ts, camera): one BeginScene/EndScene bracket under the
     * editor camera's view-projection, holding the sprites, the circles and,
     * when colliders are shown, the box and circle collider outlines.
     */
    method OnUpdateEditor(renderer: Renderer2D.Renderer2D, viewProjection: Mat4)
      requires Valid() && renderer.Valid()
      modifies renderer.Repr
      ensures renderer.Valid() && renderer.Repr == old(renderer.Repr)
      ensures renderer.Model() == EditorFrame(old(renderer.Model()), viewProjection, old(registry), old(nextHandle), old(showColliders))
    {
      var r, n, show := registry, nextHandle, showColliders;
      renderer.BeginEditorScene(viewProjection);
      SubmitSprites(renderer, r, n);
      SubmitCircles(renderer, r, n);
      if show {
        SubmitBoxColliders(renderer, r, n);
        SubmitCircleColliders(renderer, r, n);
      }
      renderer.EndScene();
    }

    /**
     * The render part of OnUpdateRuntime: find the first primary camera and,
     * only if there is one, draw the sprites and circles from its point of
     * view.
     */
    method OnUpdateRuntime(renderer: Renderer2D.Renderer2D)
      requires Valid() && renderer.Valid()
      modifies renderer.Repr
      ensures renderer.Valid() && renderer.Repr == old(renderer.Repr)
      ensures renderer.Model() == RuntimeFrame(old(renderer.Model()), old(registry), old(nextHandle))
    {
      var r, n := registry, nextHandle;
      var camera: Option<nat> := None;
      var h := 0;
      while h < n
        invariant h <= n
        invariant FirstPrimaryCamera(r, h).None?
      {
        if Has(r, h, TransformType) && Has(r, h, CameraType) && r[h][CameraType].camera.primary {
          camera := Some(h);
          assert FirstPrimaryCamera(r, h + 1) == Some(h);
          FirstPrimaryFrom(r, h, n);
          break;
        }
        h := h + 1;
      }
      if camera.Some? {
        var c := camera.value;
        renderer.BeginScene(r[c][CameraType].camera.camera.GetProjection(), r[c][TransformType].transform.GetTransform());
        SubmitSprites(renderer, r, n);
        SubmitCircles(renderer, r, n);
        renderer.EndScene();
      }
    }

    // -------------------------------------------------------------------------
    // Scene.h, Scene.cpp: copying a scene

    /**
     * The first loop of CopyTo, over the source registry `sr` with handles
     * below n: for each entity of its ID view, an entity with the same UUID
     * and tag in the destination, and the UUID mapped to it.
     */
    static method RecreateEntities(sr: Registry, n: nat, destination: Scene) returns (m: map<UUID, nat>)
      requires destination.Valid() && TaggedIDs(sr)
      modifies destination
      ensures destination.Valid()
      ensures destination.registry == Recreated(old(destination.registry), old(destination.nextHandle), sr, IdView(sr, n))
      ensures m == UuidMap(old(destination.nextHandle), sr, IdView(sr, n))
      ensures destination.nextHandle == old(destination.nextHandle) + |IdView(sr, n)|
      ensures destination.handlerCalls ==
        old(destination.handlerCalls) + CreationLogs(destination.handlers, old(destination.nextHandle), |IdView(sr, n)|)
      ensures destination.Settings() == old(destination.Settings())
      ensures destination.clipboard == old(destination.clipboard) && destination.handlers == old(destination.handlers)
    {
      ghost var base, d0, log0 := destination.nextHandle, destination.registry, destination.handlerCalls;
      ghost var settings0, clip0, hs0 := destination.Settings(), destination.clipboard, destination.handlers;
      m := map[];
      var h := 0;
      while h < n
        invariant h <= n
        invariant destination.Recreating(sr, h, m, d0, base, log0)
        invariant destination.Settings() == settings0
        invariant destination.clipboard == clip0 && destination.handlers == hs0
      {
        m := destination.RecreateEntity(sr, h, m, d0, base, log0);
        h := h + 1;
      }
      RecreatedBelowIsRecreated(d0, base, sr, n);
      UuidMapBelowIsUuidMap(base, sr, n);
    }

    /** The state of the destination once the first loop of CopyTo has visited the source entities below h. */
    ghost predicate Recreating(sr: Registry, h: nat, m: map<UUID, nat>, d0: Registry, base: nat, log0: seq<HandlerCall>)
      reads this
    {
      && Valid() && TaggedIDs(sr)
      && RecreatedUpTo(registry, nextHandle, handlerCalls, handlers, sr, h, m, d0, base, log0)
    }

    /** One pass of the first loop of CopyTo, over source entity h: recreated here when it carries an ID. */
    method RecreateEntity(sr: Registry, h: nat, m: map<UUID, nat>, ghost d0: Registry, ghost base: nat, ghost log0: seq<HandlerCall>)
      returns (m': map<UUID, nat>)
      requires Recreating(sr, h, m, d0, base, log0)
      modifies this
      ensures Recreating(sr, h + 1, m', d0, base, log0)
      ensures Settings() == old(Settings()) && clipboard == old(clipboard) && handlers == old(handlers)
    {
      ghost var r0, n0, c0 := registry, nextHandle, handlerCalls;
      RecreatedUpToNext(r0, n0, c0, handlers, sr, h, m, d0, base, log0);
      m' := m;
      if h in sr && IDType in sr[h] {
        var uuid := UuidOf(sr, h);
        var e := CreateEntityWithID(uuid, TagOf(sr, h));
        m' := m[uuid := e.handle.id];
      }
    }

    /**
     * CopyTo(source, destination): a null destination is first replaced by a
     * new scene that the caller never sees; CopyInto then does the copying.
     */
    static method CopyTo(source: Scene, destination: Scene?)
      requires source.Valid() && source != destination
      requires TaggedIDs(source.registry) && SourceBelow(source.registry, source.nextHandle)
      requires destination != null ==> destination.Valid()
      modifies destination
      ensures destination != null ==>
        && destination.Valid()
        && destination.registry ==
             CopiedScene(old(destination.registry), old(destination.nextHandle), source.registry, source.nextHandle)
        && destination.nextHandle == old(destination.nextHandle) + |IdView(source.registry, source.nextHandle)|
        && destination.Settings() == old(destination.Settings()).(
             isEditorScene := false, shouldConnectToServer := source.shouldConnectToServer,
             viewportWidth := source.viewportWidth, viewportHeight := source.viewportHeight, sceneID := source.sceneID)
        && destination.handlerCalls == old(destination.handlerCalls)
             + CreationLogs(destination.handlers, old(destination.nextHandle), |IdView(source.registry, source.nextHandle)|)
        && destination.clipboard == old(destination.clipboard) && destination.handlers == old(destination.handlers)
    {
      var d := destination;
      if d == null {
        d := new Scene("UntitledScene", false, source.sceneID);
      }
      CopyInto(source.registry, source.nextHandle, source.shouldConnectToServer,
               source.viewportWidth, source.viewportHeight, source.sceneID, d);
    }

    /**
     * The body of CopyTo once the destination is a scene, given the source's
     * registry `sr`, handle count `sn` and settings: viewport size and scene
     * ID copied, every entity of the source's ID view recreated under its
     * UUID and tag, every pool but IDComponent copied through the UUID map,
     * then the destination marked a non-editor scene with the source's
     * connect flag.
     */
    static method CopyInto(sr: Registry, sn: nat, connect: bool, width: nat, height: nat, sceneID: UUID, d: Scene)
      requires d.Valid() && TaggedIDs(sr) && SourceBelow(sr, sn)
      modifies d
      ensures d.Valid()
      ensures d.registry == CopiedScene(old(d.registry), old(d.nextHandle), sr, sn)
      ensures d.nextHandle == old(d.nextHandle) + |IdView(sr, sn)|
      ensures d.Settings() == old(d.Settings()).(
        isEditorScene := false, shouldConnectToServer := connect,
        viewportWidth := width, viewportHeight := height, sceneID := sceneID)
      ensures d.handlerCalls == old(d.handlerCalls) + CreationLogs(d.handlers, old(d.nextHandle), |IdView(sr, sn)|)
      ensures d.clipboard == old(d.clipboard) && d.handlers == old(d.handlers)
    {
      d.viewportHeight := height;
      d.viewportWidth := width;
      d.sceneID := sceneID;
      d.CopyEntities(sr, sn);
      d.isEditorScene := false;
      d.shouldConnectToServer := connect;
    }

    /**
     * The two loops of CopyTo: every entity of the source's ID view
     * recreated here under its UUID and tag, then every pool but IDComponent
     * copied through the UUID map.
     */
    method CopyEntities(sr: Registry, sn: nat)
      requires Valid() && TaggedIDs(sr) && SourceBelow(sr, sn)
      modifies this
      ensures Valid()
      ensures registry == CopiedScene(old(registry), old(nextHandle), sr, sn)
      ensures nextHandle == old(nextHandle) + |IdView(sr, sn)|
      ensures handlerCalls == old(handlerCalls) + CreationLogs(handlers, old(nextHandle), |IdView(sr, sn)|)
      ensures Settings() == old(Settings()) && clipboard == old(clipboard) && handlers == old(handlers)
    {
      ghost var base, d0 := nextHandle, registry;
      var m := RecreateEntities(sr, sn, this);
      CopyStageReady(d0, base, sr, sn, registry, m);
      registry := CopyComponentPools(registry, sr, m, sn);
    }

    /**
     * Copy(other): a new scene (drawing `sceneID` as its own UUID) that
     * CopyTo fills from `other`; CopiedSceneKeepsEntities says what its
     * entities then hold.
     */
    static method Copy(other: Scene, sceneID: UUID) returns (s: Scene)
      requires other.Valid() && TaggedIDs(other.registry) && SourceBelow(other.registry, other.nextHandle)
      ensures fresh(s) && s.Valid()
      ensures s.registry == CopiedScene(map[], 0, other.registry, other.nextHandle)
      ensures s.Settings() == SceneSettings("UntitledScene", false, true, other.shouldConnectToServer,
                                            other.viewportWidth, other.viewportHeight, other.sceneID)
      ensures !s.HasCopiedComponent() && s.handlers == DefaultHandlers
    {
      s := new Scene("UntitledScene", false, sceneID);
      CopyTo(other, s);
    }
  }

  // ===========================================================================
  // The renderer calls of the scene's view loops

  /** The sprite loop of OnUpdateEditor and OnUpdateRuntime: DrawSprite per Transform+SpriteRenderer entity. */
  method SubmitSprites(renderer: Renderer2D.Renderer2D, r: Registry, n: nat)
    requires renderer.Valid() && renderer.cursorsSet && WellTyped(r)
    modifies renderer.Repr
    ensures renderer.Valid() && renderer.cursorsSet && renderer.Repr == old(renderer.Repr)
    ensures renderer.Model() == DrawQuads(old(renderer.Model()), SpriteQuads(r, n))
  {
    ghost var f := renderer.Model();
    var h := 0;
    while h < n
      invariant h <= n
      invariant renderer.Valid() && renderer.cursorsSet && renderer.Repr == old(renderer.Repr)
      invariant renderer.Model() == DrawQuads(f, SpriteQuads(r, h))
    {
      SubmitSprite(renderer, r, h, f);
      h := h + 1;
    }
  }

  /** One pass of the sprite loop, over entity h. */
  method SubmitSprite(renderer: Renderer2D.Renderer2D, r: Registry, h: nat, ghost f: Frame)
    requires renderer.Valid() && renderer.cursorsSet && WellTyped(r)
    requires renderer.Model() == DrawQuads(f, SpriteQuads(r, h))
    modifies renderer.Repr
    ensures renderer.Valid() && renderer.cursorsSet && renderer.Repr == old(renderer.Repr)
    ensures renderer.Model() == DrawQuads(f, SpriteQuads(r, h + 1))
  {
    if Has(r, h, TransformType) && Has(r, h, SpriteRendererType) {
      var transform := r[h][TransformType].transform;
      var sprite := r[h][SpriteRendererType].sprite;
      renderer.DrawSprite(transform.GetTransform(), sprite, EntityID(h));
      DrawQuadsSnoc(f, SpriteQuads(r, h), QuadArgs(transform.GetTransform(), sprite.colour, EntityID(h)));
      assert SpriteQuads(r, h + 1) == SpriteQuads(r, h) + [QuadArgs(transform.GetTransform(), sprite.colour, EntityID(h))];
    } else {
      assert SpriteQuads(r, h + 1) == SpriteQuads(r, h);
    }
  }

  /** The circle loop: DrawCircle per Transform+CircleRenderer entity, with its colour, thickness and fade. */
  method SubmitCircles(renderer: Renderer2D.Renderer2D, r: Registry, n: nat)
    requires renderer.Valid() && renderer.cursorsSet && WellTyped(r)
    modifies renderer.Repr
    ensures renderer.Valid() && renderer.cursorsSet && renderer.Repr == old(renderer.Repr)
    ensures renderer.Model() == DrawCircles(old(renderer.Model()), CircleCalls(r, n))
  {
    ghost var f := renderer.Model();
    var h := 0;
    while h < n
      invariant h <= n
      invariant renderer.Valid() && renderer.cursorsSet && renderer.Repr == old(renderer.Repr)
      invariant renderer.Model() == DrawCircles(f, CircleCalls(r, h))
    {
      SubmitCircle(renderer, r, h, f);
      h := h + 1;
    }
  }

  /** One pass of the circle loop, over entity h. */
  method SubmitCircle(renderer: Renderer2D.Renderer2D, r: Registry, h: nat, ghost f: Frame)
    requires renderer.Valid() && renderer.cursorsSet && WellTyped(r)
    requires renderer.Model() == DrawCircles(f, CircleCalls(r, h))
    modifies renderer.Repr
    ensures renderer.Valid() && renderer.cursorsSet && renderer.Repr == old(renderer.Repr)
    ensures renderer.Model() == DrawCircles(f, CircleCalls(r, h + 1))
  {
    if Has(r, h, TransformType) && Has(r, h, CircleRendererType) {
      var transform := r[h][TransformType].transform;
      var circle := r[h][CircleRendererType].circle;
      renderer.DrawCircle(transform.GetTransform(), circle.color, circle.thickness, circle.fade, EntityID(h));
      DrawCirclesSnoc(f, CircleCalls(r, h),
        CircleArgs(transform.GetTransform(), circle.color, circle.thickness, circle.fade, EntityID(h)));
      assert CircleCalls(r, h + 1) == CircleCalls(r, h)
        + [CircleArgs(transform.GetTransform(), circle.color, circle.thickness, circle.fade, EntityID(h))];
    } else {
      assert CircleCalls(r, h + 1) == CircleCalls(r, h);
    }
  }

  /** The box collider loop: a green DrawBoxCollider per Transform+BoxCollider2D entity, at the scaled offset. */
  method SubmitBoxColliders(renderer: Renderer2D.Renderer2D, r: Registry, n: nat)
    requires renderer.Valid() && renderer.cursorsSet && WellTyped(r)
    modifies renderer.Repr
    ensures renderer.Valid() && renderer.cursorsSet && renderer.Repr == old(renderer.Repr)
    ensures renderer.Model() == DrawBoxColliders(old(renderer.Model()), BoxOutlines(r, n))
  {
    ghost var f := renderer.Model();
    var h := 0;
    while h < n
      invariant h <= n
      invariant renderer.Valid() && renderer.cursorsSet && renderer.Repr == old(renderer.Repr)
      invariant renderer.Model() == DrawBoxColliders(f, BoxOutlines(r, h))
    {
      SubmitBoxCollider(renderer, r, h, f);
      h := h + 1;
    }
  }

  /** One pass of the box collider loop, over entity h. */
  method SubmitBoxCollider(renderer: Renderer2D.Renderer2D, r: Registry, h: nat, ghost f: Frame)
    requires renderer.Valid() && renderer.cursorsSet && WellTyped(r)
    requires renderer.Model() == DrawBoxColliders(f, BoxOutlines(r, h))
    modifies renderer.Repr
    ensures renderer.Valid() && renderer.cursorsSet && renderer.Repr == old(renderer.Repr)
    ensures renderer.Model() == DrawBoxColliders(f, BoxOutlines(r, h + 1))
  {
    if Has(r, h, TransformType) && Has(r, h, BoxCollider2DType) {
      var transform := r[h][TransformType].transform;
      var box := r[h][BoxCollider2DType].boxCollider;
      var colliderTransform := ColliderTransform(transform, box.offset);
      renderer.DrawBoxCollider(colliderTransform, ColliderGreen, EntityID(h));
      DrawBoxCollidersSnoc(f, BoxOutlines(r, h), ColliderArgs(colliderTransform, ColliderGreen, EntityID(h)));
      assert BoxOutlines(r, h + 1) == BoxOutlines(r, h) + [ColliderArgs(colliderTransform, ColliderGreen, EntityID(h))];
    } else {
      assert BoxOutlines(r, h + 1) == BoxOutlines(r, h);
    }
  }

  /** The circle collider loop: a green DrawCircleCollider per Transform+CircleCollider2D entity, at the scaled offset. */
  method SubmitCircleColliders(renderer: Renderer2D.Renderer2D, r: Registry, n: nat)
    requires renderer.Valid() && renderer.cursorsSet && WellTyped(r)
    modifies renderer.Repr
    ensures renderer.Valid() && renderer.cursorsSet && renderer.Repr == old(renderer.Repr)
    ensures renderer.Model() == DrawCircleColliders(old(renderer.Model()), RingOutlines(r, n))
  {
    ghost var f := renderer.Model();
    var h := 0;
    while h < n
      invariant h <= n
      invariant renderer.Valid() && renderer.cursorsSet && renderer.Repr == old(renderer.Repr)
      invariant renderer.Model() == DrawCircleColliders(f, RingOutlines(r, h))
    {
      SubmitCircleCollider(renderer, r, h, f);
      h := h + 1;
    }
  }

  /** One pass of the circle collider loop, over entity h. */
  method SubmitCircleCollider(renderer: Renderer2D.Renderer2D, r: Registry, h: nat, ghost f: Frame)
    requires renderer.Valid() && renderer.cursorsSet && WellTyped(r)
    requires renderer.Model() == DrawCircleColliders(f, RingOutlines(r, h))
    modifies renderer.Repr
    ensures renderer.Valid() && renderer.cursorsSet && renderer.Repr == old(renderer.Repr)
    ensures renderer.Model() == DrawCircleColliders(f, RingOutlines(r, h + 1))
  {
    if Has(r, h, TransformType) && Has(r, h, CircleCollider2DType) {
      var transform := r[h][TransformType].transform;
      var ring := r[h][CircleCollider2DType].circleCollider;
      var colliderTransform := ColliderTransform(transform, ring.offset);
      renderer.DrawCircleCollider(colliderTransform, ColliderGreen, EntityID(h));
      DrawCircleCollidersSnoc(f, RingOutlines(r, h), ColliderArgs(colliderTransform, ColliderGreen, EntityID(h)));
      assert RingOutlines(r, h + 1) == RingOutlines(r, h) + [ColliderArgs(colliderTransform, ColliderGreen, EntityID(h))];
    } else {
      assert RingOutlines(r, h + 1) == RingOutlines(r, h);
    }
  }

  /** What OnUpdateEditor leaves in the renderer, from the registry's views. */
  ghost function EditorFrame(f: Frame, viewProjection: Mat4, r: Registry, n: nat, showColliders: bool): Frame
    requires WellTyped(r)
  {
    EditorScene(f, viewProjection, SpriteQuads(r, n), CircleCalls(r, n), BoxOutlines(r, n), RingOutlines(r, n), showColliders)
  }

  /**
   * What the render part of OnUpdateRuntime leaves in the renderer: nothing
   * without a primary camera; otherwise the sprites and circles under the
   * first primary camera's projection and the inverse of its transform.
   */
  ghost function RuntimeFrame(f: Frame, r: Registry, n: nat): Frame
    requires WellTyped(r)
  {
    match FirstPrimaryCamera(r, n)
    case None => f
    case Some(c) =>
      var vp := Product(r[c][CameraType].camera.camera.GetProjection(), Inverse(TransformOf(r, c).GetTransform()));
      SpritesThenCircles(f, vp, SpriteQuads(r, n), CircleCalls(r, n))
  }

  /** A scene with colliders hidden submits to the editor camera exactly what the runtime submits to its camera. */
  lemma HiddenCollidersEditorIsRuntime(f: Frame, viewProjection: Mat4, r: Registry, n: nat)
    requires WellTyped(r)
    ensures EditorFrame(f, viewProjection, r, n, false) == SpritesThenCircles(f, viewProjection, SpriteQuads(r, n), CircleCalls(r, n))
  {
    HiddenCollidersAsRuntime(f, viewProjection, SpriteQuads(r, n), CircleCalls(r, n), BoxOutlines(r, n), RingOutlines(r, n));
  }

  /** Without a primary camera the runtime draws nothing at all. */
  lemma NoPrimaryCameraNoDraw(f: Frame, r: Registry, n: nat)
    requires WellTyped(r) && forall h: nat :: h < n ==> !IsPrimaryCamera(r, h)
    ensures RuntimeFrame(f, r, n) == f
  {
  }

  /** The search for the first primary camera, once it has found one at h, finds it below any larger bound. */
  lemma FirstPrimaryFrom(r: Registry, h: nat, n: nat)
    requires WellTyped(r) && h < n && FirstPrimaryCamera(r, h + 1) == Some(h)
    ensures FirstPrimaryCamera(r, n) == Some(h)
  {
    assert IsPrimaryCamera(r, h);
  }

  /**
   * The tag search of FindOrCreateNetworkEntity, over the entities below n in
   * handle order: the first one tagged `name`, if any.
   */
  method FindTagged(r: Registry, name: string, n: nat) returns (found: Option<nat>)
    requires WellTyped(r)
    ensures found == FirstTagged(r, name, n)
  {
    var h := 0;
    while h < n
      invariant h <= n
      invariant FirstTagged(r, name, h).None?
    {
      if h in r && TagType in r[h] && r[h][TagType].tag.tag == name {
        assert FirstTagged(r, name, h + 1) == Some(h);
        FirstTaggedFrom(r, name, h, n);
        return Some(h);
      }
      h := h + 1;
    }
    return None;
  }

  /** A match at h that is the first below h + 1 stays the first below any n beyond h. */
  lemma FirstTaggedFrom(r: Registry, name: string, h: nat, n: nat)
    requires WellTyped(r) && h < n && FirstTagged(r, name, h + 1) == Some(h)
    ensures FirstTagged(r, name, n) == Some(h)
  {
    assert TaggedAs(r, h, name);
  }

  /**
   * The camera loop of OnViewportResize: every entity below n with a camera
   * that has no fixed aspect ratio takes the new viewport size.
   */
  method ResizeCameras(r0: Registry, width: nat, height: nat, n: nat) returns (r: Registry)
    requires WellTyped(r0)
    ensures r == ResizedBelow(r0, width, height, n) && WellTyped(r)
  {
    r := r0;
    var h := 0;
    while h < n
      invariant h <= n
      invariant r == ResizedBelow(r0, width, height, h)
    {
      ResizeStep(r0, width, height, h);
      if h in r && CameraType in r[h] {
        var c := r[h][CameraType];
        assert c == r0[h][CameraType] && c.Type() == CameraType;
        if !c.camera.fixedAspectRatio {
          assert ResizedCamera(c, width, height) == Camera(c.camera.(camera := c.camera.camera.SetViewportSize(width, height)));
          r := r[h := r[h][CameraType := Camera(c.camera.(camera := c.camera.camera.SetViewportSize(width, height)))]];
        } else {
          assert ResizedCamera(c, width, height) == c;
          assert r0[h][CameraType := c] == r0[h];
          assert r[h := r0[h]] == r;
        }
      }
      h := h + 1;
    }
    ResizeKeepsValid(r0, width, height, n);
  }

  /** One more step of the resize loop updates the camera of entity h, if it has one without a fixed ratio. */
  lemma ResizeStep(r: Registry, width: nat, height: nat, h: nat)
    ensures ResizedBelow(r, width, height, h + 1) ==
      if h in r && CameraType in r[h]
      then ResizedBelow(r, width, height, h)[h := r[h][CameraType := ResizedCamera(r[h][CameraType], width, height)]]
      else ResizedBelow(r, width, height, h)
  {
  }

  lemma ResizeKeepsValid(r: Registry, width: nat, height: nat, n: nat)
    requires WellTyped(r)
    ensures WellTyped(ResizedBelow(r, width, height, n))
  {
  }
}
