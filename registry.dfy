/**
 * The entt registry a Scene owns, as a value: a map from entity handle to
 * the components that entity carries, keyed by component type. This module
 * holds what the registry operations do to that map, and the functions that
 * say what the Scene's loops over registry views compute: the duplicate of
 * an entity, the scene copy (entities recreated with their UUIDs, then each
 * component pool copied through the UUID map), the draw arguments of the
 * sprite, circle and collider views, and the first primary camera.
 *
 * A view is iterated in ascending handle order.
 */
module Registries {
  import opened Geometry
  import opened Components
  import opened BatchTheorems

  datatype Option<T> = None | Some(value: T)

  /** entt::entity: the null entity, or a handle the registry handed out. */
  datatype EntityHandle = NullHandle | Handle(id: nat)

  /** (int)entity: the 32-bit handle reinterpreted as a signed 32-bit int. */
  function EntityID(h: nat): (r: int)
    ensures -0x8000_0000 <= r < 0x8000_0000
    ensures (h - r) % 0x1_0000_0000 == 0
    ensures h < 0x8000_0000 ==> r == h
  {
    var w := h % 0x1_0000_0000;
    if w < 0x8000_0000 then w else w - 0x1_0000_0000
  }

  type ComponentSet = map<ComponentType, Component>
  type Registry = map<nat, ComponentSet>

  /** Every pool holds components of its own type. */
  predicate WellTyped(r: Registry)
  {
    forall h, t :: h in r && t in r[h] ==> r[h][t].Type() == t
  }

  /** registry.all_of<T>(h) on a live entity. */
  predicate Has(r: Registry, h: nat, t: ComponentType)
  {
    h in r && t in r[h]
  }

  /**
   * registry.emplace_or_replace<T>(h, c): entity h carries c afterwards, in
   * its type's pool; nothing else changes.
   */
  function EmplaceOrReplace(r: Registry, h: nat, c: Component): (r': Registry)
    requires h in r
    ensures Has(r', h, c.Type()) && r'[h][c.Type()] == c
    ensures r'.Keys == r.Keys
    ensures forall k :: k in r && k != h ==> r'[k] == r[k]
    ensures r'[h] - {c.Type()} == r[h] - {c.Type()}
    ensures WellTyped(r) ==> WellTyped(r')
  {
    r[h := r[h][c.Type() := c]]
  }

  /** registry.remove<T>(h): entity h no longer carries a T; nothing else changes. */
  function Remove(r: Registry, h: nat, t: ComponentType): (r': Registry)
    requires Has(r, h, t)
    ensures h in r' && !Has(r', h, t)
    ensures r'.Keys == r.Keys
    ensures forall k :: k in r && k != h ==> r'[k] == r[k]
    ensures r'[h] == r[h] - {t}
    ensures WellTyped(r) ==> WellTyped(r')
  {
    r[h := r[h] - {t}]
  }

  /** The UUID in an entity's IDComponent. */
  function UuidOf(r: Registry, h: nat): UUID
  {
    if Has(r, h, IDType) && r[h][IDType].ID? then r[h][IDType].id.id else 0
  }

  /** The string in an entity's TagComponent. */
  function TagOf(r: Registry, h: nat): string
  {
    if Has(r, h, TagType) && r[h][TagType].Tag? then r[h][TagType].tag.tag else ""
  }

  // ===========================================================================
  // Entity creation and duplication

  /** The tag CreateEntityWithID gives: the name, or "Entity" when the name is empty. */
  function DefaultTag(name: string): (tag: string)
    ensures tag != ""
    ensures name != "" ==> tag == name
  {
    if name == "" then "Entity" else name
  }

  /**
   * The components of an entity just made by CreateEntityWithID(uuid, name):
   * a default transform, the given UUID and the default tag, and nothing else.
   */
  function NewEntity(uuid: UUID, name: string): ComponentSet
  {
    map[TransformType := Transform(DefaultTransform), IDType := ID(IDComponent(uuid)),
        TagType := Tag(TagComponent(DefaultTag(name)))]
  }

  /** A new entity holds exactly a transform, an ID under its UUID and a tag under its name (or "Entity"), each of its own type. */
  lemma NewEntityShape(uuid: UUID, name: string)
    ensures NewEntity(uuid, name).Keys == {TransformType, IDType, TagType}
    ensures NewEntity(uuid, name)[IDType] == ID(IDComponent(uuid))
    ensures NewEntity(uuid, name)[TagType] == Tag(TagComponent(DefaultTag(name)))
    ensures NewEntity(uuid, name)[TransformType] == Transform(DefaultTransform)
    ensures forall t :: t in NewEntity(uuid, name) ==> NewEntity(uuid, name)[t].Type() == t
  {
  }

  /** The components of `c` whose types are listed in `ts`. */
  function Restrict(c: ComponentSet, ts: seq<ComponentType>): (r: ComponentSet)
    ensures forall t :: t in r <==> t in c && t in ts
    ensures forall t :: t in r ==> r[t] == c[t]
  {
    map t | t in c && t in ts :: c[t]
  }

  /** The name DuplicateEntity creates the copy under: the source's tag, or the empty name. */
  function DuplicateName(c: ComponentSet): string
  {
    if TagType in c && c[TagType].Tag? then c[TagType].tag.tag else ""
  }

  /**
   * The components DuplicateEntity gives the copy: those of a new entity
   * under the source's tag, overwritten by every component the source has,
   * except the IDComponent.
   */
  function Duplicated(c: ComponentSet, uuid: UUID): ComponentSet
  {
    NewEntity(uuid, DuplicateName(c)) + Restrict(c, CopiedTypes)
  }

  /**
   * The duplicate of an entity with a transform and a tag is the entity
   * itself with the new UUID in place of its own: every other component is
   * copied and none is added.
   */
  lemma DuplicateIsCopyButID(c: ComponentSet, uuid: UUID)
    requires TransformType in c && TagType in c && IDType in c
    ensures Duplicated(c, uuid) == c[IDType := ID(IDComponent(uuid))]
  {
    CopiedTypesAreAllButID();
    var d := Duplicated(c, uuid);
    var e := c[IDType := ID(IDComponent(uuid))];
    assert d.Keys == e.Keys;
    forall t | t in d
      ensures d[t] == e[t]
    {
      if t != IDType {
        assert t in CopiedTypes;
      }
    }
  }

  /** Without a tag or a transform the duplicate gets the defaults: tag "Entity", the identity transform. */
  lemma DuplicateDefaults(c: ComponentSet, uuid: UUID)
    ensures TagType !in c ==> Duplicated(c, uuid)[TagType] == Tag(TagComponent("Entity"))
    ensures TransformType !in c ==> Duplicated(c, uuid)[TransformType] == Transform(DefaultTransform)
    ensures Duplicated(c, uuid)[IDType] == ID(IDComponent(uuid))
  {
    CopiedTypesAreAllButID();
  }

  /** Putting c's component of one more type over a set that holds c's components of `ts` gives c's components of both. */
  lemma CopyOverNext(c0: ComponentSet, c: ComponentSet, ts: seq<ComponentType>, t: ComponentType)
    ensures (c0 + Restrict(c, ts)) + Restrict(c, [t]) == c0 + Restrict(c, ts + [t])
  {
    var a, b, n := Restrict(c, ts), Restrict(c, [t]), Restrict(c, ts + [t]);
    assert a + b == n by {
      assert forall u :: u in ts + [t] <==> u in ts || u == [t][0];
    }
    assert (c0 + a) + b == c0 + (a + b);
  }

  /** The types DuplicateEntity copies, one call after another, are the copied types. */
  lemma CopiedTypesInOrder()
    ensures [] + [TagType] + [TransformType] + [CameraType] + [SpriteRendererType] + [CircleRendererType]
      + [Rigidbody2DType] + [BoxCollider2DType] + [CircleCollider2DType] + [AudioType] + [PlayerControllerType] == CopiedTypes
  {
  }

  /** The components a new entity under s's tag holds once every copied type of s is put over it: the duplicate of s. */
  lemma CopiedOverAll(r: Registry, d: nat, s: nat, uuid: UUID)
    requires WellTyped(r) && d in r && s in r
    requires r[d] == NewEntity(uuid, DuplicateName(r[s]))
    ensures r[d] + Restrict(r[s], CopiedTypes) == Duplicated(r[s], uuid)
    ensures WellTyped(r[d := Duplicated(r[s], uuid)])
  {
  }

  // ===========================================================================
  // Copying a scene

  /** The entities below n with an IDComponent, in ascending order: the ID view CopyTo walks. */
  function IdView(r: Registry, n: nat): (v: seq<nat>)
    ensures forall i :: 0 <= i < |v| ==> v[i] < n && Has(r, v[i], IDType)
  {
    if n == 0 then [] else IdView(r, n - 1) + (if Has(r, n - 1, IDType) then [n - 1] else [])
  }

  /** The ID view of n lists its entities in strictly ascending order. */
  lemma {:induction false} IdViewSorted(r: Registry, n: nat)
    ensures forall i, j :: 0 <= i < j < |IdView(r, n)| ==> IdView(r, n)[i] < IdView(r, n)[j]
  {
    if n > 0 {
      IdViewSorted(r, n - 1);
    }
  }

  /** Every entity below n with an ID is in the ID view of n. */
  lemma {:induction false} IdViewComplete(r: Registry, n: nat, h: nat)
    requires h < n && Has(r, h, IDType)
    ensures h in IdView(r, n)
    decreases n
  {
    if h < n - 1 {
      IdViewComplete(r, n - 1, h);
      assert IdView(r, n - 1) <= IdView(r, n);
    }
  }

  /** Every entity of `v` carries an ID and a tag. */
  predicate Identified(r: Registry, v: seq<nat>)
  {
    WellTyped(r) && forall i :: 0 <= i < |v| ==> Has(r, v[i], IDType) && Has(r, v[i], TagType)
  }

  /**
   * The destination registry after the first loop of CopyTo: one new entity,
   * made by CreateEntityWithID with the source's UUID and tag, per entity of
   * the ID view, at handles base, base + 1, ...
   */
  function Recreated(dst: Registry, base: nat, src: Registry, v: seq<nat>): Registry
  {
    if v == [] then dst
    else
      var last := v[|v| - 1];
      Recreated(dst, base, src, v[..|v| - 1])[base + |v| - 1 := NewEntity(UuidOf(src, last), TagOf(src, last))]
  }

  /** The UUID -> handle map the first loop of CopyTo fills: a later entity with the same UUID wins. */
  function UuidMap(base: nat, src: Registry, v: seq<nat>): map<UUID, nat>
  {
    if v == [] then map[]
    else
      var last := v[|v| - 1];
      UuidMap(base, src, v[..|v| - 1])[UuidOf(src, last) := base + |v| - 1]
  }

  /** Recreating one more entity of the view sets up the next handle under its UUID and tag. */
  lemma RecreatedSnoc(dst: Registry, base: nat, src: Registry, v: seq<nat>, h: nat)
    ensures Recreated(dst, base, src, v + [h]) == Recreated(dst, base, src, v)[base + |v| := NewEntity(UuidOf(src, h), TagOf(src, h))]
    ensures UuidMap(base, src, v + [h]) == UuidMap(base, src, v)[UuidOf(src, h) := base + |v|]
  {
    var w := v + [h];
    assert w[..|w| - 1] == v;
  }

  /**
   * The destination registry after the first loop of CopyTo has visited the
   * source handles below h, in the loop's own order: each one with an ID is
   * recreated at the next handle under its UUID and tag.
   */
  function RecreatedBelow(dst: Registry, base: nat, src: Registry, h: nat): Registry
  {
    if h == 0 then dst
    else if Has(src, h - 1, IDType) then
      RecreatedBelow(dst, base, src, h - 1)[base + |IdView(src, h - 1)| := NewEntity(UuidOf(src, h - 1), TagOf(src, h - 1))]
    else RecreatedBelow(dst, base, src, h - 1)
  }

  /** The UUID map after the first loop of CopyTo has visited the source handles below h. */
  function UuidMapBelow(base: nat, src: Registry, h: nat): map<UUID, nat>
  {
    if h == 0 then map[]
    else if Has(src, h - 1, IDType) then UuidMapBelow(base, src, h - 1)[UuidOf(src, h - 1) := base + |IdView(src, h - 1)|]
    else UuidMapBelow(base, src, h - 1)
  }

  /** Visiting handle h - 1 recreates it at the next handle when it carries an ID, and changes nothing otherwise. */
  lemma RecreatedBelowNext(dst: Registry, base: nat, src: Registry, h: nat)
    requires h > 0
    ensures Has(src, h - 1, IDType) ==> RecreatedBelow(dst, base, src, h) == RecreatedBelow(dst, base, src, h - 1)[base + |IdView(src, h - 1)| := NewEntity(UuidOf(src, h - 1), TagOf(src, h - 1))]
    ensures Has(src, h - 1, IDType) ==> UuidMapBelow(base, src, h) == UuidMapBelow(base, src, h - 1)[UuidOf(src, h - 1) := base + |IdView(src, h - 1)|]
    ensures !Has(src, h - 1, IDType) ==> RecreatedBelow(dst, base, src, h) == RecreatedBelow(dst, base, src, h - 1)
    ensures !Has(src, h - 1, IDType) ==> UuidMapBelow(base, src, h) == UuidMapBelow(base, src, h - 1)
  {
  }

  /** Visiting the handles below h one by one builds the registry Recreated builds from the ID view of h. */
  lemma {:induction false} RecreatedBelowIsRecreated(dst: Registry, base: nat, src: Registry, h: nat)
    ensures RecreatedBelow(dst, base, src, h) == Recreated(dst, base, src, IdView(src, h))
  {
    if h > 0 {
      RecreatedBelowIsRecreated(dst, base, src, h - 1);
      RecreatedBelowNext(dst, base, src, h);
      if Has(src, h - 1, IDType) {
        RecreatedSnoc(dst, base, src, IdView(src, h - 1), h - 1);
        assert IdView(src, h) == IdView(src, h - 1) + [h - 1];
      } else {
        assert IdView(src, h) == IdView(src, h - 1);
      }
    }
  }

  /** Visiting the handles below h one by one builds the map UuidMap builds from the ID view of h. */
  lemma {:induction false} UuidMapBelowIsUuidMap(base: nat, src: Registry, h: nat)
    ensures UuidMapBelow(base, src, h) == UuidMap(base, src, IdView(src, h))
  {
    if h > 0 {
      UuidMapBelowIsUuidMap(base, src, h - 1);
      RecreatedBelowNext(map[], base, src, h);
      if Has(src, h - 1, IDType) {
        RecreatedSnoc(map[], base, src, IdView(src, h - 1), h - 1);
        assert IdView(src, h) == IdView(src, h - 1) + [h - 1];
      } else {
        assert IdView(src, h) == IdView(src, h - 1);
      }
    }
  }

  /** No two entities of `v` share a UUID. */
  predicate DistinctUuids(r: Registry, v: seq<nat>)
  {
    forall i, j :: 0 <= i < |v| && 0 <= j < |v| && i != j ==> UuidOf(r, v[i]) != UuidOf(r, v[j])
  }

  /**
   * The recreated entities sit at base + k; the entities already in the
   * destination are untouched.
   */
  lemma RecreatedShape(dst: Registry, base: nat, src: Registry, v: seq<nat>)
    requires forall h :: h in dst ==> h < base
    ensures forall h :: h in Recreated(dst, base, src, v) <==> h in dst || base <= h < base + |v|
    ensures forall h :: h in dst ==> Recreated(dst, base, src, v)[h] == dst[h]
    ensures forall k :: 0 <= k < |v| ==>
      Recreated(dst, base, src, v)[base + k] == NewEntity(UuidOf(src, v[k]), TagOf(src, v[k]))
  {
    RecreatedKeeps(dst, base, src, v);
    forall k | 0 <= k < |v|
      ensures Recreated(dst, base, src, v)[base + k] == NewEntity(UuidOf(src, v[k]), TagOf(src, v[k]))
    {
      RecreatedAt(dst, base, src, v, k);
    }
  }

  /** Recreation adds the handles base .. base + |v| - 1 and keeps the destination's own entities. */
  lemma {:induction false} RecreatedKeeps(dst: Registry, base: nat, src: Registry, v: seq<nat>)
    requires forall h :: h in dst ==> h < base
    ensures forall h :: h in Recreated(dst, base, src, v) <==> h in dst || base <= h < base + |v|
    ensures forall h :: h in dst ==> Recreated(dst, base, src, v)[h] == dst[h]
    decreases |v|
  {
    if v != [] {
      var u := v[..|v| - 1];
      assert forall k :: 0 <= k < |u| ==> u[k] == v[k];
      RecreatedKeeps(dst, base, src, u);
    }
  }

  /** The entity recreated at base + k is the k-th of the view: its UUID, its tag, a default transform. */
  lemma {:induction false} RecreatedAt(dst: Registry, base: nat, src: Registry, v: seq<nat>, k: nat)
    requires k < |v|
    ensures base + k in Recreated(dst, base, src, v)
    ensures Recreated(dst, base, src, v)[base + k] == NewEntity(UuidOf(src, v[k]), TagOf(src, v[k]))
    decreases |v|
  {
    var u := v[..|v| - 1];
    if k < |u| {
      assert forall i :: 0 <= i < |u| ==> u[i] == v[i];
      RecreatedAt(dst, base, src, u, k);
      assert u[k] == v[k];
    }
  }

  /** Recreated entities are well typed when the destination is. */
  lemma {:induction false} RecreatedWellTyped(dst: Registry, base: nat, src: Registry, v: seq<nat>)
    requires WellTyped(dst)
    ensures WellTyped(Recreated(dst, base, src, v))
    decreases |v|
  {
    if v != [] {
      var u := v[..|v| - 1];
      assert forall k :: 0 <= k < |u| ==> u[k] == v[k];
      RecreatedWellTyped(dst, base, src, u);
    }
  }

  /** The UUID of every entity of the view is in the map, and the map only sends UUIDs to recreated handles. */
  lemma {:induction false} UuidMapRange(base: nat, src: Registry, v: seq<nat>)
    ensures forall k :: 0 <= k < |v| ==> UuidOf(src, v[k]) in UuidMap(base, src, v)
    ensures forall u :: u in UuidMap(base, src, v) ==> base <= UuidMap(base, src, v)[u] < base + |v|
    decreases |v|
  {
    if v != [] {
      var u := v[..|v| - 1];
      assert forall k :: 0 <= k < |u| ==> u[k] == v[k];
      UuidMapRange(base, src, u);
    }
  }

  /** With distinct UUIDs the map sends the UUID of the k-th entity of the view to base + k. */
  lemma {:induction false} UuidMapDistinct(base: nat, src: Registry, v: seq<nat>)
    requires DistinctUuids(src, v)
    ensures forall k :: 0 <= k < |v| ==>
      UuidOf(src, v[k]) in UuidMap(base, src, v) && UuidMap(base, src, v)[UuidOf(src, v[k])] == base + k
    decreases |v|
  {
    if v != [] {
      var u := v[..|v| - 1];
      assert forall k :: 0 <= k < |u| ==> u[k] == v[k];
      assert DistinctUuids(src, u);
      UuidMapDistinct(base, src, u);
    }
  }

  /**
   * The source entities below n are ready for CopyComponent<T>: each has an
   * ID whose UUID the map knows, and the map sends it to a live destination
   * entity.
   */
  predicate PoolReady(dst: Registry, src: Registry, m: map<UUID, nat>, n: nat)
  {
    WellTyped(src)
    && forall h :: h < n && h in src ==> Has(src, h, IDType) && UuidOf(src, h) in m && m[UuidOf(src, h)] in dst
  }

  /** The destination entity the copy of source entity h goes to. */
  function Target(src: Registry, m: map<UUID, nat>, h: nat): nat
    requires UuidOf(src, h) in m
  {
    m[UuidOf(src, h)]
  }

  /**
   * CopyComponent<T>(dst, src, enttMap) after visiting the source entities
   * below n: each one with a T has it copied, added or replaced, into the
   * destination entity its UUID maps to.
   */
  function CopyPool(dst: Registry, src: Registry, m: map<UUID, nat>, t: ComponentType, n: nat): (r: Registry)
    requires PoolReady(dst, src, m, n)
    ensures r.Keys == dst.Keys
  {
    if n == 0 then dst
    else
      var d := CopyPool(dst, src, m, t, n - 1);
      if Has(src, n - 1, t) then
        var x := Target(src, m, n - 1);
        d[x := d[x][t := src[n - 1][t]]]
      else d
  }

  /** Distinct source entities below n go to distinct destination entities. */
  predicate TargetsDistinct(src: Registry, m: map<UUID, nat>, n: nat)
  {
    forall h1: nat, h2: nat ::
      (h1 < n && h2 < n && h1 != h2 && Has(src, h1, IDType) && Has(src, h2, IDType)
       && UuidOf(src, h1) in m && UuidOf(src, h2) in m) ==> Target(src, m, h1) != Target(src, m, h2)
  }

  /** No source entity below n goes to x. */
  predicate Untargeted(src: Registry, m: map<UUID, nat>, n: nat, x: nat)
    requires WellTyped(src)
  {
    forall h: nat :: h < n && Has(src, h, IDType) && UuidOf(src, h) in m ==> Target(src, m, h) != x
  }

  /** A destination entity no source entity below n goes to keeps its components through CopyComponent<T>. */
  lemma {:induction false} CopyPoolUntargeted(dst: Registry, src: Registry, m: map<UUID, nat>, t: ComponentType, n: nat, x: nat)
    requires PoolReady(dst, src, m, n) && x in dst && Untargeted(src, m, n, x)
    ensures CopyPool(dst, src, m, t, n)[x] == dst[x]
    decreases n
  {
    if n > 0 {
      assert PoolReady(dst, src, m, n - 1);
      CopyPoolUntargeted(dst, src, m, t, n - 1, x);
    }
  }

  /** No source entity below n but h goes to the target of h. */
  predicate SoleSource(src: Registry, m: map<UUID, nat>, n: nat, h: nat)
    requires WellTyped(src) && Has(src, h, IDType) && UuidOf(src, h) in m
  {
    forall g: nat :: g < n && g != h && Has(src, g, IDType) && UuidOf(src, g) in m ==> Target(src, m, g) != Target(src, m, h)
  }

  /**
   * When h is the only source entity going to its target, CopyComponent<T>
   * gives that target the T of h when h has one, and leaves it alone
   * otherwise.
   */
  lemma {:induction false} CopyPoolAt(dst: Registry, src: Registry, m: map<UUID, nat>, t: ComponentType, n: nat, h: nat)
    requires PoolReady(dst, src, m, n)
    requires h < n && h in src && SoleSource(src, m, n, h)
    ensures CopyPool(dst, src, m, t, n)[Target(src, m, h)] ==
      if t in src[h] then dst[Target(src, m, h)][t := src[h][t]] else dst[Target(src, m, h)]
    decreases n
  {
    var x := Target(src, m, h);
    assert PoolReady(dst, src, m, n - 1);
    var d := CopyPool(dst, src, m, t, n - 1);
    if h < n - 1 {
      CopyPoolAt(dst, src, m, t, n - 1, h);
      if Has(src, n - 1, t) {
        assert Target(src, m, n - 1) != x;
      }
      assert CopyPool(dst, src, m, t, n)[x] == d[x];
    } else {
      assert Untargeted(src, m, n - 1, x);
      CopyPoolUntargeted(dst, src, m, t, n - 1, x);
      assert d[x] == dst[x];
    }
  }

  /** CopyComponent<T> for each type of `ts`, in order. */
  function CopyPools(dst: Registry, src: Registry, m: map<UUID, nat>, ts: seq<ComponentType>, n: nat): (r: Registry)
    requires PoolReady(dst, src, m, n)
    ensures r.Keys == dst.Keys
    decreases |ts|
  {
    if ts == [] then dst
    else
      var d := CopyPools(dst, src, m, ts[..|ts| - 1], n);
      assert PoolReady(d, src, m, n);
      CopyPool(d, src, m, ts[|ts| - 1], n)
  }

  /** Restricting to one more type adds that type's component, when there is one. */
  lemma RestrictSnoc(c: ComponentSet, ts: seq<ComponentType>, t: ComponentType)
    ensures Restrict(c, ts + [t]) == if t in c then Restrict(c, ts)[t := c[t]] else Restrict(c, ts)
  {
    var lhs := Restrict(c, ts + [t]);
    var rhs := if t in c then Restrict(c, ts)[t := c[t]] else Restrict(c, ts);
    assert forall u :: u in ts + [t] <==> u in ts || u == t;
    assert lhs.Keys == rhs.Keys;
  }

  /**
   * When h is the only source entity going to its target, the pools of
   * `ts` leave that target holding what it held, overwritten by h's
   * components of those types.
   */
  lemma {:induction false} CopyPoolsAt(dst: Registry, src: Registry, m: map<UUID, nat>, ts: seq<ComponentType>, n: nat, h: nat)
    requires PoolReady(dst, src, m, n)
    requires h < n && h in src && SoleSource(src, m, n, h)
    ensures CopyPools(dst, src, m, ts, n)[Target(src, m, h)] == dst[Target(src, m, h)] + Restrict(src[h], ts)
    decreases |ts|
  {
    var x := Target(src, m, h);
    var c := src[h];
    if ts == [] {
      assert Restrict(c, ts) == map[];
    } else {
      var init := ts[..|ts| - 1];
      var t := ts[|ts| - 1];
      assert ts == init + [t];
      CopyPoolsAt(dst, src, m, init, n, h);
      var d := CopyPools(dst, src, m, init, n);
      assert PoolReady(d, src, m, n);
      CopyPoolAt(d, src, m, t, n, h);
      RestrictSnoc(c, init, t);
      assert CopyPools(dst, src, m, ts, n) == CopyPool(d, src, m, t, n);
      if t in c {
        UnionUpdate(dst[x], Restrict(c, init), t, c[t]);
      }
    }
  }

  /** The pools of `ts + [t]`: CopyComponent<T> after the pools of `ts`. */
  lemma CopyPoolsSnoc(dst: Registry, src: Registry, m: map<UUID, nat>, ts: seq<ComponentType>, t: ComponentType, n: nat)
    requires PoolReady(dst, src, m, n)
    ensures PoolReady(CopyPools(dst, src, m, ts, n), src, m, n)
    ensures CopyPools(dst, src, m, ts + [t], n) == CopyPool(CopyPools(dst, src, m, ts, n), src, m, t, n)
  {
    assert (ts + [t])[..|ts|] == ts;
  }

  /** Copying a pool between well-typed registries keeps the destination well typed. */
  lemma {:induction false} CopyPoolWellTyped(dst: Registry, src: Registry, m: map<UUID, nat>, t: ComponentType, n: nat)
    requires PoolReady(dst, src, m, n) && WellTyped(dst)
    ensures WellTyped(CopyPool(dst, src, m, t, n))
    decreases n
  {
    if n > 0 {
      assert PoolReady(dst, src, m, n - 1);
      CopyPoolWellTyped(dst, src, m, t, n - 1);
    }
  }

  /** Copying pools between well-typed registries keeps the destination well typed. */
  lemma {:induction false} CopyPoolsWellTyped(dst: Registry, src: Registry, m: map<UUID, nat>, ts: seq<ComponentType>, n: nat)
    requires PoolReady(dst, src, m, n) && WellTyped(dst)
    ensures WellTyped(CopyPools(dst, src, m, ts, n))
    decreases |ts|
  {
    if ts != [] {
      var init := ts[..|ts| - 1];
      CopyPoolsWellTyped(dst, src, m, init, n);
      CopyPoolWellTyped(CopyPools(dst, src, m, init, n), src, m, ts[|ts| - 1], n);
    }
  }

  /** Updating a union on the right is updating its right operand. */
  lemma UnionUpdate(a: ComponentSet, b: ComponentSet, t: ComponentType, v: Component)
    ensures (a + b)[t := v] == a + b[t := v]
  {
  }

  /** Source entities below n. */
  predicate SourceBelow(src: Registry, n: nat)
  {
    forall h :: h in src ==> h < n && Has(src, h, IDType)
  }

  /** Every entity of the ID view carries a tag, as CopyTo reads one for each. */
  predicate TaggedIDs(r: Registry)
  {
    WellTyped(r) && forall h :: h in r && IDType in r[h] ==> TagType in r[h]
  }

  lemma IdViewIdentified(r: Registry, n: nat)
    requires TaggedIDs(r)
    ensures Identified(r, IdView(r, n))
  {
  }

  /** After the first loop of CopyTo every source entity has a live target. */
  lemma CopyReady(dst: Registry, base: nat, src: Registry, n: nat)
    requires Identified(src, IdView(src, n)) && SourceBelow(src, n)
    requires forall h :: h in dst ==> h < base
    ensures PoolReady(Recreated(dst, base, src, IdView(src, n)), src, UuidMap(base, src, IdView(src, n)), n)
  {
    var v := IdView(src, n);
    var m := UuidMap(base, src, v);
    var d := Recreated(dst, base, src, v);
    RecreatedShape(dst, base, src, v);
    UuidMapRange(base, src, v);
    forall h | h < n && h in src
      ensures Has(src, h, IDType) && UuidOf(src, h) in m && m[UuidOf(src, h)] in d
    {
      IdViewComplete(src, n, h);
      var k :| 0 <= k < |v| && v[k] == h;
      assert UuidOf(src, v[k]) in m;
    }
  }

  /**
   * What Scene::CopyTo leaves in the destination registry when the source
   * entities below n all carry an ID and a tag: the ID view recreated from
   * handle `base` on, then every pool but IDComponent copied through the
   * UUID map.
   */
  function CopiedScene(dst: Registry, base: nat, src: Registry, n: nat): (r: Registry)
    requires TaggedIDs(src) && SourceBelow(src, n)
    requires forall h :: h in dst ==> h < base
    ensures forall h :: h in r <==> h in dst || base <= h < base + |IdView(src, n)|
  {
    IdViewIdentified(src, n);
    var v := IdView(src, n);
    RecreatedShape(dst, base, src, v);
    CopyReady(dst, base, src, n);
    CopyPools(Recreated(dst, base, src, v), src, UuidMap(base, src, v), CopiedTypes, n)
  }

  /** After the first loop of CopyTo the second can run, and the two together build the copied scene, well typed. */
  lemma CopyStageReady(d0: Registry, base: nat, src: Registry, n: nat, r: Registry, m: map<UUID, nat>)
    requires TaggedIDs(src) && SourceBelow(src, n) && WellTyped(d0)
    requires forall h :: h in d0 ==> h < base
    requires r == Recreated(d0, base, src, IdView(src, n)) && m == UuidMap(base, src, IdView(src, n))
    ensures PoolReady(r, src, m, n)
    ensures CopyPools(r, src, m, CopiedTypes, n) == CopiedScene(d0, base, src, n)
    ensures WellTyped(CopyPools(r, src, m, CopiedTypes, n))
  {
    IdViewIdentified(src, n);
    CopyReady(d0, base, src, n);
    RecreatedWellTyped(d0, base, src, IdView(src, n));
    CopyPoolsWellTyped(r, src, m, CopiedTypes, n);
  }

  /** With distinct UUIDs, the k-th entity of the ID view goes to base + k, and distinct entities to distinct handles. */
  lemma CopyTargets(base: nat, src: Registry, n: nat)
    requires DistinctUuids(src, IdView(src, n))
    ensures forall k :: 0 <= k < |IdView(src, n)| ==>
      UuidOf(src, IdView(src, n)[k]) in UuidMap(base, src, IdView(src, n))
      && Target(src, UuidMap(base, src, IdView(src, n)), IdView(src, n)[k]) == base + k
    ensures TargetsDistinct(src, UuidMap(base, src, IdView(src, n)), n)
  {
    var v := IdView(src, n);
    var m := UuidMap(base, src, v);
    UuidMapDistinct(base, src, v);
    forall h1: nat, h2: nat | h1 < n && h2 < n && h1 != h2 && Has(src, h1, IDType) && Has(src, h2, IDType)
      && UuidOf(src, h1) in m && UuidOf(src, h2) in m
      ensures Target(src, m, h1) != Target(src, m, h2)
    {
      IdViewComplete(src, n, h1);
      IdViewComplete(src, n, h2);
      var k1 :| 0 <= k1 < |v| && v[k1] == h1;
      var k2 :| 0 <= k2 < |v| && v[k2] == h2;
    }
  }

  /** A new entity under c's UUID and tag, overwritten by all of c but its ID, is c when c has a transform. */
  lemma NewEntityOverwritten(c: ComponentSet, uuid: UUID, tag: string)
    requires IDType in c && TagType in c && TransformType in c
    requires c[IDType] == ID(IDComponent(uuid)) && c[TagType] == Tag(TagComponent(tag))
    ensures NewEntity(uuid, tag) + Restrict(c, CopiedTypes) == c
  {
    CopiedTypesAreAllButID();
    var lhs := NewEntity(uuid, tag) + Restrict(c, CopiedTypes);
    assert lhs.Keys == c.Keys;
    forall t | t in c
      ensures lhs[t] == c[t]
    {
      if t != IDType {
        assert t in CopiedTypes;
      }
    }
  }

  /**
   * The scene copy keeps every entity: when all source entities carry an ID,
   * a tag and a transform and no two share a UUID, the k-th entity of the ID
   * view is recreated at base + k with exactly its own components, and the
   * destination's own entities are untouched.
   */
  lemma CopiedSceneKeepsEntities(dst: Registry, base: nat, src: Registry, n: nat)
    requires TaggedIDs(src) && DistinctUuids(src, IdView(src, n)) && SourceBelow(src, n)
    requires forall h :: h in src ==> Has(src, h, TransformType)
    requires forall h :: h in dst ==> h < base
    ensures forall k :: 0 <= k < |IdView(src, n)| ==> CopiedScene(dst, base, src, n)[base + k] == src[IdView(src, n)[k]]
    ensures forall h :: h in dst ==> CopiedScene(dst, base, src, n)[h] == dst[h]
  {
    forall k | 0 <= k < |IdView(src, n)|
      ensures CopiedScene(dst, base, src, n)[base + k] == src[IdView(src, n)[k]]
    {
      CopiedSceneAt(dst, base, src, n, k);
    }
    forall x | x in dst
      ensures CopiedScene(dst, base, src, n)[x] == dst[x]
    {
      CopiedSceneOutside(dst, base, src, n, x);
    }
  }

  /** The k-th entity of the ID view, recreated at base + k, ends up with exactly its own components. */
  lemma CopiedSceneAt(dst: Registry, base: nat, src: Registry, n: nat, k: nat)
    requires TaggedIDs(src) && DistinctUuids(src, IdView(src, n)) && SourceBelow(src, n)
    requires forall h :: h in src ==> Has(src, h, TransformType)
    requires forall h :: h in dst ==> h < base
    requires k < |IdView(src, n)|
    ensures base + k in CopiedScene(dst, base, src, n)
    ensures CopiedScene(dst, base, src, n)[base + k] == src[IdView(src, n)[k]]
  {
    var v := IdView(src, n);
    var m := UuidMap(base, src, v);
    var d := Recreated(dst, base, src, v);
    RecreatedShape(dst, base, src, v);
    CopyReady(dst, base, src, n);
    CopyTargets(base, src, n);
    var h := v[k];
    assert Has(src, h, TagType);
    CopiedEntityAt(d, src, m, n, h, base + k);
  }

  /** The destination's own entities come through the copy untouched. */
  lemma CopiedSceneOutside(dst: Registry, base: nat, src: Registry, n: nat, x: nat)
    requires TaggedIDs(src) && SourceBelow(src, n)
    requires forall h :: h in dst ==> h < base
    requires x in dst
    ensures CopiedScene(dst, base, src, n)[x] == dst[x]
  {
    IdViewIdentified(src, n);
    var v := IdView(src, n);
    var m := UuidMap(base, src, v);
    var d := Recreated(dst, base, src, v);
    RecreatedShape(dst, base, src, v);
    CopyReady(dst, base, src, n);
    UuidMapRange(base, src, v);
    CopyPoolsUntargeted(d, src, m, CopiedTypes, n, x);
  }

  /** A recreated entity ends up with exactly the components of its source entity. */
  lemma CopiedEntityAt(d: Registry, src: Registry, m: map<UUID, nat>, n: nat, h: nat, x: nat)
    requires PoolReady(d, src, m, n) && TargetsDistinct(src, m, n)
    requires h < n && Has(src, h, IDType) && Has(src, h, TagType) && Has(src, h, TransformType)
    requires UuidOf(src, h) in m && Target(src, m, h) == x
    requires d[x] == NewEntity(UuidOf(src, h), TagOf(src, h))
    ensures CopyPools(d, src, m, CopiedTypes, n)[x] == src[h]
  {
    assert SoleSource(src, m, n, h);
    CopyPoolsAt(d, src, m, CopiedTypes, n, h);
    var c := src[h];
    assert c[IDType].Type() == IDType && c[TagType].Type() == TagType;
    assert c[IDType] == ID(IDComponent(UuidOf(src, h)));
    assert c[TagType] == Tag(TagComponent(TagOf(src, h)));
    NewEntityOverwritten(c, UuidOf(src, h), TagOf(src, h));
  }

  /** A destination entity no UUID maps to keeps its components through the pools of `ts`. */
  lemma {:induction false} CopyPoolsUntargeted(d: Registry, src: Registry, m: map<UUID, nat>, ts: seq<ComponentType>, n: nat, x: nat)
    requires PoolReady(d, src, m, n) && x in d
    requires forall u :: u in m ==> m[u] != x
    ensures CopyPools(d, src, m, ts, n)[x] == d[x]
    decreases |ts|
  {
    if ts != [] {
      var init := ts[..|ts| - 1];
      CopyPoolsUntargeted(d, src, m, init, n, x);
      var e := CopyPools(d, src, m, init, n);
      assert PoolReady(e, src, m, n);
      CopyPoolUntargeted(e, src, m, ts[|ts| - 1], n, x);
    }
  }

  // ===========================================================================
  // What the scene submits to the renderer

  function TransformOf(r: Registry, h: nat): TransformComponent
    requires WellTyped(r) && Has(r, h, TransformType)
  {
    r[h][TransformType].transform
  }

  /** The green Scene::OnUpdateEditor outlines colliders in. */
  const ColliderGreen: Vec4 := Vec4(0.0, 1.0, 0.0, 1.0)

  /** The collider transform: the entity's transform, translated by the offset scaled by the entity's scale. */
  function ColliderTransform(t: TransformComponent, offset: Vec2): Mat4
  {
    Translate(t.GetTransform(), Vec3(offset.x * t.scale.x, offset.y * t.scale.y, 0.0))
  }

  /** The DrawSprite calls of the Transform+SpriteRenderer group over the entities below n, in order. */
  function SpriteQuads(r: Registry, n: nat): seq<QuadArgs>
    requires WellTyped(r)
  {
    if n == 0 then []
    else
      SpriteQuads(r, n - 1)
        + (if Has(r, n - 1, TransformType) && Has(r, n - 1, SpriteRendererType)
           then [QuadArgs(TransformOf(r, n - 1).GetTransform(), r[n - 1][SpriteRendererType].sprite.colour, EntityID(n - 1))]
           else [])
  }

  /** The DrawCircle calls of the Transform+CircleRenderer view over the entities below n, in order. */
  function CircleCalls(r: Registry, n: nat): seq<CircleArgs>
    requires WellTyped(r)
  {
    if n == 0 then []
    else
      CircleCalls(r, n - 1)
        + (if Has(r, n - 1, TransformType) && Has(r, n - 1, CircleRendererType)
           then var c := r[n - 1][CircleRendererType].circle;
                [CircleArgs(TransformOf(r, n - 1).GetTransform(), c.color, c.thickness, c.fade, EntityID(n - 1))]
           else [])
  }

  /** The DrawBoxCollider calls of the Transform+BoxCollider2D view over the entities below n, in order. */
  function BoxOutlines(r: Registry, n: nat): seq<ColliderArgs>
    requires WellTyped(r)
  {
    if n == 0 then []
    else
      BoxOutlines(r, n - 1)
        + (if Has(r, n - 1, TransformType) && Has(r, n - 1, BoxCollider2DType)
           then [ColliderArgs(ColliderTransform(TransformOf(r, n - 1), r[n - 1][BoxCollider2DType].boxCollider.offset),
                              ColliderGreen, EntityID(n - 1))]
           else [])
  }

  /** The DrawCircleCollider calls of the Transform+CircleCollider2D view over the entities below n, in order. */
  function RingOutlines(r: Registry, n: nat): seq<ColliderArgs>
    requires WellTyped(r)
  {
    if n == 0 then []
    else
      RingOutlines(r, n - 1)
        + (if Has(r, n - 1, TransformType) && Has(r, n - 1, CircleCollider2DType)
           then [ColliderArgs(ColliderTransform(TransformOf(r, n - 1), r[n - 1][CircleCollider2DType].circleCollider.offset),
                              ColliderGreen, EntityID(n - 1))]
           else [])
  }

  /** Entity h has a transform and a camera marked Primary. */
  predicate IsPrimaryCamera(r: Registry, h: nat)
    requires WellTyped(r)
  {
    Has(r, h, TransformType) && Has(r, h, CameraType) && r[h][CameraType].camera.primary
  }

  /**
   * The camera Scene::OnUpdateRuntime renders with: the first entity of the
   * Transform+Camera view whose camera is Primary, or none.
   */
  function FirstPrimaryCamera(r: Registry, n: nat): (c: Option<nat>)
    requires WellTyped(r)
    ensures c.Some? ==> c.value < n && IsPrimaryCamera(r, c.value)
    ensures c.Some? ==> forall h: nat :: h < c.value ==> !IsPrimaryCamera(r, h)
    ensures c.None? ==> forall h: nat :: h < n ==> !IsPrimaryCamera(r, h)
  {
    if n == 0 then None
    else match FirstPrimaryCamera(r, n - 1)
      case Some(h) => Some(h)
      case None => if IsPrimaryCamera(r, n - 1) then Some(n - 1) else None
  }

  // ===========================================================================
  // Viewport resize

  /** The camera an entity has after OnViewportResize(width, height). */
  function ResizedCamera(c: Component, width: nat, height: nat): Component
  {
    if c.Camera? && !c.camera.fixedAspectRatio
    then Camera(c.camera.(camera := c.camera.camera.SetViewportSize(width, height)))
    else c
  }

  /**
   * The registry after OnViewportResize has visited the entities below n:
   * those cameras without a fixed aspect ratio take the new size.
   */
  function ResizedBelow(r: Registry, width: nat, height: nat, n: nat): (r': Registry)
    ensures r'.Keys == r.Keys
  {
    map h | h in r :: if h < n && CameraType in r[h] then r[h][CameraType := ResizedCamera(r[h][CameraType], width, height)] else r[h]
  }

  /**
   * A resize gives every free camera the new size, leaves fixed-ratio
   * cameras as they were, and changes no other component.
   */
  lemma ResizeEffect(r: Registry, width: nat, height: nat, n: nat, h: nat)
    requires WellTyped(r) && h in r && h < n
    ensures ResizedBelow(r, width, height, n)[h].Keys == r[h].Keys
    ensures forall t :: t in r[h] && t != CameraType ==> ResizedBelow(r, width, height, n)[h][t] == r[h][t]
    ensures Has(r, h, CameraType) && !r[h][CameraType].camera.fixedAspectRatio ==>
      ResizedBelow(r, width, height, n)[h][CameraType].camera.camera == SceneCamera(width, height)
    ensures Has(r, h, CameraType) && r[h][CameraType].camera.fixedAspectRatio ==>
      ResizedBelow(r, width, height, n)[h][CameraType] == r[h][CameraType]
    ensures WellTyped(ResizedBelow(r, width, height, n))
  {
  }

  // ===========================================================================
  // std::to_string

  function DigitChar(d: nat): (c: char)
    requires d < 10
    ensures '0' <= c <= '9' && c as int - '0' as int == d
  {
    ('0' as int + d) as char
  }

  /** The decimal digits of n, without leading zeros. */
  function NatToString(n: nat): (s: string)
    ensures |s| > 0 && forall i :: 0 <= i < |s| ==> '0' <= s[i] <= '9'
    ensures |s| > 1 ==> s[0] != '0'
  {
    if n < 10 then [DigitChar(n)] else NatToString(n / 10) + [DigitChar(n % 10)]
  }

  /** std::to_string(int): a minus sign for negative values, then the digits. */
  function IntToString(i: int): string
  {
    if i < 0 then "-" + NatToString(-i) else NatToString(i)
  }

  /** The value of a string of decimal digits. */
  function DigitsValue(s: string): nat
    requires forall i :: 0 <= i < |s| ==> '0' <= s[i] <= '9'
  {
    if s == [] then 0 else 10 * DigitsValue(s[..|s| - 1]) + (s[|s| - 1] as int - '0' as int)
  }

  /** Reading the digits back gives the number. */
  lemma {:induction false} NatToStringValue(n: nat)
    ensures DigitsValue(NatToString(n)) == n
    decreases n
  {
    var s := NatToString(n);
    if n >= 10 {
      NatToStringValue(n / 10);
      assert s[..|s| - 1] == NatToString(n / 10);
    }
  }

  /** The sign and the digits of std::to_string(i) give back i. */
  lemma IntToStringValue(i: int)
    ensures |IntToString(i)| > 0 && (IntToString(i)[0] == '-' <==> i < 0)
    ensures i < 0 ==> forall k :: 1 <= k < |IntToString(i)| ==> '0' <= IntToString(i)[k] <= '9'
    ensures i < 0 ==> DigitsValue(IntToString(i)[1..]) == -i
    ensures i >= 0 ==> DigitsValue(IntToString(i)) == i
  {
    if i < 0 {
      NatToStringValue(-i);
      assert IntToString(i)[1..] == NatToString(-i);
    } else {
      NatToStringValue(i);
    }
  }

  /** std::to_string is injective: distinct ids name distinct remote entities. */
  lemma IntToStringInjective(i: int, j: int)
    requires IntToString(i) == IntToString(j)
    ensures i == j
  {
    IntToStringValue(i);
    IntToStringValue(j);
  }

  /** The tag FindOrCreateNetworkEntity looks for: "Remote_" followed by the id. */
  function RemoteName(id: int): string
  {
    "Remote_" + IntToString(id)
  }

  /** Distinct ids, distinct remote names. */
  lemma RemoteNameInjective(i: int, j: int)
    requires RemoteName(i) == RemoteName(j)
    ensures i == j
  {
    assert IntToString(i) == RemoteName(i)[7..];
    assert IntToString(j) == RemoteName(j)[7..];
    IntToStringInjective(i, j);
  }

  /** The sprite colour a new remote entity gets: cyan. */
  const RemoteColour: Vec4 := Vec4(0.0, 1.0, 1.0, 1.0)

  /** Entity h carries a tag equal to `name`. */
  predicate TaggedAs(r: Registry, h: nat, name: string)
    requires WellTyped(r)
  {
    Has(r, h, TagType) && TagOf(r, h) == name
  }

  /** The first entity of the tag view below n whose tag is `name`. */
  function FirstTagged(r: Registry, name: string, n: nat): (e: Option<nat>)
    requires WellTyped(r)
    ensures e.Some? ==> e.value < n && TaggedAs(r, e.value, name)
    ensures e.Some? ==> forall h: nat :: h < e.value ==> !TaggedAs(r, h, name)
    ensures e.None? ==> forall h: nat :: h < n ==> !TaggedAs(r, h, name)
  {
    if n == 0 then None
    else match FirstTagged(r, name, n - 1)
      case Some(h) => Some(h)
      case None => if TaggedAs(r, n - 1, name) then Some(n - 1) else None
  }

  /**
   * The components of the entity FindOrCreateNetworkEntity creates: a new
   * entity tagged "Remote_<id>", plus a cyan sprite.
   */
  function RemoteEntity(uuid: UUID, id: int): (c: ComponentSet)
    ensures c.Keys == {TransformType, IDType, TagType, SpriteRendererType}
    ensures c[TagType] == Tag(TagComponent(RemoteName(id)))
    ensures c[SpriteRendererType] == SpriteRenderer(SpriteRendererComponent(RemoteColour))
    ensures forall t :: t in c ==> c[t].Type() == t
  {
    NewEntity(uuid, RemoteName(id))[SpriteRendererType := SpriteRenderer(SpriteRendererComponent(RemoteColour))]
  }

  /** Entries below n decide the tag search below n. */
  lemma FirstTaggedBelow(r: Registry, r': Registry, name: string, n: nat)
    requires WellTyped(r) && WellTyped(r')
    requires forall h :: h < n ==> (h in r <==> h in r') && (h in r ==> r[h] == r'[h])
    ensures FirstTagged(r, name, n) == FirstTagged(r', name, n)
  {
    assert forall h: nat :: h < n ==> (TaggedAs(r, h, name) <==> TaggedAs(r', h, name));
    match FirstTagged(r, name, n)
    case None =>
    case Some(x) =>
      assert TaggedAs(r', x, name);
  }

  /**
   * Once FindOrCreateNetworkEntity has created "Remote_<id>" at handle n,
   * the next search for that id finds it: a second call creates nothing.
   */
  lemma RemoteEntityFoundAgain(r: Registry, n: nat, uuid: UUID, id: int)
    requires WellTyped(r) && forall h :: h in r ==> h < n
    requires FirstTagged(r, RemoteName(id), n).None?
    ensures FirstTagged(r[n := RemoteEntity(uuid, id)], RemoteName(id), n + 1) == Some(n)
  {
    var r' := r[n := RemoteEntity(uuid, id)];
    FirstTaggedBelow(r, r', RemoteName(id), n);
    assert TaggedAs(r', n, RemoteName(id));
  }
}
