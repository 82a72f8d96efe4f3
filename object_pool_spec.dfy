/**
 * The object pool as values: a FIFO queue of idle objects per name, plus a
 * cache from name to the container object pooled objects are parented under,
 * all under one root container. Get, Push and Clear are functions on the
 * pool's bookkeeping together with the scene they touch.
 */
module ObjectPoolSpec {
  import opened Wrappers
  import opened Scenes

  datatype PoolState = PoolState(
    queues: map<string, seq<ObjId>>,
    parents: map<string, ObjId>,
    root: Option<ObjId>)

  datatype World = World(pool: PoolState, scene: SceneState)

  /** Everything the pool refers to exists. */
  ghost predicate Consistent(w: World) {
    && WellFormed(w.scene)
    && (forall k, i :: k in w.pool.queues && 0 <= i < |w.pool.queues[k]| ==> w.pool.queues[k][i] in w.scene.objects)
    && (forall k :: k in w.pool.parents ==> w.pool.parents[k] in w.scene.objects)
    && (w.pool.root.Some? ==> w.pool.root.value in w.scene.objects)
  }

  /** Every container cached in `a` is still cached, unchanged, in `b`. */
  ghost predicate CacheKept(a: PoolState, b: PoolState) {
    forall k :: k in a.parents ==> k in b.parents && b.parents[k] == a.parents[k]
  }

  /** The name a world gives an existing object. */
  function NameOf(w: World, o: ObjId): string
    requires o in w.scene.objects
  {
    w.scene.objects[o].name
  }

  /** The queue filed under `key`; an absent key reads as an empty queue. */
  function Queue(p: PoolState, key: string): seq<ObjId> {
    if key in p.queues then p.queues[key] else []
  }

  function Empty(): PoolState {
    PoolState(map[], map[], None)
  }

  /** The root container, created on first use. */
  function EnsureRoot(w: World): (r: (World, ObjId))
    requires Consistent(w)
    ensures Consistent(r.0) && r.0.pool.root == Some(r.1)
    ensures r.0.pool.queues == w.pool.queues && r.0.pool.parents == w.pool.parents
    ensures w.pool.root.Some? ==> r.0 == w
    ensures Grows(w.scene, r.0.scene) && (w.pool.root.None? ==> r.1 !in w.scene.objects)
  {
    if w.pool.root.Some? then (w, w.pool.root.value)
    else
      var (sc, id) := Spawn(w.scene, "ObjectPool", true);
      (World(w.pool.(root := Some(id)), sc), id)
  }

  /** The container cached for `key`, created under `root` if the cache has none. */
  function EnsureContainer(w: World, root: ObjId, key: string): (r: (World, ObjId))
    requires Consistent(w)
    ensures Consistent(r.0) && key in r.0.pool.parents && r.0.pool.parents[key] == r.1
    ensures r.0.pool.queues == w.pool.queues && r.0.pool.root == w.pool.root
    ensures key in w.pool.parents ==> r.0 == w
    ensures key !in w.pool.parents ==>
      && r.0.pool.parents == w.pool.parents[key := r.1]
      && r.1 !in w.scene.objects
      && r.0.scene.objects[r.1].parent == Some(root)
    ensures Grows(w.scene, r.0.scene)
  {
    if key in w.pool.parents then (w, w.pool.parents[key])
    else
      var (sc, c) := Spawn(w.scene, key + "Pool", true);
      (World(w.pool.(parents := w.pool.parents[key := c]), WithParent(sc, c, root)), c)
  }

  /**
   * `SetObjectParent`: parent `obj` under the container cached for `key`,
   * creating that container (under the root) only if the cache has none.
   */
  function SetObjectParent(w: World, obj: ObjId, key: string): (r: World)
    requires Consistent(w) && obj in w.scene.objects
    ensures Consistent(r)
    ensures key in r.pool.parents && obj in r.scene.objects && r.scene.objects[obj].parent == Some(r.pool.parents[key])
    ensures r.pool.queues == w.pool.queues && r.pool.root.Some?
    ensures key in w.pool.parents ==> r.pool.parents == w.pool.parents
    ensures key in w.pool.parents && w.pool.root.Some? ==> r.scene.nextId == w.scene.nextId
    ensures key !in w.pool.parents ==>
      && r.pool.parents == w.pool.parents[key := r.pool.parents[key]]
      && r.pool.parents[key] !in w.scene.objects
    ensures Keeps(w.scene, r.scene, obj)
    ensures r.scene.objects[obj] == w.scene.objects[obj].(parent := Some(r.pool.parents[key]))
  {
    var (w1, root) := EnsureRoot(w);
    var (w2, container) := EnsureContainer(w1, root, key);
    GrowsTrans(w.scene, w1.scene, w2.scene);
    w2.(scene := WithParent(w2.scene, obj, container))
  }

  lemma SetObjectParentKeepsCache(w: World, obj: ObjId, key: string)
    requires Consistent(w) && obj in w.scene.objects
    ensures CacheKept(w.pool, SetObjectParent(w, obj, key).pool)
  {
  }

  /** The bookkeeping half of `PushObject`: file `o` at the back of its name's queue and deactivate it. */
  function Enqueue(w: World, o: ObjId): (r: World)
    requires Consistent(w) && o in w.scene.objects
    ensures Consistent(r)
    ensures r.pool == w.pool.(queues := w.pool.queues[NameOf(w, o) := Queue(w.pool, NameOf(w, o)) + [o]])
    ensures r.scene == WithActive(w.scene, o, false)
  {
    var k := NameOf(w, o);
    var queues := if k !in w.pool.queues then w.pool.queues[k := []] else w.pool.queues;
    World(w.pool.(queues := queues[k := queues[k] + [o]]), WithActive(w.scene, o, false))
  }

  /**
   * `PushObject`: nothing for a null object; otherwise file it at the back of
   * its name's queue (creating the queue if needed), deactivate it and
   * parent it under its name's container.
   */
  function Push(w: World, obj: Option<ObjId>): (r: World)
    requires Consistent(w) && (obj.Some? ==> obj.value in w.scene.objects)
    ensures Consistent(r)
  {
    match obj
    case None => w
    case Some(o) => SetObjectParent(Enqueue(w, o), o, NameOf(w, o))
  }

  /** The pooled branch of `GetObject`: take the front of a non-empty queue and activate it. */
  function Dequeue(w: World, k: string): (r: (World, ObjId))
    requires Consistent(w) && |Queue(w.pool, k)| > 0
    ensures Consistent(r.0) && r.1 in r.0.scene.objects
    ensures r.1 == Queue(w.pool, k)[0]
    ensures r.0.pool == w.pool.(queues := w.pool.queues[k := Queue(w.pool, k)[1..]])
    ensures r.0.scene == WithActive(w.scene, r.1, true)
  {
    var o := w.pool.queues[k][0];
    (World(w.pool.(queues := w.pool.queues[k := w.pool.queues[k][1..]]), WithActive(w.scene, o, true)), o)
  }

  /**
   * The allocating branch of `GetObject`: a new copy of the prototype,
   * renamed to the prototype's own name, parented under that name's
   * container and activated.
   */
  function Allocate(w: World, prefab: ObjId): (r: (World, ObjId))
    requires Consistent(w) && prefab in w.scene.objects
    ensures Consistent(r.0) && r.1 !in w.scene.objects && r.1 in r.0.scene.objects
  {
    var k := NameOf(w, prefab);
    var (sc, o) := Spawn(w.scene, k + "(Clone)", w.scene.objects[prefab].active);
    var w1 := SetObjectParent(World(w.pool, WithName(sc, o, k)), o, k);
    (w1.(scene := WithActive(w1.scene, o, true)), o)
  }

  /**
   * `GetObject`: the front of the queue for the prototype's name if there is
   * one, otherwise a freshly allocated copy; either way the object is active.
   */
  function Get(w: World, prefab: ObjId): (r: (World, ObjId))
    requires Consistent(w) && prefab in w.scene.objects
    ensures Consistent(r.0) && r.1 in r.0.scene.objects
  {
    var k := NameOf(w, prefab);
    if k in w.pool.queues && |w.pool.queues[k]| > 0 then Dequeue(w, k) else Allocate(w, prefab)
  }

  /** `Clear`: forget all queues and cached containers; objects and the root stay. */
  function Clear(w: World): (r: World)
    requires Consistent(w)
    ensures Consistent(r)
  {
    w.(pool := PoolState(map[], map[], w.pool.root))
  }

  /** A null object is ignored. */
  lemma PushNull(w: World)
    requires Consistent(w)
    ensures Push(w, None) == w
  {
  }

  /**
   * A pushed object goes to the back of its name's queue, inactive, under its
   * name's container; other queues and cached containers stay, and nothing
   * else in the scene changes but the containers it may create.
   */
  lemma PushEffect(w: World, o: ObjId)
    requires Consistent(w) && o in w.scene.objects
    ensures var r := Push(w, Some(o));
      var k := NameOf(w, o);
      && r.pool.queues == w.pool.queues[k := Queue(w.pool, k) + [o]]
      && Keeps(w.scene, r.scene, o)
      && r.scene.objects[o] == Obj(k, false, Some(r.pool.parents[k]))
      && (k in w.pool.parents ==> r.pool.parents == w.pool.parents)
      && (k in w.pool.parents && w.pool.root.Some? ==> r.scene.nextId == w.scene.nextId)
      && CacheKept(w.pool, r.pool)
  {
    var w1 := Enqueue(w, o);
    assert Keeps(w.scene, w1.scene, o) && NameOf(w1, o) == NameOf(w, o);
    SetObjectParentKeepsCache(w1, o, NameOf(w, o));
  }

  /** `GetObject` takes from the pool exactly when the queue for the prototype's name is non-empty. */
  lemma GetBranches(w: World, prefab: ObjId)
    requires Consistent(w) && prefab in w.scene.objects
    ensures |Queue(w.pool, NameOf(w, prefab))| > 0 ==> Get(w, prefab) == Dequeue(w, NameOf(w, prefab))
    ensures |Queue(w.pool, NameOf(w, prefab))| == 0 ==> Get(w, prefab) == Allocate(w, prefab)
  {
  }

  /** Taking from the pool activates the object and creates nothing. */
  lemma DequeueEffect(w: World, k: string)
    requires Consistent(w) && |Queue(w.pool, k)| > 0
    ensures var o := Dequeue(w, k).1;
      var sc := Dequeue(w, k).0.scene;
      && sc.nextId == w.scene.nextId
      && sc.objects == w.scene.objects[o := w.scene.objects[o].(active := true)]
  {
  }

  /**
   * A new object is made: named exactly after the prototype, active, under
   * its name's container. Queues stay, a cached container is reused, and
   * every existing object is left as it was.
   */
  lemma AllocateEffect(w: World, prefab: ObjId)
    requires Consistent(w) && prefab in w.scene.objects
    ensures var r := Allocate(w, prefab).0;
      var o := Allocate(w, prefab).1;
      var k := NameOf(w, prefab);
      && k in r.pool.parents
      && r.scene.objects[o] == Obj(k, true, Some(r.pool.parents[k]))
      && r.pool.queues == w.pool.queues
      && Grows(w.scene, r.scene)
      && (k in w.pool.parents ==> r.pool.parents == w.pool.parents)
      && CacheKept(w.pool, r.pool)
  {
    AllocateGrows(w, prefab);
    AllocateObject(w, prefab);
    AllocateCache(w, prefab);
  }

  lemma AllocateGrows(w: World, prefab: ObjId)
    requires Consistent(w) && prefab in w.scene.objects
    ensures Grows(w.scene, Allocate(w, prefab).0.scene)
  {
    var k := NameOf(w, prefab);
    var (sc, o) := Spawn(w.scene, k + "(Clone)", w.scene.objects[prefab].active);
    SpawnGrows(w.scene, k + "(Clone)", w.scene.objects[prefab].active);
    var sc0 := WithName(sc, o, k);
    WithNameTouches(sc, o, k);
    TouchFresh(w.scene, sc, sc0, o);
    var w1 := SetObjectParent(World(w.pool, sc0), o, k);
    TouchFresh(w.scene, sc0, w1.scene, o);
    var sc2 := WithActive(w1.scene, o, true);
    WithActiveKeeps(w1.scene, o, true);
    TouchFresh(w.scene, w1.scene, sc2, o);
  }

  lemma AllocateObject(w: World, prefab: ObjId)
    requires Consistent(w) && prefab in w.scene.objects
    ensures var (r, o) := Allocate(w, prefab);
      && NameOf(w, prefab) in r.pool.parents
      && r.scene.objects[o] == Obj(NameOf(w, prefab), true, Some(r.pool.parents[NameOf(w, prefab)]))
  {
  }

  lemma AllocateCache(w: World, prefab: ObjId)
    requires Consistent(w) && prefab in w.scene.objects
    ensures var r := Allocate(w, prefab).0;
      && r.pool.queues == w.pool.queues
      && (NameOf(w, prefab) in w.pool.parents ==> r.pool.parents == w.pool.parents)
      && CacheKept(w.pool, r.pool)
  {
    var k := NameOf(w, prefab);
    var (sc, o) := Spawn(w.scene, k + "(Clone)", w.scene.objects[prefab].active);
    var w1 := SetObjectParent(World(w.pool, WithName(sc, o, k)), o, k);
    assert Allocate(w, prefab).0.pool == w1.pool;
    SetObjectParentKeepsCache(World(w.pool, WithName(sc, o, k)), o, k);
  }

  /** `Clear` empties the queues and the container cache, and leaves the root and every object alone. */
  lemma ClearEffect(w: World)
    requires Consistent(w)
    ensures Clear(w).pool == PoolState(map[], map[], w.pool.root) && Clear(w).scene == w.scene
  {
  }
}
