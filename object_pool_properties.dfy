/**
 * What the object pool promises across several calls: an object handed back
 * comes out again before anything new is made, queues are first in first
 * out, containers are created once per name, clearing the pool makes the
 * next request allocate, and an invariant tying queued objects to their
 * queue is kept by every operation.
 */
module ObjectPoolProperties {
  import opened Wrappers
  import opened Scenes
  import opened ObjectPoolSpec

  /** Every object of `a` still exists in `b` under the same name. */
  ghost predicate SameNames(a: SceneState, b: SceneState) {
    forall id :: id in a.objects ==> id in b.objects && b.objects[id].name == a.objects[id].name
  }

  lemma SameNamesTrans(a: SceneState, b: SceneState, c: SceneState)
    requires SameNames(a, b) && SameNames(b, c)
    ensures SameNames(a, c)
  {
  }

  /** Handing an object back renames nothing and destroys nothing. */
  lemma PushKeepsNames(w: World, o: ObjId)
    requires Consistent(w) && o in w.scene.objects
    ensures SameNames(w.scene, Push(w, Some(o)).scene)
  {
    PushEffect(w, o);
  }

  /** A request renames no existing object and destroys nothing. */
  lemma GetKeepsNames(w: World, prefab: ObjId)
    requires Consistent(w) && prefab in w.scene.objects
    ensures SameNames(w.scene, Get(w, prefab).0.scene)
  {
    GetBranches(w, prefab);
    if |Queue(w.pool, NameOf(w, prefab))| > 0 {
      DequeueEffect(w, NameOf(w, prefab));
    } else {
      AllocateEffect(w, prefab);
    }
  }

  /** Push each of `os` in turn. */
  function PushAll(w: World, os: seq<ObjId>): (r: World)
    requires Consistent(w) && forall i :: 0 <= i < |os| ==> os[i] in w.scene.objects
    ensures Consistent(r) && SameNames(w.scene, r.scene)
    decreases |os|
  {
    if os == [] then w
    else
      var w1 := Push(w, Some(os[0]));
      PushKeepsNames(w, os[0]);
      var r := PushAll(w1, os[1..]);
      SameNamesTrans(w.scene, w1.scene, r.scene);
      r
  }

  /** Request `n` objects for the same prototype, in turn. */
  function GetAll(w: World, prefab: ObjId, n: nat): (r: (World, seq<ObjId>))
    requires Consistent(w) && prefab in w.scene.objects
    ensures Consistent(r.0) && SameNames(w.scene, r.0.scene) && |r.1| == n
    decreases n
  {
    if n == 0 then (w, [])
    else
      var (w1, o) := Get(w, prefab);
      GetKeepsNames(w, prefab);
      var (w2, os) := GetAll(w1, prefab, n - 1);
      SameNamesTrans(w.scene, w1.scene, w2.scene);
      (w2, [o] + os)
  }

  /** An object pushed into its name's empty queue is what the next request for that name returns. */
  lemma PushThenGet(w: World, o: ObjId, prefab: ObjId)
    requires Consistent(w) && o in w.scene.objects && prefab in w.scene.objects
    requires NameOf(w, prefab) == NameOf(w, o) && Queue(w.pool, NameOf(w, o)) == []
    ensures var w1 := Push(w, Some(o));
      var (w2, got) := Get(w1, prefab);
      && got == o && w2.scene.objects[o].active
      && Queue(w2.pool, NameOf(w, o)) == []
      && w2.scene.nextId == w1.scene.nextId
  {
    var k := NameOf(w, o);
    var w1 := Push(w, Some(o));
    PushEffect(w, o);
    assert Queue(w1.pool, k) == [o];
    assert NameOf(w1, prefab) == k;
    GetBranches(w1, prefab);
    DequeueEffect(w1, k);
  }

  lemma AppendFront(a: seq<ObjId>, b: seq<ObjId>)
    requires b != []
    ensures a + [b[0]] + b[1..] == a + b
  {
    assert b == [b[0]] + b[1..];
  }

  lemma PrefixCons(q: seq<ObjId>, n: nat)
    requires 0 < n <= |q|
    ensures [q[0]] + q[1..][..n - 1] == q[..n]
  {
  }

  /** One push: the object joins the back of its own name's queue. */
  lemma PushOne(w: World, o: ObjId, k: string)
    requires Consistent(w) && o in w.scene.objects && NameOf(w, o) == k
    ensures Queue(Push(w, Some(o)).pool, k) == Queue(w.pool, k) + [o]
  {
    PushEffect(w, o);
  }

  /** Pushing objects that share a name appends them, in order, to that name's queue. */
  lemma {:induction false} PushAllAppends(w: World, os: seq<ObjId>, k: string)
    requires Consistent(w) && forall i :: 0 <= i < |os| ==> os[i] in w.scene.objects && NameOf(w, os[i]) == k
    ensures Queue(PushAll(w, os).pool, k) == Queue(w.pool, k) + os
    decreases |os|
  {
    if os != [] {
      var w1 := Push(w, Some(os[0]));
      PushOne(w, os[0], k);
      PushKeepsNames(w, os[0]);
      assert forall i :: 0 <= i < |os[1..]| ==> os[1..][i] == os[i + 1];
      PushAllAppends(w1, os[1..], k);
      AppendFront(Queue(w.pool, k), os);
    }
  }

  /** A request against a non-empty queue takes its front and leaves the rest, names unchanged. */
  lemma GetFront(w: World, prefab: ObjId)
    requires Consistent(w) && prefab in w.scene.objects && |Queue(w.pool, NameOf(w, prefab))| > 0
    ensures var (w1, o) := Get(w, prefab);
      var q := Queue(w.pool, NameOf(w, prefab));
      && o == q[0] && Queue(w1.pool, NameOf(w, prefab)) == q[1..]
      && prefab in w1.scene.objects && NameOf(w1, prefab) == NameOf(w, prefab)
  {
    GetBranches(w, prefab);
    DequeueEffect(w, NameOf(w, prefab));
  }

  /** Requests for a prototype drain its name's queue from the front. */
  lemma {:induction false} DrainInOrder(w: World, prefab: ObjId, n: nat)
    requires Consistent(w) && prefab in w.scene.objects
    requires n <= |Queue(w.pool, NameOf(w, prefab))|
    ensures GetAll(w, prefab, n).1 == Queue(w.pool, NameOf(w, prefab))[..n]
    decreases n
  {
    if n > 0 {
      var k := NameOf(w, prefab);
      var q := Queue(w.pool, k);
      GetFront(w, prefab);
      var (w1, o) := Get(w, prefab);
      DrainInOrder(w1, prefab, n - 1);
      assert GetAll(w, prefab, n).1 == [o] + GetAll(w1, prefab, n - 1).1;
      PrefixCons(q, n);
    }
  }

  /** First in, first out: objects pushed into an empty queue come back in the order they went in. */
  lemma Fifo(w: World, os: seq<ObjId>, prefab: ObjId)
    requires Consistent(w) && prefab in w.scene.objects
    requires Queue(w.pool, NameOf(w, prefab)) == []
    requires forall i :: 0 <= i < |os| ==> os[i] in w.scene.objects && NameOf(w, os[i]) == NameOf(w, prefab)
    ensures GetAll(PushAll(w, os), prefab, |os|).1 == os
  {
    var k := NameOf(w, prefab);
    var w1 := PushAll(w, os);
    PushAllAppends(w, os, k);
    assert Queue(w1.pool, k) == os;
    DrainInOrder(w1, prefab, |os|);
    assert os[..|os|] == os;
  }

  /**
   * A newly made object, once handed back, is filed under its prototype's
   * name, stays under the container it was given, and no other container is
   * created for it.
   */
  lemma AllocateThenPush(w: World, prefab: ObjId)
    requires Consistent(w) && prefab in w.scene.objects
    requires Queue(w.pool, NameOf(w, prefab)) == []
    ensures var (w1, o) := Get(w, prefab);
      var w2 := Push(w1, Some(o));
      && o !in w.scene.objects
      && Queue(w2.pool, NameOf(w, prefab)) == [o]
      && w2.pool.parents == w1.pool.parents
      && w2.scene.objects[o].parent == w1.scene.objects[o].parent
      && !w2.scene.objects[o].active
  {
    GetBranches(w, prefab);
    AllocateEffect(w, prefab);
    var (w1, o) := Get(w, prefab);
    assert NameOf(w1, o) == NameOf(w, prefab);
    PushEffect(w1, o);
  }

  /** The container for a name is made once: parenting under the same name again reuses it and creates nothing. */
  lemma ContainerReused(w: World, a: ObjId, b: ObjId, key: string)
    requires Consistent(w) && a in w.scene.objects && b in w.scene.objects
    ensures var w1 := SetObjectParent(w, a, key);
      var w2 := SetObjectParent(w1, b, key);
      && w2.pool == w1.pool
      && w2.scene.nextId == w1.scene.nextId
      && w2.scene.objects[a].parent == w2.scene.objects[b].parent == Some(w2.pool.parents[key])
  {
    var w1 := SetObjectParent(w, a, key);
    var w2 := SetObjectParent(w1, b, key);
    if a != b {
      assert w2.scene.objects[a] == w1.scene.objects[a];
    }
  }

  /** After `Clear`, the next request for any prototype makes a new object, even if one was queued. */
  lemma ClearThenGet(w: World, prefab: ObjId)
    requires Consistent(w) && prefab in w.scene.objects
    ensures var (w1, o) := Get(Clear(w), prefab);
      && o !in w.scene.objects
      && NameOf(w, prefab) in w1.pool.parents
  {
    ClearEffect(w);
    GetBranches(Clear(w), prefab);
    AllocateEffect(Clear(w), prefab);
  }

  /** Queued object `o` is inactive, named `k` and sits under `k`'s container. */
  ghost predicate Filed(w: World, k: string, o: ObjId) {
    && o in w.scene.objects && !w.scene.objects[o].active && w.scene.objects[o].name == k
    && k in w.pool.parents && w.scene.objects[o].parent == Some(w.pool.parents[k])
  }

  /**
   * The pool's own invariant: every queued object exists, is inactive, is
   * named after its queue and sits under that name's container, and no
   * queue holds an object twice. Since an object has one name, it follows
   * that an object is in at most one queue.
   */
  ghost predicate Tidy(w: World) {
    && Consistent(w)
    && (forall k, i :: k in w.pool.queues && 0 <= i < |w.pool.queues[k]| ==> Filed(w, k, w.pool.queues[k][i]))
    && (forall k, i, j :: k in w.pool.queues && 0 <= i < j < |w.pool.queues[k]| ==>
          w.pool.queues[k][i] != w.pool.queues[k][j])
  }

  ghost predicate Queued(w: World, o: ObjId) {
    exists k :: k in w.pool.queues && o in w.pool.queues[k]
  }

  lemma TidyEmpty(sc: SceneState)
    requires WellFormed(sc)
    ensures Tidy(World(Empty(), sc)) && forall o :: !Queued(World(Empty(), sc), o)
  {
  }

  /** In a tidy pool an object can only be queued under its own name. */
  lemma QueuedUnderName(w: World, o: ObjId)
    requires Tidy(w) && o in w.scene.objects
    ensures Queued(w, o) <==> o in Queue(w.pool, NameOf(w, o))
  {
    if Queued(w, o) {
      var k :| k in w.pool.queues && o in w.pool.queues[k];
      var i :| 0 <= i < |w.pool.queues[k]| && w.pool.queues[k][i] == o;
      assert Filed(w, k, o);
    }
  }

  /** Handing back an object that is not already queued keeps the pool tidy and queues it. */
  lemma PushKeepsTidy(w: World, o: ObjId)
    requires Tidy(w) && o in w.scene.objects && !Queued(w, o)
    ensures Tidy(Push(w, Some(o))) && Queued(Push(w, Some(o)), o)
  {
    var k := NameOf(w, o);
    var w1 := Push(w, Some(o));
    PushEffect(w, o);
    QueuedUnderName(w, o);
    var q := Queue(w.pool, k);
    assert Queue(w1.pool, k) == q + [o];
    forall k', i | k' in w1.pool.queues && 0 <= i < |w1.pool.queues[k']|
      ensures Filed(w1, k', w1.pool.queues[k'][i])
    {
      var x := w1.pool.queues[k'][i];
      if k' == k && i == |q| {
        assert x == o;
      } else {
        assert k' in w.pool.queues && x == w.pool.queues[k'][i];
        assert Filed(w, k', x) && x != o;
      }
    }
    forall k', i, j | k' in w1.pool.queues && 0 <= i < j < |w1.pool.queues[k']|
      ensures w1.pool.queues[k'][i] != w1.pool.queues[k'][j]
    {
      if k' == k && j == |q| {
        assert w1.pool.queues[k'][i] == q[i];
      }
    }
    assert o in w1.pool.queues[k];
  }

  lemma DequeueKeepsTidy(w: World, k: string)
    requires Tidy(w) && |Queue(w.pool, k)| > 0
    ensures var (w1, o) := Dequeue(w, k);
      Tidy(w1) && !Queued(w1, o)
  {
    DequeueEffect(w, k);
    var (w1, o) := Dequeue(w, k);
    var q := Queue(w.pool, k);
    assert Queue(w1.pool, k) == q[1..];
    assert Filed(w, k, o);
    forall k', i | k' in w1.pool.queues && 0 <= i < |w1.pool.queues[k']|
      ensures w1.pool.queues[k'][i] != o && Filed(w1, k', w1.pool.queues[k'][i])
    {
      if k' == k {
        assert w1.pool.queues[k'][i] == q[i + 1];
        assert Filed(w, k, q[i + 1]);
      } else {
        assert w1.pool.queues[k'][i] == w.pool.queues[k'][i];
        assert Filed(w, k', w.pool.queues[k'][i]);
      }
    }
    forall i, j | 0 <= i < j < |q[1..]|
      ensures q[1..][i] != q[1..][j]
    {
      assert q[1..][i] == q[i + 1] && q[1..][j] == q[j + 1];
    }
  }

  lemma AllocateKeepsTidy(w: World, prefab: ObjId)
    requires Tidy(w) && prefab in w.scene.objects
    ensures var (w1, o) := Allocate(w, prefab);
      Tidy(w1) && !Queued(w1, o)
  {
    AllocateEffect(w, prefab);
    var (w1, o) := Allocate(w, prefab);
    forall k', i | k' in w1.pool.queues && 0 <= i < |w1.pool.queues[k']|
      ensures w1.pool.queues[k'][i] != o && Filed(w1, k', w1.pool.queues[k'][i])
    {
      var x := w1.pool.queues[k'][i];
      assert x == w.pool.queues[k'][i] && Filed(w, k', x);
    }
  }

  /** A request keeps the pool tidy, and the object it returns is no longer queued. */
  lemma GetKeepsTidy(w: World, prefab: ObjId)
    requires Tidy(w) && prefab in w.scene.objects
    ensures var (w1, o) := Get(w, prefab);
      Tidy(w1) && !Queued(w1, o)
  {
    GetBranches(w, prefab);
    if |Queue(w.pool, NameOf(w, prefab))| > 0 {
      DequeueKeepsTidy(w, NameOf(w, prefab));
    } else {
      AllocateKeepsTidy(w, prefab);
    }
  }

  lemma ClearKeepsTidy(w: World)
    requires Tidy(w)
    ensures Tidy(Clear(w)) && forall o :: !Queued(Clear(w), o)
  {
  }
}
