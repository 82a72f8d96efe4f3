/**
 * The engine objects the object pool touches, reduced to what it reads and
 * writes: each object's name, active flag and parent. Objects are numbered;
 * a newly created object takes the next unused number.
 */
module Scenes {
  import opened Wrappers

  type ObjId = nat

  /** `parent` is None for an object at the top of the hierarchy. */
  datatype Obj = Obj(name: string, active: bool, parent: Option<ObjId>)

  datatype SceneState = SceneState(nextId: nat, objects: map<ObjId, Obj>)

  /** Every existing object has a number below the next one to be handed out. */
  ghost predicate WellFormed(sc: SceneState) {
    forall id :: id in sc.objects ==> id < sc.nextId
  }

  /** A new top-level object with the given name and active flag. */
  function Spawn(sc: SceneState, n: string, isActive: bool): (r: (SceneState, ObjId))
    requires WellFormed(sc)
    ensures WellFormed(r.0)
    ensures r.1 !in sc.objects && r.0.nextId > sc.nextId
    ensures r.0.objects == sc.objects[r.1 := Obj(n, isActive, None)]
  {
    var id := sc.nextId;
    (SceneState(id + 1, sc.objects[id := Obj(n, isActive, None)]), id)
  }

  function WithName(sc: SceneState, id: ObjId, n: string): (r: SceneState)
    requires WellFormed(sc) && id in sc.objects
    ensures WellFormed(r) && r.nextId == sc.nextId
    ensures id in r.objects && r.objects[id] == sc.objects[id].(name := n)
  {
    sc.(objects := sc.objects[id := sc.objects[id].(name := n)])
  }

  function WithActive(sc: SceneState, id: ObjId, b: bool): (r: SceneState)
    requires WellFormed(sc) && id in sc.objects
    ensures WellFormed(r) && r.nextId == sc.nextId
    ensures id in r.objects && r.objects[id] == sc.objects[id].(active := b)
  {
    sc.(objects := sc.objects[id := sc.objects[id].(active := b)])
  }

  function WithParent(sc: SceneState, child: ObjId, p: ObjId): (r: SceneState)
    requires WellFormed(sc) && child in sc.objects
    ensures WellFormed(r) && r.nextId == sc.nextId
    ensures child in r.objects && r.objects[child] == sc.objects[child].(parent := Some(p))
  {
    sc.(objects := sc.objects[child := sc.objects[child].(parent := Some(p))])
  }

  /** Every object of `a` is still in `b`, exactly as it was; `b` may have more. */
  ghost predicate Grows(a: SceneState, b: SceneState) {
    && a.nextId <= b.nextId
    && (forall id :: id in a.objects ==> id in b.objects && b.objects[id] == a.objects[id])
  }

  /** Every object of `a` other than `o` is still in `b`, exactly as it was. */
  ghost predicate OnlyTouches(a: SceneState, b: SceneState, o: ObjId) {
    && a.nextId <= b.nextId
    && (o in a.objects ==> o in b.objects)
    && (forall id :: id in a.objects && id != o ==> id in b.objects && b.objects[id] == a.objects[id])
  }

  /** `OnlyTouches`, and `o` keeps its name too. */
  ghost predicate Keeps(a: SceneState, b: SceneState, o: ObjId) {
    && OnlyTouches(a, b, o)
    && (o in a.objects ==> b.objects[o].name == a.objects[o].name)
  }

  lemma GrowsTrans(a: SceneState, b: SceneState, c: SceneState)
    requires Grows(a, b) && Grows(b, c)
    ensures Grows(a, c)
  {
  }

  /** Touching only an object `a` did not have leaves `a` intact. */
  lemma TouchFresh(a: SceneState, b: SceneState, c: SceneState, o: ObjId)
    requires Grows(a, b) && OnlyTouches(b, c, o) && o !in a.objects
    ensures Grows(a, c)
  {
  }

  lemma SpawnGrows(sc: SceneState, n: string, b: bool)
    requires WellFormed(sc)
    ensures Grows(sc, Spawn(sc, n, b).0)
  {
  }

  lemma WithNameTouches(sc: SceneState, o: ObjId, n: string)
    requires WellFormed(sc) && o in sc.objects
    ensures OnlyTouches(sc, WithName(sc, o, n), o)
  {
  }

  lemma WithActiveKeeps(sc: SceneState, o: ObjId, b: bool)
    requires WellFormed(sc) && o in sc.objects
    ensures Keeps(sc, WithActive(sc, o, b), o)
  {
  }

  lemma WithParentKeeps(sc: SceneState, o: ObjId, p: ObjId)
    requires WellFormed(sc) && o in sc.objects
    ensures Keeps(sc, WithParent(sc, o, p), o)
  {
  }

  /** The engine's object registry, updated in place. */
  class Scene {
    var nextId: nat
    var objects: map<ObjId, Obj>

    function State(): SceneState
      reads this
    {
      SceneState(nextId, objects)
    }

    ghost predicate Valid()
      reads this
    {
      WellFormed(State())
    }

    constructor ()
      ensures State() == SceneState(0, map[]) && Valid()
    {
      nextId, objects := 0, map[];
    }

    /** `new GameObject(n)`: a fresh, active, top-level object. */
    method NewGameObject(n: string) returns (obj: ObjId)
      requires Valid()
      modifies this
      ensures (State(), obj) == Spawn(old(State()), n, true)
    {
      obj := nextId;
      nextId := nextId + 1;
      objects := objects[obj := Obj(n, true, None)];
    }

    /** `Instantiate(prefab)`: a fresh top-level copy named after the prefab with a "(Clone)" suffix. */
    method Instantiate(prefab: ObjId) returns (obj: ObjId)
      requires Valid() && prefab in objects
      modifies this
      ensures (State(), obj) == Spawn(old(State()), old(objects[prefab].name) + "(Clone)", old(objects[prefab].active))
    {
      var original := objects[prefab];
      obj := nextId;
      nextId := nextId + 1;
      objects := objects[obj := Obj(original.name + "(Clone)", original.active, None)];
    }

    method SetName(id: ObjId, n: string)
      requires Valid() && id in objects
      modifies this
      ensures State() == WithName(old(State()), id, n)
    {
      objects := objects[id := objects[id].(name := n)];
    }

    method SetActive(id: ObjId, b: bool)
      requires Valid() && id in objects
      modifies this
      ensures State() == WithActive(old(State()), id, b)
    {
      objects := objects[id := objects[id].(active := b)];
    }

    method SetParent(child: ObjId, p: ObjId)
      requires Valid() && child in objects
      modifies this
      ensures State() == WithParent(old(State()), child, p)
    {
      objects := objects[child := objects[child].(parent := Some(p))];
    }
  }
}
