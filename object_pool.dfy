/**
 * The object pool as an object whose methods update its dictionaries and the
 * scene in place, each proved to follow the matching function of
 * ObjectPoolSpec.
 */
module ObjectPools {
  import opened Wrappers
  import opened Scenes
  import opened ObjectPoolSpec

  class ObjectPool {
    var objectPool: map<string, seq<ObjId>>
    var poolParents: map<string, ObjId>
    var rootPool: Option<ObjId>
    const scene: Scene

    function State(): World
      reads this, scene
    {
      World(PoolState(objectPool, poolParents, rootPool), scene.State())
    }

    ghost predicate Valid()
      reads this, scene
    {
      Consistent(State())
    }

    constructor (scene: Scene)
      requires scene.Valid()
      ensures this.scene == scene && State() == World(Empty(), scene.State()) && Valid()
    {
      this.scene := scene;
      objectPool := map[];
      poolParents := map[];
      rootPool := None;
    }

    method GetObject(prefab: ObjId) returns (obj: ObjId)
      requires Valid() && prefab in scene.objects
      modifies this, scene
      ensures (State(), obj) == Get(old(State()), prefab)
      ensures Valid()
    {
      var keyName := scene.objects[prefab].name;
      if keyName in objectPool && |objectPool[keyName]| > 0 {
        obj := objectPool[keyName][0];
        objectPool := objectPool[keyName := objectPool[keyName][1..]];
      } else {
        obj := scene.Instantiate(prefab);
        scene.SetName(obj, keyName);
        SetObjectParent(obj, keyName);
      }
      scene.SetActive(obj, true);
    }

    method PushObject(obj: Option<ObjId>)
      requires Valid() && (obj.Some? ==> obj.value in scene.objects)
      modifies this, scene
      ensures State() == Push(old(State()), obj)
      ensures Valid()
    {
      if obj.None? {
        return;
      }
      var o := obj.value;
      var keyName := scene.objects[o].name;
      if keyName !in objectPool {
        objectPool := objectPool[keyName := []];
      }
      objectPool := objectPool[keyName := objectPool[keyName] + [o]];
      scene.SetActive(o, false);
      SetObjectParent(o, keyName);
    }

    method Clear()
      requires Valid()
      modifies this
      ensures State() == ObjectPoolSpec.Clear(old(State()))
      ensures Valid()
    {
      objectPool := map[];
      poolParents := map[];
    }

    method SetObjectParent(obj: ObjId, keyName: string)
      requires Valid() && obj in scene.objects
      modifies this, scene
      ensures State() == ObjectPoolSpec.SetObjectParent(old(State()), obj, keyName)
      ensures Valid()
    {
      ghost var w0 := State();
      if rootPool.None? {
        var r := scene.NewGameObject("ObjectPool");
        rootPool := Some(r);
      }
      assert (State(), rootPool.value) == EnsureRoot(w0);
      ghost var w1 := State();
      var parentTrans: ObjId;
      if keyName !in poolParents {
        var childPool := scene.NewGameObject(keyName + "Pool");
        scene.SetParent(childPool, rootPool.value);
        parentTrans := childPool;
        poolParents := poolParents[keyName := parentTrans];
      } else {
        parentTrans := poolParents[keyName];
      }
      assert (State(), parentTrans) == EnsureContainer(w1, rootPool.value, keyName);
      scene.SetParent(obj, parentTrans);
    }
  }
}
