/**
 * A component that hands its own object back to the pool once it has been
 * active for longer than its lifetime. The timer restarts whenever the
 * object is enabled, grows by each tick's elapsed time, and a push is
 * requested on every tick at which it is strictly past the lifetime.
 */
module PushSelf {
  import opened Wrappers
  import opened Scenes
  import opened ObjectPoolSpec
  import opened ObjectPools

  function Sum(dts: seq<nat>): nat {
    if dts == [] then 0 else dts[0] + Sum(dts[1..])
  }

  /**
   * The timer after each of a run of ticks, starting from `timer`, and for
   * each tick whether it requests a push.
   */
  function Timers(timer: nat, dts: seq<nat>): (r: seq<nat>)
    ensures |r| == |dts|
    decreases |dts|
  {
    if dts == [] then [] else [timer + dts[0]] + Timers(timer + dts[0], dts[1..])
  }

  /** Whether a tick that leaves the timer at `timer` requests a push: strictly past the lifetime. */
  predicate Expired(lifeTime: nat, timer: nat)
    ensures timer <= lifeTime ==> !Expired(lifeTime, timer)
    ensures timer == lifeTime + 1 ==> Expired(lifeTime, timer)
  {
    timer > lifeTime
  }

  /**
   * For a run of `OnEnable` followed by one `PushSelfBase.Update` per entry of
   * `dts`: whether each of those ticks requests a push. `OnEnable` sets the
   * timer to 0, and `Update`'s contract adds `dt` and pushes exactly when
   * `Expired`, so tick `i` sees timer `Timers(0, dts)[i]`.
   */
  function Requests(lifeTime: nat, dts: seq<nat>): (r: seq<bool>)
    ensures |r| == |dts|
  {
    var ts := Timers(0, dts);
    seq(|dts|, i requires 0 <= i < |dts| => Expired(lifeTime, ts[i]))
  }

  lemma SumFront(dts: seq<nat>, i: nat)
    requires 0 <= i < |dts|
    ensures Sum(dts[..i + 1]) == dts[0] + Sum(dts[1..][..i])
  {
    assert dts[..i + 1][1..] == dts[1..][..i];
  }

  /** The timer after tick `i` is the starting value plus all elapsed time so far. */
  lemma {:induction false} TimersAreSums(timer: nat, dts: seq<nat>, i: nat)
    requires i < |dts|
    ensures Timers(timer, dts)[i] == timer + Sum(dts[..i + 1])
    decreases |dts|
  {
    SumFront(dts, i);
    if i > 0 {
      TimersAreSums(timer + dts[0], dts[1..], i - 1);
      assert Timers(timer, dts)[i] == Timers(timer + dts[0], dts[1..])[i - 1];
      assert dts[1..][..i - 1 + 1] == dts[1..][..i];
    } else {
      assert dts[1..][..0] == [];
    }
  }

  /** After enabling, tick `i` requests a push exactly when the time elapsed since then exceeds the lifetime. */
  lemma PushRequestedIff(lifeTime: nat, dts: seq<nat>, i: nat)
    requires i < |dts|
    ensures Requests(lifeTime, dts)[i] <==> Sum(dts[..i + 1]) > lifeTime
  {
    TimersAreSums(0, dts, i);
  }

  lemma {:induction false} SumPrefixMonotone(dts: seq<nat>, i: nat, j: nat)
    requires i <= j <= |dts|
    ensures Sum(dts[..i]) <= Sum(dts[..j])
    decreases |dts|
  {
    if i > 0 {
      SumFront(dts, i - 1);
      SumFront(dts, j - 1);
      SumPrefixMonotone(dts[1..], i - 1, j - 1);
    }
  }

  /** Time only grows while enabled, so once a push is requested every later tick requests one too. */
  lemma RequestsPersist(lifeTime: nat, dts: seq<nat>, i: nat, j: nat)
    requires i <= j < |dts| && Requests(lifeTime, dts)[i]
    ensures Requests(lifeTime, dts)[j]
  {
    PushRequestedIff(lifeTime, dts, i);
    PushRequestedIff(lifeTime, dts, j);
    SumPrefixMonotone(dts, i + 1, j + 1);
  }

  /** Reaching the lifetime exactly is not enough. */
  lemma ExactLifetimeKeeps(lifeTime: nat)
    ensures Requests(lifeTime, [lifeTime]) == [false]
    ensures Requests(lifeTime, [lifeTime + 1]) == [true]
  {
    assert Timers(0, [lifeTime]) == [lifeTime];
    assert Timers(0, [lifeTime + 1]) == [lifeTime + 1];
  }

  class PushSelfBase {
    const lifeTime: nat
    var timer: nat
    /** The object this component belongs to. */
    const gameObject: ObjId

    constructor (lifeTime: nat, gameObject: ObjId)
      ensures this.lifeTime == lifeTime && this.gameObject == gameObject && timer == 0
    {
      this.lifeTime := lifeTime;
      this.gameObject := gameObject;
      timer := 0;
    }

    method OnEnable()
      modifies this
      ensures timer == 0
    {
      timer := 0;
    }

    /**
     * One tick of `dt` time units. A null `pool` stands for the pool
     * instance being absent.
     */
    method Update(dt: nat, pool: ObjectPool?)
      requires pool != null ==> pool.Valid() && gameObject in pool.scene.objects
      modifies this, if pool == null then {} else {pool, pool.scene}
      ensures timer == old(timer) + dt
      ensures pool != null ==> pool.Valid()
      ensures pool != null && Expired(lifeTime, timer) ==> pool.State() == Push(old(pool.State()), Some(gameObject))
      ensures pool != null && !Expired(lifeTime, timer) ==> pool.State() == old(pool.State())
    {
      timer := timer + dt;
      if timer > lifeTime {
        PushObj(pool);
      }
    }

    method PushObj(pool: ObjectPool?)
      requires pool != null ==> pool.Valid() && gameObject in pool.scene.objects
      modifies if pool == null then {} else {pool, pool.scene}
      ensures timer == old(timer)
      ensures pool != null ==> pool.Valid() && pool.State() == Push(old(pool.State()), Some(gameObject))
    {
      if pool != null {
        pool.PushObject(Some(gameObject));
      }
    }
  }
}
