/**
 * Properties of the sequence frame player: the catch-up loop performs exactly
 * (accumulator + dt) / duration steps, the three end-of-sequence policies, the
 * circular and clamped manual steps, and the index invariant.
 */
module SequenceFrameProperties {
  import opened Wrappers
  import opened Mathf
  import opened SequenceFrameSpec

  // ---------------------------------------------------------------- catch-up

  /** Nothing in a step reads the accumulator. */
  lemma SetIndexIgnoresAccumulator(cfg: Config, s: PlayerState, i: int, x: nat)
    ensures SetIndex(cfg, s.(accumulator := x), i, false) == SetIndex(cfg, s, i, false).(accumulator := x)
  {
  }

  lemma AdvanceIgnoresAccumulator(cfg: Config, s: PlayerState, x: nat)
    ensures Advance(cfg, s.(accumulator := x)) == Advance(cfg, s).(accumulator := x)
  {
    var n := FrameCount(cfg);
    if n > 0 {
      var next := s.index + s.direction;
      var e := s.events + [Looped];
      match cfg.playbackMode
      case Once =>
        SetIndexIgnoresAccumulator(cfg, s, if next >= n then n - 1 else next, x);
      case Loop =>
        if next >= n {
          SetIndexIgnoresAccumulator(cfg, s.(events := e), 0, x);
          assert s.(accumulator := x).(events := e) == s.(events := e).(accumulator := x);
        } else {
          SetIndexIgnoresAccumulator(cfg, s, next, x);
        }
      case PingPong =>
        if next >= n {
          SetIndexIgnoresAccumulator(cfg, s.(direction := -1, events := e), Clamp(n - 2, 0, n - 1), x);
          assert s.(accumulator := x).(direction := -1, events := e) == s.(direction := -1, events := e).(accumulator := x);
        } else if next < 0 {
          SetIndexIgnoresAccumulator(cfg, s.(direction := 1, events := e), Clamp(1, 0, n - 1), x);
          assert s.(accumulator := x).(direction := 1, events := e) == s.(direction := 1, events := e).(accumulator := x);
        } else {
          SetIndexIgnoresAccumulator(cfg, s, next, x);
        }
    }
  }

  lemma {:induction false} AdvanceNSucc(cfg: Config, s: PlayerState, n: nat)
    ensures AdvanceN(cfg, s, n + 1) == Advance(cfg, AdvanceN(cfg, s, n))
    decreases n
  {
    if n > 0 {
      AdvanceNSucc(cfg, Advance(cfg, s), n - 1);
    }
  }

  /** The catch-up loop is `acc / duration` steps, leaving `acc % duration` behind. */
  lemma {:induction false} CatchUpSteps(cfg: Config, s: PlayerState)
    ensures CatchUp(cfg, s) ==
      AdvanceN(cfg, s.(accumulator := s.accumulator % cfg.frameDuration), s.accumulator / cfg.frameDuration)
    decreases s.accumulator
  {
    var d := cfg.frameDuration;
    var a := s.accumulator;
    if a >= d {
      var s' := s.(accumulator := a - d);
      CatchUpSteps(cfg, Advance(cfg, s'));
      DivModStep(a, d);
      AdvanceIgnoresAccumulator(cfg, s', a % d);
      assert s'.(accumulator := a % d) == s.(accumulator := a % d);
    } else {
      DivModUnique(a, d, 0, a);
      assert s.(accumulator := a % d) == s;
    }
  }

  /**
   * While playing more than one frame, a tick of `dt` performs exactly
   * `(a + dt) / duration` Advance steps and keeps `(a + dt) % duration`.
   */
  lemma UpdateSteps(cfg: Config, s: PlayerState, dt: nat)
    requires s.playing && FrameCount(cfg) > 1
    ensures Update(cfg, s, dt) ==
      AdvanceN(cfg, s.(accumulator := (s.accumulator + dt) % cfg.frameDuration),
               (s.accumulator + dt) / cfg.frameDuration)
    ensures Update(cfg, s, dt).accumulator == (s.accumulator + dt) % cfg.frameDuration < cfg.frameDuration
  {
    CatchUpSteps(cfg, s.(accumulator := s.accumulator + dt));
  }

  // ---------------------------------------------------------------- index invariant

  lemma {:induction false} AdvanceNInRange(cfg: Config, s: PlayerState, n: nat)
    requires InRange(cfg, s.index)
    ensures InRange(cfg, AdvanceN(cfg, s, n).index)
    decreases n
  {
    if n > 0 {
      AdvanceNInRange(cfg, Advance(cfg, s), n - 1);
    }
  }

  /** Every operation keeps the current index a valid position (0 with no frames). */
  lemma OperationsKeepIndexInRange(cfg: Config, s: PlayerState, i: int, force: bool, rewind: bool, delta: int, dt: nat)
    requires InRange(cfg, s.index)
    ensures InRange(cfg, SetIndex(cfg, s, i, force).index)
    ensures InRange(cfg, Play(cfg, s).index) && InRange(cfg, Pause(s).index)
    ensures InRange(cfg, Stop(cfg, s, rewind).index)
    ensures InRange(cfg, Step(cfg, s, delta).index)
    ensures InRange(cfg, Advance(cfg, s).index)
    ensures InRange(cfg, Update(cfg, s, dt).index)
    ensures InRange(cfg, Awake(cfg, s).index)
  {
    if s.playing && FrameCount(cfg) > 1 {
      UpdateSteps(cfg, s, dt);
      AdvanceNInRange(cfg, s.(accumulator := (s.accumulator + dt) % cfg.frameDuration),
                      (s.accumulator + dt) / cfg.frameDuration);
    }
  }

  // ---------------------------------------------------------------- Once

  /**
   * Once mode, overrunning the end: the index stays at the last frame,
   * playing stops, and `onCompleted` fires after any frame notification.
   */
  lemma OnceOverrun(cfg: Config, s: PlayerState)
    requires cfg.playbackMode == Once && FrameCount(cfg) > 0
    requires s.index + s.direction >= FrameCount(cfg)
    ensures Advance(cfg, s).index == FrameCount(cfg) - 1
    ensures !Advance(cfg, s).playing
    ensures Advance(cfg, s).events ==
      s.events + (if Redundant(cfg, s, FrameCount(cfg) - 1, false) then [] else [FrameChanged(FrameCount(cfg) - 1)])
      + [Completed]
  {
  }

  /** Once mode before the end: a plain step forward, still playing. */
  lemma OnceForward(cfg: Config, s: PlayerState)
    requires cfg.playbackMode == Once && FrameCount(cfg) > 0
    requires s.direction == 1 && InRange(cfg, s.index) && s.index < FrameCount(cfg) - 1
    ensures Advance(cfg, s).index == s.index + 1
    ensures Advance(cfg, s).playing == s.playing
    ensures Advance(cfg, s).events == s.events + [FrameChanged(s.index + 1)]
  {
  }

  /** `k` copies of `b`, one after another. */
  function Blocks(b: seq<Event>, k: nat): (r: seq<Event>)
    ensures |r| == k * |b|
    ensures k > 0 ==> r[..|b|] == b
    decreases k
  {
    if k == 0 then [] else b + Blocks(b, k - 1)
  }

  /**
   * What one Advance at the last frame fires in Once mode: `onCompleted`,
   * preceded by the frame notification unless a redundant apply is skipped.
   */
  function OnceEnd(cfg: Config): seq<Event> {
    if cfg.skipRedundantApply then [Completed] else [FrameChanged(FrameCount(cfg) - 1), Completed]
  }

  /**
   * The catch-up loop does not look at `isPlaying`: from the last frame in
   * Once mode every pending step fires `onCompleted` again.
   */
  lemma {:induction false} OnceRepeatsCompleted(cfg: Config, s: PlayerState, k: nat)
    requires cfg.playbackMode == Once && FrameCount(cfg) > 0
    requires s.index == FrameCount(cfg) - 1 && s.direction >= 1
    ensures AdvanceN(cfg, s, k).index == FrameCount(cfg) - 1
    ensures AdvanceN(cfg, s, k).events == s.events + Blocks(OnceEnd(cfg), k)
    ensures k > 0 ==> !AdvanceN(cfg, s, k).playing
    decreases k
  {
    if k > 0 {
      var s1 := Advance(cfg, s);
      assert s1.events == s.events + OnceEnd(cfg);
      OnceRepeatsCompleted(cfg, s1, k - 1);
      assert s.events + OnceEnd(cfg) + Blocks(OnceEnd(cfg), k - 1) == s.events + Blocks(OnceEnd(cfg), k);
      if k > 1 {
        assert !AdvanceN(cfg, s1, k - 1).playing;
      } else {
        assert AdvanceN(cfg, s, k) == s1;
      }
    }
  }

  /** So one tick that covers several frame durations at the last frame fires `onCompleted` that many times. */
  lemma OnceTickCompletions(cfg: Config, s: PlayerState, dt: nat)
    requires cfg.playbackMode == Once && FrameCount(cfg) > 1
    requires s.playing && s.index == FrameCount(cfg) - 1 && s.direction >= 1
    ensures Update(cfg, s, dt).events == s.events + Blocks(OnceEnd(cfg), (s.accumulator + dt) / cfg.frameDuration)
    ensures Update(cfg, s, dt).index == FrameCount(cfg) - 1
    ensures s.accumulator + dt >= cfg.frameDuration ==> !Update(cfg, s, dt).playing
  {
    UpdateSteps(cfg, s, dt);
    OnceRepeatsCompleted(cfg, s.(accumulator := (s.accumulator + dt) % cfg.frameDuration),
                         (s.accumulator + dt) / cfg.frameDuration);
  }

  // ---------------------------------------------------------------- Loop

  /** Loop mode, forward: the last frame wraps to 0, firing `onLoop` before the frame notification. */
  lemma LoopAdvance(cfg: Config, s: PlayerState)
    requires cfg.playbackMode == Loop && FrameCount(cfg) > 0
    requires s.direction == 1 && InRange(cfg, s.index)
    ensures s.index == FrameCount(cfg) - 1 ==>
      && Advance(cfg, s).index == 0
      && Advance(cfg, s).events ==
           s.events + [Looped] + (if FrameCount(cfg) == 1 && cfg.skipRedundantApply then [] else [FrameChanged(0)])
    ensures s.index < FrameCount(cfg) - 1 ==>
      && Advance(cfg, s).index == s.index + 1
      && Advance(cfg, s).events == s.events + [FrameChanged(s.index + 1)]
  {
  }

  /** The notifications `FrameChanged(from), ..., FrameChanged(to - 1)`. */
  function Ascending(from: int, to: int): (r: seq<Event>)
    requires from <= to
    ensures |r| == to - from && forall j :: 0 <= j < to - from ==> r[j] == FrameChanged(from + j)
  {
    seq(to - from, j => FrameChanged(from + j))
  }

  lemma {:induction false} LoopPrefix(cfg: Config, s: PlayerState, k: nat)
    requires cfg.playbackMode == Loop && FrameCount(cfg) >= 2
    requires s.direction == 1 && s.index == 0
    requires k < FrameCount(cfg)
    ensures AdvanceN(cfg, s, k).index == k
    ensures AdvanceN(cfg, s, k).direction == 1
    ensures AdvanceN(cfg, s, k).playing == s.playing
    ensures AdvanceN(cfg, s, k).events == s.events + Ascending(1, k + 1)
    decreases k
  {
    if k == 0 {
      assert Ascending(1, 1) == [];
    } else {
      LoopPrefix(cfg, s, k - 1);
      AdvanceNSucc(cfg, s, k - 1);
      LoopAdvance(cfg, AdvanceN(cfg, s, k - 1));
      assert Ascending(1, k) + [FrameChanged(k)] == Ascending(1, k + 1);
    }
  }

  /**
   * Loop mode: `count` steps from frame 0 come back to frame 0, visiting
   * 1, ..., count - 1 in between, with exactly one `onLoop` among them.
   */
  lemma LoopCycle(cfg: Config, s: PlayerState)
    requires cfg.playbackMode == Loop && FrameCount(cfg) >= 2
    requires s.direction == 1 && s.index == 0
    ensures AdvanceN(cfg, s, FrameCount(cfg)).index == 0
    ensures AdvanceN(cfg, s, FrameCount(cfg)).events ==
      s.events + Ascending(1, FrameCount(cfg)) + [Looped, FrameChanged(0)]
    ensures multiset(Ascending(1, FrameCount(cfg)) + [Looped, FrameChanged(0)])[Looped] == 1
  {
    var n := FrameCount(cfg);
    LoopPrefix(cfg, s, n - 1);
    AdvanceNSucc(cfg, s, n - 1);
    LoopAdvance(cfg, AdvanceN(cfg, s, n - 1));
    var asc := Ascending(1, n);
    assert Looped !in asc;
    assert multiset(asc)[Looped] == 0;
    assert multiset(asc + [Looped, FrameChanged(0)]) == multiset(asc) + multiset{Looped, FrameChanged(0)};
  }

  // ---------------------------------------------------------------- PingPong

  /**
   * PingPong mode, one step: overrunning the top turns back to `count - 2`,
   * underrunning 0 turns forward to 1, each turn firing `onLoop` first;
   * otherwise the index moves one in the current direction.
   */
  lemma PingPongAdvance(cfg: Config, s: PlayerState)
    requires cfg.playbackMode == PingPong && FrameCount(cfg) >= 2
    requires InRange(cfg, s.index) && (s.direction == 1 || s.direction == -1)
    ensures s.index + s.direction >= FrameCount(cfg) ==>
      && Advance(cfg, s).direction == -1
      && Advance(cfg, s).index == FrameCount(cfg) - 2
      && Advance(cfg, s).events == s.events + [Looped, FrameChanged(FrameCount(cfg) - 2)]
    ensures s.index + s.direction < 0 ==>
      && Advance(cfg, s).direction == 1
      && Advance(cfg, s).index == 1
      && Advance(cfg, s).events == s.events + [Looped, FrameChanged(1)]
    ensures 0 <= s.index + s.direction < FrameCount(cfg) ==>
      && Advance(cfg, s).direction == s.direction
      && Advance(cfg, s).index == s.index + s.direction
      && Advance(cfg, s).events == s.events + [FrameChanged(s.index + s.direction)]
  {
  }

  /** The length of one back-and-forth sweep over `n` frames. */
  function Period(n: nat): nat
    requires n >= 2
  {
    2 * (n - 1)
  }

  /** `t` modulo the period, by repeated subtraction. */
  function Phase(n: nat, t: nat): (r: nat)
    requires n >= 2
    ensures r < Period(n)
    decreases t
  {
    if t < Period(n) then t else Phase(n, t - Period(n))
  }

  /** The ping-pong walk 0, 1, ..., n-1, n-2, ..., 1, 0, 1, ...: the frame shown after `t` steps. */
  function PingPongIndex(n: nat, t: nat): nat
    requires n >= 2
  {
    var r := Phase(n, t);
    if r < n then r else Period(n) - r
  }

  /** The direction after `t` steps: forward on the way up, backward on the way down and back at 0. */
  function PingPongDirection(n: nat, t: nat): int
    requires n >= 2
  {
    var r := Phase(n, t);
    if t == 0 || 0 < r < n then 1 else -1
  }

  lemma {:induction false} PhaseSucc(n: nat, t: nat)
    requires n >= 2
    ensures Phase(n, t + 1) == if Phase(n, t) == Period(n) - 1 then 0 else Phase(n, t) + 1
    decreases t
  {
    if t + 1 > Period(n) {
      PhaseSucc(n, t - Period(n));
    } else if t + 1 == Period(n) {
      assert Phase(n, t + 1) == Phase(n, 0);
    }
  }

  /** One step of the walk is one PingPong step: bounce off either end, otherwise move on. */
  lemma PingPongStep(n: nat, t: nat)
    requires n >= 2
    ensures var i := PingPongIndex(n, t);
      var d := PingPongDirection(n, t);
      && 0 <= i < n && (d == 1 || d == -1)
      && PingPongIndex(n, t + 1) == (if i + d >= n then n - 2 else if i + d < 0 then 1 else i + d)
      && PingPongDirection(n, t + 1) == (if i + d >= n then -1 else if i + d < 0 then 1 else d)
  {
    PhaseSucc(n, t);
  }

  /** A state on the walk at step `t` advances to the walk at step `t + 1`. */
  lemma WalkStep(cfg: Config, u: PlayerState, t: nat)
    requires cfg.playbackMode == PingPong && FrameCount(cfg) >= 2
    requires u.index == PingPongIndex(FrameCount(cfg), t) && u.direction == PingPongDirection(FrameCount(cfg), t)
    ensures Advance(cfg, u).index == PingPongIndex(FrameCount(cfg), t + 1)
    ensures Advance(cfg, u).direction == PingPongDirection(FrameCount(cfg), t + 1)
  {
    PingPongStep(FrameCount(cfg), t);
    PingPongAdvance(cfg, u);
  }

  /** Starting at frame 0 going forward, `t` steps of PingPong follow the walk. */
  lemma {:induction false} PingPongWalk(cfg: Config, s: PlayerState, t: nat)
    requires cfg.playbackMode == PingPong && FrameCount(cfg) >= 2
    requires s.index == 0 && s.direction == 1
    ensures AdvanceN(cfg, s, t).index == PingPongIndex(FrameCount(cfg), t)
    ensures AdvanceN(cfg, s, t).direction == PingPongDirection(FrameCount(cfg), t)
    decreases t
  {
    if t > 0 {
      var n := FrameCount(cfg);
      PingPongWalk(cfg, s, t - 1);
      AdvanceNSucc(cfg, s, t - 1);
      WalkStep(cfg, AdvanceN(cfg, s, t - 1), t - 1);
    }
  }

  // ---------------------------------------------------------------- manual steps

  /** Loop mode: NextFrame and PrevFrame wrap circularly in both directions. */
  lemma LoopNextPrev(cfg: Config, s: PlayerState)
    requires cfg.playbackMode == Loop && FrameCount(cfg) > 0 && InRange(cfg, s.index)
    ensures NextFrame(cfg, s).index == if s.index == FrameCount(cfg) - 1 then 0 else s.index + 1
    ensures PrevFrame(cfg, s).index == if s.index == 0 then FrameCount(cfg) - 1 else s.index - 1
  {
    var n := FrameCount(cfg);
    if s.index == n - 1 {
      DivModUnique(s.index + 1, n, 1, 0);
    } else {
      DivModUnique(s.index + 1, n, 0, s.index + 1);
    }
    if s.index == 0 {
      DivModUnique(-1, n, -1, n - 1);
    } else {
      DivModUnique(s.index - 1, n, 0, s.index - 1);
    }
  }

  /** Once and PingPong: NextFrame and PrevFrame stop at the ends. */
  lemma ClampedNextPrev(cfg: Config, s: PlayerState)
    requires cfg.playbackMode != Loop && FrameCount(cfg) > 0 && InRange(cfg, s.index)
    ensures NextFrame(cfg, s).index == if s.index == FrameCount(cfg) - 1 then s.index else s.index + 1
    ensures PrevFrame(cfg, s).index == if s.index == 0 then 0 else s.index - 1
  {
  }

  /** With no frames, a manual step changes nothing and notifies nobody. */
  lemma NoFramesNoStep(cfg: Config, s: PlayerState)
    requires FrameCount(cfg) == 0
    ensures NextFrame(cfg, s) == s && PrevFrame(cfg, s) == s
  {
  }

  /**
   * A SetIndex call leaves the player exactly as it was if and only if it is
   * redundant; only a call that finds the index already valid can be.
   */
  lemma RedundantIffNoEffect(cfg: Config, s: PlayerState, i: int, force: bool)
    ensures SetIndex(cfg, s, i, force) == s <==> Redundant(cfg, s, i, force)
    ensures Redundant(cfg, s, i, force) ==> InRange(cfg, s.index)
  {
    if !Redundant(cfg, s, i, force) {
      assert |SetIndex(cfg, s, i, force).events| == |s.events| + 1;
    }
  }

  // ---------------------------------------------------------------- targets and display

  /**
   * When the counted frame list is the one the resolved surface takes, a
   * non-redundant SetIndex leaves that surface showing exactly the new index.
   */
  lemma ShownFollowsIndex(cfg: Config, s: PlayerState, i: int, force: bool)
    requires !Redundant(cfg, s, i, force)
    requires || (ResolveTarget(cfg) != RawImage && UsingSprites(cfg) && cfg.spriteCount > 0
                 && (cfg.hasSpriteRenderer || cfg.hasUIImage))
             || (ResolveTarget(cfg) == RawImage && !UsingSprites(cfg) && cfg.hasRawImage && cfg.textureCount > 0)
    ensures SetIndex(cfg, s, i, force).shown == Some(SetIndex(cfg, s, i, force).index as nat)
  {
  }

  /**
   * The frame count follows the configured target kind: an Auto player that
   * resolves to a raw image and has only texture frames counts no frames, so
   * Play leaves it stopped.
   */
  lemma AutoRawImageCountsSprites(cfg: Config, s: PlayerState)
    requires cfg.targetType == Auto && !cfg.hasSpriteRenderer && !cfg.hasUIImage && cfg.hasRawImage
    requires cfg.spriteCount == 0
    ensures ResolveTarget(cfg) == RawImage
    ensures FrameCount(cfg) == 0
    ensures Play(cfg, s) == s
  {
  }

  // ---------------------------------------------------------------- a worked scenario

  /**
   * Ten frames a second counted in 50 ms units (a frame lasts 2 units), Loop
   * mode over three sprites, six ticks of one unit: three steps, through
   * frames 1 and 2 back to 0.
   */
  lemma TenFpsLoopScenario()
    ensures var cfg := Config(SpriteRenderer, 3, 0, true, false, false, 2, Loop, true, true, 0);
            var r := UpdateAll(cfg, Awake(cfg, Initial()), [1, 1, 1, 1, 1, 1]);
            r.index == 0 && r.events == [FrameChanged(1), FrameChanged(2), Looped, FrameChanged(0)]
  {
    var cfg := Config(SpriteRenderer, 3, 0, true, false, false, 2, Loop, true, true, 0);
    var s0 := Awake(cfg, Initial());
    assert s0.index == 0 && s0.playing && s0.direction == 1 && s0.events == [];
    var s1 := Update(cfg, s0, 1);
    assert s1 == s0.(accumulator := 1);
    var s2 := Update(cfg, s1, 1);
    UpdateSteps(cfg, s1, 1);
    assert s2 == Advance(cfg, s1.(accumulator := 0));
    assert s2.index == 1 && s2.accumulator == 0 && s2.events == [FrameChanged(1)];
    var s3 := Update(cfg, s2, 1);
    assert s3 == s2.(accumulator := 1);
    var s4 := Update(cfg, s3, 1);
    UpdateSteps(cfg, s3, 1);
    assert s4 == Advance(cfg, s3.(accumulator := 0));
    assert s4.index == 2 && s4.accumulator == 0 && s4.events == [FrameChanged(1), FrameChanged(2)];
    var s5 := Update(cfg, s4, 1);
    assert s5 == s4.(accumulator := 1);
    var s6 := Update(cfg, s5, 1);
    UpdateSteps(cfg, s5, 1);
    assert s6 == Advance(cfg, s5.(accumulator := 0));
    assert s6.index == 0 && s6.events == [FrameChanged(1), FrameChanged(2), Looped, FrameChanged(0)];
    assert UpdateAll(cfg, s6, []) == s6;
    assert UpdateAll(cfg, s5, [1]) == s6;
    assert UpdateAll(cfg, s4, [1, 1]) == s6;
    assert UpdateAll(cfg, s3, [1, 1, 1]) == s6;
    assert UpdateAll(cfg, s2, [1, 1, 1, 1]) == s6;
    assert UpdateAll(cfg, s1, [1, 1, 1, 1, 1]) == s6;
  }
}
