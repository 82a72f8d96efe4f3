/**
 * The sequence frame player's behaviour as functions on values.
 *
 * A player shows one frame of a list of sprites (or of textures, for a raw
 * image surface) and, while playing, advances one frame per elapsed frame
 * duration under one of three end-of-sequence policies. Time is counted in
 * whole time units and the frame duration is a positive number of them.
 * Listener notifications are recorded, in order, in the state's event trace.
 * The class in SequenceFramePlayer is proved to follow these functions.
 */
module SequenceFrameSpec {
  import opened Wrappers
  import opened Mathf

  datatype TargetType = Auto | SpriteRenderer | UIImage | RawImage

  datatype PlaybackMode = Once | Loop | PingPong

  /** What the listeners observe: `onFrameChanged(index)`, `onLoop` and `onCompleted`. */
  datatype Event = FrameChanged(index: int) | Looped | Completed

  /** A positive number of time units. */
  type Duration = d: nat | d > 0 witness 1

  /**
   * The player's configuration. Only the number of frames in each list
   * matters to playback; the three `has...` flags say whether a reference to
   * that kind of display surface is available when targets are resolved.
   */
  datatype Config = Config(
    targetType: TargetType,
    spriteCount: nat,
    textureCount: nat,
    hasSpriteRenderer: bool,
    hasUIImage: bool,
    hasRawImage: bool,
    frameDuration: Duration,
    playbackMode: PlaybackMode,
    playOnAwake: bool,
    skipRedundantApply: bool,
    startFrame: int)

  /**
   * The fields the player mutates, plus `shown` (the position in the active
   * frame list that the display surface was last given, if any) and the
   * trace of notifications fired so far.
   */
  datatype PlayerState = PlayerState(
    index: int,
    playing: bool,
    direction: int,
    accumulator: nat,
    resolved: TargetType,
    shown: Option<nat>,
    events: seq<Event>)

  /** The field initialisers, before `Awake` runs: frame 0, stopped, going forward, nothing accumulated or shown. */
  function Initial(): (r: PlayerState)
    ensures forall cfg: Config :: InRange(cfg, r.index)
    ensures !r.playing && r.direction == 1 && r.accumulator == 0 && r.events == [] && r.shown == None
  {
    PlayerState(0, false, 1, 0, Auto, None, [])
  }

  /** The sprite list is used unless the target is a raw image and there are no sprites. */
  function UsingSprites(cfg: Config): (r: bool)
    ensures r <==> !(cfg.targetType == RawImage && cfg.spriteCount == 0)
  {
    cfg.spriteCount > 0
    || cfg.targetType == SpriteRenderer || cfg.targetType == UIImage || cfg.targetType == Auto
  }

  function FrameCount(cfg: Config): (n: nat)
    ensures cfg.spriteCount > 0 ==> n == cfg.spriteCount
    ensures cfg.spriteCount == 0 ==> n == (if cfg.targetType == RawImage then cfg.textureCount else 0)
  {
    if UsingSprites(cfg) then cfg.spriteCount else cfg.textureCount
  }

  /** The surface kind frames are applied to: SpriteRenderer first, then Image, then RawImage. */
  function ResolveTarget(cfg: Config): (t: TargetType)
    ensures t != Auto
    ensures cfg.targetType != Auto ==> t == cfg.targetType
    ensures cfg.targetType == Auto ==>
      && (t == UIImage <==> !cfg.hasSpriteRenderer && cfg.hasUIImage)
      && (t == RawImage <==> !cfg.hasSpriteRenderer && !cfg.hasUIImage && cfg.hasRawImage)
      && (t == SpriteRenderer <==>
            cfg.hasSpriteRenderer || (!cfg.hasUIImage && !cfg.hasRawImage))
  {
    if cfg.targetType == Auto then
      if cfg.hasSpriteRenderer then SpriteRenderer
      else if cfg.hasUIImage then UIImage
      else if cfg.hasRawImage then RawImage
      else SpriteRenderer
    else
      cfg.targetType
  }

  /** The invariant on the current index: a valid position, and 0 when there are no frames. */
  predicate InRange(cfg: Config, i: int) {
    0 <= i && (FrameCount(cfg) == 0 ==> i == 0) && (FrameCount(cfg) > 0 ==> i < FrameCount(cfg))
  }

  /** `Clamp(index, 0, Max(0, FrameCount - 1))`. */
  function ClampIndex(cfg: Config, index: int): (i: int)
    ensures InRange(cfg, i)
    ensures InRange(cfg, index) ==> i == index
    ensures index < 0 ==> i == 0
    ensures FrameCount(cfg) > 0 && index >= FrameCount(cfg) ==> i == FrameCount(cfg) - 1
  {
    Clamp(index, 0, Max(0, FrameCount(cfg) - 1))
  }

  /**
   * What the display surface shows after a frame is applied: the sprite
   * surfaces take the clamped sprite, the raw image the clamped texture; with
   * no frames in that list, or no surface to give it to, nothing changes.
   */
  function Displayed(cfg: Config, target: TargetType, index: int, prev: Option<nat>): (r: Option<nat>)
    ensures r == prev || r.Some?
    ensures r != prev && target == RawImage ==> r.value < cfg.textureCount
    ensures r != prev && target != RawImage ==> r.value < cfg.spriteCount
  {
    // The sprite branch is taken for SpriteRenderer, UIImage and Auto.
    if target != RawImage then
      if cfg.spriteCount == 0 then prev
      else if cfg.hasSpriteRenderer || cfg.hasUIImage then Some(Clamp(index, 0, cfg.spriteCount - 1) as nat)
      else prev
    else if !cfg.hasRawImage || cfg.textureCount == 0 then prev
    else Some(Clamp(index, 0, cfg.textureCount - 1) as nat)
  }

  /** `ApplyIndex`: resolve the target again, then hand it the frame. */
  function ApplyIndex(cfg: Config, s: PlayerState, index: int): (r: PlayerState)
    ensures r.resolved == ResolveTarget(cfg)
    ensures r.(resolved := s.resolved, shown := s.shown) == s
  {
    var t := ResolveTarget(cfg);
    s.(resolved := t, shown := Displayed(cfg, t, index, s.shown))
  }

  /** A `SetIndex` call that changes nothing: same index, not forced, redundant applies skipped. */
  predicate Redundant(cfg: Config, s: PlayerState, index: int, forceApply: bool)
  {
    s.index == ClampIndex(cfg, index) && !forceApply && cfg.skipRedundantApply
  }

  function SetIndex(cfg: Config, s: PlayerState, index: int, forceApply: bool): (r: PlayerState)
    ensures r.index == ClampIndex(cfg, index)
    ensures Redundant(cfg, s, index, forceApply) ==> r == s
    ensures !Redundant(cfg, s, index, forceApply) ==> r.events == s.events + [FrameChanged(r.index)]
    ensures !Redundant(cfg, s, index, forceApply) ==> r.resolved == ResolveTarget(cfg)
    ensures r.playing == s.playing && r.direction == s.direction && r.accumulator == s.accumulator
  {
    var i := ClampIndex(cfg, index);
    if s.index == i && !forceApply && cfg.skipRedundantApply then s
    else
      var s1 := ApplyIndex(cfg, s.(index := i), i);
      s1.(events := s1.events + [FrameChanged(i)])
  }

  function Play(cfg: Config, s: PlayerState): (r: PlayerState)
    ensures FrameCount(cfg) == 0 ==> r == s
    ensures FrameCount(cfg) > 0 ==> r.playing && r.(playing := s.playing) == s
  {
    if FrameCount(cfg) == 0 then s else s.(playing := true)
  }

  function Pause(s: PlayerState): (r: PlayerState)
    ensures !r.playing && r.(playing := s.playing) == s
  {
    s.(playing := false)
  }

  function Stop(cfg: Config, s: PlayerState, rewind: bool): (r: PlayerState)
    ensures !r.playing
    ensures !rewind ==> r == s.(playing := false)
    ensures rewind ==> r.index == ClampIndex(cfg, cfg.startFrame)
    ensures rewind ==> r.events == s.events + [FrameChanged(r.index)]
    ensures r.direction == s.direction && r.accumulator == s.accumulator
  {
    var s1 := s.(playing := false);
    if rewind then SetIndex(cfg, s1, cfg.startFrame, true) else s1
  }

  /** One frame step under the playback mode's end-of-sequence policy. */
  function Advance(cfg: Config, s: PlayerState): (r: PlayerState)
    ensures r.accumulator == s.accumulator
    ensures FrameCount(cfg) == 0 ==> r == s
    ensures FrameCount(cfg) > 0 ==> InRange(cfg, r.index)
    ensures cfg.playbackMode != PingPong ==> r.direction == s.direction
    ensures cfg.playbackMode != Once ==> r.playing == s.playing
  {
    var count := FrameCount(cfg);
    if count == 0 then s
    else
      var next := s.index + s.direction;
      match cfg.playbackMode
      case Once =>
        if next >= count then
          var s1 := SetIndex(cfg, s, count - 1, false);
          s1.(playing := false, events := s1.events + [Completed])
        else
          SetIndex(cfg, s, next, false)
      case Loop =>
        if next >= count then
          SetIndex(cfg, s.(events := s.events + [Looped]), 0, false)
        else
          SetIndex(cfg, s, next, false)
      case PingPong =>
        if next >= count then
          SetIndex(cfg, s.(direction := -1, events := s.events + [Looped]), Clamp(count - 2, 0, count - 1), false)
        else if next < 0 then
          SetIndex(cfg, s.(direction := 1, events := s.events + [Looped]), Clamp(1, 0, count - 1), false)
        else
          SetIndex(cfg, s, next, false)
  }

  /** The C# `%` operator: the remainder truncated toward zero, so its sign is the dividend's. */
  function TruncRem(a: int, b: int): (r: int)
    requires b > 0
    ensures -b < r < b
    ensures a >= 0 ==> r == a % b
    ensures a < 0 ==> r <= 0
  {
    if a >= 0 then a % b else -((-a) % b)
  }

  /** `Step(delta)`: wrap circularly in Loop mode, clamp to the frame range otherwise. */
  function Step(cfg: Config, s: PlayerState, delta: int): (r: PlayerState)
    ensures FrameCount(cfg) == 0 ==> r == s
    ensures FrameCount(cfg) > 0 && cfg.playbackMode == Loop ==> r.index == (s.index + delta) % FrameCount(cfg)
    ensures FrameCount(cfg) > 0 && cfg.playbackMode != Loop ==>
      r.index == Clamp(s.index + delta, 0, FrameCount(cfg) - 1)
    ensures r.playing == s.playing && r.direction == s.direction && r.accumulator == s.accumulator
  {
    var count := FrameCount(cfg);
    if count == 0 then s
    else
      var idx := s.index + delta;
      var idx' := if cfg.playbackMode == Loop then TruncRem(TruncRem(idx, count) + count, count)
                  else Clamp(idx, 0, count - 1);
      WrapIsEuclidean(idx, count);
      SetIndex(cfg, s, idx', false)
  }

  /** The double remainder in `Step` is the Euclidean remainder, for dividends of either sign. */
  lemma WrapIsEuclidean(a: int, n: int)
    requires n > 0
    ensures TruncRem(TruncRem(a, n) + n, n) == a % n
  {
    if a >= 0 {
      DivModUnique(a % n + n, n, 1, a % n);
    } else {
      var m := (-a) % n;
      assert -a == ((-a) / n) * n + m;
      if m == 0 {
        DivModUnique(n, n, 1, 0);
        DivModUnique(a, n, -((-a) / n), 0);
      } else {
        DivModUnique(n - m, n, 0, n - m);
        DivModUnique(a, n, -((-a) / n) - 1, n - m);
      }
    }
  }

  function NextFrame(cfg: Config, s: PlayerState): (r: PlayerState)
    ensures FrameCount(cfg) == 0 ==> r == s
    ensures FrameCount(cfg) > 0 ==> InRange(cfg, r.index)
    ensures r.playing == s.playing && r.direction == s.direction && r.accumulator == s.accumulator
  {
    Step(cfg, s, 1)
  }

  function PrevFrame(cfg: Config, s: PlayerState): (r: PlayerState)
    ensures FrameCount(cfg) == 0 ==> r == s
    ensures FrameCount(cfg) > 0 ==> InRange(cfg, r.index)
    ensures r.playing == s.playing && r.direction == s.direction && r.accumulator == s.accumulator
  {
    Step(cfg, s, -1)
  }

  /** `n` Advance steps in a row. */
  function AdvanceN(cfg: Config, s: PlayerState, n: nat): (r: PlayerState)
    ensures r.accumulator == s.accumulator
    decreases n
  {
    if n == 0 then s else AdvanceN(cfg, Advance(cfg, s), n - 1)
  }

  /** The catch-up loop: while a whole frame duration has accumulated, spend it on one Advance. */
  function CatchUp(cfg: Config, s: PlayerState): (r: PlayerState)
    ensures r.accumulator < cfg.frameDuration
    decreases s.accumulator
  {
    if s.accumulator >= cfg.frameDuration then
      CatchUp(cfg, Advance(cfg, s.(accumulator := s.accumulator - cfg.frameDuration)))
    else
      s
  }

  /** One engine tick of `dt` time units. */
  function Update(cfg: Config, s: PlayerState, dt: nat): (r: PlayerState)
    ensures !s.playing || FrameCount(cfg) <= 1 ==> r == s
  {
    if !s.playing || FrameCount(cfg) <= 1 then s
    else CatchUp(cfg, s.(accumulator := s.accumulator + dt))
  }

  /** Engine ticks one after another. */
  function UpdateAll(cfg: Config, s: PlayerState, dts: seq<nat>): PlayerState
    decreases |dts|
  {
    if dts == [] then s else UpdateAll(cfg, Update(cfg, s, dts[0]), dts[1..])
  }

  /**
   * `Awake`: resolve targets, place the index at the clamped start frame
   * without notifying, apply it forcibly, and start playing if asked to and
   * there are frames.
   */
  function Awake(cfg: Config, s: PlayerState): (r: PlayerState)
    ensures r.index == ClampIndex(cfg, cfg.startFrame)
    ensures r.playing == (s.playing || (cfg.playOnAwake && FrameCount(cfg) > 0))
    ensures r.events == s.events && r.direction == s.direction && r.accumulator == s.accumulator
    ensures r.resolved == ResolveTarget(cfg)
  {
    var s1 := s.(resolved := ResolveTarget(cfg), index := ClampIndex(cfg, cfg.startFrame));
    var s2 := ApplyIndex(cfg, s1, s1.index);
    if cfg.playOnAwake && FrameCount(cfg) > 0 then Play(cfg, s2) else s2
  }
}
