/**
 * The sequence frame player as an object whose methods update its fields in
 * place. Each method is proved to take the state to what the corresponding
 * function of SequenceFrameSpec gives, so the properties proved in
 * SequenceFrameProperties hold of the object.
 */
module SequenceFrames {
  import opened Wrappers
  import opened Mathf
  import opened SequenceFrameSpec

  class SequenceFramePlayer {
    const cfg: Config
    var currentIndex: int
    var isPlaying: bool
    var direction: int
    var accumulator: nat
    var resolvedTarget: TargetType
    /** The position in the active frame list the display surface shows, if it was given one. */
    var shown: Option<nat>
    /** The notifications fired so far, oldest first. */
    var events: seq<Event>

    function State(): PlayerState
      reads this
    {
      PlayerState(currentIndex, isPlaying, direction, accumulator, resolvedTarget, shown, events)
    }

    ghost predicate Valid()
      reads this
    {
      InRange(cfg, currentIndex)
    }

    constructor (cfg: Config)
      ensures this.cfg == cfg && State() == Initial() && Valid()
    {
      this.cfg := cfg;
      currentIndex := 0;
      isPlaying := false;
      direction := 1;
      accumulator := 0;
      resolvedTarget := Auto;
      shown := None;
      events := [];
    }

    method Awake()
      modifies this
      ensures State() == SequenceFrameSpec.Awake(cfg, old(State())) && Valid()
    {
      AutoResolveTargets();
      currentIndex := Clamp(cfg.startFrame, 0, Max(0, FrameCount(cfg) - 1));
      ApplyIndex(currentIndex, true);
      if cfg.playOnAwake && FrameCount(cfg) > 0 {
        Play();
      }
    }

    method Play()
      modifies this
      ensures State() == SequenceFrameSpec.Play(cfg, old(State()))
    {
      if FrameCount(cfg) == 0 {
        return;
      }
      isPlaying := true;
    }

    method Pause()
      modifies this
      ensures State() == SequenceFrameSpec.Pause(old(State()))
    {
      isPlaying := false;
    }

    method Stop(rewind: bool)
      modifies this
      ensures State() == SequenceFrameSpec.Stop(cfg, old(State()), rewind)
      ensures old(Valid()) ==> Valid()
    {
      isPlaying := false;
      if rewind {
        SetIndex(cfg.startFrame, true);
      }
    }

    method NextFrame()
      modifies this
      ensures State() == SequenceFrameSpec.NextFrame(cfg, old(State()))
      ensures old(Valid()) ==> Valid()
    {
      Step(1);
    }

    method PrevFrame()
      modifies this
      ensures State() == SequenceFrameSpec.PrevFrame(cfg, old(State()))
      ensures old(Valid()) ==> Valid()
    {
      Step(-1);
    }

    method SetIndex(index: int, forceApply: bool)
      modifies this
      ensures State() == SequenceFrameSpec.SetIndex(cfg, old(State()), index, forceApply)
      ensures Valid()
    {
      var i := Clamp(index, 0, Max(0, FrameCount(cfg) - 1));
      if currentIndex == i && !forceApply && cfg.skipRedundantApply {
        return;
      }
      currentIndex := i;
      ApplyIndex(currentIndex, forceApply);
      events := events + [FrameChanged(currentIndex)];
    }

    /** One engine tick of `dt` time units: the catch-up loop. */
    method Update(dt: nat)
      modifies this
      ensures State() == SequenceFrameSpec.Update(cfg, old(State()), dt)
      ensures old(Valid()) ==> Valid()
    {
      ghost var s0 := State();
      if !isPlaying || FrameCount(cfg) <= 1 {
        return;
      }
      accumulator := accumulator + dt;
      while accumulator >= cfg.frameDuration
        invariant CatchUp(cfg, State()) == SequenceFrameSpec.Update(cfg, s0, dt)
        invariant InRange(cfg, s0.index) ==> Valid()
        decreases accumulator
      {
        accumulator := accumulator - cfg.frameDuration;
        Advance();
      }
    }

    method AutoResolveTargets()
      modifies this
      ensures State() == old(State()).(resolved := ResolveTarget(cfg))
    {
      if cfg.targetType == Auto {
        if cfg.hasSpriteRenderer {
          resolvedTarget := SpriteRenderer;
        } else if cfg.hasUIImage {
          resolvedTarget := UIImage;
        } else if cfg.hasRawImage {
          resolvedTarget := RawImage;
        } else {
          resolvedTarget := SpriteRenderer;
        }
      } else {
        resolvedTarget := cfg.targetType;
      }
    }

    method Advance()
      modifies this
      ensures State() == SequenceFrameSpec.Advance(cfg, old(State()))
      ensures old(Valid()) ==> Valid()
    {
      var count := FrameCount(cfg);
      if count == 0 {
        return;
      }
      var next := currentIndex + direction;
      match cfg.playbackMode {
        case Once =>
          if next >= count {
            next := count - 1;
            SetIndex(next, false);
            isPlaying := false;
            events := events + [Completed];
            return;
          }
        case Loop =>
          if next >= count {
            next := 0;
            events := events + [Looped];
          }
        case PingPong =>
          if next >= count {
            direction := -1;
            next := Clamp(count - 2, 0, count - 1);
            events := events + [Looped];
          } else if next < 0 {
            direction := 1;
            next := Clamp(1, 0, count - 1);
            events := events + [Looped];
          }
      }
      SetIndex(next, false);
    }

    method Step(delta: int)
      modifies this
      ensures State() == SequenceFrameSpec.Step(cfg, old(State()), delta)
      ensures old(Valid()) ==> Valid()
    {
      var count := FrameCount(cfg);
      if count == 0 {
        return;
      }
      var idx := currentIndex + delta;
      if cfg.playbackMode == Loop {
        idx := TruncRem(TruncRem(idx, count) + count, count);
      } else {
        idx := Clamp(idx, 0, count - 1);
      }
      SetIndex(idx, false);
    }

    /** Resolve the target, then give it the frame at `index` (rendering itself is not modelled). */
    method ApplyIndex(index: int, force: bool)
      modifies this
      ensures State() == SequenceFrameSpec.ApplyIndex(cfg, old(State()), index)
    {
      AutoResolveTargets();
      if resolvedTarget == SpriteRenderer || resolvedTarget == UIImage || resolvedTarget == Auto {
        if cfg.spriteCount == 0 {
          return;
        }
        var sp := Clamp(index, 0, cfg.spriteCount - 1);
        if cfg.hasSpriteRenderer || cfg.hasUIImage {
          shown := Some(sp as nat);
        }
      } else if resolvedTarget == RawImage {
        if !cfg.hasRawImage || cfg.textureCount == 0 {
          return;
        }
        shown := Some(Clamp(index, 0, cfg.textureCount - 1) as nat);
      }
    }
  }
}
