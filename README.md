# Desktop pet core, modelled in Dafny

This project models the tick-driven logic of a Unity desktop pet, in five parts:

- **Sequence frame player.** It shows one frame of a sprite or texture list. While playing, it advances one frame per elapsed frame duration. At the end of the list it follows one of three policies: Once, Loop or PingPong. It notifies listeners of frame changes, loops and completion.
- **Object pool.** It keeps a first-in-first-out queue of idle objects for each name. It also caches, per name, the container those objects are parented under, with all containers under one root.
- **Self-returning lifetime component.** It hands its own object back to the pool once the object has been enabled for longer than its lifetime.
- **Click-through controller.** It periodically decides whether the pet window should take mouse clicks. It tells the window only when that decision changes.
- **Window-style helper.** It computes the window's style words: a borderless visible popup marked always-on-top, and the extended-style bit that lets clicks pass through.

Each imperative component is a class whose methods update its fields in place. Each method's `ensures` ties the new state to a specification function of the old state, for example `State() == SequenceFrameSpec.Advance(cfg, old(State()))`. The properties are proved as lemmas about those functions.

The files are:

- `sequence_frame_spec.dfy`, `sequence_frame_properties.dfy` and `sequence_frame_player.dfy`: the player's specification functions, its properties, and the class.
- `scenes.dfy`: the engine's object registry, holding each object's name, active flag and parent, with a fresh-id allocator.
- `object_pool_spec.dfy`, `object_pool_properties.dfy` and `object_pool.dfy`: the pool's specification, its properties, and the class.
- `push_self_base.dfy`: the lifetime component.
- `window_utils.dfy`: the style words and the window object.
- `desktop_mode_manager.dfy`: the controller.
- `mathf.dfy` and `wrappers.dfy`: helpers, namely `Mathf.Clamp`/`Max` on integers, some division facts, and `Option`.

Modelling conventions:

- **Time.** Time is counted in whole units. The frame duration is a positive number of units, standing for `1 / fps`.
- **Inputs.** The engine's per-tick inputs become parameters: elapsed time, whether the pointer is over the user interface, and whether the raycast hits.
- **Notifications.** Listener notifications are recorded, in order, in an event trace. A listener runs no code of its own here, so a listener that calls back into the player (for example `Play` or `Stop` from inside `onCompleted`) is not modelled.
- **Pool's absence.** When the pool instance is absent, the component is given a `null` pool.

Two behaviours of the code worth knowing:

- **Once mode can complete several times in one tick.** `onCompleted` is declared as the event that fires when Once mode finishes (SequenceFramePlayer.cs:60). The catch-up loop in `Update` (lines 144-148) does not re-check `isPlaying`, though. So a tick that covers `k` pending frame durations at the last frame fires `onCompleted` `k` times. When `skipRedundantApply` is off (line 53), each of them is preceded by a frame notification for the last frame. `OnceRepeatsCompleted` and `OnceTickCompletions` state this.
- **The window is told about changes only.** A run of identical click decisions calls `SetClickable` once if the decision differs from the cached one, and not at all otherwise (DesktopModeManager.cs:65-69). The cache starts as clickable (line 14), so a first decision of clickable makes no call. `SteadyDecisionsCallOnce` and `FirstDecision` state this.

## Model

| member | source | states |
|---|---|---|
| SequenceFrameSpec.UsingSprites | Assets/Scripts/UI/UX/SequenceFramePlayer.cs:153 | the sprite list is used exactly unless the configured target is RawImage and there are no sprite frames |
| SequenceFrameSpec.FrameCount | Assets/Scripts/UI/UX/SequenceFramePlayer.cs:75 | the sprite count when there are sprites; with none, the texture count for a RawImage target and 0 for every other target |
| SequenceFrameSpec.ResolveTarget | Assets/Scripts/UI/UX/SequenceFramePlayer.cs:156-173 | never Auto; a fixed target is kept; Auto picks SpriteRenderer if present, else UIImage, else RawImage, else SpriteRenderer, each case stated as an if-and-only-if |
| Mathf.Clamp | Assets/Scripts/UI/UX/SequenceFramePlayer.cs:105 | `Mathf.Clamp` on integers: within the bounds when they are ordered, the value itself when it is within them, the lower bound below, the upper bound above |
| Mathf.Max | Assets/Scripts/UI/UX/SequenceFramePlayer.cs:105 | `Mathf.Max` on integers: at least both arguments, and equal to one of them |
| SequenceFrameSpec.ClampIndex | Assets/Scripts/UI/UX/SequenceFramePlayer.cs:105 | the result is a valid position (0 with no frames), equals an already valid index, is 0 for a negative one and the last frame for an overrun |
| SequenceFrameSpec.Displayed | Assets/Scripts/UI/UX/SequenceFramePlayer.cs:242-271 | the surface either keeps what it showed or gets a valid position in the list of the resolved kind |
| SequenceFrameSpec.ApplyIndex | Assets/Scripts/UI/UX/SequenceFramePlayer.cs:238-272 | resolves the target again; nothing but the resolved target and the shown frame changes |
| SequenceFrameSpec.Initial | Assets/Scripts/UI/UX/SequenceFramePlayer.cs:64-70 | the field defaults: an index valid for every configuration, stopped, going forward, nothing accumulated, shown or notified |
| SequenceFrameSpec.SetIndex | Assets/Scripts/UI/UX/SequenceFramePlayer.cs:103-110 | the index becomes the clamped index; a redundant call (same index, not forced, skipping on) changes nothing; any other call appends exactly one frame-changed notification carrying the new index; playing, direction and accumulator are untouched |
| SequenceFrameSpec.Play | Assets/Scripts/UI/UX/SequenceFramePlayer.cs:83-87 | no change with zero frames; otherwise only the playing flag changes, to true |
| SequenceFrameSpec.Pause | Assets/Scripts/UI/UX/SequenceFramePlayer.cs:89 | only the playing flag changes, to false |
| SequenceFrameSpec.Stop | Assets/Scripts/UI/UX/SequenceFramePlayer.cs:91-95 | not playing afterwards; without rewind nothing else changes; with rewind the index is the clamped start frame and a frame-changed notification is fired even if the index did not move |
| SequenceFrameSpec.Advance | Assets/Scripts/UI/UX/SequenceFramePlayer.cs:175-220 | no change with zero frames; the index stays valid; the accumulator is untouched; only PingPong changes the direction and only Once changes the playing flag |
| SequenceFrameSpec.TruncRem | Assets/Scripts/UI/UX/SequenceFramePlayer.cs:229 | C#'s `%`: within (-b, b), the Euclidean remainder for a non-negative dividend, non-positive for a negative one |
| SequenceFrameSpec.WrapIsEuclidean | Assets/Scripts/UI/UX/SequenceFramePlayer.cs:229 | `(idx % count + count) % count` with C#'s `%` is the mathematical remainder for indices of either sign |
| SequenceFrameSpec.Step | Assets/Scripts/UI/UX/SequenceFramePlayer.cs:222-236 | no change with zero frames; in Loop mode the index becomes `(index + delta) mod count`, otherwise the clamped `index + delta`; playing, direction and accumulator are untouched |
| SequenceFrameSpec.NextFrame | Assets/Scripts/UI/UX/SequenceFramePlayer.cs:97 | no change with zero frames; otherwise the index stays valid; playing, direction and accumulator are untouched |
| SequenceFrameSpec.PrevFrame | Assets/Scripts/UI/UX/SequenceFramePlayer.cs:98 | no change with zero frames; otherwise the index stays valid; playing, direction and accumulator are untouched |
| SequenceFrameSpec.AdvanceN | Assets/Scripts/UI/UX/SequenceFramePlayer.cs:144-148 | repeated Advance steps leave the accumulator alone |
| SequenceFrameSpec.CatchUp | Assets/Scripts/UI/UX/SequenceFramePlayer.cs:144-148 | the catch-up loop always ends with less than one frame duration accumulated |
| SequenceFrameSpec.Update | Assets/Scripts/UI/UX/SequenceFramePlayer.cs:138-149 | a tick while not playing, or with at most one frame, changes nothing |
| SequenceFrameSpec.Awake | Assets/Scripts/UI/UX/SequenceFramePlayer.cs:123-136 | the index is the clamped start frame, the target is resolved, no notification fires, and afterwards it is playing exactly when it already was or play-on-awake is set and there are frames |
| SequenceFrameProperties.AdvanceIgnoresAccumulator | Assets/Scripts/UI/UX/SequenceFramePlayer.cs:175-220 | Advance neither reads nor writes the accumulator |
| SequenceFrameProperties.CatchUpSteps | Assets/Scripts/UI/UX/SequenceFramePlayer.cs:144-148 | the catch-up loop on accumulator `a` is exactly `a / duration` Advance steps, leaving `a % duration` |
| SequenceFrameProperties.UpdateSteps | Assets/Scripts/UI/UX/SequenceFramePlayer.cs:140-148 | while playing more than one frame, a tick of `dt` is exactly `(a + dt) / duration` Advance steps and leaves `(a + dt) % duration`, below the duration |
| SequenceFrameProperties.OperationsKeepIndexInRange | Assets/Scripts/UI/UX/SequenceFramePlayer.cs:83-236 | SetIndex, Play, Pause, Stop, Step, Advance, Update and Awake all keep the index a valid position (0 with no frames) |
| SequenceFrameProperties.OnceOverrun | Assets/Scripts/UI/UX/SequenceFramePlayer.cs:184-192 | Once mode, overrunning the end: the index is the last frame, playing stops, and completion fires after the frame notification (if any) |
| SequenceFrameProperties.OnceForward | Assets/Scripts/UI/UX/SequenceFramePlayer.cs:184-219 | Once mode before the end: one step forward with one frame notification, the playing flag unchanged |
| SequenceFrameProperties.OnceRepeatsCompleted | Assets/Scripts/UI/UX/SequenceFramePlayer.cs:184-192 | from the last frame in Once mode, for either setting of `skipRedundantApply`: `k` steps keep the index at the last frame and leave playing off. They append `k` blocks to the trace, each block a completion notification, preceded by a frame notification for the last frame when redundant applies are not skipped |
| SequenceFrameProperties.OnceTickCompletions | Assets/Scripts/UI/UX/SequenceFramePlayer.cs:140-148 | a single tick at the last frame in Once mode appends one such block per whole frame duration accumulated; the index stays the last frame, and playing stops if any duration was spent |
| SequenceFrameProperties.LoopAdvance | Assets/Scripts/UI/UX/SequenceFramePlayer.cs:195-219 | Loop mode going forward: from the last frame to 0 with the loop notification before the frame notification; otherwise one step forward |
| SequenceFrameProperties.LoopPrefix | Assets/Scripts/UI/UX/SequenceFramePlayer.cs:195-219 | from frame 0, `k < count` Loop steps reach frame `k`, notifying frames 1 to `k` in order |
| SequenceFrameProperties.LoopCycle | Assets/Scripts/UI/UX/SequenceFramePlayer.cs:195-219 | `count` Loop steps from frame 0 come back to 0, visiting 1 to count-1 in order, with exactly one loop notification |
| SequenceFrameProperties.PingPongAdvance | Assets/Scripts/UI/UX/SequenceFramePlayer.cs:203-219 | PingPong: overrunning the top turns back to count-2 with direction -1, underrunning 0 turns to 1 with direction +1, each turn notifying a loop first; otherwise one step in the current direction |
| SequenceFrameProperties.PingPongStep | Assets/Scripts/UI/UX/SequenceFramePlayer.cs:203-216 | the reference walk 0, 1, ..., n-1, n-2, ..., 1, 0, 1, ... moves by the same bounce rule |
| SequenceFrameProperties.PingPongWalk | Assets/Scripts/UI/UX/SequenceFramePlayer.cs:203-219 | from frame 0 going forward, `t` PingPong steps give the frame and direction of the reference walk at `t` |
| SequenceFrameProperties.LoopNextPrev | Assets/Scripts/UI/UX/SequenceFramePlayer.cs:97-98 | Loop mode: NextFrame wraps the last frame to 0 and PrevFrame wraps 0 to the last frame; otherwise ±1 |
| SequenceFrameProperties.ClampedNextPrev | Assets/Scripts/UI/UX/SequenceFramePlayer.cs:232-235 | Once and PingPong: NextFrame and PrevFrame stop at the ends |
| SequenceFrameProperties.NoFramesNoStep | Assets/Scripts/UI/UX/SequenceFramePlayer.cs:224-225 | with no frames, NextFrame and PrevFrame change nothing |
| SequenceFrameProperties.RedundantIffNoEffect | Assets/Scripts/UI/UX/SequenceFramePlayer.cs:103-110 | the early return at line 106 (`Redundant`: same clamped index, not forced, skipping on) is exactly the case in which SetIndex leaves the player as it was; a redundant call finds the index already valid |
| SequenceFrameProperties.ShownFollowsIndex | Assets/Scripts/UI/UX/SequenceFramePlayer.cs:238-272 | when the counted list is the one the resolved surface takes, a non-redundant SetIndex makes the surface show exactly the new index |
| SequenceFrameProperties.AutoRawImageCountsSprites | Assets/Scripts/UI/UX/SequenceFramePlayer.cs:153 | an Auto player resolving to a raw image with only texture frames counts no frames, so Play leaves it stopped |
| SequenceFrameProperties.TenFpsLoopScenario | Assets/Scripts/UI/UX/SequenceFramePlayer.cs:138-149 | a worked run: three sprites in Loop mode, a frame every two units, six ticks of one unit end at frame 0 after notifications 1, 2, loop, 0 |
| SequenceFrames.SequenceFramePlayer.constructor | Assets/Scripts/UI/UX/SequenceFramePlayer.cs:64-70 | the field initialisers: index 0, not playing, direction 1, nothing accumulated |
| SequenceFrames.SequenceFramePlayer.Awake | Assets/Scripts/UI/UX/SequenceFramePlayer.cs:123-136 | the new state is `Awake` of the old one, index valid |
| SequenceFrames.SequenceFramePlayer.Play | Assets/Scripts/UI/UX/SequenceFramePlayer.cs:83-87 | the new state is `Play` of the old one |
| SequenceFrames.SequenceFramePlayer.Pause | Assets/Scripts/UI/UX/SequenceFramePlayer.cs:89 | the new state is `Pause` of the old one |
| SequenceFrames.SequenceFramePlayer.Stop | Assets/Scripts/UI/UX/SequenceFramePlayer.cs:91-95 | the new state is `Stop` of the old one; the index invariant is kept |
| SequenceFrames.SequenceFramePlayer.NextFrame | Assets/Scripts/UI/UX/SequenceFramePlayer.cs:97 | the new state is `Step` by +1 of the old one |
| SequenceFrames.SequenceFramePlayer.PrevFrame | Assets/Scripts/UI/UX/SequenceFramePlayer.cs:98 | the new state is `Step` by -1 of the old one |
| SequenceFrames.SequenceFramePlayer.SetIndex | Assets/Scripts/UI/UX/SequenceFramePlayer.cs:103-110 | the new state is `SetIndex` of the old one, index valid |
| SequenceFrames.SequenceFramePlayer.Update | Assets/Scripts/UI/UX/SequenceFramePlayer.cs:138-149 | the catch-up `while` loop ends in `Update` of the old state; loop invariant: finishing the catch-up from the current state gives that result |
| SequenceFrames.SequenceFramePlayer.AutoResolveTargets | Assets/Scripts/UI/UX/SequenceFramePlayer.cs:156-173 | only the resolved target changes, to `ResolveTarget` |
| SequenceFrames.SequenceFramePlayer.Advance | Assets/Scripts/UI/UX/SequenceFramePlayer.cs:175-220 | the new state is `Advance` of the old one; the index invariant is kept |
| SequenceFrames.SequenceFramePlayer.Step | Assets/Scripts/UI/UX/SequenceFramePlayer.cs:222-236 | the new state is `Step` of the old one; the index invariant is kept |
| SequenceFrames.SequenceFramePlayer.ApplyIndex | Assets/Scripts/UI/UX/SequenceFramePlayer.cs:238-272 | the new state is `ApplyIndex` of the old one |
| Scenes.Spawn | Assets/Scripts/Framework/ObjectPool/ObjectPool.cs:32 | a new object gets a number never used before and is added as a top-level object; nothing else changes |
| Scenes.WithName | Assets/Scripts/Framework/ObjectPool/ObjectPool.cs:35 | that object's name becomes the given one, no number is handed out, and the registry stays well formed |
| Scenes.WithActive | Assets/Scripts/Framework/ObjectPool/ObjectPool.cs:42 | that object's active flag becomes the given one, no number is handed out, and the registry stays well formed |
| Scenes.WithParent | Assets/Scripts/Framework/ObjectPool/ObjectPool.cs:104 | that object's parent becomes the given one, no number is handed out, and the registry stays well formed |
| Scenes.WithNameTouches | Assets/Scripts/Framework/ObjectPool/ObjectPool.cs:35 | a rename leaves every other object exactly as it was, and the renamed object stays in the registry |
| Scenes.WithActiveKeeps | Assets/Scripts/Framework/ObjectPool/ObjectPool.cs:42 | setting the active flag leaves every other object exactly as it was, and the object keeps its name |
| Scenes.WithParentKeeps | Assets/Scripts/Framework/ObjectPool/ObjectPool.cs:104 | reparenting leaves every other object exactly as it was, and the object keeps its name |
| Scenes.Scene.NewGameObject | Assets/Scripts/Framework/ObjectPool/ObjectPool.cs:95 | `new GameObject(n)` is `Spawn` of an active object named `n` |
| Scenes.Scene.Instantiate | Assets/Scripts/Framework/ObjectPool/ObjectPool.cs:32 | `Instantiate(prefab)` is `Spawn` of a copy named after the prototype plus "(Clone)", with the prototype's active flag |
| Scenes.Scene.SetName | Assets/Scripts/Framework/ObjectPool/ObjectPool.cs:35 | the new registry is `WithName` of the old one |
| Scenes.Scene.SetActive | Assets/Scripts/Framework/ObjectPool/ObjectPool.cs:42 | the new registry is `WithActive` of the old one |
| Scenes.Scene.SetParent | Assets/Scripts/Framework/ObjectPool/ObjectPool.cs:104 | the new registry is `WithParent` of the old one |
| ObjectPoolSpec.EnsureRoot | Assets/Scripts/Framework/ObjectPool/ObjectPool.cs:89 | afterwards a root exists; an existing root is kept and nothing changes; otherwise a fresh object becomes the root; no existing object changes |
| ObjectPoolSpec.EnsureContainer | Assets/Scripts/Framework/ObjectPool/ObjectPool.cs:92-101 | afterwards the key has a cached container; a cached one is reused and nothing changes; otherwise a fresh object, parented under the root, is added to the cache under that key only |
| ObjectPoolSpec.SetObjectParent | Assets/Scripts/Framework/ObjectPool/ObjectPool.cs:86-105 | the object's parent becomes its key's container; queues stay; a cached container is reused, the cache unchanged; with a root and a cached container nothing is created; no other object changes |
| ObjectPoolSpec.SetObjectParentKeepsCache | Assets/Scripts/Framework/ObjectPool/ObjectPool.cs:92-100 | parenting never drops or redirects a cached container |
| ObjectPoolSpec.Enqueue | Assets/Scripts/Framework/ObjectPool/ObjectPool.cs:54-66 | the object joins the back of its name's queue (an absent queue reads as empty) and is deactivated |
| ObjectPoolSpec.Push | Assets/Scripts/Framework/ObjectPool/ObjectPool.cs:49-70 | everything the pool refers to still exists |
| ObjectPoolSpec.Dequeue | Assets/Scripts/Framework/ObjectPool/ObjectPool.cs:25-27 | returns the front of the queue, leaves the rest of it in order, and activates the object |
| ObjectPoolSpec.Allocate | Assets/Scripts/Framework/ObjectPool/ObjectPool.cs:29-39 | returns an object that did not exist before |
| ObjectPoolSpec.Get | Assets/Scripts/Framework/ObjectPool/ObjectPool.cs:18-44 | returns an existing object and keeps the pool consistent |
| ObjectPoolSpec.Clear | Assets/Scripts/Framework/ObjectPool/ObjectPool.cs:75-81 | keeps the pool consistent |
| ObjectPoolSpec.PushNull | Assets/Scripts/Framework/ObjectPool/ObjectPool.cs:51 | pushing a null object changes nothing |
| ObjectPoolSpec.PushEffect | Assets/Scripts/Framework/ObjectPool/ObjectPool.cs:49-70 | the object joins the back of its name's queue and no other queue changes; it ends inactive, keeps its name, and sits under its name's container; a cached container is reused and no cached one is lost; with a root and a cached container nothing is created; every other object is unchanged |
| ObjectPoolSpec.GetBranches | Assets/Scripts/Framework/ObjectPool/ObjectPool.cs:25 | a request takes from the queue exactly when the queue for the prototype's name is non-empty, and allocates otherwise |
| ObjectPoolSpec.DequeueEffect | Assets/Scripts/Framework/ObjectPool/ObjectPool.cs:25-42 | taking from the queue creates nothing and changes nothing but the taken object's active flag, to true |
| ObjectPoolSpec.AllocateEffect | Assets/Scripts/Framework/ObjectPool/ObjectPool.cs:29-42 | the new object is named exactly after the prototype (no "(Clone)"), active, under its name's container; queues stay; no cached container is lost; every existing object is left exactly as it was |
| ObjectPoolSpec.ClearEffect | Assets/Scripts/Framework/ObjectPool/ObjectPool.cs:75-78 | the queues and the container cache are emptied; the root and every object stay |
| ObjectPools.ObjectPool.constructor | Assets/Scripts/Framework/ObjectPool/ObjectPool.cs:7-13 | an empty pool: no queues, no cached containers, no root |
| ObjectPools.ObjectPool.GetObject | Assets/Scripts/Framework/ObjectPool/ObjectPool.cs:18-44 | the new pool and scene, and the returned object, are `Get` of the old ones |
| ObjectPools.ObjectPool.PushObject | Assets/Scripts/Framework/ObjectPool/ObjectPool.cs:49-70 | the new pool and scene are `Push` of the old ones |
| ObjectPools.ObjectPool.Clear | Assets/Scripts/Framework/ObjectPool/ObjectPool.cs:75-81 | the new pool is `Clear` of the old one |
| ObjectPools.ObjectPool.SetObjectParent | Assets/Scripts/Framework/ObjectPool/ObjectPool.cs:86-105 | the new pool and scene are `SetObjectParent` of the old ones |
| ObjectPoolProperties.PushKeepsNames | Assets/Scripts/Framework/ObjectPool/ObjectPool.cs:49-70 | a push renames and destroys nothing |
| ObjectPoolProperties.GetKeepsNames | Assets/Scripts/Framework/ObjectPool/ObjectPool.cs:18-44 | a request renames no existing object and destroys nothing |
| ObjectPoolProperties.PushAll | Assets/Scripts/Framework/ObjectPool/ObjectPool.cs:49-70 | a run of pushes keeps the pool consistent and renames nothing |
| ObjectPoolProperties.GetAll | Assets/Scripts/Framework/ObjectPool/ObjectPool.cs:18-44 | a run of `n` requests yields `n` objects, keeps the pool consistent, and renames nothing |
| ObjectPoolProperties.PushThenGet | Assets/Scripts/Framework/ObjectPool/ObjectPool.cs:25-63 | round trip: an object pushed into its name's empty queue is what the next request for that name returns, active, with the queue empty again and nothing allocated |
| ObjectPoolProperties.PushOne | Assets/Scripts/Framework/ObjectPool/ObjectPool.cs:63 | a push appends the object to its own name's queue |
| ObjectPoolProperties.PushAllAppends | Assets/Scripts/Framework/ObjectPool/ObjectPool.cs:57-63 | pushing objects that share a name appends them, in order, to that name's queue |
| ObjectPoolProperties.GetFront | Assets/Scripts/Framework/ObjectPool/ObjectPool.cs:25-27 | a request against a non-empty queue returns its front and leaves the rest |
| ObjectPoolProperties.DrainInOrder | Assets/Scripts/Framework/ObjectPool/ObjectPool.cs:25-27 | `n` requests return the first `n` queued objects, front first |
| ObjectPoolProperties.Fifo | Assets/Scripts/Framework/ObjectPool/ObjectPool.cs:25-63 | objects pushed into an empty queue come back in the order they went in |
| ObjectPoolProperties.AllocateThenPush | Assets/Scripts/Framework/ObjectPool/ObjectPool.cs:29-69 | a freshly made object, pushed back, is filed alone under its prototype's name and deactivated; it stays under the container it was given and no further container is created |
| ObjectPoolProperties.ContainerReused | Assets/Scripts/Framework/ObjectPool/ObjectPool.cs:92-104 | a second parenting under the same key creates nothing, changes no bookkeeping, and puts both objects under the same cached container |
| ObjectPoolProperties.ClearThenGet | Assets/Scripts/Framework/ObjectPool/ObjectPool.cs:75-78 | after Clear, the next request makes a new object even if one had been queued, and caches a container for its name again |
| ObjectPoolProperties.TidyEmpty | Assets/Scripts/Framework/ObjectPool/ObjectPool.cs:7-13 | an empty pool satisfies the invariant (queued objects exist, are inactive, are named after their queue, sit under its container, and appear once) |
| ObjectPoolProperties.QueuedUnderName | Assets/Scripts/Framework/ObjectPool/ObjectPool.cs:54-63 | under the invariant, an object is queued exactly when it is in the queue of its own name |
| ObjectPoolProperties.PushKeepsTidy | Assets/Scripts/Framework/ObjectPool/ObjectPool.cs:49-70 | pushing an object that is not queued keeps the invariant and queues it |
| ObjectPoolProperties.DequeueKeepsTidy | Assets/Scripts/Framework/ObjectPool/ObjectPool.cs:25-27 | taking from a queue keeps the invariant, and the object taken is no longer queued |
| ObjectPoolProperties.AllocateKeepsTidy | Assets/Scripts/Framework/ObjectPool/ObjectPool.cs:29-39 | allocating keeps the invariant, and the new object is not queued |
| ObjectPoolProperties.GetKeepsTidy | Assets/Scripts/Framework/ObjectPool/ObjectPool.cs:18-44 | every request keeps the invariant and returns an object that is no longer queued |
| ObjectPoolProperties.ClearKeepsTidy | Assets/Scripts/Framework/ObjectPool/ObjectPool.cs:75-78 | Clear keeps the invariant and leaves nothing queued |
| PushSelf.Timers | Assets/Scripts/Framework/ObjectPool/PushSelfBase.cs:15-23 | one timer value per tick |
| PushSelf.Requests | Assets/Scripts/Framework/ObjectPool/PushSelfBase.cs:15-23 | one push decision per tick |
| PushSelf.TimersAreSums | Assets/Scripts/Framework/ObjectPool/PushSelfBase.cs:17 | after tick `i`, the timer is its starting value plus all time elapsed up to and including that tick |
| PushSelf.PushRequestedIff | Assets/Scripts/Framework/ObjectPool/PushSelfBase.cs:17-22 | after enabling, tick `i` requests a push exactly when the time elapsed since enabling is strictly greater than the lifetime |
| PushSelf.RequestsPersist | Assets/Scripts/Framework/ObjectPool/PushSelfBase.cs:17-22 | once a tick requests a push, every later tick does too |
| PushSelf.Expired | Assets/Scripts/Framework/ObjectPool/PushSelfBase.cs:19 | a timer at or below the lifetime is not expired; one unit past it is |
| PushSelf.ExactLifetimeKeeps | Assets/Scripts/Framework/ObjectPool/PushSelfBase.cs:19 | reaching the lifetime exactly requests nothing; one unit more requests the push |
| PushSelf.PushSelfBase.constructor | Assets/Scripts/Framework/ObjectPool/PushSelfBase.cs:5-6 | a component for a given object and lifetime, timer at 0 |
| PushSelf.PushSelfBase.OnEnable | Assets/Scripts/Framework/ObjectPool/PushSelfBase.cs:10-13 | the timer restarts at 0 |
| PushSelf.PushSelfBase.Update | Assets/Scripts/Framework/ObjectPool/PushSelfBase.cs:15-23 | the timer grows by `dt`; strictly past the lifetime, the pool becomes `Push` of its own object; otherwise the pool is untouched |
| PushSelf.PushSelfBase.PushObj | Assets/Scripts/Framework/ObjectPool/PushSelfBase.cs:25-32 | nothing when the pool is absent; otherwise the pool becomes `Push` of the component's own object, and the timer is untouched |
| WindowUtils.MaskIsComplement | Assets/Scripts/Framework/WindowUtils.cs:79 | the literal mask is `~WS_EX_TRANSPARENT` |
| WindowUtils.PopupStyle | Assets/Scripts/Framework/WindowUtils.cs:55 | the style word is exactly `0x90000000`: popup and visible, no other bit |
| WindowUtils.ClickableExStyle | Assets/Scripts/Framework/WindowUtils.cs:76-85 | the window takes clicks afterwards if asked to be clickable, and does not if asked not to be; every bit other than `0x20` is as before |
| WindowUtils.TopmostKeepsClicks | Assets/Scripts/Framework/WindowUtils.cs:62 | setting the always-on-top bit does not change whether the window takes clicks |
| WindowUtils.KeepsLayeredAndTopmost | Assets/Scripts/Framework/WindowUtils.cs:79-84 | the layered and always-on-top bits survive either setting |
| WindowUtils.LastSettingWins | Assets/Scripts/Framework/WindowUtils.cs:76-85 | of two settings applied in turn, the second alone decides the style word |
| WindowUtils.Idempotent | Assets/Scripts/Framework/WindowUtils.cs:76-85 | applying the same setting twice gives the word that applying it once does |
| WindowUtils.RoundTrip | Assets/Scripts/Framework/WindowUtils.cs:79-84 | on a word without the click-through bit, setting it and clearing it again restores the word, and clearing alone changes nothing |
| WindowUtils.Window.GetWindowLong | Assets/Scripts/Framework/WindowUtils.cs:15 | reads the style or extended-style word |
| WindowUtils.Window.SetWindowLong | Assets/Scripts/Framework/WindowUtils.cs:12 | writes the named word; the other word is unchanged |
| WindowUtils.Window.SetWindowPosTopmost | Assets/Scripts/Framework/WindowUtils.cs:62 | the extended style gains `WS_EX_TOPMOST`; the style word and the call count are unchanged |
| WindowUtils.SetupWindow | Assets/Scripts/Framework/WindowUtils.cs:48-64 | the style word becomes `PopupStyle()`; the extended style gains the always-on-top bit `WS_EX_TOPMOST` (from `SetWindowPos(HWND_TOPMOST)`, line 62) and is otherwise unchanged |
| WindowUtils.SetClickable | Assets/Scripts/Framework/WindowUtils.cs:70-87 | the extended style becomes `ClickableExStyle` of the one read; the style word is unchanged; the call is counted |
| DesktopMode.ShouldBeClickable | Assets/Scripts/Framework/DesktopModeManager.cs:43-62 | over the UI means clickable; otherwise clickable exactly when the ray hits |
| DesktopMode.Initial | Assets/Scripts/Framework/DesktopModeManager.cs:13-14 | the controller starts with timer 0, the cached decision clickable, and no calls made |
| DesktopMode.Due | Assets/Scripts/Framework/DesktopModeManager.cs:29-30 | a zero interval, or a tick at least as long as the interval, always runs a check; a zero-length tick below the interval never does |
| DesktopMode.Decide | Assets/Scripts/Framework/DesktopModeManager.cs:41-70 | the cached decision becomes the new decision; the window is called once if that differs from the previous cached decision and not at all otherwise |
| DesktopMode.Tick | Assets/Scripts/Framework/DesktopModeManager.cs:25-36 | below the interval, only the timer grows; at or past it, the timer is set to 0 and a decision is made |
| DesktopMode.RaycastIgnoredOverUI | Assets/Scripts/Framework/DesktopModeManager.cs:46-62 | over the UI the raycast's answer makes no difference |
| DesktopMode.RunCallsOnEdges | Assets/Scripts/Framework/DesktopModeManager.cs:29-69 | over any run of ticks, the window is called once per change between successive decisions, and the cached state ends at the last decision |
| DesktopMode.SteadyDecisionsCallOnce | Assets/Scripts/Framework/DesktopModeManager.cs:65-69 | a run of identical decisions calls the window once if it differs from the cached decision and never otherwise |
| DesktopMode.SteadyDecisionsCallAfter | Assets/Scripts/Framework/DesktopModeManager.cs:65-69 | once the cache holds a decision, repeating that same decision never calls the window |
| DesktopMode.FirstDecision | Assets/Scripts/Framework/DesktopModeManager.cs:14-69 | the cache starts clickable, so a first decision of clickable calls nothing and one of not clickable calls once |
| DesktopMode.NoCallBetweenChecks | Assets/Scripts/Framework/DesktopModeManager.cs:29-35 | a tick that does not reach the interval neither decides nor calls |
| DesktopMode.CheckRestartsTimer | Assets/Scripts/Framework/DesktopModeManager.cs:30-32 | a check sets the timer to 0, throwing away any time past the interval |
| DesktopMode.DesktopModeManager.constructor | Assets/Scripts/Framework/DesktopModeManager.cs:13-14 | timer 0, cached decision clickable |
| DesktopMode.DesktopModeManager.Start | Assets/Scripts/Framework/DesktopModeManager.cs:16-23 | the window becomes an always-on-top popup: the style word is `PopupStyle()` and the extended style gains `WS_EX_TOPMOST` only; the controller's state is unchanged and the cached decision keeps agreeing with the click-through bit |
| DesktopMode.DesktopModeManager.Update | Assets/Scripts/Framework/DesktopModeManager.cs:25-36 | the new timer, cached decision and call count are `Tick` of the old ones. The window's style word is unchanged. Its extended style is unchanged unless the cached decision changed, and then it is `ClickableExStyle` of the old one. The cached decision keeps agreeing with the window's click-through bit |
| DesktopMode.DesktopModeManager.UpdateWindowClickState | Assets/Scripts/Framework/DesktopModeManager.cs:41-70 | the new timer, cached decision and call count are `Decide` of the old ones. The window's style word is unchanged. Its extended style is unchanged when the decision is the cached one, and otherwise becomes `ClickableExStyle` of the old one. The cached decision keeps agreeing with the window's click-through bit |

## Left out

- NormalizedTime (SequenceFramePlayer.cs:77-81): it rests on float division and `Mathf.RoundToInt` rounding.
- Floating-point time and the `fps` to frame-duration conversion: time is in whole units and the frame duration is a configuration value. Consequently, `Mathf.Max(1, fps)` (line 69) is not modelled.
- The `TimeMode` choice between scaled and unscaled time (line 141): the elapsed time is a parameter.
- The name sort in `Awake` (lines 126-132): only the number of frames in each list is modelled, so ordering plays no part.
- Rendering in `ApplyIndex`: the sprite and texture assignments, `SetNativeSize`, the image type and the rect sizing. The model records only which position of which list the display surface was given (`shown`).
- `Reset()` and the editor-only branches of every file: the build path is modelled.
- Changing the configuration at run time through the inspector: the configuration is constant.
- UsingTextures (SequenceFramePlayer.cs:154): nothing in the code reads it.
- `GetComponent` lookups in `AutoResolveTargets`: whether a reference to each kind of surface is available is a configuration flag.
- Unity's overloaded `null` for destroyed objects. In particular, `SetObjectParent` recreating a root that was destroyed, for example on a scene change, is not modelled: objects are never destroyed, and the root is created once, when there is none.
- The `Singleton<ObjectPool>` base: the pool instance is passed to the lifetime component explicitly, and absence is a `null` pool.
- The engine calling `OnEnable` when the object is activated, and calling `Update` only while it is active: those are separate methods that a caller invokes.
- PushSelf.PushSelfBase.Update: it does not model that the engine stops calling it once the push deactivates the object.
- ObjectPoolProperties.PushKeepsTidy: pushing an object that is already queued is not covered. The code enqueues it a second time, which breaks the one-appearance part of the invariant.
- The pointer-over-UI and raycast queries (`EventSystem`, `Camera.main`, `Physics.Raycast`, the layer mask) are boolean inputs of each tick. "The raycast is not consulted over the UI" becomes "its answer makes no difference" (`RaycastIgnoredOverUI`).
- `Application.targetFrameRate` (DesktopModeManager.cs:19): a frame-rate setting with no logic to model.
- `GetActiveWindow` (WindowUtils.cs:51, 73): the model assumes that every call addresses the pet's own window. In the source, the handle is the calling thread's active window. When the pet is not the active window, the write goes to another window or to none, and the cached decision no longer reflects the pet window (`Mirrored`).
- `GetObject(null)`: the source dereferences `prefab.name` (ObjectPool.cs:22) and throws. The model's `Get` requires the prototype to exist and has no error path for a null prototype.
- A missing `Camera.main` makes `UpdateWindowClickState` throw (DesktopModeManager.cs:57). The model has no such error: the raycast's answer is always an input.
- `DwmExtendFrameIntoClientArea` in `SetupWindow` (WindowUtils.cs:58-59): the glass frame is not window-style state. Of `SetWindowPos` (line 62), only its effect on the topmost bit is modelled; the z-order itself is not.
- WindowUtils.Window.GetWindowLong: it is modelled for the two indices used (`GWL_STYLE` and `GWL_EXSTYLE`) only.
- Assets/Scripts/Test/CatBodyController.cs: a single engine call with nothing to verify.
