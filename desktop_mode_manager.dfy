/**
 * The click-through controller: every `checkInterval` time units it decides
 * whether the pet window should take mouse clicks (the pointer is over the
 * user interface, or a ray from the pointer hits the pet) and tells the
 * window only when that decision differs from the one it last made.
 * The pointer and raycast queries are inputs to each tick.
 */
module DesktopMode {
  import opened WindowUtils

  /** Over the user interface means clickable whatever the ray hits; otherwise the ray decides. */
  function ShouldBeClickable(pointerOverUI: bool, raycastHit: bool): (r: bool)
    ensures pointerOverUI ==> r
    ensures !pointerOverUI ==> (r <==> raycastHit)
  {
    if pointerOverUI then true else raycastHit
  }

  /** The controller's state, with the number of calls it has made to `SetClickable`. */
  datatype Poller = Poller(timer: nat, clickable: bool, calls: nat)

  /** What one tick observes: the time elapsed and the two pointer queries. */
  datatype Sample = Sample(dt: nat, pointerOverUI: bool, raycastHit: bool)

  /** The cached decision starts as clickable. */
  function Initial(): (r: Poller)
    ensures r.timer == 0 && r.clickable && r.calls == 0
  {
    Poller(0, true, 0)
  }

  /** `UpdateWindowClickState`: decide, and call the window only on a change. */
  function Decide(p: Poller, pointerOverUI: bool, raycastHit: bool): (r: Poller)
    ensures r.clickable == ShouldBeClickable(pointerOverUI, raycastHit) && r.timer == p.timer
    ensures r.calls == p.calls + (if r.clickable == p.clickable then 0 else 1)
  {
    var d := ShouldBeClickable(pointerOverUI, raycastHit);
    if p.clickable != d then p.(clickable := d, calls := p.calls + 1) else p
  }

  /** Whether a tick of `dt` from `timer` runs a check. */
  predicate Due(interval: nat, timer: nat, dt: nat)
    ensures interval == 0 || dt >= interval ==> Due(interval, timer, dt)
    ensures timer < interval && dt == 0 ==> !Due(interval, timer, dt)
  {
    timer + dt >= interval
  }

  /** `Update`: accumulate time; once it reaches the interval, reset the timer to 0 and check. */
  function Tick(interval: nat, p: Poller, s: Sample): (r: Poller)
    ensures !Due(interval, p.timer, s.dt) ==> r == p.(timer := p.timer + s.dt)
    ensures Due(interval, p.timer, s.dt) ==> r == Decide(p.(timer := 0), s.pointerOverUI, s.raycastHit)
  {
    var t := p.timer + s.dt;
    if t >= interval then Decide(p.(timer := 0), s.pointerOverUI, s.raycastHit) else p.(timer := t)
  }

  function Run(interval: nat, p: Poller, samples: seq<Sample>): Poller
    decreases |samples|
  {
    if samples == [] then p else Run(interval, Tick(interval, p, samples[0]), samples[1..])
  }

  /** The decisions made by the checks a run of ticks performs, in order. */
  function Decisions(interval: nat, timer: nat, samples: seq<Sample>): seq<bool>
    decreases |samples|
  {
    if samples == [] then []
    else
      var s := samples[0];
      if Due(interval, timer, s.dt) then
        [ShouldBeClickable(s.pointerOverUI, s.raycastHit)] + Decisions(interval, 0, samples[1..])
      else Decisions(interval, timer + s.dt, samples[1..])
  }

  /** The number of times a run of decisions differs from the one before it, starting from `cached`. */
  function Changes(cached: bool, ds: seq<bool>): nat
    decreases |ds|
  {
    if ds == [] then 0 else (if ds[0] != cached then 1 else 0) + Changes(ds[0], ds[1..])
  }

  function Last(cached: bool, ds: seq<bool>): bool {
    if ds == [] then cached else ds[|ds| - 1]
  }

  /** The raycast's answer does not matter while the pointer is over the user interface. */
  lemma RaycastIgnoredOverUI(p: Poller, hitA: bool, hitB: bool)
    ensures Decide(p, true, hitA) == Decide(p, true, hitB)
  {
  }

  /**
   * Over a run, the window is called once per change of decision and the
   * cached state ends at the last decision: calls happen only on edges.
   */
  lemma {:induction false} RunCallsOnEdges(interval: nat, p: Poller, samples: seq<Sample>)
    ensures var ds := Decisions(interval, p.timer, samples);
      && Run(interval, p, samples).calls == p.calls + Changes(p.clickable, ds)
      && Run(interval, p, samples).clickable == Last(p.clickable, ds)
    decreases |samples|
  {
    if samples != [] {
      var s := samples[0];
      var p1 := Tick(interval, p, s);
      RunCallsOnEdges(interval, p1, samples[1..]);
      var rest := Decisions(interval, p1.timer, samples[1..]);
      if Due(interval, p.timer, s.dt) {
        var d := ShouldBeClickable(s.pointerOverUI, s.raycastHit);
        assert Decisions(interval, p.timer, samples) == [d] + rest;
        assert p1.clickable == d;
        if rest != [] {
          assert ([d] + rest)[|[d] + rest| - 1] == rest[|rest| - 1];
        }
      } else {
        assert Decisions(interval, p.timer, samples) == rest;
      }
    }
  }

  /** A run of identical decisions changes at most once: only if it differs from the cached one. */
  lemma {:induction false} SteadyDecisionsCallOnce(cached: bool, ds: seq<bool>, d: bool)
    requires forall i :: 0 <= i < |ds| ==> ds[i] == d
    ensures Changes(cached, ds) == if ds != [] && d != cached then 1 else 0
    decreases |ds|
  {
    if ds != [] {
      SteadyDecisionsCallAfter(ds[1..], d);
    }
  }

  lemma {:induction false} SteadyDecisionsCallAfter(ds: seq<bool>, d: bool)
    requires forall i :: 0 <= i < |ds| ==> ds[i] == d
    ensures Changes(d, ds) == 0
    decreases |ds|
  {
    if ds != [] {
      assert ds[0] == d;
      SteadyDecisionsCallAfter(ds[1..], d);
    }
  }

  /** From the initial state, a first decision of "clickable" calls nothing and "not clickable" calls once. */
  lemma FirstDecision(pointerOverUI: bool, raycastHit: bool)
    ensures Decide(Initial(), pointerOverUI, raycastHit).calls ==
      if ShouldBeClickable(pointerOverUI, raycastHit) then 0 else 1
  {
  }

  /** A tick that does not reach the interval neither decides nor calls. */
  lemma NoCallBetweenChecks(interval: nat, p: Poller, s: Sample)
    requires !Due(interval, p.timer, s.dt)
    ensures Tick(interval, p, s).calls == p.calls && Tick(interval, p, s).clickable == p.clickable
  {
  }

  /** A check throws away any time past the interval: the timer restarts at 0. */
  lemma CheckRestartsTimer(interval: nat, p: Poller, s: Sample)
    requires Due(interval, p.timer, s.dt)
    ensures Tick(interval, p, s).timer == 0
  {
  }

  class DesktopModeManager {
    const checkInterval: nat
    var timer: nat
    var isCurrentlyClickable: bool
    const window: Window

    ghost function State(): Poller
      reads this, window
    {
      Poller(timer, isCurrentlyClickable, window.clickableCalls)
    }

    /** The cached decision agrees with the window's click-through bit. */
    ghost predicate Mirrored()
      reads this, window
    {
      TakesClicks(window.exStyle) <==> isCurrentlyClickable
    }

    constructor (checkInterval: nat, window: Window)
      ensures this.checkInterval == checkInterval && this.window == window
      ensures State() == Initial().(calls := window.clickableCalls)
      ensures TakesClicks(window.exStyle) ==> Mirrored()
    {
      this.checkInterval := checkInterval;
      this.window := window;
      timer := 0;
      isCurrentlyClickable := true;
    }

    method Start()
      modifies window
      ensures window.style == PopupStyle() && window.exStyle == old(window.exStyle) | WS_EX_TOPMOST
      ensures State() == old(State())
      ensures old(Mirrored()) ==> Mirrored()
    {
      SetupWindow(window);
      TopmostKeepsClicks(old(window.exStyle));
    }

    method Update(dt: nat, pointerOverUI: bool, raycastHit: bool)
      modifies this, window
      ensures State() == Tick(checkInterval, old(State()), Sample(dt, pointerOverUI, raycastHit))
      ensures window.style == old(window.style)
      ensures window.exStyle == if old(isCurrentlyClickable) == isCurrentlyClickable then old(window.exStyle)
                                else ClickableExStyle(old(window.exStyle), isCurrentlyClickable)
      ensures old(Mirrored()) ==> Mirrored()
    {
      timer := timer + dt;
      if timer >= checkInterval {
        timer := 0;
        UpdateWindowClickState(pointerOverUI, raycastHit);
      }
    }

    method UpdateWindowClickState(pointerOverUI: bool, raycastHit: bool)
      modifies this, window
      ensures State() == Decide(old(State()), pointerOverUI, raycastHit)
      ensures window.style == old(window.style)
      ensures window.exStyle == if old(isCurrentlyClickable) == isCurrentlyClickable then old(window.exStyle)
                                else ClickableExStyle(old(window.exStyle), isCurrentlyClickable)
      ensures old(Mirrored()) ==> Mirrored()
    {
      var shouldBeClickable := false;
      if pointerOverUI {
        shouldBeClickable := true;
      }
      if !shouldBeClickable {
        if raycastHit {
          shouldBeClickable := true;
        }
      }
      if isCurrentlyClickable != shouldBeClickable {
        isCurrentlyClickable := shouldBeClickable;
        SetClickable(window, isCurrentlyClickable);
      }
    }
  }
}
