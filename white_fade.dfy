/** The white fade: a full-screen plane whose opacity rises from 0 to 1 over
    2 s once the effect is activated, driven by an animation-frame loop that
    calls the completion callback when it reaches 1. The clock is a
    parameter (`now`, in milliseconds); each animation frame is an event. */
module WhiteFadeEffect {
  import opened Easing

  const DurationMs: real := 2000.0

  /** `min(elapsed / 2000, 1)`. */
  function FadeProgress(elapsed: real): (p: real)
    ensures p <= 1.0
    ensures elapsed >= 0.0 ==> 0.0 <= p
    ensures p == 1.0 <==> elapsed >= DurationMs
    ensures elapsed == 0.0 ==> p == 0.0
  {
    Min(elapsed / DurationMs, 1.0)
  }

  /** Later frames never show less white. */
  lemma FadeProgressMonotone(e1: real, e2: real)
    requires e1 <= e2
    ensures FadeProgress(e1) <= FadeProgress(e2)
  {
    assert e1 / DurationMs <= e2 / DurationMs;
  }

  /** Whether the overlay mesh was created and whether it is in the scene,
      its material's opacity, the shared start time, and how many animation
      loops have a frame requested. */
  datatype Fade = Fade(overlay: bool, inScene: bool, opacity: real, startTime: real, loops: nat)

  const Unmounted: Fade := Fade(false, false, 0.0, 0.0, 0)

  /** The scene effect: create the overlay (transparent) only if there is none
      yet, and add it to the scene only when it is created. */
  function SceneAdded(s: Fade): (r: Fade)
    ensures r.overlay
    ensures !s.overlay ==> r.inScene && r.opacity == 0.0
    ensures s.overlay ==> r == s
    ensures r.loops == s.loops && r.startTime == s.startTime
  {
    if s.overlay then s else s.(overlay := true, inScene := true, opacity := 0.0)
  }

  /** The scene effect's cleanup: remove the overlay from the scene, if there
      is one. */
  function SceneRemoved(s: Fade): (r: Fade)
    ensures s.overlay ==> !r.inScene
    ensures r.overlay == s.overlay && r.opacity == s.opacity && r.loops == s.loops && r.startTime == s.startTime
    ensures !s.overlay ==> r == s
  {
    if s.overlay then s.(inScene := false) else s
  }

  /** Once created, the overlay is kept in the ref; a cleanup followed by a
      second run of the scene effect therefore leaves it out of the scene. */
  lemma RemountLeavesOverlayOut(s: Fade)
    ensures var r := SceneAdded(SceneRemoved(SceneAdded(s))); r.overlay && !r.inScene
  {
  }

  /** The activation effect. Active: record the start time and run the first
      frame at once (elapsed 0, so opacity 0 and one more loop running).
      Inactive: opacity back to 0; loops already running are not stopped. */
  function Activated(s: Fade, isActive: bool, now: real): (r: Fade)
    ensures r.overlay == s.overlay && r.inScene == s.inScene
    ensures r.opacity == if s.overlay then 0.0 else s.opacity
    ensures isActive ==> r.startTime == now && r.loops == s.loops + 1
    ensures !isActive ==> r.startTime == s.startTime && r.loops == s.loops
  {
    if isActive then
      s.(startTime := now, opacity := if s.overlay then FadeProgress(0.0) else s.opacity, loops := s.loops + 1)
    else
      s.(opacity := if s.overlay then 0.0 else s.opacity)
  }

  /** One animation frame at time `now`: every running loop sets the opacity to
      the progress since the shared start time; below 1 each requests another
      frame, at 1 each stops. */
  function FrameRan(s: Fade, now: real): (r: Fade)
    ensures r.overlay == s.overlay && r.inScene == s.inScene && r.startTime == s.startTime
    ensures s.loops == 0 ==> r == s
    ensures s.loops > 0 && s.overlay ==> r.opacity == FadeProgress(now - s.startTime)
    ensures r.loops == if now - s.startTime >= DurationMs then 0 else s.loops
  {
    if s.loops == 0 then s
    else
      var progress := FadeProgress(now - s.startTime);
      s.(opacity := if s.overlay then progress else s.opacity,
         loops := if progress < 1.0 then s.loops else 0)
  }

  /** How many times that frame calls `onFadeComplete`: once per loop that
      reaches the end, if a callback is given. */
  function CompletionsAt(s: Fade, now: real, hasCallback: bool): (n: nat)
    ensures n <= s.loops
    ensures n > 0 <==> hasCallback && s.loops > 0 && now - s.startTime >= DurationMs
  {
    if hasCallback && FadeProgress(now - s.startTime) == 1.0 then s.loops else 0
  }

  /** Activated at `t0`, a frame before `t0 + 2000` shows opacity
      `(t - t0) / 2000` and keeps the loop going without completing. */
  lemma FadeInProgress(s: Fade, t0: real, t: real, hasCallback: bool)
    requires t0 <= t < t0 + DurationMs
    ensures var a := Activated(s, true, t0); var r := FrameRan(a, t);
      r.loops == a.loops && CompletionsAt(a, t, hasCallback) == 0 &&
      (s.overlay ==> r.opacity == (t - t0) / DurationMs && 0.0 <= r.opacity < 1.0)
  {
  }

  /** Activated at `t0`, the first frame at or after `t0 + 2000` shows full
      white, stops every loop, and calls the callback once per loop. */
  lemma FadeCompletes(s: Fade, t0: real, t: real, hasCallback: bool)
    requires t >= t0 + DurationMs
    ensures var a := Activated(s, true, t0); var r := FrameRan(a, t);
      r.loops == 0 && (s.overlay ==> r.opacity == 1.0) &&
      CompletionsAt(a, t, hasCallback) == if hasCallback then s.loops + 1 else 0
  {
  }

  /** Across successive frames of a running fade the opacity never falls. */
  lemma {:induction false} OpacityNeverFalls(s: Fade, t1: real, t2: real)
    requires s.overlay && s.loops > 0 && t1 <= t2
    requires FrameRan(s, t1).loops > 0
    ensures FrameRan(s, t1).opacity <= FrameRan(FrameRan(s, t1), t2).opacity
  {
    FadeProgressMonotone(t1 - s.startTime, t2 - s.startTime);
  }

  /** The component's ref to the overlay mesh, its material, the start-time
      ref and the running animation loops. */
  class WhiteFade {
    var overlay: bool
    var inScene: bool
    var opacity: real
    var startTime: real
    var loops: nat

    function State(): Fade
      reads this
    {
      Fade(overlay, inScene, opacity, startTime, loops)
    }

    constructor ()
      ensures State() == Unmounted
    {
      overlay, inScene, opacity, startTime, loops := false, false, 0.0, 0.0, 0;
    }

    method SceneEffect()
      modifies this
      ensures State() == SceneAdded(old(State()))
    {
      if !overlay {
        overlay := true;
        opacity := 0.0;
        inScene := true;
      }
    }

    method SceneCleanup()
      modifies this
      ensures State() == SceneRemoved(old(State()))
    {
      if overlay {
        inScene := false;
      }
    }

    method ActiveEffect(isActive: bool, now: real)
      modifies this
      ensures State() == Activated(old(State()), isActive, now)
    {
      if isActive {
        startTime := now;
        Animate(now);
        loops := loops + 1;
      } else if overlay {
        opacity := 0.0;
      }
    }

    /** One run of `animate`'s opacity write. */
    method Animate(now: real)
      modifies this`opacity
      ensures opacity == if overlay then FadeProgress(now - startTime) else old(opacity)
    {
      var progress := FadeProgress(now - startTime);
      if overlay {
        opacity := progress;
      }
    }

    /** One animation frame; returns how many times `onFadeComplete` is called. */
    method Frame(now: real, hasCallback: bool) returns (completions: nat)
      modifies this
      ensures State() == FrameRan(old(State()), now)
      ensures completions == CompletionsAt(old(State()), now, hasCallback)
    {
      completions := 0;
      if loops == 0 {
        return;
      }
      Animate(now);
      var progress := FadeProgress(now - startTime);
      if progress >= 1.0 {
        if hasCallback {
          completions := loops;
        }
        loops := 0;
      }
    }
  }
}
