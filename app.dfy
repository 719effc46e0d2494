/** The top-level story component: the timer-driven view sequencer, the camera
    request it issues on every view change, the fog ramp and the finale that
    the "continue" button triggers. Timers are events: a method per timer
    callback, and a cleared timer never fires. */
module App {
  import opened Three
  import opened Easing

  const ViewCount: nat := 3
  const FirstCaptionMs: real := 15000.0
  const CaptionMs: real := 20000.0
  const FogDurationMs: real := 5000.0

  /** The fixed viewpoints, in presentation order. */
  function ViewPose(i: nat): Pose
    requires i < ViewCount
  {
    if i == 0 then Pose(Vec3(-6.774, 0.835, 6.782), Vec3(0.0, 0.0, 7.0))
    else if i == 1 then Pose(Vec3(-15.683, 3.047, 6.977), Vec3(0.0, 0.0, 0.0))
    else Pose(Vec3(-1.602, -0.267, 13.709), Vec3(0.0, 0.0, 0.0))
  }

  /** What the finale passes on: the installed `__updateCamera` takes a
      position and a look-at only, so the waypoint argument is lost. */
  const FinalePose: Pose := Pose(Vec3(0.0, 0.0, -6.0), Vec3(0.0, 0.0, -15.0))

  /** The timer callbacks and user actions that change the sequencer. */
  datatype Event = SwitchTick | FadeOutFires | ButtonTimeoutFires | NewButtonClick | Teardown

  /** The view index, the caption and button flags, and the timers:
      `switching` is the 25 s interval, `fadeOut` the caption fade-out
      timeout with its delay, `buttonTimeout` the 500 ms timeout that
      reveals the button. */
  datatype Sequencer = Sequencer(
    index: nat,
    captionActive: bool,
    showButton: bool,
    switching: bool,
    fadeOut: Option<real>,
    buttonTimeout: bool,
    mounted: bool)

  predicate Valid(s: Sequencer) {
    && s.index < ViewCount
    && (s.buttonTimeout ==> !s.switching && s.index == ViewCount - 1)
    && (s.showButton ==> !s.switching && s.index == ViewCount - 1)
    && (!s.mounted ==> !s.switching && s.fadeOut.None?)
    && (s.mounted && s.captionActive ==> s.fadeOut.Some?)
  }

  /** The mount effect: first view, caption on with a 15 s fade-out, button
      hidden, interval armed. */
  function Start(): (s: Sequencer)
    ensures Valid(s) && s.index == 0 && s.captionActive && !s.showButton
    ensures s.switching && s.fadeOut == Some(FirstCaptionMs) && !s.buttonTimeout
  {
    Sequencer(0, true, false, true, Some(FirstCaptionMs), false, true)
  }

  function Apply(s: Sequencer, e: Event): (r: Sequencer)
    ensures Valid(s) ==> Valid(r)
    // the index never falls and moves by at most one view per event
    ensures s.index <= r.index <= s.index + 1
    // an advance turns the caption on, hides the button and re-arms the fade-out
    ensures r.index != s.index ==>
      e == SwitchTick && s.switching && r.captionActive && !r.showButton && r.fadeOut == Some(CaptionMs)
    // the tick past the last view stops the interval and arms the button timeout
    ensures e == SwitchTick && s.switching && s.index == ViewCount - 1 ==>
      r.index == s.index && !r.switching && r.buttonTimeout && r.captionActive == s.captionActive
    // the button appears only through its timeout
    ensures !s.showButton && r.showButton ==> e == ButtonTimeoutFires && s.buttonTimeout
    // the caption switches on only by an advance and off only by its fade-out
    ensures !s.captionActive && r.captionActive ==> r.index == s.index + 1
    ensures s.captionActive && !r.captionActive ==> e == FadeOutFires && s.fadeOut.Some?
    // nothing re-arms the interval, and teardown clears both of its timers
    ensures !s.switching ==> !r.switching
    ensures e == Teardown ==> !r.switching && r.fadeOut.None?
  {
    match e
    case SwitchTick =>
      if !s.switching then s
      else if s.index + 1 >= ViewCount then s.(switching := false, buttonTimeout := true)
      else s.(index := s.index + 1, captionActive := true, showButton := false, fadeOut := Some(CaptionMs))
    case FadeOutFires =>
      if s.fadeOut.Some? then s.(captionActive := false, fadeOut := None) else s
    case ButtonTimeoutFires =>
      if s.buttonTimeout then s.(showButton := true, buttonTimeout := false) else s
    case NewButtonClick =>
      s.(showButton := false)
    case Teardown =>
      s.(switching := false, fadeOut := None, mounted := false)
  }

  /** The camera request the index effect makes after an event, if any. */
  function RequestAfter(before: Sequencer, after: Sequencer): seq<nat> {
    if after.index != before.index then [after.index] else []
  }

  function Run(s: Sequencer, events: seq<Event>): Sequencer
    decreases |events|
  {
    if events == [] then s else Run(Apply(s, events[0]), events[1..])
  }

  /** The views whose poses are requested, in order, while `events` happen. */
  function RequestsIssued(s: Sequencer, events: seq<Event>): seq<nat>
    decreases |events|
  {
    if events == [] then []
    else
      var s1 := Apply(s, events[0]);
      RequestAfter(s, s1) + RequestsIssued(s1, events[1..])
  }

  /** The integers from `lo` up to, not including, `hi`. */
  function Range(lo: nat, hi: nat): seq<nat>
    decreases hi - lo
  {
    if lo >= hi then [] else [lo] + Range(lo + 1, hi)
  }

  /** Over any run of events the sequencer stays valid, and each view after
      the current one up to the final one is requested exactly once, in order:
      the overflowing tick requests nothing. */
  lemma {:induction false} RequestsOncePerView(s: Sequencer, events: seq<Event>)
    requires Valid(s)
    ensures Valid(Run(s, events)) && s.index <= Run(s, events).index
    ensures RequestsIssued(s, events) == Range(s.index + 1, Run(s, events).index + 1)
    decreases |events|
  {
    if events != [] {
      var s1 := Apply(s, events[0]);
      RequestsOncePerView(s1, events[1..]);
      if s1.index != s.index {
        assert Range(s.index + 1, Run(s, events).index + 1)
            == [s.index + 1] + Range(s1.index + 1, Run(s, events).index + 1);
      }
    }
  }

  /** Once the interval is cleared, by the overflowing tick or by teardown,
      no amount of further events moves the view or requests the camera. */
  lemma {:induction false} NoSwitchingNoRequests(s: Sequencer, events: seq<Event>)
    requires !s.switching
    ensures Run(s, events).index == s.index && !Run(s, events).switching
    ensures RequestsIssued(s, events) == []
    decreases |events|
  {
    if events != [] {
      NoSwitchingNoRequests(Apply(s, events[0]), events[1..]);
    }
  }

  /** From the start, the ticks bring every view in turn, and the tick after
      the last one stops the interval and arms the button timeout. */
  lemma StartToEnd()
    ensures Run(Start(), [SwitchTick, SwitchTick]).index == ViewCount - 1
    ensures var s := Run(Start(), [SwitchTick, SwitchTick, SwitchTick]);
      s.index == ViewCount - 1 && !s.switching && s.buttonTimeout && !s.showButton
    ensures RequestsIssued(Start(), [SwitchTick, SwitchTick, SwitchTick]) == [1, 2]
  {
    var e := [SwitchTick, SwitchTick, SwitchTick];
    assert e[1..] == [SwitchTick, SwitchTick] && e[1..][1..] == [SwitchTick];
    assert [SwitchTick, SwitchTick][1..] == [SwitchTick];
  }

  /** Fog progress: elapsed time over the 5 s duration, capped at 1. */
  function FogProgress(elapsed: real): (p: real)
    ensures elapsed >= 0.0 ==> 0.0 <= p <= 1.0
    ensures p < 1.0 <==> elapsed < FogDurationMs
  {
    Min(elapsed / FogDurationMs, 1.0)
  }

  datatype FogSample = FogSample(near: real, far: real)

  /** The fog distances `elapsed` ms into the ramp: near from 10 to 0, far
      from 100 to 1. */
  function FogAt(elapsed: real): (f: FogSample)
    ensures elapsed >= 0.0 ==> 0.0 <= f.near <= 10.0 && 1.0 <= f.far <= 100.0
    ensures elapsed == 0.0 ==> f == FogSample(10.0, 100.0)
    ensures elapsed >= FogDurationMs ==> f == FogSample(0.0, 1.0)
  {
    var p := FogProgress(elapsed);
    if elapsed >= 0.0 then
      LerpBetween(10.0, 0.0, p);
      LerpBetween(100.0, 1.0, p);
      FogSample(Lerp(10.0, 0.0, p), Lerp(100.0, 1.0, p))
    else
      FogSample(Lerp(10.0, 0.0, p), Lerp(100.0, 1.0, p))
  }

  /** Halfway through, the ramp is halfway along both distances. */
  lemma FogHalfway()
    ensures FogAt(2500.0) == FogSample(5.0, 50.5)
  {
  }

  /** The fog only closes in: both distances shrink as time passes. */
  lemma FogMonotone(e1: real, e2: real)
    requires 0.0 <= e1 <= e2
    ensures FogAt(e2).near <= FogAt(e1).near && FogAt(e2).far <= FogAt(e1).far
  {
    var p1, p2 := FogProgress(e1), FogProgress(e2);
    assert p1 <= p2 by {
      MulMonotone(e1, e2, 1.0 / FogDurationMs);
    }
  }

  /** The scene's fog and the self-rescheduling animate loop that ramps it. */
  class FogRamp {
    var color: string
    var near: real
    var far: real
    var scheduled: bool

    constructor ()
      ensures color == "#000000" && near == 10.0 && far == 100.0 && !scheduled
    {
      color := "#000000";
      near := 10.0;
      far := 100.0;
      scheduled := false;
    }

    /** One sample of the loop, `elapsed` ms after it started. */
    method Sample(elapsed: real)
      modifies this
      ensures color == "#ffffff" && FogSample(near, far) == FogAt(elapsed)
      ensures scheduled <==> FogProgress(elapsed) < 1.0
    {
      var progress := FogProgress(elapsed);
      color := "#ffffff";
      near := Lerp(10.0, 0.0, progress);
      far := Lerp(100.0, 1.0, progress);
      scheduled := progress < 1.0;
    }

    /** `playView5Animation`: if `__updateFog` is installed, take the first
        sample at once. */
    method Start(bridgeInstalled: bool)
      modifies this
      ensures !bridgeInstalled ==> unchanged(this)
      ensures bridgeInstalled ==>
        color == "#ffffff" && near == 10.0 && far == 100.0 && scheduled
    {
      if bridgeInstalled {
        Sample(0.0);
      }
    }

    /** A requested animation frame arrives; a loop that stopped gets none. */
    method Frame(elapsed: real)
      modifies this
      ensures !old(scheduled) ==> unchanged(this)
      ensures old(scheduled) ==>
        color == "#ffffff" && FogSample(near, far) == FogAt(elapsed) && (scheduled <==> elapsed < FogDurationMs)
    {
      if scheduled {
        Sample(elapsed);
      }
    }
  }

  /** The component: the sequencer state in its own fields, the camera
      requests made through `__updateCamera`, and the scene's fog. */
  class StoryApp {
    var currentViewIndex: nat
    var textOverlayActive: bool
    var showNewButton: bool
    var switching: bool
    var fadeOutTimeout: Option<real>
    var buttonTimeout: bool
    var mounted: bool
    var cameraRequests: seq<Pose>
    const fog: FogRamp

    function State(): Sequencer
      reads this
    {
      Sequencer(currentViewIndex, textOverlayActive, showNewButton, switching,
                fadeOutTimeout, buttonTimeout, mounted)
    }

    /** Mount: start the auto-switching and request the first view. */
    constructor (fog: FogRamp, cameraBridge: bool)
      ensures this.fog == fog && State() == Start() && Valid(State())
      ensures cameraRequests == if cameraBridge then [ViewPose(0)] else []
    {
      this.fog := fog;
      currentViewIndex := 0;
      mounted := true;
      buttonTimeout := false;
      textOverlayActive := true;
      showNewButton := false;
      fadeOutTimeout := Some(FirstCaptionMs);
      switching := true;
      cameraRequests := if cameraBridge then [ViewPose(0)] else [];
    }

    /** The 25 s interval fires: advance, or at the last view stop and arm
        the button timeout; then the index effect requests the new view. */
    method SwitchTick(cameraBridge: bool)
      requires Valid(State())
      modifies this
      ensures Valid(State())
      ensures State() == Apply(old(State()), Event.SwitchTick)
      ensures cameraRequests == old(cameraRequests) +
        if cameraBridge && currentViewIndex != old(currentViewIndex) then [ViewPose(currentViewIndex)] else []
    {
      if !switching {
        return;
      }
      var nextIndex := currentViewIndex + 1;
      if nextIndex >= ViewCount {
        switching := false;
        buttonTimeout := true;
        return;
      }
      textOverlayActive := true;
      showNewButton := false;
      fadeOutTimeout := Some(CaptionMs);
      currentViewIndex := nextIndex;
      if cameraBridge {
        cameraRequests := cameraRequests + [ViewPose(currentViewIndex)];
      }
    }

    method FadeOutFires()
      requires Valid(State())
      modifies this
      ensures Valid(State())
      ensures State() == Apply(old(State()), Event.FadeOutFires) && cameraRequests == old(cameraRequests)
    {
      if fadeOutTimeout.Some? {
        textOverlayActive := false;
        fadeOutTimeout := None;
      }
    }

    method ButtonTimeoutFires()
      requires Valid(State())
      modifies this
      ensures Valid(State())
      ensures State() == Apply(old(State()), Event.ButtonTimeoutFires) && cameraRequests == old(cameraRequests)
    {
      if buttonTimeout {
        showNewButton := true;
        buttonTimeout := false;
      }
    }

    /** The effect cleanup: clear the interval and the caption fade-out. */
    method Teardown()
      requires Valid(State())
      modifies this
      ensures Valid(State())
      ensures State() == Apply(old(State()), Event.Teardown) && cameraRequests == old(cameraRequests)
    {
      switching := false;
      fadeOutTimeout := None;
      mounted := false;
    }

    /** The finale: hide the button, request the final pose, start the fog
        ramp, with nothing in between. */
    method NewButtonClick(cameraBridge: bool, fogBridge: bool)
      requires Valid(State())
      modifies this, fog
      ensures Valid(State())
      ensures State() == Apply(old(State()), Event.NewButtonClick)
      ensures cameraRequests == old(cameraRequests) + if cameraBridge then [FinalePose] else []
      ensures fogBridge ==> fog.color == "#ffffff" && fog.near == 10.0 && fog.far == 100.0 && fog.scheduled
      ensures !fogBridge ==> unchanged(fog)
    {
      showNewButton := false;
      if cameraBridge {
        cameraRequests := cameraRequests + [FinalePose];
      }
      fog.Start(fogBridge);
    }
  }
}
