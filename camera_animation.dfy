/** The two-phase camera animator: each frame it eases the camera from where
    the leg started toward a fixed midpoint (phase one), then from the moving
    live pose toward the target (phase two), and finally snaps onto the
    target and reports completion. */
module CameraAnimation {
  import opened Three
  import opened Easing

  /** Growth of `lerpFactor` per second of frame time. */
  const Rate: real := 0.8
  /** Eased progress at or above which a leg counts as arrived. */
  const Arrival: real := 0.999

  datatype Phase = One | Two

  /** Everything one frame reads and writes: the live camera (`cameraPosition`
      and the point it was last told to look at, `cameraLook`) and the
      component's refs. */
  datatype Animator = Animator(
    cameraPosition: Vec3,
    cameraLook: Vec3,
    targetPosition: Vec3,
    targetLookAt: Vec3,
    midPosition: Vec3,
    midLookAt: Vec3,
    currentLookAt: Vec3,
    lerpFactor: real,
    prevTargetPos: Vec3,
    prevTargetLookAt: Vec3,
    isAnimating: bool,
    phase: Phase)

  /** The refs as they are initialised when the component mounts. The two
      waypoints are derived from the initial props here and nowhere else:
      `midPosition` is the midpoint of position and look-at, `midLookAt`
      is half the vector from position to look-at. */
  function Mount(cameraPosition: Vec3, cameraLook: Vec3, targetPosition: Vec3, targetLookAt: Vec3): (a: Animator)
    ensures !a.isAnimating && a.phase == One && a.lerpFactor == 0.0
    ensures a.cameraPosition == cameraPosition && a.cameraLook == cameraLook
    ensures Add(a.midPosition, a.midPosition) == Add(targetPosition, targetLookAt)
    ensures Add(a.midLookAt, a.midLookAt) == Sub(targetLookAt, targetPosition)
  {
    Animator(
      cameraPosition, cameraLook,
      targetPosition, targetLookAt,
      Scale(Add(targetPosition, targetLookAt), 0.5),
      Scale(Sub(targetLookAt, targetPosition), 0.5),
      Vec3(0.0, 0.0, 0.0),
      0.0,
      targetPosition, targetLookAt,
      false, One)
  }

  /** The effect that runs when new target props arrive. */
  function Retargeted(s: Animator, targetPosition: Vec3, targetLookAt: Vec3): (r: Animator)
    ensures r.isAnimating && r.phase == One && r.lerpFactor == 0.0
    ensures r.targetPosition == targetPosition && r.targetLookAt == targetLookAt
    // the leg starts at the live camera position, for the look-at too
    ensures r.prevTargetPos == s.cameraPosition && r.prevTargetLookAt == s.cameraPosition
    ensures r.currentLookAt == s.cameraPosition
    // the camera does not jump, and the mount-time waypoints stay
    ensures r.cameraPosition == s.cameraPosition && r.cameraLook == s.cameraLook
    ensures r.midPosition == s.midPosition && r.midLookAt == s.midLookAt
  {
    s.(lerpFactor := 0.0, phase := One,
       targetPosition := targetPosition, targetLookAt := targetLookAt,
       prevTargetPos := s.cameraPosition, prevTargetLookAt := s.cameraPosition,
       currentLookAt := s.cameraPosition, isAnimating := true)
  }

  /** The targets and waypoints of `r` are those of `s`. */
  predicate SameTargets(r: Animator, s: Animator) {
    r.targetPosition == s.targetPosition && r.targetLookAt == s.targetLookAt &&
    r.midPosition == s.midPosition && r.midLookAt == s.midLookAt
  }

  /** One frame of `delta` seconds. */
  function FrameStep(s: Animator, delta: real): (r: Animator)
    ensures !s.isAnimating ==> r == s
    ensures SameTargets(r, s)
    ensures delta >= 0.0 && 0.0 <= s.lerpFactor <= 1.0 ==> 0.0 <= r.lerpFactor <= 1.0
    // phases only move forward, and progress never falls within a phase
    ensures s.phase == Two ==> r.phase == Two
    ensures delta >= 0.0 && s.lerpFactor <= 1.0 && r.phase == s.phase ==> r.lerpFactor >= s.lerpFactor
    // an animated frame points the camera at the interpolated look-at
    ensures s.isAnimating ==> r.cameraLook == r.currentLookAt
    // the switch to phase two restarts progress from the current pose
    ensures s.phase == One && r.phase == Two ==>
      r.isAnimating && r.lerpFactor == 0.0 &&
      r.prevTargetPos == r.cameraPosition && r.prevTargetLookAt == r.currentLookAt
    // completion happens only in phase two and lands exactly on the target
    ensures s.isAnimating && !r.isAnimating ==>
      s.phase == Two && r.cameraPosition == s.targetPosition &&
      r.cameraLook == s.targetLookAt && r.currentLookAt == s.targetLookAt
    // once progress reaches 1 the leg is over
    ensures s.isAnimating && s.lerpFactor + delta * Rate >= 1.0 ==>
      if s.phase == One then r.phase == Two else !r.isAnimating
  {
    if !s.isAnimating then s
    else
      var lf := Min(s.lerpFactor + delta * Rate, 1.0);
      var t := EaseOutQuad(lf);
      match s.phase
      case One =>
        var newPos := LerpVector3(s.prevTargetPos, s.midPosition, t);
        var newLookAt := LerpVector3(s.prevTargetLookAt, s.midLookAt, t);
        var moved := s.(cameraPosition := newPos, currentLookAt := newLookAt, cameraLook := newLookAt);
        if t >= Arrival then
          moved.(lerpFactor := 0.0, phase := Two, prevTargetPos := newPos, prevTargetLookAt := newLookAt)
        else
          moved.(lerpFactor := lf)
      case Two =>
        if t >= Arrival then
          s.(lerpFactor := lf, cameraPosition := s.targetPosition,
             currentLookAt := s.targetLookAt, cameraLook := s.targetLookAt, isAnimating := false)
        else
          var newPos := LerpVector3(s.cameraPosition, s.targetPosition, t);
          var newLookAt := LerpVector3(s.currentLookAt, s.targetLookAt, t);
          s.(lerpFactor := lf, cameraPosition := newPos, currentLookAt := newLookAt, cameraLook := newLookAt)
  }

  /** Each animated frame moves the camera along its leg: in phase one on the
      segment from the captured start to the mount-time midpoint, in phase two
      on the segment from the live pose to the target. */
  lemma FrameFollowsLeg(s: Animator, delta: real)
    requires s.isAnimating && delta >= 0.0 && 0.0 <= s.lerpFactor <= 1.0
    ensures s.phase == One ==>
      BetweenVec(FrameStep(s, delta).cameraPosition, s.prevTargetPos, s.midPosition) &&
      BetweenVec(FrameStep(s, delta).currentLookAt, s.prevTargetLookAt, s.midLookAt)
    ensures s.phase == Two ==>
      BetweenVec(FrameStep(s, delta).cameraPosition, s.cameraPosition, s.targetPosition) &&
      BetweenVec(FrameStep(s, delta).currentLookAt, s.currentLookAt, s.targetLookAt)
  {
    var lf := Min(s.lerpFactor + delta * Rate, 1.0);
    var t := EaseOutQuad(lf);
    assert 0.0 <= t <= 1.0;
    if s.phase == One {
      LerpVector3Between(s.prevTargetPos, s.midPosition, t);
      LerpVector3Between(s.prevTargetLookAt, s.midLookAt, t);
    } else {
      LerpVector3Between(s.cameraPosition, s.targetPosition, t);
      LerpVector3Between(s.currentLookAt, s.targetLookAt, t);
      LerpVector3Between(s.cameraPosition, s.targetPosition, 1.0);
      LerpVector3Between(s.currentLookAt, s.targetLookAt, 1.0);
    }
  }

  /** A leg ends exactly on the frame whose eased progress `t` reaches
      `Arrival`. Until then, and on the frame that switches to phase two, the
      camera and its look-at are still the fraction `1 - t` of the leg away
      from the leg's end; at the switch that fraction is at most
      `1 - Arrival`. */
  lemma LegEndsAtArrival(s: Animator, delta: real)
    requires s.isAnimating && delta >= 0.0 && 0.0 <= s.lerpFactor <= 1.0
    ensures var t := EaseOutQuad(Min(s.lerpFactor + delta * Rate, 1.0)); var r := FrameStep(s, delta);
      && 0.0 <= 1.0 - t <= 1.0
      && (s.phase == One ==>
            (r.phase == Two <==> t >= Arrival) &&
            (r.phase == Two ==> 1.0 - t <= 1.0 - Arrival) &&
            Remaining(r.cameraPosition, s.prevTargetPos, s.midPosition, 1.0 - t) &&
            Remaining(r.currentLookAt, s.prevTargetLookAt, s.midLookAt, 1.0 - t))
      && (s.phase == Two ==>
            (!r.isAnimating <==> t >= Arrival) &&
            (r.isAnimating ==>
               Remaining(r.cameraPosition, s.cameraPosition, s.targetPosition, 1.0 - t) &&
               Remaining(r.currentLookAt, s.currentLookAt, s.targetLookAt, 1.0 - t)))
  {
    var t := EaseOutQuad(Min(s.lerpFactor + delta * Rate, 1.0));
    if s.phase == One {
      LerpVector3Between(s.prevTargetPos, s.midPosition, t);
      LerpVector3Between(s.prevTargetLookAt, s.midLookAt, t);
    } else {
      LerpVector3Between(s.cameraPosition, s.targetPosition, t);
      LerpVector3Between(s.currentLookAt, s.targetLookAt, t);
    }
  }

  /** The frames whose callbacks receive the deltas `ds`, in order. */
  function Run(s: Animator, ds: seq<real>): Animator
    decreases |ds|
  {
    if ds == [] then s else Run(FrameStep(s, ds[0]), ds[1..])
  }

  /** The total time of a run of frames. */
  function Sum(ds: seq<real>): real
    decreases |ds|
  {
    if ds == [] then 0.0 else ds[0] + Sum(ds[1..])
  }

  /** Frame times are never negative. */
  predicate NonNegative(ds: seq<real>) {
    forall i :: 0 <= i < |ds| ==> ds[i] >= 0.0
  }

  lemma {:induction false} RunAppend(s: Animator, a: seq<real>, b: seq<real>)
    ensures Run(s, a + b) == Run(Run(s, a), b)
    decreases |a|
  {
    if a == [] {
      assert a + b == b;
    } else {
      assert (a + b)[1..] == a[1..] + b;
      RunAppend(FrameStep(s, a[0]), a[1..], b);
    }
  }

  /** After completion, frames change nothing, so completion is reported once. */
  lemma {:induction false} IdleRun(s: Animator, ds: seq<real>)
    requires !s.isAnimating
    ensures Run(s, ds) == s
    decreases |ds|
  {
    if ds != [] {
      IdleRun(FrameStep(s, ds[0]), ds[1..]);
    }
  }

  /** The camera stands exactly on the target of `s`, and motion is over. */
  predicate Arrived(r: Animator, s: Animator) {
    !r.isAnimating && r.cameraPosition == s.targetPosition &&
    r.cameraLook == s.targetLookAt && r.currentLookAt == s.targetLookAt
  }

  /** Phase two finishes, exactly on the target, once the frame times add up
      to a full unit of progress, however they are spread over the frames. */
  lemma {:induction false} FinishPhaseTwo(s: Animator, ds: seq<real>)
    requires s.isAnimating && s.phase == Two && 0.0 <= s.lerpFactor <= 1.0
    requires ds != [] && NonNegative(ds) && s.lerpFactor + Sum(ds) * Rate >= 1.0
    ensures Arrived(Run(s, ds), s) && SameTargets(Run(s, ds), s)
    decreases |ds|
  {
    var s1 := FrameStep(s, ds[0]);
    if !s1.isAnimating {
      IdleRun(s1, ds[1..]);
    } else {
      assert s.lerpFactor + ds[0] * Rate < 1.0;
      assert s1.lerpFactor == s.lerpFactor + ds[0] * Rate;
      assert s1.lerpFactor + Sum(ds[1..]) * Rate == s.lerpFactor + Sum(ds) * Rate;
      FinishPhaseTwo(s1, ds[1..]);
    }
  }

  /** In phase two (or after it), the state is still animating with valid
      progress, or has arrived on its target. */
  predicate ReadyOrDone(r: Animator, s: Animator) {
    SameTargets(r, s) &&
    ((r.isAnimating && r.phase == Two && 0.0 <= r.lerpFactor <= 1.0) || Arrived(r, s))
  }

  lemma {:induction false} StaysReadyOrDone(r: Animator, s: Animator, ds: seq<real>)
    requires ReadyOrDone(r, s) && NonNegative(ds)
    ensures ReadyOrDone(Run(r, ds), s)
    decreases |ds|
  {
    if ds != [] {
      StaysReadyOrDone(FrameStep(r, ds[0]), s, ds[1..]);
    }
  }

  /** Phase one ends within the frames whose times add up to a full unit of
      progress. */
  lemma {:induction false} FinishPhaseOne(s: Animator, ds: seq<real>)
    requires s.isAnimating && s.phase == One && 0.0 <= s.lerpFactor <= 1.0
    requires ds != [] && NonNegative(ds) && s.lerpFactor + Sum(ds) * Rate >= 1.0
    ensures ReadyOrDone(Run(s, ds), s)
    decreases |ds|
  {
    var s1 := FrameStep(s, ds[0]);
    if s1.phase == Two {
      StaysReadyOrDone(s1, s, ds[1..]);
    } else {
      assert s.lerpFactor + ds[0] * Rate < 1.0;
      assert s1.lerpFactor == s.lerpFactor + ds[0] * Rate;
      assert s1.lerpFactor + Sum(ds[1..]) * Rate == s.lerpFactor + Sum(ds) * Rate;
      FinishPhaseOne(s1, ds[1..]);
    }
  }

  /** A new target is reached exactly: once the frames after the retarget
      hold two stretches each worth a full unit of progress, however long the
      individual frames are, the camera stands on the requested position,
      looks at the requested point, and has stopped. */
  lemma RetargetArrives(s: Animator, targetPosition: Vec3, targetLookAt: Vec3, ds1: seq<real>, ds2: seq<real>)
    requires NonNegative(ds1) && NonNegative(ds2)
    requires Sum(ds1) * Rate >= 1.0 && Sum(ds2) * Rate >= 1.0
    ensures var r := Run(Retargeted(s, targetPosition, targetLookAt), ds1 + ds2);
      !r.isAnimating && r.cameraPosition == targetPosition && r.cameraLook == targetLookAt
  {
    var a := Retargeted(s, targetPosition, targetLookAt);
    RunAppend(a, ds1, ds2);
    FinishPhaseOne(a, ds1);
    var b := Run(a, ds1);
    if b.isAnimating {
      FinishPhaseTwo(b, ds2);
    } else {
      IdleRun(b, ds2);
    }
  }

  /** The component itself: its refs as fields, the live camera as a shared
      object it moves in place. */
  class CameraAnimator {
    const camera: Camera
    const hasOnComplete: bool
    var targetPosition: Vec3
    var targetLookAt: Vec3
    var midPosition: Vec3
    var midLookAt: Vec3
    var currentLookAt: Vec3
    var lerpFactor: real
    var prevTargetPos: Vec3
    var prevTargetLookAt: Vec3
    var isAnimating: bool
    var animationPhase: Phase

    ghost predicate Valid()
      reads this
    {
      0.0 <= lerpFactor <= 1.0
    }

    function State(): Animator
      reads this, camera
    {
      Animator(camera.position, camera.lookTarget, targetPosition, targetLookAt,
               midPosition, midLookAt, currentLookAt, lerpFactor,
               prevTargetPos, prevTargetLookAt, isAnimating, animationPhase)
    }

    constructor (camera: Camera, targetPosition: Vec3, targetLookAt: Vec3, hasOnComplete: bool)
      ensures this.camera == camera && this.hasOnComplete == hasOnComplete
      ensures Valid() && State() == Mount(camera.position, camera.lookTarget, targetPosition, targetLookAt)
    {
      this.camera := camera;
      this.hasOnComplete := hasOnComplete;
      this.targetPosition := targetPosition;
      this.targetLookAt := targetLookAt;
      midPosition := Scale(Add(targetPosition, targetLookAt), 0.5);
      midLookAt := Scale(Sub(targetLookAt, targetPosition), 0.5);
      currentLookAt := Vec3(0.0, 0.0, 0.0);
      lerpFactor := 0.0;
      prevTargetPos := targetPosition;
      prevTargetLookAt := targetLookAt;
      isAnimating := false;
      animationPhase := One;
    }

    method Retarget(newPosition: Vec3, newLookAt: Vec3)
      modifies this
      ensures Valid() && State() == Retargeted(old(State()), newPosition, newLookAt)
    {
      lerpFactor := 0.0;
      animationPhase := One;
      targetPosition := newPosition;
      targetLookAt := newLookAt;
      prevTargetPos := camera.position;
      prevTargetLookAt := camera.position;
      currentLookAt := camera.position;
      isAnimating := true;
    }

    method Frame(delta: real) returns (calledOnComplete: bool)
      requires Valid() && delta >= 0.0
      modifies this, camera
      ensures Valid() && State() == FrameStep(old(State()), delta)
      ensures calledOnComplete == (hasOnComplete && old(isAnimating) && !isAnimating)
    {
      calledOnComplete := false;
      if !isAnimating {
        return;
      }
      lerpFactor := Min(lerpFactor + delta * Rate, 1.0);
      var t := EaseOutQuad(lerpFactor);
      if animationPhase == One {
        camera.position := LerpVector3(prevTargetPos, midPosition, t);
        currentLookAt := LerpVector3(prevTargetLookAt, midLookAt, t);
        camera.lookTarget := currentLookAt;
        if t >= Arrival {
          lerpFactor := 0.0;
          animationPhase := Two;
          prevTargetPos := camera.position;
          prevTargetLookAt := currentLookAt;
        }
      } else {
        camera.position := LerpVector3(camera.position, targetPosition, t);
        currentLookAt := LerpVector3(currentLookAt, targetLookAt, t);
        camera.lookTarget := currentLookAt;
        if t >= Arrival {
          camera.position := targetPosition;
          currentLookAt := targetLookAt;
          camera.lookTarget := currentLookAt;
          isAnimating := false;
          calledOnComplete := hasOnComplete;
        }
      }
    }
  }
}
