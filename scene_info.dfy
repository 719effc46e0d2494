/** The scene-info component: a per-frame camera follower that eases the live
    camera toward a target pose held in a ref, the entry point that replaces
    that target, and the change gates that keep camera and model info from
    being stored again when nothing moved. */
module SceneInfo {
  import opened Three
  import opened Easing

  /** Frame time is scaled by this before easing. */
  const FollowRate: real := 1.2

  datatype CameraInfo = CameraInfo(position: Vec3, fov: real, lookAt: Vec3)

  /** A Three.js `Euler`: three angles and the axis order. */
  datatype Euler = Euler(x: real, y: real, z: real, order: string)

  datatype ModelInfo = ModelInfo(position: Vec3, rotation: Euler, scale: Vec3)

  const InitialTarget: Pose := Pose(Vec3(-6.774, 0.835, 6.782), Vec3(0.0, 0.0, 7.0))
  const InitialCameraInfo: CameraInfo := CameraInfo(Vec3(-6.774, 0.835, 6.782), 45.0, Vec3(0.0, 0.0, 0.0))
  const InitialSceneModelInfo: ModelInfo :=
    ModelInfo(Vec3(0.0, 0.0, -10.0), Euler(0.0, 0.0, 0.0, "XYZ"), Vec3(0.02, 0.02, 0.02))
  const InitialLastModelInfo: ModelInfo :=
    ModelInfo(Vec3(0.0, -1.0, -10.0), Euler(0.0, 0.0, 0.0, "XYZ"), Vec3(0.02, 0.02, 0.02))

  /** The eased blend factor of one frame: `1 - (1 - min(delta * 1.2, 1))^3`. */
  function FollowFactor(delta: real): (t: real)
    ensures delta >= 0.0 ==> 0.0 <= t <= 1.0
    ensures delta * FollowRate >= 1.0 ==> t == 1.0
    ensures delta == 0.0 ==> t == 0.0
  {
    EaseOutCubic(Min(delta * FollowRate, 1.0))
  }

  /** A longer frame never blends less. */
  lemma FollowFactorMonotone(d1: real, d2: real)
    requires 0.0 <= d1 <= d2
    ensures FollowFactor(d1) <= FollowFactor(d2)
  {
    EaseOutMonotone(Min(d1 * FollowRate, 1.0), Min(d2 * FollowRate, 1.0));
  }

  /** Where one frame moves a coordinate triple toward its target: on the
      segment between the two, and onto the target once a frame is long
      enough that `delta * 1.2 >= 1`. */
  function FollowStep(current: Vec3, target: Vec3, delta: real): (r: Vec3)
    ensures delta >= 0.0 ==> BetweenVec(r, current, target)
    ensures delta * FollowRate >= 1.0 ==> r == target
    ensures delta == 0.0 ==> r == current
  {
    var t := FollowFactor(delta);
    if delta >= 0.0 then
      LerpVector3Between(current, target, t);
      LerpVector3Between(current, target, 1.0);
      LerpVector3(current, target, t)
    else
      LerpVector3Between(current, target, 1.0);
      LerpVector3(current, target, t)
  }

  /** The follower closes the remaining gap on each coordinate by the factor
      `1 - t`; it never overshoots. */
  lemma FollowStepShrinksGap(current: Vec3, target: Vec3, delta: real)
    requires delta >= 0.0
    ensures var r := FollowStep(current, target, delta); var k := 1.0 - FollowFactor(delta);
      r.x - target.x == k * (current.x - target.x) &&
      r.y - target.y == k * (current.y - target.y) &&
      r.z - target.z == k * (current.z - target.z)
  {
    var t := FollowFactor(delta);
    LerpBetween(current.x, target.x, t);
    LerpBetween(current.y, target.y, t);
    LerpBetween(current.z, target.z, t);
  }

  /** The onInfoUpdate calls the model's frame step makes over a run of
      frames whose group transforms are `frames`, starting from `last`. */
  function Notifications(last: ModelInfo, frames: seq<ModelInfo>): (r: seq<ModelInfo>)
    ensures |r| <= |frames|
    decreases |frames|
  {
    if frames == [] then []
    else if frames[0] != last then [frames[0]] + Notifications(frames[0], frames[1..])
    else Notifications(last, frames[1..])
  }

  /** Over a run of frames the model reports only transforms it saw, never the
      same one twice in a row, and ends with the last frame's on record. */
  lemma {:induction false} NotificationsShape(last: ModelInfo, frames: seq<ModelInfo>)
    ensures var r := Notifications(last, frames);
      && (forall i :: 0 <= i < |r| ==> r[i] in frames)
      // the first call reports a real change, and no call repeats the one before
      && (|r| > 0 ==> r[0] != last)
      && (forall i :: 0 < i < |r| ==> r[i] != r[i - 1])
      // the last value reported (or `last`, if none) is the last frame's
      && (|frames| > 0 ==> LastReported(last, r) == frames[|frames| - 1])
    decreases |frames|
  {
    if frames != [] {
      var f, rest := frames[0], frames[1..];
      NotificationsShape(if f != last then f else last, rest);
      var later := Notifications(if f != last then f else last, rest);
      assert forall x :: x in rest ==> x in frames;
      if f != last {
        var r := [f] + later;
        assert forall i :: 0 < i < |r| ==> r[i] == later[i - 1];
      }
    }
  }

  /** `Notifications` is what `Model.Frame` does frame after frame: a frame
      whose transform differs from the last recorded one reports it, any
      frame records its transform, and the run goes on from there. */
  lemma NotificationsFollowFrames(last: ModelInfo, f: ModelInfo, rest: seq<ModelInfo>)
    ensures Notifications(last, [f] + rest) ==
      (if f != last then [f] else []) + Notifications(f, rest)
  {
    assert ([f] + rest)[1..] == rest;
  }

  function LastReported(last: ModelInfo, reports: seq<ModelInfo>): ModelInfo {
    if |reports| > 0 then reports[|reports| - 1] else last
  }

  /** The component's state: the target ref, the stored camera and model info,
      and whether its `__updateCamera` entry point has been installed. */
  class SceneInfo {
    const camera: Camera
    const hasTargetListener: bool
    var targetCamera: Pose
    var cameraInfo: CameraInfo
    var modelInfo: ModelInfo
    var bridgeInstalled: bool

    constructor (camera: Camera, hasTargetListener: bool)
      ensures this.camera == camera && this.hasTargetListener == hasTargetListener
      ensures targetCamera == InitialTarget && cameraInfo == InitialCameraInfo
      ensures modelInfo == InitialSceneModelInfo && !bridgeInstalled
    {
      this.camera := camera;
      this.hasTargetListener := hasTargetListener;
      targetCamera := InitialTarget;
      cameraInfo := InitialCameraInfo;
      modelInfo := InitialSceneModelInfo;
      bridgeInstalled := false;
    }

    /** One frame: move the camera toward the target, look toward the eased
        look-at, and store the camera info only if position or look-at moved. */
    method Frame(delta: real) returns (infoStored: bool)
      requires delta >= 0.0
      modifies camera, this`cameraInfo
      ensures !camera.isPerspective ==> unchanged(camera) && cameraInfo == old(cameraInfo) && !infoStored
      ensures camera.isPerspective ==>
        camera.position == FollowStep(old(camera.position), targetCamera.position, delta) &&
        camera.lookTarget == FollowStep(old(cameraInfo.lookAt), targetCamera.lookAt, delta)
      ensures infoStored <==> (camera.isPerspective &&
        (camera.position != old(cameraInfo.position) || camera.lookTarget != old(cameraInfo.lookAt)))
      ensures cameraInfo == if infoStored then CameraInfo(camera.position, camera.fov, camera.lookTarget) else old(cameraInfo)
      // whether or not it was stored, the info now matches the camera
      ensures camera.isPerspective ==>
        cameraInfo.position == camera.position && cameraInfo.lookAt == camera.lookTarget
    {
      infoStored := false;
      if camera.isPerspective {
        var newPosition := FollowStep(camera.position, targetCamera.position, delta);
        var newLookAt := FollowStep(cameraInfo.lookAt, targetCamera.lookAt, delta);
        camera.position := newPosition;
        camera.lookTarget := newLookAt;
        var positionChanged := newPosition != cameraInfo.position;
        var lookAtChanged := newLookAt != cameraInfo.lookAt;
        if positionChanged || lookAtChanged {
          cameraInfo := CameraInfo(newPosition, camera.fov, newLookAt);
          infoStored := true;
        }
      }
    }

    /** `updateCamera`: replace the target and tell the listener. */
    method UpdateCamera(position: Vec3, lookAt: Vec3) returns (notified: Option<Pose>)
      modifies this`targetCamera
      ensures targetCamera == if camera.isPerspective then Pose(position, lookAt) else old(targetCamera)
      ensures notified == if camera.isPerspective && hasTargetListener then Some(Pose(position, lookAt)) else None
    {
      notified := None;
      if camera.isPerspective {
        targetCamera := Pose(position, lookAt);
        if hasTargetListener {
          notified := Some(targetCamera);
        }
      }
    }

    /** The mount effect: install `__updateCamera` and report the current target. */
    method PublishTarget() returns (notified: Option<Pose>)
      modifies this`bridgeInstalled
      ensures bridgeInstalled
      ensures notified == if hasTargetListener then Some(targetCamera) else None
    {
      bridgeInstalled := true;
      notified := if hasTargetListener then Some(targetCamera) else None;
    }

    /** `handleModelUpdate`: store the reported model info only if it differs. */
    method HandleModelUpdate(info: ModelInfo) returns (stored: bool)
      modifies this`modelInfo
      ensures stored <==> info != old(modelInfo)
      ensures modelInfo == info
    {
      var hasPositionChanged := info.position != modelInfo.position;
      var hasRotationChanged := info.rotation != modelInfo.rotation;
      var hasScaleChanged := info.scale != modelInfo.scale;
      stored := hasPositionChanged || hasRotationChanged || hasScaleChanged;
      if stored {
        modelInfo := info;
      }
    }
  }

  /** The model child component's record of the last transform it reported. */
  class Model {
    var lastModelInfo: ModelInfo

    constructor ()
      ensures lastModelInfo == InitialLastModelInfo
    {
      lastModelInfo := InitialLastModelInfo;
    }

    /** One frame: if the group exists and its transform differs from the last
        one recorded, record it and report it through `onInfoUpdate`. */
    method Frame(group: Option<ModelInfo>) returns (reported: Option<ModelInfo>)
      modifies this
      ensures reported == if group.Some? && group.value != old(lastModelInfo) then group else None
      ensures lastModelInfo == if group.Some? then group.value else old(lastModelInfo)
    {
      reported := None;
      if group.Some? {
        var info := group.value;
        if info.position != lastModelInfo.position ||
           info.rotation != lastModelInfo.rotation ||
           info.scale != lastModelInfo.scale {
          lastModelInfo := info;
          reported := Some(info);
        }
      }
    }
  }

  /** One more frame of the run: the reports so far, followed by what frame
      `i` reports, followed by the rest of the run from that frame's
      transform, are the reports so far followed by the run from frame `i` on. */
  lemma ReportStep(reports: seq<ModelInfo>, last: ModelInfo, frames: seq<ModelInfo>, i: nat,
                   reported: Option<ModelInfo>)
    requires i < |frames|
    requires reported == if frames[i] != last then Some(frames[i]) else None
    ensures reports + Notifications(last, frames[i..]) ==
      (reports + if reported.Some? then [reported.value] else []) + Notifications(frames[i], frames[i + 1..])
  {
    var f, rest := frames[i], frames[i + 1..];
    assert frames[i..] == [f] + rest;
    NotificationsFollowFrames(last, f, rest);
    var later := Notifications(f, rest);
    if f != last {
      assert reports + ([f] + later) == (reports + [f]) + later;
    } else {
      assert reports + [] == reports;
    }
  }

  /** Successive frames of the model component, each seeing the group's
      transform from `frames`: the `onInfoUpdate` calls they make, in order,
      are `Notifications` of the transform recorded before the first frame. */
  method RunFrames(m: Model, frames: seq<ModelInfo>) returns (reports: seq<ModelInfo>)
    modifies m
    ensures reports == Notifications(old(m.lastModelInfo), frames)
    ensures |frames| > 0 ==> m.lastModelInfo == frames[|frames| - 1]
  {
    reports := [];
    var i := 0;
    while i < |frames|
      invariant 0 <= i <= |frames|
      invariant reports + Notifications(m.lastModelInfo, frames[i..]) == Notifications(old(m.lastModelInfo), frames)
      invariant i > 0 ==> m.lastModelInfo == frames[i - 1]
    {
      var last := m.lastModelInfo;
      var reported := m.Frame(Some(frames[i]));
      ReportStep(reports, last, frames, i, reported);
      reports := reports + if reported.Some? then [reported.value] else [];
      i := i + 1;
    }
  }
}
