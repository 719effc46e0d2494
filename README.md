# Story-scene core, modelled in Dafny

The application is a single-page 3D story built with React and three.js. A camera
tours three fixed viewpoints on a 25 s interval, and a typewriter caption
appears for each view. After the last view a "continue" button appears. Clicking
it sends the camera to a final pose and ramps the fog in over 5 s. Background
music fades in and out in twenty volume steps. A white overlay can fade the
screen to white over 2 s.

This project models the logic behind that behaviour, one Dafny module per
source component:

| module | file | models |
|---|---|---|
| `Three` | `three.dfy` | the three.js values used: 3-vectors, poses, the camera object |
| `Easing` | `easing.dfy` | `lerp` / `lerpVector3`, `Math.min`, the two ease-out curves |
| `CameraAnimation` | `camera_animation.dfy` | the two-phase camera animator of `CameraAnimation.tsx` |
| `SceneInfo` | `scene_info.dfy` | the camera follower, the `__updateCamera` entry point and the change gates of `SceneInfo.tsx` |
| `App` | `app.dfy` | the view sequencer and its timers, the camera-request effect, the finale and the fog ramp of `App.tsx` |
| `BackgroundMusic` | `background_music.dfy` | `fadeVolume` and its interval |
| `TextOverlay` | `text_overlay.dfy` | the typewriter of `TextOverlay.tsx` |
| `WhiteFadeEffect` | `white_fade.dfy` | the white overlay and its animation loop |

Most stateful components are modelled twice:
- As a `class`, whose fields are the component's refs and state, with one
  method per effect, timer callback or frame callback.
- As a pure specification: a datatype holding the same fields, and one
  function per transition.

This holds for `CameraAnimation`, the sequencer of `App`, `BackgroundMusic`,
`TextOverlay` and `WhiteFadeEffect`. Each of their methods' `ensures` states
that the new state is the specification function applied to the old state,
and the properties are proved about those functions, as their own `ensures`
and as lemmas over runs of many events. Three classes have no specification
datatype: `SceneInfo.SceneInfo`, `SceneInfo.Model` and `App.FogRamp`. Their
methods' `ensures` state the new fields and the results directly, in terms of
the pure functions of their modules, such as `FollowStep` and `FogAt`.

Time is handled as follows:
- Timers are events. A method per callback runs when the timer fires, and a
  cleared timer never fires.
- The clock is a parameter: `delta` in seconds for a render frame, and elapsed
  or current milliseconds for the time-based ramps.
- Whether `window.__updateCamera` and `window.__updateFog` are installed is a
  boolean parameter.

Three places where the code does something other than what one might read into
its comments or names. The model follows the code in each:
- The mid-point look-at of `CameraAnimation` is half the vector from the
  position to the look-at. It is not a point between the two.
- The finale passes a waypoint object as a third argument, but the installed
  `__updateCamera` only takes a position and a look-at, so the waypoint is
  dropped.
- The 500 ms "continue" button timeout is armed by the tick past the last view,
  not after the caption fades out. It is also not cancelled when the sequencer
  is torn down.

## Model

| member | source | states |
|---|---|---|
| `Easing.LerpEndpoints` | src/App.tsx:14-16 | lerp gives `start` at 0 and `end` at 1, and equals the three.js form `start + (end - start) * t` |
| `Easing.LerpBetween` | src/App.tsx:14-16 | for `t` in [0, 1] the result lies between `start` and `end`, and its distance to `end` is `(1 - t)` times the start's |
| `Easing.LerpVector3Between` | src/App.tsx:18-24 | the vector lerp stays in the box spanned by the two endpoints, and on each coordinate its distance to `end` is `(1 - t)` times the start's |
| `Easing.EaseOutQuad` | src/components/CameraAnimation.tsx:44 | `1 - (1 - x)^2` maps [0, 1] into [0, 1], 0 to 0 and 1 to 1 |
| `Easing.EaseOutCubic` | src/components/SceneInfo.tsx:191 | `1 - (1 - x)^3` maps [0, 1] into [0, 1], 0 to 0 and 1 to 1 |
| `Easing.EaseOutMonotone` | src/components/CameraAnimation.tsx:44 | both ease-out curves are monotone on [0, 1] |
| `CameraAnimation.Mount` | src/components/CameraAnimation.tsx:13-25 | the refs before the mount effect runs: not animating, phase 1, progress 0; `midPosition` is the midpoint of the initial position and look-at; `midLookAt` is half their difference. The mount effect that follows the first render is `Retargeted` with the initial props |
| `CameraAnimation.Retargeted` | src/components/CameraAnimation.tsx:28-37 | new targets start phase 1 from progress 0; the leg starts at the live camera position, which is also used for the look-at; the camera does not jump and the mount-time waypoints stay |
| `CameraAnimation.FrameStep` | src/components/CameraAnimation.tsx:39-78 | an idle frame changes nothing; progress stays in [0, 1] and never falls within a phase; phases only advance; phase 2 starts from the current pose; completion happens only in phase 2 and lands exactly on the target; a frame that brings progress to 1 ends its leg |
| `CameraAnimation.FrameFollowsLeg` | src/components/CameraAnimation.tsx:46-64 | each animated frame puts the camera between its leg's start and its leg's goal |
| `CameraAnimation.LegEndsAtArrival` | src/components/CameraAnimation.tsx:43-76 | a leg ends (phase 1 switches to phase 2, phase 2 stops) exactly on the frame whose eased progress `t` reaches 0.999; until then, and on the switch, camera and look-at are still the fraction `1 - t` of the leg away from its end, which at the switch is at most 0.001 |
| `CameraAnimation.IdleRun` | src/components/CameraAnimation.tsx:40 | after completion any run of frames, of any lengths, leaves the state unchanged, so completion is reported once |
| `CameraAnimation.FinishPhaseOne` | src/components/CameraAnimation.tsx:43-60 | a non-empty run of frames whose deltas, each of its own length, add up to a full unit of progress finishes phase 1, leaving phase 2 under way or done |
| `CameraAnimation.FinishPhaseTwo` | src/components/CameraAnimation.tsx:61-76 | a non-empty run of frames whose deltas, each of its own length, add up to a full unit of progress finishes phase 2 exactly on the target |
| `CameraAnimation.StaysReadyOrDone` | src/components/CameraAnimation.tsx:61-76 | from phase 2, frames of any non-negative lengths keep the animator either in phase 2 with valid progress or arrived on target |
| `CameraAnimation.RetargetArrives` | src/components/CameraAnimation.tsx:28-76 | after a retarget, frames of varying non-negative lengths that make up two stretches, each adding up to `1 / 0.8` seconds or more, leave the camera stopped exactly on the requested position and looking at the requested point |
| `CameraAnimation.CameraAnimator.constructor` | src/components/CameraAnimation.tsx:11-25 | the refs are initialised as `Mount` says |
| `CameraAnimation.CameraAnimator.Retarget` | src/components/CameraAnimation.tsx:28-37 | the effect changes the refs as `Retargeted` says |
| `CameraAnimation.CameraAnimator.Frame` | src/components/CameraAnimation.tsx:39-78 | the frame moves camera and refs as `FrameStep` says, and calls `onAnimationComplete` exactly on the frame that stops the animation |
| `SceneInfo.FollowFactor` | src/components/SceneInfo.tsx:189-191 | the follower's blend is in [0, 1], 0 for an empty frame, and 1 once `delta * 1.2 >= 1` |
| `SceneInfo.FollowFactorMonotone` | src/components/SceneInfo.tsx:189-191 | a longer frame never blends less |
| `SceneInfo.FollowStep` | src/components/SceneInfo.tsx:193-202 | one follow step lands between the current and the target vector, on the target once `delta * 1.2 >= 1`, and stays put for an empty frame |
| `SceneInfo.FollowStepShrinksGap` | src/components/SceneInfo.tsx:193-202 | each coordinate's remaining gap to the target is multiplied by `1 - t`, so it never overshoots |
| `SceneInfo.NotificationsShape` | src/components/SceneInfo.tsx:86-104 | over a run of frames the model reports only transforms it saw, the first differing from the one on record and each differing from the one before, and its record ends at the last frame's transform |
| `SceneInfo.RunFrames` | src/components/SceneInfo.tsx:86-106 | calling `Model.Frame` on each frame's transform in turn makes exactly the `onInfoUpdate` calls `Notifications` lists, in order, and leaves the last frame's transform recorded |
| `SceneInfo.SceneInfo.constructor` | src/components/SceneInfo.tsx:150-166 | the initial model info, camera info and target pose |
| `SceneInfo.SceneInfo.Frame` | src/components/SceneInfo.tsx:186-221 | a perspective camera moves by `FollowStep` toward the target and looks toward the eased look-at; the info is stored if and only if position or look-at changed; afterwards the info matches the camera |
| `SceneInfo.SceneInfo.UpdateCamera` | src/components/SceneInfo.tsx:223-231 | a perspective camera's target is replaced and the listener told; otherwise nothing happens |
| `SceneInfo.SceneInfo.PublishTarget` | src/components/SceneInfo.tsx:233-239 | the entry point is installed and the current target reported to the listener |
| `SceneInfo.SceneInfo.HandleModelUpdate` | src/components/SceneInfo.tsx:168-180 | the reported model info is stored if and only if it differs from the stored one |
| `SceneInfo.Model.constructor` | src/components/SceneInfo.tsx:30-34 | the last reported transform starts at position (0, -1, -10) |
| `SceneInfo.Model.Frame` | src/components/SceneInfo.tsx:86-106 | the group's transform is recorded and reported if and only if it differs from the last one recorded |
| `App.Start` | src/App.tsx:244-280 | the sequencer starts on view 0 with the caption on and a 15 s fade-out, the button hidden and the interval armed |
| `App.Apply` | src/App.tsx:244-286 | every timer event keeps the sequencer valid; the view index never falls and moves by one only on a tick; the tick past the last view stops the interval and arms the button timeout; the button appears only through that timeout; the caption goes on only with an advance and off only through its fade-out; teardown clears the interval and the fade-out |
| `App.RequestsOncePerView` | src/App.tsx:257-293 | over any run of events, each view after the current one up to the final one has its pose requested exactly once, in order |
| `App.NoSwitchingNoRequests` | src/App.tsx:260-264 | once the interval is cleared, no further event moves the view or requests a pose |
| `App.StartToEnd` | src/App.tsx:238-286 | from mount, two ticks reach the last view, the third stops the interval and arms the button timeout, and views 1 and 2 are requested |
| `App.FogProgress` | src/App.tsx:316-320 | the fog progress is in [0, 1] and below 1 exactly while less than 5 s have passed |
| `App.FogAt` | src/App.tsx:318-325 | the fog distances stay within near [0, 10] and far [1, 100]; they start at (10, 100) and end at (0, 1) from 5 s on |
| `App.FogHalfway` | src/App.tsx:321-325 | at 2.5 s the fog is at (5, 50.5) |
| `App.FogMonotone` | src/App.tsx:318-325 | both fog distances only shrink as time passes |
| `App.FogRamp.constructor` | src/App.tsx:441-443 | the scene fog starts black, near 10, far 100 |
| `App.FogRamp.Sample` | src/App.tsx:318-328 | one sample sets white fog at `FogAt(elapsed)` and requests another frame exactly while progress is below 1 |
| `App.FogRamp.Start` | src/App.tsx:314-332 | without `__updateFog` nothing happens; with it the ramp takes its first sample at once |
| `App.FogRamp.Frame` | src/App.tsx:326-328 | a frame reaches only a loop that requested it; there it sets white fog at `FogAt(elapsed)` and asks for another frame exactly while less than 5 s have passed |
| `App.StoryApp.constructor` | src/App.tsx:244-293 | mount starts the sequencer as `Start` says and requests view 0 if the entry point is installed |
| `App.StoryApp.SwitchTick` | src/App.tsx:257-293 | the tick changes the sequencer as `Apply` says and requests the new view's pose exactly when the index changed |
| `App.StoryApp.FadeOutFires` | src/App.tsx:252-255 | the caption fade-out switches the caption off |
| `App.StoryApp.ButtonTimeoutFires` | src/App.tsx:263 | the 500 ms timeout shows the button |
| `App.StoryApp.Teardown` | src/App.tsx:282-285 | teardown clears the interval and the fade-out |
| `App.StoryApp.NewButtonClick` | src/App.tsx:334-339 | the click hides the button, requests the final pose, and starts the fog ramp: white fog at near 10, far 100, with the next frame requested |
| `BackgroundMusic.VolumeAt` | src/App.tsx:39-60 | after `k` steps the volume is `start` at 0, `end` from step 20 on, and always between the two |
| `BackgroundMusic.VolumeAtStep` | src/App.tsx:47-60 | each firing before the twentieth adds one twentieth of the way from `start` to `end`; later firings leave the volume at `end` |
| `BackgroundMusic.VolumeAtMonotone` | src/App.tsx:47-60 | each step moves the volume toward `end`, never back |
| `BackgroundMusic.FadeStarted` | src/App.tsx:34-47 | a fade sets the volume to `start` and arms a fresh interval at step 0 |
| `BackgroundMusic.Fired` | src/App.tsx:47-61 | a cleared interval never fires; before step 20 the volume is `VolumeAt`; at step 20 it is exactly `end`, the interval stops, and playback pauses if `end` is 0 |
| `BackgroundMusic.FiredTimesIdle` | src/App.tsx:52-54 | once the interval is cleared, further firings change nothing |
| `BackgroundMusic.FadeInProgress` | src/App.tsx:47-61 | before the twentieth firing the fade is armed at step `k` with volume `VolumeAt(start, end, k)` |
| `BackgroundMusic.FadeLandsOnEnd` | src/App.tsx:47-61 | from the twentieth firing on the volume is exactly `end`, the interval is stopped, and playback is paused if and only if the fade went to 0 or it was paused already |
| `BackgroundMusic.VolumeFader.constructor` | src/App.tsx:29-31 | at mount no fade interval is armed; the audio element's volume and paused flag are as given |
| `BackgroundMusic.VolumeFader.FadeVolume` | src/App.tsx:34-47 | without an audio element nothing happens, the step time included; otherwise the fade starts as `FadeStarted` says with step time `duration / 20` |
| `BackgroundMusic.VolumeFader.IntervalFires` | src/App.tsx:47-61 | one firing changes the fade as `Fired` says and keeps the step time |
| `TextOverlay.Mounted` | src/components/TextOverlay.tsx:21-25 | both lines start empty and invisible |
| `TextOverlay.Cleanup` | src/components/TextOverlay.tsx:77-84 | cleanup cancels the initial delay and the pending typewriter step and keeps the text |
| `TextOverlay.EffectRun` | src/components/TextOverlay.tsx:27-75 | activation shows the overlay with both lines empty and arms the 2 s delay; deactivation hides it and keeps the text; both keep the displayed lines prefixes of their strings |
| `TextOverlay.DelayFired` | src/components/TextOverlay.tsx:65-72 | the end of the 2 s delay schedules the first title step |
| `TextOverlay.TypewriterStep` | src/components/TextOverlay.tsx:38-63 | a step adds at most one character and keeps each line a prefix of its string; the body starts only after the whole title; with the body complete typing stops |
| `TextOverlay.TypesTitle` | src/components/TextOverlay.tsx:38-45 | `k` title steps show the next `k` characters of the title |
| `TextOverlay.TypesBody` | src/components/TextOverlay.tsx:54-62 | `k` body steps show the next `k` characters of the body |
| `TextOverlay.TitleTyped` | src/components/TextOverlay.tsx:38-52 | one step more than the title's length show the whole title and hand over to the body |
| `TextOverlay.BodyTyped` | src/components/TextOverlay.tsx:54-63 | one step more than the body's length show the whole body and stop |
| `TextOverlay.TypesFromStart` | src/components/TextOverlay.tsx:38-63 | from the first title step with both lines empty, as many steps as the two lengths plus 2 type both lines in full and leave nothing pending |
| `TextOverlay.TypesInFull` | src/components/TextOverlay.tsx:27-75 | after activation and the 2 s delay, as many steps as the two lengths plus 2 show the whole title and body, fully visible, with nothing pending |
| `TextOverlay.TextOverlay.constructor` | src/components/TextOverlay.tsx:21-25 | the component starts as `Mounted` says |
| `TextOverlay.TextOverlay.Effect` | src/components/TextOverlay.tsx:27-85 | cleanup then the effect, as `EffectRun` says |
| `TextOverlay.TextOverlay.Unmount` | src/components/TextOverlay.tsx:77-84 | the cleanup, as `Cleanup` says |
| `TextOverlay.TextOverlay.InitialDelayFires` | src/components/TextOverlay.tsx:65-72 | the delay's callback, as `DelayFired` says |
| `TextOverlay.TextOverlay.TypewriterFires` | src/components/TextOverlay.tsx:38-63 | `typeTitle` / `typeBody`, as `TypewriterStep` says |
| `WhiteFadeEffect.FadeProgress` | src/components/WhiteFadeEffect.tsx:44-45 | progress is at most 1, not negative for non-negative time, and equal to 1 exactly from 2 s on |
| `WhiteFadeEffect.FadeProgressMonotone` | src/components/WhiteFadeEffect.tsx:44-45 | progress never falls as time passes |
| `WhiteFadeEffect.SceneAdded` | src/components/WhiteFadeEffect.tsx:16-31 | the overlay is created transparent and added to the scene only if none exists yet |
| `WhiteFadeEffect.SceneRemoved` | src/components/WhiteFadeEffect.tsx:33-37 | cleanup takes an existing overlay out of the scene and changes nothing else |
| `WhiteFadeEffect.RemountLeavesOverlayOut` | src/components/WhiteFadeEffect.tsx:16-38 | after a cleanup and a second run of the scene effect the overlay exists but is not in the scene |
| `WhiteFadeEffect.Activated` | src/components/WhiteFadeEffect.tsx:40-61 | activation records the start time, sets the opacity to 0 and starts one more loop; deactivation sets the opacity to 0 and stops no loop |
| `WhiteFadeEffect.FrameRan` | src/components/WhiteFadeEffect.tsx:43-55 | a frame with loops running sets the opacity to the progress since the start time, and stops every loop from 2 s on |
| `WhiteFadeEffect.CompletionsAt` | src/components/WhiteFadeEffect.tsx:51-55 | the callback is called in a frame only when a callback is given, a loop is running and 2 s have passed, at most once per loop |
| `WhiteFadeEffect.FadeInProgress` | src/components/WhiteFadeEffect.tsx:40-57 | a frame within 2 s of activation shows opacity `elapsed / 2000` below 1 and completes nothing |
| `WhiteFadeEffect.FadeCompletes` | src/components/WhiteFadeEffect.tsx:40-57 | the first frame from 2 s on shows full white, stops every loop and calls the callback once per loop |
| `WhiteFadeEffect.OpacityNeverFalls` | src/components/WhiteFadeEffect.tsx:43-52 | across successive frames of a running fade the opacity never falls |
| `WhiteFadeEffect.WhiteFade.constructor` | src/components/WhiteFadeEffect.tsx:12-13 | no overlay and no loop at first |
| `WhiteFadeEffect.WhiteFade.SceneEffect` | src/components/WhiteFadeEffect.tsx:16-31 | the scene effect, as `SceneAdded` says |
| `WhiteFadeEffect.WhiteFade.SceneCleanup` | src/components/WhiteFadeEffect.tsx:33-37 | its cleanup, as `SceneRemoved` says |
| `WhiteFadeEffect.WhiteFade.ActiveEffect` | src/components/WhiteFadeEffect.tsx:40-61 | the activation effect, as `Activated` says |
| `WhiteFadeEffect.WhiteFade.Animate` | src/components/WhiteFadeEffect.tsx:44-49 | `animate` writes the progress since the start time into an existing overlay's opacity |
| `WhiteFadeEffect.WhiteFade.Frame` | src/components/WhiteFadeEffect.tsx:43-55 | one animation frame, as `FrameRan` says, calling the callback `CompletionsAt` times |

## Left out

- Rendering, GLTF loading, the animation mixer, lights, OrbitControls (including
  the model's `onChange` report of the camera transform), and the JSX layout are
  not modelled. `CameraControls.tsx` and `InfoPanel.tsx` are not part of this
  model.
- Audio playback, autoplay and its retry on the first click, and the mute button
  are not modelled. Only `fadeVolume` and its interval are.
- Numbers are real numbers. The model ignores floating-point rounding, so the
  equalities it proves (a lerp at 1 equals its end, for instance) hold exactly
  here, but only up to rounding in the browser.
- React's scheduling is not modelled: state-update batching, lazily evaluated
  updater functions, and effects run twice under strict mode. Every state update
  takes effect when it is made, and every updater function runs at once.
- The two writers of the live camera interleave within one frame. They are the
  animator and the scene-info follower. Each is modelled on its own, and their
  order within a frame is not.
- `WhiteFadeEffect.Activated`: the `instanceof MeshBasicMaterial` check is taken
  as always true, because the overlay is always created with that material.
- `WhiteFadeEffect.FrameRan`: each loop captures the `onFadeComplete` of its own
  effect run. The model passes the current one to the frame, and all running
  loops share a single start time.
- `App.StoryApp.NewButtonClick`: `fadeActive` is never set to true by the app,
  so the white fade is modelled on its own and is not wired to the finale.
- Timer and frame delays (25 s, 15 s, 20 s, 500 ms, 100 ms per character) are
  the order of events, not a clock. The fade-out delay is kept as data.
- `TextOverlay.TypewriterStep`: the updaters passed to `setDisplayedTitle` and
  `setDisplayedBody` (src/components/TextOverlay.tsx:40-41, 56-57) read
  `titleIndex.current` or `bodyIndex.current`, and the very next statement
  increments that index. The model runs each updater before the increment. If
  React runs an updater later, at render, it reads the incremented index: that
  step appends the next character instead, skipping one, and the last step
  appends an empty string. The prefix invariant `Valid`, `TypesTitle`,
  `TypesBody` and `TypesInFull` hold only under the eager evaluation the model
  assumes.
- `TextOverlay.TypewriterStep`: strings are sequences of Unicode scalar values,
  while `length` and `charAt` in `TextOverlay.tsx` count UTF-16 code units. For
  text outside the Basic Multilingual Plane the component types half a
  surrogate pair per step, which the model does not show. The captions the app
  passes (src/App.tsx:223-236) are all inside that plane, so for them the two
  agree.
