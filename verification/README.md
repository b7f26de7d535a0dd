# Breathing-tree game logic, modelled in Dafny

This project models the logic beneath a Unity game. In the game, shoulder
motion from a pose detector drives a breathing exercise and a growing tree.
Each component is an immutable state record with pure transition functions
over `real`. Engine inputs are explicit parameters: `Time.time`,
`Time.deltaTime`, mouse axes, the MoveNet detection list and the scene
search result. Emitted C# events are boolean outputs.

| file | module | source |
|---|---|---|
| `mathf.dfy` | `Mathf` | the `UnityEngine.Mathf` helpers the code calls (`Clamp`, `Clamp01`, `Lerp`, `Min`, `Max`) |
| `dispatcher.dfy` | `Dispatcher` | `Assets/Kyu/Code/MainThreadDispatcher.cs` |
| `breathing_tracker.dfy` | `BreathingTracker` | `Assets/Scripts/MoveNet/BreathingTracker.cs` |
| `breath_tree.dfy` | `BreathTree` | `Assets/Kyu/Code/BreathTreeController.cs` |
| `tree_growth.dfy` | `TreeGrowth` | `Assets/Kyu/Code/TreeGrowthController.cs` |
| `orbit_camera.dfy` | `OrbitCamera` | `Assets/Kyu/Code/OrbitCamera.cs` |

- **Main-thread dispatcher.** The concurrent queue is a `seq` of opaque action ids. An
  action's behaviour is the list of `Enqueue` calls it makes while it runs (`None` is a
  null delegate). An id stands for one enqueued occurrence, not for one delegate object:
  a delegate that re-enqueues itself, or that behaves differently on a later run, is given
  a fresh id for each occurrence. `Drain` is `Update`'s loop, and it also runs actions that the running
  actions enqueue. Because an action can keep re-enqueueing, the loop need not end, so
  `Drain` takes a `fuel` bound on the number of actions it runs. `DrainFuelIrrelevant`
  shows that once a drain completes, the bound does not affect the result. The static
  `_instance`/`_isInitialized` pair is a `Binding`: `Instance`, `Initialize` and `Awake`
  are transitions of it, with the scene search and the created component as parameters.
- **Breathing tracker.** The tracker gates on keypoint count and confidence, takes the
  first sample as is and smooths later ones with a lerp, and keeps a 90-sample window.
  It fires when the window's depth passes a threshold and enough time has passed, then
  keeps the last 45 samples.
- **Breath/tree controller.** A ±0.002 dead band classifies inhale and exhale. The
  inhale frames' time accumulates across breaths: a short exhale does not reset it, and
  the exhale's own length is never read. The first exhale frame that finds the
  accumulated time at or above `inhaleTime` adds one to a meter and resets the time.
  Five meter points make one stage. The stage is clamped to the stage
  array, and exactly the current stage is shown.
- **Tree growth.** The target scale grows uniformly while its width is below three
  initial widths, and resets to the initial scale on a drop.
- **Orbit camera.** `ClampAngle` makes one ±360 correction and then clamps. `LateUpdate`
  updates yaw, pitch and zoom.

Two points where the dispatcher's code is stricter or looser than a general
cross-thread task queue would be, modelled as the code does it:

- There is no `try`/`catch` around `action?.Invoke()`, so an exception ends `Update`
  and the remaining actions wait for the next frame. The model has no failing actions.
- The loop re-checks `TryDequeue` after every action, so actions enqueued during a drain
  run in the same drain. `Drain` and `DrainRunsReentrantActions` state this.

## Model

| member | source | states |
|---|---|---|
| Dispatcher.Enqueue | Assets/Kyu/Code/MainThreadDispatcher.cs:76-82 | a null delegate leaves the queue unchanged; any other is appended at the tail and the queued actions keep their places |
| Dispatcher.EnqueueAll | Assets/Kyu/Code/MainThreadDispatcher.cs:76-82 | a series of `Enqueue` calls appends exactly the non-null delegates, in call order |
| Dispatcher.Drain | Assets/Kyu/Code/MainThreadDispatcher.cs:64-71 | the loop stops only on an empty queue; the actions run, followed by those still queued, equal the starting queue followed by everything the run actions enqueued (nothing lost, duplicated or reordered); no dequeue happens on an empty queue |
| Dispatcher.DrainCompletedRunsAll | Assets/Kyu/Code/MainThreadDispatcher.cs:67-70 | after `Update` returns, each action queued at the start has run exactly once, in order, followed by everything enqueued during the drain |
| Dispatcher.DrainFifo | Assets/Kyu/Code/MainThreadDispatcher.cs:67-70 | however far the drain gets, the actions it has run are a prefix of the starting queue, or extend the whole starting queue (FIFO) |
| Dispatcher.DrainRunsReentrantActions | Assets/Kyu/Code/MainThreadDispatcher.cs:67-70 | each action enqueued by a running action runs later in the same `Update`, at a position after the action that enqueued it and after everything queued ahead of it |
| Dispatcher.DrainFuelIrrelevant | Assets/Kyu/Code/MainThreadDispatcher.cs:67-70 | once the drain empties the queue, a larger iteration bound gives the same result |
| Dispatcher.DrainPlain | Assets/Kyu/Code/MainThreadDispatcher.cs:67-70 | when no action enqueues anything, `Update` runs exactly the queued actions in order and empties the queue |
| Dispatcher.Initialize | Assets/Kyu/Code/MainThreadDispatcher.cs:32-47 | once initialised nothing changes; otherwise the found component is reused, a component is created only when none is found, and the binding becomes initialised |
| Dispatcher.Instance | Assets/Kyu/Code/MainThreadDispatcher.cs:17-27 | after any access the binding is initialised and an instance is returned; accesses after the first leave the binding unchanged |
| Dispatcher.InstanceStable | Assets/Kyu/Code/MainThreadDispatcher.cs:17-27 | a second access returns the same instance as the first, whatever the scene holds, without re-initialising |
| Dispatcher.Awake | Assets/Kyu/Code/MainThreadDispatcher.cs:49-62 | the first component to wake becomes the initialised singleton; a different component waking later is destroyed and the binding is unchanged |
| Dispatcher.ReplayKeepsSingleton | Assets/Kyu/Code/MainThreadDispatcher.cs:17-62 | once initialised, no sequence of accesses and wake-ups changes or un-initialises the singleton, and every other component that wakes is destroyed |
| Dispatcher.FirstEventBinds | Assets/Kyu/Code/MainThreadDispatcher.cs:17-62 | from the uninitialised start, the first access or wake-up fixes the singleton for good |
| Mathf.Clamp | Assets/Kyu/Code/OrbitCamera.cs:86 | with ordered limits the result lies within them; a value already within them is kept; a value below the lower limit gives the lower limit, and any other value above the upper limit gives the upper limit (also when the limits are inverted) |
| Mathf.Lerp | Assets/Scripts/MoveNet/BreathingTracker.cs:52 | the result lies between the two endpoints, equals the start at t ≤ 0 and the end at t ≥ 1, and for t in [0, 1] lies the fraction t of the way from start to end |
| Mathf.Min | Assets/Scripts/MoveNet/BreathingTracker.cs:67 | the result is one of the values and no value is smaller (0 for no values) |
| Mathf.Max | Assets/Scripts/MoveNet/BreathingTracker.cs:68 | the result is one of the values and no value is larger (0 for no values) |
| BreathingTracker.RunBreathAlgorithm | Assets/Scripts/MoveNet/BreathingTracker.cs:59-87 | the window never exceeds 90 samples; no event fires before it is full; the event fires exactly when it is full, its depth exceeds the threshold and the time since the last event exceeds the minimum; on an event the time is recorded and the window keeps its most recent 45 samples in order; otherwise the window slides and the time is kept |
| BreathingTracker.AnalyzeDetection | Assets/Scripts/MoveNet/BreathingTracker.cs:28-57 | with at most 6 detections or a shoulder score below 0.5 nothing changes; the first usable frame sets the smoothed height to the shoulders' mean and clears the first-update flag; later frames move it a clamped fraction of the way to the mean, staying between the two; an event advances the debounce clock to the current time |
| BreathingTracker.EventsSpaced | Assets/Scripts/MoveNet/BreathingTracker.cs:71-78 | over any sequence of frames, consecutive events are more than `minBreathDuration` apart, and `lastBreathTime` ends as the time of the last event |
| BreathingTracker.NoEventBeforeWindowFills | Assets/Scripts/MoveNet/BreathingTracker.cs:62-65 | the window grows by at most one sample per frame, so frames that cannot fill it to 90 samples fire no event |
| BreathingTracker.FreshTracker | Assets/Scripts/MoveNet/BreathingTracker.cs:14-17 | a tracker with its initial fields fires nothing in its first 89 frames, its first event comes more than `minBreathDuration` after time 0, and later events are spaced by the debounce |
| BreathingTracker.DefaultsFreshTracker | Assets/Scripts/MoveNet/BreathingTracker.cs:9-17 | at the Inspector defaults, a fresh tracker's events come more than 2.5 s after the start and more than 2.5 s apart |
| BreathTree.Start | Assets/Kyu/Code/BreathTreeController.cs:24-27 | the controller starts valid at stage 0 with an empty meter, a zero timer and a zero last height (so any first height above 0.002 reads as an inhale), one flag per stage object, showing exactly the first stage |
| BreathTree.OnInhale | Assets/Kyu/Code/BreathTreeController.cs:49-53 | sets inhaling and advances the breath timer by the frame time; nothing else changes |
| BreathTree.OnExhale | Assets/Kyu/Code/BreathTreeController.cs:55-65 | sets exhaling; the meter gains exactly one and the timer resets exactly when the timer has reached `inhaleTime`, otherwise both are kept; nothing else changes |
| BreathTree.DetectBreath | Assets/Kyu/Code/BreathTreeController.cs:37-47 | a rise above 0.002 inhales, a fall below -0.002 exhales, anything within the band does neither; the last height always becomes the current one |
| BreathTree.UpdateGrowth | Assets/Kyu/Code/BreathTreeController.cs:79-91 | below 5 nothing changes; at 5 or more the meter empties, the stage advances by one clamped to the last index, and the flags show the new stage |
| BreathTree.VisualExactlyOne | Assets/Kyu/Code/BreathTreeController.cs:94-98 | the stage flags have exactly one active stage when the index is in range and none otherwise |
| BreathTree.Visual | Assets/Kyu/Code/BreathTreeController.cs:94-98 | one flag per stage object, and stage i is active exactly when i is the current stage; `VisualExactlyOne` counts them |
| BreathTree.OneStageShown | Assets/Kyu/Code/BreathTreeController.cs:94-98 | in any reachable state with stages, exactly the current stage is active |
| BreathTree.Update | Assets/Kyu/Code/BreathTreeController.cs:29-34 | detection runs before growth and the result is exactly their composition; the last height becomes this frame's, the timer runs on while inhaling and restarts after a completed breath; keeps the meter a whole number in [0, 5) and the stage in range; a breath completes exactly on an exhale frame that finds the accumulated inhale time at or above `inhaleTime`; the tree grows exactly on the fifth breath |
| BreathTree.InhalesAccumulate | Assets/Kyu/Code/BreathTreeController.cs:49-65 | at the default `inhaleTime` of 4 s, two 2-second inhales with a short exhale between them complete no breath at the first exhale and one breath at the second |
| BreathTree.GrowthAccounting | Assets/Kyu/Code/BreathTreeController.cs:79-91 | over any run, the starting meter plus completed breaths equal five per growth plus the final meter, and the stage rises by the number of growths, stopping at the last stage |
| TreeGrowth.Start | Assets/Kyu/Code/TreeGrowthController.cs:15-19 | the initial scale is the placed scale and the target equals it |
| TreeGrowth.GrowTree | Assets/Kyu/Code/TreeGrowthController.cs:42-50 | below three initial widths each axis of the target grows by `growthAmount`; otherwise nothing changes |
| TreeGrowth.ShrinkTree | Assets/Kyu/Code/TreeGrowthController.cs:53-57 | the target becomes exactly the initial scale and the initial scale is kept |
| TreeGrowth.ShrinkIdempotent | Assets/Kyu/Code/TreeGrowthController.cs:53-57 | dropping twice is the same as dropping once |
| TreeGrowth.GrowTreeKeeps | Assets/Kyu/Code/TreeGrowthController.cs:45-49 | only when `growthAmount` ≥ 0: growth keeps the axes' offsets equal, keeps the width within the cap plus one step, and never decreases the width |
| TreeGrowth.ApplyKeeps | Assets/Kyu/Code/TreeGrowthController.cs:42-57 | only when `growthAmount` ≥ 0 and the initial width ≥ 0: from a uniform, capped tree, any sequence of lifts and drops keeps growth uniform and the width within three initial widths plus one step |
| TreeGrowth.UniformAnyStep | Assets/Kyu/Code/TreeGrowthController.cs:42-57 | for a step of any sign and any initial scale, lifts and drops keep every axis's offset from the initial scale equal |
| TreeGrowth.MirroredNeverGrows | Assets/Kyu/Code/TreeGrowthController.cs:45 | a tree placed with a negative width is never grown by lifts, because it already passes the three-times guard |
| TreeGrowth.StartValid | Assets/Kyu/Code/TreeGrowthController.cs:17-18 | only when `growthAmount` ≥ 0 and the placed width ≥ 0: the started tree is uniform and within the cap |
| TreeGrowth.LiftsReachCap | Assets/Kyu/Code/TreeGrowthController.cs:45-49 | with a positive step, enough lifts bring the target width to the cap |
| TreeGrowth.CappedStays | Assets/Kyu/Code/TreeGrowthController.cs:45 | at or past the cap, lifts change nothing |
| TreeGrowth.DefaultsUnitTree | Assets/Kyu/Code/TreeGrowthController.cs:42-57 | at the default step of 0.1, a unit tree reaches three times its width after 20 lifts, and no lifts and drops take it past 3.1 or make its growth uneven |
| OrbitCamera.Wrap | Assets/Kyu/Code/OrbitCamera.cs:104-107 | an angle below -360 is shifted up by 360, one above 360 down by 360, any other is kept; the change is a whole turn or nothing, and any angle within two turns ends within one |
| OrbitCamera.ClampAngle | Assets/Kyu/Code/OrbitCamera.cs:102-109 | with ordered limits the result lies within them; an angle within one turn and within the limits is returned unchanged; a corrected angle below the lower limit gives the lower limit, and any other above the upper limit gives the upper limit (also when the limits are inverted) |
| OrbitCamera.ClampAngleIdempotent | Assets/Kyu/Code/OrbitCamera.cs:102-109 | with limits inside one turn, clamping twice is clamping once |
| OrbitCamera.ClampAngleShiftsOnce | Assets/Kyu/Code/OrbitCamera.cs:104-107 | the correction is one shift, not a reduction modulo 360 |
| OrbitCamera.Start | Assets/Kyu/Code/OrbitCamera.cs:45-59 | without a target the component disables itself and changes nothing else; with one, yaw and pitch come from the Euler angles |
| OrbitCamera.LateUpdate | Assets/Kyu/Code/OrbitCamera.cs:62-99 | with no target nothing changes; yaw moves only while a button is held, by the scaled mouse motion; the pitch step is corrected by one turn and clamped (`ClampAngle`); a zoom below the minimum gives the minimum and any other above the maximum gives the maximum (also when the limits are inverted); with ordered limits pitch and zoom end inside them, and a step that stays inside them is taken as is |
| OrbitCamera.StartDecidesFrames | Assets/Kyu/Code/OrbitCamera.cs:45-66 | a camera started without a target is disabled, so the engine's later frames never move it, even once a target exists; with ordered pitch and zoom limits, one started enabled with a target stays enabled and is settled after its first frame |
| OrbitCamera.DisabledStays | Assets/Kyu/Code/OrbitCamera.cs:51-53 | a disabled camera is left where it is by any number of frames |
| OrbitCamera.FramesKeepSettled | Assets/Kyu/Code/OrbitCamera.cs:62-99 | with ordered pitch and zoom limits, frames with a target keep an enabled, settled camera settled |
| OrbitCamera.IdleFrameKeepsCamera | Assets/Kyu/Code/OrbitCamera.cs:62-99 | with ordered zoom limits and ordered pitch limits inside one turn (-360 to 360): any frame with a target settles pitch and zoom, and a frame without mouse or scroll input leaves a settled camera unchanged |
| OrbitCamera.DefaultsCamera | Assets/Kyu/Code/OrbitCamera.cs:62-109 | at the Inspector defaults any frame settles the camera, an idle frame keeps a settled one, and a pitch of 370 is wrapped once to 10 |

## Left out

- Concurrency of the `ConcurrentQueue`: producer races, happens-before and lock-freedom. The queue is modelled as a sequential FIFO.
- Dispatcher.Drain: the source loop runs until the queue is empty and need not terminate. The model runs at most `fuel` actions, and its results speak about completed drains (`Completed`).
- Failure isolation in the drain: the source does not catch exceptions, so the model has no failing actions.
- `Assets/Kyu/Code/HandSoundController.cs`, which wraps a coroutine start in an action and enqueues it through `Instance`, is not part of this model.
- Engine calls: `FindObjectOfType` and `AddComponent` become parameters. `DontDestroyOnLoad`, `Destroy` and `Debug.Log` have no modelled effect beyond the `destroyed` flag. Unity's destroyed-object "fake null" is not modelled.
- The nested `Awake` that Unity runs inside `AddComponent` during `Initialize` is not modelled. It binds the same component that `Initialize` then stores.
- Event subscription (`OnEnable`/`OnDisable`) and static event delegates. A fired event is a boolean output.
- Quaternion rotation and camera position (`OrbitCamera.cs:79`, `OrbitCamera.cs:90-97`), the per-frame scale easing (`TreeGrowthController.cs:35-39`) and the breathing-circle animation (`BreathTreeController.cs:68-76`). These are presentation only.
- Inspector references (`breathingCircle`, `treeStages`, `target`'s transform and the like) are assumed to be assigned. In the source an unassigned `breathingCircle` throws at `BreathTreeController.cs:72`, before `UpdateGrowth` runs, so the meter would climb past 5; the model has no null references.
- Unity calls `LateUpdate` only on an enabled component; the model states this as `OrbitCamera.Frame`, and `OrbitCamera.LateUpdate` itself does not read `enabled`.
- `exhaleTime`, which the controller declares but never reads.
- IEEE single-precision rounding: all values are `real`, and float literals such as `0.015f` and `0.002f` are taken as the exact decimals.
- BreathingTracker.RunBreathAlgorithm: requires a window of at most 90 samples. That bound is an invariant of the private history (`Valid`), which every operation keeps.
- With an empty stage array, a growth sets the stage to -1. The model does this too; the range property is stated for non-empty arrays only.
