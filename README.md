# alex-xr core: microphone loudness detection, sensitivity levels, bullet pool

A Dafny model of the logic of a small browser WebXR game (sonictruth/alex-xr), written in
TypeScript over Babylon.js. Two classes hold all of it:

- `SoundController` (src/SoundController.ts) turns microphone snapshots into `onAudio`
  events. Each snapshot's frequency bins (bytes 0..255) are summed and averaged; when the
  average rises over the previous one by more than the current sensitivity threshold, a running
  maximum (floor 10, never decreasing) is raised if needed and `average / maximum` is
  dispatched. The previous average is always replaced. The sensitivity is an enum
  `Low = 60, Medium = 30, High = 10`, starting at High, which `changeSensitivity` cycles in
  declaration order (High, Low, Medium, High, ...), and `init` does nothing when its audio
  context is already running.
- `App` (src/App.ts) keeps a pool of 20 sphere meshes and a ring index into it. `throwBullet`
  launches the mesh at the index (when a scene with an active camera exists and the mesh has a
  physics impostor) and moves the index on, wrapping to 0. Its own microphone callback applies
  the same jump rule with a fixed threshold of 10 to decide when to throw. `run` keeps the game
  state at 'loading' while the scene is built and sets it to 'main' afterwards.

Modules, one per concern:

| file | module | contents |
|---|---|---|
| wrappers.dfy | `Wrappers` | `Option`, for TypeScript's `undefined`/`null` |
| sensitivity.dfy | `Sensitivity` | the enum, its two mappings, the `changeSensitivity` rule and its cycle |
| loudness.dfy | `Loudness` | bytes, the summing loop, the average, one detector step, runs of steps |
| sound_controller.dfy | `SoundControl` | class `SoundController` over its fields, tied to `Loudness.Step` |
| bullet_pool.dfy | `BulletPool` | `addBullets`, one throw as a function, the ring-index lemmas |
| app.dfy | `Game` | class `App`, and class `MicrophoneListener` for the audio callback's closure |

Averages are exact `real`s (`sum / length`), so the model has no floating-point rounding. A
TypeScript numeric enum is a number at run time, so the controller's sensitivity is kept as
the number, and names come from the enum's reverse mapping. `Object.values(...)` filtered to
numbers gives `[60, 30, 10]`: the enum object's integer-like keys ("10", "30", "60") map to
names and are filtered out, and the member keys keep declaration order. `values[index + 1] ||
values[0]` is modelled with JavaScript truthiness: the fallback is taken when the next element
is `undefined` or 0. The dispatched events are a log on the controller. What the browser, the
audio graph or the engine decides is a parameter: the state of the existing `AudioContext` at
the moment `init` reads it, whether the microphone is granted, whether the XR setup completes,
whether the scene has an active camera, and the bins of each snapshot.

## Behaviour of the code worth knowing

- `init` returns early only when a context exists and its state is 'running' at that moment.
  A suspended or closed context is replaced and the previous average reset.
- A refused microphone is not recovered inside `SoundController`: the rejection of
  `getUserMedia` propagates out of `init` (`InitOutcome.PermissionError`), after the previous
  average has been reset and the new context stored.
- The running maximum is never reset, not even by `init`.
- In these files neither microphone path is ever started. No file constructs a
  `SoundController`. `startListeningforMicrophoneInput` is called only from `enterXR`, which
  nothing calls, and the constructor of `App` ignores its `enterXRButton` argument
  (src/App.ts:53-56). The model describes what each path does once it is started.

## Model

| member | source | states |
|---|---|---|
| `Sensitivity.Lookup` | src/SoundController.ts:3-7 | the name-to-member mapping of the enum: a name maps to the member with that name, and no other string maps to a member |
| `Sensitivity.ReverseLookup` | src/SoundController.ts:3-7 | the value-to-name mapping of the numeric enum: defined exactly on 60, 30 and 10, giving each member's own name |
| `Sensitivity.IndexOf` | src/SoundController.ts:30 | `indexOf`: -1 exactly when the value is absent, otherwise a position holding it with no earlier occurrence |
| `Sensitivity.NextValue` | src/SoundController.ts:28-32 | the value `changeSensitivity` stores is always one of the enum's values |
| `Sensitivity.NextValueIsSuccessor` | src/SoundController.ts:27-34 | the index-and-fallback rule moves High to Low, Low to Medium and Medium to High, and the reverse mapping names the new level |
| `Sensitivity.CycleHasPeriodThree` | src/SoundController.ts:27-34 | three calls of the rule return every level to itself, while one or two calls never do |
| `Sensitivity.NextValueOfUnknown` | src/SoundController.ts:30-32 | a number that is no member's value (indexOf gives -1) is replaced by the first value, Low |
| `SoundControl.SoundController.constructor` | src/SoundController.ts:11-16 | a new controller has sensitivity High (10), no audio context, previous average 0, maximum 10 and no events |
| `SoundControl.SoundController.GetMicrophoneSensitivity` | src/SoundController.ts:23-25 | the name returned is a member's name, and looking it up gives back the current numeric level |
| `SoundControl.SoundController.ChangeSensitivity` | src/SoundController.ts:27-34 | the level moves High to Low, Low to Medium, Medium to High; the name returned is the new level's; nothing else changes |
| `SoundControl.SoundController.Init` | src/SoundController.ts:36-58 | when a context exists and its state at the call is 'running', nothing changes; otherwise the previous average is reset to 0 and a context exists afterwards, the maximum and level are kept, and the outcome is listening or the permission error |
| `SoundControl.SoundController.HandleOnAudioProcess` | src/SoundController.ts:86-109 | the fields and the event log move exactly as one detector step on the bins' average at the current threshold, and the invariant (previous average in [0, 255], maximum in [10, 255], every event in (0, 1]) is kept |
| `Loudness.Sum` | src/SoundController.ts:90-94 | the sum of n bins lies between 0 and 255 n |
| `Loudness.SumBins` | src/SoundController.ts:90-94 | the summing `for` loop computes the sum of the bins |
| `Loudness.Average` | src/SoundController.ts:95 | the average times the number of bins is their sum, and it lies in [0, 255] |
| `Loudness.AverageBins` | src/App.ts:86-91 | the summing loop followed by the division gives the average, which lies in [0, 255] |
| `Loudness.Step` | src/SoundController.ts:95-108 | the previous average becomes the new average always; an event fires exactly when the jump exceeds the threshold; the maximum never decreases, changes only on an event and then to the average; after an event the maximum covers the average and the value times the maximum is the average; calibration is kept and every value lies in (0, 1] |
| `Loudness.Run` | src/SoundController.ts:75-82 | the sampling loop as samples processed in order, one detector step each; the running maximum never decreases over the run |
| `Loudness.RunStaysCalibrated` | src/SoundController.ts:97-105 | over any run of byte-range averages, the detector stays calibrated and every emitted value lies in (0, 1] |
| `Loudness.RunMaximum` | src/SoundController.ts:99-108 | over any run the maximum is its start value or one of the averages, at most one event is emitted per sample, and the previous average is the last sample's |
| `Loudness.RisingLoudnessExample` | src/SoundController.ts:96-106 | averages 20, 40, 30, 60 after silence at threshold 10 emit 1.0 three times and end with maximum 60 |
| `Loudness.SelfCalibrationExample` | src/SoundController.ts:99-105 | after an event raises the maximum to 20, a later jump to 15 is emitted as 0.75 |
| `BulletPool.AddBullets` | src/App.ts:157-174 | exactly `maxBullets` meshes, the i-th named with i, each with a physics impostor, in push order |
| `BulletPool.ThrowStep` | src/App.ts:176-192 | with no scene or camera nothing happens; a launch happens exactly when the slot holds a mesh with an impostor; only a launch moves the index, to (index + 1) mod pool size; the velocity scale is 10 whatever the speed; an index inside the pool stays inside it |
| `BulletPool.ThrowsGoRoundTheRing` | src/App.ts:186-189 | in a pool whose meshes all have impostors, k throws take the index from i to (i + k) mod pool size |
| `BulletPool.FullRoundReturns` | src/App.ts:186-189 | one throw per mesh brings the index back to where it started |
| `BulletPool.MissingImpostorBlocks` | src/App.ts:183-190 | a mesh without an impostor is never passed: every later throw picks the same slot |
| `Game.App.constructor` | src/App.ts:42-56 | a new app has no scene, an empty pool, index 0 and state 'loading' |
| `Game.App.ThrowBullet` | src/App.ts:176-192 | the returned outcome and the new index are those of one throw step on the pool; the index stays inside the pool |
| `Game.App.OnPointerDown` | src/App.ts:316-320 | a pointer-down is a throw with speed 7 on the app's own scene |
| `Game.App.CreateScene` | src/App.ts:291-323 | afterwards the scene has an active camera and the pool is a fresh pool of 20 launchable meshes numbered in order, whether or not the XR setup completes |
| `Game.App.Run` | src/App.ts:325-332 | 'loading' is written first; the scene is created and then 'main' written only when creation completes; otherwise the state stays 'loading' |
| `Game.App.StartListeningForMicrophoneInput` | src/App.ts:58-82 | with the microphone granted, a fresh callback is installed whose previous average starts at 0 |
| `Game.MicrophoneListener.constructor` | src/App.ts:60 | the closure's previous average starts at 0 |
| `Game.MicrophoneListener.OnAudioProcess` | src/App.ts:82-98 | a bullet is thrown exactly when the average rises by more than 10; then the index moves as one throw step with speed diff / 10 and the slot read never fails, otherwise the index is unchanged; the average is always kept as the previous one |

## Left out

- `Emitter` (src/Emitter.ts) wraps a DOM `DocumentFragment`, and its listener semantics belong to the browser. Dispatch is modelled only as the append to `SoundController.events`.
- The audio graph is left out: `AudioContext` creation, `getUserMedia`, the analyser node (FFT size 1024), the scheduling of the sampling loop by `requestAnimationFrame`, and the script-processor node. These are foreign calls and I/O. The loop's effect, one step per snapshot in order, is `Loudness.Run`. Each snapshot's bins are an input, and the existing context's state and the permission are parameters of `Init`.
- `SoundControl.SoundController.HandleOnAudioProcess` and `Game.MicrophoneListener.OnAudioProcess` require at least one bin. Before `init`, the TypeScript `frequencyArray` is empty and the average is `0 / 0`, which is NaN. The loop that calls the method only starts after `init` gives the array 512 bins, so that case never arises.
- `Loudness.Step` requires a positive running maximum. In the source the maximum starts at 10 and never decreases, so it never divides by 0; the invariant `Calibrated` carries this fact.
- Numbers are exact reals and unbounded integers. JavaScript's 64-bit floating point and its rounding of `average / maximum` are not modelled.
- Babylon.js scene building is left out: the engine, physics plugin, materials, sky, ground, lights, shadows, camera, test sphere, XR experience and `enterXR`. The model keeps only what `throwBullet` and `run` depend on: whether there is a scene with an active camera, the pool, and whether the awaited XR setup completes.
- Mesh positions and the velocity vector are floating-point vector math. `throwBullet` also moves the chosen mesh to the camera, even when it has no impostor; the model records only which slot is launched and the fixed velocity scale of 10.
- The engine can detach a physics impostor or change the active camera; the model takes both as given in the pool and the scene.
- The render loop and the async/await sequencing are event-loop concerns. `run` is modelled as its ordered writes of the game state around scene creation.
- src/LoadingScreen.ts (a CSS class toggle) and src/index.ts (DOM bootstrap) are UI glue.
