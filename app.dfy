/** The `App` class of src/App.ts, reduced to its state: the scene (present or not, with or
    without an active camera), the bullet pool and its ring index, the fixed microphone
    threshold and the game state. Building the scene's content is left to the rendering engine;
    what `run` and `createScene` do to these fields is modelled. */
module Game {
  import opened Wrappers
  import opened Loudness
  import opened BulletPool

  /** `type GameState = 'main' | 'playing' | 'win' | 'lost' | 'loading'`. */
  datatype GameState = Main | Playing | Win | Lost | Loading

  /** What `throwBullet` needs of a Babylon scene: whether it has an active camera. */
  datatype Scene = Scene(hasActiveCamera: bool)

  /** `scene != null && scene.activeCamera !== null`. */
  predicate SceneReady(scene: Option<Scene>)
  {
    scene.Some? && scene.value.hasActiveCamera
  }

  /** The steps of `run`, in the order they take effect. */
  datatype RunStep = StateWritten(state: GameState) | SceneCreated

  class App {
    var scene: Option<Scene>
    var bullets: seq<Bullet>
    var bulletIndex: nat
    /** `microphoneSensivity = 10`, never reassigned. */
    const microphoneSensitivity: real := 10.0
    var gameState: GameState
    /** Every write of `gameState` and every completed scene creation, in order. */
    ghost var trace: seq<RunStep>

    /** The pool is empty or one `addBullets` pool, and the index points into it (it is 0
        while the pool is empty). Once there is a scene there is a full pool: `createScene`
        stores both in one synchronous stretch, before anything can throw. */
    ghost predicate Valid()
      reads this
    {
      |bullets| <= MaxBullets && (bulletIndex < |bullets| || bulletIndex == 0) &&
      (scene.Some? ==> |bullets| == MaxBullets)
    }

    constructor ()
      ensures Valid()
      ensures scene == None && bullets == [] && bulletIndex == 0
      ensures gameState == Loading && trace == []
    {
      scene := None;
      bullets := [];
      bulletIndex := 0;
      gameState := Loading;
      trace := [];
    }

    /** `throwBullet(speed, scene)`: when the scene and its active camera exist, take the mesh at
        the ring index; if it has an impostor, launch it along the camera's forward ray scaled by
        10 and move the index on, wrapping to 0 at the end of the pool. */
    method ThrowBullet(speed: real, scene: Option<Scene>) returns (outcome: ThrowOutcome)
      requires Valid()
      modifies this`bulletIndex
      ensures Valid()
      ensures ThrowStep(bullets, old(bulletIndex), SceneReady(scene), speed) == ThrowResult(outcome, bulletIndex)
    {
      if scene.Some? && scene.value.hasActiveCamera {
        if bulletIndex >= |bullets| {
          // `this.bullets[this.bulletIndex]` is undefined; reading its position throws
          return MissingBullet;
        }
        var sphere := bullets[bulletIndex];
        if sphere.hasImpostor {
          outcome := Launched(bulletIndex, LaunchScale);
          bulletIndex := bulletIndex + 1;
          if bulletIndex >= |bullets| {
            bulletIndex := 0;
          }
        } else {
          outcome := NoImpostor;
        }
      } else {
        outcome := NotReady;
      }
    }

    /** The pointer-down observer `createScene` installs: `throwBullet()` with its defaults,
        speed 7 and the app's own scene. */
    method OnPointerDown() returns (outcome: ThrowOutcome)
      requires Valid()
      modifies this`bulletIndex
      ensures Valid()
      ensures ThrowStep(bullets, old(bulletIndex), SceneReady(scene), 7.0) == ThrowResult(outcome, bulletIndex)
    {
      outcome := ThrowBullet(7.0, scene);
    }

    /** `createScene`: the scene is stored with the camera `addcamera` makes active, and the
        pool is replaced by a fresh `addBullets` pool; the awaited XR setup either completes or
        rejects, after the scene and the pool are already in place. */
    method CreateScene(xrSetupSucceeds: bool) returns (completed: bool)
      requires Valid()
      modifies this`scene, this`bullets
      ensures Valid()
      ensures scene == Some(Scene(true)) && SceneReady(scene)
      ensures |bullets| == MaxBullets && AllLaunchable(bullets)
      ensures forall i :: 0 <= i < |bullets| ==> bullets[i].id == i
      ensures completed == xrSetupSucceeds
    {
      scene := Some(Scene(true));
      bullets := AddBullets(MaxBullets);
      completed := xrSetupSucceeds;
    }

    /** `run`: the state is 'loading' while the scene is built, and becomes 'main' only once
        scene creation has completed; if it rejects, the state stays 'loading'. */
    method Run(xrSetupSucceeds: bool)
      requires Valid()
      modifies this`gameState, this`scene, this`bullets, this`trace
      ensures Valid()
      ensures gameState == (if xrSetupSucceeds then Main else Loading)
      ensures trace == old(trace) + [StateWritten(Loading)] +
                       (if xrSetupSucceeds then [SceneCreated, StateWritten(Main)] else [])
      ensures SceneReady(scene) && |bullets| == MaxBullets && AllLaunchable(bullets)
    {
      gameState := Loading;
      trace := trace + [StateWritten(Loading)];
      var completed := CreateScene(xrSetupSucceeds);
      if !completed {
        return;
      }
      trace := trace + [SceneCreated];
      gameState := Main;
      trace := trace + [StateWritten(Main)];
    }

    /** `startListeningforMicrophoneInput`: once the microphone is granted, a fresh audio
        callback is installed whose closure starts with a previous average of 0. */
    method StartListeningForMicrophoneInput(microphoneGranted: bool) returns (listener: Option<MicrophoneListener>)
      ensures listener.Some? <==> microphoneGranted
      ensures listener.Some? ==> fresh(listener.value) && listener.value.app == this &&
                                 listener.value.lastAudioDiff == 0.0
    {
      if !microphoneGranted {
        return None;
      }
      var l := new MicrophoneListener(this);
      listener := Some(l);
    }
  }

  /** The `onaudioprocess` closure of `startListeningforMicrophoneInput`, with its captured
      `lastAudioDiff`. */
  class MicrophoneListener {
    const app: App
    var lastAudioDiff: real

    constructor (app: App)
      ensures this.app == app && lastAudioDiff == 0.0
    {
      this.app := app;
      lastAudioDiff := 0.0;
    }

    /** One audio callback: average the bins; on a jump above the app's threshold of 10, throw
        a bullet with speed `diff / 10`; always keep the average for the next callback. */
    method OnAudioProcess(bins: seq<byte>) returns (thrown: Option<ThrowOutcome>)
      requires |bins| > 0 && app.Valid()
      modifies this`lastAudioDiff, app`bulletIndex
      ensures app.Valid()
      ensures lastAudioDiff == Average(bins)
      ensures thrown.Some? <==> IsJump(old(lastAudioDiff), Average(bins), app.microphoneSensitivity)
      ensures thrown.None? ==> app.bulletIndex == old(app.bulletIndex)
      // the app's own scene always comes with a full pool, so the slot read never fails
      ensures thrown.Some? ==> thrown.value != MissingBullet
      ensures thrown.Some? ==>
                ThrowStep(app.bullets, old(app.bulletIndex), SceneReady(app.scene),
                          (Average(bins) - old(lastAudioDiff)) / 10.0)
                == ThrowResult(thrown.value, app.bulletIndex)
    {
      var average := AverageBins(bins);
      var diff := average - lastAudioDiff;
      thrown := None;
      if diff > app.microphoneSensitivity {
        var outcome := app.ThrowBullet(diff / 10.0, app.scene);
        thrown := Some(outcome);
      }
      lastAudioDiff := average;
    }
  }

  /** A client of the class: after `run`, the state is 'main', the first pointer-down launches
      bullet 0 and moves the index to 1, and an audio callback whose average jumps from 0 to 20
      throws the next bullet. */
  method AppScenario()
  {
    var app := new App();
    app.Run(true);
    assert app.gameState == Main;
    var outcome := app.OnPointerDown();
    assert outcome == Launched(0, LaunchScale) && app.bulletIndex == 1;
    var listener := app.StartListeningForMicrophoneInput(true);
    var bins: seq<byte> := [20];
    assert Sum(bins[..0]) == 0;
    assert Average(bins) == 20.0;
    var thrown := listener.value.OnAudioProcess(bins);
    assert thrown == Some(Launched(1, LaunchScale)) && app.bulletIndex == 2;
  }
}
