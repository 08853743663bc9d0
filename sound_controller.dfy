/** The `SoundController` class of src/SoundController.ts: the current sensitivity, the audio
    context guard of `init`, and the two numbers of the loudness detector, updated in place
    sample by sample. The `onAudio` events it dispatches are recorded in a log. */
module SoundControl {
  import opened Wrappers
  import opened Sensitivity
  import opened Loudness

  /** `AudioContext.state`. */
  datatype ContextState = Suspended | Running | Closed

  /** How a call of `init` ends: it returns at once because capture is already running, it
      starts the sampling loop, or `getUserMedia` rejects (microphone denied or missing) and
      the rejection propagates to the caller. */
  datatype InitOutcome = AlreadyRunning | Listening | PermissionError

  class SoundController {
    /** The current level, held as the enum's numeric value. */
    var microphoneSensitivity: int
    /** Whether `audioContext` is non-null. Its state belongs to the browser, which may
        suspend, resume or close it at any time, so it is read when `init` is called. */
    var hasAudioContext: bool
    var maxAudioValue: real
    var lastAudioDiff: real
    /** The `detail.value` of every `onAudio` event dispatched so far, in order. */
    ghost var events: seq<real>

    /** The object invariant: the level is a member's value, the detector is calibrated, and
        every value ever emitted lies in (0, 1]. */
    ghost predicate Valid()
      reads this
    {
      IsLevelValue(microphoneSensitivity) &&
      Calibrated(Detector(lastAudioDiff, maxAudioValue)) &&
      forall i :: 0 <= i < |events| ==> 0.0 < events[i] <= 1.0
    }

    /** The detector the two numeric fields make up. */
    function DetectorState(): Detector
      reads this
    {
      Detector(lastAudioDiff, maxAudioValue)
    }

    constructor ()
      ensures Valid()
      ensures microphoneSensitivity == Value(Initial)
      ensures !hasAudioContext && DetectorState() == Fresh && events == []
    {
      microphoneSensitivity := Value(Initial);
      hasAudioContext := false;
      maxAudioValue := InitialMax;
      lastAudioDiff := 0.0;
      events := [];
    }

    /** `getMicrophoneSensitivity`: the current level's name, found through the enum's reverse
        mapping; looking the name up again gives back the current value. */
    function GetMicrophoneSensitivity(): (name: string)
      reads this
      requires Valid()
      ensures Lookup(name).Some? && Value(Lookup(name).value) == microphoneSensitivity
    {
      var r := ReverseLookup(microphoneSensitivity);
      assert r == Some(Name(if microphoneSensitivity == 60 then Low
                            else if microphoneSensitivity == 30 then Medium else High));
      r.value
    }

    /** `changeSensitivity`: moves to the next level in declaration order, wrapping from High
        back to Low, and returns the new level's name. */
    method ChangeSensitivity() returns (name: string)
      requires Valid()
      modifies this`microphoneSensitivity
      ensures Valid()
      ensures microphoneSensitivity == NextValue(old(microphoneSensitivity))
      ensures forall l: Level :: old(microphoneSensitivity) == Value(l) ==>
                microphoneSensitivity == Value(Successor(l)) && name == Name(Successor(l))
    {
      var values := EnumValues;
      var index := IndexOf(values, microphoneSensitivity);
      if index + 1 < |values| && values[index + 1] != 0 {
        microphoneSensitivity := values[index + 1];
      } else {
        microphoneSensitivity := values[0];
      }
      name := GetMicrophoneSensitivity();
      forall l: Level | old(microphoneSensitivity) == Value(l)
        ensures microphoneSensitivity == Value(Successor(l)) && name == Name(Successor(l))
      {
        NextValueIsSuccessor(l);
        assert Lookup(name) == Some(Successor(l)) by {
          assert Value(Lookup(name).value) == Value(Successor(l));
        }
      }
    }

    /** `init`: returns at once, changing nothing, when an audio context exists and its state
        (`contextState`, as the browser reports it at the call) is 'running'. Otherwise it
        clears the previous average, creates a new context, and asks for the microphone. The
        running maximum and the level are kept. */
    method Init(contextState: ContextState, microphoneGranted: bool) returns (r: InitOutcome)
      requires Valid()
      modifies this`lastAudioDiff, this`hasAudioContext
      ensures Valid()
      ensures old(hasAudioContext) && contextState == Running ==>
                r == AlreadyRunning && lastAudioDiff == old(lastAudioDiff) && hasAudioContext
      ensures !(old(hasAudioContext) && contextState == Running) ==>
                lastAudioDiff == 0.0 && hasAudioContext &&
                r == (if microphoneGranted then Listening else PermissionError)
    {
      if hasAudioContext && contextState == Running {
        return AlreadyRunning;
      }
      lastAudioDiff := 0.0;
      hasAudioContext := true;
      if !microphoneGranted {
        return PermissionError;
      }
      r := Listening;
    }

    /** `handleOnAudioProcess` on one snapshot of frequency bins: the summing loop, the mean,
        and one step of the detector at the current level's threshold. */
    method HandleOnAudioProcess(bins: seq<byte>)
      requires Valid() && |bins| > 0
      modifies this`lastAudioDiff, this`maxAudioValue, this`events
      ensures Valid()
      ensures var s := Step(old(DetectorState()), Average(bins), microphoneSensitivity as real);
              DetectorState() == s.next && events == old(events) + Events(s.event)
    {
      ghost var expected := Step(DetectorState(), Average(bins), microphoneSensitivity as real);
      var average := AverageBins(bins);
      var diff := average - lastAudioDiff;
      if diff > microphoneSensitivity as real {
        if average > maxAudioValue {
          maxAudioValue := average;
        }
        events := events + [average / maxAudioValue];
      }
      lastAudioDiff := average;
    }
  }

  /** A client of the class: a new controller reads "High"; three calls of
      `changeSensitivity` read "Low", "Medium", "High"; a second `init` on a running context
      changes nothing while one whose context was closed starts over; a loud snapshot after silence emits the value 1.0. */
  method ControllerScenario()
  {
    var c := new SoundController();
    assert c.GetMicrophoneSensitivity() == "High";
    var name := c.ChangeSensitivity();
    assert name == "Low";
    name := c.ChangeSensitivity();
    assert name == "Medium";
    name := c.ChangeSensitivity();
    assert name == "High";
    var r := c.Init(Suspended, true);
    assert r == Listening && c.lastAudioDiff == 0.0;
    r := c.Init(Running, true);
    assert r == AlreadyRunning;
    r := c.Init(Closed, false);
    assert r == PermissionError;
    var bins: seq<byte> := [40, 0];
    assert Sum(bins[..1]) == 40;
    assert Average(bins) == 20.0;
    c.HandleOnAudioProcess(bins);
    assert c.events == [1.0] && c.maxAudioValue == 20.0 && c.lastAudioDiff == 20.0;
  }
}
