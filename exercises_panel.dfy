/** The exercises panel: the object whose methods move the exercise and
    image cursors, the clocks and the flags in place.  Each method is proved
    to take the panel to the state the matching function of Sequencer
    gives, so every property proved there holds of the panel. */
module Panel {
  import opened Sequencer
  import SpeakVolume

  class ExercisesPanel {
    /** The exercise registry and the build, fixed for the panel's life. */
    const exercises: seq<Exercise>
    const variant: Variant

    /** exercise_iterator and image_iterator, as positions. */
    var exercise: nat
    var image: int
    var exerciseTime: nat
    var seqTime: nat
    var paused: bool
    var stopped: bool
    var exerciseNum: int
    var exerciseCount: int

    /** The calls made so far into the collaborators of the panel. */
    ghost var events: seq<Event>

    /** The panel's fields as a sequencer state. */
    ghost function Model(): State
      reads this
    {
      State(exercise, image, exerciseTime, seqTime, paused, stopped,
            exerciseNum, exerciseCount, events)
    }

    ghost predicate Valid()
      reads this
    {
      Sequencer.Valid(exercises, Model())
    }

    /** The constructor: exercise_count starts at 0 and reset() runs, with
        `pointer` the value adjust_exercises_pointer(1) gives it. */
    constructor (exs: seq<Exercise>, v: Variant, pointer: int)
      requires WellFormed(exs) && pointer < |exs|
      ensures exercises == exs && variant == v
      ensures Valid() && Model() == Create(exs, v, pointer)
    {
      exercises := exs;
      variant := v;
      exercise, image, exerciseTime, seqTime := 0, -1, 0, 0;
      paused, stopped, exerciseNum := false, false, 0;
      events := [];
      exerciseCount := 0;
      new;
      Reset(pointer);
    }

    /** reset: walk the cursor `pointer` steps from the first exercise (no
        step when `pointer` is not positive), clear the session counter and
        the flags, and start that exercise. */
    method Reset(pointer: int)
      requires WellFormed(exercises) && pointer < |exercises|
      modifies this
      ensures Valid()
      ensures Model() == Sequencer.Reset(exercises, variant, old(Model()), pointer)
    {
      events := events + [PointerAdjusted(1)];
      var i := pointer;
      exercise := 0;
      ghost var atBegin := Model();
      while i > 0
        invariant i <= pointer
        invariant pointer > 0 ==> 0 <= i && exercise + i == pointer
        invariant pointer <= 0 ==> exercise == 0
        invariant Model() == atBegin.(exercise := exercise)
      {
        exercise := exercise + 1;
        i := i - 1;
      }
      exerciseNum := 0;
      paused := false;
      stopped := false;
      assert Model() == old(Model()).(events := old(events) + [PointerAdjusted(1)], exercise := StartPosition(pointer),
                                      exerciseNum := 0, paused := false, stopped := false);
      StartExercise();
    }

    /** start_exercise */
    method StartExercise()
      requires WellFormed(exercises) && exercise < |exercises|
      modifies this
      ensures Valid()
      ensures Model() == Sequencer.StartExercise(exercises, variant, old(Model()))
    {
      var ex := exercises[exercise];
      if variant == Chiropraktik {
        events := events + [RestTimerStopped, AudioUnloaded];
        if ex.hasAudio {
          events := events + [AudioStarted];
        }
      }
      exerciseTime := 0;
      seqTime := 0;
      image := -1;
      RefreshSequence();
    }

    /** show_image, for the sequence-time bookkeeping. */
    method ShowImage()
      requires exercise < |exercises| && 0 <= image < |exercises[exercise].images|
      modifies this`seqTime
      ensures Model() == Sequencer.ShowImage(exercises, old(Model()))
    {
      seqTime := seqTime + exercises[exercise].images[image];
    }

    /** refresh_sequence */
    method RefreshSequence()
      requires exercise < |exercises| && |exercises[exercise].images| > 0
      requires -1 <= image < |exercises[exercise].images|
      modifies this`image, this`seqTime
      ensures Model() == Sequencer.RefreshSequence(exercises, old(Model()))
    {
      if exerciseTime >= seqTime {
        image := image + 1;
        if image == |exercises[exercise].images| {
          image := 0;
        }
        ShowImage();
      }
    }

    /** on_stop */
    method OnStop()
      modifies this`stopped, this`events
      ensures Model() == Sequencer.OnStop(variant, old(Model()))
      ensures old(Valid()) ==> Valid()
    {
      if !stopped {
        stopped := true;
        if variant == Chiropraktik {
          events := events + [AudioUnloaded];
        }
        events := events + [StopSignal];
      }
    }

    /** on_go_back */
    method OnGoBack()
      requires WellFormed(exercises) && exercise < |exercises|
      modifies this
      ensures Valid()
      ensures Model() == GoBack(exercises, variant, old(Model()))
    {
      events := events + [PointerAdjusted(-1)];
      if exercise == 0 {
        exercise := |exercises| - 1;
      } else {
        exercise := exercise - 1;
      }
      StartExercise();
    }

    /** on_go_forward */
    method OnGoForward()
      requires WellFormed(exercises) && exercise < |exercises|
      modifies this
      ensures Valid()
      ensures Model() == GoForward(exercises, variant, old(Model()))
    {
      events := events + [PointerAdjusted(1)];
      exercise := exercise + 1;
      if exercise == |exercises| {
        exercise := 0;
      }
      StartExercise();
    }

    /** on_pause */
    method OnPause()
      modifies this`paused, this`events
      ensures Model() == Pause(exercises, variant, old(Model()))
      ensures old(Valid()) ==> Valid()
    {
      paused := !paused;
      if variant == Chiropraktik {
        if paused {
          events := events + [AudioPaused];
        } else {
          events := events + [AudioResumed];
        }
      }
    }

    /** heartbeat */
    method Heartbeat()
      requires Valid()
      modifies this
      ensures Valid()
      ensures Model() == Sequencer.Heartbeat(exercises, variant, old(Model()))
    {
      if variant == Chiropraktik && paused {
        events := events + [RestTimerShifted];
      }
      if paused || stopped {
        return;
      }
      var ex := exercises[exercise];
      exerciseTime := exerciseTime + 1;
      if exerciseTime >= ex.duration {
        if variant == Chiropraktik {
          stopped := true;
        } else {
          OnGoForward();
          exerciseNum := exerciseNum + 1;
          if exerciseNum == exerciseCount {
            OnStop();
          }
          events := events + [PlaySound(EndSound(stopped))];
        }
      } else {
        RefreshSequence();
      }
    }

    /** set_exercise_count */
    method SetExerciseCount(num: int)
      modifies this`exerciseCount
      ensures Model() == old(Model()).(exerciseCount := num)
      ensures old(Valid()) ==> Valid()
    {
      exerciseCount := num;
    }

    /** on_speak_volume (audio build): `vol` is the spoken-exercise volume
        read from the application settings; the result is the volume written
        back to them, which is also handed to the audio player. */
    method OnSpeakVolume(vol: int) returns (newVol: int)
      requires variant == Chiropraktik
      modifies this`events
      ensures newVol in SpeakVolume.SpeakVolumes
      ensures newVol == SpeakVolume.NextSpeakVolume(vol)
      ensures Model() == old(Model()).(events := old(events) + [AudioVolume(newVol)])
    {
      var volIdx := SpeakVolume.FindSpeakVolumeIndex(vol);
      volIdx := (volIdx + 1) % SpeakVolume.NumVolumes;
      newVol := SpeakVolume.SpeakVolumes[volIdx];
      events := events + [AudioVolume(newVol)];
    }
  }
}
