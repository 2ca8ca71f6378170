/** Properties of the sequencer that relate several transitions: runs of
    heartbeats, navigation round trips, repeated stops, and a concrete
    session. */
module SequencerProperties {
  import opened Sequencer

  /** go_back undoes go_forward (and the other way round): the cursor is
      back on the exercise it started from, restarted. */
  lemma BackUndoesForward(exs: seq<Exercise>, v: Variant, s: State)
    requires Positioned(exs, s)
    ensures GoBack(exs, v, GoForward(exs, v, s)).exercise == s.exercise
    ensures GoForward(exs, v, GoBack(exs, v, s)).exercise == s.exercise
  {
  }

  /** on_stop is idempotent: a second call changes nothing and in particular
      signals the container no second time. */
  lemma StopIdempotent(v: Variant, s: State)
    ensures OnStop(v, OnStop(v, s)) == OnStop(v, s)
    ensures multiset(OnStop(v, OnStop(v, s)).events)[StopSignal] ==
            multiset(s.events)[StopSignal] + (if s.stopped then 0 else 1)
  {
  }

  /** Two pauses in a row leave the sequencer where it was. */
  lemma PauseTwiceRestores(exs: seq<Exercise>, v: Variant, s: State)
    ensures var r := Pause(exs, v, Pause(exs, v, s)); r.(events := s.events) == s
  {
  }

  /** The pause-time calls of n heartbeats. */
  function PausedLog(v: Variant, paused: bool, n: nat): (log: seq<Event>)
    ensures |log| == (if v == Chiropraktik && paused then n else 0)
  {
    if n == 0 then [] else PausedLog(v, paused, n - 1) + PausedEvents(v, paused)
  }

  /** While paused or stopped, any number of heartbeats leave every
      sequencer field as it is; only the audio build's rest-break timer is
      shifted once per heartbeat while paused. */
  lemma {:induction false} HaltedTicks(exs: seq<Exercise>, v: Variant, s: State, n: nat)
    requires Valid(exs, s) && (s.paused || s.stopped)
    ensures Ticks(exs, v, s, n) == s.(events := s.events + PausedLog(v, s.paused, n))
  {
    if n > 0 {
      HaltedTicks(exs, v, s, n - 1);
      assert s.events + PausedLog(v, s.paused, n - 1) + PausedEvents(v, s.paused)
          == s.events + PausedLog(v, s.paused, n);
    }
  }

  /** Heartbeats that stay below the duration of the running exercise
      advance its time by exactly one each and move nothing but the image. */
  lemma {:induction false} TicksWithinExercise(exs: seq<Exercise>, v: Variant, s: State, n: nat)
    requires Valid(exs, s) && !s.paused && !s.stopped
    requires s.exerciseTime + n < exs[s.exercise].duration
    ensures var r := Ticks(exs, v, s, n);
      r.exerciseTime == s.exerciseTime + n &&
      r == s.(exerciseTime := r.exerciseTime, image := r.image, seqTime := r.seqTime)
  {
    if n > 0 {
      TicksWithinExercise(exs, v, s, n - 1);
    }
  }

  /** From any point of a running exercise, the heartbeats that remain until
      its duration end it: the default build moves to the next exercise
      (last wraps to first) at time 0 with its first image, counts it, and
      stops exactly when the count reaches exercise_count; the audio build
      stays on the exercise, at its duration, stopped. */
  lemma CompleteExercise(exs: seq<Exercise>, v: Variant, s: State)
    requires Valid(exs, s) && !s.paused && !s.stopped
    ensures var r := Ticks(exs, v, s, exs[s.exercise].duration - s.exerciseTime);
      if v == Default then
        r.exercise == (s.exercise + 1) % |exs| && r.exerciseTime == 0 && r.image == 0 &&
        r.seqTime == exs[r.exercise].images[0] && !r.paused &&
        r.exerciseNum == s.exerciseNum + 1 &&
        r.stopped == (s.exerciseNum + 1 == s.exerciseCount) &&
        |r.events| > 0 && r.events[|r.events| - 1] == PlaySound(if r.stopped then ExercisesEnded else ExerciseEnded)
      else
        r.exercise == s.exercise && r.exerciseTime == exs[s.exercise].duration &&
        r.stopped && r.exerciseNum == s.exerciseNum
  {
    var n := exs[s.exercise].duration - s.exerciseTime;
    TicksWithinExercise(exs, v, s, n - 1);
  }

  /** In the default build, once the session counter is at or past
      exercise_count the session never stops by itself, and the counter
      never goes down. */
  lemma {:induction false} NoStopPastCount(exs: seq<Exercise>, s: State, n: nat)
    requires Valid(exs, s) && !s.stopped && s.exerciseCount <= s.exerciseNum
    ensures var r := Ticks(exs, Default, s, n);
      !r.stopped && s.exerciseNum <= r.exerciseNum && r.exerciseCount == s.exerciseCount
  {
    if n > 0 {
      NoStopPastCount(exs, s, n - 1);
    }
  }

  /** A new panel keeps exercise_count at 0, so in the default build its
      session never stops by itself. */
  lemma NewPanelNeverStops(exs: seq<Exercise>, pointer: int, n: nat)
    requires WellFormed(exs) && pointer < |exs|
    ensures !Ticks(exs, Default, Create(exs, Default, pointer), n).stopped
  {
    NoStopPastCount(exs, Create(exs, Default, pointer), n);
  }

  /** Two exercises: A lasts 3 s with images of 2 s and 1 s, B lasts 2 s
      with one image of 2 s. */
  const ExampleExercises: seq<Exercise> :=
    [Exercise(3, [2, 1], false), Exercise(2, [2], false)]

  /** A session of the default build starting at A: A's first image shows
      and is booked for 2 s; the heartbeat to t = 1 changes only the time,
      the one to t = 2 shows A's second image, and the one to t = 3 switches
      to B at time 0 with its first image and the "exercise ended" sound. */
  lemma ExampleSession()
    ensures WellFormed(ExampleExercises)
    ensures var s0 := Create(ExampleExercises, Default, 0);
      s0.exercise == 0 && s0.image == 0 && s0.exerciseTime == 0 && s0.seqTime == 2 &&
      var s1 := Heartbeat(ExampleExercises, Default, s0);
      s1.exercise == 0 && s1.image == 0 && s1.exerciseTime == 1 && s1.seqTime == 2 &&
      var s2 := Heartbeat(ExampleExercises, Default, s1);
      s2.exercise == 0 && s2.image == 1 && s2.exerciseTime == 2 && s2.seqTime == 3 &&
      var s3 := Heartbeat(ExampleExercises, Default, s2);
      s3.exercise == 1 && s3.image == 0 && s3.exerciseTime == 0 && s3.seqTime == 2 &&
      s3.exerciseNum == 1 && !s3.stopped &&
      s3.events[|s3.events| - 1] == PlaySound(ExerciseEnded)
  {
  }
}
