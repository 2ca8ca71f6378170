/** The exercise sequencer of the exercises panel, as a value-level state
    machine: one function per transition of the panel.  The class in
    exercises_panel.dfy updates the same state in place and is proved to
    follow these functions step by step. */
module Sequencer {

  /** One entry of the exercise registry, reduced to what the sequencer
      reads: the total duration in seconds, the display duration in seconds
      of each image of its sequence (in order), and whether it has a spoken
      audio track. */
  datatype Exercise = Exercise(duration: nat, images: seq<nat>, hasAudio: bool)

  /** The two builds of the panel: the plain one, and the one compiled with
      HAVE_CHIROPRAKTIK (spoken audio, rest-break timer control, and an
      end-of-exercise branch that only stops). */
  datatype Variant = Default | Chiropraktik

  /** The two sounds the heartbeat asks the sound player for. */
  datatype Sound = ExerciseEnded | ExercisesEnded

  /** Calls the sequencer makes into collaborators it does not own, in the
      order it makes them. */
  datatype Event =
    | PointerAdjusted(delta: int)   // adjust_exercises_pointer(delta)
    | RestTimerStopped              // rest-break timer stop_timer()
    | RestTimerShifted              // rest-break timer shift_time(1)
    | AudioUnloaded                 // mp3 player unload()
    | AudioStarted                  // mp3 player load(), play() and volume()
    | AudioPaused                   // mp3 player pause()
    | AudioResumed                  // mp3 player resume()
    | AudioVolume(volume: int)      // mp3 player volume(volume)
    | StopSignal                    // stop_signal() to the owning container
    | PlaySound(sound: Sound)       // sound player play_sound(sound)

  /** The sequencer fields of the panel.  `exercise` and `image` are
      positions in the exercise list and in the current exercise's image
      list; `image == -1` is the position before the first image, which
      start_exercise sets just before advancing to the first image. */
  datatype State = State(
    exercise: nat,
    image: int,
    exerciseTime: nat,
    seqTime: nat,
    paused: bool,
    stopped: bool,
    exerciseNum: int,
    exerciseCount: int,
    events: seq<Event>)

  /** What the sequencer needs of the exercise registry. */
  predicate WellFormed(exs: seq<Exercise>)
  {
    |exs| > 0 &&
    forall k :: 0 <= k < |exs| ==> exs[k].duration > 0 && |exs[k].images| > 0
  }

  /** The cursor points into the exercise list. */
  predicate Positioned(exs: seq<Exercise>, s: State)
  {
    WellFormed(exs) && s.exercise < |exs|
  }

  /** The invariant between transitions: an image is shown, and the elapsed
      time is below the exercise's duration unless the sequencer stopped
      exactly at it. */
  predicate Valid(exs: seq<Exercise>, s: State)
  {
    Positioned(exs, s) &&
    0 <= s.image < |exs[s.exercise].images| &&
    (s.exerciseTime < exs[s.exercise].duration ||
     (s.stopped && s.exerciseTime == exs[s.exercise].duration))
  }

  lemma ModBelow(a: int, n: int)
    requires 0 <= a < n
    ensures a % n == a
  {
  }

  lemma ModWrap(a: int, n: int)
    requires n <= a < 2 * n
    ensures a % n == a - n
  {
  }

  /** Position after the iterator step of on_go_forward, wrapping last to first. */
  function NextIndex(i: nat, n: nat): (j: nat)
    requires i < n
    ensures j < n && j == (i + 1) % n
  {
    if i + 1 == n then ModWrap(i + 1, n); 0 else ModBelow(i + 1, n); i + 1
  }

  /** Position after the iterator step of on_go_back, wrapping first to last. */
  function PrevIndex(i: nat, n: nat): (j: nat)
    requires i < n
    ensures j < n && j == (i + n - 1) % n
  {
    if i == 0 then ModBelow(n - 1, n); n - 1 else ModWrap(i + n - 1, n); i - 1
  }

  /** Image position after the step of refresh_sequence: one past the end
      is the first image, and from before the first image (-1) the step
      lands on the first image. */
  function NextImage(i: int, n: nat): (j: int)
    requires n > 0 && -1 <= i < n
    ensures 0 <= j < n && j == (i + 1) % n
  {
    if i + 1 == n then ModWrap(i + 1, n); 0 else ModBelow(i + 1, n); i + 1
  }

  /** show_image: book the shown image's duration into the sequence time. */
  function ShowImage(exs: seq<Exercise>, s: State): (r: State)
    requires s.exercise < |exs| && 0 <= s.image < |exs[s.exercise].images|
    ensures r.seqTime >= s.seqTime
  {
    s.(seqTime := s.seqTime + exs[s.exercise].images[s.image])
  }

  /** refresh_sequence: advance to the next image when the exercise time has
      caught up with the sequence time. */
  function RefreshSequence(exs: seq<Exercise>, s: State): (r: State)
    requires s.exercise < |exs| && |exs[s.exercise].images| > 0
    requires -1 <= s.image < |exs[s.exercise].images|
    ensures s.exerciseTime < s.seqTime ==> r == s
    ensures s.exerciseTime >= s.seqTime ==>
              r.image == (s.image + 1) % |exs[s.exercise].images| &&
              r.seqTime == s.seqTime + exs[s.exercise].images[r.image]
    ensures r == s.(image := r.image, seqTime := r.seqTime)
  {
    if s.exerciseTime >= s.seqTime then
      ShowImage(exs, s.(image := NextImage(s.image, |exs[s.exercise].images|)))
    else
      s
  }

  /** The audio and timer calls start_exercise makes before showing anything. */
  function StartEvents(v: Variant, ex: Exercise): seq<Event>
  {
    if v == Chiropraktik then
      [RestTimerStopped, AudioUnloaded] + (if ex.hasAudio then [AudioStarted] else [])
    else []
  }

  /** start_exercise: restart the current exercise at time 0 with its first
      image shown. */
  function StartExercise(exs: seq<Exercise>, v: Variant, s: State): (r: State)
    requires Positioned(exs, s)
    ensures Valid(exs, r)
    ensures r.exerciseTime == 0 && r.image == 0
    ensures r.seqTime == exs[s.exercise].images[0]
    ensures r.events == s.events + StartEvents(v, exs[s.exercise])
    ensures r.exercise == s.exercise && r.paused == s.paused && r.stopped == s.stopped
    ensures r.exerciseNum == s.exerciseNum && r.exerciseCount == s.exerciseCount
  {
    var ex := exs[s.exercise];
    RefreshSequence(exs, s.(events := s.events + StartEvents(v, ex),
                            exerciseTime := 0, seqTime := 0, image := -1))
  }

  /** Where the stepping loop of reset leaves the cursor: `pointer` steps
      from the first exercise, or on it when `pointer` is not positive. */
  function StartPosition(pointer: int): nat
  {
    if pointer > 0 then pointer else 0
  }

  /** reset: `pointer` is the value adjust_exercises_pointer(1) returned;
      the cursor is placed that many steps from the first exercise (on the
      first one when the value is not positive), the session counter and
      both flags are cleared, and that exercise starts. */
  function Reset(exs: seq<Exercise>, v: Variant, s: State, pointer: int): (r: State)
    requires WellFormed(exs) && pointer < |exs|
    ensures Valid(exs, r)
    ensures r.exercise == (if pointer > 0 then pointer else 0)
    ensures r.exerciseNum == 0 && !r.paused && !r.stopped
    ensures r.exerciseTime == 0 && r.image == 0 && r.seqTime == exs[r.exercise].images[0]
    ensures r.exerciseCount == s.exerciseCount
    ensures r.events == s.events + [PointerAdjusted(1)] + StartEvents(v, exs[r.exercise])
  {
    StartExercise(exs, v, s.(events := s.events + [PointerAdjusted(1)],
                             exercise := StartPosition(pointer),
                             exerciseNum := 0, paused := false, stopped := false))
  }

  /** The state a new panel is in: exercise_count is 0 and reset() ran.
      The fields reset() overwrites are given arbitrary starting values. */
  function Create(exs: seq<Exercise>, v: Variant, pointer: int): (r: State)
    requires WellFormed(exs) && pointer < |exs|
    ensures Valid(exs, r)
    ensures r.exercise == (if pointer > 0 then pointer else 0)
    ensures r.exerciseNum == 0 && r.exerciseCount == 0
    ensures !r.paused && !r.stopped && r.exerciseTime == 0 && r.image == 0
    ensures r.seqTime == exs[r.exercise].images[0]
  {
    Reset(exs, v, State(0, -1, 0, 0, false, false, 0, 0, []), pointer)
  }

  /** The calls on_stop makes when it does stop. */
  function StopEvents(v: Variant): seq<Event>
  {
    (if v == Chiropraktik then [AudioUnloaded] else []) + [StopSignal]
  }

  /** on_stop: only the first call stops and signals the container. */
  function OnStop(v: Variant, s: State): (r: State)
    ensures r.stopped
    ensures s.stopped ==> r == s
    ensures !s.stopped ==> r.events == s.events + StopEvents(v)
    ensures r == s.(stopped := r.stopped, events := r.events)
  {
    if s.stopped then s
    else s.(stopped := true, events := s.events + StopEvents(v))
  }

  /** on_go_back: previous exercise (first wraps to last), restarted. */
  function GoBack(exs: seq<Exercise>, v: Variant, s: State): (r: State)
    requires Positioned(exs, s)
    ensures Valid(exs, r)
    ensures r.exercise == (s.exercise + |exs| - 1) % |exs|
    ensures s.exercise == 0 ==> r.exercise == |exs| - 1
    ensures r.exerciseTime == 0 && r.image == 0 && r.seqTime == exs[r.exercise].images[0]
    ensures r.paused == s.paused && r.stopped == s.stopped
    ensures r.exerciseNum == s.exerciseNum && r.exerciseCount == s.exerciseCount
    ensures r.events == s.events + [PointerAdjusted(-1)] + StartEvents(v, exs[r.exercise])
  {
    StartExercise(exs, v, s.(events := s.events + [PointerAdjusted(-1)],
                             exercise := PrevIndex(s.exercise, |exs|)))
  }

  /** on_go_forward: next exercise (last wraps to first), restarted. */
  function GoForward(exs: seq<Exercise>, v: Variant, s: State): (r: State)
    requires Positioned(exs, s)
    ensures Valid(exs, r)
    ensures r.exercise == (s.exercise + 1) % |exs|
    ensures s.exercise == |exs| - 1 ==> r.exercise == 0
    ensures r.exerciseTime == 0 && r.image == 0 && r.seqTime == exs[r.exercise].images[0]
    ensures r.paused == s.paused && r.stopped == s.stopped
    ensures r.exerciseNum == s.exerciseNum && r.exerciseCount == s.exerciseCount
    ensures r.events == s.events + [PointerAdjusted(1)] + StartEvents(v, exs[r.exercise])
  {
    StartExercise(exs, v, s.(events := s.events + [PointerAdjusted(1)],
                             exercise := NextIndex(s.exercise, |exs|)))
  }

  /** on_pause: toggle the pause flag; the audio build also pauses or
      resumes the spoken track. */
  function Pause(exs: seq<Exercise>, v: Variant, s: State): (r: State)
    ensures r.paused == !s.paused
    ensures Valid(exs, s) ==> Valid(exs, r)
    ensures r == s.(paused := r.paused, events := r.events)
    ensures v == Default ==> r.events == s.events
    ensures v == Chiropraktik ==>
              r.events == s.events + [if s.paused then AudioResumed else AudioPaused]
  {
    var audio := if v == Chiropraktik then [if s.paused then AudioResumed else AudioPaused] else [];
    s.(paused := !s.paused, events := s.events + audio)
  }

  /** The call the audio build's heartbeat makes while paused. */
  function PausedEvents(v: Variant, paused: bool): seq<Event>
  {
    if v == Chiropraktik && paused then [RestTimerShifted] else []
  }

  /** The sound chosen at the end of an exercise. */
  function EndSound(stopped: bool): Sound
  {
    if stopped then ExercisesEnded else ExerciseEnded
  }

  /** heartbeat, once a second.  Nothing moves while paused or stopped;
      otherwise the exercise time goes up by one, and either the image
      sequence is refreshed or, at the duration, the exercise ends: the
      default build moves on, counts it, stops at exercise_count and picks
      a sound; the audio build only stops. */
  function Heartbeat(exs: seq<Exercise>, v: Variant, s: State): (r: State)
    requires Valid(exs, s)
    ensures Valid(exs, r)
    ensures r.exerciseCount == s.exerciseCount
    ensures s.paused || s.stopped ==> r == s.(events := s.events + PausedEvents(v, s.paused))
    ensures !s.paused && !s.stopped && s.exerciseTime + 1 < exs[s.exercise].duration ==>
              r.exercise == s.exercise && r.exerciseTime == s.exerciseTime + 1 &&
              !r.paused && !r.stopped && r.exerciseNum == s.exerciseNum && r.events == s.events &&
              r.image == (if s.exerciseTime + 1 >= s.seqTime
                          then (s.image + 1) % |exs[s.exercise].images| else s.image) &&
              r.seqTime == (if s.exerciseTime + 1 >= s.seqTime
                            then s.seqTime + exs[s.exercise].images[r.image] else s.seqTime)
    ensures !s.paused && !s.stopped && s.exerciseTime + 1 == exs[s.exercise].duration &&
            v == Default ==>
              r.exercise == (s.exercise + 1) % |exs| && r.exerciseTime == 0 && r.image == 0 &&
              r.seqTime == exs[r.exercise].images[0] &&
              r.exerciseNum == s.exerciseNum + 1 && !r.paused &&
              r.stopped == (s.exerciseNum + 1 == s.exerciseCount) &&
              r.events == s.events + [PointerAdjusted(1)] +
                          (if r.stopped then [StopSignal] else []) + [PlaySound(EndSound(r.stopped))]
    ensures !s.paused && !s.stopped && s.exerciseTime + 1 == exs[s.exercise].duration &&
            v == Chiropraktik ==>
              r == s.(exerciseTime := s.exerciseTime + 1, stopped := true)
  {
    var s1 := s.(events := s.events + PausedEvents(v, s.paused));
    if s1.paused || s1.stopped then s1
    else
      var s2 := s1.(exerciseTime := s1.exerciseTime + 1);
      if s2.exerciseTime >= exs[s2.exercise].duration then
        if v == Chiropraktik then s2.(stopped := true)
        else
          var s3 := GoForward(exs, v, s2);
          var s4 := s3.(exerciseNum := s3.exerciseNum + 1);
          var s5 := if s4.exerciseNum == s4.exerciseCount then OnStop(v, s4) else s4;
          s5.(events := s5.events + [PlaySound(EndSound(s5.stopped))])
      else
        RefreshSequence(exs, s2)
  }

  /** The state after n heartbeats. */
  function Ticks(exs: seq<Exercise>, v: Variant, s: State, n: nat): (r: State)
    requires Valid(exs, s)
    ensures Valid(exs, r)
  {
    if n == 0 then s else Heartbeat(exs, v, Ticks(exs, v, s, n - 1))
  }
}
