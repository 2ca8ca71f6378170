# Exercise sequencer of the Workrave exercises panel, in Dafny

The exercises panel of the rest-break dialog plays a circular list of
exercises. Each exercise has a duration in seconds and a circular sequence of
images, each shown for its own number of seconds. A heartbeat once a second
advances the exercise clock. The panel moves to the next image when the clock
reaches the time booked for the images shown so far. When the clock reaches
the exercise's duration, the exercise ends. The user can go back, go forward,
pause and stop. The panel counts finished exercises and stops once the count
reaches the session length set with `set_exercise_count`. A build flag,
`HAVE_CHIROPRAKTIK`, adds spoken audio, control of the rest-break timer, a
volume button, and an end-of-exercise branch that only stops.

The model has four files:

- `sequencer.dfy` (module `Sequencer`): the panel's sequencer fields as a
  `State` value, the well-formedness of the exercise registry, the invariant
  `Valid`, and one function per transition (`Reset`, `StartExercise`,
  `RefreshSequence`, `ShowImage`, `OnStop`, `GoBack`, `GoForward`, `Pause`,
  `Heartbeat`), plus `Ticks`, the state after n heartbeats. The build flag is
  the `Variant` parameter (`Default` or `Chiropraktik`).
- `exercises_panel.dfy` (module `Panel`): class `ExercisesPanel` with the
  panel's fields. Each method updates them in place as the C++ member
  function does, and is proved to reach the state that the matching
  `Sequencer` function gives. The list iterators become positions: `exercise`
  indexes the exercise list. `image` indexes the image list, and -1 stands
  for the `end()` sentinel that `start_exercise` sets, whose increment lands
  on the first image.
- `sequencer_properties.dfy` (module `SequencerProperties`): runs of
  heartbeats, navigation round trips, repeated stops, and the example session
  A(3 s; images 2 s, 1 s), B(2 s; image 2 s).
- `speak_volume.dfy` (module `SpeakVolume`): the five-entry volume table,
  the down-counting search of `speak_volume_index` (as a function and as the
  loop), and the step of `on_speak_volume`.

Calls into collaborators are recorded as `Event` values, in call order, in
`State.events` and in the class's ghost field `events`. These collaborators
are `adjust_exercises_pointer`, the mp3 player, the rest-break timer,
`stop_signal()` and the sound player. The value that
`adjust_exercises_pointer(1)` returns to `reset` is a parameter (`pointer`,
any integer below the number of exercises); a value that is not positive
leaves the cursor on the first exercise, as the stepping loop does. The spoken volume stored in the GUI settings
is the argument and the result of `OnSpeakVolume`.

The exercise registry must be non-empty. Every exercise must have a positive
duration and at least one image (`WellFormed`). With an empty list, the C++
code dereferences `end()`. Image durations may be 0. The invariant `Valid`
says that an image is shown and that the exercise clock is below the
duration, except in the audio build: there the heartbeat stops the panel with
the clock at the duration and does not move on.

## Model

| member | source | states |
|---|---|---|
| `Sequencer.NextIndex` | frontend/plugin/exercises/gtkmm/src/ExercisesPanel.cc:501-505 | the forward step lands on (i + 1) mod n, so the last exercise wraps to the first |
| `Sequencer.PrevIndex` | frontend/plugin/exercises/gtkmm/src/ExercisesPanel.cc:486-493 | the backward step lands on (i + n - 1) mod n, so the first exercise wraps to the last |
| `Sequencer.NextImage` | frontend/plugin/exercises/gtkmm/src/ExercisesPanel.cc:451-456 | the image step lands on (i + 1) mod n within the image list; from the end() sentinel (-1) it lands on the first image |
| `Sequencer.ShowImage` | frontend/plugin/exercises/gtkmm/src/ExercisesPanel.cc:425-429 | showing an image never lowers the booked sequence time (the exact amount added, the shown image's duration, is stated by `Sequencer.RefreshSequence`) |
| `Sequencer.RefreshSequence` | frontend/plugin/exercises/gtkmm/src/ExercisesPanel.cc:447-459 | below the booked time nothing changes; otherwise the image advances exactly one step with wrap-around and the new image's duration is added to the sequence time; no other field changes |
| `Sequencer.StartExercise` | frontend/plugin/exercises/gtkmm/src/ExercisesPanel.cc:393-422 | the current exercise restarts at time 0 on its first image, with that image's duration booked; flags and counters are kept; the audio build logs the timer stop, the audio unload and, when the exercise has audio, its start |
| `Sequencer.Reset` | frontend/plugin/exercises/gtkmm/src/ExercisesPanel.cc:376-390 | the cursor is `pointer` steps from the first exercise, or on the first exercise when `pointer` is not positive; the session counter and both flags are cleared; that exercise starts at time 0 on its first image; the invariant holds |
| `Sequencer.Create` | frontend/plugin/exercises/gtkmm/src/ExercisesPanel.cc:345-350 | a new panel has exercise_count 0 and is in the state reset() gives: running, not paused, at time 0 on the first image of the exercise the pointer selects, with that image's duration booked |
| `Sequencer.OnStop` | frontend/plugin/exercises/gtkmm/src/ExercisesPanel.cc:470-480 | afterwards the panel is stopped; if it was already stopped nothing changes; otherwise (audio unload and) one stop signal is logged; no other field changes |
| `Sequencer.GoBack` | frontend/plugin/exercises/gtkmm/src/ExercisesPanel.cc:483-495 | moves to the previous exercise, the first wrapping to the last, restarted at time 0 on its first image; paused, stopped and the counters are unchanged |
| `Sequencer.GoForward` | frontend/plugin/exercises/gtkmm/src/ExercisesPanel.cc:498-507 | moves to the next exercise, the last wrapping to the first, restarted at time 0 on its first image; paused, stopped and the counters are unchanged |
| `Sequencer.Pause` | frontend/plugin/exercises/gtkmm/src/ExercisesPanel.cc:586-600 | toggles the pause flag only and keeps the invariant; the default build logs nothing, the audio build logs the audio pause when it pauses and the audio resume when it resumes |
| `Sequencer.Heartbeat` | frontend/plugin/exercises/gtkmm/src/ExercisesPanel.cc:603-642 | keeps the invariant; paused or stopped: nothing but the audio build's timer shift; below the duration: time + 1, same exercise, flags, counter and log, image advanced one step (with wrap-around) and its duration added to the booked time only when the time reaches the booked time, both unchanged otherwise; at the duration (default): next exercise at time 0 on its first image, counter + 1, stopped exactly when the counter reaches exercise_count, stop signal then "exercises ended", or else "exercise ended"; at the duration (audio build): only stopped and time + 1 |
| `Sequencer.Ticks` | frontend/plugin/exercises/gtkmm/src/ExercisesPanel.cc:345-346 | any number of heartbeats keeps the invariant |
| `SequencerProperties.BackUndoesForward` | frontend/plugin/exercises/gtkmm/src/ExercisesPanel.cc:483-507 | going back after going forward, or forward after back, returns to the starting exercise |
| `SequencerProperties.StopIdempotent` | frontend/plugin/exercises/gtkmm/src/ExercisesPanel.cc:470-480 | a second on_stop changes nothing; over two calls exactly one stop signal is emitted if the panel was running, none if it was stopped |
| `SequencerProperties.PauseTwiceRestores` | frontend/plugin/exercises/gtkmm/src/ExercisesPanel.cc:586-600 | two pause presses leave every sequencer field as it was |
| `SequencerProperties.HaltedTicks` | frontend/plugin/exercises/gtkmm/src/ExercisesPanel.cc:603-615 | while paused or stopped, n heartbeats change no sequencer field; the audio build logs one rest-break timer shift per heartbeat while paused |
| `SequencerProperties.TicksWithinExercise` | frontend/plugin/exercises/gtkmm/src/ExercisesPanel.cc:617-641 | n heartbeats that stay below the duration add exactly n to the exercise time and change nothing but the time, the image and the booked time |
| `SequencerProperties.CompleteExercise` | frontend/plugin/exercises/gtkmm/src/ExercisesPanel.cc:617-636 | the heartbeats left until the duration end the exercise: default build at the next exercise (wrapping), time 0, first image, counter + 1, stopped exactly at exercise_count, with the matching sound last; audio build on the same exercise at its duration, stopped, counter unchanged |
| `SequencerProperties.NoStopPastCount` | frontend/plugin/exercises/gtkmm/src/ExercisesPanel.cc:627-631 | in the default build, with the counter at or past exercise_count, no run of heartbeats stops the session, and the counter never decreases |
| `SequencerProperties.NewPanelNeverStops` | frontend/plugin/exercises/gtkmm/src/ExercisesPanel.cc:345-350 | a new default-build panel, whose exercise_count is 0, never stops through heartbeats alone |
| `SequencerProperties.ExampleSession` | frontend/plugin/exercises/gtkmm/src/ExercisesPanel.cc:603-642 | the session A(3 s; 2 s, 1 s), B(2 s; 2 s) starts on A's first image booked to 2 s, shows A's second image at t = 2, and at t = 3 is on B at time 0, first image, counter 1, with "exercise ended" |
| `SpeakVolume.SearchDown` | frontend/plugin/exercises/gtkmm/src/ExercisesPanel.cc:545-552 | the search from position k returns the last position at or below k that holds the volume, or -1 when none does |
| `SpeakVolume.SpeakVolumeIndex` | frontend/plugin/exercises/gtkmm/src/ExercisesPanel.cc:542-556 | the index is in [0, 5); it holds the volume when the table has it, and is 0 otherwise |
| `SpeakVolume.FindSpeakVolumeIndex` | frontend/plugin/exercises/gtkmm/src/ExercisesPanel.cc:542-556 | the down-counting loop with its break and its fallback to 0 returns a valid index, the same one `SpeakVolumeIndex` defines |
| `SpeakVolume.NextSpeakVolume` | frontend/plugin/exercises/gtkmm/src/ExercisesPanel.cc:558-566 | the stored volume is a table entry, the one after the current index mod 5, and differs from the current volume when that is in the table |
| `SpeakVolume.PressAt` | frontend/plugin/exercises/gtkmm/src/ExercisesPanel.cc:533-565 | each table volume is found at its own position, and one press gives the entry at the next position mod 5 |
| `SpeakVolume.MutedWrapsToLoudest` | frontend/plugin/exercises/gtkmm/src/ExercisesPanel.cc:563-565 | one press on muted (0) gives 1000 |
| `SpeakVolume.UnknownVolumeStepsToSecond` | frontend/plugin/exercises/gtkmm/src/ExercisesPanel.cc:553-565 | a volume not in the table counts as index 0, so one press gives 750 |
| `SpeakVolume.FivePressesReturn` | frontend/plugin/exercises/gtkmm/src/ExercisesPanel.cc:558-566 | five presses from any table volume return to it |
| `Panel.ExercisesPanel.constructor` | frontend/plugin/exercises/gtkmm/src/ExercisesPanel.cc:345-350 | the new panel is valid and in the state `Sequencer.Create` gives |
| `Panel.ExercisesPanel.Reset` | frontend/plugin/exercises/gtkmm/src/ExercisesPanel.cc:376-390 | the stepping loop places the cursor `pointer` steps from the first exercise (none when `pointer` is not positive), and the fields end as `Sequencer.Reset` gives; the panel is valid |
| `Panel.ExercisesPanel.StartExercise` | frontend/plugin/exercises/gtkmm/src/ExercisesPanel.cc:393-422 | the fields end as `Sequencer.StartExercise` gives; the panel is valid |
| `Panel.ExercisesPanel.ShowImage` | frontend/plugin/exercises/gtkmm/src/ExercisesPanel.cc:425-429 | only the booked sequence time changes, as `Sequencer.ShowImage` gives |
| `Panel.ExercisesPanel.RefreshSequence` | frontend/plugin/exercises/gtkmm/src/ExercisesPanel.cc:447-459 | only the image and the booked time change, as `Sequencer.RefreshSequence` gives |
| `Panel.ExercisesPanel.OnStop` | frontend/plugin/exercises/gtkmm/src/ExercisesPanel.cc:470-480 | only the stopped flag and the log change, as `Sequencer.OnStop` gives; validity is kept |
| `Panel.ExercisesPanel.OnGoBack` | frontend/plugin/exercises/gtkmm/src/ExercisesPanel.cc:483-495 | the fields end as `Sequencer.GoBack` gives; the panel is valid |
| `Panel.ExercisesPanel.OnGoForward` | frontend/plugin/exercises/gtkmm/src/ExercisesPanel.cc:498-507 | the fields end as `Sequencer.GoForward` gives; the panel is valid |
| `Panel.ExercisesPanel.OnPause` | frontend/plugin/exercises/gtkmm/src/ExercisesPanel.cc:586-600 | only the pause flag and the log change, as `Sequencer.Pause` gives; validity is kept |
| `Panel.ExercisesPanel.Heartbeat` | frontend/plugin/exercises/gtkmm/src/ExercisesPanel.cc:603-642 | the in-place heartbeat, which calls on_go_forward, on_stop and refresh_sequence, ends as `Sequencer.Heartbeat` gives; validity is kept |
| `Panel.ExercisesPanel.SetExerciseCount` | frontend/plugin/exercises/gtkmm/src/ExercisesPanel.cc:646-649 | only exercise_count changes, to the given value; validity is kept |
| `Panel.ExercisesPanel.OnSpeakVolume` | frontend/plugin/exercises/gtkmm/src/ExercisesPanel.cc:559-569 | returns `NextSpeakVolume` of the current volume, a table entry, and logs it as the player volume; no sequencer field changes |

## Left out

- Markup parsing into the description text buffer (`text_buffer_insert_markup_real`, `text_buffer_set_markup`): GTK and Pango glue; `start_exercise`'s description text is therefore not modelled.
- Widget construction, layout, button wiring, `on_realize`, the destructor and the button label chosen by `refresh_pause`: user interface only.
- Image file loading and mirroring in `show_image`, and the volume icon of `refresh_speak_volume`: file I/O and graphics; only the sequence-time bookkeeping of `show_image` is modelled.
- `refresh_progress`: a floating-point progress-bar fraction; the integer bound it relies on (time at most the duration) is part of `Valid`.
- `adjust_exercises_pointer` and the shared static `exercises_pointer`: the body is not part of this model; `reset` takes the result as a parameter, assumed below the number of exercises (a larger value would step past the end of the list), and `on_go_back`/`on_go_forward` only log the call.
- The mp3 player, the rest-break timer, the sound player and `stop_signal()`: foreign calls, recorded only as logged events; the audio file path and the starting volume of a spoken exercise are not modelled.
- Heartbeat signal connection and disconnection, the advert click (`on_ad_clicked`, which also calls `on_stop`) and its cursor handler: event plumbing and operating-system calls.
- `src/app/gtkmm/PreferencesDialog.cc`: preferences pages built on static configuration and sound-player interfaces that are not part of this model.
- Panel.ExercisesPanel.OnSpeakVolume: callable only in the audio build, because `on_speak_volume` exists only when `HAVE_CHIROPRAKTIK` is defined; the settings read and write around it are its argument and result.
