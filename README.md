# Vehicle-alert loop: a Dafny model

`alert_system.py` watches a webcam, runs a pretrained object detector on every
frame and sounds a buzzer when a car, bus, truck or motorcycle is in view. A
5-second cooldown keeps it from sounding again straight away. This project models
the script's four pieces of decision logic. The detector, the camera driver, the
audio library and the clock become inputs.

- `audio_search.dfy` (module `AudioSearch`) models `find_audio_file`. A
  command-line path is used if it exists and ends in an audio suffix. Otherwise
  there is a preferred search over location × extension × buzzer-like name, then a
  generic search over location × extension. The model also defines the glob
  results both searches read. The functions are pure.
- `alert_gate.dfy` (module `AlertGate`) models one frame's decision. The scan
  for a target label is a method with a loop. The cooldown rule and the buzzer's
  outcome (played, playback error caught, no file) are predicates and functions.
- `capture.dfy` (module `Capture`) models the camera search at start-up. It tries
  DirectShow, Media Foundation and auto-detect at index 0, then indices 0, 1 and 2
  on the default backend. Class `Camera` holds the `cap` handle and records every
  open, read and release it asks of the driver. The driver is an oracle that says,
  per attempt, whether the handle opens and whether its probe read gives a frame.
- `alert_loop.dfy` (module `AlertLoop`) models the `while True` loop. A failed
  read releases the handle and reopens DirectShow index 0, and the loop stops if
  that handle is not open. A good read runs the gate. The key 'q' stops the loop,
  and the handle is released after the loop. Class `AlertSystem` holds the buzzer
  file, the camera, `last_alert_time` and the alerts raised. `Launch` runs the
  whole script. Each iteration is driven by a `Tick`: a failed read (with the
  reopen result), or a frame's detections, the time, the playback result and the
  key code.
- `base.dfy` (module `Base`) holds `Option` and `EndsWith`.

Each state-changing method is proved against a pure function of the old state:
`Camera.SelectCamera` against `SelectionTrace`/`SelectedCap`, and
`AlertSystem.Step`/`Run` against `StepSpec`/`RunSpec`. The properties are lemmas
about those functions.

Four facts about the code that the model keeps:
- The loop reconnects on every failed read, with no limit on the number of
  reconnects (`ReconnectOnEveryFailedRead`).
- The reconnect checks only that the new handle opened. It does not read a
  probe frame.
- An index-phase handle that never opens is never released, because the
  index loop has no branch for it (`ReleasedAttempts`). This holds on
  successful runs too. At the no-camera exit, `cap` still holds the last such
  handle if index 2 did not open, and nothing releases it (`SelectedCap`).
- The cooldown timestamp never decreases, and alerts stay more than 5 s apart,
  even if the clock jumps back. This holds because an alert fires only when
  `now > last + 5` (`RunSpaced`).

## Model

| member | source | states |
|---|---|---|
| `AudioSearch.FirstMatch` | alert_system.py:43-61 | a first-match search returns the first glob result of the first pattern whose glob is not empty, all earlier patterns having matched nothing; it returns None iff no pattern matches |
| `AudioSearch.PreferredOrder` | alert_system.py:43-51 | the preferred search tries, for each existing location in order, each extension in order, each preferred name in order (pattern 24·i + 6·j + k is location i, extension j, name k), skipping locations that do not exist |
| `AudioSearch.GenericOrder` | alert_system.py:54-61 | the generic search tries `location/*ext` for each existing location, then each extension (pattern 4·i + j) |
| `AudioSearch.SearchIsOneFirstMatch` | alert_system.py:42-64 | the two searches act as one first-match search over all preferred patterns followed by all generic ones, so no generic match is returned while any preferred pattern matches |
| `AudioSearch.SearchNoneIff` | alert_system.py:53-64 | the search returns None iff no preferred and no generic pattern matches anything |
| `AudioSearch.FoundFileIsValidOverride` | alert_system.py:12-61 | on a file system whose listings name existing files, every path find_audio_file returns exists and, lower-cased, ends in an audio suffix, so it would itself be accepted as a command-line path |
| `AudioSearch.OverrideRoundTrip` | alert_system.py:12-16 | passing the file found back as the command-line argument returns that file again |
| `AudioSearch.InvalidOverrideIgnored` | alert_system.py:12-18 | a command-line path that does not exist or lacks an audio suffix is ignored: the result is the one obtained with no argument |
| `AudioSearch.FindAudioFile` | alert_system.py:8-64 | definition, no contract: a valid `argv[1]` is returned, otherwise the result of the two searches |
| `AudioSearch.ValidOverride` | alert_system.py:14 | definition, no contract: the path exists and its lower-cased form ends in .mp3, .wav, .ogg or .m4a |
| `AudioSearch.Search` | alert_system.py:42-64 | definition, no contract: first match over the preferred patterns, else first match over the generic ones, else None |
| `AudioSearch.Glob` | alert_system.py:48 | definition, no contract: `glob.glob` of an exact path is that path if it exists; of `dir/*suffix` it is the listed names matching, in listing order |
| `AudioSearch.Matching` | alert_system.py:58 | definition, no contract: the paths `dir/name` of the listed names that match `*suffix` |
| `AudioSearch.StarMatch` | alert_system.py:57-58 | definition, no contract: `*suffix` matches a non-hidden name that ends in the suffix, case-sensitively |
| `AudioSearch.Locations` | alert_system.py:24-35 | definition, no contract: the working directory, then Downloads, Music, Desktop and Documents under the home directory |
| `AudioSearch.ExpandHome` | alert_system.py:28 | definition, no contract: `~/sub` becomes the home directory, stripped of trailing slashes, joined with sub |
| `AudioSearch.RStripSlashes` | alert_system.py:28 | definition, no contract: the home directory with its trailing slashes removed, as `expanduser` does before appending the rest |
| `AudioSearch.Join` | alert_system.py:47 | definition, no contract: `os.path.join` on POSIX: the name appended after a `/` unless the directory is empty or already ends in one (also line 57) |
| `AudioSearch.LowerChar` | alert_system.py:14 | definition, no contract: `str.lower` of one character: ASCII capitals become small letters |
| `AudioSearch.Lower` | alert_system.py:14 | definition, no contract: `custom_path.lower()`, character by character |
| `AudioSearch.AudioName` | alert_system.py:14 | definition, no contract: `endswith(('.mp3', '.wav', '.ogg', '.m4a'))`: the string ends in one of the four suffixes |
| `AudioSearch.Tail` | alert_system.py:47 | definition, no contract: `extension[1:]`, which drops the `*` |
| `AudioSearch.Existing` | alert_system.py:43-44 | definition, no contract: the search locations for which `os.path.exists` holds, in order (also lines 54-55) |
| `AudioSearch.NamedIn` | alert_system.py:46-47 | definition, no contract: the innermost preferred loop: one exact pattern `location/name.ext` per preferred name, in order |
| `AudioSearch.PreferredIn` | alert_system.py:45-47 | definition, no contract: the extension loop around it: for each extension in order, the patterns of every preferred name |
| `AudioSearch.PreferredPatterns` | alert_system.py:43-47 | definition, no contract: the whole preferred loop nest: for each existing location, the patterns of every extension and name |
| `AudioSearch.WildcardsIn` | alert_system.py:56-57 | definition, no contract: the generic extension loop: one `location/*ext` pattern per extension, in order |
| `AudioSearch.GenericPatterns` | alert_system.py:54-57 | definition, no contract: the whole generic loop nest: for each existing location, its wildcard patterns |
| `AlertGate.ScanDetections` | alert_system.py:156-161 | the scan returns true iff some detection's label is car, bus, truck or motorcycle |
| `AlertGate.HasTargetIffSomeLabel` | alert_system.py:157-160 | a target is present iff one of the detections' labels is a target label |
| `AlertGate.GateReadsOnlyLabels` | alert_system.py:157-165 | two frames whose detections carry the same labels get the same decision: confidence and box are never consulted |
| `AlertGate.GateNeedsBoth` | alert_system.py:165 | a fire needs now > last + 5 (strict); without a target nothing fires however long the cooldown has run |
| `AlertGate.GateExamples` | alert_system.py:159-174 | car at t=10 after 0 fires; car at t=3 or exactly t=5 does not; person at t=100 does not; no file gives a visual-only alert, a failed playback is reported, not raised |
| `AlertGate.ShouldFire` | alert_system.py:165 | definition, no contract: a target is present and now − last > 5 |
| `AlertGate.Dispatch` | alert_system.py:167-174 | definition, no contract: with a non-empty file, played or playback error caught by the playback flag; otherwise visual only |
| `AlertGate.IsTarget` | alert_system.py:159 | definition, no contract: the label is car, bus, truck or motorcycle |
| `AlertGate.HasTarget` | alert_system.py:156-161 | definition, no contract: some detection's label is a target label, the value `detected` ends with |
| `AlertGate.Labels` | alert_system.py:157-158 | definition, no contract: the detections' labels, in order |
| `AlertGate.CooldownElapsed` | alert_system.py:165 | definition, no contract: `current_time - last_alert_time > alert_interval` |
| `Capture.FirstWorking` | alert_system.py:86-116 | the search settles on the first attempt that both opens and gives a probe frame, no earlier attempt having done both; None iff none does |
| `Capture.Camera.TryBackend` | alert_system.py:86-101 | one backend attempt opens a handle, probes it, and on either failure releases it and clears `cap` |
| `Capture.Camera.TryIndex` | alert_system.py:106-116 | one index attempt opens a handle, probes it, releases it only if it opened but gave no frame, and leaves an unopened handle in `cap` |
| `Capture.Camera.TryBackends` | alert_system.py:86-101 | the backend loop stops at the first working attempt; otherwise all three failed, each released, and `cap` is None |
| `Capture.Camera.TryIndices` | alert_system.py:103-116 | the index loop stops at the first working attempt; otherwise all three failed |
| `Capture.Camera.SelectCamera` | alert_system.py:79-126 | the program continues iff some attempt works; `cap` is then that attempt's open handle, and the driver calls made are exactly the selection trace |
| `Capture.IndexPhaseOnlyAfterBackendsFail` | alert_system.py:103-106 | indices are tried only when every backend failed; with no working attempt all six are tried |
| `Capture.TriesInPlanOrder` | alert_system.py:80-108 | handles are constructed one per candidate in the order DirectShow, Media Foundation, auto-detect at index 0, then indices 0, 1, 2 |
| `Capture.FailedProbeReleasedNext` | alert_system.py:91-116 | every failed probe read is followed at once by the release of that handle, before the next candidate is opened |
| `Capture.ReleasedAttempts` | alert_system.py:95-116 | the released handles are exactly the failed attempts that opened, plus every failed backend attempt |
| `Capture.AttemptEvents` | alert_system.py:88-116 | definition, no contract: the driver calls of one attempt: open, probe read, and release as each phase does it |
| `Capture.SelectedCap` | alert_system.py:79-119 | definition, no contract: the handle `cap` holds after the search: the working attempt's, or what the last index attempt left |
| `Capture.Works` | alert_system.py:89-92 | definition, no contract: attempt k of the plan opens and its probe read gives a frame (also lines 109-111) |
| `Capture.Selection` | alert_system.py:86-116 | definition, no contract: the first working attempt of the whole plan, backends then indices |
| `Capture.Attempts` | alert_system.py:86-116 | definition, no contract: how many handles the search constructs: up to and including the working one, else all six |
| `Capture.TraceUpTo` | alert_system.py:86-116 | definition, no contract: the driver calls of the first n attempts, in order |
| `Capture.SelectionTrace` | alert_system.py:79-116 | definition, no contract: the driver calls of the whole start-up search |
| `Capture.SelectedAfter` | alert_system.py:108-116 | definition, no contract: what `cap` holds after a failing index attempt: None if it opened (released and cleared), else the unopened handle |
| `Capture.Camera.constructor` | alert_system.py:79 | `cap` starts as None, with no handles constructed and no driver calls |
| `Capture.Camera.OpenHandle` | alert_system.py:88 | `cv2.VideoCapture(...)`: `cap` becomes a new handle under the next id, open or not as the driver says, and the open is recorded (also lines 108, 146) |
| `Capture.Camera.ReadFrame` | alert_system.py:91 | `cap.read()`: the handle is unchanged and the read, with the driver's outcome, is recorded (also lines 110, 140) |
| `Capture.Camera.ReleaseHandle` | alert_system.py:96 | `cap.release()`: the handle is unchanged and its release is recorded (also lines 100, 115, 144, 184) |
| `AlertLoop.RunStatus` | alert_system.py:139-181 | the loop stops with the status of the first tick that stops it (reopen not opened, or 'q'); it has run through every tick when none stops it |
| `AlertLoop.AlertSystem.constructor` | alert_system.py:72-73 | the buzzer file is the result of find_audio_file; no camera handle and no alerts yet |
| `AlertLoop.AlertSystem.Step` | alert_system.py:139-181 | one iteration changes the state exactly as StepSpec says, and its status is that of the tick |
| `AlertLoop.AlertSystem.Run` | alert_system.py:139-186 | the loop and its clean-up change the state exactly as RunSpec says and end with RunStatus |
| `AlertLoop.Launch` | alert_system.py:72-186 | the program exits before the loop iff no camera attempt works; otherwise it runs the loop from the selected handle with timestamp 0 |
| `AlertLoop.FrameStep` | alert_system.py:163-175 | after a good read an alert fires iff a target is present and now − last > 5; the timestamp changes iff an alert fires, and then becomes now |
| `AlertLoop.PlaybackDoesNotAffectGate` | alert_system.py:167-175 | whether audio plays, raises, or no file exists, the timestamp, the camera and the alert times are the same |
| `AlertLoop.ReadFailedStep` | alert_system.py:140-150 | a failed read releases the handle, opens DirectShow index 0 under a fresh id, raises no alert and keeps the timestamp; the loop stops iff that handle did not open |
| `AlertLoop.StepSpaced` | alert_system.py:165-175 | one iteration keeps the alerts more than 5 s apart and never lowers the timestamp |
| `AlertLoop.RunSpaced` | alert_system.py:163-175 | over any run, whatever the clock does, every two alerts are more than 5 s apart and the timestamp never decreases |
| `AlertLoop.TimestampIsLatestAlert` | alert_system.py:165-175 | alerts are only appended; the timestamp is the time of the latest alert, or unchanged when none fired |
| `AlertLoop.CleanupOnEveryExit` | alert_system.py:139-186 | on both ways out of the loop, the last driver call is the release of the current handle |
| `AlertLoop.ReconnectOnEveryFailedRead` | alert_system.py:140-150 | every failed read the loop consumes opens exactly one new handle and nothing else opens one |
| `AlertLoop.NoAlertStorm` | alert_system.py:133-175 | from the start of the loop, any two alerts are more than 5 s apart, so a 5-second window holds at most one |
| `AlertLoop.IsQuitKey` | alert_system.py:179 | definition, no contract: the key code masked to its low byte is `ord('q')` |
| `AlertLoop.StepSpec` | alert_system.py:139-181 | definition, no contract: one loop iteration on the abstract state, for a failed read or a frame |
| `AlertLoop.Cleanup` | alert_system.py:183-184 | definition, no contract: the release of the current handle after the loop |
| `AlertLoop.RunSpec` | alert_system.py:139-186 | definition, no contract: iterations until a tick stops the loop, then the clean-up |
| `AlertLoop.TickStatus` | alert_system.py:147-181 | definition, no contract: a failed read stops the loop iff the reopened handle is not open, else it continues; a frame stops it iff the key is 'q' |
| `AlertLoop.StartMachine` | alert_system.py:133-134 | definition, no contract: the state at loop entry: the selected open handle, the start-up driver calls, timestamp 0 and no alerts |
| `AlertLoop.AlertSystem.State` | alert_system.py:139-186 | definition, no contract: the abstract state of the script: the camera handle, its driver calls, the timestamp and the alerts |

## Left out

- Object detection (the model download, inference, class-index-to-name lookup): each frame's detections are an input.
- Frame contents, `cap.set` of resolution and frame rate, `imshow`, `destroyAllWindows`: display and device settings with no effect on the decisions. `waitKey` is an input key code.
- Audio: mixer init, load, play and quit are left out. Playback is an input flag saying whether the audio library raised its error. Other exceptions are not modelled.
- Time: `time.time()` is an input real, and the one-second sleep before a reconnect is omitted.
- Printed diagnostics are left out.
- `AudioSearch`: paths are POSIX. Windows path joining, case-insensitive matching on Windows, glob metacharacters inside location names, non-ASCII case folding in `str.lower`, `expanduser` with `HOME` unset, and symbolic links are not modelled (an exact glob tests `lexists`, which the model takes as existence). The order of glob results is the directory listing order, which is an input.
- `AudioSearch.FoundFileIsValidOverride` and `AudioSearch.OverrideRoundTrip`: these assume a file system whose directory listings name existing paths, because the model gives existence and listings separately.
- `Capture.Camera.SelectCamera`: this requires a camera with no handles constructed yet, because the source runs the search once at start-up.
- `AlertLoop.AlertSystem.Run`: the model runs on a finite sequence of ticks. When the ticks run out, the loop has not stopped and no clean-up runs. The real loop would keep reading.
