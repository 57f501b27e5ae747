# VoiceFlow gesture-to-recording core, in Dafny

VoiceFlow turns a "double-tap then hold" of the Fn key into a voice recording.
When the key is released, the recording is transcribed and the transcript is pasted
at the cursor. This project models the part of the system that decides when
recording starts and stops:

- `hotkey.dfy` (module `Hotkey`): the Fn-key gesture classifier (`HotkeyManager`).
  Modifier-flag snapshots become press and release edges. A press less than
  300 ms after the previously recorded press enters push-to-talk and fires
  `onDoubleTapFn` then `onFnKeyDown`. A release in push-to-talk fires `onFnKeyUp`.
  Time is an explicit input in integer milliseconds. The pure functions `KeyDown`,
  `KeyUp`, `FlagsChanged` and `Run` specify the class `HotkeyManager`, whose
  handlers update its three fields in place and return the callbacks they fired.
- `menubar.dfy` (module `MenuBar`): the recording orchestrator (`MenuBarController`).
  It holds the `isRecording` guard, the backend start and stop requests, the paste
  of a non-empty transcript, the status indicator, and the wiring of the hotkey
  callbacks to start and stop. Each asynchronous `Task` body becomes a `Completion`
  event that is applied later (`StartSucceeded`, `StartFailed`,
  `StopSucceeded(text)`, `StopFailed`). Interleavings of key snapshots and
  completions are therefore plain event sequences (`RunApp`).
- `capture.dfy` (module `Capture`): the backend's `AudioCapture`, with the states
  Idle, Recording and Stopped. Chunks are queued only while recording. `stop`
  drains them oldest first and concatenates them. Samples are of an abstract
  type, and a chunk is a sequence of samples.
- `routes.dfy` (module `Routes`): the HTTP handlers `/status`, `/start`, `/stop`
  and `/config`, over the two lazily created module globals. The transcriber is a
  function parameter of the `Api` class.
- `wrappers.dfy` (module `Wrappers`): `Option`.

Where the code and the intended design of the gesture differ, the model follows the code:

- The double-tap gap is measured from press to press, because `lastFnPressTime`
  records presses (VoiceFlowApp/Sources/HotkeyManager.swift:64-73). It is not
  measured from the release to the next press.
- There is no waiting state and no cancellable timeout. The check scheduled after
  a first press does nothing (`HoldCheck`). A stale `lastFnPressTime` only stops
  counting because 300 ms have passed.
- `isRecording` is set when the start request is issued, not when the backend
  acknowledges it. It is cleared when the stop request is issued, not when the stop
  call settles. A failed stop leaves it as it is.
- A start failure carries no session identity. A start that fails late therefore
  clears the flag of a newer session (`LateStartFailureLosesStop`).

## Model

| member | source | states |
|---|---|---|
| `Hotkey.KeyDown` | VoiceFlowApp/Sources/HotkeyManager.swift:60-83 | A press fires callbacks iff a press was recorded less than 300 ms earlier. It then fires exactly `[DoubleTapFn, FnKeyDown]`, enters push-to-talk and forgets the recorded press. Otherwise it fires nothing, records `now` and leaves push-to-talk as it was. |
| `Hotkey.KeyUp` | VoiceFlowApp/Sources/HotkeyManager.swift:85-91 | A release in push-to-talk fires exactly `[FnKeyUp]` and leaves push-to-talk. Any other release fires nothing and changes nothing. |
| `Hotkey.FlagsChanged` | VoiceFlowApp/Sources/HotkeyManager.swift:44-58 | After any snapshot, `isFnPressed` equals the snapshot's Fn bit. A snapshot that repeats the current bit fires nothing and changes nothing else. A rising edge acts as a press and a falling edge as a release. |
| `Hotkey.Run` | VoiceFlowApp/Sources/HotkeyManager.swift:44-58 | After a non-empty stream of snapshots, `isFnPressed` is the last snapshot's Fn bit. An empty stream changes nothing. |
| `Hotkey.StepEdges` | VoiceFlowApp/Sources/HotkeyManager.swift:49-91 | From a consistent state (push-to-talk implies the key is down), one snapshot fires at most one edge callback. It fires a down only when it opens push-to-talk and an up only when it closes it. |
| `Hotkey.EdgesAlternate` | VoiceFlowApp/Sources/HotkeyManager.swift:60-91 | Over any stream of snapshots from a consistent state, the down and up callbacks alternate. Push-to-talk is open at the end exactly when the last of them was a down. |
| `Hotkey.DownUpAlternate` | VoiceFlowApp/Sources/HotkeyManager.swift:66-69 | From the initial state, every `onFnKeyUp` is preceded by its own `onFnKeyDown`: the edge callbacks alternate, starting with a down. |
| `Hotkey.LoneTapIsSilent` | VoiceFlowApp/Sources/HotkeyManager.swift:60-91 | A press then a release, with no press recorded within 300 ms before it, fires no callback. |
| `Hotkey.ThresholdIsStrict` | VoiceFlowApp/Sources/HotkeyManager.swift:16 | A second press 299 ms after the first arms push-to-talk. One 300 ms after does not. |
| `Hotkey.NoDoubleTapRightAfterDoubleTap` | VoiceFlowApp/Sources/HotkeyManager.swift:64-72 | After a recognised double-tap and its release, the next press is never a double-tap, whatever its time. It only records its own time. |
| `Hotkey.HotkeyManager.constructor` | VoiceFlowApp/Sources/HotkeyManager.swift:12-14 | The Fn key starts released, with no recorded press and no push-to-talk. |
| `Hotkey.HotkeyManager.HandleFlagsChanged` | VoiceFlowApp/Sources/HotkeyManager.swift:44-58 | Updates the fields in place and returns the callbacks, exactly as `FlagsChanged` prescribes. |
| `Hotkey.HotkeyManager.HandleFnKeyDown` | VoiceFlowApp/Sources/HotkeyManager.swift:60-83 | Updates the fields in place and returns the callbacks, exactly as `KeyDown` prescribes. |
| `Hotkey.HotkeyManager.HandleFnKeyUp` | VoiceFlowApp/Sources/HotkeyManager.swift:85-91 | Updates the fields in place and returns the callbacks, exactly as `KeyUp` prescribes. |
| `Hotkey.HotkeyManager.HoldCheck` | VoiceFlowApp/Sources/HotkeyManager.swift:75-81 | The scheduled hold check fires no callback and changes no field. |
| `MenuBar.StatusIndicator` | VoiceFlowApp/Sources/MenuBarController.swift:129-149 | The menu title is "Recording..." iff recording and "Ready" otherwise. The symbol is "waveform.circle.fill" iff recording and "waveform" otherwise. The red tint is on iff recording. |
| `MenuBar.AfterStart` | VoiceFlowApp/Sources/MenuBarController.swift:87-95 | A start while recording issues nothing and changes nothing. Otherwise the flag is set at once and exactly one backend start is issued. |
| `MenuBar.AfterStop` | VoiceFlowApp/Sources/MenuBarController.swift:107-115 | A stop while not recording issues nothing and changes nothing. Otherwise the flag is cleared at once and exactly one backend stop is issued. |
| `MenuBar.AfterCompletion` | VoiceFlowApp/Sources/MenuBarController.swift:93-127 | A failed start clears the flag and issues nothing. A successful stop pastes its text exactly once, and only when the text is non-empty. A failed stop and a successful start change nothing. |
| `MenuBar.AfterCallback` | VoiceFlowApp/Sources/MenuBarController.swift:65-83 | `onFnKeyDown` starts recording, `onFnKeyUp` stops and transcribes, and `onDoubleTapFn` changes nothing. |
| `MenuBar.RequestsAppend` | VoiceFlowApp/Sources/MenuBarController.swift:87-115 | The backend requests of effects issued one after another are the requests of the first, followed by those of the second, in issue order. |
| `MenuBar.RunKeepsDiscipline` | VoiceFlowApp/Sources/MenuBarController.swift:87-127 | Under any interleaving of snapshots and completions: every backend stop directly follows a backend start; while recording, the last request issued is a start; no empty text is ever pasted. |
| `MenuBar.LaunchedStaysDisciplined` | VoiceFlowApp/Sources/MenuBarController.swift:11 | The same holds from launch (not recording, nothing issued), for every event sequence. |
| `MenuBar.RunKeepsInStep` | VoiceFlowApp/Sources/MenuBarController.swift:65-115 | Under any interleaving of snapshots and completions, from a state where recording implies push-to-talk and push-to-talk implies the key is down, both implications keep holding: the flag is only set by the down callback of a double-tap and is cleared by the release that leaves push-to-talk. |
| `MenuBar.LaunchedStaysInStep` | VoiceFlowApp/Sources/MenuBarController.swift:11 | From launch, for every event sequence, the state is in step: recording implies push-to-talk, push-to-talk implies the Fn key is down, and so the controller is recording only while the Fn key is held. |
| `MenuBar.StartFailureLeavesPushToTalkOpen` | VoiceFlowApp/Sources/MenuBarController.swift:97-101 | The converse fails: after press, release, press and a failed start, push-to-talk is open with the key down while the controller is not recording, and exactly one start was issued. |
| `MenuBar.DoubleTapThenHold` | VoiceFlowApp/Sources/MenuBarController.swift:65-79 | A press at 0, release at 50, press at 100 and release at 2000 issue exactly one start and then one stop. |
| `MenuBar.LoneTapIssuesNothing` | VoiceFlowApp/Sources/MenuBarController.swift:65-79 | A press at 0 and a release at 50 issue nothing. |
| `MenuBar.TranscriptPasted` | VoiceFlowApp/Sources/MenuBarController.swift:118-121 | After the double-tap-and-hold, an empty transcript is not pasted. "hello world" is pasted exactly once, as it came. |
| `MenuBar.LateStartFailureLosesStop` | VoiceFlowApp/Sources/MenuBarController.swift:97-101 | A first session's start fails only after that session was stopped and a second session was started. The failure clears the second session's flag, so the release that ends the second session issues no stop. |
| `MenuBar.MenuBarController.constructor` | VoiceFlowApp/Sources/MenuBarController.swift:13-17 | Not recording, "Ready" indicator, nothing issued, and a fresh hotkey manager in its initial state. |
| `MenuBar.MenuBarController.StartRecording` | VoiceFlowApp/Sources/MenuBarController.swift:87-95 | Updates the flag, the indicator and the issued requests in place, as `AfterStart` prescribes. The indicator keeps showing the flag. |
| `MenuBar.MenuBarController.StopRecordingAndTranscribe` | VoiceFlowApp/Sources/MenuBarController.swift:107-115 | Updates the flag, the indicator and the issued requests in place, as `AfterStop` prescribes. |
| `MenuBar.MenuBarController.Complete` | VoiceFlowApp/Sources/MenuBarController.swift:93-127 | Applies a settled backend call in place, as `AfterCompletion` prescribes. |
| `MenuBar.MenuBarController.Dispatch` | VoiceFlowApp/Sources/MenuBarController.swift:65-83 | Runs the closure `setupHotkey` installed for one callback, as `AfterCallback` prescribes. |
| `MenuBar.MenuBarController.HandleFlagsChanged` | VoiceFlowApp/Sources/MenuBarController.swift:65-79 | Passes one snapshot to the hotkey manager. Its state moves as `FlagsChanged` prescribes. The callbacks fired are then dispatched in order. |
| `Capture.Value` | backend/src/voiceflow/audio/capture.py:13-16 | The three states have the distinct values "idle", "recording" and "stopped". |
| `Capture.Flatten` | backend/src/voiceflow/audio/capture.py:101-105 | The concatenation's length is the sum of the chunk lengths. It starts with the first chunk. |
| `Capture.FlattenAppend` | backend/src/voiceflow/audio/capture.py:95-102 | Concatenation keeps chunk order: the chunks of an earlier list come before those of a later one. |
| `Capture.FlattenEmpty` | backend/src/voiceflow/audio/capture.py:98-102 | The concatenation is empty exactly when every chunk is empty. |
| `Capture.AudioCapture.constructor` | backend/src/voiceflow/audio/capture.py:33-36 | A new capture is Idle, with nothing queued or recorded. |
| `Capture.AudioCapture.IsRecording` | backend/src/voiceflow/audio/capture.py:44-46 | `is_recording` holds iff the state is Recording. |
| `Capture.AudioCapture.AudioCallback` | backend/src/voiceflow/audio/capture.py:48-59 | A chunk is appended to the queue iff the state is Recording. Nothing else changes. |
| `Capture.AudioCapture.Start` | backend/src/voiceflow/audio/capture.py:61-79 | A start while Recording changes nothing. From Idle or Stopped, it empties the recorded chunks and the queue and ends in Recording. |
| `Capture.AudioCapture.Stop` | backend/src/voiceflow/audio/capture.py:81-108 | Outside a recording, it returns empty audio and changes nothing. Otherwise it moves the queue, oldest first, onto the recorded chunks and returns their concatenation. It ends Stopped if there was no chunk and Idle otherwise. |
| `Routes.StatusOf` | backend/src/voiceflow/api/routes.py:46-53 | The status is the state's value. `is_recording` holds iff the state is Recording, and hence iff the status is "recording". |
| `Routes.MergeConfig` | backend/src/voiceflow/api/routes.py:105-109 | A missing or empty model keeps the current model; any other model replaces it. A missing language keeps the current language, while an empty one is kept as given. The task resets to "transcribe". |
| `Routes.MergeConfigIdempotent` | backend/src/voiceflow/api/routes.py:105-110 | Posting the same configuration request twice leaves the same configuration as posting it once. |
| `Routes.ConfigOrDefault` | backend/src/voiceflow/api/routes.py:39-43 | Gives the existing transcriber's configuration, or the default configuration when none exists yet. |
| `Routes.Api.constructor` | backend/src/voiceflow/api/routes.py:12-13 | Neither global exists at import. |
| `Routes.Api.GetAudioCapture` | backend/src/voiceflow/api/routes.py:32-36 | The first call creates a fresh Idle capture. Every later call returns that same instance. |
| `Routes.Api.GetTranscriber` | backend/src/voiceflow/api/routes.py:39-43 | The first call creates a transcriber with the default configuration. Later calls return the existing one. |
| `Routes.Api.GetStatus` | backend/src/voiceflow/api/routes.py:46-53 | Returns the status projection of the capture. On the first call the capture is fresh and Idle, so the answer is "idle" with `is_recording` false. |
| `Routes.Api.StartRecording` | backend/src/voiceflow/api/routes.py:56-66 | While recording, it answers 400 "Already recording" and does not touch the capture. Otherwise the capture (fresh if none existed) starts with nothing queued or recorded, and the answer is status "recording" with `is_recording` true. |
| `Routes.Api.StopRecording` | backend/src/voiceflow/api/routes.py:69-90 | When not recording, it answers 400 "Not recording" and leaves an existing capture and the transcriber unchanged (a first call only creates an Idle, empty capture). Otherwise it stops the capture: the queue moves onto the recorded chunks, and the capture ends Stopped if nothing was queued and Idle otherwise. Empty audio answers text "" with duration 0 and leaves the transcriber unconsulted and uncreated. Other audio goes to the transcriber with the current configuration, and its result is answered. |
| `Routes.Api.UpdateConfig` | backend/src/voiceflow/api/routes.py:100-115 | Replaces the transcriber with one whose configuration is the merge of the request into the current configuration, and answers its model and language. |

## Left out

- NSEvent monitor registration (`start`, `stop`, `deinit` of `HotkeyManager`) and the `DispatchQueue.asyncAfter` timer are left out. They are OS event plumbing. The timer's body is `HoldCheck`, which does nothing.
- `Hotkey.HotkeyManager.HandleFlagsChanged` returns the callbacks it fired instead of invoking the closures in the middle of the handler. `MenuBar.MenuBarController.HandleFlagsChanged` dispatches them right afterwards, in the same order. The closures never read the hotkey manager's fields, so the results are the same.
- `Task`, `MainActor` and `DispatchQueue.main.async` are not modelled. Each asynchronous completion is an explicit `Completion` event, and the indicator is updated at once rather than on the next main-queue turn.
- The AppKit drawing in `updateStatusIcon` is left out. Only the symbol name, the menu title and the tint are modelled.
- Logging (`print`) and `handleDoubleTapFn`, which only logs, are left out.
- The HTTP client (BackendService.swift) and JSON decoding are left out. They are a thin network wrapper, and their outcomes enter as `Completion` events.
- The clipboard and keystroke injection (PasteService.swift) are left out. A paste is recorded as the effect `Paste(text)`.
- Process launch and permissions (AppDelegate.swift) are left out.
- Capture.AudioCapture.Start: a failure to open or start the sound-device input stream is not modelled. In the code such an exception leaves the state Idle or Stopped after the old audio has already been discarded; the model always ends in Recording.
- Routes.Api.StartRecording: the 500 answer when the capture's stream fails to start is not modelled; the model always answers `Ok` outside a recording.
- Routes.Api.StopRecording: an exception raised by the transcriber, after the capture has already been stopped, is not modelled; the transcriber is a total function, so the 500 answer is absent.
- The sound-device stream, the `threading.Lock` (which only serialises calls), `get_devices` (device I/O) and `__del__` are left out of capture.py.
- The audio callback reads the state outside the lock and runs on the device's thread; whether it can still queue a chunk after `stop` depends on whether stopping the stream waits for a running callback, which is the sound library's behaviour. `AudioCallback` runs as one step here. The model does not assume the queue is empty outside a recording, so `Start` still drains it.
- Chunks are one-dimensional sequences of an abstract sample type. `float32`, the `flatten` of multi-channel arrays and the numpy dtype are left out.
- The transcriber (whisper.py) is a function parameter of `Routes.Api`. Its model loading and floating-point work are left out, and the `/devices` route is device I/O.
- The CLI, the server entry point and the quick test script are left out as interactive or server I/O.
