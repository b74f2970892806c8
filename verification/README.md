# pepperpad controller, modelled in Dafny

pepperpad is an installation in which a visitor presses a start button and speaks. They then press a stop
button. The recording is sent to a remote speech model that returns an English transcript. The transcript is
placed in a fixed prompt, and a remote image model turns that prompt into a picture, which the page then
shows. This project models the controller that drives one visit: the `Application` class of
`src/Application.js`.

- `wrappers.dfy` (`Wrappers`): `Option`, used for JavaScript's `undefined` and for strings that do not parse.
- `naming.dfy` (`Naming`): the recording id. It is a `date.format` timestamp, a dot, and
  `substring(2, 12)` of a base-32 random string. The module also builds the audio path
  `recordings/<id>.<format>` and reads both of them back.
- `prompting.dfy` (`Prompting`): the active prompt template, kept character for character. It also holds
  the function that reads the transcript back out of a prompt.
- `application.dfy` (`App`): the class `Application`, with fields `recordingId`, `recording` (a recorder that
  is unset, capturing or stopped), and the display properties the code writes: start and stop button
  visibility, video and image opacity, and image `src`. The methods are `StartRecording`, `StopRecording`
  and `Generate`. The two remote steps are parameters `transcribe` and `draw` of type `string -> Reply`: each
  returns `Delivered(value)` or `Failed`. `Generation` gives the outcome `generate` reaches for given replies.
  Three client methods (`Visit`, `VisitRestarted`, `VisitTranscriptionFails`) show what a caller can prove
  about whole visits.

How the model is set up:

- The id and path constructions are pure expressions in the source. They are functions here, and each has
  an inverse with round-trip and injectivity lemmas.
- The class updates fields one after another, as the source does.
- `stopRecording` calls `generate` without awaiting it. The model runs `generate` to its end as the last step
  of `StopRecording`.
- `preferences.audioRecordingFormat` is read at lines 66 and 100. It is the class constant `audioFormat`,
  set once by the constructor. That is why the path `stopRecording` hands to `generate` is the path
  `startRecording` returned, whatever the format is. In config/preferences.js the format actually sits at
  `audio.format`, so at that key the code reads `undefined` and the file name ends in `.undefined`. The model
  accepts any string, that one included.

What the code does and does not do:

- The code has no guard against starting a second recording. It has no recording timeout, no minimum
  duration, no silence sentinels, no image download and no CSV log.
- When transcription fails, `generate` returns before the display is reset (lines 119-127). Both buttons
  stay hidden and the video stays in front. The model reproduces this: see `Application.Generate`,
  `Application.DisplayAfter` and `VisitTranscriptionFails`. So this code has a failure path that never returns
  the display to idle.
- `startRecording` called again while a recording is open replaces `recordingId` and `recording`. The path of
  the earlier recording is then never used, unless the two ids coincide (same timestamp and same 10-character
  suffix): see `VisitRestarted`.

## Model

| member | source | states |
|---|---|---|
| Naming.RandomSuffix | src/Application.js:65 | the suffix is at most 10 characters, namely positions 2 to 12 of the random string, clamped to its length; empty when the string has at most 2 characters |
| Naming.RecordingId | src/Application.js:64-65 | the id is the timestamp, then ".", then the random suffix; its length is the sum of the parts |
| Naming.RecordingIdSplits | src/Application.js:64-65 | an id built from a well-formed timestamp splits back into that timestamp and that suffix |
| Naming.SplitRecordingIdSound | src/Application.js:64-65 | every string that splits, with a suffix of at most 10 characters, is an id built from its timestamp and the random string "0." + suffix |
| Naming.RecordingIdInjective | src/Application.js:64-65 | two ids with well-formed timestamps are equal exactly when their timestamps and their suffixes are |
| Naming.AudioFileName | src/Application.js:66 | the file name is the id, then ".", then the format, each part at its position; its length is the sum of the parts |
| Naming.AudioPath | src/Application.js:66-67 | the path begins with "recordings/", ends with "." + format, and has the length of the two joined segments |
| Naming.AudioFileNameIsPlain | src/Application.js:64-67 | with a formatted timestamp and no "/" in the random string or the format, the file name is one plain path segment, so the two-segment join is exact |
| Naming.AudioPathRoundTrip | src/Application.js:66-67 | the id can be read back from the audio path built from it |
| Naming.AudioPathIdSound | src/Application.js:100-101 | any path that reads back as an id is the audio path of that id |
| Naming.AudioPathInjective | src/Application.js:100-101 | for one format, two ids give the same audio path exactly when they are equal |
| Prompting.Prompt | src/Application.js:189-199 | the prompt is the fixed opening, then the transcript verbatim, then the fixed closing; its length is the sum of the three |
| Prompting.PromptRoundTrip | src/Application.js:189-199 | the transcript can be read back from the prompt built from it |
| Prompting.TranscriptOfSound | src/Application.js:189-199 | any text that reads back as a transcript is the prompt of that transcript |
| Prompting.PromptInjective | src/Application.js:189-199 | two transcripts give the same prompt exactly when they are equal |
| App.Generation | src/Application.js:119-138 | transcription failing is exactly the early-return outcome; otherwise the prompt is the template around the delivered transcript; an image is shown exactly when transcription succeeded and the image step delivered, and then its URL is the delivered one |
| App.ImageRequestCarriesTranscript | src/Application.js:130-132 | whenever the image step is asked, the transcript can be read back verbatim from the prompt it receives |
| App.Application.constructor | src/Application.js:16-18 | a new controller has no recording id and no recorder, over the page's initial display |
| App.Application.ShowRecordingControls | src/Application.js:60-61 | start hidden, stop shown; opacities and image source untouched |
| App.Application.ShowBusy | src/Application.js:111-114 | both buttons hidden, video opacity 1, image opacity 0; image source untouched |
| App.Application.ShowIdle | src/Application.js:140-143 | start shown, stop hidden, video opacity 0, image opacity 1; image source untouched |
| App.Application.StartRecording | src/Application.js:58-88 | stores the id built from the timestamp and random string, opens the recorder, returns `recordings/<id>.<format>`, shows the recording controls, leaves opacities and image source alone |
| App.Application.Generate | src/Application.js:109-145 | reaches the outcome `Generation` gives; a failed transcription leaves the busy display and the source unchanged; a failed image request restores the idle display with the source unchanged; a delivered image sets the source to its URL and restores the idle display; the recorder and id are untouched |
| App.Application.StopRecording | src/Application.js:90-107 | with no recorder it only sets the recording controls and throws; otherwise it stops the recorder and runs `generate` on the path of the current id, ending in the display `generate` leaves |
| App.Visit | src/Application.js:58-107 | start then stop: generation reads exactly the path start returned, and the id is the one start built |
| App.VisitRestarted | src/Application.js:58-67 | start twice then stop: generation reads the second path, and the first one only when both ids coincide |
| App.VisitTranscriptionFails | src/Application.js:119-127 | when transcription of the recorded file fails, no button is left on screen and the video stays in front |

## Left out

- Constructor wiring (src/Application.js:19-43): signal handlers, the window `close` listener, dev tools, the
  OpenAI client and the button listeners. This is event plumbing. The three methods are the public operations.
- `onExitRequest` and `shutdown` (src/Application.js:46-56): they hide the window and exit the process, which
  is I/O only.
- The audio stream: the write stream, `recorder.record(...)`, the pipe and its error handler. The recorder is
  modelled only as unset, capturing or stopped. A device error in `recorder.record` is not modelled: in the source
  it would throw after `recordingId` was already replaced.
- The clock and the randomness: `date.format(new Date(), ...)` and `Math.random().toString(32)` are
  parameters. `IsTimestamp` states what the date pattern can produce, and the lemmas that need a fixed-width
  timestamp require it.
- The remote services: `transcribeAudio` and `images.generate` are the oracle parameters `transcribe` and
  `draw`. Any exception they raise, including a missing `data[0]`, is `Failed`.
- Concurrency: `generate` is not awaited at src/Application.js:105. It hides both buttons at lines 111-112,
  before its first `await` (line 121). They stay hidden until line 140, or for good after the early return at
  line 126. So no button click can interleave with it, and the sequential model is exact for runs driven by
  the buttons. Only the signal handlers, which are left out, could arrive in between.
- `path.join` normalisation: only the two-segment join with a POSIX separator is modelled.
  `AudioFileNameIsPlain` states when that join is exact. Windows separators are not modelled.
- String positions: JavaScript's `substring` counts UTF-16 code units, while the model counts Unicode
  characters. The two agree on the ASCII output of `toString(32)`.
- Abandoned recorders: a second `startRecording` overwrites `this.recording` without stopping the old
  recorder, which goes on capturing. The model keeps only the current handle.
- App.Application.StopRecording: stopping a recorder that is already stopped is library behaviour that cannot
  be seen in the code. The model assumes it leaves the recorder stopped.
- Display values: CSS `display` values are booleans and `opacity` strings are integers. The browser's
  resolution of `src` to an absolute URL is not modelled.
- Logging: `logInfo`, `logError` and `console`. src/Logger.js is not part of this model.
- scripts/run.js, src/index.js and config/preferences.js: startup, shell launch and static data. The
  prompts, timeouts and minimum length in config/preferences.js are not read by the code modelled here.
