# Sarkari Sarathi front end, modelled in Dafny

Sarkari Sarathi is a form-filling assistant for government services. The user picks a service, gives
details by typing or by recording speech, and asks the backend to generate a document. This project
models and proves the two state machines in the browser script that drive this:

- **The session controller** (`frontend/js/app.js`). It covers the `appState` record
  (`currentService`, `userDetails`, `generatedDocument`, `inputMode`) and the page flags the click
  handlers set: which sections and input areas are shown, which buttons are `active`, the preview
  text, and the generate button's `disabled` flag and text. The handlers are `selectService`,
  `switchToVoice`, `switchToText`, `collectUserDetails`, `generateDocument`, `downloadPDF`,
  `editDocument` and `resetForm`.
- **The voice capture handler** (`frontend/js/voice.js`, class `VoiceHandler`). It covers
  `isRecording`, the recorder (present or not), the microphone stream (open or not), the ordered
  `audioChunks`, the record button's text and `recording` class, and the transcription box. Its
  cycle is start, stop, upload, transcribe. A successful transcription writes the text control
  `#inputText`, which the session controller later reads.

Files:

- `page.dfy` (module `Page`): the four form controls as one `Form` object, shared by both handlers,
  and the shape of a backend reply.
- `app.dfy` (module `App`): the session controller.
- `voice.dfy` (module `Voice`): the voice handler.
- `scenarios.dfy` (module `Scenarios`): client code that wires the two objects to one form, as the
  page does, and walks through user stories.

Each handler appears in two forms:
- a transition function on a value snapshot (`App.Session`, `Voice.VoiceState`), whose contract
  states the handler's outcome on each path;
- a method of the class that holds the fields (`App.SessionController`, `Voice.VoiceHandler`). Its
  body performs the source's assignments in the source's order, and it is proved to perform exactly
  that transition (`Snapshot() == After…(old(Snapshot()))`).

The `await` on the backend request splits two handlers into two atomic steps each: the part up to
the request, and the continuation that runs when the reply arrives. For `generateDocument` these
are `GenerateDocument` and `OnGenerateReply`. For `sendToTranscription` they are
`SendToTranscription` and `OnTranscriptionReply`. Other events may fall between the two steps. The
awaits inside a record-button click are not split: `toggleRecording` awaiting `startRecording`,
which awaits the browser check and the microphone request (frontend/js/voice.js:36-48), is one atomic
step (`AfterStartRecording`). Sequences of events are modelled by `Dispatch`/`Run` in each module.
The invariants that hold over every such sequence are proved by induction. The constructors
establish those invariants: `MicHeld` always, and the button lock and the input areas when the
markup starts them released and in text mode.

The browser and the backend enter only as parameters:
- the capture capability and the microphone permission are booleans;
- each reply is a `Reply` value: a response with its `ok` flag and string fields, or an exception
  with its message;
- the page's initial markup (which sections are shown, button texts) is passed to the constructors.

JavaScript falsiness is modelled where the code tests it:
- a selected service `""` counts as no service;
- an empty `data.error` falls back to the default message;
- an empty `data.content` shows the preview placeholder;
- a reply without `text` writes the string `"undefined"`.

Behaviours of the code that the lemmas make explicit:

- `editDocument` hides the output and keeps `generatedDocument` (frontend/js/app.js:197-200), so a
  document can be stored while the output is hidden (`App.EditKeepsDocumentWhileOutputHidden`).
- Nothing disables the record button while a transcription is awaited (frontend/js/voice.js:91-122).
  A new recording may start during that wait, and the old reply then gives the button its idle text
  and removes its highlight while the new recording runs
  (`Voice.ReplyDuringNextRecordingShowsIdleButton`).
- `selectService` does not check the service id against any list. Any `data-service` value is
  accepted.
- At most one generate request is in flight only because a disabled button receives no clicks. The
  handler itself does not check. `App.Dispatch` drops clicks on a disabled button, and with that the
  lock invariant holds (`App.RunKeepsLock`).

## Model

| member | source | states |
|---|---|---|
| `Page.Form.Clear` | frontend/js/app.js:211-214 | All four text controls become empty. |
| `Page.FailureMessage` | frontend/js/app.js:135-153 | The message a failed call reports: the reply's non-empty `error` field, else the fallback text. For an exception, its own message. |
| `App.AfterSelectService` | frontend/js/app.js:49-62 | `currentService` and the active button become exactly the clicked service, and the input section is shown. Nothing else in `appState` or on the page changes. |
| `App.AfterSwitchToVoice` | frontend/js/app.js:67-73 | `inputMode` becomes voice. Only the voice area is shown and only the voice button is active, so the areas mirror the mode. Nothing else changes. |
| `App.AfterSwitchToText` | frontend/js/app.js:78-84 | `inputMode` becomes text. Only the text area is shown and only the text button is active. Nothing else changes. |
| `App.SwitchesAreIdempotent` | frontend/js/app.js:67-84 | Each mode switch, applied twice, has the effect of applying it once. |
| `App.UserDetailsFrom` | frontend/js/app.js:89-97 | The collected record holds the four control values (`fullName` from `#userName`) and the current input mode. |
| `App.AfterGenerateClick` | frontend/js/app.js:102-131 | A request is sent iff a truthy service is selected and the text or the name is non-empty. With no service: the "select a service" notice, and `appState` is unchanged. With a service: `userDetails` is overwritten from the form, even when the content check then fails with the "provide some information" notice. Both early returns leave the button released. A sent request carries the service and the collected details, locks the button and is counted as awaited. The view and form never change. |
| `App.AfterGenerateReply` | frontend/js/app.js:133-157 | The button is released and the request is no longer awaited, whatever the reply. On success: the reply body becomes `generatedDocument`, the preview shows `content` or the placeholder, the output is shown, the input is hidden, and a success notice is raised. On failure: `appState` and the view are unchanged, and the error notice carries the server's `error`, else "Failed to generate document", or the exception's message. |
| `App.DownloadNotice` | frontend/js/app.js:184-192 | Always an error-kind notice. It says "No document to download" iff no document exists, and "coming soon" otherwise. The caller changes no state. |
| `App.AfterEditDocument` | frontend/js/app.js:197-200 | Output hidden and input shown. `appState`, including the document, is unchanged. |
| `App.AfterResetForm` | frontend/js/app.js:205-218 | No service, empty `userDetails`, no document, no active service, the four controls empty, both sections hidden. `inputMode`, the button and the awaited count are kept. |
| `App.Dispatch` | frontend/js/app.js:27-44 | Each event preserves the button-lock invariant and the areas-mirror-mode invariant. A click on a disabled generate button changes nothing. |
| `App.RunKeepsLock` | frontend/js/app.js:103-157 | After any sequence of events, the button is locked exactly while a request is awaited, and at most one request is awaited. |
| `App.RunKeepsAreas` | frontend/js/app.js:67-84 | Once exactly one input area is shown and it matches the mode, this stays true over any sequence of events. |
| `App.LockedUntilReply` | frontend/js/app.js:117-157 | While a request is awaited, no event other than its reply unlocks the button. |
| `App.EditKeepsDocumentWhileOutputHidden` | frontend/js/app.js:197-200 | After a successful generation and then an edit, a document is stored while the output is hidden. |
| `App.SessionController.constructor` | frontend/js/app.js:9-14 | `appState` starts as declared (no service, `{}`, no document, text mode), with no request awaited. A markup that starts the button released satisfies the lock invariant, and one that shows only the text area satisfies the areas-mirror-mode invariant. |
| `App.SessionController.SelectService` | frontend/js/app.js:49-62 | Performs `AfterSelectService` on the object's fields. |
| `App.SessionController.SwitchToVoice` | frontend/js/app.js:67-73 | Performs `AfterSwitchToVoice` on the object's fields. |
| `App.SessionController.SwitchToText` | frontend/js/app.js:78-84 | Performs `AfterSwitchToText` on the object's fields. |
| `App.SessionController.CollectUserDetails` | frontend/js/app.js:89-97 | Returns the record `UserDetailsFrom` describes and changes nothing. |
| `App.SessionController.GenerateDocument` | frontend/js/app.js:102-131 | Performs `AfterGenerateClick` and returns the request sent or the validation notice. |
| `App.SessionController.OnGenerateReply` | frontend/js/app.js:133-157 | Performs `AfterGenerateReply` and returns its notice. |
| `App.SessionController.DownloadPDF` | frontend/js/app.js:184-192 | Returns `DownloadNotice` and changes nothing. |
| `App.SessionController.EditDocument` | frontend/js/app.js:197-200 | Performs `AfterEditDocument` on the object's fields. |
| `App.SessionController.ResetForm` | frontend/js/app.js:205-218 | Performs `AfterResetForm` on the object's fields and the shared form. |
| `Voice.FlattenAppend` | frontend/js/voice.js:93 | Building the blob from two runs of chunks gives the first run's bytes, then the second's. |
| `Voice.AfterStartRecording` | frontend/js/voice.js:43-72 | No alert iff capture is supported and the microphone is granted. Unsupported capture or a refused microphone gives its alert and no state change. On success: a recorder on an open stream, chunks emptied, recording, Stop text with highlight, and "Recording..." in the box. |
| `Voice.AfterStopRecording` | frontend/js/voice.js:77-86 | With no recorder, no change. With one: the stream is released, recording ends and the text is Processing. Chunks, box and form are kept either way. |
| `Voice.AfterToggleRecording` | frontend/js/voice.js:32-38 | Stops when recording, with no alert, and starts otherwise. A click during a recording keeps its chunks and, under `MicHeld`, ends it with the stream released. |
| `Voice.AfterDataAvailable` | frontend/js/voice.js:52-54 | The chunk is appended at the end, and nothing else changes. |
| `Voice.AfterSendToTranscription` | frontend/js/voice.js:91-97 | The upload payload is the chunks' bytes in order, the button text becomes Transcribing, and nothing else changes. |
| `Voice.AfterTranscriptionReply` | frontend/js/voice.js:104-122 | The button is idle (Speak text, no highlight) whatever the reply. On success the box shows `data.text` and the text control equals it. On failure the box shows "Error: " followed by the server's `error`, else "Transcription failed" (or the exception's message), and the form is unchanged. Recording state and chunks are kept. |
| `Voice.Dispatch` | frontend/js/voice.js:14-58 | Each event preserves `MicHeld`: the stream is open exactly while recording, and recording needs a recorder. A click while recording keeps the chunks. A delivery or a `stop` event without a recorder changes nothing. |
| `Voice.RunKeepsMicHeld` | frontend/js/voice.js:43-86 | Over any sequence of atomic events, the microphone stream is open exactly while recording. |
| `Voice.ArrivalsAppendInOrder` | frontend/js/voice.js:52-54 | Chunks delivered one after another end up after the chunks already held, in arrival order. Nothing else changes. |
| `Voice.RecordThenStop` | frontend/js/voice.js:43-86 | From idle, a granted start, deliveries and a stopping click leave a stopped recorder that holds exactly those chunks. |
| `Voice.PayloadIsArrivalOrder` | frontend/js/voice.js:50-93 | From idle, for a start, deliveries, a stop, late deliveries, then the `stop` event: the upload payload is exactly that recording's bytes in arrival order. |
| `Voice.ReplyDuringNextRecordingShowsIdleButton` | frontend/js/voice.js:32-122 | If a transcription reply arrives after a new recording has started, the handler is recording with the stream open while the button shows Speak without highlight. |
| `Voice.VoiceHandler.constructor` | frontend/js/voice.js:7-15 | A new handler is not recording, has no recorder and holds no chunks, so `MicHeld` holds from page load. |
| `Voice.VoiceHandler.ToggleRecording` | frontend/js/voice.js:32-38 | Performs `AfterToggleRecording` and returns its alert. |
| `Voice.VoiceHandler.StartRecording` | frontend/js/voice.js:43-72 | Performs `AfterStartRecording` and returns its alert. |
| `Voice.VoiceHandler.OnDataAvailable` | frontend/js/voice.js:52-54 | Performs `AfterDataAvailable`. |
| `Voice.VoiceHandler.StopRecording` | frontend/js/voice.js:77-86 | Performs `AfterStopRecording`. |
| `Voice.VoiceHandler.SendToTranscription` | frontend/js/voice.js:91-97 | Performs `AfterSendToTranscription` and returns the payload. |
| `Voice.VoiceHandler.OnTranscriptionReply` | frontend/js/voice.js:104-122 | Performs `AfterTranscriptionReply` on its fields and the shared form. |
| `Scenarios.NameWithoutTextPassesValidation` | frontend/js/app.js:105-131 | Service "pension", name "Asha Devi" and no text pass validation. The request carries exactly these. |
| `Scenarios.GenerateWithoutService` | frontend/js/app.js:105-108 | With no service, generating is refused with the "select a service" notice, `appState` keeps its page-load value, and the button ends released. |
| `Scenarios.GenerateLocksThenReleases` | frontend/js/app.js:117-157 | The button is locked while the request is awaited and released after the reply, for every reply. The output is shown iff the reply succeeded. |
| `Scenarios.RationCardTranscript` | frontend/js/voice.js:43-122 | Record one chunk, stop, and get a successful reply with "Apply for ration card": the payload is the chunk, the box and the text control show that text, and the button reads Speak. |
| `Scenarios.AudioTooShort` | frontend/js/voice.js:104-122 | A refused transcription with "Audio too short": the box shows "Error: Audio too short", the text control keeps its value, and the button reads Speak. |
| `Scenarios.StopBeforeAnyRecording` | frontend/js/voice.js:77-86 | Stopping a handler that never recorded leaves it not recording, with its button and box unchanged. |
| `Scenarios.StartRefused` | frontend/js/voice.js:43-71 | Unsupported capture or a refused microphone gives the matching alert and leaves the handler idle, with no recorder. |
| `Scenarios.SpokenDetailsReachRequest` | frontend/js/voice.js:110-114 | A transcript written by the voice handler is the `inputText` the session controller collects (frontend/js/app.js:91) and sends with the selected service and voice mode. |

## Left out

- HTML rendering: `displayPreview` and `displayTranscription` build `innerHTML`. Only the text they
  show is modelled (the preview text; the box as plain text or a transcript card).
- Notifications and alerts are returned as values. Their DOM insertion, their 3-second removal and
  the modal `alert` dialogs are not modelled. `console.error` logging is left out.
- `fetch`, `response.json()`, `FormData` and `Blob` are not modelled. Each reply is a parameter: a
  response (its `ok` flag and its string-valued fields) or an exception with its message. Reply
  bodies with non-string fields, or bodies that are not JSON objects, are not modelled.
- `navigator.mediaDevices.getUserMedia` and `MediaRecorder` are not modelled. Capability and
  permission are booleans, and recorder deliveries and the recorder's `stop` event are events. The
  model does not capture a failure of `new MediaRecorder(stream)` or of `start()` after the
  microphone was granted, which in the source leaves the stream open.
- Voice.RunKeepsMicHeld: holds of the atomic-step model only. The awaits at
  frontend/js/voice.js:36-48 are not split, so the model does not capture a second click while the
  microphone request is pending. In the page such a click starts a second recorder, `mediaRecorder`
  then names only that one, and `stopRecording` (frontend/js/voice.js:80) never releases the first
  stream.
- Timing of the event loop: every handler step is atomic. Any event may fall between a request and
  its reply, and replies to several uploads may arrive in any order. A reply is applied whenever it
  arrives.
- The page's markup (initial visibility, texts, and which buttons exist) is not part of this model.
  The initial flags are constructor parameters. A service button without a `data-service` attribute
  is not modelled: the service id is always a string.
- `init` and the `DOMContentLoaded` wiring become the `Dispatch` functions and the scenario clients.
  `checkBrowserSupport` becomes the `captureSupported` parameter of `StartRecording`.
- `API_BASE` and the endpoint URLs are not modelled: requests are values, not network calls.
- The backend (`backend/app.py`, `backend/routes/*.py`, `backend/utils/rag_engine.py`) and the PDF
  generator (`pdf_engine/generator.py`) are not part of this model. They are Flask wiring,
  placeholder replies, file reads and an empty ReportLab stub.
