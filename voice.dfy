/** The voice capture handler of frontend/js/voice.js (class `VoiceHandler`):
    record, stop, and upload the recorded audio for transcription, then put
    the transcript in the shared text control.

    The browser's capability check and microphone permission are parameters;
    the MediaRecorder's `dataavailable` and `stop` events and the reply of the
    transcription request are steps of their own. As in the session
    controller, each handler is a transition function on a value
    `VoiceState` and a method of the class `VoiceHandler` proved to perform
    it. */
module Voice {
  import opened Page

  newtype byte = x: int | 0 <= x < 256

  /** One `event.data` blob delivered by the recorder. */
  type Chunk = seq<byte>

  const SpeakLabel := "🎤 Speak"
  const StopLabel := "⏹️ Stop Recording"
  const ProcessingLabel := "🎤 Processing..."
  const TranscribingLabel := "⏳ Transcribing..."
  const RecordingText := "Recording..."
  const TranscriptionFailedMessage := "Transcription failed"
  const UnsupportedAlert := "Your browser does not support voice recording. Please use a modern browser."
  const MicrophoneAlert := "Unable to access microphone. Please check permissions."

  /** The transcription box: plain text, or the card displayTranscription
      renders around a transcript. */
  datatype Box = Plain(text: string) | Transcript(text: string)

  /** The record button's text and whether it carries the `recording` class. */
  datatype RecordButton = RecordButton(text: string, highlighted: bool)

  /** The handler's fields, the microphone stream's liveness (`micOpen`), and
      the shared form controls. `hasRecorder` is `mediaRecorder !== null`. */
  datatype VoiceState = VoiceState(
    isRecording: bool,
    hasRecorder: bool,
    micOpen: bool,
    audioChunks: seq<Chunk>,
    button: RecordButton,
    box: Box,
    form: Fields)

  datatype Step<R> = Step(after: VoiceState, out: R)

  /** A new handler; the button and box start as the markup has them. */
  function Initial(button: RecordButton, box: Box, form: Fields): VoiceState
  {
    VoiceState(false, false, false, [], button, box, form)
  }

  /** The microphone is open exactly while recording, and recording needs a
      recorder. */
  predicate MicHeld(s: VoiceState)
  {
    s.micOpen == s.isRecording && (s.isRecording ==> s.hasRecorder)
  }

  /** `new Blob(audioChunks)`: the chunks' bytes one after the other. */
  function Flatten(chunks: seq<Chunk>): seq<byte>
    decreases |chunks|
  {
    if chunks == [] then [] else chunks[0] + Flatten(chunks[1..])
  }

  lemma {:induction false} FlattenAppend(a: seq<Chunk>, b: seq<Chunk>)
    ensures Flatten(a + b) == Flatten(a) + Flatten(b)
    decreases |a|
  {
    if a == [] {
      assert a + b == b;
    } else {
      assert (a + b)[1..] == a[1..] + b;
      FlattenAppend(a[1..], b);
    }
  }

  /** startRecording. When capture is unsupported, or the microphone is
      refused, an alert is raised and nothing changes. Otherwise a fresh
      recorder on an open stream, an emptied chunk list, and the recording
      look. */
  function AfterStartRecording(s: VoiceState, captureSupported: bool, micGranted: bool): (r: Step<Option<string>>)
    ensures r.out.None? <==> captureSupported && micGranted
    ensures !captureSupported ==> r.after == s && r.out == Some(UnsupportedAlert)
    ensures captureSupported && !micGranted ==> r.after == s && r.out == Some(MicrophoneAlert)
    ensures captureSupported && micGranted ==>
              r.after.isRecording && r.after.hasRecorder && r.after.micOpen && r.after.audioChunks == [] &&
              r.after.button == RecordButton(StopLabel, true) && r.after.box == Plain(RecordingText) &&
              r.after.form == s.form
  {
    if !captureSupported then Step(s, Some(UnsupportedAlert))
    else if !micGranted then Step(s, Some(MicrophoneAlert))
    else Step(VoiceState(true, true, true, [], RecordButton(StopLabel, true), Plain(RecordingText), s.form), None)
  }

  /** stopRecording: without a recorder nothing happens; otherwise the
      recorder stops, the stream is released and the label shows
      processing. */
  function AfterStopRecording(s: VoiceState): (r: VoiceState)
    ensures !s.hasRecorder ==> r == s
    ensures s.hasRecorder ==>
              !r.isRecording && !r.micOpen && r.button == s.button.(text := ProcessingLabel)
    ensures r.hasRecorder == s.hasRecorder && r.audioChunks == s.audioChunks
    ensures r.box == s.box && r.form == s.form
  {
    if s.hasRecorder then
      s.(micOpen := false, isRecording := false, button := s.button.(text := ProcessingLabel))
    else s
  }

  /** toggleRecording stops exactly when recording and starts otherwise, so a
      recording in progress is never restarted and its chunks are kept. */
  function AfterToggleRecording(s: VoiceState, captureSupported: bool, micGranted: bool): (r: Step<Option<string>>)
    ensures s.isRecording ==> r.after == AfterStopRecording(s) && r.out == None
    ensures !s.isRecording ==> r == AfterStartRecording(s, captureSupported, micGranted)
    ensures s.isRecording ==> r.after.audioChunks == s.audioChunks
    ensures MicHeld(s) && s.isRecording ==> !r.after.isRecording && !r.after.micOpen
  {
    if s.isRecording then Step(AfterStopRecording(s), None)
    else AfterStartRecording(s, captureSupported, micGranted)
  }

  /** ondataavailable: the chunk goes at the end. */
  function AfterDataAvailable(s: VoiceState, chunk: Chunk): (r: VoiceState)
    ensures r.audioChunks == s.audioChunks + [chunk]
    ensures r.(audioChunks := s.audioChunks) == s
  {
    s.(audioChunks := s.audioChunks + [chunk])
  }

  /** sendToTranscription (run by the recorder's `stop` event) up to its
      `await fetch`: the upload payload is the chunks in order, and the label
      shows transcribing. */
  function AfterSendToTranscription(s: VoiceState): (r: Step<seq<byte>>)
    ensures r.out == Flatten(s.audioChunks)
    ensures r.after.button == s.button.(text := TranscribingLabel)
    ensures r.after.(button := s.button) == s
  {
    Step(s.(button := s.button.(text := TranscribingLabel)), Flatten(s.audioChunks))
  }

  /** `data.text`; a missing field reads as the text "undefined", which is
      what the page would then show and put in the control. */
  function TextOf(data: Json): string
  {
    if "text" in data then data["text"] else "undefined"
  }

  /** The reply to the upload resumes sendToTranscription. On success the
      transcript is shown and written into the shared text control; on
      failure the box shows the error and the control keeps its text. Either
      way the `finally` restores the idle button. */
  function AfterTranscriptionReply(s: VoiceState, reply: Reply): (r: VoiceState)
    ensures r.button == RecordButton(SpeakLabel, false)
    ensures reply.Succeeded() ==>
              r.box == Transcript(TextOf(reply.data)) && r.form == s.form.(inputText := TextOf(reply.data))
    ensures !reply.Succeeded() ==>
              r.box == Plain("Error: " + FailureMessage(reply, TranscriptionFailedMessage)) && r.form == s.form
    ensures reply.Received? && !reply.ok && "error" in reply.data && reply.data["error"] != "" ==>
              r.box == Plain("Error: " + reply.data["error"])
    ensures reply.Received? && !reply.ok && !("error" in reply.data && reply.data["error"] != "") ==>
              r.box == Plain("Error: " + TranscriptionFailedMessage)
    ensures r.(button := s.button, box := s.box, form := s.form) == s
  {
    var shown :=
      if reply.Succeeded() then
        s.(box := Transcript(TextOf(reply.data)), form := s.form.(inputText := TextOf(reply.data)))
      else
        s.(box := Plain("Error: " + FailureMessage(reply, TranscriptionFailedMessage)));
    shown.(button := RecordButton(SpeakLabel, false))
  }

  /** A click on the record button (with the browser's capability and the
      user's permission answer), a chunk from the recorder, the recorder's
      `stop` event, and the transcription reply. */
  datatype Event =
    | Click(captureSupported: bool, micGranted: bool)
    | DataAvailable(chunk: Chunk)
    | RecorderStopped
    | TranscriptionReply(reply: Reply)

  /** One event, handled atomically. A delivery or a `stop` event comes only
      from a recorder, so without one it changes nothing; a transcription
      reply may arrive in any state. */
  function Dispatch(s: VoiceState, e: Event): (r: VoiceState)
    ensures MicHeld(s) ==> MicHeld(r)
    ensures e.Click? && s.isRecording ==> r.audioChunks == s.audioChunks
  {
    match e
    case Click(captureSupported, micGranted) => AfterToggleRecording(s, captureSupported, micGranted).after
    case DataAvailable(chunk) => if s.hasRecorder then AfterDataAvailable(s, chunk) else s
    case RecorderStopped => if s.hasRecorder then AfterSendToTranscription(s).after else s
    case TranscriptionReply(reply) => AfterTranscriptionReply(s, reply)
  }

  function Run(s: VoiceState, events: seq<Event>): VoiceState
    decreases |events|
  {
    if events == [] then s else Run(Dispatch(s, events[0]), events[1..])
  }

  lemma {:induction false} RunAppend(s: VoiceState, a: seq<Event>, b: seq<Event>)
    ensures Run(s, a + b) == Run(Run(s, a), b)
    decreases |a|
  {
    if a == [] {
      assert a + b == b;
    } else {
      assert (a + b)[1..] == a[1..] + b;
      RunAppend(Dispatch(s, a[0]), a[1..], b);
    }
  }

  /** The microphone stream is released whenever recording stops, and open
      only while recording, over any sequence of events. */
  lemma {:induction false} RunKeepsMicHeld(s: VoiceState, events: seq<Event>)
    requires MicHeld(s)
    ensures MicHeld(Run(s, events))
    decreases |events|
  {
    if events != [] {
      RunKeepsMicHeld(Dispatch(s, events[0]), events[1..]);
    }
  }

  /** The chunks of a sequence of recorder deliveries, as events. */
  function Arrivals(chunks: seq<Chunk>): seq<Event>
    decreases |chunks|
  {
    if chunks == [] then [] else [DataAvailable(chunks[0])] + Arrivals(chunks[1..])
  }

  lemma RunCons(s: VoiceState, e: Event, rest: seq<Event>)
    ensures Run(s, [e] + rest) == Run(Dispatch(s, e), rest)
  {
    assert ([e] + rest)[1..] == rest;
  }

  /** Chunks are kept in arrival order, after those already held. */
  lemma {:induction false} ArrivalsAppendInOrder(s: VoiceState, chunks: seq<Chunk>)
    requires s.hasRecorder
    ensures Run(s, Arrivals(chunks)) == s.(audioChunks := s.audioChunks + chunks)
    decreases |chunks|
  {
    if chunks == [] {
      assert s.audioChunks + chunks == s.audioChunks;
    } else {
      var next := AfterDataAvailable(s, chunks[0]);
      RunCons(s, DataAvailable(chunks[0]), Arrivals(chunks[1..]));
      ArrivalsAppendInOrder(next, chunks[1..]);
      assert chunks == [chunks[0]] + chunks[1..];
      assert next.audioChunks + chunks[1..] == s.audioChunks + chunks;
    }
  }

  /** Start, chunks arriving while recording, then the stopping click: the
      recorder holds exactly those chunks. */
  lemma RecordThenStop(s: VoiceState, chunks: seq<Chunk>, stop: Event)
    requires !s.isRecording && stop.Click?
    ensures var r := Run(s, [Click(true, true)] + Arrivals(chunks) + [stop]);
            r.hasRecorder && !r.isRecording && r.audioChunks == chunks
  {
    var started := Dispatch(s, Click(true, true));
    RunCons(s, Click(true, true), Arrivals(chunks));
    ArrivalsAppendInOrder(started, chunks);
    var recorded := Run(started, Arrivals(chunks));
    RunAppend(s, [Click(true, true)] + Arrivals(chunks), [stop]);
    RunCons(recorded, stop, []);
    assert [stop] == [stop] + [];
  }

  /** A whole recording from idle: start, chunks arriving while recording,
      stop, chunks arriving after the stop (the recorder's last delivery),
      then the `stop` event. The upload payload is every chunk of this
      recording, in arrival order, and nothing from an earlier one. */
  lemma PayloadIsArrivalOrder(s: VoiceState, before: seq<Chunk>, after: seq<Chunk>, stop: Event)
    requires !s.isRecording && stop.Click?
    ensures var events := [Click(true, true)] + Arrivals(before) + [stop] + Arrivals(after);
            AfterSendToTranscription(Run(s, events)).out == Flatten(before) + Flatten(after)
  {
    var recording := [Click(true, true)] + Arrivals(before) + [stop];
    RecordThenStop(s, before, stop);
    var stopped := Run(s, recording);
    ArrivalsAppendInOrder(stopped, after);
    RunAppend(s, recording, Arrivals(after));
    FlattenAppend(before, after);
  }

  /** Nothing locks the record button while a transcription is awaited: a
      new recording may start, and the old reply then gives the button its
      idle look while the new recording runs. */
  lemma ReplyDuringNextRecordingShowsIdleButton(s: VoiceState, reply: Reply)
    requires !s.isRecording
    ensures var events := [Click(true, true), Click(true, true), RecorderStopped, Click(true, true),
                           TranscriptionReply(reply)];
            var r := Run(s, events);
            r.isRecording && r.micOpen && r.button == RecordButton(SpeakLabel, false)
  {
    var s1 := Dispatch(s, Click(true, true));
    var s2 := Dispatch(s1, Click(true, true));
    var s3 := Dispatch(s2, RecorderStopped);
    var s4 := Dispatch(s3, Click(true, true));
    var s5 := Dispatch(s4, TranscriptionReply(reply));
    assert s4.isRecording && s4.micOpen;
    RunCons(s4, TranscriptionReply(reply), []);
    RunCons(s3, Click(true, true), [TranscriptionReply(reply)]);
    RunCons(s2, RecorderStopped, [Click(true, true), TranscriptionReply(reply)]);
    RunCons(s1, Click(true, true), [RecorderStopped, Click(true, true), TranscriptionReply(reply)]);
    RunCons(s, Click(true, true), [Click(true, true), RecorderStopped, Click(true, true), TranscriptionReply(reply)]);
  }

  /** The handler object: its fields updated in place, and the form controls
      it shares with the session controller. */
  class VoiceHandler {
    var isRecording: bool
    var hasRecorder: bool
    var micOpen: bool
    var audioChunks: seq<Chunk>
    var recordButton: RecordButton
    var transcriptionBox: Box
    const form: Form

    function Snapshot(): VoiceState
      reads this, form
    {
      VoiceState(isRecording, hasRecorder, micOpen, audioChunks, recordButton, transcriptionBox, form.Values())
    }

    constructor (form: Form, button: RecordButton, box: Box)
      ensures this.form == form
      ensures Snapshot() == Initial(button, box, form.Values())
      ensures MicHeld(Snapshot())
    {
      isRecording := false;
      hasRecorder := false;
      micOpen := false;
      audioChunks := [];
      recordButton := button;
      transcriptionBox := box;
      this.form := form;
    }

    method ToggleRecording(captureSupported: bool, micGranted: bool) returns (alert: Option<string>)
      modifies this
      ensures Snapshot() == AfterToggleRecording(old(Snapshot()), captureSupported, micGranted).after
      ensures alert == AfterToggleRecording(old(Snapshot()), captureSupported, micGranted).out
    {
      if isRecording {
        StopRecording();
        alert := None;
      } else {
        alert := StartRecording(captureSupported, micGranted);
      }
    }

    /** Returns the alert shown, if any. */
    method StartRecording(captureSupported: bool, micGranted: bool) returns (alert: Option<string>)
      modifies this
      ensures Snapshot() == AfterStartRecording(old(Snapshot()), captureSupported, micGranted).after
      ensures alert == AfterStartRecording(old(Snapshot()), captureSupported, micGranted).out
    {
      if !captureSupported {
        alert := Some(UnsupportedAlert);
        return;
      }
      if !micGranted {
        // getUserMedia rejected: the catch
        alert := Some(MicrophoneAlert);
        return;
      }
      micOpen := true;
      hasRecorder := true;
      audioChunks := [];
      isRecording := true;
      recordButton := recordButton.(text := StopLabel);
      recordButton := recordButton.(highlighted := true);
      transcriptionBox := Plain(RecordingText);
      alert := None;
    }

    /** The recorder's `ondataavailable` callback. */
    method OnDataAvailable(chunk: Chunk)
      modifies this
      ensures Snapshot() == AfterDataAvailable(old(Snapshot()), chunk)
    {
      audioChunks := audioChunks + [chunk];
    }

    method StopRecording()
      modifies this
      ensures Snapshot() == AfterStopRecording(old(Snapshot()))
    {
      if hasRecorder {
        micOpen := false;
        isRecording := false;
        recordButton := recordButton.(text := ProcessingLabel);
      }
    }

    /** The recorder's `onstop` callback up to its `await fetch`; returns the
        uploaded audio. */
    method SendToTranscription() returns (payload: seq<byte>)
      modifies this
      ensures Snapshot() == AfterSendToTranscription(old(Snapshot())).after
      ensures payload == AfterSendToTranscription(old(Snapshot())).out
    {
      payload := Flatten(audioChunks);
      recordButton := recordButton.(text := TranscribingLabel);
    }

    /** The continuation of sendToTranscription once the upload is answered. */
    method OnTranscriptionReply(reply: Reply)
      modifies this, form
      ensures Snapshot() == AfterTranscriptionReply(old(Snapshot()), reply)
    {
      if reply.Succeeded() {
        transcriptionBox := Transcript(TextOf(reply.data));
        form.inputText := TextOf(reply.data);
      } else {
        transcriptionBox := Plain("Error: " + FailureMessage(reply, TranscriptionFailedMessage));
      }
      // the `finally`
      recordButton := recordButton.(text := SpeakLabel);
      recordButton := recordButton.(highlighted := false);
    }
  }
}
