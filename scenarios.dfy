/** Clients of the two handler classes, wired as the page wires them: one
    form shared by the session controller and the voice handler. Each method
    drives the objects through a user story and states what the user sees. */
module Scenarios {
  import opened Page
  import App
  import Voice

  /** A service and a name but no text pass validation; the request carries
      them. */
  method NameWithoutTextPassesValidation(view: App.View, button: App.Button) returns (started: App.Started)
    ensures started == App.Sent(App.Request("pension", App.Details("", "Asha Devi", "", "", App.Text)))
  {
    var form := new Form(Fields("", "Asha Devi", "", ""));
    var session := new App.SessionController(form, view, button);
    session.SelectService("pension");
    started := session.GenerateDocument();
  }

  /** With no service selected, generating is refused before anything is
      sent, and the record is left as it was. */
  method GenerateWithoutService(fields: Fields, view: App.View, button: App.Button)
    returns (started: App.Started, app: App.AppState, after: App.Button)
    ensures started == App.Rejected(App.Notice(App.NoServiceMessage, App.Error))
    ensures app == App.AppState(None, App.NoDetails, None, App.Text)
    ensures after == App.Released
  {
    var form := new Form(fields);
    var session := new App.SessionController(form, view, button);
    started := session.GenerateDocument();
    app := session.appState;
    after := session.generateButton;
  }

  /** The generate button is locked while the request is awaited and
      released when its reply comes, whatever the reply. */
  method GenerateLocksThenReleases(reply: Reply, view: App.View)
    returns (during: App.Button, after: App.Button, shown: bool)
    ensures during == App.Locked && after == App.Released
    ensures shown == reply.Succeeded()
  {
    var form := new Form(Fields("", "Asha Devi", "", ""));
    var session := new App.SessionController(form, view.(outputShown := false), App.Released);
    session.SelectService("pension");
    var started := session.GenerateDocument();
    during := session.generateButton;
    var notice := session.OnGenerateReply(reply);
    after := session.generateButton;
    shown := session.view.outputShown;
  }

  /** A full voice cycle whose transcription succeeds: the transcript is
      shown and becomes the text control's value, and the button is idle. */
  method RationCardTranscript(chunk: Voice.Chunk, fields: Fields, button: Voice.RecordButton, box: Voice.Box)
    returns (payload: seq<Voice.byte>, shown: Voice.Box, inputText: string, caption: string)
    ensures payload == chunk
    ensures shown == Voice.Transcript("Apply for ration card")
    ensures inputText == "Apply for ration card"
    ensures caption == Voice.SpeakLabel
  {
    var form := new Form(fields);
    var voice := new Voice.VoiceHandler(form, button, box);
    var alert := voice.ToggleRecording(true, true);
    voice.OnDataAvailable(chunk);
    alert := voice.ToggleRecording(true, true);
    assert voice.audioChunks == [chunk];
    assert Voice.Flatten([chunk]) == chunk by {
      assert [chunk][1..] == [];
    }
    payload := voice.SendToTranscription();
    voice.OnTranscriptionReply(Received(true, map["text" := "Apply for ration card"]));
    shown := voice.transcriptionBox;
    inputText := form.inputText;
    caption := voice.recordButton.text;
  }

  /** A full voice cycle whose transcription is refused: the error is shown,
      the text control keeps its value, and the button is idle. */
  method AudioTooShort(chunk: Voice.Chunk, fields: Fields, button: Voice.RecordButton, box: Voice.Box)
    returns (shown: Voice.Box, inputText: string, caption: string)
    ensures shown == Voice.Plain("Error: " + "Audio too short")
    ensures inputText == fields.inputText
    ensures caption == Voice.SpeakLabel
  {
    var form := new Form(fields);
    var voice := new Voice.VoiceHandler(form, button, box);
    var alert := voice.ToggleRecording(true, true);
    voice.OnDataAvailable(chunk);
    alert := voice.ToggleRecording(true, true);
    var payload := voice.SendToTranscription();
    var refusal := Received(false, map["error" := "Audio too short"]);
    assert FailureMessage(refusal, Voice.TranscriptionFailedMessage) == "Audio too short";
    voice.OnTranscriptionReply(refusal);
    shown := voice.transcriptionBox;
    inputText := form.inputText;
    caption := voice.recordButton.text;
  }

  /** Stopping a handler that has never recorded changes nothing. */
  method StopBeforeAnyRecording(fields: Fields, button: Voice.RecordButton, box: Voice.Box)
    returns (recording: bool, idle: Voice.RecordButton, shown: Voice.Box)
    ensures !recording && idle == button && shown == box
  {
    var form := new Form(fields);
    var voice := new Voice.VoiceHandler(form, button, box);
    voice.StopRecording();
    recording := voice.isRecording;
    idle := voice.recordButton;
    shown := voice.transcriptionBox;
  }

  /** Capture unsupported or the microphone refused: an alert, and the
      handler stays idle with no recorder. */
  method StartRefused(captureSupported: bool, micGranted: bool, fields: Fields,
                      button: Voice.RecordButton, box: Voice.Box)
    returns (alert: Option<string>, recording: bool, hasRecorder: bool)
    requires !(captureSupported && micGranted)
    ensures alert == Some(if captureSupported then Voice.MicrophoneAlert else Voice.UnsupportedAlert)
    ensures !recording && !hasRecorder
  {
    var form := new Form(fields);
    var voice := new Voice.VoiceHandler(form, button, box);
    alert := voice.ToggleRecording(captureSupported, micGranted);
    recording := voice.isRecording;
    hasRecorder := voice.hasRecorder;
  }

  /** The hand-off: what the voice handler transcribes is the text the
      session controller collects and sends. */
  method SpokenDetailsReachRequest(service: string, transcript: string, view: App.View,
                                   button: App.Button, record: Voice.RecordButton, box: Voice.Box)
    returns (started: App.Started)
    requires service != "" && transcript != ""
    ensures started == App.Sent(App.Request(service, App.Details(transcript, "", "", "", App.Voice)))
  {
    var form := new Form(EmptyFields);
    var session := new App.SessionController(form, view, button);
    var voice := new Voice.VoiceHandler(form, record, box);
    session.SelectService(service);
    session.SwitchToVoice();
    var alert := voice.ToggleRecording(true, true);
    alert := voice.ToggleRecording(true, true);
    var payload := voice.SendToTranscription();
    voice.OnTranscriptionReply(Received(true, map["text" := transcript]));
    started := session.GenerateDocument();
  }
}
