/** The session controller of frontend/js/app.js: the `appState` record, the
    visibility of the page's sections and input areas, the generate button's
    lock, and the click handlers that change them.

    Every handler is given twice: as a transition function on a value
    `Session` (what the handler does, with its per-path outcomes stated in its
    contract), and as a method of `SessionController`, whose fields are the
    record and the page flags and whose methods are proved to perform exactly
    that transition. `generateDocument` suspends at `await fetch`, so it is two
    steps: the click (validation, then lock and send) and the reply (success or
    failure updates, then release of the lock). */
module App {
  import opened Page

  datatype Mode = Text | Voice

  /** `appState.userDetails`: `{}` until a generate click collects the form. */
  datatype UserDetails =
    | NoDetails
    | Details(inputText: string, fullName: string, address: string, wardNumber: string, inputMode: Mode)

  /** The body posted to /documents/generate. */
  datatype Request = Request(serviceType: string, userDetails: UserDetails)

  datatype NoticeKind = Success | Error

  /** A transient notification: its text and its kind. */
  datatype Notice = Notice(message: string, kind: NoticeKind)

  /** How a generate click ends before any reply: stopped by validation, or
      with a request sent and its reply awaited. */
  datatype Started = Rejected(notice: Notice) | Sent(request: Request)

  /** A transition with an observable result beside the new state. */
  datatype Step<R> = Step(after: Session, out: R)

  const GenerateLabel := "Generate Document"
  const GeneratingLabel := "Generating..."
  const PreviewPlaceholder := "Document content will appear here"
  const NoServiceMessage := "Please select a service"
  const NoInputMessage := "Please provide some information"
  const GenerateFailedMessage := "Failed to generate document"
  const GeneratedMessage := "Document generated successfully!"
  const NoDocumentMessage := "No document to download"
  const DownloadPendingMessage := "PDF download feature coming soon"

  /** `appState`. */
  datatype AppState = AppState(
    currentService: Option<string>,
    userDetails: UserDetails,
    generatedDocument: Option<Json>,
    inputMode: Mode)

  /** The page flags the handlers set: which service button and which mode
      button carry the `active` class, which sections and input areas are
      displayed, and the preview's text. */
  datatype View = View(
    activeService: Option<string>,
    voiceButtonActive: bool,
    textButtonActive: bool,
    inputShown: bool,
    outputShown: bool,
    voiceShown: bool,
    textShown: bool,
    preview: string)

  /** The generate button's `disabled` flag and text. */
  datatype Button = Button(disabled: bool, text: string)

  const Released := Button(false, GenerateLabel)
  const Locked := Button(true, GeneratingLabel)

  /** The whole state the handlers read and write; `inFlight` counts
      `generateDocument` calls suspended at their `await`. */
  datatype Session = Session(app: AppState, view: View, button: Button, inFlight: nat, form: Fields)

  /** The state at page load: `appState` as declared; the flags are set by the
      markup, which is not part of this model, so they are parameters. */
  function Initial(form: Fields, view: View, button: Button): Session
  {
    Session(AppState(None, NoDetails, None, Text), view, button, 0, form)
  }

  /** Exactly one input area is shown, the one `inputMode` names. */
  predicate AreasMirrorMode(s: Session)
  {
    s.view.voiceShown == (s.app.inputMode == Voice) && s.view.textShown == (s.app.inputMode == Text)
  }

  /** The generate button is locked exactly while a request is awaited, and at
      most one request is awaited. */
  predicate LockHeld(s: Session)
  {
    s.inFlight <= 1 && s.button == (if s.inFlight == 1 then Locked else Released)
  }

  /** selectService: the clicked button's service becomes current and its
      button active, and the input section is shown; nothing else in
      `appState` changes. */
  function AfterSelectService(s: Session, id: string): (r: Session)
    ensures r.app.currentService == Some(id) && r.view.activeService == Some(id) && r.view.inputShown
    ensures r.app.(currentService := s.app.currentService) == s.app
    ensures r.view.(activeService := s.view.activeService, inputShown := s.view.inputShown) == s.view
    ensures r.(app := s.app, view := s.view) == s
  {
    s.(view := s.view.(activeService := Some(id), inputShown := true),
       app := s.app.(currentService := Some(id)))
  }

  /** switchToVoice. */
  function AfterSwitchToVoice(s: Session): (r: Session)
    ensures r.app.inputMode == Voice && r.view.voiceShown && !r.view.textShown
    ensures r.view.voiceButtonActive && !r.view.textButtonActive
    ensures AreasMirrorMode(r)
    ensures r.app.(inputMode := s.app.inputMode) == s.app
    ensures r.view.preview == s.view.preview && r.view.activeService == s.view.activeService
    ensures r.view.inputShown == s.view.inputShown && r.view.outputShown == s.view.outputShown
    ensures r.(app := s.app, view := s.view) == s
  {
    s.(app := s.app.(inputMode := Voice),
       view := s.view.(voiceShown := true, textShown := false,
                       voiceButtonActive := true, textButtonActive := false))
  }

  /** switchToText. */
  function AfterSwitchToText(s: Session): (r: Session)
    ensures r.app.inputMode == Text && !r.view.voiceShown && r.view.textShown
    ensures !r.view.voiceButtonActive && r.view.textButtonActive
    ensures AreasMirrorMode(r)
    ensures r.app.(inputMode := s.app.inputMode) == s.app
    ensures r.view.preview == s.view.preview && r.view.activeService == s.view.activeService
    ensures r.view.inputShown == s.view.inputShown && r.view.outputShown == s.view.outputShown
    ensures r.(app := s.app, view := s.view) == s
  {
    s.(app := s.app.(inputMode := Text),
       view := s.view.(voiceShown := false, textShown := true,
                       textButtonActive := true, voiceButtonActive := false))
  }

  lemma SwitchesAreIdempotent(s: Session)
    ensures AfterSwitchToVoice(AfterSwitchToVoice(s)) == AfterSwitchToVoice(s)
    ensures AfterSwitchToText(AfterSwitchToText(s)) == AfterSwitchToText(s)
  {
  }

  /** collectUserDetails: the four controls and the current input mode;
      `fullName` is read from #userName. */
  function UserDetailsFrom(s: Session): (d: UserDetails)
    ensures d.Details?
    ensures d.inputText == s.form.inputText && d.fullName == s.form.userName
    ensures d.address == s.form.userAddress && d.wardNumber == s.form.wardNumber
    ensures d.inputMode == s.app.inputMode
  {
    Details(s.form.inputText, s.form.userName, s.form.userAddress, s.form.wardNumber, s.app.inputMode)
  }

  /** A generate click, up to the `await fetch`. With no (truthy) service it
      stops at once; otherwise it overwrites `userDetails` from the form and
      stops when both the text and the name are empty. Both early returns
      still run the `finally`, which releases the button. Otherwise it locks
      the button and sends `{service_type, user_details}`. */
  function AfterGenerateClick(s: Session): (r: Step<Started>)
    ensures r.out.Sent? <==> Truthy(s.app.currentService) && (s.form.inputText != "" || s.form.userName != "")
    ensures !Truthy(s.app.currentService) ==>
              r.out == Rejected(Notice(NoServiceMessage, Error)) && r.after.app == s.app
    ensures Truthy(s.app.currentService) ==>
              r.after.app == s.app.(userDetails := UserDetailsFrom(s))
    ensures Truthy(s.app.currentService) && s.form.inputText == "" && s.form.userName == "" ==>
              r.out == Rejected(Notice(NoInputMessage, Error))
    ensures r.out.Rejected? ==> r.after.button == Released && r.after.inFlight == s.inFlight
    ensures r.out.Sent? ==>
              r.out.request == Request(s.app.currentService.value, r.after.app.userDetails) &&
              r.after.button == Locked && r.after.inFlight == s.inFlight + 1
    ensures r.after.view == s.view && r.after.form == s.form
  {
    if !Truthy(s.app.currentService) then
      Step(s.(button := Released), Rejected(Notice(NoServiceMessage, Error)))
    else
      var details := UserDetailsFrom(s);
      var collected := s.(app := s.app.(userDetails := details));
      if details.inputText == "" && details.fullName == "" then
        Step(collected.(button := Released), Rejected(Notice(NoInputMessage, Error)))
      else
        Step(collected.(button := Locked, inFlight := s.inFlight + 1),
             Sent(Request(s.app.currentService.value, details)))
  }

  /** displayPreview's text: `data.content || placeholder`. */
  function PreviewOf(data: Json): string
  {
    if "content" in data && data["content"] != "" then data["content"] else PreviewPlaceholder
  }

  /** The reply to a sent request resumes generateDocument. On success the
      reply body becomes the generated document and the view switches to
      output; on failure only a notice is raised. Either way the `finally`
      releases the button. */
  function AfterGenerateReply(s: Session, reply: Reply): (r: Step<Notice>)
    requires s.inFlight > 0
    ensures r.after.button == Released && r.after.inFlight == s.inFlight - 1
    ensures reply.Succeeded() ==>
              r.after.app == s.app.(generatedDocument := Some(reply.data)) &&
              r.after.view.outputShown && !r.after.view.inputShown &&
              r.out == Notice(GeneratedMessage, Success)
    ensures reply.Succeeded() && "content" in reply.data && reply.data["content"] != "" ==>
              r.after.view.preview == reply.data["content"]
    ensures reply.Succeeded() && !("content" in reply.data && reply.data["content"] != "") ==>
              r.after.view.preview == PreviewPlaceholder
    ensures reply.Succeeded() ==>
              r.after.view.(outputShown := s.view.outputShown, inputShown := s.view.inputShown,
                            preview := s.view.preview) == s.view
    ensures !reply.Succeeded() ==> r.after.app == s.app && r.after.view == s.view && r.out.kind == Error
    ensures reply.Received? && !reply.ok && "error" in reply.data && reply.data["error"] != "" ==>
              r.out.message == reply.data["error"]
    ensures reply.Received? && !reply.ok && !("error" in reply.data && reply.data["error"] != "") ==>
              r.out.message == GenerateFailedMessage
    ensures reply.Threw? ==> r.out.message == reply.message
    ensures r.after.form == s.form
  {
    if reply.Succeeded() then
      var app := s.app.(generatedDocument := Some(reply.data));
      var view := s.view.(preview := PreviewOf(reply.data), outputShown := true, inputShown := false);
      Step(Session(app, view, Released, s.inFlight - 1, s.form), Notice(GeneratedMessage, Success))
    else
      Step(s.(button := Released, inFlight := s.inFlight - 1),
           Notice(FailureMessage(reply, GenerateFailedMessage), Error))
  }

  /** downloadPDF only reports; which report depends on whether a document
      exists. It never produces a file. */
  function DownloadNotice(s: Session): (n: Notice)
    ensures n.kind == Error
    ensures n.message == NoDocumentMessage <==> s.app.generatedDocument.None?
    ensures s.app.generatedDocument.Some? ==> n.message == DownloadPendingMessage
  {
    if s.app.generatedDocument.None? then Notice(NoDocumentMessage, Error)
    else Notice(DownloadPendingMessage, Error)
  }

  /** editDocument: back to the input view; the document is kept. */
  function AfterEditDocument(s: Session): (r: Session)
    ensures !r.view.outputShown && r.view.inputShown
    ensures r.app == s.app
    ensures r.view.(outputShown := s.view.outputShown, inputShown := s.view.inputShown) == s.view
    ensures r.(view := s.view) == s
  {
    s.(view := s.view.(outputShown := false, inputShown := true))
  }

  /** resetForm: the record back to its page-load values except `inputMode`,
      no active service, the four controls emptied, both sections hidden. */
  function AfterResetForm(s: Session): (r: Session)
    ensures r.app.currentService == None && r.app.userDetails == NoDetails && r.app.generatedDocument == None
    ensures r.app.inputMode == s.app.inputMode
    ensures r.view.activeService == None && !r.view.inputShown && !r.view.outputShown
    ensures r.form == EmptyFields
    ensures r.view.(activeService := s.view.activeService, inputShown := s.view.inputShown,
                    outputShown := s.view.outputShown) == s.view
    ensures r.button == s.button && r.inFlight == s.inFlight
  {
    var view := s.view.(activeService := None, inputShown := false, outputShown := false);
    Session(AppState(None, NoDetails, None, s.app.inputMode), view, s.button, s.inFlight, EmptyFields)
  }

  /** What the user can do to the page, and the reply that resumes an awaited
      request. `Type` is the user editing the four controls. */
  datatype Event =
    | ClickService(id: string)
    | ClickVoice
    | ClickText
    | Type(fields: Fields)
    | ClickGenerate
    | GenerateReply(reply: Reply)
    | ClickEdit
    | ClickDownload
    | ClickNew

  /** One event, handled atomically. A disabled button receives no click, and
      a reply comes only to an awaited request. */
  function Dispatch(s: Session, e: Event): (r: Session)
    ensures LockHeld(s) ==> LockHeld(r)
    ensures AreasMirrorMode(s) ==> AreasMirrorMode(r)
    ensures e.ClickGenerate? && s.button.disabled ==> r == s
  {
    match e
    case ClickService(id) => AfterSelectService(s, id)
    case ClickVoice => AfterSwitchToVoice(s)
    case ClickText => AfterSwitchToText(s)
    case Type(fields) => s.(form := fields)
    case ClickGenerate => if s.button.disabled then s else AfterGenerateClick(s).after
    case GenerateReply(reply) => if s.inFlight == 0 then s else AfterGenerateReply(s, reply).after
    case ClickEdit => AfterEditDocument(s)
    case ClickDownload => s
    case ClickNew => AfterResetForm(s)
  }

  function Run(s: Session, events: seq<Event>): Session
    decreases |events|
  {
    if events == [] then s else Run(Dispatch(s, events[0]), events[1..])
  }

  /** The button lock holds after any sequence of events: every exit from
      generateDocument releases it, and no second request can start while one
      is awaited. */
  lemma {:induction false} RunKeepsLock(s: Session, events: seq<Event>)
    requires LockHeld(s)
    ensures LockHeld(Run(s, events))
    decreases |events|
  {
    if events != [] {
      RunKeepsLock(Dispatch(s, events[0]), events[1..]);
    }
  }

  /** Once the input areas mirror the mode, they keep doing so. */
  lemma {:induction false} RunKeepsAreas(s: Session, events: seq<Event>)
    requires AreasMirrorMode(s)
    ensures AreasMirrorMode(Run(s, events))
    decreases |events|
  {
    if events != [] {
      RunKeepsAreas(Dispatch(s, events[0]), events[1..]);
    }
  }

  /** While a request is awaited, nothing but its reply releases the button,
      whatever else the user does in the meantime. */
  lemma {:induction false} LockedUntilReply(s: Session, events: seq<Event>)
    requires LockHeld(s) && s.inFlight == 1
    requires forall i :: 0 <= i < |events| ==> !events[i].GenerateReply?
    ensures Run(s, events).button == Locked && Run(s, events).inFlight == 1
    decreases |events|
  {
    if events != [] {
      LockedUntilReply(Dispatch(s, events[0]), events[1..]);
    }
  }

  /** editDocument after a successful generation leaves a document stored
      while the output view is hidden. */
  lemma EditKeepsDocumentWhileOutputHidden(s: Session, reply: Reply)
    requires s.inFlight > 0 && reply.Succeeded()
    ensures AfterEditDocument(AfterGenerateReply(s, reply).after).app.generatedDocument == Some(reply.data)
    ensures !AfterEditDocument(AfterGenerateReply(s, reply).after).view.outputShown
  {
  }

  /** The controller object: the `appState` record, the page flags and the
      generate button as fields updated in place (one record update per
      assignment of the handlers), and the form controls it shares with the
      voice handler. */
  class SessionController {
    var appState: AppState
    var view: View
    var generateButton: Button
    /** Bookkeeping, not page state: the `generateDocument` calls suspended
        at their `await`. */
    ghost var inFlight: nat
    const form: Form

    ghost function Snapshot(): Session
      reads this, form
    {
      Session(appState, view, generateButton, inFlight, form.Values())
    }

    constructor (form: Form, view: View, button: Button)
      ensures this.form == form
      ensures Snapshot() == Initial(form.Values(), view, button)
      ensures button == Released ==> LockHeld(Snapshot())
      ensures !view.voiceShown && view.textShown ==> AreasMirrorMode(Snapshot())
    {
      appState := AppState(None, NoDetails, None, Text);
      this.view := view;
      generateButton := button;
      inFlight := 0;
      this.form := form;
    }

    method SelectService(id: string)
      modifies this
      ensures Snapshot() == AfterSelectService(old(Snapshot()), id)
    {
      view := view.(activeService := Some(id));
      appState := appState.(currentService := Some(id));
      view := view.(inputShown := true);
    }

    method SwitchToVoice()
      modifies this
      ensures Snapshot() == AfterSwitchToVoice(old(Snapshot()))
    {
      appState := appState.(inputMode := Voice);
      view := view.(voiceShown := true);
      view := view.(textShown := false);
      view := view.(voiceButtonActive := true);
      view := view.(textButtonActive := false);
    }

    method SwitchToText()
      modifies this
      ensures Snapshot() == AfterSwitchToText(old(Snapshot()))
    {
      appState := appState.(inputMode := Text);
      view := view.(voiceShown := false);
      view := view.(textShown := true);
      view := view.(textButtonActive := true);
      view := view.(voiceButtonActive := false);
    }

    method CollectUserDetails() returns (d: UserDetails)
      ensures d == UserDetailsFrom(Snapshot())
    {
      d := Details(form.inputText, form.userName, form.userAddress, form.wardNumber, appState.inputMode);
    }

    /** The click handler up to its `await fetch`: returns the request it
        sends, or the notice of the validation that stopped it. */
    method GenerateDocument() returns (started: Started)
      modifies this
      ensures Snapshot() == AfterGenerateClick(old(Snapshot())).after
      ensures started == AfterGenerateClick(old(Snapshot())).out
    {
      if !Truthy(appState.currentService) {
        started := Rejected(Notice(NoServiceMessage, Error));
      } else {
        var details := CollectUserDetails();
        appState := appState.(userDetails := details);
        if appState.userDetails.inputText == "" && appState.userDetails.fullName == "" {
          started := Rejected(Notice(NoInputMessage, Error));
        } else {
          generateButton := generateButton.(disabled := true);
          generateButton := generateButton.(text := GeneratingLabel);
          started := Sent(Request(appState.currentService.value, appState.userDetails));
          inFlight := inFlight + 1;
          return;
        }
      }
      // the `finally`, reached from both early returns
      generateButton := generateButton.(disabled := false);
      generateButton := generateButton.(text := GenerateLabel);
    }

    /** The continuation of generateDocument once its request is answered. */
    method OnGenerateReply(reply: Reply) returns (notice: Notice)
      requires inFlight > 0
      modifies this
      ensures Snapshot() == AfterGenerateReply(old(Snapshot()), reply).after
      ensures notice == AfterGenerateReply(old(Snapshot()), reply).out
    {
      if reply.Succeeded() {
        appState := appState.(generatedDocument := Some(reply.data));
        view := view.(preview := PreviewOf(reply.data));
        view := view.(outputShown := true);
        view := view.(inputShown := false);
        notice := Notice(GeneratedMessage, Success);
      } else {
        notice := Notice(FailureMessage(reply, GenerateFailedMessage), Error);
      }
      // the `finally`
      generateButton := generateButton.(disabled := false);
      generateButton := generateButton.(text := GenerateLabel);
      inFlight := inFlight - 1;
    }

    method DownloadPDF() returns (notice: Notice)
      ensures notice == DownloadNotice(Snapshot())
    {
      if appState.generatedDocument.None? {
        notice := Notice(NoDocumentMessage, Error);
        return;
      }
      notice := Notice(DownloadPendingMessage, Error);
    }

    method EditDocument()
      modifies this
      ensures Snapshot() == AfterEditDocument(old(Snapshot()))
    {
      view := view.(outputShown := false);
      view := view.(inputShown := true);
    }

    method ResetForm()
      modifies this, form
      ensures Snapshot() == AfterResetForm(old(Snapshot()))
    {
      appState := appState.(currentService := None);
      appState := appState.(userDetails := NoDetails);
      appState := appState.(generatedDocument := None);
      view := view.(activeService := None);
      form.Clear();
      view := view.(inputShown := false);
      view := view.(outputShown := false);
    }
  }
}
