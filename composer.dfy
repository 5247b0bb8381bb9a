/** The new-note card as a state machine: its three pieces of component state,
    the module-level speech-recognition handle, the recognizer objects it has
    built, and what it has emitted to the outside. Each handler of the card is
    one atomic transition; the rendered markup decides which handlers can fire. */
module NoteComposer {
  import opened Availability
  import opened Transcription

  /** The module-level `speechRecognition` variable. It is declared with type
      `SpeechRecognition | null` but no initialiser, so until the first
      recording it holds `undefined`; nothing ever assigns `null`. A session is
      named by the index of the recognizer object the card constructed. */
  datatype Handle = Undefined | Null | Session(id: nat)

  datatype State = State(
    showOnBoarding: bool,   // the onboarding prompt is displayed (else the textarea)
    isRecording: bool,      // the stop button is displayed (else the save button)
    content: string,        // the textarea's value
    speech: Handle,         // the module-level handle
    created: nat,           // recognizer objects constructed so far: ids 0 .. created - 1
    listening: set<nat>,    // recognizers started and not yet stopped by the card
    notes: seq<string>,     // the arguments passed to `onNoteCreated`, in order
    toasts: nat,            // success notifications raised
    alerts: nat,            // "unsupported browser" alerts raised
    faults: nat)            // handlers that ended in an uncaught TypeError

  /** The card as first rendered, before any recording. */
  const Initial := State(true, false, "", Undefined, 0, {}, [], 0, 0, 0)

  /** What a user (or the recognizer) can do to the card. */
  datatype Event =
    | ClickStartEditor
    | TypeContent(value: string)
    | ClickSave
    | ClickStartRecorder
    | SpeechResult(results: seq<Alternatives>)
    | ClickStopRecorder

  /** Nothing was emitted, notified or thrown. */
  predicate Quiet(s: State, t: State)
  {
    t.notes == s.notes && t.toasts == s.toasts && t.alerts == s.alerts && t.faults == s.faults
  }

  /** The speech handle and the recognizers are as they were. */
  predicate SameSpeech(s: State, t: State)
  {
    t.speech == s.speech && t.created == s.created && t.listening == s.listening
  }

  /** The blocking `alert` of an unsupported browser: one more alert and
      nothing else changes. */
  function Alert(s: State): (t: State)
    ensures t.alerts == s.alerts + 1
    ensures t.(alerts := s.alerts) == s
  {
    s.(alerts := s.alerts + 1)
  }

  /** `handleStartEditor`: flips the onboarding prompt. */
  function StartEditor(s: State): (t: State)
    ensures t.showOnBoarding == !s.showOnBoarding
    ensures t.content == s.content && t.isRecording == s.isRecording
    ensures SameSpeech(s, t) && Quiet(s, t)
  {
    s.(showOnBoarding := !s.showOnBoarding)
  }

  /** `handleContentChange`: the textarea now holds `v`; emptying it brings the
      onboarding prompt back. */
  function ContentChange(s: State, v: string): (t: State)
    ensures t.content == v
    ensures t.showOnBoarding <==> v == "" || s.showOnBoarding
    ensures t.isRecording == s.isRecording
    ensures SameSpeech(s, t) && Quiet(s, t)
  {
    var t := s.(content := v);
    if v == "" then t.(showOnBoarding := true) else t
  }

  /** `handleSaveNote`: an empty note is ignored; otherwise the content is
      handed to `onNoteCreated` once, the card is reset to the onboarding
      prompt and one success toast is raised. */
  function SaveNote(s: State): (t: State)
    ensures s.content == "" ==> t == s
    ensures s.content != "" ==>
      && t.notes == s.notes + [s.content]
      && t.toasts == s.toasts + 1
      && t.content == ""
      && t.showOnBoarding
    ensures t.isRecording == s.isRecording
    ensures SameSpeech(s, t) && t.alerts == s.alerts && t.faults == s.faults
  {
    if s.content == "" then s
    else s.(notes := s.notes + [s.content], content := "", showOnBoarding := true,
             toasts := s.toasts + 1)
  }

  /** The part of `handleStartRecorder` after the feature test: both state
      updates are requested first; then `new` is applied to whichever
      constructor `window` has. With none, `new undefined()` throws, the
      handle keeps its value and nothing is started. */
  function Record(s: State, p: Platform): (t: State)
    ensures t.isRecording && !t.showOnBoarding && t.content == s.content
    ensures t.notes == s.notes && t.toasts == s.toasts && t.alerts == s.alerts
    ensures HasRecognizer(p) ==>
      && t.speech == Session(s.created)
      && t.created == s.created + 1
      && t.listening == s.listening + {s.created}
      && t.faults == s.faults
    ensures !HasRecognizer(p) ==> SameSpeech(s, t) && t.faults == s.faults + 1
  {
    var u := s.(isRecording := true, showOnBoarding := false);
    if HasRecognizer(p) then
      u.(speech := Session(s.created), created := s.created + 1,
         listening := s.listening + {s.created})
    else
      u.(faults := s.faults + 1)
  }

  /** `handleStartRecorder` as written: its feature test always passes, so the
      alert is never raised and recording always begins. */
  function StartRecorder(s: State, p: Platform): (t: State)
    ensures t == Record(s, p)
    ensures t.alerts == s.alerts
  {
    AlertBranchDead(p);
    if !Truthy(AvailabilityAsWritten(p)) then Alert(s)
    else Record(s, p)
  }

  /** `handleStartRecorder` with the evidently intended feature test: a browser
      without a recognizer gets the alert and the card is otherwise unchanged. */
  function StartRecorderIntended(s: State, p: Platform): (t: State)
    ensures !HasRecognizer(p) ==> t == s.(alerts := s.alerts + 1)
    ensures HasRecognizer(p) ==> t == StartRecorder(s, p)
  {
    AvailabilityIntendedExact(p);
    if !Truthy(AvailabilityIntended(p)) then Alert(s)
    else Record(s, p)
  }

  /** The `onresult` callback: the content is replaced by the transcript of all
      results so far, whatever it held before. */
  function OnResult(s: State, results: seq<Alternatives>): (t: State)
    ensures t.content == Concat(Firsts(results))
    ensures t.(content := s.content) == s
  {
    TranscriptIsConcat(results);
    s.(content := Transcript(results))
  }

  /** `handleStopRecorder`: clears the recording flag, then calls `.stop()` on
      the handle unless it is `null`; on `undefined` that call throws. */
  function StopRecorder(s: State): (t: State)
    ensures !t.isRecording
    ensures t.content == s.content && t.showOnBoarding == s.showOnBoarding
    ensures t.speech == s.speech && t.created == s.created
    ensures t.notes == s.notes && t.toasts == s.toasts && t.alerts == s.alerts
    ensures t.faults == if s.speech == Undefined then s.faults + 1 else s.faults
    ensures t.listening == if s.speech.Session? then s.listening - {s.speech.id} else s.listening
  {
    var u := s.(isRecording := false);
    match s.speech
    case Null => u
    case Undefined => u.(faults := s.faults + 1)
    case Session(i) => u.(listening := s.listening - {i})
  }

  /** The controls of the rendered form that carry a handler. */
  datatype Control = StartRecorderLink | StartEditorLink | Textarea | StopButton | SaveButton

  /** Where an event comes from: a rendered control, or a recognizer's callback. */
  datatype Origin = Ui(control: Control) | Recognizer

  function OriginOf(e: Event): Origin
  {
    match e
    case ClickStartEditor => Ui(StartEditorLink)
    case ClickStartRecorder => Ui(StartRecorderLink)
    case TypeContent(_) => Ui(Textarea)
    case ClickSave => Ui(SaveButton)
    case ClickStopRecorder => Ui(StopButton)
    case SpeechResult(_) => Recognizer
  }

  /** The controls on screen: the onboarding prompt with its two links or the
      textarea, and below them the stop button or the save button. */
  function Rendered(s: State): (r: set<Control>)
    ensures StartEditorLink in r <==> Textarea !in r
    ensures StartEditorLink in r <==> StartRecorderLink in r
    ensures SaveButton in r <==> StopButton !in r
  {
    (if s.showOnBoarding then {StartRecorderLink, StartEditorLink} else {Textarea})
    + (if s.isRecording then {StopButton} else {SaveButton})
  }

  /** Which handlers the card can run: a control's handler only while that
      control is rendered (a controlled textarea reports only a value that
      differs from the one it shows), and a result only from a recognizer
      the card has built. */
  predicate Enabled(s: State, e: Event)
    ensures Enabled(s, e) <==>
      match OriginOf(e)
      case Recognizer => s.created > 0
      case Ui(c) => c in Rendered(s) && (e.TypeContent? ==> e.value != s.content)
  {
    match e
    case ClickStartEditor => s.showOnBoarding
    case ClickStartRecorder => s.showOnBoarding
    case TypeContent(v) => !s.showOnBoarding && v != s.content
    case ClickSave => !s.isRecording
    case ClickStopRecorder => s.isRecording
    case SpeechResult(_) => s.created > 0
  }

  /** One event, handled as the card does. What the card has emitted is never
      taken back, each event emits at most one note and raises at most one
      toast, and recognizers are only ever added. */
  function Step(s: State, p: Platform, e: Event): (t: State)
    ensures s.notes <= t.notes && |t.notes| <= |s.notes| + 1
    ensures s.toasts <= t.toasts <= s.toasts + 1
    ensures s.alerts <= t.alerts && s.faults <= t.faults
    ensures s.created <= t.created <= s.created + 1
  {
    match e
    case ClickStartEditor => StartEditor(s)
    case TypeContent(v) => ContentChange(s, v)
    case ClickSave => SaveNote(s)
    case ClickStartRecorder => StartRecorder(s, p)
    case SpeechResult(rs) => OnResult(s, rs)
    case ClickStopRecorder => StopRecorder(s)
  }

  /** Starting the editor twice restores the card. */
  lemma StartEditorTwice(s: State)
    ensures StartEditor(StartEditor(s)) == s
  {
  }

  /** A second save right after a save changes nothing: the first one has
      emptied the content. */
  lemma SaveTwice(s: State)
    ensures SaveNote(SaveNote(s)) == SaveNote(s)
  {
  }
}
