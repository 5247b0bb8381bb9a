/** The `NewNoteCard` component as an object: its state hooks are fields the
    handlers assign, the module-level speech handle and the recognizers live
    beside them, and what the card emits is recorded in fields too. Each
    handler requires what the rendered markup guarantees before it can fire,
    and is proved to perform exactly the transition of `NoteComposer`. */
module Card {
  import opened Availability
  import opened Transcription
  import opened NoteComposer
  import opened ComposerRuns

  class NewNoteCard {
    /** The browser the card runs in. */
    const platform: Platform

    var showOnBoarding: bool
    var isRecording: bool
    var content: string

    /** The module-level `speechRecognition` handle. */
    var speechRecognition: Handle
    var created: nat
    var listening: set<nat>

    /** What reached `onNoteCreated`, `toast.success`, `alert` and the console. */
    var notes: seq<string>
    var toasts: nat
    var alerts: nat
    var faults: nat

    /** The card's state as a value. */
    function State(): State
      reads this
    {
      NoteComposer.State(showOnBoarding, isRecording, content, speechRecognition,
                         created, listening, notes, toasts, alerts, faults)
    }

    ghost predicate Valid()
      reads this
    {
      Inv(platform, State())
    }

    constructor (platform: Platform)
      ensures this.platform == platform
      ensures State() == Initial && Valid()
    {
      this.platform := platform;
      showOnBoarding, isRecording, content := true, false, "";
      speechRecognition, created, listening := Undefined, 0, {};
      notes, toasts, alerts, faults := [], 0, 0, 0;
      InitialInv(platform);
    }

    method HandleStartEditor()
      requires Valid() && Enabled(State(), ClickStartEditor)
      modifies this
      ensures Valid() && State() == StartEditor(old(State()))
    {
      StepInv(platform, State(), ClickStartEditor);
      showOnBoarding := !showOnBoarding;
    }

    method HandleContentChange(value: string)
      requires Valid() && Enabled(State(), TypeContent(value))
      modifies this
      ensures Valid() && State() == ContentChange(old(State()), value)
    {
      StepInv(platform, State(), TypeContent(value));
      content := value;
      if value == "" {
        showOnBoarding := true;
      }
    }

    method HandleSaveNote()
      requires Valid() && Enabled(State(), ClickSave)
      modifies this
      ensures Valid() && State() == SaveNote(old(State()))
    {
      StepInv(platform, State(), ClickSave);
      if content == "" {
        return;
      }
      notes := notes + [content];
      content := "";
      showOnBoarding := true;
      toasts := toasts + 1;
    }

    method HandleStartRecorder()
      requires Valid() && Enabled(State(), ClickStartRecorder)
      modifies this
      ensures Valid() && State() == StartRecorder(old(State()), platform)
    {
      StepInv(platform, State(), ClickStartRecorder);
      var available := AvailabilityAsWritten(platform);
      // the `alert` and early return of an unsupported browser
      var alerted := if Truthy(available) then State() else Alert(State());
      alerts := alerted.alerts;
      if !Truthy(available) {
        return;
      }
      isRecording := true;
      showOnBoarding := false;
      if !HasRecognizer(platform) {
        // `new undefined()` throws; the two updates above still apply
        faults := faults + 1;
        return;
      }
      speechRecognition := Session(created);
      listening := listening + {created};
      created := created + 1;
    }

    /** The `onresult` callback installed by `HandleStartRecorder`. */
    method HandleSpeechResult(results: seq<Alternatives>)
      requires Valid() && Enabled(State(), SpeechResult(results))
      modifies this
      ensures Valid() && State() == OnResult(old(State()), results)
    {
      StepInv(platform, State(), SpeechResult(results));
      content := Transcript(results);
    }

    method HandleStopRecorder()
      requires Valid() && Enabled(State(), ClickStopRecorder)
      modifies this
      ensures Valid() && State() == StopRecorder(old(State()))
      ensures HasRecognizer(platform) ==> faults == old(faults)
    {
      StepInv(platform, State(), ClickStopRecorder);
      if HasRecognizer(platform) {
        StopMeetsSession(platform, State());
      }
      isRecording := false;
      if speechRecognition != Null {
        match speechRecognition
        case Undefined =>
          // `undefined.stop()` throws
          faults := faults + 1;
        case Session(i) =>
          listening := listening - {i};
      }
    }
  }
}
