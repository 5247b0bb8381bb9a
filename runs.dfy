/** Runs of the new-note card: sequences of events, each offered by the card
    at the moment it happens, and the facts that hold in every state such a
    run reaches. */
module ComposerRuns {
  import opened Availability
  import opened NoteComposer

  /** The state after handling `events` in order, starting from `s`. */
  function Run(p: Platform, s: State, events: seq<Event>): State
    decreases events
  {
    if events == [] then s else Run(p, Step(s, p, events[0]), events[1..])
  }

  /** Every event of the run is offered by the card when it happens. */
  predicate Admissible(p: Platform, s: State, events: seq<Event>)
    decreases events
  {
    events == [] || (Enabled(s, events[0]) && Admissible(p, Step(s, p, events[0]), events[1..]))
  }

  /** Facts of every reachable state. The handle is never `null`; it names the
      latest recognizer once one exists; on a browser that has a recognizer,
      recording implies a session was assigned; every emitted note is
      non-empty and was announced by exactly one toast. */
  predicate Inv(p: Platform, s: State)
  {
    && s.speech != Null
    && (s.speech.Session? <==> s.created > 0)
    && (s.speech.Session? ==> s.speech.id == s.created - 1)
    && (forall i :: i in s.listening ==> i < s.created)
    && (HasRecognizer(p) ==> (s.isRecording ==> s.speech.Session?))
    && (!HasRecognizer(p) ==> s.created == 0)
    && (forall i :: 0 <= i < |s.notes| ==> s.notes[i] != "")
    && s.toasts == |s.notes|
  }

  lemma InitialInv(p: Platform)
    ensures Inv(p, Initial)
  {
  }

  /** Every handler keeps the invariant. */
  lemma StepInv(p: Platform, s: State, e: Event)
    requires Inv(p, s)
    ensures Inv(p, Step(s, p, e))
  {
  }

  /** The stop button is shown only while recording, so on a browser with a
      recognizer `.stop()` is always called on an assigned session and never
      on the `undefined` handle. */
  lemma StopMeetsSession(p: Platform, s: State)
    requires Inv(p, s) && HasRecognizer(p) && Enabled(s, ClickStopRecorder)
    ensures s.speech.Session?
    ensures StopRecorder(s).faults == s.faults
  {
  }

  /** Without the guard, stopping the freshly rendered card would call
      `.stop()` on `undefined`. */
  lemma UnguardedStopFaults()
    ensures !Enabled(Initial, ClickStopRecorder)
    ensures StopRecorder(Initial).faults == 1
  {
  }

  /** Along any admissible run the invariant holds, no alert is ever raised
      and, on a browser with a recognizer, no handler throws. */
  lemma {:induction false} RunInv(p: Platform, s: State, events: seq<Event>)
    requires Inv(p, s) && Admissible(p, s, events)
    ensures Inv(p, Run(p, s, events))
    ensures Run(p, s, events).alerts == s.alerts
    ensures HasRecognizer(p) ==> Run(p, s, events).faults == s.faults
    decreases events
  {
    if events != [] {
      var e := events[0];
      StepInv(p, s, e);
      if e == ClickStopRecorder && HasRecognizer(p) {
        StopMeetsSession(p, s);
      }
      RunInv(p, Step(s, p, e), events[1..]);
    }
  }

  /** What every run of a freshly rendered card reaches. */
  lemma Reachable(p: Platform, events: seq<Event>)
    requires Admissible(p, Initial, events)
    ensures Inv(p, Run(p, Initial, events))
    ensures Run(p, Initial, events).alerts == 0
    ensures HasRecognizer(p) ==> Run(p, Initial, events).faults == 0
  {
    RunInv(p, Initial, events);
  }

  /** The session invariant, stated without reference to the browser. */
  predicate SessionAssigned(s: State)
  {
    s.isRecording ==> s.speech.Session?
  }

  /** With the intended feature test, starting a recording keeps the session
      invariant on every browser. */
  lemma IntendedStartKeepsSession(p: Platform, s: State)
    requires SessionAssigned(s)
    ensures SessionAssigned(StartRecorderIntended(s, p))
  {
  }

  /** As written, on a browser with no recognizer, starting a recording leaves
      the card recording with no session, and the stop button that is then
      shown calls `.stop()` on `undefined`. */
  lemma AsWrittenStartLosesSession()
    ensures var p := Platform(false, false);
      var events := [ClickStartRecorder];
      && Admissible(p, Initial, events)
      && !SessionAssigned(Run(p, Initial, events))
      && Enabled(Run(p, Initial, events), ClickStopRecorder)
      && Run(p, Initial, events + [ClickStopRecorder]).faults == 2
  {
    var p := Platform(false, false);
    var s1 := Step(Initial, p, ClickStartRecorder);
    assert Run(p, Initial, [ClickStartRecorder]) == s1;
    var events := [ClickStartRecorder, ClickStopRecorder];
    assert [ClickStartRecorder] + [ClickStopRecorder] == events;
    assert events[1..] == [ClickStopRecorder];
    assert Run(p, Initial, events) == Run(p, s1, [ClickStopRecorder]);
  }

  /** A run in which the user never asks for dictation. */
  predicate TypingOnly(events: seq<Event>)
  {
    forall i :: 0 <= i < |events| ==> !events[i].ClickStartRecorder?
  }

  /** Facts of a card that has only been typed into: the onboarding prompt is
      shown only over empty content, and there is no recording. */
  predicate TypedState(s: State)
  {
    (s.showOnBoarding ==> s.content == "") && !s.isRecording && s.created == 0
  }

  /** Typing alone keeps the onboarding prompt and the content in step: the
      prompt never hides typed text. */
  lemma {:induction false} TypingKeepsPromptOverEmpty(p: Platform, s: State, events: seq<Event>)
    requires TypedState(s) && TypingOnly(events) && Admissible(p, s, events)
    ensures TypedState(Run(p, s, events))
    decreases events
  {
    if events != [] {
      assert !events[0].ClickStartRecorder?;
      assert TypingOnly(events[1..]) by {
        forall i | 0 <= i < |events[1..]| ensures !events[1..][i].ClickStartRecorder? {
          assert events[1..][i] == events[i + 1];
        }
      }
      TypingKeepsPromptOverEmpty(p, Step(s, p, events[0]), events[1..]);
    }
  }

  /** Dictation breaks that link: a result arriving after the textarea was
      cleared fills the content while the onboarding prompt hides it. */
  lemma DictationFillsHiddenContent()
    ensures var p := Platform(true, false);
      var events := [ClickStartRecorder, SpeechResult([["a"]]), TypeContent(""),
                     SpeechResult([["a"], ["b"]])];
      && Admissible(p, Initial, events)
      && Run(p, Initial, events).showOnBoarding
      && Run(p, Initial, events).content == "ab"
  {
  }

  /** Clearing the textarea while recording shows the onboarding prompt, whose
      link starts a second recognizer. The card never stops the first: the
      handle no longer reaches it. */
  lemma SecondRecognizerWhileRecording()
    ensures var p := Platform(true, false);
      var events := [ClickStartRecorder, SpeechResult([["a"]]), TypeContent(""),
                     ClickStartRecorder];
      && Admissible(p, Initial, events)
      && Run(p, Initial, events).listening == {0, 1}
      && Run(p, Initial, events).speech == Session(1)
  {
  }
}
