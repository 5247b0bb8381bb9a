# New-note card composer, modelled in Dafny

This project models the note composer of a small browser note-taking
application: the `NewNoteCard` component. The card shows an onboarding
prompt with two links, "record a note" and "use text only". Typing goes into
a textarea that replaces the prompt. Dictation runs through the browser's
speech-recognition API and writes its transcript into the same content. A
save button hands non-empty content to the `onNoteCreated` callback and
raises a success toast. While recording, a stop button takes the place of
the save button.

The model has five parts:

- `Transcription` (`transcript.dfy`) holds the `onresult` fold. It is a left
  fold that concatenates the first alternative of every recognition result.
  It is proved equal to an independent reference (concatenation of the
  first alternatives), with its empty, one-more-result and append laws.
- `Availability` (`availability.dfy`) holds the feature test of
  `handleStartRecorder`. It models JavaScript truthiness and `||`. The
  browser is a `Platform`: which of the two recognizer constructors exist
  on `window`.
- `NoteComposer` (`composer.dfy`) is the card as a state machine. The state
  has the three state hooks (`showOnBoarding`, `isRecording`, `content`).
  It also has the module-level `speechRecognition` handle (`undefined`
  until first assigned), the recognizers built and still listening, and
  what the card emitted. Emitted output is the notes passed to
  `onNoteCreated`, toast and alert counts, and handlers that ended in an
  uncaught `TypeError`. Each handler is one transition. `Enabled` states
  which handlers the rendered markup offers in a state.
- `ComposerRuns` (`runs.dfy`) proves facts about every admissible run, that
  is, a run in which every event is offered when it happens. The invariant
  covers the session handle, non-empty notes and one toast per note. It
  also proves the effect of typing alone, and gives concrete runs that show
  the behaviour around dictation.
- `Card` (`card.dfy`) is the component as a class. Its fields are the state
  above. Each handler method requires the guard the markup provides, and is
  proved to perform exactly the matching `NoteComposer` transition while
  keeping the invariant.

Behaviour worth knowing, all proved:

- The feature test `'SpeechRecognition' in window || 'webspeechRecognition'`
  always passes, so the "unsupported browser" alert is dead code (see
  Findings).
- On a browser that has a recognizer, `isRecording` implies a session was
  assigned to the handle. So the stop handler never calls `.stop()` on the
  `undefined` handle. That relies on the stop button being shown only while
  recording (`StopMeetsSession`, `UnguardedStopFaults`).
- One might expect only one recording at a time. The code allows a second:
  clearing the textarea while recording brings the onboarding prompt back,
  and its "record" link starts a second recognizer. The handle then reaches
  only the second, so the card never calls `.stop()` on the first
  (`SecondRecognizerWhileRecording`). Whether the browser keeps both
  sessions alive is up to the browser.
- Typing alone never leaves text hidden behind the onboarding prompt
  (`TypingKeepsPromptOverEmpty`). A transcription that arrives after the
  textarea was cleared does (`DictationFillsHiddenContent`).

## Model

| member | source | states |
|---|---|---|
| Transcription.FoldFrom | src/components/NewNoteCard.tsx:68-70 | the fold's result starts with its accumulator and is as long as the accumulator plus all first alternatives |
| Transcription.Firsts | src/components/NewNoteCard.tsx:69 | the reference sequence of `result[0].transcript`, one per result, in order |
| Transcription.ConcatAppend | src/components/NewNoteCard.tsx:68-70 | joining two lists of pieces equals joining each and concatenating |
| Transcription.FoldFromIsConcat | src/components/NewNoteCard.tsx:68-70 | folding from any accumulator appends the in-order concatenation of the first alternatives |
| Transcription.TranscriptIsConcat | src/components/NewNoteCard.tsx:67-72 | the transcript is the in-order concatenation of every result's first alternative |
| Transcription.Transcript | src/components/NewNoteCard.tsx:67-72 | the text passed to `setContent` is as long as all first alternatives together |
| Transcription.TranscriptEmpty | src/components/NewNoteCard.tsx:68-70 | no results give the empty transcript |
| Transcription.TranscriptSnoc | src/components/NewNoteCard.tsx:68-70 | one more result extends the transcript by exactly its first alternative |
| Transcription.TranscriptAppend | src/components/NewNoteCard.tsx:68-70 | the transcript of two batches is the concatenation of their transcripts |
| Availability.Or | src/components/NewNoteCard.tsx:45-46 | JavaScript `\|\|` yields one of its operands and is truthy exactly when either operand is |
| Availability.AlertBranchDead | src/components/NewNoteCard.tsx:45-51 | the feature test as written is truthy on every browser, so the alert branch never runs |
| Availability.UnsupportedPlatformPassesTest | src/components/NewNoteCard.tsx:45-58 | a browser with neither recognizer constructor still passes the test as written |
| Availability.AvailabilityIntendedExact | src/components/NewNoteCard.tsx:45-58 | the intended test passes exactly when `window` has a recognizer constructor |
| NoteComposer.Alert | src/components/NewNoteCard.tsx:48-51 | the unsupported-browser branch raises exactly one alert and changes nothing else |
| NoteComposer.Rendered | src/components/NewNoteCard.tsx:114-160 | the form shows either the prompt with both start links or the textarea, and either the stop or the save button |
| NoteComposer.Enabled | src/components/NewNoteCard.tsx:114-160 | a handler can run exactly when its control is rendered (the textarea only for a changed value); a result only once a recognizer exists |
| NoteComposer.Step | src/components/NewNoteCard.tsx:17-88 | one event never takes back emitted notes, toasts, alerts or errors, emits at most one note and one toast, and builds at most one recognizer |
| NoteComposer.StartEditor | src/components/NewNoteCard.tsx:17-19 | negates `showOnBoarding`; content, recording flag, handle and outputs unchanged |
| NoteComposer.StartEditorTwice | src/components/NewNoteCard.tsx:17-19 | starting the editor twice restores the original state |
| NoteComposer.ContentChange | src/components/NewNoteCard.tsx:21-27 | content becomes the typed value; onboarding is shown afterwards iff the value is empty or it already was; nothing emitted |
| NoteComposer.SaveNote | src/components/NewNoteCard.tsx:29-42 | empty content: state unchanged, nothing emitted; otherwise the content is emitted once, one toast, content emptied, onboarding shown, recording flag untouched |
| NoteComposer.SaveTwice | src/components/NewNoteCard.tsx:32-41 | saving right after a save changes nothing |
| NoteComposer.Record | src/components/NewNoteCard.tsx:53-79 | recording on, onboarding hidden, content kept; with a constructor a fresh session is assigned and listening; without one the handle is kept and the handler throws |
| NoteComposer.StartRecorder | src/components/NewNoteCard.tsx:44-80 | the as-written start never alerts and always proceeds to recording |
| NoteComposer.StartRecorderIntended | src/components/NewNoteCard.tsx:44-51 | with the intended test an unsupported browser only gets one alert; a supported one behaves as written |
| NoteComposer.OnResult | src/components/NewNoteCard.tsx:67-73 | content is replaced by the concatenated first alternatives, independent of the old content; all else unchanged |
| NoteComposer.StopRecorder | src/components/NewNoteCard.tsx:82-88 | recording off, content and onboarding unchanged, the assigned session stops listening, a throw exactly when the handle is `undefined` |
| ComposerRuns.InitialInv | src/components/NewNoteCard.tsx:10-15 | the freshly rendered card satisfies the invariant |
| ComposerRuns.StepInv | src/components/NewNoteCard.tsx:17-88 | every handler preserves the invariant: handle never `null`, naming the latest recognizer; recording implies a session on a supported browser; notes non-empty; one toast per note |
| ComposerRuns.StopMeetsSession | src/components/NewNoteCard.tsx:82-87 | when stop is offered on a supported browser the handle holds a session and stopping does not throw |
| ComposerRuns.UnguardedStopFaults | src/components/NewNoteCard.tsx:143-151 | stop is not offered on the fresh card, and would throw there on the `undefined` handle |
| ComposerRuns.RunInv | src/components/NewNoteCard.tsx:114-160 | along every admissible run the invariant holds, no alert is raised, and on a supported browser nothing throws |
| ComposerRuns.Reachable | src/components/NewNoteCard.tsx:10-160 | every state reachable from the fresh card satisfies the invariant, with no alerts and, on a supported browser, no throws |
| ComposerRuns.IntendedStartKeepsSession | src/components/NewNoteCard.tsx:45-60 | with the intended test, starting a recording keeps "recording implies session" on every browser |
| ComposerRuns.AsWrittenStartLosesSession | src/components/NewNoteCard.tsx:45-60 | as written, on a browser without a recognizer, the card records with no session and the offered stop throws |
| ComposerRuns.TypingKeepsPromptOverEmpty | src/components/NewNoteCard.tsx:114-140 | in runs without dictation the onboarding prompt is shown only over empty content and nothing records |
| ComposerRuns.DictationFillsHiddenContent | src/components/NewNoteCard.tsx:67-73 | a result arriving after the textarea was cleared fills content behind the onboarding prompt |
| ComposerRuns.SecondRecognizerWhileRecording | src/components/NewNoteCard.tsx:53-60 | a second recognizer can be started while the first still listens, and the handle then reaches only the second |
| Card.NewNoteCard.constructor | src/components/NewNoteCard.tsx:10-15 | the card starts with onboarding shown, not recording, empty content, `undefined` handle, nothing emitted |
| Card.NewNoteCard.HandleStartEditor | src/components/NewNoteCard.tsx:17-19 | offered only with onboarding shown; performs `StartEditor` and keeps the invariant |
| Card.NewNoteCard.HandleContentChange | src/components/NewNoteCard.tsx:21-27 | offered only with the textarea shown; performs `ContentChange` and keeps the invariant |
| Card.NewNoteCard.HandleSaveNote | src/components/NewNoteCard.tsx:29-42 | offered only when not recording; performs `SaveNote` and keeps the invariant |
| Card.NewNoteCard.HandleStartRecorder | src/components/NewNoteCard.tsx:44-80 | offered only with onboarding shown; performs `StartRecorder` and keeps the invariant |
| Card.NewNoteCard.HandleSpeechResult | src/components/NewNoteCard.tsx:67-73 | performs `OnResult` once a recognizer exists and keeps the invariant |
| Card.NewNoteCard.HandleStopRecorder | src/components/NewNoteCard.tsx:82-88 | offered only while recording; performs `StopRecorder`, keeps the invariant, and never throws on a supported browser |

## Left out

- Markup, the Radix dialog, Tailwind classes and the icon are presentation only. The dialog is taken to be open; closing and reopening it keeps the card's state and is not modelled.
- Toast and alert texts, and the `console.log` of the `onerror` callback (src/components/NewNoteCard.tsx:75-77), are I/O only. Toasts and alerts are counts; the error callback has no state effect.
- The recognizer configuration (language, continuous mode, alternatives, interim results) and real audio capture are left out. So is the asynchronous timing of results. A result event carries the whole result list and may arrive whenever a recognizer exists, including after stop.
- React's scheduling and batching are left out; each handler is one atomic update. When a handler throws, the model assumes the state updates it already requested still apply: `setIsRecording(true)` and `setShowOnBoarding(false)` when `new` throws in `handleStartRecorder`, and `setIsRecording(false)` when `.stop()` throws on `undefined` in `handleStopRecorder`.
- A recognition result with no alternative is left out (`Alternatives` is non-empty), because the card asks for one alternative per result. On such a result `result[0].transcript` would throw.
- A textarea change is modelled only when the new value differs from the shown content, as a controlled React textarea reports it; other change events do not occur.
- `e.preventDefault()` in `handleSaveNote` has no effect on the card's state.
- `speechRecognition` is a module-level variable shared by every card instance. The model has one card.
- src/App.tsx is static markup. Its search box has no handler or state, and the note list component it renders is not part of this model. So note storage, persistence, deletion and search filtering are not modelled.

## Findings

| source | as written | input that shows it | evidently intended | confidence | as-written member | corrected member |
|---|---|---|---|---|---|---|
| src/components/NewNoteCard.tsx:45-46 | the right operand of the feature test is the string literal `'webspeechRecognition'`, which is always truthy, so the alert at lines 48-51 never runs | a browser with neither `SpeechRecognition` nor `webkitSpeechRecognition`: the test passes, `new undefined()` throws at line 60 after recording was switched on, and the stop button then calls `.stop()` on `undefined` | test `'webkitSpeechRecognition' in window`, so an unsupported browser gets the alert and the card stays idle | high; not executed | ComposerRuns.AsWrittenStartLosesSession | NoteComposer.StartRecorderIntended |

The class and the run lemmas follow the code as written, because that is the
behaviour of the card. The corrected start is proved, in
`ComposerRuns.IntendedStartKeepsSession`, to keep "recording implies an
assigned session" on every browser.
