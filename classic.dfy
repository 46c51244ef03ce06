/** The original round controller (`code/components/GameScreen.tsx`): the
    same start, submit, countdown, timeout, give-up and play-again handlers
    as the dashboard, in an earlier form that differs in a few places. A
    start keeps the score (only play again zeroes it), a correct answer
    clears the guess box, a failing verifier call only logs, a failed
    generation shows an alert instead of a feedback message, and play again
    leaves the timer, its active flag and the feedback as they are. The
    screen also owns the prompt box, the two voice listeners, the result
    panel and the full view. The round records are the dashboard's. */
module Classic {
  import opened Text
  import opened GameTypes
  import opened Dashboard

  /** The two text boxes (`guess`, `promptSubject`). */
  datatype Inputs = Inputs(guess: string, promptSubject: string)

  /** The result panel and the full view (`isResultExpanded`, `isFullView`). */
  datatype Panels = Panels(resultExpanded: bool, fullView: bool)

  /** Which box the voice listener is filling (`isListeningGuess`,
      `isListeningPrompt`). */
  datatype Voice = Voice(listeningGuess: bool, listeningPrompt: bool)

  const Silent := Voice(false, false)

  /** The screen's state fields, grouped; the zoom, pan and hover state is
      the viewer's. */
  datatype Screen = Screen(
    mode: GameMode,
    content: Content,
    tally: Tally,
    clock: Clock,
    answers: Answers,
    status: Status,
    inputs: Inputs,
    panels: Panels,
    voice: Voice)

  /** The `useState` initial values. */
  const InitialScreen := Screen(Diff, NoContent, NoTally, Clock(TimerDuration, false, false),
                                Answers([], None, false), Status(false, false, None),
                                Inputs("", ""), Panels(true, false), Silent)

  /** At most one listener is on. */
  predicate Exclusive(v: Voice) {
    !(v.listeningGuess && v.listeningPrompt)
  }

  /** What holds between handlers: the timer stays in [0, 15], a finished
      round has its timer stopped, every found item was worth at least one
      point (the score may also hold points of earlier rounds), at most one
      content slot is filled, and at most one listener is on. */
  predicate Inv(s: Screen) {
    && 0 <= s.clock.timer <= TimerDuration
    && (s.clock.gameOver ==> !s.clock.isTimerActive)
    && |s.tally.foundItems| <= s.tally.score
    && AtMostOneContent(s.content)
    && Exclusive(s.voice)
  }

  // ---------------------------------------------------------------------
  // the round handlers
  // ---------------------------------------------------------------------

  /** The resets at the head of `startGame`: no content, no found items, no
      answers, an empty guess box, the timer rewound and stopped, no
      feedback, the full view closed. The score is not reset. */
  function StartReset(s: Screen): Screen {
    s.(content := NoContent,
       tally := s.tally.(foundItems := []),
       clock := Clock(TimerDuration, false, false),
       answers := s.answers.(differences := [], logicSolution := None),
       status := s.status.(loading := true, feedback := None),
       inputs := s.inputs.(guess := ""),
       panels := s.panels.(fullView := false))
  }

  /** The generator's answer: the mode's slot filled and the timer started;
      a failure only raises an alert, which changes no state. */
  function Generated(s: Screen, gens: Generators): Screen {
    if !GenerationSucceeds(s.mode, gens) then s
    else s.(content := Filled(s.mode, s.content, gens), clock := s.clock.(isTimerActive := true))
  }

  /** `startGame`: reset, generate, and clear the loading flag. */
  function AfterStart(s: Screen, gens: Generators): Screen {
    var g := Generated(StartReset(s), gens);
    g.(status := g.status.(loading := false))
  }

  /** A submit under way: the check flag set and the old feedback cleared. */
  function Checking(s: Screen): Screen {
    s.(status := s.status.(checking := true, feedback := None))
  }

  /** A correct, new answer: the points and the guess recorded, the
      explanation shown, the guess box emptied; a logic round ends with the
      explanation as its solution. */
  function Award(s: Screen, guess: string, points: nat, cleaned: string): Screen {
    var scored := s.(tally := Credited(s.tally, guess, points),
                     status := s.status.(feedback := Some(Feedback(Success, Or(cleaned, CorrectAnswer)))),
                     inputs := s.inputs.(guess := ""));
    if s.mode == Logic then
      scored.(clock := scored.clock.(gameOver := true, isTimerActive := false),
              answers := scored.answers.(logicSolution := Some(cleaned)))
    else scored
  }

  /** The state a judged guess leaves; a verifier that throws is only
      logged. */
  function Judged(s: Screen, guess: string, j: Judgement): Screen {
    match j
    case VerifierThrew => s
    case AlreadyFound => s.(status := s.status.(feedback := Some(JudgementFeedback(j))))
    case Rejected(_) => s.(status := s.status.(feedback := Some(JudgementFeedback(j))))
    case Awarded(points, explanation) => Award(s, guess, points, CleanText(explanation))
  }

  /** `handleSubmit`: ignored when the round is over, the guess box is empty
      or a check is pending; otherwise the guess in the box is judged. */
  function AfterSubmit(s: Screen, outcome: CheckOutcome): Screen {
    if s.clock.gameOver || s.inputs.guess == "" || s.status.checking then s
    else
      var j := Judged(Checking(s), s.inputs.guess, Judge(s.mode, HasContent(s.mode, s.content), outcome));
      j.(status := j.status.(checking := false))
  }

  /** `handleTimeout`: stop the timer, end the round, open the result panel,
      leave the full view, and reveal the answers. */
  function AfterTimeout(s: Screen, fetched: Option<seq<Difference>>): Screen {
    var ended := s.(clock := s.clock.(isTimerActive := false, gameOver := true),
                    answers := s.answers.(revealing := true),
                    panels := Panels(true, false));
    var a := RevealedAnswers(ended.mode, ended.content, ended.answers, fetched);
    ended.(answers := a.(revealing := false))
  }

  /** One firing of the timer effect. */
  function AfterTick(s: Screen, fetched: Option<seq<Difference>>): Screen {
    if s.clock.isTimerActive && s.clock.timer > 0 then s.(clock := s.clock.(timer := s.clock.timer - 1))
    else if s.clock.isTimerActive && s.clock.timer == 0 then AfterTimeout(s, fetched)
    else s
  }

  /** `handleManualGiveUp`: stop the timer and end the round; a logic round
      shows the puzzle's solution, any other takes the timeout path. */
  function AfterGiveUp(s: Screen, fetched: Option<seq<Difference>>): Screen {
    var ended := s.(clock := s.clock.(isTimerActive := false, gameOver := true));
    if s.mode == Logic && s.content.logicGame.Some? then
      ended.(answers := ended.answers.(logicSolution := Some(CleanText(Some(s.content.logicGame.value.solution)))))
    else AfterTimeout(ended, fetched)
  }

  /** `handlePlayAgain`: clear the content, both text boxes, the found items,
      the score and the answers, reopen the result panel and leave the full
      view. The timer, its active flag and the feedback are left as they
      are. */
  function AfterPlayAgain(s: Screen): Screen {
    s.(content := NoContent,
       tally := NoTally,
       clock := s.clock.(gameOver := false),
       answers := s.answers.(differences := [], logicSolution := None),
       inputs := Inputs("", ""),
       panels := Panels(true, false))
  }

  /** The mode buttons are disabled while loading and during a round that
      has content and is not over. */
  predicate ModeLocked(s: Screen) {
    s.status.loading || (AnyContent(s.content) && !s.clock.gameOver)
  }

  /** A mode button: selects the mode and empties the prompt box, unless the
      buttons are disabled. */
  function AfterSelectMode(s: Screen, m: GameMode): Screen {
    if ModeLocked(s) then s else s.(mode := m, inputs := s.inputs.(promptSubject := ""))
  }

  // ---------------------------------------------------------------------
  // voice input
  // ---------------------------------------------------------------------

  /** `toggleListeningPrompt`: without speech recognition only an alert;
      otherwise stop the prompt listener if it is on, or else turn the guess
      listener off and the prompt listener on. */
  function TogglePrompt(v: Voice, supported: bool): Voice {
    if !supported then v
    else if v.listeningPrompt then v.(listeningPrompt := false)
    else Voice(false, true)
  }

  /** `toggleListeningGuess`, the same with the roles swapped. */
  function ToggleGuess(v: Voice, supported: bool): Voice {
    if !supported then v
    else if v.listeningGuess then v.(listeningGuess := false)
    else Voice(true, false)
  }

  /** The routing `recognition.onresult` is evidently meant to perform: the
      transcript goes to the prompt box while the prompt listener is on,
      else to the guess box while that one is. */
  function Heard(s: Screen, transcript: string): Screen {
    if s.voice.listeningPrompt then
      s.(inputs := s.inputs.(promptSubject := AppendTranscript(s.inputs.promptSubject, transcript)))
    else if s.voice.listeningGuess then
      s.(inputs := s.inputs.(guess := AppendTranscript(s.inputs.guess, transcript)))
    else s
  }

  /** Turning one listener on turns the other off; turning one off leaves
      the other as it was; without support nothing changes. So the two are
      never on together. */
  lemma TogglesExclusive(v: Voice, supported: bool)
    requires Exclusive(v)
    ensures Exclusive(TogglePrompt(v, supported)) && Exclusive(ToggleGuess(v, supported))
    ensures supported ==> TogglePrompt(v, supported).listeningPrompt == !v.listeningPrompt
    ensures supported ==> ToggleGuess(v, supported).listeningGuess == !v.listeningGuess
    ensures supported && !v.listeningPrompt ==> !TogglePrompt(v, supported).listeningGuess
    ensures supported && !v.listeningGuess ==> !ToggleGuess(v, supported).listeningPrompt
    ensures !supported ==> TogglePrompt(v, supported) == v && ToggleGuess(v, supported) == v
  {
  }

  /** A transcript lands in exactly one box: the one whose listener is on,
      and nowhere when both are off. */
  lemma HeardFillsOneBox(s: Screen, transcript: string)
    requires Exclusive(s.voice)
    ensures var t := Heard(s, transcript);
      && (s.voice.listeningPrompt ==>
            t.inputs == Inputs(s.inputs.guess, AppendTranscript(s.inputs.promptSubject, transcript)))
      && (s.voice.listeningGuess ==>
            t.inputs == Inputs(AppendTranscript(s.inputs.guess, transcript), s.inputs.promptSubject))
      && (!s.voice.listeningGuess && !s.voice.listeningPrompt ==> t == s)
      && t.(inputs := s.inputs) == s
  {
  }

  /** `recognition.onresult` as written. The effect that builds the
      recognition object re-runs whenever a listener flag changes, and its
      `onresult` reads the flags of the render that built it. A toggle calls
      `start()` on the object already in the ref, built before the toggle,
      so the transcript is routed by `captured`, the flags that held before
      the listener was switched on, not by the current ones. */
  function HeardAsWritten(s: Screen, captured: Voice, transcript: string): Screen {
    Heard(s.(voice := captured), transcript).(voice := s.voice)
  }

  /** As written, a transcript heard after a listener is switched on goes
      where it would have gone before the switch, so never into the box
      whose microphone was just clicked. */
  lemma ToggledOnBoxMissesTranscript(s: Screen, transcript: string)
    requires Exclusive(s.voice)
    ensures !s.voice.listeningPrompt ==>
      var on := s.(voice := TogglePrompt(s.voice, true));
      && HeardAsWritten(on, s.voice, transcript) == Heard(s, transcript).(voice := on.voice)
      && HeardAsWritten(on, s.voice, transcript).inputs.promptSubject == s.inputs.promptSubject
    ensures !s.voice.listeningGuess ==>
      var on := s.(voice := ToggleGuess(s.voice, true));
      && HeardAsWritten(on, s.voice, transcript) == Heard(s, transcript).(voice := on.voice)
      && HeardAsWritten(on, s.voice, transcript).inputs.guess == s.inputs.guess
  {
  }

  /** Both listeners off, the prompt microphone clicked, a word spoken: as
      written the word is dropped, while the intended routing appends it to
      the prompt box. */
  lemma StaleRecognitionDropsTranscript(s: Screen, transcript: string)
    requires s.voice == Silent && transcript != ""
    ensures var on := s.(voice := TogglePrompt(s.voice, true));
      && HeardAsWritten(on, s.voice, transcript) == on
      && Heard(on, transcript).inputs.promptSubject == AppendTranscript(s.inputs.promptSubject, transcript)
      && Heard(on, transcript) != on
  {
    var on := s.(voice := TogglePrompt(s.voice, true));
    AppendTranscriptSpec(s.inputs.promptSubject, transcript);
    assert |Heard(on, transcript).inputs.promptSubject| > |s.inputs.promptSubject|;
  }

  // ---------------------------------------------------------------------
  // the timer display
  // ---------------------------------------------------------------------

  /** `formatTime(seconds)`: "00:", a zero below ten, then the number. */
  function FormatTime(seconds: int): string {
    "00:" + (if seconds < 10 then "0" else "") + IntString(seconds)
  }

  /** The seconds read back from a displayed time. */
  function ShownSeconds(t: string): nat
    requires |t| >= 3 && AllDigits(t[3..])
  {
    DecimalValue(t[3..])
  }

  /** For 0 to 59 seconds the display is "00:SS": five characters, two
      digits after the colon, which read back as the seconds. */
  lemma FormatTimeSpec(seconds: int)
    requires 0 <= seconds < 60
    ensures var t := FormatTime(seconds);
      && |t| == 5 && t[..3] == "00:" && AllDigits(t[3..])
      && ShownSeconds(t) == seconds
  {
    if seconds < 10 {
      OneDigitTime(seconds);
    } else {
      TwoDigitTime(seconds);
    }
  }

  /** Below ten the display is "00:0" and the digit. */
  lemma OneDigitTime(seconds: int)
    requires 0 <= seconds < 10
    ensures FormatTime(seconds) == "00:" + ['0', DigitChar(seconds)]
    ensures DecimalValue(['0', DigitChar(seconds)]) == seconds
  {
    assert ['0', DigitChar(seconds)][..1] == ['0'] && ['0'][..0] == [];
  }

  /** From ten on the display is "00:" and the two digits. */
  lemma TwoDigitTime(seconds: int)
    requires 10 <= seconds < 60
    ensures FormatTime(seconds) == "00:" + DecimalString(seconds)
    ensures |DecimalString(seconds)| == 2 && DecimalValue(DecimalString(seconds)) == seconds
  {
    DecimalRoundTrip(seconds);
    TwoDigits(seconds);
  }

  // ---------------------------------------------------------------------
  // properties of the handlers
  // ---------------------------------------------------------------------

  /** A start clears the round but keeps the score: the score of earlier
      rounds carries over. It fills exactly the mode's slot and starts the
      timer when the generator answers, and leaves the timer stopped and no
      content otherwise; loading is over either way. */
  lemma StartKeepsScore(s: Screen, gens: Generators)
    requires Inv(s)
    ensures var t := AfterStart(s, gens);
      && t.tally == Tally(s.tally.score, [])
      && !t.clock.gameOver && t.clock.timer == TimerDuration && t.status.feedback == None
      && t.inputs.guess == "" && t.answers.differences == [] && t.answers.logicSolution == None
      && !t.status.loading && t.mode == s.mode
      && (GenerationSucceeds(s.mode, gens) <==> t.clock.isTimerActive)
      && (GenerationSucceeds(s.mode, gens) <==> HasContent(s.mode, t.content))
      && (!GenerationSucceeds(s.mode, gens) ==> t.content == NoContent)
    ensures Inv(AfterStart(s, gens))
  {
  }

  /** Submit ignores a finished round, an empty guess box and a pending
      check. A correct, new guess adds the mode's points, is recorded and
      clears the guess box; any other outcome leaves score, found items and
      guess as they were. */
  lemma SubmitScoring(s: Screen, outcome: CheckOutcome)
    ensures s.clock.gameOver || s.inputs.guess == "" || s.status.checking ==> AfterSubmit(s, outcome) == s
    ensures var t := AfterSubmit(s, outcome);
      var awarded := !s.clock.gameOver && s.inputs.guess != "" && !s.status.checking
        && HasContent(s.mode, s.content) && outcome.Checked? && outcome.response.correct && !outcome.response.alreadyFound;
      && (awarded ==> t.tally == Tally(s.tally.score + PointsFor(s.mode), s.tally.foundItems + [s.inputs.guess])
                      && t.inputs.guess == "" && t.status.feedback.value.kind == Success)
      && (!awarded ==> t.tally == s.tally && t.inputs == s.inputs && t.clock == s.clock)
  {
  }

  /** A verifier that throws leaves no feedback at all: the old message was
      cleared and the error is only logged. */
  lemma ThrownCheckIsSilent(s: Screen)
    requires !s.clock.gameOver && s.inputs.guess != "" && !s.status.checking && HasContent(s.mode, s.content)
    ensures AfterSubmit(s, CheckThrew) == s.(status := s.status.(feedback := None))
  {
  }

  /** Judging a guess keeps the invariant. */
  lemma SubmitKeepsInv(s: Screen, outcome: CheckOutcome)
    requires Inv(s)
    ensures Inv(AfterSubmit(s, outcome))
  {
    if !(s.clock.gameOver || s.inputs.guess == "" || s.status.checking) {
      var j := Judge(s.mode, HasContent(s.mode, s.content), outcome);
      assert j.Awarded? ==> 1 <= j.points;
    }
  }

  /** A correct logic answer empties the guess box and ends the round with
      the cleaned explanation as the solution. */
  lemma LogicAnswerEndsRound(s: Screen, res: CheckResponse)
    requires !s.clock.gameOver && s.inputs.guess != "" && !s.status.checking
    requires s.mode == Logic && s.content.logicGame.Some? && res.correct && !res.alreadyFound
    ensures var t := AfterSubmit(s, Checked(res));
      t.clock.gameOver && !t.clock.isTimerActive && t.answers.logicSolution == Some(CleanText(res.explanation))
      && t.inputs.guess == "" && t.tally.score == s.tally.score + 10
  {
  }

  /** The timer counts down only while active and above zero, and times out
      when active at zero. */
  lemma TickCountsDown(s: Screen, fetched: Option<seq<Difference>>)
    ensures s.clock.isTimerActive && s.clock.timer > 0 ==>
      AfterTick(s, fetched) == s.(clock := s.clock.(timer := s.clock.timer - 1))
    ensures s.clock.isTimerActive && s.clock.timer == 0 ==> AfterTick(s, fetched) == AfterTimeout(s, fetched)
    ensures !s.clock.isTimerActive ==> AfterTick(s, fetched) == s
    ensures Inv(s) ==> Inv(AfterTick(s, fetched))
  {
  }

  /** A timeout ends the round, stops the timer, finishes revealing, shows
      the result panel, and keeps the score, the found items and the
      timer's value. */
  lemma TimeoutEndsRound(s: Screen, fetched: Option<seq<Difference>>)
    ensures var t := AfterTimeout(s, fetched);
      && t.clock == Clock(s.clock.timer, false, true) && !t.answers.revealing
      && t.panels == Panels(true, false) && t.tally == s.tally
      && (s.mode != Logic && HasContent(s.mode, s.content) && fetched.Some? ==> t.answers.differences == fetched.value)
      && (s.mode == Logic && HasContent(s.mode, s.content) ==>
            t.answers.logicSolution == Some(TimeUpSolution(s.content.logicGame.value)))
    ensures Inv(s) ==> Inv(AfterTimeout(s, fetched))
  {
  }

  /** Give up always stops the timer and ends the round; a logic round shows
      the puzzle's solution. */
  lemma GiveUpEndsRound(s: Screen, fetched: Option<seq<Difference>>)
    ensures AfterGiveUp(s, fetched).clock.gameOver && !AfterGiveUp(s, fetched).clock.isTimerActive
    ensures !(s.mode == Logic && s.content.logicGame.Some?) ==> !AfterGiveUp(s, fetched).answers.revealing
    ensures s.mode == Logic && s.content.logicGame.Some? ==>
      AfterGiveUp(s, fetched).answers.logicSolution == Some(CleanText(Some(s.content.logicGame.value.solution)))
    ensures AfterGiveUp(s, fetched).tally == s.tally
    ensures Inv(s) ==> Inv(AfterGiveUp(s, fetched))
  {
  }

  /** Play again clears the round and zeroes the score but does not touch
      the timer: a running countdown keeps running and its value is not
      rewound. */
  lemma PlayAgainKeepsTimer(s: Screen)
    ensures var t := AfterPlayAgain(s);
      && t.content == NoContent && t.tally == NoTally && !t.clock.gameOver
      && t.answers.differences == [] && t.answers.logicSolution == None
      && t.inputs == Inputs("", "")
      && t.clock.timer == s.clock.timer && t.clock.isTimerActive == s.clock.isTimerActive
      && t.status.feedback == s.status.feedback
    ensures Inv(s) ==> Inv(AfterPlayAgain(s))
  {
  }

  /** The mode can change only when no round with content is in progress. */
  lemma ModeLockedDuringRound(s: Screen, m: GameMode)
    ensures AnyContent(s.content) && !s.clock.gameOver ==> AfterSelectMode(s, m) == s
    ensures !ModeLocked(s) ==> AfterSelectMode(s, m).mode == m && AfterSelectMode(s, m).inputs.promptSubject == ""
    ensures Inv(s) ==> Inv(AfterSelectMode(s, m))
  {
  }

  // ---------------------------------------------------------------------
  // runs of events
  // ---------------------------------------------------------------------

  /** One handled UI event, with the answers of the external calls it makes. */
  datatype Event =
    | Start(pick: ThemePick, gens: Generators)
    | Submit(outcome: CheckOutcome)
    | Tick(fetched: Option<seq<Difference>>)
    | GiveUp(fetched: Option<seq<Difference>>)
    | PlayAgain
    | SelectMode(newMode: GameMode)
    | ToggleVoicePrompt(supported: bool)
    | ToggleVoiceGuess(supported: bool)
    | VoiceEnded
    | Transcript(text: string, captured: Voice)

  function Step(s: Screen, e: Event): Screen {
    match e
    case Start(_, gens) => AfterStart(s, gens)
    case Submit(outcome) => AfterSubmit(s, outcome)
    case Tick(fetched) => AfterTick(s, fetched)
    case GiveUp(fetched) => AfterGiveUp(s, fetched)
    case PlayAgain => AfterPlayAgain(s)
    case SelectMode(m) => AfterSelectMode(s, m)
    case ToggleVoicePrompt(supported) => s.(voice := TogglePrompt(s.voice, supported))
    case ToggleVoiceGuess(supported) => s.(voice := ToggleGuess(s.voice, supported))
    case VoiceEnded => s.(voice := Silent)
    case Transcript(text, captured) => HeardAsWritten(s, captured, text)
  }

  function Run(s: Screen, es: seq<Event>): Screen
    decreases |es|
  {
    if es == [] then s else Run(Step(s, es[0]), es[1..])
  }

  lemma StepKeepsInv(s: Screen, e: Event)
    requires Inv(s)
    ensures Inv(Step(s, e))
  {
    match e
    case Start(_, gens) => StartKeepsScore(s, gens);
    case Submit(outcome) => SubmitKeepsInv(s, outcome);
    case Tick(fetched) => TickCountsDown(s, fetched);
    case GiveUp(fetched) => GiveUpEndsRound(s, fetched);
    case PlayAgain => PlayAgainKeepsTimer(s);
    case SelectMode(m) => ModeLockedDuringRound(s, m);
    case ToggleVoicePrompt(supported) => TogglesExclusive(s.voice, supported);
    case ToggleVoiceGuess(supported) => TogglesExclusive(s.voice, supported);
    case VoiceEnded =>
    case Transcript(_, _) =>
  }

  /** Every run from a state satisfying the invariant keeps it; in
      particular the two listeners are never on together and the timer is
      never negative. The induction is the same as `Dashboard.RunKeepsInv`,
      over this screen's own events. */
  lemma {:induction false} RunKeepsInv(s: Screen, es: seq<Event>)
    requires Inv(s)
    ensures Inv(Run(s, es))
    decreases |es|
  {
    if es != [] {
      StepKeepsInv(s, es[0]);
      RunKeepsInv(Step(s, es[0]), es[1..]);
    }
  }

  lemma InitialInv()
    ensures Inv(InitialScreen)
  {
  }

  /** Only play again lowers the score: every other event keeps it or adds
      to it, a start included. */
  lemma StepKeepsScore(s: Screen, e: Event)
    requires !e.PlayAgain?
    ensures Step(s, e).tally.score >= s.tally.score
  {
    match e
    case Start(_, gens) =>
    case Submit(outcome) => SubmitScoring(s, outcome);
    case Tick(fetched) =>
    case GiveUp(fetched) =>
    case SelectMode(m) =>
    case ToggleVoicePrompt(supported) =>
    case ToggleVoiceGuess(supported) =>
    case VoiceEnded =>
    case Transcript(_, _) =>
  }

  /** The score carries across rounds: in a run without play again it never
      decreases, however many rounds are started. */
  lemma {:induction false} ScoreCarriesOver(s: Screen, es: seq<Event>)
    requires forall i :: 0 <= i < |es| ==> !es[i].PlayAgain?
    ensures Run(s, es).tally.score >= s.tally.score
    decreases |es|
  {
    if es != [] {
      StepKeepsScore(s, es[0]);
      ScoreCarriesOver(Step(s, es[0]), es[1..]);
    }
  }

  /** A finished round stays finished, with its score and found items,
      until a start or play again. */
  lemma StepAfterGameOver(s: Screen, e: Event)
    requires Inv(s) && s.clock.gameOver && !e.Start? && !e.PlayAgain?
    ensures Step(s, e).clock.gameOver && Step(s, e).tally == s.tally
  {
    match e
    case Submit(outcome) => SubmitScoring(s, outcome);
    case Tick(fetched) =>
    case GiveUp(fetched) => GiveUpEndsRound(s, fetched);
    case SelectMode(m) =>
    case ToggleVoicePrompt(supported) =>
    case ToggleVoiceGuess(supported) =>
    case VoiceEnded =>
    case Transcript(_, _) =>
  }

  /** Game over is absorbing: a run with no start and no play again leaves
      a finished round finished, its tally unchanged. */
  lemma {:induction false} GameOverAbsorbing(s: Screen, es: seq<Event>)
    requires Inv(s) && s.clock.gameOver
    requires forall i :: 0 <= i < |es| ==> !es[i].Start? && !es[i].PlayAgain?
    ensures Run(s, es).clock.gameOver && Run(s, es).tally == s.tally
    decreases |es|
  {
    if es != [] {
      StepAfterGameOver(s, es[0]);
      StepKeepsInv(s, es[0]);
      GameOverAbsorbing(Step(s, es[0]), es[1..]);
    }
  }
}
