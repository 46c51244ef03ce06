/** The classic game screen as an object, each handler proved to perform
    the corresponding transition of `Classic`. The component's state hooks
    are kept in fields grouped by concern, typed by the records of `Classic`
    and `Dashboard`; each setter of a hook is an update of one member of its
    group. The zoom, pan and hover state lives in the screen's `PanZoom`
    viewer. */
module ClassicScreen {
  import opened Text
  import opened GameTypes
  import Dashboard
  import opened Classic
  import opened Viewer

  /** The zoom cap of the full view's buttons; the inline buttons stop at 4. */
  const FullViewMaxZoom := 6.0
  const InlineMaxZoom := 4.0

  class GameScreen {
    var mode: GameMode
    /** `images`, `singleImage`, `logicGame`. */
    var content: Dashboard.Content
    /** `score`, `foundItems`. */
    var tally: Dashboard.Tally
    /** `timer`, `isTimerActive`, `gameOver`. */
    var clock: Dashboard.Clock
    /** `finalDifferences`, `logicSolution`, `revealing`. */
    var answers: Dashboard.Answers
    /** `loading`, `checking`, `feedback`. */
    var status: Dashboard.Status
    /** `guess`, `promptSubject`. */
    var inputs: Inputs
    /** `isResultExpanded`, `isFullView`. */
    var panels: Panels
    /** `isListeningGuess`, `isListeningPrompt`. */
    var voice: Voice
    /** The listener flags of the render that built the recognition object
        last started; its `onresult` routes transcripts by these. */
    var recognizer: Voice
    /** Whether the browser offers speech recognition. */
    const voiceSupported: bool
    const viewer: PanZoom

    function State(): Screen
      reads this
    {
      Screen(mode, content, tally, clock, answers, status, inputs, panels, voice)
    }

    /** The screen's invariant; the viewer's own is `viewer.Valid()`, kept
        apart so that handlers which do not touch the viewer need not
        mention it. */
    ghost predicate Valid()
      reads this
    {
      Inv(State())
    }

    constructor (voiceSupported: bool)
      ensures Valid() && State() == InitialScreen
      ensures viewer.Valid() && viewer.maxZoom == FullViewMaxZoom && viewer.State() == InitialView
      ensures this.voiceSupported == voiceSupported && recognizer == Silent && fresh(viewer)
    {
      mode := Diff;
      content := Dashboard.NoContent;
      tally := Dashboard.NoTally;
      clock := Dashboard.Clock(Dashboard.TimerDuration, false, false);
      answers := Dashboard.Answers([], None, false);
      status := Dashboard.Status(false, false, None);
      inputs := Inputs("", "");
      panels := Panels(true, false);
      voice := Silent;
      recognizer := Silent;
      this.voiceSupported := voiceSupported;
      viewer := new PanZoom(FullViewMaxZoom);
    }

    // -------------------------------------------------------------------
    // start
    // -------------------------------------------------------------------

    /** `startGame`; returns the topic sent to the generator. */
    method StartGame(pick: ThemePick, gens: Generators) returns (topic: string)
      requires Valid() && viewer.Valid()
      modifies this, viewer
      ensures Valid() && viewer.Valid() && State() == AfterStart(old(State()), gens)
      ensures viewer.State() == Reset(old(viewer.State()))
      ensures topic == ChooseTopic(old(mode), old(inputs.promptSubject), pick)
    {
      ghost var s0 := State();
      var subject := Trim(inputs.promptSubject);
      ResetForStart();
      viewer.ResetZoom();
      topic := Generate(subject, pick, gens);
      status := status.(loading := false);
      StartKeepsScore(s0, gens);
    }

    /** The setters `startGame` calls before the generator, the zoom reset
        aside. */
    method ResetForStart()
      modifies this
      ensures State() == StartReset(old(State()))
    {
      status := status.(loading := true);
      clock := clock.(gameOver := false);
      answers := answers.(differences := []);
      content := Dashboard.NoContent;
      answers := answers.(logicSolution := None);
      tally := tally.(foundItems := []);
      inputs := inputs.(guess := "");
      clock := clock.(timer := Dashboard.TimerDuration, isTimerActive := false);
      status := status.(feedback := None);
      panels := panels.(fullView := false);
    }

    /** The `try` of `startGame`: a random theme for an empty image topic,
        then the generator's answer stored and the timer started; a failure
        only raises an alert. */
    method Generate(subject: string, pick: ThemePick, gens: Generators) returns (sent: string)
      modifies this
      ensures State() == Generated(old(State()), gens)
      ensures sent == if subject == "" && mode != Logic then RandomThemes[pick] else subject
    {
      sent := subject;
      var failed := false;
      if mode == Diff {
        if sent == "" { sent := RandomThemes[pick]; }
        match gens.diff
        case None => failed := true;
        case Some(data) => content := content.(images := Some(data));
      } else if mode == Wrong {
        if sent == "" { sent := RandomThemes[pick]; }
        match gens.wrong
        case None => failed := true;
        case Some(image) => content := content.(singleImage := Some(image));
      } else {
        match gens.logic
        case None => failed := true;
        case Some(data) => content := content.(logicGame := Some(data));
      }
      if !failed {
        clock := clock.(isTimerActive := true);
      }
    }

    // -------------------------------------------------------------------
    // submit
    // -------------------------------------------------------------------

    /** `handleSubmit`, given what the verifier call does. */
    method HandleSubmit(outcome: CheckOutcome)
      requires Valid()
      modifies this
      ensures Valid() && State() == AfterSubmit(old(State()), outcome)
    {
      if clock.gameOver || inputs.guess == "" || status.checking {
        return;
      }
      ghost var s0 := State();
      var called := (mode == Diff && content.images.Some?) || (mode == Wrong && content.singleImage.Some?)
                    || (mode == Logic && content.logicGame.Some?);
      assert called == Dashboard.HasContent(s0.mode, s0.content);
      status := status.(checking := true, feedback := None);
      Respond(inputs.guess, called, outcome);
      status := status.(checking := false);
      SubmitKeepsInv(s0, outcome);
    }

    /** The verifier call and what its answer sets; a thrown error is only
        logged. */
    method Respond(submitted: string, called: bool, outcome: CheckOutcome)
      modifies this
      ensures State() == Judged(old(State()), submitted, Judge(old(mode), called, outcome))
    {
      if called && outcome.CheckThrew? {
        return;
      }
      var res: Option<CheckResponse> := if called then Some(outcome.response) else None;
      if res.Some? && res.value.correct {
        if res.value.alreadyFound {
          status := status.(feedback := Some(Feedback(Info, AlreadyDiscovered)));
        } else {
          var points := if mode == Logic then 10 else if mode == Diff then 1 else 2;
          var cleaned := CleanText(res.value.explanation);
          tally := tally.(score := tally.score + points);
          tally := tally.(foundItems := tally.foundItems + [submitted]);
          status := status.(feedback := Some(Feedback(Success, Or(cleaned, CorrectAnswer))));
          inputs := inputs.(guess := "");
          if mode == Logic {
            clock := clock.(gameOver := true, isTimerActive := false);
            answers := answers.(logicSolution := Some(cleaned));
          }
        }
      } else {
        var explanation := if res.Some? then res.value.explanation else None;
        status := status.(feedback := Some(Feedback(Error, Or(CleanText(explanation), NotQuiteRight))));
      }
    }

    // -------------------------------------------------------------------
    // timer, timeout, give up, play again
    // -------------------------------------------------------------------

    /** `handleTimeout`, given what the answer fetch does. */
    method HandleTimeout(fetched: Option<seq<Difference>>)
      requires Valid()
      modifies this
      ensures Valid() && State() == AfterTimeout(old(State()), fetched)
    {
      clock := clock.(isTimerActive := false, gameOver := true);
      answers := answers.(revealing := true);
      panels := panels.(resultExpanded := true, fullView := false);
      if mode == Diff && content.images.Some? {
        if fetched.Some? { answers := answers.(differences := fetched.value); }
      } else if mode == Wrong && content.singleImage.Some? {
        if fetched.Some? { answers := answers.(differences := fetched.value); }
      } else if mode == Logic && content.logicGame.Some? {
        answers := answers.(logicSolution := Some(Dashboard.TimeUpSolution(content.logicGame.value)));
      }
      answers := answers.(revealing := false);
    }

    /** One run of the timer effect. */
    method TimerEffect(fetched: Option<seq<Difference>>)
      requires Valid()
      modifies this
      ensures Valid() && State() == AfterTick(old(State()), fetched)
    {
      if clock.isTimerActive && clock.timer > 0 {
        clock := clock.(timer := clock.timer - 1);
      } else if clock.isTimerActive && clock.timer == 0 {
        HandleTimeout(fetched);
      }
    }

    /** `handleManualGiveUp`. */
    method HandleManualGiveUp(fetched: Option<seq<Difference>>)
      requires Valid()
      modifies this
      ensures Valid() && State() == AfterGiveUp(old(State()), fetched)
    {
      clock := clock.(isTimerActive := false, gameOver := true);
      if mode == Logic && content.logicGame.Some? {
        answers := answers.(logicSolution := Some(CleanText(Some(content.logicGame.value.solution))));
      } else {
        HandleTimeout(fetched);
      }
    }

    /** `handlePlayAgain`, which also clears the viewer's hover flag. */
    method HandlePlayAgain()
      requires Valid() && viewer.Valid()
      modifies this, viewer
      ensures Valid() && viewer.Valid() && State() == AfterPlayAgain(old(State()))
      ensures viewer.State() == Unhovered(old(viewer.State()))
    {
      content := Dashboard.NoContent;
      inputs := Inputs("", "");
      tally := tally.(foundItems := []);
      clock := clock.(gameOver := false);
      tally := tally.(score := 0);
      answers := answers.(differences := []);
      panels := panels.(resultExpanded := true);
      viewer.ClearHover();
      panels := panels.(fullView := false);
      answers := answers.(logicSolution := None);
    }

    // -------------------------------------------------------------------
    // mode, voice, full view
    // -------------------------------------------------------------------

    /** A mode button, which is disabled while loading and during a round
        with content. */
    method SelectMode(m: GameMode)
      requires Valid()
      modifies this
      ensures Valid() && State() == AfterSelectMode(old(State()), m)
    {
      var hasContent := content.images.Some? || content.singleImage.Some? || content.logicGame.Some?;
      if status.loading || (hasContent && !clock.gameOver) {
        return;
      }
      mode := m;
      inputs := inputs.(promptSubject := "");
    }

    /** `toggleListeningPrompt`; switching on starts the recognition object
        built under the flags as they were before the switch. */
    method ToggleListeningPrompt()
      requires Valid()
      modifies this
      ensures Valid() && State() == old(State()).(voice := TogglePrompt(old(voice), voiceSupported))
      ensures recognizer == if voiceSupported && !old(voice.listeningPrompt) then old(voice) else old(recognizer)
    {
      if !voiceSupported {
        return;
      }
      if voice.listeningPrompt {
        voice := voice.(listeningPrompt := false);
      } else {
        recognizer := voice;
        voice := voice.(listeningGuess := false);
        voice := voice.(listeningPrompt := true);
      }
    }

    /** `toggleListeningGuess`, the same with the roles swapped. */
    method ToggleListeningGuess()
      requires Valid()
      modifies this
      ensures Valid() && State() == old(State()).(voice := ToggleGuess(old(voice), voiceSupported))
      ensures recognizer == if voiceSupported && !old(voice.listeningGuess) then old(voice) else old(recognizer)
    {
      if !voiceSupported {
        return;
      }
      if voice.listeningGuess {
        voice := voice.(listeningGuess := false);
      } else {
        recognizer := voice;
        voice := voice.(listeningPrompt := false);
        voice := voice.(listeningGuess := true);
      }
    }

    /** `recognition.onend`: both listeners off. */
    method RecognitionEnded()
      requires Valid()
      modifies this
      ensures Valid() && State() == old(State()).(voice := Silent)
    {
      voice := voice.(listeningGuess := false, listeningPrompt := false);
    }

    /** `recognition.onresult` of the started object, with the recognised
        transcript: it reads the flags that object was built under. */
    method RecognitionResult(transcript: string)
      requires Valid()
      modifies this
      ensures Valid() && State() == HeardAsWritten(old(State()), recognizer, transcript)
      ensures recognizer == old(recognizer)
    {
      if recognizer.listeningPrompt {
        inputs := inputs.(promptSubject := AppendTranscript(inputs.promptSubject, transcript));
      } else if recognizer.listeningGuess {
        inputs := inputs.(guess := AppendTranscript(inputs.guess, transcript));
      }
    }

    /** The Escape key closes the full view. */
    method HandleEscape()
      requires Valid()
      modifies this
      ensures Valid() && State() == old(State()).(panels := old(panels).(fullView := false))
    {
      if panels.fullView {
        panels := panels.(fullView := false);
      }
    }
  }
}
