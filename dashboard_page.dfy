/** The dashboard page as an object: its state fields and handlers, each
    proved to perform the corresponding transition of `Dashboard`. */
module DashboardScreen {
  import opened Text
  import opened GameTypes
  import opened Dashboard

  class DashboardPage {
    var mode: GameMode
    var images: Option<DiffImages>
    var singleImage: Option<string>
    var logicGame: Option<LogicPuzzle>
    var loading: bool
    var checking: bool
    var score: int
    var foundItems: seq<string>
    var timer: int
    var isTimerActive: bool
    var gameOver: bool
    var feedback: Option<Feedback>
    var differences: seq<Difference>
    var revealing: bool
    var logicSolution: Option<string>

    function State(): Round
      reads this
    {
      Round(mode, Content(images, singleImage, logicGame), Tally(score, foundItems),
            Clock(timer, isTimerActive, gameOver), Answers(differences, logicSolution, revealing),
            Status(loading, checking, feedback))
    }

    ghost predicate Valid()
      reads this
    {
      Inv(State())
    }

    constructor ()
      ensures Valid() && State() == InitialRound
    {
      mode := Diff;
      images, singleImage, logicGame := None, None, None;
      loading, checking := false, false;
      score, foundItems := 0, [];
      timer, isTimerActive, gameOver := TimerDuration, false, false;
      feedback := None;
      differences, revealing, logicSolution := [], false, None;
    }

    /** A click on a mode button, which calls `setGameMode` unless the
        selector is disabled. */
    method SelectMode(m: GameMode)
      requires Valid()
      modifies this
      ensures Valid() && State() == AfterSelectMode(old(State()), m)
    {
      var hasContent := images.Some? || singleImage.Some? || logicGame.Some?;
      if loading || (hasContent && !gameOver) {
        return;
      }
      mode := m;
    }

    /** `handleStartGame(subject)`; returns the topic sent to the generator. */
    method HandleStartGame(subject: string, pick: ThemePick, gens: Generators) returns (topic: string)
      requires Valid()
      modifies this
      ensures Valid() && State() == AfterStart(old(State()), gens)
      ensures topic == ChooseTopic(old(mode), subject, pick)
    {
      topic := Trim(subject);
      topic := StartRound(topic, pick, gens);
    }

    /** The body of `handleStartGame` after the subject is trimmed: reset,
        generate, and clear the loading flag. */
    method StartRound(topic: string, pick: ThemePick, gens: Generators) returns (sent: string)
      requires Valid()
      modifies this
      ensures Valid() && State() == AfterStart(old(State()), gens)
      ensures sent == if topic == "" && old(mode) != Logic then RandomThemes[pick] else topic
    {
      ghost var r0 := State();
      ResetForStart();
      sent := Generate(topic, pick, gens);
      loading := false;
      StartResetsRound(r0, gens);
    }

    /** The `try`/`catch` of `handleStartGame`: picks a random theme for an
        empty image topic, then stores what the generator returned or shows
        the error. */
    method Generate(topic: string, pick: ThemePick, gens: Generators) returns (sent: string)
      modifies this
      ensures State() == Generated(old(State()), gens)
      ensures mode == old(mode)
      ensures sent == if topic == "" && mode != Logic then RandomThemes[pick] else topic
    {
      sent := topic;
      var failed := false;
      if mode == Diff {
        if sent == "" { sent := RandomThemes[pick]; }
        match gens.diff
        case None => failed := true;
        case Some(data) => images := Some(data);
      } else if mode == Wrong {
        if sent == "" { sent := RandomThemes[pick]; }
        match gens.wrong
        case None => failed := true;
        case Some(image) => singleImage := Some(image);
      } else {
        match gens.logic
        case None => failed := true;
        case Some(data) => logicGame := Some(data);
      }
      if !failed {
        isTimerActive := true;
      } else {
        feedback := Some(Feedback(Error, GenerationFailedMessage));
      }
    }

    /** `handleSubmit(guess)`, given what the verifier call does. */
    method HandleSubmit(guess: string, outcome: CheckOutcome)
      requires Valid()
      modifies this
      ensures Valid() && State() == AfterSubmit(old(State()), guess, outcome)
    {
      if gameOver || guess == "" || checking {
        return;
      }
      ghost var r0 := State();
      var called := (mode == Diff && images.Some?) || (mode == Wrong && singleImage.Some?)
                    || (mode == Logic && logicGame.Some?);
      assert called == ModeContent(r0);
      checking, feedback := true, None;
      assert State() == Checking(r0);
      Respond(guess, called, outcome);
      ghost var judged := State();
      checking := false;
      assert State() == judged.(status := judged.status.(checking := false));
      SubmitKeepsInv(r0, guess, outcome);
    }

    /** The verifier call of `handleSubmit` and what its answer sets;
        `called` says whether the mode has content to check against. */
    method Respond(guess: string, called: bool, outcome: CheckOutcome)
      modifies this
      ensures State() == Judged(old(State()), guess, Judge(old(mode), called, outcome))
    {
      if called && outcome.CheckThrew? {
        feedback := Some(Feedback(Error, VerifyFailedMessage));
      } else {
        var res: Option<CheckResponse> := if called then Some(outcome.response) else None;
        if res.Some? && res.value.correct {
          if res.value.alreadyFound {
            feedback := Some(Feedback(Info, AlreadyDiscovered));
          } else {
            var points := if mode == Logic then 10 else if mode == Diff then 1 else 2;
            AwardAnswer(guess, points, CleanText(res.value.explanation));
          }
        } else {
          var explanation := if res.Some? then res.value.explanation else None;
          feedback := Some(Feedback(Error, Or(CleanText(explanation), NotQuiteRight)));
        }
      }
    }

    /** The resets `handleStartGame` does before calling the generator. */
    method ResetForStart()
      modifies this
      ensures State() == StartReset(old(State()))
      ensures mode == old(mode)
    {
      loading := true;
      ClearContent();
      ClearResults();
      isTimerActive := false;
    }

    /** The content setters both start and play again call with `null`. */
    method ClearContent()
      modifies this
      ensures State() == ContentCleared(old(State()))
    {
      images, singleImage, logicGame := None, None, None;
      differences, logicSolution := [], None;
    }

    /** The result setters both start and play again call. */
    method ClearResults()
      modifies this
      ensures State() == ResultsCleared(old(State()))
    {
      foundItems, score, gameOver := [], 0, false;
      feedback, timer := None, TimerDuration;
    }

    /** The updates `handleSubmit` makes for a correct, new answer. */
    method AwardAnswer(guess: string, points: nat, cleaned: string)
      modifies this
      ensures State() == Award(old(State()), guess, points, cleaned)
    {
      ScoreAnswer(guess, points, cleaned);
      if mode == Logic {
        SolvePuzzle(cleaned);
      }
    }

    /** Adds the points, records the guess and acknowledges it. */
    method ScoreAnswer(guess: string, points: nat, cleaned: string)
      modifies this
      ensures State() == Scored(old(State()), guess, points, cleaned)
    {
      score, foundItems := score + points, foundItems + [guess];
      feedback := Some(Feedback(Success, Or(cleaned, CorrectAnswer)));
    }

    /** Ends a solved logic round and shows the explanation as its solution. */
    method SolvePuzzle(cleaned: string)
      modifies this
      ensures State() == Solved(old(State()), cleaned)
    {
      gameOver, isTimerActive, logicSolution := true, false, Some(cleaned);
    }

    /** `handleTimeout`, given what the answer fetch does. */
    method HandleTimeout(fetched: Option<seq<Difference>>)
      requires Valid()
      modifies this
      ensures Valid() && State() == AfterTimeout(old(State()), fetched)
    {
      isTimerActive, gameOver, revealing := false, true, true;
      Reveal(fetched);
      revealing := false;
    }

    /** The reveal of `handleTimeout`: the fetched differences, or the
        puzzle's solution. */
    method Reveal(fetched: Option<seq<Difference>>)
      modifies this
      ensures State() == Revealed(old(State()), fetched)
    {
      if mode == Diff && images.Some? {
        if fetched.Some? { differences := fetched.value; }
      } else if mode == Wrong && singleImage.Some? {
        if fetched.Some? { differences := fetched.value; }
      } else if mode == Logic && logicGame.Some? {
        logicSolution := Some(TimeUpSolution(logicGame.value));
      }
    }

    /** One run of the timer effect (one interval firing, or the timeout
      once the timer has reached zero). */
    method TimerEffect(fetched: Option<seq<Difference>>)
      requires Valid()
      modifies this
      ensures Valid() && State() == AfterTick(old(State()), fetched)
    {
      if isTimerActive && timer > 0 {
        timer := timer - 1;
      } else if isTimerActive && timer == 0 {
        HandleTimeout(fetched);
      }
    }

    /** `handleGiveUp`. */
    method HandleGiveUp(fetched: Option<seq<Difference>>)
      requires Valid()
      modifies this
      ensures Valid() && State() == AfterGiveUp(old(State()), fetched)
    {
      isTimerActive, gameOver := false, true;
      if mode == Logic && logicGame.Some? {
        logicSolution := Some(CleanText(Some(logicGame.value.solution)));
      } else {
        HandleTimeout(fetched);
      }
    }

    /** `handlePlayAgain`. */
    method HandlePlayAgain()
      requires Valid()
      modifies this
      ensures Valid() && State() == AfterPlayAgain(old(State()))
    {
      ClearContent();
      ClearResults();
    }
  }
}
