/** The round controller of the dashboard page (`src/app/dashboard/page.tsx`):
    start, submit, the one-second countdown and its timeout, give up and
    play again. Each handler is a transition on a `Round` value; the class
    `DashboardPage` holds the same state in fields and its methods are
    proved to perform those transitions. Calls to the generators and
    verifiers are inputs: `Generators` for a start, a `CheckOutcome` for a
    submit, and for a reveal the fetched differences (`None` when the call
    throws). */
module Dashboard {
  import opened Text
  import opened GameTypes

  const TimerDuration: nat := 15
  const GenerationFailedMessage := "Failed to generate game. Please try again."
  const VerifyFailedMessage := "Error verifying answer. Please try again."

  /** The round's content: the images of a comparison, the image of an
      anomaly puzzle, or a logic puzzle (`images`, `singleImage`,
      `logicGame`). */
  datatype Content = Content(
    images: Option<DiffImages>,
    singleImage: Option<string>,
    logicGame: Option<LogicPuzzle>)

  const NoContent := Content(None, None, None)

  /** What the player has scored (`score`, `foundItems`). */
  datatype Tally = Tally(score: int, foundItems: seq<string>)

  const NoTally := Tally(0, [])

  /** The countdown and the end of the round (`timer`, `isTimerActive`,
      `gameOver`). */
  datatype Clock = Clock(timer: int, isTimerActive: bool, gameOver: bool)

  /** What is revealed when the round ends (`differences`, `logicSolution`,
      `revealing`). */
  datatype Answers = Answers(differences: seq<Difference>, logicSolution: Option<string>, revealing: bool)

  /** Progress flags and the message shown (`loading`, `checking`,
      `feedback`). */
  datatype Status = Status(loading: bool, checking: bool, feedback: Option<Feedback>)

  /** The page's state fields, grouped. */
  datatype Round = Round(
    mode: GameMode,
    content: Content,
    tally: Tally,
    clock: Clock,
    answers: Answers,
    status: Status)

  /** The `useState` initial values. */
  const InitialRound := Round(Diff, NoContent, NoTally, Clock(TimerDuration, false, false),
                              Answers([], None, false), Status(false, false, None))

  /** Content for the current mode is loaded: the condition under which a
      submit calls a verifier and a timeout fetches or shows the answers. */
  predicate ModeContent(r: Round) {
    HasContent(r.mode, r.content)
  }

  /** The slot of `mode` is filled. */
  predicate HasContent(mode: GameMode, c: Content) {
    || (mode == Diff && c.images.Some?)
    || (mode == Wrong && c.singleImage.Some?)
    || (mode == Logic && c.logicGame.Some?)
  }

  /** At most one of the three content slots is filled. */
  predicate AtMostOneContent(c: Content) {
    && (c.images.Some? ==> c.singleImage.None? && c.logicGame.None?)
    && (c.singleImage.Some? ==> c.logicGame.None?)
  }

  /** What holds between handlers: the timer stays in [0, 15], a finished
      round has its timer stopped, every found item was worth between 1 and
      10 points, and at most one content slot is filled. */
  predicate Inv(r: Round) {
    && 0 <= r.clock.timer <= TimerDuration
    && (r.clock.gameOver ==> !r.clock.isTimerActive)
    && |r.tally.foundItems| <= r.tally.score <= 10 * |r.tally.foundItems|
    && AtMostOneContent(r.content)
  }

  // ---------------------------------------------------------------------
  // the handlers as transitions
  // ---------------------------------------------------------------------

  /** The generator of the mode answered. */
  predicate GenerationSucceeds(mode: GameMode, gens: Generators) {
    match mode
    case Diff => gens.diff.Some?
    case Wrong => gens.wrong.Some?
    case Logic => gens.logic.Some?
  }

  /** `setFeedback(f)`. */
  function WithFeedback(r: Round, f: Feedback): Round {
    r.(status := r.status.(feedback := Some(f)))
  }

  /** Empties the three content slots and what was revealed about them. */
  function ContentCleared(r: Round): Round {
    r.(content := NoContent, answers := r.answers.(differences := [], logicSolution := None))
  }

  /** Zeroes the results of a round, clears the feedback and rewinds the
      timer. */
  function ResultsCleared(r: Round): Round {
    r.(tally := NoTally, clock := r.clock.(timer := TimerDuration, gameOver := false),
       status := r.status.(feedback := None))
  }

  /** The reset at the head of `handleStartGame`, before the generator is
      called: no content, no results, the timer rewound and stopped. */
  function StartReset(r: Round): Round {
    var c := ResultsCleared(ContentCleared(r));
    c.(clock := c.clock.(isTimerActive := false), status := c.status.(loading := true))
  }

  /** `handleStartGame`: reset the round, call the mode's generator, then
      either fill that mode's slot and start the timer, or show an error. */
  function AfterStart(r: Round, gens: Generators): Round {
    var g := Generated(StartReset(r), gens);
    g.(status := g.status.(loading := false))
  }

  /** The `try`/`catch` of `handleStartGame`: the mode's slot is filled and
      the timer started, or an error is shown. */
  function Generated(r: Round, gens: Generators): Round {
    if !GenerationSucceeds(r.mode, gens) then
      WithFeedback(r, Feedback(Error, GenerationFailedMessage))
    else
      r.(content := Filled(r.mode, r.content, gens), clock := r.clock.(isTimerActive := true))
  }

  /** The mode's slot set to what its generator returned. */
  function Filled(mode: GameMode, c: Content, gens: Generators): Content {
    match mode
    case Diff => c.(images := gens.diff)
    case Wrong => c.(singleImage := gens.wrong)
    case Logic => c.(logicGame := gens.logic)
  }

  /** A correct, new answer is scored, recorded and acknowledged with the
      cleaned explanation (`cleaned` is the verifier's explanation after
      `cleanText`). */
  function Scored(r: Round, guess: string, points: nat, cleaned: string): Round {
    WithFeedback(r, Feedback(Success, Or(cleaned, CorrectAnswer)))
      .(tally := Credited(r.tally, guess, points))
  }

  /** The points added to the score and the guess recorded as found. */
  function Credited(t: Tally, guess: string, points: nat): Tally {
    Tally(t.score + points, t.foundItems + [guess])
  }

  /** A solved logic puzzle ends the round with the explanation as its
      solution. */
  function Solved(r: Round, cleaned: string): Round {
    r.(clock := r.clock.(gameOver := true, isTimerActive := false),
       answers := r.answers.(logicSolution := Some(cleaned)))
  }

  /** A correct, new answer: score it, and end a logic round. */
  function Award(r: Round, guess: string, points: nat, cleaned: string): Round {
    var scored := Scored(r, guess, points, cleaned);
    if r.mode == Logic then Solved(scored, cleaned) else scored
  }

  /** The state a judged guess leaves, before the check flag is cleared. */
  function Judged(r: Round, guess: string, j: Judgement): Round {
    match j
    case VerifierThrew => WithFeedback(r, Feedback(Error, VerifyFailedMessage))
    case AlreadyFound => WithFeedback(r, JudgementFeedback(j))
    case Rejected(_) => WithFeedback(r, JudgementFeedback(j))
    case Awarded(points, explanation) => Award(r, guess, points, CleanText(explanation))
  }

  /** `handleSubmit`: ignored when the round is over, the guess is empty or
      a check is pending; otherwise the verifier's judgement decides the
      feedback, and a correct new answer scores and is recorded; a correct
      logic answer also ends the round. */
  function AfterSubmit(r: Round, guess: string, outcome: CheckOutcome): Round {
    if r.clock.gameOver || guess == "" || r.status.checking then r
    else
      var j := Judged(Checking(r), guess, Judge(r.mode, ModeContent(r), outcome));
      j.(status := j.status.(checking := false))
  }

  /** A submit under way: the check flag set and the old feedback cleared. */
  function Checking(r: Round): Round {
    r.(status := r.status.(checking := true, feedback := None))
  }

  /** The logic solution shown once time is up. */
  function TimeUpSolution(p: LogicPuzzle): string {
    Or(CleanText(Some(p.solution)), TimesUp)
  }

  /** `handleTimeout`: stop the timer, end the round, and reveal: the fetched
      differences for an image mode (kept as they were when the fetch
      throws), the puzzle's solution for a logic round. */
  function AfterTimeout(r: Round, fetched: Option<seq<Difference>>): Round {
    var ended := r.(clock := r.clock.(isTimerActive := false, gameOver := true),
                    answers := r.answers.(revealing := true));
    var revealed := Revealed(ended, fetched);
    revealed.(answers := revealed.answers.(revealing := false))
  }

  /** What a timeout reveals: the fetched differences for an image mode
      with its content (nothing when the fetch throws), the puzzle's
      solution for a logic round with its puzzle. */
  function Revealed(r: Round, fetched: Option<seq<Difference>>): Round {
    r.(answers := RevealedAnswers(r.mode, r.content, r.answers, fetched))
  }

  /** The answers after a reveal, from the mode and the round's content. */
  function RevealedAnswers(mode: GameMode, c: Content, a: Answers, fetched: Option<seq<Difference>>): Answers {
    if (mode == Diff && c.images.Some?) || (mode == Wrong && c.singleImage.Some?) then
      (if fetched.Some? then a.(differences := fetched.value) else a)
    else if mode == Logic && c.logicGame.Some? then
      a.(logicSolution := Some(TimeUpSolution(c.logicGame.value)))
    else a
  }

  /** One firing of the timer effect: count down while active and above
      zero, time out when active at zero, nothing while inactive. */
  function AfterTick(r: Round, fetched: Option<seq<Difference>>): Round {
    if r.clock.isTimerActive && r.clock.timer > 0 then r.(clock := r.clock.(timer := r.clock.timer - 1))
    else if r.clock.isTimerActive && r.clock.timer == 0 then AfterTimeout(r, fetched)
    else r
  }

  /** `handleGiveUp`: stop the timer and end the round; a logic round shows
      the stored solution, any other round takes the timeout path. */
  function AfterGiveUp(r: Round, fetched: Option<seq<Difference>>): Round {
    var ended := r.(clock := r.clock.(isTimerActive := false, gameOver := true));
    if r.mode == Logic && r.content.logicGame.Some? then
      ended.(answers := ended.answers.(logicSolution := Some(CleanText(Some(r.content.logicGame.value.solution)))))
    else AfterTimeout(ended, fetched)
  }

  /** `handlePlayAgain`: clear the content and the results, zero the score
      and rewind the timer (its active flag is left as it is). */
  function AfterPlayAgain(r: Round): Round {
    ResultsCleared(ContentCleared(r))
  }

  // ---------------------------------------------------------------------
  // what each handler promises
  // ---------------------------------------------------------------------

  /** Start resets the round; a successful generation fills exactly the
      mode's slot and starts the timer, a failed one leaves every slot
      empty, the timer stopped and an error showing; loading ends either way. */
  lemma StartResetsRound(r: Round, gens: Generators)
    ensures var s := AfterStart(r, gens);
      && !s.clock.gameOver && s.answers.differences == [] && s.answers.logicSolution == None
      && s.tally.foundItems == [] && s.tally.score == 0 && s.clock.timer == TimerDuration
      && !s.status.loading && s.mode == r.mode
    ensures var s := AfterStart(r, gens);
      GenerationSucceeds(r.mode, gens) ==>
        && s.clock.isTimerActive && s.status.feedback == None && ModeContent(s) && AtMostOneContent(s.content)
        && s.content.images == (if r.mode == Diff then gens.diff else None)
        && s.content.singleImage == (if r.mode == Wrong then gens.wrong else None)
        && s.content.logicGame == (if r.mode == Logic then gens.logic else None)
    ensures var s := AfterStart(r, gens);
      !GenerationSucceeds(r.mode, gens) ==>
        && !s.clock.isTimerActive && s.content.images == None && s.content.singleImage == None && s.content.logicGame == None
        && s.status.feedback == Some(Feedback(Error, GenerationFailedMessage))
    ensures Inv(AfterStart(r, gens))
  {
  }

  /** Submit does nothing once the round is over, for an empty guess, or
      while a check is pending. */
  lemma SubmitIgnored(r: Round, guess: string, outcome: CheckOutcome)
    requires r.clock.gameOver || guess == "" || r.status.checking
    ensures AfterSubmit(r, guess, outcome) == r
  {
  }

  /** A correct, new answer adds exactly the mode's points (10, 1 or 2) and
      appends the guess; a duplicate, a wrong answer or a failed check leave
      score and found items as they were. The check ends either way. */
  lemma SubmitScoring(r: Round, guess: string, outcome: CheckOutcome)
    requires !r.clock.gameOver && guess != "" && !r.status.checking
    ensures var s := AfterSubmit(r, guess, outcome);
      var awarded := ModeContent(r) && outcome.Checked? && outcome.response.correct
                     && !outcome.response.alreadyFound;
      && !s.status.checking && s.status.feedback.Some?
      && (awarded ==> s.tally.score == r.tally.score + PointsFor(r.mode) && s.tally.foundItems == r.tally.foundItems + [guess]
                      && s.status.feedback.value.kind == Success)
      && (!awarded ==> s.tally.score == r.tally.score && s.tally.foundItems == r.tally.foundItems
                       && s.clock.gameOver == r.clock.gameOver && s.clock.isTimerActive == r.clock.isTimerActive)
  {
  }

  /** Judging a guess keeps the invariant: an award is worth 1 to 10
      points, and a logic win stops the timer as it ends the round. */
  lemma SubmitKeepsInv(r: Round, guess: string, outcome: CheckOutcome)
    requires Inv(r)
    ensures Inv(AfterSubmit(r, guess, outcome))
  {
    if !(r.clock.gameOver || guess == "" || r.status.checking) {
      var j := Judge(r.mode, ModeContent(r), outcome);
      assert j.Awarded? ==> 1 <= j.points <= 10;
    }
  }

  /** A correct logic answer ends the round at once, with the cleaned
      explanation as the solution. */
  lemma LogicAnswerEndsRound(r: Round, guess: string, res: CheckResponse)
    requires !r.clock.gameOver && guess != "" && !r.status.checking
    requires r.mode == Logic && r.content.logicGame.Some? && res.correct && !res.alreadyFound
    ensures var s := AfterSubmit(r, guess, Checked(res));
      s.clock.gameOver && !s.clock.isTimerActive && s.answers.logicSolution == Some(CleanText(res.explanation))
      && s.tally.score == r.tally.score + 10
  {
  }

  /** A correct image answer never ends the round by itself. */
  lemma ImageAnswerKeepsRound(r: Round, guess: string, outcome: CheckOutcome)
    requires r.mode != Logic
    ensures AfterSubmit(r, guess, outcome).clock.gameOver == r.clock.gameOver
    ensures AfterSubmit(r, guess, outcome).clock.isTimerActive == r.clock.isTimerActive
  {
  }

  /** The timer counts down by one only while active and above zero; at zero
      an active timer times out, which stops it and ends the round. */
  lemma TickCountsDown(r: Round, fetched: Option<seq<Difference>>)
    ensures r.clock.isTimerActive && r.clock.timer > 0 ==> AfterTick(r, fetched) == r.(clock := r.clock.(timer := r.clock.timer - 1))
    ensures r.clock.isTimerActive && r.clock.timer == 0 ==>
      AfterTick(r, fetched).clock.gameOver && !AfterTick(r, fetched).clock.isTimerActive
    ensures !r.clock.isTimerActive ==> AfterTick(r, fetched) == r
    ensures r.clock.timer >= 0 ==> AfterTick(r, fetched).clock.timer >= 0
    ensures Inv(r) ==> Inv(AfterTick(r, fetched))
  {
  }

  /** Timing out always ends with `revealing` false; a failed fetch keeps
      the differences as they were. */
  lemma TimeoutAlwaysFinishesReveal(r: Round, fetched: Option<seq<Difference>>)
    ensures var s := AfterTimeout(r, fetched);
      s.clock.gameOver && !s.clock.isTimerActive && !s.answers.revealing
      && s.tally.score == r.tally.score && s.tally.foundItems == r.tally.foundItems
    ensures fetched.None? ==> AfterTimeout(r, fetched).answers.differences == r.answers.differences
  {
  }

  /** Give up always stops the timer and ends the round; a logic round shows
      the stored solution, cleaned; an image round takes the timeout path. */
  lemma GiveUpEndsRound(r: Round, fetched: Option<seq<Difference>>)
    ensures var s := AfterGiveUp(r, fetched);
      s.clock.gameOver && !s.clock.isTimerActive && s.tally.score == r.tally.score && s.tally.foundItems == r.tally.foundItems
    ensures r.mode == Logic && r.content.logicGame.Some? ==>
      AfterGiveUp(r, fetched).answers.logicSolution == Some(CleanText(Some(r.content.logicGame.value.solution)))
    ensures r.mode != Logic ==>
      AfterGiveUp(r, fetched) == AfterTimeout(r.(clock := r.clock.(isTimerActive := false, gameOver := true)), fetched)
      && !AfterGiveUp(r, fetched).answers.revealing
    ensures Inv(r) ==> Inv(AfterGiveUp(r, fetched))
  {
  }

  /** Play again clears the content and the results and rewinds the timer,
      without touching its active flag. */
  lemma PlayAgainClears(r: Round)
    ensures var s := AfterPlayAgain(r);
      && s.content.images == None && s.content.singleImage == None && s.content.logicGame == None
      && s.tally.foundItems == [] && s.answers.differences == [] && s.answers.logicSolution == None
      && !s.clock.gameOver && s.tally.score == 0 && s.status.feedback == None && s.clock.timer == TimerDuration
      && s.clock.isTimerActive == r.clock.isTimerActive && s.mode == r.mode
    ensures Inv(AfterPlayAgain(r))
  {
  }

  /** Some content slot is filled (`hasContent`). */
  predicate AnyContent(c: Content) {
    c.images.Some? || c.singleImage.Some? || c.logicGame.Some?
  }

  /** The mode selector is disabled while loading and during a round that
      has content and is not over. */
  predicate ModeLocked(r: Round) {
    r.status.loading || (AnyContent(r.content) && !r.clock.gameOver)
  }

  /** A click on a mode button: `setGameMode`, unless the selector is
      disabled. Only the mode changes. */
  function AfterSelectMode(r: Round, m: GameMode): Round {
    if ModeLocked(r) then r else r.(mode := m)
  }

  /** The mode cannot change while content is loading or a round with
      content is in progress; otherwise the click sets it and nothing else. */
  lemma ModeLockedDuringRound(r: Round, m: GameMode)
    ensures ModeLocked(r) ==> AfterSelectMode(r, m) == r
    ensures !ModeLocked(r) ==> AfterSelectMode(r, m) == r.(mode := m)
    ensures AfterSelectMode(r, m).mode != r.mode ==> !r.status.loading && (r.clock.gameOver || !AnyContent(r.content))
  {
  }

  // ---------------------------------------------------------------------
  // runs of events
  // ---------------------------------------------------------------------

  /** One handled UI event, with the answers of the external calls it makes. */
  datatype Event =
    | Start(subject: string, pick: ThemePick, gens: Generators)
    | Submit(guess: string, outcome: CheckOutcome)
    | Tick(fetched: Option<seq<Difference>>)
    | GiveUp(fetched: Option<seq<Difference>>)
    | PlayAgain
    | SelectMode(newMode: GameMode)

  /** The events that begin a new round. */
  predicate Restarts(e: Event) {
    e.Start? || e.PlayAgain?
  }

  function Step(r: Round, e: Event): Round {
    match e
    case Start(_, _, gens) => AfterStart(r, gens)
    case Submit(guess, outcome) => AfterSubmit(r, guess, outcome)
    case Tick(fetched) => AfterTick(r, fetched)
    case GiveUp(fetched) => AfterGiveUp(r, fetched)
    case PlayAgain => AfterPlayAgain(r)
    case SelectMode(m) => AfterSelectMode(r, m)
  }

  /** The state after handling `es`, one event at a time. */
  function Run(r: Round, es: seq<Event>): Round
    decreases |es|
  {
    if es == [] then r else Run(Step(r, es[0]), es[1..])
  }

  /** Every handler keeps the invariant. */
  lemma StepKeepsInv(r: Round, e: Event)
    requires Inv(r)
    ensures Inv(Step(r, e))
  {
    match e
    case Start(_, _, gens) => StartResetsRound(r, gens);
    case Submit(guess, outcome) => SubmitKeepsInv(r, guess, outcome);
    case Tick(fetched) => TickCountsDown(r, fetched);
    case GiveUp(fetched) => GiveUpEndsRound(r, fetched);
    case PlayAgain => PlayAgainClears(r);
    case SelectMode(_) =>
  }

  /** A handler other than start and play again never lowers the score,
      only appends to the found items, never raises the timer, and leaves a
      finished round finished with its results as they were. */
  lemma StepWithinRound(r: Round, e: Event)
    requires !Restarts(e)
    ensures Step(r, e).tally.score >= r.tally.score && r.tally.foundItems <= Step(r, e).tally.foundItems
    ensures Step(r, e).clock.timer <= r.clock.timer
    ensures Inv(r) && r.clock.gameOver ==>
      Step(r, e).clock.gameOver && Step(r, e).tally.score == r.tally.score && Step(r, e).tally.foundItems == r.tally.foundItems
  {
    match e
    case Submit(guess, outcome) =>
      if !(r.clock.gameOver || guess == "" || r.status.checking) {
        SubmitScoring(r, guess, outcome);
      }
    case Tick(fetched) => TickCountsDown(r, fetched);
    case GiveUp(fetched) => GiveUpEndsRound(r, fetched);
    case SelectMode(_) =>
  }

  /** From the initial state, any run of events keeps the timer in [0, 15]
      (never negative), keeps a finished round's timer stopped and keeps the
      score between 1 and 10 points per found item. The induction is the
      same as `Classic.RunKeepsInv`, over this module's own events. */
  lemma {:induction false} RunKeepsInv(r: Round, es: seq<Event>)
    requires Inv(r)
    ensures Inv(Run(r, es))
    decreases |es|
  {
    if es != [] {
      StepKeepsInv(r, es[0]);
      RunKeepsInv(Step(r, es[0]), es[1..]);
    }
  }

  lemma InitialInv()
    ensures Inv(InitialRound)
  {
  }

  /** Once over, a round stays over until a start or a play again; its
      score and found items stay as they were. */
  lemma {:induction false} GameOverAbsorbing(r: Round, es: seq<Event>)
    requires Inv(r) && r.clock.gameOver
    requires forall i :: 0 <= i < |es| ==> !Restarts(es[i])
    ensures Run(r, es).clock.gameOver
    ensures Run(r, es).tally.score == r.tally.score && Run(r, es).tally.foundItems == r.tally.foundItems
    decreases |es|
  {
    if es != [] {
      StepKeepsInv(r, es[0]);
      StepWithinRound(r, es[0]);
      GameOverAbsorbing(Step(r, es[0]), es[1..]);
    }
  }

  /** Within a round the score never decreases, found items are only ever
      appended, and the timer never goes back up. */
  lemma {:induction false} RunWithinRound(r: Round, es: seq<Event>)
    requires forall i :: 0 <= i < |es| ==> !Restarts(es[i])
    ensures Run(r, es).tally.score >= r.tally.score
    ensures r.tally.foundItems <= Run(r, es).tally.foundItems
    ensures Run(r, es).clock.timer <= r.clock.timer
    decreases |es|
  {
    if es != [] {
      StepWithinRound(r, es[0]);
      RunWithinRound(Step(r, es[0]), es[1..]);
    }
  }

  /** `n` runs of the timer effect: each one an interval firing while the
      timer is above zero, or the direct timeout call once it is zero. */
  function Ticks(n: nat, fetched: Option<seq<Difference>>): (ts: seq<Event>)
    ensures |ts| == n && forall i :: 0 <= i < n ==> ts[i] == Tick(fetched)
  {
    if n == 0 then [] else [Tick(fetched)] + Ticks(n - 1, fetched)
  }

  /** While a running timer has `t` seconds left, each of the next `t`
      interval firings takes off one second and leaves the round running. */
  lemma {:induction false} CountdownRunning(r: Round, fetched: Option<seq<Difference>>, k: nat)
    requires Inv(r) && r.clock.isTimerActive && k <= r.clock.timer
    ensures Run(r, Ticks(k, fetched)).clock == r.clock.(timer := r.clock.timer - k)
    ensures !Run(r, Ticks(k, fetched)).clock.gameOver
    decreases k
  {
    if k > 0 {
      var ts := Ticks(k, fetched);
      assert ts[0] == Tick(fetched);
      var r' := Step(r, ts[0]);
      assert r' == r.(clock := r.clock.(timer := r.clock.timer - 1));
      StepKeepsInv(r, ts[0]);
      assert ts[1..] == Ticks(k - 1, fetched);
      CountdownRunning(r', fetched, k - 1);
    }
  }

  /** A running timer with `t` seconds left ends the round at exactly the
      `t + 1`-th run of the timer effect: `t` interval firings count it
      down, and the effect run that sees zero calls the timeout directly.
      Before that the round is still running. */
  lemma {:induction false} CountdownEndsRound(r: Round, fetched: Option<seq<Difference>>)
    requires Inv(r) && r.clock.isTimerActive
    ensures Run(r, Ticks(r.clock.timer + 1, fetched)).clock.gameOver
    ensures !Run(r, Ticks(r.clock.timer + 1, fetched)).clock.isTimerActive
    ensures forall k :: 0 <= k <= r.clock.timer ==>
      !Run(r, Ticks(k, fetched)).clock.gameOver && Run(r, Ticks(k, fetched)).clock.timer == r.clock.timer - k
    decreases r.clock.timer
  {
    forall k | 0 <= k <= r.clock.timer
      ensures !Run(r, Ticks(k, fetched)).clock.gameOver && Run(r, Ticks(k, fetched)).clock.timer == r.clock.timer - k
    {
      CountdownRunning(r, fetched, k);
    }
    var ts := Ticks(r.clock.timer + 1, fetched);
    assert ts[0] == Tick(fetched);
    if r.clock.timer == 0 {
      assert ts[1..] == [];
    } else {
      var r' := Step(r, ts[0]);
      assert r' == r.(clock := r.clock.(timer := r.clock.timer - 1));
      assert ts[1..] == Ticks(r'.clock.timer + 1, fetched);
      CountdownEndsRound(r', fetched);
    }
  }
}
