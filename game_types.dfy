/** The values both round controllers share: game modes and their scoring,
    revealed differences with their 0-1000 boxes, the generators' and
    verifiers' answers, feedback, and the choice of a round's topic. */
module GameTypes {
  import opened Text

  datatype GameMode = Diff | Wrong | Logic

  /** Points for one correct, not yet found answer: 10 for a logic puzzle,
      1 for a spotted difference, 2 for a spotted error. */
  function PointsFor(mode: GameMode): (p: nat)
    ensures 1 <= p <= 10
    ensures mode == Logic <==> p == 10
    ensures mode == Diff <==> p == 1
    ensures mode == Wrong <==> p == 2
  {
    match mode
    case Logic => 10
    case Diff => 1
    case Wrong => 2
  }

  /** `box_2d`: `[ymin, xmin, ymax, xmax]` on the 0-1000 grid. */
  datatype Box = Box(ymin: int, xmin: int, ymax: int, xmax: int)

  /** A box that lies on the 0-1000 grid with its corners in order. */
  predicate OnGrid(b: Box) {
    0 <= b.ymin <= b.ymax <= 1000 && 0 <= b.xmin <= b.xmax <= 1000
  }

  /** A revealed difference (or error) with its id, description and box. */
  datatype Difference = Difference(id: int, description: string, box: Box)

  /** Content of a round: the two images of a comparison, the single image
      of an anomaly puzzle, or the text of a logic puzzle. */
  datatype DiffImages = DiffImages(original: string, modified: string)
  datatype LogicPuzzle = LogicPuzzle(title: string, question: string, solution: string)

  /** What each generator returns when it is called this time; `None` is a
      call that throws. Only the one for the current mode is called. */
  datatype Generators = Generators(
    diff: Option<DiffImages>,
    wrong: Option<string>,
    logic: Option<LogicPuzzle>)

  /** A verifier's answer. A missing `alreadyFound` is false; a missing
      explanation is `None`. */
  datatype CheckResponse = CheckResponse(correct: bool, alreadyFound: bool, explanation: Option<string>)

  /** The verifier call of one submit: an answer, or a thrown error. */
  datatype CheckOutcome = Checked(response: CheckResponse) | CheckThrew

  datatype FeedbackKind = Success | Error | Info
  datatype Feedback = Feedback(kind: FeedbackKind, message: string)

  const AlreadyDiscovered := "Already discovered!"
  const CorrectAnswer := "Correct answer!"
  const NotQuiteRight := "Not quite right. Try again."
  const TimesUp := "Time's up! The puzzle remains unsolved."

  /** How one submitted guess is judged, from the verifier's answer. */
  datatype Judgement =
    | Awarded(points: nat, explanation: Option<string>)
    | AlreadyFound
    | Rejected(explanation: Option<string>)
    | VerifierThrew

  /** Judges a guess. Without content for the mode no verifier is called and
      the response is `undefined`, which reads as a wrong answer. */
  function Judge(mode: GameMode, hasContent: bool, outcome: CheckOutcome): (j: Judgement)
    ensures j.Awarded? <==>
      hasContent && outcome.Checked? && outcome.response.correct && !outcome.response.alreadyFound
    ensures j.Awarded? ==> j.points == PointsFor(mode) && j.explanation == outcome.response.explanation
    ensures j.AlreadyFound? <==>
      hasContent && outcome.Checked? && outcome.response.correct && outcome.response.alreadyFound
    ensures j.VerifierThrew? <==> hasContent && outcome.CheckThrew?
  {
    if !hasContent then Rejected(None)
    else match outcome
      case CheckThrew => VerifierThrew
      case Checked(res) =>
        if res.correct then
          if res.alreadyFound then AlreadyFound else Awarded(PointsFor(mode), res.explanation)
        else Rejected(res.explanation)
  }

  /** The feedback both screens show for a judgement the verifier answered. */
  function JudgementFeedback(j: Judgement): (f: Feedback)
    requires !j.VerifierThrew?
    ensures f.kind == Success <==> j.Awarded?
    ensures f.kind == Info <==> j.AlreadyFound?
    ensures f.message != ""
  {
    match j
    case Awarded(_, e) => Feedback(Success, Or(CleanText(e), CorrectAnswer))
    case AlreadyFound => Feedback(Info, AlreadyDiscovered)
    case Rejected(e) => Feedback(Error, Or(CleanText(e), NotQuiteRight))
  }

  const RandomThemes: seq<string> := [
    "A futuristic street market",
    "A cozy medieval tavern",
    "An underwater research base",
    "A steampunk workshop",
    "A magical library in the clouds",
    "A modern penthouse kitchen",
    "A quiet suburban garden",
    "An ancient Egyptian temple interior",
    "A bustling space station lobby",
    "A rustic forest cabin"
  ]

  /** `Math.floor(Math.random() * RANDOM_THEMES.length)`: some index of the
      ten themes, chosen by the caller. */
  type ThemePick = i: nat | i < 10

  /** The topic sent to the generator: the trimmed subject, except that an
      empty one is replaced by the picked random theme for image modes. */
  function ChooseTopic(mode: GameMode, subject: string, pick: ThemePick): string {
    var t := Trim(subject);
    if t == "" && mode != Logic then RandomThemes[pick] else t
  }

  /** A subject with any non-whitespace character is sent trimmed; a blank
      one is sent as is (trimmed to "") for a logic puzzle and replaced by
      the picked theme otherwise, so an image generator never gets "". */
  lemma ChooseTopicSpec(mode: GameMode, subject: string, pick: ThemePick)
    ensures !IsBlank(subject) ==> ChooseTopic(mode, subject, pick) == Trim(subject)
    ensures mode == Logic ==> ChooseTopic(mode, subject, pick) == Trim(subject)
    ensures mode != Logic && IsBlank(subject) ==> ChooseTopic(mode, subject, pick) == RandomThemes[pick]
    ensures mode != Logic ==> ChooseTopic(mode, subject, pick) != ""
  {
    TrimEmptyIffBlank(subject);
  }
}
