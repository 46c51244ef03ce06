/** The guess box of the dashboard (`src/components/dashboard/GameResponse.tsx`):
    the text of the guess, the submit guard, the Enter key, the enabled
    state of the button and the voice transcript. The page's submit handler
    it calls is `Dashboard.AfterSubmit`; the box passes it the guess and,
    in the same click, decides from the feedback it was rendered with
    whether to empty itself. */
module Response {
  import opened Text
  import opened GameTypes
  import Dashboard

  /** The call `handleSubmit` makes: `onSubmit(guess)` when the trimmed
      guess is non-empty, none otherwise. The guess goes out untrimmed. */
  function SubmitCall(guess: string): Option<string> {
    if Trim(guess) == "" then None else Some(guess)
  }

  /** A blank guess (empty or whitespace only) is never submitted; any
      other is submitted exactly as typed. */
  lemma SubmitCallSpec(guess: string)
    ensures SubmitCall(guess).None? <==> IsBlank(guess)
    ensures SubmitCall(guess).Some? ==> SubmitCall(guess).value == guess && guess != ""
  {
    TrimEmptyIffBlank(guess);
  }

  /** The feedback is a success message. */
  predicate IsSuccess(feedback: Option<Feedback>) {
    feedback.Some? && feedback.value.kind == Success
  }

  /** The box's text after `handleSubmit`: emptied when a guess was sent
      and the feedback the box was rendered with (the previous answer's)
      is a success, kept otherwise. */
  function AfterBoxSubmit(guess: string, feedback: Option<Feedback>): string {
    if SubmitCall(guess).Some? && IsSuccess(feedback) then "" else guess
  }

  /** The submit button is enabled when no check is pending and the trimmed
      guess is non-empty. */
  predicate ButtonEnabled(checking: bool, guess: string) {
    !checking && Trim(guess) != ""
  }

  /** An enabled button submits the guess; a disabled one would not be
      clicked, and when the cause is a blank guess its handler sends
      nothing anyway. */
  lemma ButtonSubmits(checking: bool, guess: string)
    ensures ButtonEnabled(checking, guess) ==> SubmitCall(guess) == Some(guess)
    ensures ButtonEnabled(checking, guess) <==> !checking && !IsBlank(guess)
    ensures !checking && !ButtonEnabled(checking, guess) ==> SubmitCall(guess).None?
  {
    SubmitCallSpec(guess);
  }

  /** `handleKeyDown`: Enter runs `handleSubmit`; any other key changes
      nothing here. The result is the call made and the box's text. */
  function KeyDown(key: string, guess: string, feedback: Option<Feedback>): (Option<string>, string) {
    if key == "Enter" then (SubmitCall(guess), AfterBoxSubmit(guess, feedback))
    else (None, guess)
  }

  /** Enter does exactly what the button's handler does, also while a
      check is pending, when the button is disabled; the page then ignores
      the call. */
  lemma EnterBypassesChecking(r: Dashboard.Round, guess: string, outcome: CheckOutcome)
    requires r.status.checking && !IsBlank(guess)
    ensures !ButtonEnabled(r.status.checking, guess)
    ensures KeyDown("Enter", guess, r.status.feedback).0 == Some(guess)
    ensures Dashboard.AfterSubmit(r, guess, outcome) == r
  {
    SubmitCallSpec(guess);
  }

  /** Enter behaves as the button, and no other key submits. */
  lemma KeyDownSpec(key: string, guess: string, feedback: Option<Feedback>)
    ensures key == "Enter" ==> KeyDown(key, guess, feedback) == (SubmitCall(guess), AfterBoxSubmit(guess, feedback))
    ensures key != "Enter" ==> KeyDown(key, guess, feedback).0.None? && KeyDown(key, guess, feedback).1 == guess
  {
  }

  // ---------------------------------------------------------------------
  // the box and the page together
  // ---------------------------------------------------------------------

  /** The dashboard's round and the text of its guess box. */
  datatype Answering = Answering(round: Dashboard.Round, box: string)

  /** A submit from the box as written: the page judges the guess, and the
      box empties itself when the feedback it was rendered with, from
      before this submit, was a success. */
  function SubmitAsWritten(a: Answering, outcome: CheckOutcome): Answering {
    var call := SubmitCall(a.box);
    var r := if call.Some? then Dashboard.AfterSubmit(a.round, call.value, outcome) else a.round;
    Answering(r, AfterBoxSubmit(a.box, a.round.status.feedback))
  }

  /** The submit made by this click was scored. */
  predicate Accepted(a: Answering, outcome: CheckOutcome) {
    var call := SubmitCall(a.box);
    && call.Some? && !a.round.clock.gameOver && !a.round.status.checking
    && Judge(a.round.mode, Dashboard.ModeContent(a.round), outcome).Awarded?
  }

  /** A submit from the box that empties it when this submit's own answer
      was scored. */
  function SubmitCorrected(a: Answering, outcome: CheckOutcome): Answering {
    var call := SubmitCall(a.box);
    var r := if call.Some? then Dashboard.AfterSubmit(a.round, call.value, outcome) else a.round;
    Answering(r, if Accepted(a, outcome) then "" else a.box)
  }

  /** With the corrected rule the box is emptied exactly when its guess
      raised the score, and it is otherwise kept as typed. */
  lemma CorrectedClearsScoredGuess(a: Answering, outcome: CheckOutcome)
    ensures var b := SubmitCorrected(a, outcome);
      && (b.box == "" || b.box == a.box)
      && (b.round.tally.score > a.round.tally.score <==> a.box != "" && b.box == "")
      && (b.round.tally.score > a.round.tally.score ==> b.round.tally.foundItems == a.round.tally.foundItems + [a.box])
  {
    var call := SubmitCall(a.box);
    SubmitCallSpec(a.box);
    if call.Some? {
      if !a.round.clock.gameOver && !a.round.status.checking {
        Dashboard.SubmitScoring(a.round, a.box, outcome);
      }
    }
  }

  /** A round with the two images of a comparison, running, no feedback
      shown yet. */
  const FreshRound := Dashboard.Round(Diff, Dashboard.Content(Some(DiffImages("a.png", "b.png")), None, None),
                                      Dashboard.NoTally, Dashboard.Clock(15, true, false),
                                      Dashboard.Answers([], None, false), Dashboard.Status(false, false, None))

  /** A verifier's answer to a correct, new guess, and to a wrong one. */
  const CorrectNew := Checked(CheckResponse(true, false, None))
  const Incorrect := Checked(CheckResponse(false, false, None))

  lemma CatSubmitted()
    ensures SubmitCall("cat") == Some("cat") && SubmitCall("dog") == Some("dog")
  {
    assert !IsBlank("cat") by { assert !IsWhitespace("cat"[0]); }
    assert !IsBlank("dog") by { assert !IsWhitespace("dog"[0]); }
    SubmitCallSpec("cat");
    SubmitCallSpec("dog");
  }

  /** As written, a correct first guess scores but stays in the box, since
      no success was shown before it; the corrected rule empties it. */
  lemma StaleFeedbackKeepsScoredGuess()
    ensures var first := SubmitAsWritten(Answering(FreshRound, "cat"), CorrectNew);
      first.round.tally == Dashboard.Tally(1, ["cat"]) && first.box == "cat"
    ensures SubmitCorrected(Answering(FreshRound, "cat"), CorrectNew).box == ""
  {
    CatSubmitted();
    assert Dashboard.ModeContent(FreshRound);
    assert Judge(Diff, true, CorrectNew) == Awarded(1, None);
    var after := Dashboard.AfterSubmit(FreshRound, "cat", CorrectNew);
    assert after.tally == Dashboard.Tally(1, ["cat"]);
  }

  /** As written, a wrong guess typed after a scored one is emptied, since
      the scored one's success is still shown; the corrected rule keeps it. */
  lemma StaleFeedbackClearsWrongGuess()
    ensures var after := Dashboard.AfterSubmit(FreshRound, "cat", CorrectNew);
      var second := SubmitAsWritten(Answering(after, "dog"), Incorrect);
      second.round.tally == after.tally && second.box == ""
    ensures var after := Dashboard.AfterSubmit(FreshRound, "cat", CorrectNew);
      SubmitCorrected(Answering(after, "dog"), Incorrect).box == "dog"
  {
    CatSubmitted();
    var after := Dashboard.AfterSubmit(FreshRound, "cat", CorrectNew);
    assert Judge(Diff, true, CorrectNew) == Awarded(1, None);
    assert IsSuccess(after.status.feedback) && !after.clock.gameOver && !after.status.checking;
    assert Judge(Diff, true, Incorrect) == Rejected(None);
  }

  // ---------------------------------------------------------------------
  // the component
  // ---------------------------------------------------------------------

  /** The guess box's own state (`guess`); `checking` and `feedback` are the
      page's, passed in as they were at the last render. */
  class ResponseBox {
    var guess: string

    constructor ()
      ensures guess == ""
    {
      guess := "";
    }

    /** The input's `onChange`. */
    method HandleChange(value: string)
      modifies this
      ensures guess == value
    {
      guess := value;
    }

    /** `handleSubmit`; returns the `onSubmit` call it makes. */
    method HandleSubmit(feedback: Option<Feedback>) returns (call: Option<string>)
      modifies this
      ensures call == SubmitCall(old(guess))
      ensures guess == AfterBoxSubmit(old(guess), feedback)
    {
      if Trim(guess) == "" {
        return None;
      }
      call := Some(guess);
      if feedback.Some? && feedback.value.kind == Success {
        guess := "";
      }
    }

    /** `handleKeyDown`. */
    method HandleKeyDown(key: string, feedback: Option<Feedback>) returns (call: Option<string>)
      modifies this
      ensures (call, guess) == KeyDown(key, old(guess), feedback)
    {
      call := None;
      if key == "Enter" {
        call := HandleSubmit(feedback);
      }
    }

    /** The voice hook's transcript callback. */
    method HandleTranscript(transcript: string)
      modifies this
      ensures guess == AppendTranscript(old(guess), transcript)
    {
      if guess != "" {
        guess := guess + " " + transcript;
      } else {
        guess := transcript;
      }
    }
  }
}
