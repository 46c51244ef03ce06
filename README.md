# Spot-the-difference game: round controllers, in Dafny

The game shows AI-generated content and a 15-second countdown. In an image
round the player names what differs between two images (DIFF) or what is
wrong in one image (WRONG). In a logic round (LOGIC) the player answers a
puzzle. An AI verifier judges each guess. A correct, new guess scores 1 (DIFF),
2 (WRONG) or 10 (LOGIC), and a correct logic answer ends the round. When time
runs out or the player gives up, the answers are revealed: boxes drawn over
the images, or the puzzle's solution.

This project models the client-side logic that drives a round, in the two
versions the repository carries:

- the dashboard page (`src/app/dashboard/page.tsx`), with its guess box
  (`GameResponse.tsx`) and image viewer (`GameArea.tsx`);
- the original screen (`code/components/GameScreen.tsx`), which differs in
  several places. Its start keeps the score. A correct answer empties the
  guess box. A verifier that throws is only logged, and a failed generation
  raises an alert. Play again leaves the timer alone. It also owns the prompt
  box, the voice listeners, a full view and a 6x zoom cap.

It also models:

- the record a finished game is saved as (`save-game-session.ts`);
- the project lightbox of the landing page (`about-section.tsx`).

Every React component is modelled twice:

- as transitions on a state value (`Dashboard.Round`, `Classic.Screen`,
  `Viewer.View`, `Lightbox.Selection`), about which the lemmas are proved;
- as a class whose fields are the component's state hooks and whose methods
  are its handlers. Each method is proved to perform its transition:
  `ensures State() == AfterX(old(State()), ...)`, with the invariant kept.

The dashboard page keeps one field per hook. The classic screen groups its
21 hooks into records by concern (content, tally, clock, answers, status,
inputs, panels, voice), and each setter is an update of one member of its
record. The viewer's hooks and refs are a `PanZoom` object. The classic
screen holds one as its `viewer`. The dashboard's `GameArea` viewer is
modelled as a standalone `PanZoom` that the page class does not hold, since
`GameArea` keeps its zoom, pan and hover state to itself.

Calls to the AI service and the database are inputs to the model:

| call | how it enters the model |
|---|---|
| a generator | `Generators`; `None` means the call throws |
| a verifier | a `CheckOutcome` per submit: a `(correct, alreadyFound, explanation)` answer, or a throw |
| the answer fetch of a reveal | `Option<seq<Difference>>` |
| `Math.random` theme pick | a `ThemePick` in [0, 10) |
| sign-in, the session id, the clock, a failing insert | parameters of `SaveGameSession` |

Each handler runs to completion before the next one starts.

Modules:

| file | module | what |
|---|---|---|
| text.dfy | `Text` | JavaScript `trim`, `cleanText`, `\|\|` on strings, transcript appending, decimal numbers |
| game_types.dfy | `GameTypes` | modes and points, boxes, verifier answers, judging a guess, topic choice |
| dashboard.dfy | `Dashboard` | the dashboard round as transitions, invariants, runs of events |
| dashboard_page.dfy | `DashboardScreen` | the dashboard page as a class |
| classic.dfy | `Classic` | the original screen as transitions, voice toggles, `formatTime` |
| classic_screen.dfy | `ClassicScreen` | the original screen as a class |
| viewer.dfy | `Viewer` | zoom, pan and drag, hover, answer overlays; class `PanZoom` |
| response.dfy | `Response` | the dashboard's guess box; class `ResponseBox` |
| lightbox.dfy | `Lightbox` | wrap-around navigation; class `AboutLightbox` |
| session_record.dfy | `SessionRecord` | the rows a saved game is written as |

## Model

| member | source | states |
|---|---|---|
| Text.TrimEmptyIffBlank | src/components/dashboard/GameResponse.tsx:27 | `trim()` gives the empty string exactly when the string is all whitespace |
| Text.TrimSpec | src/app/dashboard/page.tsx:109 | `trim()` never lengthens a string, and the result neither starts nor ends with whitespace |
| Text.TrimStartSpec | src/app/dashboard/page.tsx:109 | the leading part that is dropped is all whitespace, and what is kept is a suffix starting at a non-whitespace character |
| Text.TrimEndSpec | src/app/dashboard/page.tsx:109 | the trailing part that is dropped is all whitespace, and what is kept is a prefix ending at a non-whitespace character |
| Text.TrimIdempotent | code/components/GameScreen.tsx:206 | trimming twice is trimming once |
| Text.TrimOfTrimmed | code/components/GameScreen.tsx:206 | a string with no whitespace at either end is its own trim |
| Text.StripBoldSpec | src/app/dashboard/page.tsx:39 | `replace(/\*\*/g, "")` leaves no `**`, never lengthens, and removes only stars |
| Text.CleanTextSpec | src/app/dashboard/page.tsx:37-40 | `cleanText` gives "" for a missing or empty text; its output has no `**` and differs from the input only in stars |
| Text.StripBoldKeepsBoldFree | code/components/GameScreen.tsx:56-59 | a text without `**` comes through `cleanText` unchanged |
| Text.CleanTextIdempotent | code/components/GameScreen.tsx:56-59 | `cleanText` of a cleaned text changes nothing |
| Text.Or | src/app/dashboard/page.tsx:170 | `a \|\| b` on strings: `a` unless it is empty, else `b` |
| Text.AppendTranscriptSpec | src/components/dashboard/GameResponse.tsx:22-24 | a transcript replaces an empty field, or is appended after one space with the old text kept in front |
| Text.DecimalString | code/components/GameScreen.tsx:152 | a number's decimal text has only digits, no leading zero, and a single digit exactly below ten |
| Text.DecimalRoundTrip | code/components/GameScreen.tsx:152 | reading a number's decimal text back gives the number |
| GameTypes.PointsFor | src/app/dashboard/page.tsx:167 | 10 points for LOGIC, 1 for DIFF, 2 for WRONG, and no other values |
| GameTypes.Judge | src/app/dashboard/page.tsx:154-181 | a guess is awarded exactly when there is content for the mode and the verifier answers correct and not already found; already found, and a throw, are recognised exactly; without content the guess reads as wrong |
| GameTypes.JudgementFeedback | src/app/dashboard/page.tsx:163-181 | success feedback exactly for an award, info exactly for an already-found answer, and never an empty message |
| GameTypes.ChooseTopicSpec | src/app/dashboard/page.tsx:109-134 | a non-blank subject is sent trimmed; a blank one is replaced by a random theme for DIFF and WRONG and passed through for LOGIC, so an image generator never gets "" |
| Dashboard.StartResetsRound | src/app/dashboard/page.tsx:108-144 | start clears the round: score 0, no found items, no answers, timer 15, not over. A successful generation fills exactly the mode's slot and starts the timer; a failure leaves the timer stopped and shows the error; loading ends either way |
| Dashboard.SubmitIgnored | src/app/dashboard/page.tsx:148 | submit does nothing when the round is over, the guess is empty or a check is pending |
| Dashboard.SubmitScoring | src/app/dashboard/page.tsx:147-188 | a correct, new answer adds exactly the mode's points and appends the guess; any other outcome leaves score and found items as they were; the check always ends with feedback shown |
| Dashboard.SubmitKeepsInv | src/app/dashboard/page.tsx:147-188 | submitting keeps the invariant (timer in [0, 15], a finished round's timer stopped, 1 to 10 points per found item, at most one content slot) |
| Dashboard.LogicAnswerEndsRound | src/app/dashboard/page.tsx:172-177 | a correct LOGIC answer ends the round at once, stops the timer and shows the cleaned explanation as the solution |
| Dashboard.ImageAnswerKeepsRound | src/app/dashboard/page.tsx:163-178 | in an image mode, no answer ends the round or stops the timer |
| Dashboard.TickCountsDown | src/app/dashboard/page.tsx:72-82 | the timer drops by one only while active and above zero, never goes negative, and at zero times out, which ends the round |
| Dashboard.TimeoutAlwaysFinishesReveal | src/app/dashboard/page.tsx:85-105 | a timeout ends the round with the timer stopped and `revealing` false, even when the fetch throws, which keeps the old differences |
| Dashboard.GiveUpEndsRound | src/app/dashboard/page.tsx:191-200 | give up always ends the round and stops the timer; LOGIC shows the cleaned stored solution; other modes take the timeout path |
| Dashboard.PlayAgainClears | src/app/dashboard/page.tsx:203-214 | play again clears content, found items and answers, zeroes the score, rewinds the timer and clears the feedback, but leaves the timer's active flag |
| Dashboard.ModeLockedDuringRound | src/app/dashboard/page.tsx:253-257 | the mode cannot change while loading or during a round with content that is not over; otherwise a click sets only the mode |
| Dashboard.StepKeepsInv | src/app/dashboard/page.tsx:72-214 | every handler keeps the invariant |
| Dashboard.StepWithinRound | src/app/dashboard/page.tsx:72-200 | apart from start and play again, no handler lowers the score, removes a found item or raises the timer, and a finished round stays finished |
| Dashboard.RunKeepsInv | src/app/dashboard/page.tsx:72-214 | any run of events keeps the invariant, so the timer is never negative |
| Dashboard.InitialInv | src/app/dashboard/page.tsx:44-64 | the initial state satisfies the invariant |
| Dashboard.GameOverAbsorbing | src/app/dashboard/page.tsx:72-200 | once over, a round stays over, with its score and found items, until a start or play again |
| Dashboard.RunWithinRound | src/app/dashboard/page.tsx:72-200 | within a round the score never decreases, found items are only appended, and the timer never goes back up |
| Dashboard.Ticks | src/app/dashboard/page.tsx:72-82 | `n` runs of the timer effect |
| Dashboard.CountdownRunning | src/app/dashboard/page.tsx:74-77 | while a running timer has `t` seconds left, each of the next `t` interval firings takes off one second and the round stays running |
| Dashboard.CountdownEndsRound | src/app/dashboard/page.tsx:72-82 | with `t` seconds left on a running timer, the round is still running, with `t - k` seconds left, after `k <= t` runs of the effect, and is over with the timer stopped after `t + 1`. Those are `t` interval firings plus the effect run at zero that calls the timeout directly |
| DashboardScreen.DashboardPage.constructor | src/app/dashboard/page.tsx:44-64 | the page starts in the initial round |
| DashboardScreen.DashboardPage.SelectMode | src/app/dashboard/page.tsx:253-257 | a mode click performs `AfterSelectMode` |
| DashboardScreen.DashboardPage.HandleStartGame | src/app/dashboard/page.tsx:108-144 | `handleStartGame` performs `AfterStart` and sends the topic `ChooseTopic` gives |
| DashboardScreen.DashboardPage.StartRound | src/app/dashboard/page.tsx:111-143 | the reset, the generation and the end of loading, after the trim |
| DashboardScreen.DashboardPage.Generate | src/app/dashboard/page.tsx:124-140 | the `try`/`catch` of the start performs `Generated` and leaves the mode |
| DashboardScreen.DashboardPage.HandleSubmit | src/app/dashboard/page.tsx:147-188 | `handleSubmit` performs `AfterSubmit` and keeps the invariant |
| DashboardScreen.DashboardPage.Respond | src/app/dashboard/page.tsx:153-184 | the verifier call and what its answer or its throw sets is the judged state |
| DashboardScreen.DashboardPage.ResetForStart | src/app/dashboard/page.tsx:111-121 | the setters before the generator perform `StartReset` |
| DashboardScreen.DashboardPage.ClearContent | src/app/dashboard/page.tsx:204-211 | the content setters empty the slots and the answers |
| DashboardScreen.DashboardPage.ClearResults | src/app/dashboard/page.tsx:207-213 | the result setters zero the tally, reopen the round, clear the feedback and rewind the timer |
| DashboardScreen.DashboardPage.AwardAnswer | src/app/dashboard/page.tsx:167-177 | a correct, new answer is scored, and a logic round is solved |
| DashboardScreen.DashboardPage.ScoreAnswer | src/app/dashboard/page.tsx:167-170 | the points are added, the guess recorded and success shown |
| DashboardScreen.DashboardPage.SolvePuzzle | src/app/dashboard/page.tsx:173-177 | a solved logic round ends with the explanation as its solution |
| DashboardScreen.DashboardPage.HandleTimeout | src/app/dashboard/page.tsx:85-105 | `handleTimeout` performs `AfterTimeout` and keeps the invariant |
| DashboardScreen.DashboardPage.Reveal | src/app/dashboard/page.tsx:90-101 | the reveal sets the fetched differences or the puzzle's solution |
| DashboardScreen.DashboardPage.TimerEffect | src/app/dashboard/page.tsx:72-82 | one run of the effect performs `AfterTick` |
| DashboardScreen.DashboardPage.HandleGiveUp | src/app/dashboard/page.tsx:191-200 | `handleGiveUp` performs `AfterGiveUp` |
| DashboardScreen.DashboardPage.HandlePlayAgain | src/app/dashboard/page.tsx:203-214 | `handlePlayAgain` performs `AfterPlayAgain` |
| Classic.TogglesExclusive | code/components/GameScreen.tsx:175-185 | turning one listener on turns the other off, turning one off leaves the other alone, and the two are never on together; without speech support nothing changes |
| Classic.HeardFillsOneBox | code/components/GameScreen.tsx:165-169 | with the intended routing (`Heard`), a transcript lands only in the box whose listener is on now, and nowhere when both are off |
| Classic.ToggledOnBoxMissesTranscript | code/components/GameScreen.tsx:155-185 | as written (`HeardAsWritten`), a transcript heard after a microphone is switched on is routed as it would have been before the switch, so it never reaches the box just switched on |
| Classic.StaleRecognitionDropsTranscript | code/components/GameScreen.tsx:155-185 | as written, with both listeners off, a click on the prompt microphone and a non-empty transcript leave the screen unchanged, while the intended routing appends it to the prompt |
| Classic.FormatTimeSpec | code/components/GameScreen.tsx:151-153 | for 0 to 59 seconds the display is "00:SS": five characters, two digits after the colon, which read back as the seconds |
| Classic.OneDigitTime | code/components/GameScreen.tsx:152 | below ten the display is "00:0" and the digit |
| Classic.TwoDigitTime | code/components/GameScreen.tsx:152 | from ten on the display is "00:" and the two digits |
| Classic.StartKeepsScore | code/components/GameScreen.tsx:205-242 | unlike the dashboard, a start keeps the score and clears only found items, answers, guess, timer and feedback; a generation fills the slot and starts the timer exactly when it succeeds, and a failure leaves no content |
| Classic.SubmitScoring | code/components/GameScreen.tsx:244-282 | submit ignores a finished round, an empty box and a pending check; a correct, new guess adds the mode's points, is recorded and empties the guess box; any other outcome leaves tally, inputs and clock as they were |
| Classic.ThrownCheckIsSilent | code/components/GameScreen.tsx:276-278 | a verifier that throws leaves no feedback at all |
| Classic.SubmitKeepsInv | code/components/GameScreen.tsx:244-282 | submitting keeps the screen's invariant |
| Classic.LogicAnswerEndsRound | code/components/GameScreen.tsx:258-271 | a correct LOGIC answer adds 10, empties the guess box and ends the round with the cleaned explanation as the solution |
| Classic.TickCountsDown | code/components/GameScreen.tsx:104-114 | the timer counts down only while active and above zero, and times out at zero |
| Classic.TimeoutEndsRound | code/components/GameScreen.tsx:127-149 | a timeout ends the round, finishes revealing, opens the result panel, leaves the full view and keeps the tally and timer value |
| Classic.GiveUpEndsRound | code/components/GameScreen.tsx:284-292 | give up always ends the round and stops the timer; LOGIC shows the cleaned solution |
| Classic.PlayAgainKeepsTimer | code/components/GameScreen.tsx:294-308 | play again clears content, both boxes, tally and answers, but leaves the timer, its active flag and the feedback as they were |
| Classic.ModeLockedDuringRound | code/components/GameScreen.tsx:529-530 | the mode cannot change during a round with content; otherwise a click sets it and empties the prompt box |
| Classic.StepKeepsInv | code/components/GameScreen.tsx:104-308 | every handler keeps the invariant, including the listeners' exclusion |
| Classic.RunKeepsInv | code/components/GameScreen.tsx:104-308 | any run of events keeps the invariant |
| Classic.InitialInv | code/components/GameScreen.tsx:62-93 | the initial state satisfies the invariant |
| Classic.StepKeepsScore | code/components/GameScreen.tsx:205-308 | no event but play again lowers the score, a start included |
| Classic.ScoreCarriesOver | code/components/GameScreen.tsx:205-308 | in a run without play again the score never decreases, however many rounds start |
| Classic.StepAfterGameOver | code/components/GameScreen.tsx:104-292 | apart from start and play again, no event reopens a finished round or changes its tally |
| Classic.GameOverAbsorbing | code/components/GameScreen.tsx:104-292 | a finished round stays finished, with its tally, until a start or play again |
| ClassicScreen.GameScreen.constructor | code/components/GameScreen.tsx:62-101 | the screen starts in the initial state, with a fresh viewer at zoom 1 capped at 6 |
| ClassicScreen.GameScreen.StartGame | code/components/GameScreen.tsx:205-242 | `startGame` performs `AfterStart`, resets the viewer, and sends the topic `ChooseTopic` gives for the prompt box |
| ClassicScreen.GameScreen.ResetForStart | code/components/GameScreen.tsx:208-220 | the setters before the generator perform `StartReset` |
| ClassicScreen.GameScreen.Generate | code/components/GameScreen.tsx:223-241 | the `try` of the start performs `Generated` and sends a random theme for a blank image topic |
| ClassicScreen.GameScreen.HandleSubmit | code/components/GameScreen.tsx:244-282 | `handleSubmit` performs `AfterSubmit` and keeps the invariant |
| ClassicScreen.GameScreen.Respond | code/components/GameScreen.tsx:248-278 | the verifier call and what its answer sets is the judged state; a throw changes nothing |
| ClassicScreen.GameScreen.HandleTimeout | code/components/GameScreen.tsx:127-149 | `handleTimeout` performs `AfterTimeout` |
| ClassicScreen.GameScreen.TimerEffect | code/components/GameScreen.tsx:104-114 | one run of the effect performs `AfterTick` |
| ClassicScreen.GameScreen.HandleManualGiveUp | code/components/GameScreen.tsx:284-292 | `handleManualGiveUp` performs `AfterGiveUp` |
| ClassicScreen.GameScreen.HandlePlayAgain | code/components/GameScreen.tsx:294-308 | `handlePlayAgain` performs `AfterPlayAgain` and clears the viewer's hover flag |
| ClassicScreen.GameScreen.SelectMode | code/components/GameScreen.tsx:529-530 | a mode click performs `AfterSelectMode` |
| ClassicScreen.GameScreen.ToggleListeningPrompt | code/components/GameScreen.tsx:175-179 | performs `TogglePrompt` on the listeners; switching on starts the recognition object built under the flags held before the switch |
| ClassicScreen.GameScreen.ToggleListeningGuess | code/components/GameScreen.tsx:181-185 | performs `ToggleGuess` on the listeners; switching on starts the recognition object built under the flags held before the switch |
| ClassicScreen.GameScreen.RecognitionEnded | code/components/GameScreen.tsx:164 | both listeners off |
| ClassicScreen.GameScreen.RecognitionResult | code/components/GameScreen.tsx:165-169 | performs `HeardAsWritten`: the transcript is routed by the flags the started recognition object was built under |
| ClassicScreen.GameScreen.HandleEscape | code/components/GameScreen.tsx:117-125 | Escape closes the full view and changes nothing else |
| Viewer.ZoomedIn | src/components/dashboard/GameArea.tsx:211 | `Math.min(z + 0.5, cap)` is at most the cap and at most half a step up, and is one of the two |
| Viewer.ZoomedOut | src/components/dashboard/GameArea.tsx:219 | `Math.max(z - 0.5, 1)` is at least 1 and at least half a step down, and is one of the two |
| Viewer.HalfStepShift | src/components/dashboard/GameArea.tsx:211-219 | a half step up or down stays on the 0.5 grid |
| Viewer.ZoomButtonsKeepRange | code/components/GameScreen.tsx:411-497 | any number of button clicks keeps the zoom in [1, cap] on the 0.5 grid: [1, 4] inline, [1, 6] in the full view |
| Viewer.ZoomOutUndoesZoomIn | src/components/dashboard/GameArea.tsx:211-219 | below the cap, zooming out undoes zooming in |
| Viewer.ZoomInUndoesZoomOut | src/components/dashboard/GameArea.tsx:211-219 | above 1, zooming in undoes zooming out |
| Viewer.InlineZoomInCanLower | code/components/GameScreen.tsx:411-496 | the two screens of the classic view share one zoom, so after the full view passes 4 the inline zoom-in button lowers it to 4 |
| Viewer.MoveOnlyWhileDragging | src/components/dashboard/GameArea.tsx:49-54 | a move changes only the pan, and only during a drag |
| Viewer.NoPanAfterRelease | src/components/dashboard/GameArea.tsx:56-107 | after mouse up or mouse leave, no move pans until the next press |
| Viewer.DragPanFromLastMove | src/components/dashboard/GameArea.tsx:43-54 | during a drag the pan comes from the press and the last move alone, not accumulated |
| Viewer.HandlersKeepZoomInRange | src/components/dashboard/GameArea.tsx:43-219 | every viewer handler keeps the zoom in range; reset sets zoom 1 |
| Viewer.Overlay | src/components/dashboard/GameArea.tsx:127-131 | the overlay's top and left are ymin/10 and xmin/10 percent, and its bottom and right edges ymax/10 and xmax/10 |
| Viewer.OverlayRoundTrip | src/components/dashboard/GameArea.tsx:127-131 | the overlay determines the box it was drawn from |
| Viewer.OverlayWithinImage | src/components/dashboard/GameArea.tsx:127-131 | a box on the 0-1000 grid gives percentages in [0, 100] that end inside the image |
| Viewer.OverlaysShown | src/components/dashboard/GameArea.tsx:123-174 | overlays are shown exactly when the round is over, nothing is being revealed and the cursor is off the image |
| Viewer.Overlays | code/components/GameScreen.tsx:329-349 | one overlay per revealed difference, in order, when shown, and none otherwise |
| Viewer.PanZoom.constructor | src/components/dashboard/GameArea.tsx:33-38 | zoom 1, no pan, not dragging, not hovering |
| Viewer.PanZoom.HandleStart | src/components/dashboard/GameArea.tsx:43-47 | performs `Press` |
| Viewer.PanZoom.HandleMove | src/components/dashboard/GameArea.tsx:49-54 | performs `Move` |
| Viewer.PanZoom.HandleEnd | src/components/dashboard/GameArea.tsx:56-58 | performs `Release` |
| Viewer.PanZoom.MouseLeave | src/components/dashboard/GameArea.tsx:107 | performs `Leave` |
| Viewer.PanZoom.MouseEnter | src/components/dashboard/GameArea.tsx:108 | performs `Enter` |
| Viewer.PanZoom.ZoomInButton | src/components/dashboard/GameArea.tsx:211 | performs `ZoomIn` with the button's cap, and keeps the zoom in range |
| Viewer.PanZoom.ZoomOutButton | src/components/dashboard/GameArea.tsx:219 | performs `ZoomOut`, and keeps the zoom in range |
| Viewer.PanZoom.ClearHover | code/components/GameScreen.tsx:305 | clears the hover flag |
| Viewer.PanZoom.ResetZoom | src/components/dashboard/GameArea.tsx:60-63 | zoom 1 and pan (0, 0) |
| Response.SubmitCallSpec | src/components/dashboard/GameResponse.tsx:26-28 | a blank guess is never submitted; any other is submitted exactly as typed |
| Response.ButtonSubmits | src/components/dashboard/GameResponse.tsx:66-68 | the button is enabled exactly when no check is pending and the guess is not blank, and then it submits the guess |
| Response.KeyDownSpec | src/components/dashboard/GameResponse.tsx:34-38 | Enter does exactly what the submit handler does; no other key submits |
| Response.EnterBypassesChecking | src/components/dashboard/GameResponse.tsx:34-68 | while a check is pending the button is disabled but Enter still submits, and the page then ignores the call |
| Response.StaleFeedbackKeepsScoredGuess | src/components/dashboard/GameResponse.tsx:29-31 | as written, a correct first guess scores but stays in the box |
| Response.StaleFeedbackClearsWrongGuess | src/components/dashboard/GameResponse.tsx:29-31 | as written, a wrong guess that follows a scored one is emptied |
| Response.CorrectedClearsScoredGuess | src/components/dashboard/GameResponse.tsx:29-31 | with the corrected rule, the box is emptied exactly when its guess raised the score, and is otherwise kept |
| Response.ResponseBox.constructor | src/components/dashboard/GameResponse.tsx:19 | the box starts empty |
| Response.ResponseBox.HandleChange | src/components/dashboard/GameResponse.tsx:48 | typing sets the guess |
| Response.ResponseBox.HandleSubmit | src/components/dashboard/GameResponse.tsx:26-32 | returns the `onSubmit` call `SubmitCall` gives, and leaves the box as `AfterBoxSubmit` says |
| Response.ResponseBox.HandleKeyDown | src/components/dashboard/GameResponse.tsx:34-38 | the call and the box are `KeyDown`'s |
| Response.ResponseBox.HandleTranscript | src/components/dashboard/GameResponse.tsx:22-24 | the transcript is appended as `AppendTranscript` says |
| Lightbox.NextIndex | src/components/about-section.tsx:125 | `(i + 1) % n` stays in [0, n): the next card, or the first after the last |
| Lightbox.PrevIndex | src/components/about-section.tsx:124 | `(i - 1 + n) % n` stays in [0, n): the previous card, or the last before the first |
| Lightbox.StepsUndo | src/components/about-section.tsx:123-125 | next then previous, or previous then next, returns to the same card |
| Lightbox.StepsModulo | src/components/about-section.tsx:123-125 | `k` presses of next reach card `(i + k) mod n`, and `k` presses of previous reach card `(i - k) mod n` |
| Lightbox.NavigateSpec | src/components/about-section.tsx:120-128 | navigating without a selection changes nothing; with one it keeps the lightbox open on the next or previous existing card |
| Lightbox.ClickAndCloseSpec | src/components/about-section.tsx:110-118 | a card click opens the lightbox on that card; closing closes it with nothing selected; both keep "open exactly when selected" |
| Lightbox.NavigateUndo | src/components/about-section.tsx:120-128 | navigating away and back restores the selection |
| Lightbox.AboutLightbox.constructor | src/components/about-section.tsx:87-88 | nothing selected, closed |
| Lightbox.AboutLightbox.HandleCardClick | src/components/about-section.tsx:110-113 | performs `CardClicked` and keeps the invariant |
| Lightbox.AboutLightbox.HandleLightboxClose | src/components/about-section.tsx:115-118 | performs `Closed` |
| Lightbox.AboutLightbox.HandleNavigate | src/components/about-section.tsx:120-128 | performs `Navigated` and keeps the index among the 8 cards |
| SessionRecord.PointsPerItemSpec | src/app/actions/save-game-session.ts:33 | `pointsPerItem` is 10 for LOGIC, 1 for DIFF and 2 for WRONG, the points the round controllers award |
| SessionRecord.TotalPossibleSpec | src/app/actions/save-game-session.ts:41 | the number of differences when there are any; otherwise 1 for LOGIC and 0 for the image modes |
| SessionRecord.SessionOf | src/app/actions/save-game-session.ts:36-49 | the session row's found count is the number of found items, and it carries the user, mode, score and total possible |
| SessionRecord.DifferenceRowsSpec | src/app/actions/save-game-session.ts:52-61 | one row per difference, in order, copying id, description and box unchanged; reading the rows back gives the differences |
| SessionRecord.AnswerRowsSpec | src/app/actions/save-game-session.ts:64-72 | one row per found item, in order, each with the mode's points; the rows' texts are the found items |
| SessionRecord.SaveFailures | src/app/actions/save-game-session.ts:27-78 | without a user nothing is written and the result is "Unauthorized"; any throw gives "Failed to save game session"; with a user and no throw the save succeeds |
| SessionRecord.FailedSaveLeavesSession | src/app/actions/save-game-session.ts:36-72 | the inserts are not atomic: when the answers insert throws, the session row stays, without answers |
| SessionRecord.SavedRows | src/app/actions/save-game-session.ts:36-74 | a saved game has one session row, whose found count equals the number of answer rows, one per found item with the mode's points, and one row per revealed difference |

## Left out

- Network and service calls, left out because they are I/O: the AI generators, the verifiers, the answer fetches, sign-in and the database inserts. Their results are parameters.
- Asynchrony and React batching: each handler runs to completion before the next, and a setter's value is visible at once. Left out because races, such as a give-up during a pending reveal, are concurrency.
- The dashboard's `checking` and `loading` flags are therefore always false between handlers.
- A `Tick` is one run of the timer effect: an interval firing while the timer is above zero, or, at zero, the run that calls the timeout directly without a further firing. Wall-clock time between runs is not modelled.
- Pan arithmetic divides by the zoom in exact reals. Floating-point rounding is left out, and so is the CSS transform it drives.
- `alert`, `console.error`, the speech-recognition object and its `start`/`stop`, the page layout and animations are left out: they are rendering or browser glue. Only their effect on state is kept: no state change for the alert, the listeners' flags for voice.
- The classic screen's open and close buttons for the full view and result panel (`setIsFullView(true)`, minimize, expand/collapse) are left out. They are single setters with no logic; only Escape and the handlers that close them are modelled.
- The dashboard's `handlePlayAgain` is modelled, though it cannot be reached from the UI. The page passes it to `GameArea` as `onPlayAgain`, but `GameArea`'s props declare neither `onPlayAgain` nor `logicSolution`, and it never uses either.
- `saveGameSession` is modelled standalone: no shown file calls it.
- Response.ResponseBox: the box is unmounted once the round is over and remounted empty. The mount lifecycle is left out, because it is React's.
- The classic screen's 21 state hooks are grouped into records by concern. The model keeps every value and every setter, but not one field per hook.
- ClassicScreen.GameScreen.StartGame: the trimmed subject is computed before the setters run, as in the source.
- Classic.HeardFillsOneBox: states the intended routing by the current listener flags, not what the code does. As written, `onresult` reads the flags of the render that built the started recognition object, that is the flags before the toggle. `Classic.HeardAsWritten`, `ClassicScreen.GameScreen.RecognitionResult` and the trace's `Transcript` event follow the code as written.
- ClassicScreen.GameScreen.RecognitionResult: which recognition object delivers a result is simplified to the last one started. Two objects running at once, when a second microphone is clicked while the first listens, are not modelled.
- Lightbox: the card count is the constant 8, the length of the `infographics` list. Its images and texts are left out.
- The keyboard handling inside `image-lightbox.tsx` (arrows and Escape) is not part of this model. It calls the same three handlers.

## Findings

| source | as written | input that shows it | evidently intended | confidence | as-written member | corrected member |
|---|---|---|---|---|---|---|
| src/components/dashboard/GameResponse.tsx:29-31 | After calling `onSubmit(guess)`, the box empties itself if the `feedback` prop is a success. That prop was rendered before the click, so it reflects the previous guess; the page's handler is asynchronous and has not answered yet. | A running DIFF round with no feedback. The player submits "cat" and the verifier answers correct: the score becomes 1 and "cat" stays in the box. The player then types "dog", which is wrong: the box is emptied, because the success shown was for "cat". | Empty the box when the guess just submitted was scored. | high; not executed | Response.StaleFeedbackKeepsScoredGuess, Response.StaleFeedbackClearsWrongGuess (on `Response.SubmitAsWritten`) | Response.CorrectedClearsScoredGuess (on `Response.SubmitCorrected`) |
| code/components/GameScreen.tsx:155-185 | The effect that builds the speech-recognition object re-runs whenever a listener flag changes, and the object's `onresult` reads the flags of the render that built it. A microphone toggle sets the new flags but calls `start()` on the object already in the ref, built under the old flags. | Both listeners off. The player clicks the prompt microphone and says "forest". The started object sees both flags false, so "forest" is dropped and the prompt box stays as it was. | Route the transcript to the box whose listener is now on. | high; not executed | Classic.StaleRecognitionDropsTranscript, Classic.ToggledOnBoxMissesTranscript (on `Classic.HeardAsWritten`, performed by `ClassicScreen.GameScreen.RecognitionResult`) | Classic.HeardFillsOneBox (on `Classic.Heard`) |
