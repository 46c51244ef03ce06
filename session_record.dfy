/** The record a finished game is saved as
    (`src/app/actions/save-game-session.ts`): one session row, one row per
    revealed difference and one row per found answer, derived from what the
    page passes in. The database and the sign-in service are inputs: the
    signed-in user (if any), the id the session insert returns, the time,
    and which call throws, if one does. */
module SessionRecord {
  import opened Text
  import opened GameTypes

  datatype Completion = TimedOut | Completed | GivenUp

  /** `SaveGameSessionParams`; a missing optional field is `None`. */
  datatype SaveParams = SaveParams(
    mode: GameMode,
    subject: string,
    score: int,
    foundItems: seq<string>,
    timeRemaining: int,
    completion: Completion,
    logicQuestion: Option<string>,
    logicSolution: Option<string>,
    logicTitle: Option<string>,
    differences: Option<seq<Difference>>)

  /** A `game_sessions` row (its own id is the one the insert returns). */
  datatype SessionRow = SessionRow(
    userId: string,
    mode: GameMode,
    subject: string,
    score: int,
    totalPossible: int,
    foundCount: int,
    endedAt: int,
    timeRemaining: int,
    completion: Completion,
    logicQuestion: Option<string>,
    logicSolution: Option<string>,
    logicTitle: Option<string>)

  /** A `game_differences` row. */
  datatype DifferenceRow = DifferenceRow(sessionId: int, differenceId: int, description: string, box: Box)

  /** A `user_answers` row. */
  datatype AnswerRow = AnswerRow(sessionId: int, answerText: string, pointsAwarded: int)

  /** `pointsPerItem`: what each found item was worth. */
  function PointsPerItem(mode: GameMode): int {
    if mode == Logic then 10 else if mode == Diff then 1 else 2
  }

  /** The saved points per item are the points the round controllers award. */
  lemma PointsPerItemSpec(mode: GameMode)
    ensures PointsPerItem(mode) == PointsFor(mode)
    ensures mode == Logic ==> PointsPerItem(mode) == 10
    ensures mode == Diff ==> PointsPerItem(mode) == 1
    ensures mode == Wrong ==> PointsPerItem(mode) == 2
  {
  }

  /** `totalPossible`: `differences?.length || (LOGIC ? 1 : 0)`. */
  function TotalPossible(p: SaveParams): int {
    var n := if p.differences.Some? then |p.differences.value| else 0;
    if n != 0 then n else if p.mode == Logic then 1 else 0
  }

  /** The number of revealed differences when there are any; otherwise one
      for a logic puzzle and none for an image round. */
  lemma TotalPossibleSpec(p: SaveParams)
    ensures p.differences.Some? && p.differences.value != [] ==> TotalPossible(p) == |p.differences.value|
    ensures (p.differences.None? || p.differences.value == []) && p.mode == Logic ==> TotalPossible(p) == 1
    ensures (p.differences.None? || p.differences.value == []) && p.mode != Logic ==> TotalPossible(p) == 0
    ensures TotalPossible(p) >= 0
  {
  }

  /** The session row for user `userId`, ended at `now`. */
  function SessionOf(p: SaveParams, userId: string, now: int): (row: SessionRow)
    ensures row.foundCount == |p.foundItems| && row.totalPossible == TotalPossible(p)
    ensures row.userId == userId && row.score == p.score && row.mode == p.mode
  {
    SessionRow(userId, p.mode, p.subject, p.score, TotalPossible(p), |p.foundItems|, now,
               p.timeRemaining, p.completion, p.logicQuestion, p.logicSolution, p.logicTitle)
  }

  /** `differences.map(...)`: one row per difference, in order. */
  function DifferenceRows(sessionId: int, ds: seq<Difference>): seq<DifferenceRow>
    decreases |ds|
  {
    if ds == [] then []
    else [DifferenceRow(sessionId, ds[0].id, ds[0].description, ds[0].box)] + DifferenceRows(sessionId, ds[1..])
  }

  /** The differences read back from their rows. */
  function DifferencesOf(rows: seq<DifferenceRow>): seq<Difference>
    decreases |rows|
  {
    if rows == [] then [] else [Difference(rows[0].differenceId, rows[0].description, rows[0].box)] + DifferencesOf(rows[1..])
  }

  /** One row per difference, in order, each in the session, copying the
      id, description and box unchanged: reading the rows back gives the
      differences. */
  lemma {:induction false} DifferenceRowsSpec(sessionId: int, ds: seq<Difference>)
    ensures |DifferenceRows(sessionId, ds)| == |ds|
    ensures forall i :: 0 <= i < |ds| ==> DifferenceRows(sessionId, ds)[i] == DifferenceRow(sessionId, ds[i].id, ds[i].description, ds[i].box)
    ensures DifferencesOf(DifferenceRows(sessionId, ds)) == ds
    decreases |ds|
  {
    if ds != [] {
      DifferenceRowsSpec(sessionId, ds[1..]);
      var rows := DifferenceRows(sessionId, ds);
      assert rows[1..] == DifferenceRows(sessionId, ds[1..]);
      assert ds == [ds[0]] + ds[1..];
    }
  }

  /** `foundItems.map(...)`: one row per found item, in order. */
  function AnswerRows(sessionId: int, items: seq<string>, points: int): seq<AnswerRow>
    decreases |items|
  {
    if items == [] then [] else [AnswerRow(sessionId, items[0], points)] + AnswerRows(sessionId, items[1..], points)
  }

  /** The answer texts of rows. */
  function AnswerTexts(rows: seq<AnswerRow>): seq<string>
    decreases |rows|
  {
    if rows == [] then [] else [rows[0].answerText] + AnswerTexts(rows[1..])
  }

  /** One row per found item, in order, each in the session and awarded
      the mode's points: the rows' texts are the found items. */
  lemma {:induction false} AnswerRowsSpec(sessionId: int, items: seq<string>, points: int)
    ensures |AnswerRows(sessionId, items, points)| == |items|
    ensures forall i :: 0 <= i < |items| ==> AnswerRows(sessionId, items, points)[i] == AnswerRow(sessionId, items[i], points)
    ensures AnswerTexts(AnswerRows(sessionId, items, points)) == items
    decreases |items|
  {
    if items != [] {
      AnswerRowsSpec(sessionId, items[1..], points);
      var rows := AnswerRows(sessionId, items, points);
      assert rows[1..] == AnswerRows(sessionId, items[1..], points);
      assert items == [items[0]] + items[1..];
    }
  }

  // ---------------------------------------------------------------------
  // saving
  // ---------------------------------------------------------------------

  /** The call that throws, if one does: the sign-in lookup or one of the
      three inserts. A call that is not made cannot throw. */
  datatype Fault = NoFault | AuthThrows | SessionInsertThrows | DifferencesInsertThrows | AnswersInsertThrows

  /** What the action returns. */
  datatype SaveResult = Saved(sessionId: int) | NotSaved(error: string)

  const Unauthorized := "Unauthorized"
  const SaveFailed := "Failed to save game session"

  /** The rows written, in the order of the inserts. */
  datatype Written = Written(sessions: seq<SessionRow>, differences: seq<DifferenceRow>, answers: seq<AnswerRow>)

  const NothingWritten := Written([], [], [])

  /** `saveGameSession(params)`: the rows it writes and what it returns.
      Without a user nothing is written; the inserts are not in a
      transaction, so a throw leaves the rows written before it. */
  function SaveGameSession(p: SaveParams, user: Option<string>, sessionId: int, now: int, fault: Fault): (Written, SaveResult) {
    if fault == AuthThrows then (NothingWritten, NotSaved(SaveFailed))
    else if user.None? then (NothingWritten, NotSaved(Unauthorized))
    else if fault == SessionInsertThrows then (NothingWritten, NotSaved(SaveFailed))
    else
      var session := [SessionOf(p, user.value, now)];
      var diffs := if p.differences.Some? && |p.differences.value| > 0
                   then DifferenceRows(sessionId, p.differences.value) else [];
      if diffs != [] && fault == DifferencesInsertThrows then (Written(session, [], []), NotSaved(SaveFailed))
      else
        var answers := if |p.foundItems| > 0 then AnswerRows(sessionId, p.foundItems, PointsPerItem(p.mode)) else [];
        if answers != [] && fault == AnswersInsertThrows then (Written(session, diffs, []), NotSaved(SaveFailed))
        else (Written(session, diffs, answers), Saved(sessionId))
  }

  /** Without a signed-in user nothing is written and the result is
      "Unauthorized"; a throw gives "Failed to save game session". */
  lemma SaveFailures(p: SaveParams, user: Option<string>, sessionId: int, now: int, fault: Fault)
    ensures user.None? ==> SaveGameSession(p, user, sessionId, now, fault).0 == NothingWritten
    ensures user.None? && fault != AuthThrows ==> SaveGameSession(p, user, sessionId, now, fault).1 == NotSaved(Unauthorized)
    ensures SaveGameSession(p, user, sessionId, now, fault).1.NotSaved? && user.Some? ==>
      SaveGameSession(p, user, sessionId, now, fault).1 == NotSaved(SaveFailed)
    ensures fault == NoFault && user.Some? ==> SaveGameSession(p, user, sessionId, now, fault).1 == Saved(sessionId)
  {
  }

  /** The inserts are not atomic: when the answers insert throws, the
      session row (and the difference rows) written before it stay, with
      no answer rows, although the save reports failure. */
  lemma FailedSaveLeavesSession(p: SaveParams, userId: string, sessionId: int, now: int)
    requires p.foundItems != []
    ensures var (w, res) := SaveGameSession(p, Some(userId), sessionId, now, AnswersInsertThrows);
      && res == NotSaved(SaveFailed) && w.sessions == [SessionOf(p, userId, now)] && w.answers == []
  {
    AnswerRowsSpec(sessionId, p.foundItems, PointsPerItem(p.mode));
  }

  /** A saved game has exactly one session row, whose found count is the
      number of answer rows, one per found item with the mode's points,
      and one row per revealed difference. */
  lemma SavedRows(p: SaveParams, user: Option<string>, sessionId: int, now: int, fault: Fault)
    requires SaveGameSession(p, user, sessionId, now, fault).1.Saved?
    ensures var w := SaveGameSession(p, user, sessionId, now, fault).0;
      && user.Some? && |w.sessions| == 1 && w.sessions[0] == SessionOf(p, user.value, now)
      && |w.answers| == w.sessions[0].foundCount
      && AnswerTexts(w.answers) == p.foundItems
      && (forall i :: 0 <= i < |w.answers| ==> w.answers[i].pointsAwarded == PointsFor(p.mode) && w.answers[i].sessionId == sessionId)
      && DifferencesOf(w.differences) == (if p.differences.Some? then p.differences.value else [])
  {
    AnswerRowsSpec(sessionId, p.foundItems, PointsPerItem(p.mode));
    if p.differences.Some? {
      DifferenceRowsSpec(sessionId, p.differences.value);
    }
  }
}
