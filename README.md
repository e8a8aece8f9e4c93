# Rechtzaak — a Dafny model of the courtroom simulator's core

Rechtzaak is a web application for law students. A student opens a legal case and argues it against three AI personas: a judge, a prosecutor and the student's own role as defendant. The page scores the hearing when it ends. Teachers and admins manage users and cases. This project models the parts of the application that decide what happens:

- **Middleware** (`AuthMiddleware`, auth.dfy). It extracts the bearer token and verifies it (token verification is a parameter). `requireRole` answers 401/403.
- **Database** (`Db`, db.dfy). The users and legal_cases tables are modelled as maps from id to row. The other two tables, user_progress and achievements, are modelled in progress.dfy as maps keyed by (user, case) and by (user, badge type). The schema's NOT NULL, UNIQUE and DEFAULT clauses are modelled. `UPDATE … WHERE id = ?` and `INSERT` follow SQLite's semantics. A `Database` class holds the tables and is updated in place.
- **Case routes** (`CaseRoutes`, case_routes.dfy): `GET /cases/:id`, the chat proxy to the language model (a completion is an input), and `POST`, `PUT` and `DELETE /cases`.
- **Admin routes** (`AdminRoutes`, admin_routes.dfy): the partial `PUT`s that build their SET clause field by field, user creation, soft deletion, password reset and case management.
- **Progress routes** (`Progress`, progress.dfy): start, update and complete a case. Achievements are badge rows inserted with `INSERT OR IGNORE`. The `ProgressStore` class holds the rows.
- **Courtroom page** (`Courtroom`, courtroom.dfy, and `Conversation`, conversation.dfy):
  - the prompt each persona is sent;
  - the turn rules of the hearing, where the delayed callbacks are a queue of pending steps and `Math.random()` is a parameter;
  - the score, the feedback band and the mm:ss timer.
  
  The page's globals are the fields of the `Session` class.
- **Runs of the courtroom page** (`PageRuns` and `HearingRuns`, runs.dfy): a run applies a list of allowed steps from a state. The page's turn rules never read the history, so runs are compared without it. Concrete runs from a freshly loaded case show that the judge can intervene four times and that the closing can be queued twice.
- **Browser pages** (`AuthClient`, auth_client.dfy, and `AdminClient`, admin_client.dfy):
  - login, registration, logout, `checkAuth` and the headers sent, with localStorage as a map;
  - the admin page's role gate, the student search and the case form.
  
  Server replies are inputs.
- **Helpers**: `Js` (JavaScript values, truthiness, `JSON.stringify`), `Text` (trim, split/join, lower-casing, number printing) and `Wrappers` (Option).

JavaScript details are written out where the code depends on them:

- `||` versus destructuring defaults;
- `!token` is true for both null and "";
- the template literal turns a missing token into `"Bearer null"`;
- `%` takes the sign of the dividend;
- `.toLowerCase()` on a null field throws.

Where the documentation and the code differ, the model follows the code:

- `endCase` finishes the case but leaves the phase as it is.
- An `UPDATE` of an id that does not exist reports success.
- `handleRegister`'s separate test for an empty key is subsumed by its `sk-` prefix test.

## Model

| member | source | states |
|---|---|---|
| AuthMiddleware.BearerToken | middleware/auth.js:10-11 | the token is non-empty and has no spaces; a missing or empty header gives none |
| AuthMiddleware.AuthenticateToken | middleware/auth.js:5-28 | next() is reached iff a token is present and verifies, with req.user the verified claims; 401 iff there is no token, otherwise 403 |
| AuthMiddleware.RequireRole | middleware/auth.js:30-41 | next() iff a user is set and their role is listed; 401 iff no user, 403 for an unlisted role |
| AuthMiddleware.GuardedReachesHandler | middleware/auth.js:5-41 | both middlewares in sequence reach the handler exactly when the token verifies to a listed role |
| AuthMiddleware.BearerHeaderRoundTrip | middleware/auth.js:11 | the header `Bearer t` gives `t` back for any non-empty token without spaces |
| AuthMiddleware.BearerTokenStopsAtSpace | middleware/auth.js:11 | a token containing a space is cut to its first word |
| Db.ColumnsOf | database/db.js:23-80 | the columns of an assignment list, position by position |
| Db.Assigned | database/db.js:23-80 | an UPDATE's SET clause adds exactly the assigned columns and keeps every other column |
| Db.AssignedValue | database/db.js:23-80 | an assignment that no later assignment overrides is the value the column ends with |
| Db.WithRows | database/db.js:23-80 | replacing one table's rows leaves the other table and both id counters alone |
| Db.Updated | routes/admin.js:211-221 | an UPDATE of a missing id succeeds and changes nothing; a failed one changes nothing; a successful one stores the assigned row, which meets NOT NULL and UNIQUE |
| Db.UpdatedTo | routes/cases.js:148-158 | an UPDATE of an existing row whose new contents meet the constraints stores exactly those contents |
| Db.UpdatedRefused | routes/cases.js:148-158 | an UPDATE of an existing row whose new contents break a constraint fails and writes nothing |
| Db.Inserted | database/db.js:23-51 | an INSERT stores the named columns over the DEFAULTs under the next AUTOINCREMENT id, or fails and changes nothing |
| Db.Stored | database/db.js:23-51 | storing a row puts it under the next id, advances that counter only, and leaves the other table alone |
| Db.StoringAdmissibleKeepsValid | database/db.js:26-31 | storing a row that meets the constraints keeps every other row within them |
| Db.UpdatedKeepsConsistent | database/db.js:23-51 | an UPDATE keeps a consistent database consistent |
| Db.InsertedKeepsConsistent | database/db.js:23-51 | an INSERT keeps the database consistent and never reuses an id |
| Db.SettingColumnSucceeds | routes/admin.js:274-281 | setting one column that is not UNIQUE to a non-NULL value always succeeds and changes only that cell |
| Db.Zip | routes/admin.js:211 | the SET columns paired with the values bound in order |
| Db.Written | routes/admin.js:211-221 | db.run's callback reports success exactly when the statement succeeded, and keeps the resulting state |
| Db.PushAligned | routes/admin.js:177-209 | pushing a column and its value side by side extends the assignment list by that assignment |
| Db.ZipAligned | routes/admin.js:209-211 | with the WHERE id appended to the values, the bound assignments are exactly the pushed ones |
| Db.Database.constructor | database/db.js:13-22 | the database holds the given tables |
| Db.Database.Find | routes/cases.js:34-38 | `SELECT … WHERE id = ?` gives the row under that id, or none |
| Db.Database.FindBy | routes/admin.js:233-240 | `SELECT id … WHERE c = ?` finds a row holding the value exactly when one exists |
| Db.Database.Execute | routes/admin.js:211-221 | running an UPDATE changes the tables as Db.Updated says and reports its success |
| Db.Database.Insert | routes/cases.js:110-131 | running an INSERT changes the tables as Db.Inserted says and returns the new id |
| Text.TrimStart | frontend/js/rechtszaal.js:274 | drops exactly the leading white space |
| Text.TrimEnd | frontend/js/rechtszaal.js:274 | drops exactly the trailing white space |
| Text.Trim | frontend/js/rechtszaal.js:274 | a contiguous piece of the input, empty iff the input is blank, with no white space at either end |
| Text.TrimmedAwayIsBlank | frontend/js/rechtszaal.js:274-275 | a string that trims to "" is blank |
| Text.ToLower | frontend/js/admin.js:105-110 | same length; each character lower-cased on its own |
| Text.Split | middleware/auth.js:11 | splitting always gives at least one piece |
| Text.SplitPiecesLackSeparator | routes/cases.js:105 | no piece of a split contains the separator |
| Text.SplitWithoutSeparator | middleware/auth.js:11 | a string without the separator splits into itself |
| Text.SplitAtFirstSeparator | middleware/auth.js:11 | splitting cuts at the first separator and continues on the rest |
| Text.SplitJoin | frontend/js/admin.js:273 | joining pieces that lack the separator and splitting again gives the pieces back |
| Text.JoinSplit | frontend/js/admin.js:296 | splitting and joining again on the same character gives the string back |
| Text.KeepNonBlank | frontend/js/admin.js:296 | `.filter(e => e.trim())` keeps no blank line and never adds one |
| Text.KeepNonBlankIsOrderedFilter | routes/cases.js:105 | the filter keeps the lines in order and keeps every non-blank one |
| Text.KeepNonBlankOfNonBlank | routes/cases.js:105 | the filter keeps a list with no blank line unchanged |
| Text.NonBlankLinesOfJoin | frontend/js/admin.js:273-296 | items without newlines or blanks, joined by newlines, split back into themselves |
| Text.NonBlankLinesShape | routes/cases.js:105 | no line the filter yields is blank or holds a newline |
| Text.SubsequenceMembers | routes/cases.js:105 | every element of an ordered sub-list occurs in the list |
| Text.NatToString | frontend/js/rechtszaal.js:123 | a whole number prints as one or more digits |
| Text.NatToStringValue | frontend/js/rechtszaal.js:123 | the printed digits read back as the number |
| Text.PadTwo | frontend/js/rechtszaal.js:123 | `padStart(2, '0')` leaves strings of length 2 or more alone and left-pads shorter ones to length 2 |
| Text.LeadingZeroKeepsValue | frontend/js/rechtszaal.js:123 | a leading zero does not change the number the digits denote |
| Courtroom.SpeakersAreTellable | frontend/js/rechtszaal.js:245-251 | no persona's name contains 'JIJ' and the student's speaker does, so the scorer counts exactly the student's turns |
| Courtroom.TranscriptLinesAppend | frontend/js/rechtszaal.js:165-171 | one more turn adds exactly its `speaker: message` line at the end of the transcript |
| Courtroom.AppendTranscriptLines | frontend/js/rechtszaal.js:166-170 | the history loop appends every turn's line, in order |
| Courtroom.AppendTranscriptBlock | frontend/js/rechtszaal.js:165-171 | the heading, the lines and an empty line are appended only when there is history |
| Courtroom.BuildPrompt | frontend/js/rechtszaal.js:161-179 | the prompt built by successive `+=` is the case header, transcript, situation, quote and instruction in that order |
| Courtroom.AppendParts | frontend/js/rechtszaal.js:161-179 | a concatenation splits back into its two parts |
| Courtroom.AppendAssoc | frontend/js/rechtszaal.js:161-179 | the order of string appends does not change the prompt |
| Courtroom.PrefixSurvivesAppend | frontend/js/rechtszaal.js:161-179 | text already in the prompt stays its prefix after further appends |
| Courtroom.PromptFrame | frontend/js/rechtszaal.js:161-179 | every prompt opens with the case title and ends with the persona's behavioural instruction |
| Courtroom.TranscriptBlockGrows | frontend/js/rechtszaal.js:165-171 | after a new turn the history block is the old lines plus that turn's line |
| Courtroom.Score | frontend/js/rechtszaal.js:427-454 | the score lies in 50..100; it is 100 iff the raw sum reaches 100, otherwise it is the raw sum |
| Courtroom.EngagementFollowsAverage | frontend/js/rechtszaal.js:444-450 | the integer brackets agree with the real average message length |
| Courtroom.ScoreCapIsReached | frontend/js/rechtszaal.js:432-453 | the raw score never exceeds 105, reached only by 300..599 s, at least 5 turns and an average above 100 |
| Courtroom.ParticipationIsMonotone | frontend/js/rechtszaal.js:438-441 | more student turns never lower the participation bonus |
| Courtroom.StudentTurns | frontend/js/rechtszaal.js:438-445 | only turns whose speaker contains 'JIJ' are selected |
| Courtroom.StudentTurnsAppend | frontend/js/rechtszaal.js:438-445 | the selection of a longer history is the old selection plus the new turn if it is the student's |
| Courtroom.TotalLengthAppend | frontend/js/rechtszaal.js:445-446 | a new turn adds its message length to the total |
| Courtroom.PersonaTurnsDoNotScore | frontend/js/rechtszaal.js:438-445 | a persona's reply never counts towards participation or engagement |
| Courtroom.StudentTurnScores | frontend/js/rechtszaal.js:438-446 | a student turn counts once more, with its length added |
| Courtroom.CalculateScore | frontend/js/rechtszaal.js:427-454 | the loop's score is the score of the student's turns and their total length, within 50..100 |
| Courtroom.ScoreFeedback | frontend/js/rechtszaal.js:478-490 | the best band iff the score is at least 90, the worst iff it is below 60 |
| Courtroom.FeedbackIsMonotone | frontend/js/rechtszaal.js:478-490 | a higher score never earns a worse band |
| Courtroom.UpdateTimer | frontend/js/rechtszaal.js:115-124 | nothing is written before the start |
| Courtroom.PaddedValue | frontend/js/rechtszaal.js:123 | a padded number is all digits and reads back as the number |
| Courtroom.TimerTextRoundTrip | frontend/js/rechtszaal.js:115-136 | the mm:ss text reads back as the elapsed seconds, with the colon before two seconds digits |
| Conversation.Removed | frontend/js/rechtszaal.js:256-308 | a fired callback leaves the queue one shorter |
| Conversation.RequestOf | frontend/js/rechtszaal.js:256-331 | exactly the persona callbacks send a chat request, from the persona the callback names |
| Conversation.SendCases | frontend/js/rechtszaal.js:270-276 | sendMessage acts exactly for the defendant with a non-blank input, on the trimmed text |
| Conversation.Spoken | frontend/js/rechtszaal.js:212-229 | a persona step appends at most one turn |
| Conversation.ApplyReplyHistory | frontend/js/rechtszaal.js:212-229 | the history after a reply is the old one plus the reply, or unchanged on failure |
| Conversation.FireHistory | frontend/js/rechtszaal.js:256-331 | firing a callback adds at most the persona's reply to the history |
| Conversation.StartHistory | frontend/js/rechtszaal.js:139-153 | starting appends at most one turn |
| Conversation.SendHistory | frontend/js/rechtszaal.js:270-313 | sending appends at most one turn |
| Conversation.FireGrowsHistory | frontend/js/rechtszaal.js:256-331 | a fired callback appends at most one turn |
| Conversation.HistoryIsAppendOnly | frontend/js/rechtszaal.js:139-424 | no step edits or removes an earlier turn, and each step adds at most one |
| Conversation.FailedReplyReenablesInput | frontend/js/rechtszaal.js:224-229 | a failed chat call records nothing and schedules the input's re-enabling |
| Conversation.SuccessfulReplyIsRecorded | frontend/js/rechtszaal.js:212-267 | a reply is recorded under the persona's name; in 'active' the input is re-enabled; the judge's opening makes the phase 'active' |
| Conversation.StudentInputRules | frontend/js/rechtszaal.js:270-313 | input from another caller or blank input changes nothing; otherwise the trimmed message is recorded and the input disabled |
| Conversation.CountJudgeAppend | frontend/js/rechtszaal.js:292-297 | the queued judge follow-ups of two queues add up |
| Conversation.CountClosingAppend | frontend/js/rechtszaal.js:307-310 | the queued closings of two queues add up |
| Conversation.CountJudgeRemoved | frontend/js/rechtszaal.js:293-296 | firing a callback removes its judge weight from the queue's count |
| Conversation.TurnRule | frontend/js/rechtszaal.js:290-310 | after a student message the judge is queued iff (r < 0.4 or fewer than 2 interventions) and fewer than 3; otherwise the prosecutor; the closing is queued once enough evidence is shown |
| Conversation.ApplyReplyKeepsJudgeCount | frontend/js/rechtszaal.js:212-229 | a reply neither makes nor queues a judge intervention |
| Conversation.FireMovesJudgeCount | frontend/js/rechtszaal.js:293-296 | firing a queued judge follow-up moves it from the queue to the interventions made |
| Conversation.BeforeRequestJudgeCount | frontend/js/rechtszaal.js:293-296 | the increment happens before the request, exactly for a judge follow-up |
| Conversation.AfterReplyJudgeCount | frontend/js/rechtszaal.js:322-329 | what follows a reply leaves the judge count alone |
| Conversation.JudgeBudgetIsKept | frontend/js/rechtszaal.js:290-297 | every step keeps interventions made plus queued within 3, provided the student does not send while a judge follow-up is queued |
| Conversation.JudgeBudgetBoundsInterventions | frontend/js/rechtszaal.js:292 | within the budget the judge intervenes at most 3 times |
| Conversation.LoadedIsWithinBudget | frontend/js/rechtszaal.js:63-68 | a freshly loaded case starts in the budget, not started, with an empty history |
| Conversation.LettersAreNotBlank | frontend/js/rechtszaal.js:274-275 | one-letter messages are not blank and trim to themselves |
| PageRuns.RunAppend | frontend/js/rechtszaal.js:139-331 | running two lists of page steps one after the other is running their concatenation |
| PageRuns.NextIgnoresHistory | frontend/js/rechtszaal.js:139-331 | a step allowed in one state is allowed in every state that differs only in its history and final score, and leads to states that again differ only there: the page's turns never read the history |
| PageRuns.RunFromIgnoresHistory | frontend/js/rechtszaal.js:139-331 | the same for whole runs: two such states run the same steps to states that differ only in history and score, or both stop |
| PageRuns.RunsChain | frontend/js/rechtszaal.js:139-331 | two runs whose ends match up to history chain into one run of the concatenated steps |
| PageRuns.SendsLetter | frontend/js/rechtszaal.js:270-278 | a one-letter message sent while the input is enabled is posted as it is |
| HearingRuns.LoadedWithOnePiece | frontend/js/rechtszaal.js:63-68 | a loaded case with one piece of evidence gives the fresh page state with totalEvidence 1 |
| HearingRuns.OpeningGivesTheStudentTheFloor | frontend/js/rechtszaal.js:139-267 | the judge's opening, the prosecutor's opening it queues and the re-enabling that follows leave the hearing active with the input enabled and nothing queued |
| HearingRuns.FirstJudgeRoundCountsAnIntervention | frontend/js/rechtszaal.js:290-297 | with no interventions yet a message queues the judge, whose answer counts one intervention and gives the floor back |
| HearingRuns.SecondJudgeRoundCountsAnIntervention | frontend/js/rechtszaal.js:290-297 | with one intervention a message again queues the judge, bringing the count to 2 |
| HearingRuns.ProsecutorRoundPresentsEvidence | frontend/js/rechtszaal.js:299-311 | with two interventions and r = 0.5 the prosecutor answers and one piece of evidence counts as presented |
| HearingRuns.ProsecutorTurnQueuesTheClosing | frontend/js/rechtszaal.js:299-311 | once the evidence shown reaches min(4, totalEvidence) a prosecutor turn also queues the closing |
| HearingRuns.SecondProsecutorTurnQueuesAnotherClosing | frontend/js/rechtszaal.js:299-311 | a message sent with the closing still queued queues a second closing behind a new prosecutor turn |
| HearingRuns.SecondProsecutorAnswerPresentsEvidence | frontend/js/rechtszaal.js:299-303 | that prosecutor turn counts a third piece of evidence |
| HearingRuns.FailedClosingQueuesTwoReenablings | frontend/js/rechtszaal.js:224-331 | a closing whose request fails queues a re-enabling of the input before the verdict |
| HearingRuns.SecondReenablingOverlapsTheJudge | frontend/js/rechtszaal.js:224-297 | a message sent in the closing phase queues the judge while the verdict is pending, and the input is enabled again before the judge answers |
| HearingRuns.JudgeAnswersBothMessages | frontend/js/rechtszaal.js:290-297 | two judge follow-ups queued at 2 and 3 interventions both fire and bring the count to 4 |
| HearingRuns.HearingReachesTheClosingTurn | frontend/js/rechtszaal.js:139-311 | from a freshly loaded case with one piece of evidence, opening, two judge rounds and a prosecutor round give the student the floor with 2 interventions and all evidence shown |
| HearingRuns.JudgeCanExceedThreeWhenInputOverlaps | frontend/js/rechtszaal.js:139-331 | from a freshly loaded case, a run of allowed steps (every message sent while the input is enabled) reaches a fourth judge intervention, outside the budget |
| HearingRuns.ClosingCanBeScheduledTwice | frontend/js/rechtszaal.js:299-311 | from a freshly loaded case, a run of allowed steps has two closings queued at once |
| HearingRuns.EvidenceCountCanPassTheEvidence | frontend/js/rechtszaal.js:299-307 | from a freshly loaded case, a run of allowed steps counts more evidence presented than min(4, totalEvidence) |
| Conversation.SecondClosingReopensEndedCase | frontend/js/rechtszaal.js:316-331 | with two closings queued, the second sets an ended case back to 'closing' |
| Conversation.PhaseAdvancesExceptClosing | frontend/js/rechtszaal.js:139-331 | on every step the page allows, the start included, the phase never moves backwards except by a closing callback; the simulation starts only from 'not started', since its button is disabled at the first click (line 142) |
| Conversation.SendKeepsPhase | frontend/js/rechtszaal.js:270-313 | sendMessage never changes the phase |
| Conversation.ApplyReplyKeepsPhaseOrder | frontend/js/rechtszaal.js:212-267 | recording a reply never moves the phase backwards |
| Conversation.FireKeepsPhaseOrder | frontend/js/rechtszaal.js:256-331 | firing anything but a closing never moves the phase backwards |
| Conversation.StartOpensTheHearing | frontend/js/rechtszaal.js:139-153 | a successful opening reply makes the phase 'active' and queues the prosecutor; a failed one stays in 'opening'; the timer starts at now |
| Conversation.EndCaseScoresCurrentHistory | frontend/js/rechtszaal.js:493-497 | a confirmed endCase scores the history as it is, in any phase; an unconfirmed one changes nothing |
| Conversation.Session.constructor | frontend/js/rechtszaal.js:63-68 | the loaded page: not started, empty history, totalEvidence the evidence count |
| Conversation.Session.ApplyChatReply | frontend/js/rechtszaal.js:212-229 | the session changes as ApplyReply says |
| Conversation.Session.ComposePrompt | frontend/js/rechtszaal.js:161-179 | the prompt sent is the one built from the case and the current history |
| Conversation.Session.StartSimulation | frontend/js/rechtszaal.js:139-153 | the session changes as Start says |
| Conversation.Session.Post | frontend/js/rechtszaal.js:278-310 | the session changes as Posted says |
| Conversation.Session.SendMessage | frontend/js/rechtszaal.js:270-313 | the session changes as Send says |
| Conversation.Session.TakePending | frontend/js/rechtszaal.js:256-331 | the fired callback leaves the queue and nothing else changes |
| Conversation.Session.Prepare | frontend/js/rechtszaal.js:293-301 | the counters change as BeforeRequest says |
| Conversation.Session.Conclude | frontend/js/rechtszaal.js:322-329 | the state changes as AfterReply says |
| Conversation.Session.FireRequest | frontend/js/rechtszaal.js:256-331 | the request sent is the callback's own, and the session changes as Fire says |
| Conversation.Session.FireEnableInput | frontend/js/rechtszaal.js:334-344 | re-enabling the input changes the session as Fire says |
| Conversation.Session.Finish | frontend/js/rechtszaal.js:396-424 | the timer stops, and the report carries the 50..100 score, the elapsed seconds and the full history |
| Conversation.Session.FireFinishCase | frontend/js/rechtszaal.js:327-329 | the verdict's timer finishes the case with the history as it stood |
| Conversation.Session.EndCase | frontend/js/rechtszaal.js:493-497 | a report is produced exactly when the student confirms |
| Progress.EarnedBadges | routes/progress.js:149-194 | first completion iff count is 1; high score iff score >= 90; speed iff time < 300; milestones iff count is 5 or 10 |
| Progress.Grant | routes/progress.js:154-157 | INSERT OR IGNORE adds the badge key and keeps every earlier badge's earned_at |
| Progress.GrantAllAppend | routes/progress.js:149-194 | granting two lists of badges in turn is granting their concatenation |
| Progress.ReadLog | routes/progress.js:23 | a NULL or empty log reads as [], any other text is parsed as stored |
| Progress.StartCaseOutcomes | routes/progress.js:64-109 | a started row is answered as it is; any other row is reset under its id; a missing one is inserted under a new id |
| Progress.StartCaseKeepsIdsUnique | routes/progress.js:79-105 | start-case keeps row ids distinct and already handed out |
| Progress.StartCaseIsIdempotent | routes/progress.js:74-76 | starting twice leaves the row and the progress id as the first start made them |
| Progress.UpdateTouchesOnlyStartedRow | routes/progress.js:112-126 | update-progress changes only the log and time of a started row, and nothing otherwise |
| Progress.GrantAllKeys | routes/progress.js:149-194 | granting a badge list adds exactly its keys and keeps the old earned_at values |
| Progress.BadgesAfterCompletion | routes/progress.js:149-194 | after completion the user has their old badges with the old dates plus exactly those earned |
| Progress.GrantIsIdempotent | routes/progress.js:155 | granting a badge again changes nothing |
| Progress.CompleteCaseRecordsRow | routes/progress.js:129-146 | complete-case completes that row, whatever its status, with the given values, and no other row |
| Progress.RestartReusesTheRow | routes/progress.js:64-146 | started, completed and started again: the same row id, reset |
| Progress.ProgressStore.constructor | database/db.js:53-80 | the store starts with no rows and no badges |
| Progress.ProgressStore.StartCase | routes/progress.js:64-109 | the rows and reply change as AfterStart says |
| Progress.ProgressStore.UpdateProgress | routes/progress.js:112-126 | the rows change as AfterUpdate says |
| Progress.CompletionIsCounted | routes/progress.js:129-158 | after complete-case the completed row is among those counted, and the user holds the first-completion badge exactly when they held it before or no other row of theirs is completed |
| Progress.ProgressStore.Award | routes/progress.js:154-157 | one INSERT OR IGNORE grants the given badge |
| Progress.ProgressStore.CheckAchievements | routes/progress.js:149-194 | the badges change as WithBadges says |
| Progress.ProgressStore.CompleteCase | routes/progress.js:129-146 | the store changes as AfterComplete says |
| CaseRoutes.Strings | routes/cases.js:105 | each line becomes a JSON string, in order |
| CaseRoutes.NormaliseEvidence | routes/cases.js:104-108 | an array is kept; a string becomes its non-blank lines; anything else has no `split` and throws |
| CaseRoutes.TextEvidenceLines | routes/cases.js:105 | string evidence keeps exactly its non-blank lines, in order |
| CaseRoutes.TextEvidenceRoundTrip | routes/cases.js:105 | lines joined by newlines normalise back to those lines |
| CaseRoutes.GetCaseOutcome | routes/cases.js:31-51 | a case found is the stored row under that id |
| CaseRoutes.GetCaseRules | routes/cases.js:31-51 | 404 iff the case is missing or inactive; an active case answers with the evidence value its stored JSON encodes, [] when there is none, and no answer when the column holds non-JSON text |
| CaseRoutes.ChatOutcome | routes/cases.js:54-92 | without a usable stored key the answer is 400 |
| CaseRoutes.ChatWithoutKeyNeverCallsProvider | routes/cases.js:59-62 | without a key the answer does not depend on the provider |
| CaseRoutes.ChatStatusMapping | routes/cases.js:67-84 | the first choice's content is returned; provider 401 gives 400, 429 gives 429, other failures 500 with the provider's message |
| CaseRoutes.CreateCaseOutcome | routes/cases.js:95-134 | a failed create changes nothing |
| CaseRoutes.CreateCase | routes/cases.js:95-134 | the database and response change as CreateCaseOutcome says |
| CaseRoutes.CreateCaseValidation | routes/cases.js:98-108 | a falsy title, description or evidence gives 400 "Titel, beschrijving en bewijs zijn verplicht"; truthy evidence that is neither a list nor text makes `split` throw and gives 400 "Bewijs moet een lijst zijn" |
| CaseRoutes.CreateCaseStores | routes/cases.js:110-131 | a valid case is stored under a fresh id with its evidence as JSON and the requester as its author |
| CaseRoutes.NewCaseRowDefaults | routes/cases.js:96-131 | an undefined difficulty or category takes 1 or 'algemeen'; given values, even falsy ones, are kept |
| CaseRoutes.CreatedCaseIsFound | routes/cases.js:31-131 | a created case is found by GET with the same evidence items |
| CaseRoutes.ReplaceCaseOutcome | routes/cases.js:137-159 | a failed replace changes nothing |
| CaseRoutes.ReplaceCase | routes/cases.js:137-159 | the database and response change as ReplaceCaseOutcome says |
| CaseRoutes.ReplaceCaseValidation | routes/cases.js:141-146 | evidence that is neither array nor string gives 400 and writes nothing |
| CaseRoutes.ReplacedRow | routes/cases.js:148-158 | the five assignments overwrite exactly title, description, evidence, difficulty and category |
| CaseRoutes.ReplacedRowAdmissible | database/db.js:40-50 | the rewritten case row meets NOT NULL when the new title and description are not NULL |
| CaseRoutes.ReplaceCaseNeedsText | routes/cases.js:148-158 | a NULL title or description breaks NOT NULL: 500 and no change |
| CaseRoutes.ReplaceCaseWrites | routes/cases.js:148-158 | otherwise the row holds the five new values and the update is reported |
| CaseRoutes.ReplaceCaseKeepsConsistent | routes/cases.js:137-159 | replacing keeps the database consistent |
| CaseRoutes.DeleteCaseOutcome | routes/cases.js:162-172 | a failed delete changes nothing |
| CaseRoutes.DeleteCase | routes/cases.js:162-172 | the database and response change as DeleteCaseOutcome says |
| CaseRoutes.DeleteCaseHidesCase | routes/cases.js:162-172 | a deleted case is kept but GET answers 404 |
| AdminRoutes.PushedMembers | routes/admin.js:177-206 | the clauses are exactly those of the fields that ask for one |
| AdminRoutes.PushedEmpty | routes/admin.js:205-207 | no clause iff no field asks for one |
| AdminRoutes.PushKeepsOrder | routes/admin.js:177-203 | a push after lower positions keeps the clause order |
| AdminRoutes.PushedInOrder | routes/admin.js:177-203 | fields pushed in the handler's order give ordered clauses |
| AdminRoutes.AssignedInOrder | routes/admin.js:177-211 | with ordered clauses every clause's value is the one the row ends with |
| AdminRoutes.UserPlanNameClauses | routes/admin.js:177-188 | first name, last name and email each get a clause with their value iff truthy |
| AdminRoutes.UserPlanAccountClauses | routes/admin.js:192-203 | role and student number iff truthy; is_active 1/0 iff isActive is defined |
| AdminRoutes.UserPlanOnlyFields | routes/admin.js:177-203 | there is no other clause |
| AdminRoutes.UserPlanInOrder | routes/admin.js:177-203 | no column is set twice |
| AdminRoutes.UserPlanEmpty | routes/admin.js:205-207 | the plan is empty iff no field asks for a clause |
| AdminRoutes.BuildUserUpdate | routes/admin.js:177-209 | the pushed column and value arrays line up with the user plan |
| AdminRoutes.UpdateUserOutcome | routes/admin.js:166-224 | a refused or failed update changes nothing |
| AdminRoutes.UpdateUser | routes/admin.js:166-224 | the database and response change as UpdateUserOutcome says |
| AdminRoutes.UpdateUserRoleGuard | routes/admin.js:173-175 | a body with a role is refused with 403 for a teacher, and only for a teacher |
| AdminRoutes.UpdateUserNeedsAField | routes/admin.js:205-207 | an authorised empty body gives 400 and writes nothing |
| AdminRoutes.UpdateUserWrites | routes/admin.js:209-221 | a successful update writes every clause's value into the row it names and nothing else |
| AdminRoutes.CreateUserOutcome | routes/admin.js:227-265 | a refused or failed create changes nothing |
| AdminRoutes.CreateUser | routes/admin.js:227-265 | the database and response change as CreateUserOutcome says |
| AdminRoutes.CreateUserValidation | routes/admin.js:233-240 | a missing required field gives 400; an email already stored gives 400 |
| AdminRoutes.CreateUserInserts | routes/admin.js:243-258 | a created user is a new row under a fresh id with the fields, the hash and is_active 1; the email then belongs to that row only, and the database stays consistent |
| AdminRoutes.DeleteUserOutcome | routes/admin.js:268-290 | a refused delete changes nothing |
| AdminRoutes.DeleteUser | routes/admin.js:268-290 | the database and response change as DeleteUserOutcome says |
| AdminRoutes.DeleteUserIsSoft | routes/admin.js:274-289 | an admin cannot deactivate themself; anyone else's row gets is_active 0 and is kept |
| AdminRoutes.ResetPasswordOutcome | routes/admin.js:293-321 | a refused reset changes nothing |
| AdminRoutes.ResetPassword | routes/admin.js:293-321 | the database and response change as ResetPasswordOutcome says |
| AdminRoutes.ResetPasswordRules | routes/admin.js:299-316 | a missing password or one of fewer than 6 characters gives 400; a long enough one stores its hash |
| AdminRoutes.CreateCaseOutcome | routes/admin.js:361-387 | a refused create changes nothing |
| AdminRoutes.CreateCase | routes/admin.js:361-387 | the database and response change as CreateCaseOutcome says |
| AdminRoutes.CreateCaseValidation | routes/admin.js:366-368 | no title, description or non-empty evidence gives 400 |
| AdminRoutes.CreateCaseStores | routes/admin.js:370-386 | any other case is stored under a fresh id with JSON evidence and the requester as author |
| AdminRoutes.NewCaseRowDefaults | routes/admin.js:372-375 | a falsy difficulty or category becomes 1 or 'algemeen' |
| AdminRoutes.CasePlanTextClauses | routes/admin.js:399-410 | title, description and evidence (as JSON) get a clause iff truthy |
| AdminRoutes.CasePlanSettingClauses | routes/admin.js:411-422 | difficulty and category iff truthy; is_active iff isActive is defined |
| AdminRoutes.CasePlanOnlyFields | routes/admin.js:396-422 | there is no other clause |
| AdminRoutes.CasePlanInOrder | routes/admin.js:396-422 | no column is set twice |
| AdminRoutes.CasePlanEmpty | routes/admin.js:424-426 | the plan is empty iff no field asks for a clause |
| AdminRoutes.BuildCaseUpdate | routes/admin.js:396-428 | the pushed arrays line up with the case plan |
| AdminRoutes.UpdateCaseOutcome | routes/admin.js:390-443 | a refused or failed update changes nothing |
| AdminRoutes.UpdateCase | routes/admin.js:390-443 | the database and response change as UpdateCaseOutcome says |
| AdminRoutes.UpdateCaseRules | routes/admin.js:424-442 | an empty update gives 400; a successful one writes every clause's value into the row |
| AdminRoutes.DeleteCaseOutcome | routes/admin.js:446-463 | a refused delete changes nothing |
| AdminRoutes.DeleteCase | routes/admin.js:446-463 | the database and response change as DeleteCaseOutcome says |
| AdminRoutes.DeleteCaseIsSoft | routes/admin.js:446-463 | only an admin may delete; the row gets is_active 0 and is kept |
| AuthClient.HomePage | frontend/js/auth.js:62-66 | admin.html iff the role is admin or teacher, otherwise dashboard.html |
| AuthClient.RegistrationError | frontend/js/auth.js:88-96 | no error iff the passwords match and the key starts with `sk-`; the password check comes first |
| AuthClient.AfterLogin | frontend/js/auth.js:54-72 | logging in leaves the registration redirect alone |
| AuthClient.AfterRegister | frontend/js/auth.js:88-130 | registering never navigates by itself |
| AuthClient.RedirectFired | frontend/js/auth.js:122-124 | the timer goes to the pending page and clears it |
| AuthClient.LoggedOut | frontend/js/auth.js:146-150 | token and user are removed, every other key kept, and the page is login.html |
| AuthClient.CheckedAuth | frontend/js/auth.js:153-160 | passes iff a non-empty token is stored; when not, the page becomes login.html, otherwise nothing changes |
| AuthClient.Loaded | frontend/js/auth.js:19-25 | only a stored token on a page other than login moves the browser |
| AuthClient.HeadersFor | frontend/js/auth.js:163-168 | JSON content type; `Bearer <token>`, or `Bearer null` when none is stored |
| AuthClient.Browser.constructor | frontend/js/auth.js:1-16 | the browser holds the given page state |
| AuthClient.Browser.ShowMessage | frontend/js/auth.js:134-137 | only the message box changes |
| AuthClient.Browser.HandleLogin | frontend/js/auth.js:39-73 | the page changes as AfterLogin says |
| AuthClient.Browser.HandleRegister | frontend/js/auth.js:76-131 | a request is sent iff the form passes its checks, and the page changes as AfterRegister says |
| AuthClient.Browser.FireRedirect | frontend/js/auth.js:122-124 | the page changes as RedirectFired says |
| AuthClient.Browser.Logout | frontend/js/auth.js:146-150 | the page changes as LoggedOut says |
| AuthClient.Browser.CheckAuth | frontend/js/auth.js:153-160 | result and page as CheckedAuth says |
| AuthClient.Browser.OnLoad | frontend/js/auth.js:19-25 | the page changes as Loaded says |
| AuthClient.Browser.GetAuthHeaders | frontend/js/auth.js:163-168 | the headers are those of the stored token |
| AuthClient.LoginOutcomes | frontend/js/auth.js:54-72 | accepted: token and user stored, the role's home page; refused: the server's error; thrown: the generic message |
| AuthClient.RegisterChecksComeFirst | frontend/js/auth.js:88-96 | a form failing its checks shows the error whatever the server would say |
| AuthClient.RegisterKeyRule | frontend/js/auth.js:93-96 | with matching passwords, the form passes iff the key's first three characters are `sk-` |
| AuthClient.RegisterThenRedirect | frontend/js/auth.js:116-124 | an accepted registration ends on the dashboard with the session stored |
| AuthClient.LoginThenAuthorised | frontend/js/auth.js:163-168 | after login the header carries the token back through the server's extraction, and checkAuth passes |
| AuthClient.LogoutEndsSession | frontend/js/auth.js:146-168 | after logout checkAuth fails and the server extracts the word "null" as the token |
| AdminClient.AdminLanding | frontend/js/admin.js:2-13 | students are shown iff a token is stored and the role is admin or teacher; login iff no token |
| AdminClient.LoginAgreesWithAdminGate | frontend/js/admin.js:2-13 | after a login with a non-empty token, admin.js's own role gate shows the students exactly when the login sent the user to admin.html |
| AdminClient.Matches | frontend/js/admin.js:106-111 | a match iff some field contains the term, with a null student number reached only when nothing else matched |
| AdminClient.SearchKeepsMatches | frontend/js/admin.js:104-113 | when the search does not throw it keeps exactly the matching students, in order |
| AdminClient.SearchFailsOnNullNumber | frontend/js/admin.js:106-111 | the search throws iff some student reaches the null student number |
| AdminClient.ContainsEmpty | frontend/js/admin.js:107-110 | every string contains "" |
| AdminClient.EmptySearchKeepsAll | frontend/js/admin.js:104-113 | an empty search lists every student |
| AdminClient.NullNumberBreaksSearch | frontend/js/admin.js:107-110 | a student with no number who matches no other field makes the whole search throw |
| AdminClient.NullNumberExample | frontend/js/admin.js:104-113 | one student with a null number, searched for "b", throws |
| AdminClient.SafeFiltered | frontend/js/admin.js:104-113 | the corrected filter never lengthens the list |
| AdminClient.SafeSearchKeepsMatches | frontend/js/admin.js:104-113 | the corrected filter agrees with the original wherever that does not throw and keeps exactly the matches, in order |
| AdminClient.EvidenceRoundTrip | frontend/js/admin.js:273-296 | evidence shown in the form and submitted again is the same list |
| AdminClient.EvidenceParseKeepsLines | frontend/js/admin.js:296 | the parsed evidence keeps exactly the non-blank lines, in order, and parsing is stable |
| AdminClient.DigitPrefix | frontend/js/admin.js:312 | the longest leading run of digits |
| AdminClient.ParseInt | frontend/js/admin.js:312 | NaN (sent as null) iff the text does not start with a digit |
| AdminClient.DigitPrefixOfDigits | frontend/js/admin.js:312 | an all-digit string is its own prefix |
| AdminClient.ParseIntOfNatToString | frontend/js/admin.js:272-312 | a difficulty shown in the form parses back as itself |
| AdminClient.FirstWithId | frontend/js/admin.js:265-266 | a case with that id and none before it with the same id, or none iff no case has it |
| AdminClient.AddCaseOpened | frontend/js/admin.js:257-261 | opening the form for a new case resets its fields and keeps the stored case id |
| AdminClient.FreshAddCaseOpened | frontend/js/admin.js:257-261 | the corrected form clears the case id |
| AdminClient.CaseEdited | frontend/js/admin.js:264-278 | editing an unknown id changes nothing, and never changes the lists |
| AdminClient.RequestOf | frontend/js/admin.js:292-315 | PUT on the stored id iff one is stored, otherwise POST; the evidence is the parsed lines |
| AdminClient.Submitted | frontend/js/admin.js:317-328 | a saved form closes and forgets its id; otherwise id and visibility stay |
| AdminClient.AdminPage.constructor | frontend/js/admin.js:2-13 | the page holds the given state |
| AdminClient.AdminPage.LoadStudents | frontend/js/admin.js:54-69 | a successful reply replaces the student list, a failed one changes nothing |
| AdminClient.AdminPage.LoadCases | frontend/js/admin.js:204-217 | a successful reply replaces the case list, a failed one changes nothing |
| AdminClient.AdminPage.ShowAddCase | frontend/js/admin.js:257-261 | the form changes as AddCaseOpened says |
| AdminClient.AdminPage.EditCase | frontend/js/admin.js:264-278 | the page changes as CaseEdited says |
| AdminClient.AdminPage.CloseCaseModal | frontend/js/admin.js:281-283 | only the form's visibility changes |
| AdminClient.AdminPage.SubmitCase | frontend/js/admin.js:286-331 | the request is the form's own and the form changes as Submitted says |
| AdminClient.EditThenSubmitRoundTrip | frontend/js/admin.js:264-315 | editing a case and submitting it unchanged PUTs its own title, description, category, difficulty and evidence |
| AdminClient.AddAfterEditOverwrites | frontend/js/admin.js:257-303 | after an edit is closed, "new case" sends a PUT over the edited case |
| AdminClient.FreshAddCreates | frontend/js/admin.js:257-318 | with the id cleared, "new case" always POSTs and a success says the case was created |
| AdminClient.SavedFormCreatesNext | frontend/js/admin.js:321 | after a save the next "new case" POSTs |

## Left out

- Rendering and the DOM (innerHTML, modals, status text, message-box hiding), `alert` beyond its text, and the delays themselves. A delayed callback is a queued step that fires when the model says so.
- The network, `fetch` and the server's replies. These are inputs. So are bcrypt hashes, JWT verification and the language model's completions.
- The chat request's model name, temperature and message list are not modelled; only the outcome of the call is.
- `saveProgress`, `saveProgressSilently`, `startCaseProgress`, `loadCase`, `loadUserData`, the evidence panel and `showScoreModal` on the courtroom page.
- The read-only list routes: `GET /cases`, `GET /progress`, `/progress/stats`, `/progress/achievements` beyond the log's parsing, and `GET /admin/stats`, `/admin/users`, `/admin/users/:id`, `/admin/cases`, `/admin/scores` and `/admin/progress`.
- The admin page's student list reply is an input; no route in routes/admin.js serves it under that path.
- Database errors other than a constraint violation ("Database fout", "Server fout"), and concurrency between requests. The order in which the asynchronous achievement inserts land is also left out; each insert is applied once, in the order checkAchievements issues them.
- `CURRENT_TIMESTAMP` is a parameter (`now`).
- JSON is kept symbolic as `JsonOf(value)`. An evidence column holding plain, non-JSON text is treated as one that `JSON.parse` rejects.
- Ids that are not integers, and NaN. `parseInt` is modelled for digits only, without leading white space or a sign.
- String lengths count characters, not UTF-16 code units.
- Text.ToLower: lower-cases ASCII letters only, because Unicode case mapping is not modelled.
- AuthClient.AfterLogin: a successful reply without `data.user` is not modelled. On such a reply auth.js:58-59 store the token and the text "undefined" as the user, line 62 then throws on `data.user.role` and the generic error message is shown, and the stored token lets `checkAuth` pass on later pages.
- Turn timestamps (`new Date().toISOString()`, frontend/js/rechtszaal.js:211 and 282) are not recorded in the history, which holds the speaker and the message of each turn; so nothing is stated about the timestamps never decreasing.
- A chat request and its reply are one step (`Fires`): nothing else can happen while a persona's request is in flight, so a callback that fires during an awaited request is not modelled.
- Conversation.Session.StartSimulation: the guard for a missing case is not modelled; the case is always loaded.

## Findings

| source | as written | input that shows it | evidently intended | confidence | as-written member | corrected member |
|---|---|---|---|---|---|---|
| frontend/js/admin.js:107-110 | the search calls `student_number.toLowerCase()` on every student who matched no other field | a student whose student_number is null (teachers and admins have none), with a term matching none of their names or email, in the student list reply; no route serves that list (server.js's catch-all answers 404), so the reply is an input and the defect is latent until such a route exists | skip a missing number and keep filtering | not executed | AdminClient.NullNumberBreaksSearch | AdminClient.SafeSearchKeepsMatches |
| frontend/js/admin.js:257-261 | showAddCase resets the fields but not `dataset.caseId`, which only a successful save deletes | open a case for editing, close the form, click "new case" and save | clear the stored id, so a new case is POSTed | not executed | AdminClient.AddAfterEditOverwrites | AdminClient.FreshAddCreates |
