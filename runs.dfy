/**
 * Runs of the courtroom page: sequences of steps taken one after the other from a given
 * state, each step only when the page allows it (`CanTake`). The concrete runs below
 * are the ones the page can reach from a freshly loaded case and that show where the
 * invariants of the conversation engine stop holding.
 */
module PageRuns {
  import opened Wrappers
  import opened Text
  import opened Courtroom
  import opened Conversation

  /** The state the steps from position i on lead to, or None when one of them cannot
      be taken. */
  function RunFrom(s: State, steps: seq<Event>, i: nat): Option<State>
    decreases |steps| - i, 1
  {
    if i >= |steps| then Some(s) else Advance(s, steps, i)
  }

  /** Step i is taken if it can be, and the run goes on from the state it leads to. */
  function Advance(s: State, steps: seq<Event>, i: nat): Option<State>
    requires i < |steps|
    decreases |steps| - i, 0
  {
    if CanTake(s, steps[i]) then RunFrom(Next(s, steps[i]), steps, i + 1) else None
  }

  /** The state a sequence of steps leads to from `s`, or None when one of them cannot
      be taken. */
  function Run(s: State, steps: seq<Event>): Option<State> {
    RunFrom(s, steps, 0)
  }

  /** The steps of `b` placed after those of `a` are taken as they would be alone. */
  lemma {:induction false} RunFromShift(s: State, a: seq<Event>, b: seq<Event>, k: nat)
    requires k <= |b|
    ensures RunFrom(s, a + b, |a| + k) == RunFrom(s, b, k)
    decreases |b| - k
  {
    if k < |b| {
      assert (a + b)[|a| + k] == b[k];
      if CanTake(s, b[k]) {
        RunFromShift(Next(s, b[k]), a, b, k + 1);
      }
    }
  }

  lemma {:induction false} RunFromAppend(s: State, a: seq<Event>, b: seq<Event>, i: nat)
    requires i <= |a|
    ensures RunFrom(s, a + b, i) == if RunFrom(s, a, i).Some? then Run(RunFrom(s, a, i).value, b) else None
    decreases |a| - i
  {
    if i == |a| {
      RunFromShift(s, a, b, 0);
    } else {
      assert (a + b)[i] == a[i];
      if CanTake(s, a[i]) {
        RunFromAppend(Next(s, a[i]), a, b, i + 1);
      }
    }
  }

  /** Running two sequences of steps one after the other is running their concatenation. */
  lemma RunAppend(s: State, a: seq<Event>, b: seq<Event>)
    ensures Run(s, a + b) == if Run(s, a).Some? then Run(Run(s, a).value, b) else None
  {
    RunFromAppend(s, a, b, 0);
  }

  /** What the page holds besides the history it shows and the score it computes. */
  function Bare(s: State): State {
    s.(history := [], finalScore := None)
  }

  /** Each part of a step keeps two states that differ only in their history and score
      differing only there. */
  lemma PostedIgnoresHistory(s: State, t: State, message: string, r: real)
    requires Bare(s) == Bare(t)
    ensures Bare(Posted(s, message, r)) == Bare(Posted(t, message, r))
  {
    assert s.judgeInterventions == t.judgeInterventions && s.evidencePresented == t.evidencePresented;
    assert s.totalEvidence == t.totalEvidence && s.pending == t.pending;
  }

  lemma ApplyReplyIgnoresHistory(s: State, t: State, p: Persona, reply: ChatReply)
    requires Bare(s) == Bare(t)
    ensures Bare(ApplyReply(s, p, reply)) == Bare(ApplyReply(t, p, reply))
  {
    assert s.phase == t.phase && s.pending == t.pending;
  }

  lemma FireIgnoresHistory(s: State, t: State, i: nat, reply: ChatReply, nowMs: int)
    requires Bare(s) == Bare(t) && i < |s.pending|
    ensures i < |t.pending| && Bare(Fire(s, i, reply, nowMs)) == Bare(Fire(t, i, reply, nowMs))
  {
    assert s.pending == t.pending;
    var cb := s.pending[i];
    var s0 := s.(pending := Removed(s.pending, i));
    var t0 := t.(pending := Removed(t.pending, i));
    assert Bare(s0) == Bare(t0);
    match Speaker(cb)
    case Some(p) =>
      var s1 := BeforeRequest(s0, cb);
      var t1 := BeforeRequest(t0, cb);
      assert Bare(s1) == Bare(t1);
      ApplyReplyIgnoresHistory(s1, t1, p, reply);
    case None =>
  }

  /** The history does not steer the page: two states that differ only in their history
      and score can take the same steps, and each step keeps them so. */
  lemma NextIgnoresHistory(s: State, t: State, e: Event)
    requires Bare(s) == Bare(t) && CanTake(s, e)
    ensures CanTake(t, e) && Bare(Next(s, e)) == Bare(Next(t, e))
  {
    assert s.pending == t.pending && s.inputEnabled == t.inputEnabled;
    match e
    case StartSimulation(now, reply) =>
      ApplyReplyIgnoresHistory(s.(phase := Opening, startTime := Some(now), timerRunning := true),
        t.(phase := Opening, startTime := Some(now), timerRunning := true), Judge, reply);
    case StudentSends(caller, input, r) =>
      PostedIgnoresHistory(s, t, Trim(input), r);
    case Fires(i, reply, now) =>
      FireIgnoresHistory(s, t, i, reply, now);
    case EndsCase(confirmed, now) =>
  }

  /** The same for every run. */
  lemma {:induction false} RunFromIgnoresHistory(s: State, t: State, steps: seq<Event>, i: nat)
    requires Bare(s) == Bare(t)
    ensures RunFrom(s, steps, i).Some? == RunFrom(t, steps, i).Some?
    ensures RunFrom(s, steps, i).Some? ==> Bare(RunFrom(s, steps, i).value) == Bare(RunFrom(t, steps, i).value)
    decreases |steps| - i
  {
    if i < |steps| && CanTake(s, steps[i]) {
      NextIgnoresHistory(s, t, steps[i]);
      RunFromIgnoresHistory(Next(s, steps[i]), Next(t, steps[i]), steps, i + 1);
    }
  }

  /** Two runs, each known up to the history, make one. */
  lemma RunsChain(s: State, a: seq<Event>, b: seq<Event>, m: State, n: State)
    requires Run(s, a).Some? && Bare(Run(s, a).value) == m
    requires Run(m, b).Some? && Bare(Run(m, b).value) == n
    ensures Run(s, a + b).Some? && Bare(Run(s, a + b).value) == n
  {
    RunAppend(s, a, b);
    RunFromIgnoresHistory(Run(s, a).value, m, b, 0);
  }

  /** The student sends one letter with the input enabled: it is posted as it is. */
  lemma SendsLetter(s: State, letter: string, r: real)
    requires letter == "a" || letter == "b"
    requires s.inputEnabled
    ensures Next(s, StudentSends(Defendant, letter, r)) == Posted(s, letter, r)
  {
    LettersAreNotBlank();
  }

  /** Step `e` can be taken from `s` and leads to `m`, up to the history and the score. */
  predicate Moves(s: State, e: Event, m: State) {
    CanTake(s, e) && Bare(Next(s, e)) == Bare(m)
  }

  /** One step taken, known up to the history: the run from it goes on as from the state
      it leads to. */
  lemma StepThen(s: State, steps: seq<Event>, i: nat, m: State)
    requires i < |steps| && Moves(s, steps[i], m)
    ensures RunFrom(s, steps, i).Some? == RunFrom(m, steps, i + 1).Some?
    ensures RunFrom(s, steps, i).Some? ==> Bare(RunFrom(s, steps, i).value) == Bare(RunFrom(m, steps, i + 1).value)
  {
    RunFromIgnoresHistory(Next(s, steps[i]), m, steps, i + 1);
  }

  /** A run of one step, from the step. */
  lemma OneMove(s0: State, s1: State, steps: seq<Event>)
    requires |steps| == 1 && Moves(s0, steps[0], s1)
    ensures Run(s0, steps).Some? && Bare(Run(s0, steps).value) == Bare(s1)
  {
    StepThen(s0, steps, 0, s1);
  }

  /** A run of three steps, from its steps. */
  lemma ThreeMoves(s0: State, s1: State, s2: State, s3: State, steps: seq<Event>)
    requires |steps| == 3
    requires Moves(s0, steps[0], s1) && Moves(s1, steps[1], s2) && Moves(s2, steps[2], s3)
    ensures Run(s0, steps).Some? && Bare(Run(s0, steps).value) == Bare(s3)
  {
    StepThen(s0, steps, 0, s1);
    StepThen(s1, steps, 1, s2);
    StepThen(s2, steps, 2, s3);
  }

  /** The student's turn: an active hearing with the input enabled and nothing queued. */
  predicate Awaiting(s: State) {
    s.phase == Active && s.pending == [] && s.inputEnabled
  }
}

/**
 * Runs the courtroom page can take from a freshly loaded case with one piece of
 * evidence. Every chat call made on them is answered with a one-letter reply or fails,
 * every student message is one letter long, and `r` is the value Math.random() gave on
 * that send. The states are written without the history, which does not steer the
 * page (PageRuns.RunFromIgnoresHistory); each run is built from stages of one or three
 * steps, and each stage from its steps.
 */
module HearingRuns {
  import opened Wrappers
  import opened Courtroom
  import opened Conversation
  import opened PageRuns

  // ---- the stages ----------------------------------------------------------

  /** The judge opens, the prosecutor's opening follows, and the input is re-enabled. */
  const Opens: seq<Event> := [StartSimulation(0, Reply("o")), Fires(0, Reply("p"), 0), Fires(0, Failure(""), 0)]

  /** A student message the judge answers (r below 0.4), and the re-enabling that follows. */
  const JudgeRound: seq<Event> := [StudentSends(Defendant, "a", 0.0), Fires(0, Reply("j"), 0), Fires(0, Failure(""), 0)]

  /** A student message the prosecutor answers (r of 0.5), and the re-enabling that follows. */
  const ProsecutorRound: seq<Event> := [StudentSends(Defendant, "a", 0.5), Fires(0, Reply("p"), 0), Fires(0, Failure(""), 0)]

  /** Once the evidence count is reached: a student message the prosecutor answers, which
      also queues the closing, and the re-enabling that follows. */
  const ProsecutorCloses: seq<Event> := [StudentSends(Defendant, "a", 0.5), Fires(0, Reply("p"), 0), Fires(1, Failure(""), 0)]

  /** A student message the prosecutor answers (r of 0.5), sent while the closing is queued. */
  const SendsAgain: seq<Event> := [StudentSends(Defendant, "a", 0.5)]

  /** The second prosecutor follow-up fires and is answered. */
  const ProsecutorAnswersAgain: seq<Event> := [Fires(1, Reply("q"), 0)]

  /** Once the evidence count is reached: a student message the prosecutor answers, then
      the closing fires and its chat call fails, which queues a re-enabling beside the
      one the prosecutor's reply queued. */
  const ClosingFails: seq<Event> := [StudentSends(Defendant, "a", 0.5), Fires(0, Reply("p"), 0), Fires(0, Failure("e"), 0)]

  /** The first re-enabling fires, the student sends a message the judge is to answer,
      and the second re-enabling fires before that answer. */
  const InputOverlaps: seq<Event> := [Fires(0, Failure(""), 0), StudentSends(Defendant, "a", 0.0), Fires(0, Failure(""), 0)]

  /** A second message for the judge, and both judge follow-ups answered. */
  const JudgeAnswersTwice: seq<Event> := [StudentSends(Defendant, "b", 0.0), Fires(1, Reply("j"), 0), Fires(1, Reply("k"), 0)]

  /** A hearing over one piece of evidence, up to the student's turn at which the
      evidence count is reached: the openings, two judge rounds and one prosecutor round. */
  const Hearing: seq<Event> := Opens + JudgeRound + JudgeRound + ProsecutorRound

  /** After the evidence count is reached: the closing's chat call fails, the student
      sends twice while a judge follow-up is queued, and both follow-ups are answered. */
  const Overlap: seq<Event> := ClosingFails + InputOverlaps + JudgeAnswersTwice

  // ---- the states they pass through, without the history ------------------------

  /** The page of a case with one piece of evidence, as loaded. */
  const Fresh: State := State(NotStarted, 0, 0, 1, [], false, [], None, false, None)

  /** The judge has opened; the prosecutor's opening is queued. */
  const JudgeOpened: State := Fresh.(phase := Active, startTime := Some(0), timerRunning := true, pending := [ProsecutorOpening])

  /** The prosecutor has opened; a re-enabling is queued. */
  const ProsecutorOpened: State := JudgeOpened.(pending := [EnableInput])

  /** The student's first turn, after both openings. */
  const FirstTurn: State := State(Active, 0, 0, 1, [], true, [], Some(0), true, None)

  /** The first message is sent; the judge's follow-up is queued. */
  const FirstSent: State := FirstTurn.(inputEnabled := false, pending := [JudgeFollowUp("a")])

  /** The judge has answered it. */
  const FirstAnswered: State := FirstSent.(judgeInterventions := 1, pending := [EnableInput])

  /** The student's turn after one judge round. */
  const SecondTurn: State := State(Active, 1, 0, 1, [], true, [], Some(0), true, None)

  /** The second message is sent; the judge's follow-up is queued. */
  const SecondSent: State := SecondTurn.(inputEnabled := false, pending := [JudgeFollowUp("a")])

  /** The judge has answered it. */
  const SecondAnswered: State := SecondSent.(judgeInterventions := 2, pending := [EnableInput])

  /** The student's turn after two judge rounds. */
  const ThirdTurn: State := State(Active, 2, 0, 1, [], true, [], Some(0), true, None)

  /** The third message is sent; the prosecutor's follow-up is queued. */
  const ThirdSent: State := ThirdTurn.(inputEnabled := false, pending := [ProsecutorFollowUp("a")])

  /** The prosecutor has answered it, presenting the evidence. */
  const ThirdAnswered: State := ThirdSent.(evidencePresented := 1, pending := [EnableInput])

  /** The student's turn at which the evidence count is reached. */
  const ClosingTurn: State := State(Active, 2, 1, 1, [], true, [], Some(0), true, None)

  /** The message at that turn is sent; the prosecutor's follow-up and the closing are queued. */
  const ClosingSent: State := ClosingTurn.(inputEnabled := false, pending := [ProsecutorFollowUp("a"), InitiateClosing])

  /** The prosecutor has answered it; the closing and a re-enabling are queued. */
  const ClosingAnswered: State := ClosingSent.(evidencePresented := 2, pending := [InitiateClosing, EnableInput])

  /** The student's turn with the closing queued. */
  const ClosingQueued: State := State(Active, 2, 2, 1, [], true, [InitiateClosing], Some(0), true, None)

  /** A second message for the prosecutor, sent with the closing queued. */
  const ClosingTwice: State := State(Active, 2, 2, 1, [], false, [InitiateClosing, ProsecutorFollowUp("a"), InitiateClosing], Some(0), true, None)

  /** The prosecutor has answered that second message. */
  const EvidencePast: State := State(Active, 2, 3, 1, [], false, [InitiateClosing, InitiateClosing, EnableInput], Some(0), true, None)

  /** The closing failed: two re-enablings are queued before the verdict. */
  const ClosingFailed: State := State(Closing, 2, 2, 1, [], false, [EnableInput, EnableInput, Verdict], Some(0), true, None)

  /** The first re-enabling has fired. */
  const Reenabled: State := ClosingFailed.(inputEnabled := true, pending := [EnableInput, Verdict])

  /** A message for the judge is sent with the second re-enabling still queued. */
  const OverlapSent: State := Reenabled.(inputEnabled := false, pending := [EnableInput, Verdict, JudgeFollowUp("a")])

  /** The input is enabled again while the judge's follow-up is queued. */
  const InputReopened: State := State(Closing, 2, 2, 1, [], true, [Verdict, JudgeFollowUp("a")], Some(0), true, None)

  /** A second message for the judge is sent. */
  const TwiceSent: State := InputReopened.(inputEnabled := false, pending := [Verdict, JudgeFollowUp("a"), JudgeFollowUp("b")])

  /** The judge has answered the first of them. */
  const FirstOfTwoAnswered: State := TwiceSent.(judgeInterventions := 3, pending := [Verdict, JudgeFollowUp("b")])

  /** Both messages sent while closing have been answered by the judge. */
  const JudgeAnsweredTwice: State := State(Closing, 4, 2, 1, [], false, [Verdict], Some(0), true, None)

  // ---- each step, from the state before it ----------------------------------------

  lemma StepToJudgeOpened()
    ensures Moves(Fresh, StartSimulation(0, Reply("o")), JudgeOpened)
  {
  }

  lemma StepToProsecutorOpened()
    ensures Moves(JudgeOpened, Fires(0, Reply("p"), 0), ProsecutorOpened)
  {
  }

  lemma StepToFirstTurn()
    ensures Moves(ProsecutorOpened, Fires(0, Failure(""), 0), FirstTurn)
  {
  }

  lemma StepToFirstSent()
    ensures Moves(FirstTurn, StudentSends(Defendant, "a", 0.0), FirstSent)
  {
    SendsLetter(FirstTurn, "a", 0.0);
  }

  lemma StepToFirstAnswered()
    ensures Moves(FirstSent, Fires(0, Reply("j"), 0), FirstAnswered)
  {
  }

  lemma StepToSecondTurn()
    ensures Moves(FirstAnswered, Fires(0, Failure(""), 0), SecondTurn)
  {
  }

  lemma StepToSecondSent()
    ensures Moves(SecondTurn, StudentSends(Defendant, "a", 0.0), SecondSent)
  {
    SendsLetter(SecondTurn, "a", 0.0);
  }

  lemma StepToSecondAnswered()
    ensures Moves(SecondSent, Fires(0, Reply("j"), 0), SecondAnswered)
  {
  }

  lemma StepToThirdTurn()
    ensures Moves(SecondAnswered, Fires(0, Failure(""), 0), ThirdTurn)
  {
  }

  lemma StepToThirdSent()
    ensures Moves(ThirdTurn, StudentSends(Defendant, "a", 0.5), ThirdSent)
  {
    SendsLetter(ThirdTurn, "a", 0.5);
  }

  lemma StepToThirdAnswered()
    ensures Moves(ThirdSent, Fires(0, Reply("p"), 0), ThirdAnswered)
  {
  }

  lemma StepToClosingTurn()
    ensures Moves(ThirdAnswered, Fires(0, Failure(""), 0), ClosingTurn)
  {
  }

  lemma StepToClosingSent()
    ensures Moves(ClosingTurn, StudentSends(Defendant, "a", 0.5), ClosingSent)
  {
    SendsLetter(ClosingTurn, "a", 0.5);
  }

  lemma StepToClosingAnswered()
    ensures Moves(ClosingSent, Fires(0, Reply("p"), 0), ClosingAnswered)
  {
  }

  lemma StepToClosingQueued()
    ensures Moves(ClosingAnswered, Fires(1, Failure(""), 0), ClosingQueued)
  {
  }

  lemma StepToClosingTwice()
    ensures Moves(ClosingQueued, StudentSends(Defendant, "a", 0.5), ClosingTwice)
  {
    SendsLetter(ClosingQueued, "a", 0.5);
  }

  lemma StepToEvidencePast()
    ensures Moves(ClosingTwice, Fires(1, Reply("q"), 0), EvidencePast)
  {
  }

  lemma StepToClosingFailed()
    ensures Moves(ClosingAnswered, Fires(0, Failure("e"), 0), ClosingFailed)
  {
  }

  lemma StepToReenabled()
    ensures Moves(ClosingFailed, Fires(0, Failure(""), 0), Reenabled)
  {
  }

  lemma StepToOverlapSent()
    ensures Moves(Reenabled, StudentSends(Defendant, "a", 0.0), OverlapSent)
  {
    SendsLetter(Reenabled, "a", 0.0);
  }

  lemma StepToInputReopened()
    ensures Moves(OverlapSent, Fires(0, Failure(""), 0), InputReopened)
  {
  }

  lemma StepToTwiceSent()
    ensures Moves(InputReopened, StudentSends(Defendant, "b", 0.0), TwiceSent)
  {
    SendsLetter(InputReopened, "b", 0.0);
  }

  lemma StepToFirstOfTwoAnswered()
    ensures Moves(TwiceSent, Fires(1, Reply("j"), 0), FirstOfTwoAnswered)
  {
  }

  lemma StepToJudgeAnsweredTwice()
    ensures Moves(FirstOfTwoAnswered, Fires(1, Reply("k"), 0), JudgeAnsweredTwice)
  {
  }

  // ---- each stage, from the state before it ---------------------------------------

  /** The page a case with one piece of evidence loads into. */
  lemma LoadedWithOnePiece(c: Case)
    requires |c.evidence| == 1
    ensures Loaded(c) == Fresh
  {
  }

  /** The openings leave the student to speak. */
  lemma OpeningGivesTheStudentTheFloor()
    ensures Run(Fresh, Opens).Some? && Bare(Run(Fresh, Opens).value) == FirstTurn
  {
    StepToJudgeOpened();
    StepToProsecutorOpened();
    StepToFirstTurn();
    ThreeMoves(Fresh, JudgeOpened, ProsecutorOpened, FirstTurn, Opens);
  }

  /** A message sent with r below 0.4 before the judge has intervened twice gets a judge
      intervention and gives the floor back to the student. */
  lemma FirstJudgeRoundCountsAnIntervention()
    ensures Run(FirstTurn, JudgeRound).Some? && Bare(Run(FirstTurn, JudgeRound).value) == SecondTurn
  {
    StepToFirstSent();
    StepToFirstAnswered();
    StepToSecondTurn();
    ThreeMoves(FirstTurn, FirstSent, FirstAnswered, SecondTurn, JudgeRound);
  }

  /** So does the one after it. */
  lemma SecondJudgeRoundCountsAnIntervention()
    ensures Run(SecondTurn, JudgeRound).Some? && Bare(Run(SecondTurn, JudgeRound).value) == ThirdTurn
  {
    StepToSecondSent();
    StepToSecondAnswered();
    StepToThirdTurn();
    ThreeMoves(SecondTurn, SecondSent, SecondAnswered, ThirdTurn, JudgeRound);
  }

  /** After two judge interventions, a message sent with r of 0.5 before the evidence
      count is reached gets the prosecutor, who presents one more piece of evidence. */
  lemma ProsecutorRoundPresentsEvidence()
    ensures Run(ThirdTurn, ProsecutorRound).Some? && Bare(Run(ThirdTurn, ProsecutorRound).value) == ClosingTurn
  {
    StepToThirdSent();
    StepToThirdAnswered();
    StepToClosingTurn();
    ThreeMoves(ThirdTurn, ThirdSent, ThirdAnswered, ClosingTurn, ProsecutorRound);
  }

  /** Once the evidence count is reached, the prosecutor's turn queues the closing and the
      student gets the floor back with the closing still queued. */
  lemma ProsecutorTurnQueuesTheClosing()
    ensures Run(ClosingTurn, ProsecutorCloses).Some? && Bare(Run(ClosingTurn, ProsecutorCloses).value) == ClosingQueued
  {
    StepToClosingSent();
    StepToClosingAnswered();
    StepToClosingQueued();
    ThreeMoves(ClosingTurn, ClosingSent, ClosingAnswered, ClosingQueued, ProsecutorCloses);
  }

  /** With the closing queued, the next message for the prosecutor queues a second one. */
  lemma SecondProsecutorTurnQueuesAnotherClosing()
    ensures Run(ClosingQueued, SendsAgain).Some? && Bare(Run(ClosingQueued, SendsAgain).value) == ClosingTwice
  {
    StepToClosingTwice();
    OneMove(ClosingQueued, ClosingTwice, SendsAgain);
  }

  /** Answering it presents a piece of evidence more. */
  lemma SecondProsecutorAnswerPresentsEvidence()
    ensures Run(ClosingTwice, ProsecutorAnswersAgain).Some? && Bare(Run(ClosingTwice, ProsecutorAnswersAgain).value) == EvidencePast
  {
    StepToEvidencePast();
    OneMove(ClosingTwice, EvidencePast, ProsecutorAnswersAgain);
  }

  /** A closing whose chat call fails leaves two re-enablings queued before the verdict. */
  lemma FailedClosingQueuesTwoReenablings()
    ensures Run(ClosingTurn, ClosingFails).Some? && Bare(Run(ClosingTurn, ClosingFails).value) == ClosingFailed
  {
    StepToClosingSent();
    StepToClosingAnswered();
    StepToClosingFailed();
    ThreeMoves(ClosingTurn, ClosingSent, ClosingAnswered, ClosingFailed, ClosingFails);
  }

  /** With two re-enablings queued, the input is enabled again while a judge follow-up is
      still queued. */
  lemma SecondReenablingOverlapsTheJudge()
    ensures Run(ClosingFailed, InputOverlaps).Some? && Bare(Run(ClosingFailed, InputOverlaps).value) == InputReopened
  {
    StepToReenabled();
    StepToOverlapSent();
    StepToInputReopened();
    ThreeMoves(ClosingFailed, Reenabled, OverlapSent, InputReopened, InputOverlaps);
  }

  /** A second message while a judge follow-up is queued queues another, and both count. */
  lemma JudgeAnswersBothMessages()
    ensures Run(InputReopened, JudgeAnswersTwice).Some? && Bare(Run(InputReopened, JudgeAnswersTwice).value) == JudgeAnsweredTwice
  {
    StepToTwiceSent();
    StepToFirstOfTwoAnswered();
    StepToJudgeAnsweredTwice();
    ThreeMoves(InputReopened, TwiceSent, FirstOfTwoAnswered, JudgeAnsweredTwice, JudgeAnswersTwice);
  }

  // ---- whole runs from the loaded page ------------------------------------------

  /** Every step of `Hearing` can be taken from the loaded page of a case with one piece
      of evidence, and it ends at the student's turn with two judge interventions made
      and the evidence presented. */
  lemma HearingReachesTheClosingTurn(c: Case)
    requires |c.evidence| == 1
    ensures var t := Run(Loaded(c), Hearing);
      && t.Some? && Bare(t.value) == ClosingTurn && Awaiting(t.value)
      && t.value.judgeInterventions == 2 && t.value.evidencePresented == 1 == t.value.totalEvidence
  {
    LoadedWithOnePiece(c);
    OpeningGivesTheStudentTheFloor();
    FirstJudgeRoundCountsAnIntervention();
    RunsChain(Fresh, Opens, JudgeRound, FirstTurn, SecondTurn);
    SecondJudgeRoundCountsAnIntervention();
    RunsChain(Fresh, Opens + JudgeRound, JudgeRound, SecondTurn, ThirdTurn);
    ProsecutorRoundPresentsEvidence();
    RunsChain(Fresh, Opens + JudgeRound + JudgeRound, ProsecutorRound, ThirdTurn, ClosingTurn);
  }

  /** Nor is the closing scheduled once only: on a run from the loaded page, each
      prosecutor turn after the evidence count is reached queues a closing, so two are
      queued at once. */
  lemma ClosingCanBeScheduledTwice(c: Case)
    requires |c.evidence| == 1
    ensures var t := Run(Loaded(c), Hearing + ProsecutorCloses + SendsAgain);
      && t.Some? && Bare(t.value) == ClosingTwice && t.value.phase == Active
      && t.value.pending == [InitiateClosing, ProsecutorFollowUp("a"), InitiateClosing]
      && CountClosing(t.value.pending) == 2
  {
    HearingReachesTheClosingTurn(c);
    ProsecutorTurnQueuesTheClosing();
    RunsChain(Loaded(c), Hearing, ProsecutorCloses, ClosingTurn, ClosingQueued);
    SecondProsecutorTurnQueuesAnotherClosing();
    RunsChain(Loaded(c), Hearing + ProsecutorCloses, SendsAgain, ClosingQueued, ClosingTwice);
    assert CountClosing(ClosingTwice.pending) == 2;
  }

  /** Nor is evidencePresented bounded by min(4, totalEvidence): on the same run, firing
      the second prosecutor follow-up brings the count to 3 over one piece of evidence. */
  lemma EvidenceCountCanPassTheEvidence(c: Case)
    requires |c.evidence| == 1
    ensures var t := Run(Loaded(c), Hearing + ProsecutorCloses + SendsAgain + ProsecutorAnswersAgain);
      && t.Some? && t.value.evidencePresented == 3 > Min(4, t.value.totalEvidence)
  {
    ClosingCanBeScheduledTwice(c);
    SecondProsecutorAnswerPresentsEvidence();
    RunsChain(Loaded(c), Hearing + ProsecutorCloses + SendsAgain, ProsecutorAnswersAgain, ClosingTwice, EvidencePast);
  }

  /** Without that proviso the code gives no bound: on a run from the loaded page the
      judge intervenes 4 times. */
  lemma JudgeCanExceedThreeWhenInputOverlaps(c: Case)
    requires |c.evidence| == 1
    ensures var t := Run(Loaded(c), Hearing + Overlap);
      && t.Some? && t.value.judgeInterventions == 4 && !JudgeBudget(t.value)
  {
    HearingReachesTheClosingTurn(c);
    FailedClosingQueuesTwoReenablings();
    SecondReenablingOverlapsTheJudge();
    RunsChain(ClosingTurn, ClosingFails, InputOverlaps, ClosingFailed, InputReopened);
    JudgeAnswersBothMessages();
    RunsChain(ClosingTurn, ClosingFails + InputOverlaps, JudgeAnswersTwice, InputReopened, JudgeAnsweredTwice);
    RunsChain(Loaded(c), Hearing, Overlap, ClosingTurn, JudgeAnsweredTwice);
  }
}
