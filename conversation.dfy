/**
 * The conversation engine of the courtroom page (frontend/js/rechtszaal.js): the session
 * state, the student's input, the persona replies and the delayed callbacks that drive
 * the hearing from opening to verdict.
 *
 * Each `setTimeout` callback of the page is a `Callback` queued in `pending`; firing one
 * is an explicit step, and any queued callback may fire next (the delays are not
 * modelled). The chat call is an input: the reply text or a failure. `Math.random()` is
 * the input `r`, `Date.now()` the input `nowMs`.
 *
 * The pure functions (`Start`, `Send`, `Fire`, `Terminated`, together `Next`) are the
 * specification; the class `Session` holds the same state in fields and its methods
 * change them in place, each proved to agree with its function.
 */
module Conversation {
  import opened Wrappers
  import opened Text
  import opened Courtroom

  datatype Phase = NotStarted | Opening | Active | Closing | Ended

  /** The order the phases are meant to follow. */
  function PhaseRank(p: Phase): nat {
    match p
    case NotStarted => 0
    case Opening => 1
    case Active => 2
    case Closing => 3
    case Ended => 4
  }

  /** The delayed callbacks the page schedules with setTimeout. */
  datatype Callback =
    | ProsecutorOpening               // after the judge's opening reply
    | EnableInput                     // after a reply in 'active', or after a failed chat call
    | JudgeFollowUp(message: string)  // the judge reacts to the student's message
    | ProsecutorFollowUp(message: string)
    | InitiateClosing
    | Verdict
    | FinishCase

  /** What the chat call gave back: the generated text, or the error that was thrown. */
  datatype ChatReply = Reply(text: string) | Failure(error: string)

  /** The page's globals: conversationState, conversationHistory, startTime, the timer,
      the defendant input's enabled flag, the queued callbacks and the last score. */
  datatype State = State(
    phase: Phase,
    judgeInterventions: nat,
    evidencePresented: nat,
    totalEvidence: nat,
    history: seq<Turn>,
    inputEnabled: bool,
    pending: seq<Callback>,
    startTime: Option<int>,
    timerRunning: bool,
    finalScore: Option<int>)

  /** The body finishCase posts to /progress/complete-case. */
  datatype CompletionReport = CompletionReport(score: int, timeSpent: int, conversationLog: seq<Turn>)

  // ---- the situations each persona is asked to respond to ---------------

  /** The situation a request describes to the persona. */
  datatype Situation =
    | HearingOpens                     // the judge opens the hearing
    | ProsecutorOpens                  // the prosecutor presents the case
    | JudgeReacts(message: string)     // the judge follows up on the student's message
    | ProsecutorReacts(message: string)
    | SentencingDemand                 // the prosecutor's closing demand
    | VerdictDue                       // the judge's verdict

  /** The text of each situation, as the page writes it. */
  function SituationText(c: Case, sit: Situation): string {
    match sit
    case HearingOpens =>
      "Je opent nu de rechtszaak over: " + c.description + ". Er is het volgende bewijs beschikbaar: "
      + Join(c.evidence, ", ") + ". Open de zitting formeel en vraag de officier om te beginnen."
    case ProsecutorOpens =>
      "De rechter heeft de zitting geopend. Presenteer nu de zaak en het eerste stuk bewijs tegen de verdachte. Gebruik concreet bewijs uit de lijst."
    case JudgeReacts(message) =>
      "De verdachte heeft geantwoord: \"" + message + "\". Reageer als rechter - stel vervolgvragen of vraag om verduidelijking. Leid het gesprek."
    case ProsecutorReacts(message) =>
      "De verdachte zegt: \"" + message + "\". Reageer hierop als officier van justitie. Presenteer nieuw bewijs of stel kritische vervolgvragen. Gebruik het beschikbare bewijs."
    case SentencingDemand =>
      "Het gesprek heeft lang genoeg geduurd. Doe nu je strafeis gebaseerd op al het gepresenteerde bewijs en de reacties van de verdachte. Wees concreet over straf."
    case VerdictDue =>
      "Na het horen van alle argumenten en bewijs, doe nu uitspraak als rechter. Weeg het bewijs en de verdediging tegen elkaar af en kom tot een vonnis."
  }

  // ---- specification -----------------------------------------------------

  /** The page right after loadCase/displayCase: nothing started, totalEvidence set. */
  function Loaded(c: Case): State {
    State(NotStarted, 0, 0, |c.evidence|, [], false, [], None, false, None)
  }

  function Min(a: int, b: int): int {
    if a <= b then a else b
  }

  /** handleConversationFlow, after persona `p` spoke. */
  function HandleFlow(s: State, p: Persona): State {
    if s.phase == Opening && p == Judge then s.(pending := s.pending + [ProsecutorOpening], phase := Active)
    else if s.phase == Active then s.(pending := s.pending + [EnableInput])
    else s
  }

  /** What sendBotMessage does once the chat call is answered: on success the reply is
      appended under the persona's name and the flow handler runs; on failure only a
      re-enabling of the input is scheduled. */
  function ApplyReply(s: State, p: Persona, reply: ChatReply): State {
    match reply
    case Reply(text) => HandleFlow(s.(history := s.history + [Turn(BotName(p), text)]), p)
    case Failure(_) => s.(pending := s.pending + [EnableInput])
  }

  /** startSimulation: phase 'opening', the timer starts, the judge opens. */
  function Start(s: State, nowMs: int, reply: ChatReply): State {
    ApplyReply(s.(phase := Opening, startTime := Some(nowMs), timerRunning := true), Judge, reply)
  }

  /** The turn rule of sendMessage. */
  predicate JudgeResponds(judgeInterventions: nat, r: real) {
    (r < 0.4 || judgeInterventions < 2) && judgeInterventions < 3
  }

  /** A trimmed, non-blank student message: it is recorded, the input disabled, and the
      next speaker queued by the turn rule. */
  function Posted(s: State, message: string, r: real): State {
    var s1 := s.(history := s.history + [Turn(StudentSpeaker(), message)], inputEnabled := false);
    if JudgeResponds(s.judgeInterventions, r) then s1.(pending := s1.pending + [JudgeFollowUp(message)])
    else if s.evidencePresented >= Min(4, s.totalEvidence) then
      s1.(pending := s1.pending + [ProsecutorFollowUp(message), InitiateClosing])
    else s1.(pending := s1.pending + [ProsecutorFollowUp(message)])
  }

  /** sendMessage: nothing at all for another caller or a blank input. The phase is not
      consulted. */
  function Send(s: State, caller: Persona, input: string, r: real): State {
    var message := Trim(input);
    if caller != Defendant || message == "" then s else Posted(s, message, r)
  }

  function Removed<T>(q: seq<T>, i: nat): (r: seq<T>)
    requires i < |q|
    ensures |r| == |q| - 1
  {
    q[..i] + q[i + 1..]
  }

  /** The persona a queued callback asks to speak; none for the other two. */
  function Speaker(cb: Callback): Option<Persona> {
    match cb
    case ProsecutorOpening => Some(Prosecutor)
    case JudgeFollowUp(_) => Some(Judge)
    case ProsecutorFollowUp(_) => Some(Prosecutor)
    case InitiateClosing => Some(Prosecutor)
    case Verdict => Some(Judge)
    case EnableInput => None
    case FinishCase => None
  }

  /** The chat request a persona is sent: who speaks, the situation, and the student
      message it answers ("" when none is quoted). */
  datatype Request = Request(persona: Persona, situation: Situation, responseTo: string)

  const OpeningRequest: Request := Request(Judge, HearingOpens, "")

  /** The request each persona callback sends. */
  function RequestOf(cb: Callback): (r: Option<Request>)
    ensures r.Some? <==> Speaker(cb).Some?
    ensures r.Some? ==> r.value.persona == Speaker(cb).value
  {
    match cb
    case ProsecutorOpening => Some(Request(Prosecutor, ProsecutorOpens, ""))
    case JudgeFollowUp(message) => Some(Request(Judge, JudgeReacts(message), message))
    case ProsecutorFollowUp(message) => Some(Request(Prosecutor, ProsecutorReacts(message), message))
    case InitiateClosing => Some(Request(Prosecutor, SentencingDemand, ""))
    case Verdict => Some(Request(Judge, VerdictDue, ""))
    case EnableInput => None
    case FinishCase => None
  }

  /** The system prompt a request carries, built from the case and the history so far. */
  function RequestPrompt(c: Case, h: seq<Turn>, rq: Request): string {
    PromptText(c, h, SituationText(c, rq.situation), rq.responseTo, rq.persona)
  }

  /** What a persona callback changes before its request is answered: the judge's
      follow-up counts an intervention, the prosecutor's follow-up a piece of evidence,
      the closing sets 'closing', the verdict sets 'ended' and queues the finish. */
  function BeforeRequest(s: State, cb: Callback): State {
    match cb
    case JudgeFollowUp(_) => s.(judgeInterventions := s.judgeInterventions + 1)
    case ProsecutorFollowUp(_) => s.(evidencePresented := s.evidencePresented + 1)
    case InitiateClosing => s.(phase := Closing)
    case Verdict => s.(phase := Ended, pending := s.pending + [FinishCase])
    case _ => s
  }

  /** What it does once the request has settled, either way: the closing queues the verdict. */
  function AfterReply(s: State, cb: Callback): State {
    if cb == InitiateClosing then s.(pending := s.pending + [Verdict]) else s
  }

  /** finishCase: the timer stops and the score is computed from the history as it is. */
  function Finished(s: State, nowMs: int): State {
    var student := StudentTurns(s.history);
    s.(timerRunning := false,
       finalScore := Some(Score(ElapsedSeconds(s.startTime, nowMs), |student|, TotalLength(student))))
  }

  /** Firing the queued callback at position i. */
  function Fire(s: State, i: nat, reply: ChatReply, nowMs: int): State
    requires i < |s.pending|
  {
    var cb := s.pending[i];
    var s0 := s.(pending := Removed(s.pending, i));
    match Speaker(cb)
    case Some(p) => AfterReply(ApplyReply(BeforeRequest(s0, cb), p, reply), cb)
    case None => if cb == EnableInput then s0.(inputEnabled := true) else Finished(s0, nowMs)
  }

  /** endCase: finishes only when the student confirms; the phase is left as it is. */
  function Terminated(s: State, confirmed: bool, nowMs: int): State {
    if confirmed then Finished(s, nowMs) else s
  }

  /** The steps a session can take. */
  datatype Event =
    | StartSimulation(nowMs: int, reply: ChatReply)
    | StudentSends(caller: Persona, input: string, r: real)
    | Fires(index: nat, reply: ChatReply, nowMs: int)
    | EndsCase(confirmed: bool, nowMs: int)

  /** A queued callback can only fire while it is queued, the student can only send
      while the page has the input enabled, and the simulation starts only once: its
      button is disabled on the first click and enabled only when the case is shown. */
  predicate CanTake(s: State, e: Event) {
    && (e.Fires? ==> e.index < |s.pending|)
    && (e.StudentSends? ==> s.inputEnabled)
    && (e.StartSimulation? ==> s.phase == NotStarted)
  }

  function Next(s: State, e: Event): State
    requires CanTake(s, e)
  {
    match e
    case StartSimulation(now, reply) => Start(s, now, reply)
    case StudentSends(caller, input, r) => Send(s, caller, input, r)
    case Fires(i, reply, now) => Fire(s, i, reply, now)
    case EndsCase(confirmed, now) => Terminated(s, confirmed, now)
  }

  // ---- properties --------------------------------------------------------

  /** sendMessage acts exactly when the defendant sends a non-blank input, and then on
      the trimmed text. */
  lemma SendCases(s: State, caller: Persona, input: string, r: real)
    ensures Send(s, caller, input, r) == if caller == Defendant && !IsBlank(input) then Posted(s, Trim(input), r) else s
  {
    var message := Trim(input);
    if caller == Defendant {
      if message == "" {
        assert IsBlank(input);
      } else {
        assert !IsBlank(input);
      }
    }
  }

  /** What a persona step adds to the history: its reply, or nothing when the call failed. */
  function Spoken(p: Persona, reply: ChatReply): (r: seq<Turn>)
    ensures |r| <= 1
  {
    if reply.Reply? then [Turn(BotName(p), reply.text)] else []
  }

  lemma ApplyReplyHistory(s: State, p: Persona, reply: ChatReply)
    ensures ApplyReply(s, p, reply).history == s.history + Spoken(p, reply)
  {
    if reply.Failure? {
      assert s.history + [] == s.history;
    }
  }

  /** Firing a callback adds at most the persona's reply to the history. */
  lemma FireHistory(s: State, i: nat, reply: ChatReply, nowMs: int)
    requires i < |s.pending|
    ensures var p := Speaker(s.pending[i]);
      Fire(s, i, reply, nowMs).history == s.history + (if p.Some? then Spoken(p.value, reply) else [])
  {
    var cb := s.pending[i];
    var s0 := s.(pending := Removed(s.pending, i));
    match Speaker(cb)
    case Some(p) => ApplyReplyHistory(BeforeRequest(s0, cb), p, reply);
    case None => assert s.history + [] == s.history;
  }

  /** One step grows the history from `h` to `h'` by at most one entry at the end. */
  predicate AppendsAtMostOne(h: seq<Turn>, h': seq<Turn>) {
    h <= h' && |h'| <= |h| + 1
  }

  lemma StartHistory(s: State, now: int, reply: ChatReply)
    ensures AppendsAtMostOne(s.history, Start(s, now, reply).history)
  {
    ApplyReplyHistory(s.(phase := Opening, startTime := Some(now), timerRunning := true), Judge, reply);
  }

  lemma SendHistory(s: State, caller: Persona, input: string, r: real)
    ensures AppendsAtMostOne(s.history, Send(s, caller, input, r).history)
  {
    SendCases(s, caller, input, r);
  }

  lemma FireGrowsHistory(s: State, i: nat, reply: ChatReply, now: int)
    requires i < |s.pending|
    ensures AppendsAtMostOne(s.history, Fire(s, i, reply, now).history)
  {
    FireHistory(s, i, reply, now);
  }

  /** The history only ever grows, by at most one turn per step: entries are never
      reordered, changed or removed. */
  lemma HistoryIsAppendOnly(s: State, e: Event)
    requires CanTake(s, e)
    ensures s.history <= Next(s, e).history
    ensures |Next(s, e).history| <= |s.history| + 1
  {
    match e
    case StartSimulation(now, reply) => StartHistory(s, now, reply);
    case StudentSends(caller, input, r) => SendHistory(s, caller, input, r);
    case Fires(i, reply, now) => FireGrowsHistory(s, i, reply, now);
    case EndsCase(confirmed, now) =>
  }

  /** A persona step whose chat call failed appends nothing and schedules the input's re-enabling. */
  lemma FailedReplyReenablesInput(s: State, p: Persona, error: string)
    ensures ApplyReply(s, p, Failure(error)).history == s.history
    ensures ApplyReply(s, p, Failure(error)).pending == s.pending + [EnableInput]
  {
  }

  /** A successful reply is recorded under the persona's display name; in 'active' it
      schedules the input's re-enabling, in 'closing' or 'ended' nothing further. */
  lemma SuccessfulReplyIsRecorded(s: State, p: Persona, text: string)
    ensures ApplyReply(s, p, Reply(text)).history == s.history + [Turn(BotName(p), text)]
    ensures s.phase == Active ==> ApplyReply(s, p, Reply(text)).pending == s.pending + [EnableInput]
    ensures s.phase == Closing || s.phase == Ended ==> ApplyReply(s, p, Reply(text)).pending == s.pending
    ensures s.phase == Opening && p == Judge ==> ApplyReply(s, p, Reply(text)).phase == Active
  {
  }

  /** The student's input: ignored for other callers and for blank text; otherwise
      exactly one turn with the trimmed text is appended and input is disabled. */
  lemma StudentInputRules(s: State, caller: Persona, input: string, r: real)
    ensures caller != Defendant ==> Send(s, caller, input, r) == s
    ensures IsBlank(input) ==> Send(s, caller, input, r) == s
    ensures caller == Defendant && !IsBlank(input) ==>
      Send(s, caller, input, r).history == s.history + [Turn(StudentSpeaker(), Trim(input))]
      && !Send(s, caller, input, r).inputEnabled
      && Send(s, caller, input, r).phase == s.phase
  {
    SendCases(s, caller, input, r);
  }

  function JudgeWeight(c: Callback): nat {
    if c.JudgeFollowUp? then 1 else 0
  }

  function ClosingWeight(c: Callback): nat {
    if c == InitiateClosing then 1 else 0
  }

  /** How many judge follow-ups are queued. */
  function CountJudge(q: seq<Callback>): nat {
    if q == [] then 0 else JudgeWeight(q[0]) + CountJudge(q[1..])
  }

  /** How many closings are queued. */
  function CountClosing(q: seq<Callback>): nat {
    if q == [] then 0 else ClosingWeight(q[0]) + CountClosing(q[1..])
  }

  lemma {:induction false} CountJudgeAppend(a: seq<Callback>, b: seq<Callback>)
    ensures CountJudge(a + b) == CountJudge(a) + CountJudge(b)
  {
    if a == [] {
      assert a + b == b;
    } else {
      assert (a + b)[1..] == a[1..] + b;
      CountJudgeAppend(a[1..], b);
    }
  }

  lemma {:induction false} CountClosingAppend(a: seq<Callback>, b: seq<Callback>)
    ensures CountClosing(a + b) == CountClosing(a) + CountClosing(b)
  {
    if a == [] {
      assert a + b == b;
    } else {
      assert (a + b)[1..] == a[1..] + b;
      CountClosingAppend(a[1..], b);
    }
  }

  lemma {:induction false} CountJudgeRemoved(q: seq<Callback>, i: nat)
    requires i < |q|
    ensures CountJudge(q) == CountJudge(Removed(q, i)) + JudgeWeight(q[i])
  {
    if i == 0 {
      assert Removed(q, 0) == q[1..];
    } else {
      CountJudgeRemoved(q[1..], i - 1);
      assert Removed(q, i)[1..] == Removed(q[1..], i - 1);
    }
  }

  /** The turn rule: after a student message the judge is queued to respond exactly when
      (r < 0.4 or fewer than 2 interventions) and fewer than 3 interventions; otherwise the
      prosecutor is, together with the closing when the evidence count (before the
      prosecutor's increment) has reached min(4, totalEvidence). Neither count moves yet. */
  lemma TurnRule(s: State, message: string, r: real)
    ensures var s' := Posted(s, message, r);
      && CountJudge(s'.pending) == CountJudge(s.pending) + (if JudgeResponds(s.judgeInterventions, r) then 1 else 0)
      && CountClosing(s'.pending) == CountClosing(s.pending)
           + (if !JudgeResponds(s.judgeInterventions, r) && s.evidencePresented >= Min(4, s.totalEvidence) then 1 else 0)
      && |s'.pending| == |s.pending|
           + (if !JudgeResponds(s.judgeInterventions, r) && s.evidencePresented >= Min(4, s.totalEvidence) then 2 else 1)
      && s'.judgeInterventions == s.judgeInterventions && s'.evidencePresented == s.evidencePresented
  {
    var q := s.pending;
    if JudgeResponds(s.judgeInterventions, r) {
      CountJudgeAppend(q, [JudgeFollowUp(message)]);
      CountClosingAppend(q, [JudgeFollowUp(message)]);
    } else if s.evidencePresented >= Min(4, s.totalEvidence) {
      var t := [ProsecutorFollowUp(message), InitiateClosing];
      CountJudgeAppend(q, t);
      CountClosingAppend(q, t);
      assert t[1..] == [InitiateClosing] && t[1..][1..] == [];
      assert CountJudge([InitiateClosing]) == 0 && CountClosing([InitiateClosing]) == 1;
      assert CountJudge(t) == 0 && CountClosing(t) == 1;
    } else {
      CountJudgeAppend(q, [ProsecutorFollowUp(message)]);
      CountClosingAppend(q, [ProsecutorFollowUp(message)]);
    }
  }

  /** Judge interventions already made plus those queued stay within 3. */
  predicate JudgeBudget(s: State) {
    s.judgeInterventions + CountJudge(s.pending) <= 3
  }

  lemma ApplyReplyKeepsJudgeCount(s: State, p: Persona, reply: ChatReply)
    ensures ApplyReply(s, p, reply).judgeInterventions == s.judgeInterventions
    ensures CountJudge(ApplyReply(s, p, reply).pending) == CountJudge(s.pending)
  {
    match reply
    case Reply(text) =>
      var s1 := s.(history := s.history + [Turn(BotName(p), text)]);
      if s1.phase == Opening && p == Judge {
        CountJudgeAppend(s1.pending, [ProsecutorOpening]);
      } else if s1.phase == Active {
        CountJudgeAppend(s1.pending, [EnableInput]);
      }
    case Failure(_) => CountJudgeAppend(s.pending, [EnableInput]);
  }

  /** Firing a queued judge follow-up turns it into an intervention; any other callback
      leaves interventions and queued follow-ups alone. */
  lemma FireMovesJudgeCount(s: State, i: nat, reply: ChatReply, nowMs: int)
    requires i < |s.pending|
    ensures var s' := Fire(s, i, reply, nowMs);
      && s'.judgeInterventions == s.judgeInterventions + JudgeWeight(s.pending[i])
      && CountJudge(s'.pending) + JudgeWeight(s.pending[i]) == CountJudge(s.pending)
  {
    var cb := s.pending[i];
    var s0 := s.(pending := Removed(s.pending, i));
    CountJudgeRemoved(s.pending, i);
    match Speaker(cb)
    case Some(p) =>
      var s1 := BeforeRequest(s0, cb);
      BeforeRequestJudgeCount(s0, cb);
      ApplyReplyKeepsJudgeCount(s1, p, reply);
      AfterReplyJudgeCount(ApplyReply(s1, p, reply), cb);
    case None =>
  }

  lemma BeforeRequestJudgeCount(s: State, cb: Callback)
    ensures BeforeRequest(s, cb).judgeInterventions == s.judgeInterventions + JudgeWeight(cb)
    ensures CountJudge(BeforeRequest(s, cb).pending) == CountJudge(s.pending)
  {
    CountJudgeAppend(s.pending, [FinishCase]);
  }

  lemma AfterReplyJudgeCount(s: State, cb: Callback)
    ensures AfterReply(s, cb).judgeInterventions == s.judgeInterventions
    ensures CountJudge(AfterReply(s, cb).pending) == CountJudge(s.pending)
  {
    CountJudgeAppend(s.pending, [Verdict]);
  }

  /** Every step keeps the judge budget, provided the student does not send while a judge
      follow-up is still queued. Disabling the input does not guarantee that proviso: a
      failed chat call queues a re-enabling of its own, so two re-enablings can be queued
      at once (see HearingRuns.JudgeCanExceedThreeWhenInputOverlaps). */
  lemma JudgeBudgetIsKept(s: State, e: Event)
    requires CanTake(s, e) && JudgeBudget(s)
    requires e.StudentSends? ==> CountJudge(s.pending) == 0
    ensures JudgeBudget(Next(s, e))
  {
    match e
    case StartSimulation(now, reply) =>
      ApplyReplyKeepsJudgeCount(s.(phase := Opening, startTime := Some(now), timerRunning := true), Judge, reply);
    case StudentSends(caller, input, r) =>
      SendCases(s, caller, input, r);
      TurnRule(s, Trim(input), r);
    case Fires(i, reply, now) => FireMovesJudgeCount(s, i, reply, now);
    case EndsCase(confirmed, now) =>
  }

  /** Under the budget, the judge never intervenes more than 3 times. */
  lemma JudgeBudgetBoundsInterventions(s: State)
    requires JudgeBudget(s)
    ensures s.judgeInterventions <= 3
  {
  }

  lemma LoadedIsWithinBudget(c: Case)
    ensures JudgeBudget(Loaded(c)) && Loaded(c).phase == NotStarted && Loaded(c).history == []
  {
  }

  lemma LettersAreNotBlank()
    ensures Trim("a") == "a" && Trim("b") == "b"
    ensures !IsBlank("a") && !IsBlank("b")
  {
    assert !IsWhitespace('a') && !IsWhitespace('b');
    assert "a"[0] == 'a' && "b"[0] == 'b';
  }

  /** With two closings queued, one closing's verdict ends the case and the other closing,
      firing after it, takes the phase from 'ended' back to 'closing'. */
  lemma SecondClosingReopensEndedCase(s: State)
    requires s.pending == [InitiateClosing, InitiateClosing]
    ensures var s1 := Fire(s, 0, Reply("x"), 0);
      |s1.pending| == 2 && (var s2 := Fire(s1, 1, Reply("v"), 0);
      |s2.pending| == 2 && (var s3 := Fire(s2, 0, Reply("y"), 0);
      s2.phase == Ended && s3.phase == Closing))
  {
    var s1 := Fire(s, 0, Reply("x"), 0);
    assert s1.pending == [InitiateClosing, Verdict];
    var s2 := Fire(s1, 1, Reply("v"), 0);
    assert s2.pending == [InitiateClosing, FinishCase];
  }

  /** Apart from a closing callback, no step moves the phase backwards; the start moves
      it to 'opening' and the judge's reply in 'opening' moves it to 'active'. */
  lemma PhaseAdvancesExceptClosing(s: State, e: Event)
    requires CanTake(s, e)
    requires e.Fires? ==> s.pending[e.index] != InitiateClosing
    ensures PhaseRank(s.phase) <= PhaseRank(Next(s, e).phase)
  {
    match e
    case StartSimulation(now, reply) =>
      ApplyReplyKeepsPhaseOrder(s.(phase := Opening, startTime := Some(now), timerRunning := true), Judge, reply);
    case StudentSends(caller, input, r) => SendKeepsPhase(s, caller, input, r);
    case Fires(i, reply, now) => FireKeepsPhaseOrder(s, i, reply, now);
    case EndsCase(confirmed, now) =>
  }

  /** sendMessage never looks at or moves the phase. */
  lemma SendKeepsPhase(s: State, caller: Persona, input: string, r: real)
    ensures Send(s, caller, input, r).phase == s.phase
  {
    SendCases(s, caller, input, r);
  }

  lemma ApplyReplyKeepsPhaseOrder(s: State, p: Persona, reply: ChatReply)
    ensures PhaseRank(s.phase) <= PhaseRank(ApplyReply(s, p, reply).phase)
  {
  }

  lemma FireKeepsPhaseOrder(s: State, i: nat, reply: ChatReply, nowMs: int)
    requires i < |s.pending| && s.pending[i] != InitiateClosing
    ensures PhaseRank(s.phase) <= PhaseRank(Fire(s, i, reply, nowMs).phase)
  {
    var cb := s.pending[i];
    var s0 := s.(pending := Removed(s.pending, i));
    match Speaker(cb)
    case Some(p) =>
      var s1 := BeforeRequest(s0, cb);
      assert PhaseRank(s.phase) <= PhaseRank(s1.phase);
      ApplyReplyKeepsPhaseOrder(s1, p, reply);
    case None =>
  }

  /** Starting always reaches 'opening', and a successful opening reply turns it into
      'active' with the prosecutor's opening queued. */
  lemma StartOpensTheHearing(s: State, nowMs: int, text: string)
    ensures Start(s, nowMs, Reply(text)).phase == Active
    ensures Start(s, nowMs, Reply(text)).pending == s.pending + [ProsecutorOpening]
    ensures Start(s, nowMs, Failure(text)).phase == Opening
    ensures Start(s, nowMs, Reply(text)).startTime == Some(nowMs)
  {
  }

  /** Manual termination computes the score from the history as it stands, in any phase,
      and leaves the phase as it was. */
  lemma EndCaseScoresCurrentHistory(s: State, nowMs: int)
    ensures var s' := Terminated(s, true, nowMs);
      && s'.phase == s.phase && s'.history == s.history
      && s'.finalScore.Some? && 50 <= s'.finalScore.value <= 100
      && s'.finalScore.value == Score(ElapsedSeconds(s.startTime, nowMs), |StudentTurns(s.history)|, TotalLength(StudentTurns(s.history)))
    ensures Terminated(s, false, nowMs) == s
  {
  }

  // ---- the session object --------------------------------------------------

  /** The page's session, its globals held as fields and updated in place. */
  class Session {
    const courtCase: Case
    var phase: Phase
    var judgeInterventions: nat
    var evidencePresented: nat
    var totalEvidence: nat
    var history: seq<Turn>
    var inputEnabled: bool
    var pending: seq<Callback>
    var startTime: Option<int>
    var timerRunning: bool
    var finalScore: Option<int>

    ghost function Snapshot(): State
      reads this
    {
      State(phase, judgeInterventions, evidencePresented, totalEvidence, history, inputEnabled,
            pending, startTime, timerRunning, finalScore)
    }

    /** The page once loadCase has shown the case (displayCase). */
    constructor (c: Case)
      ensures courtCase == c && Snapshot() == Loaded(c)
    {
      courtCase := c;
      phase := NotStarted;
      judgeInterventions := 0;
      evidencePresented := 0;
      totalEvidence := |c.evidence|;
      history := [];
      inputEnabled := false;
      pending := [];
      startTime := None;
      timerRunning := false;
      finalScore := None;
    }

    /** The tail of sendBotMessage: record the reply and run the flow handler, or
        schedule the input's re-enabling. */
    method ApplyChatReply(p: Persona, reply: ChatReply)
      modifies this
      ensures Snapshot() == ApplyReply(old(Snapshot()), p, reply)
    {
      match reply {
        case Reply(text) =>
          history := history + [Turn(BotName(p), text)];
          if phase == Opening && p == Judge {
            pending := pending + [ProsecutorOpening];
            phase := Active;
          } else if phase == Active {
            pending := pending + [EnableInput];
          }
        case Failure(_) =>
          pending := pending + [EnableInput];
      }
    }

    /** The system prompt sendBotMessage builds for a request, from the history as it
        stands when the request is sent. */
    method ComposePrompt(rq: Request) returns (prompt: string)
      ensures prompt == RequestPrompt(courtCase, history, rq)
    {
      prompt := BuildPrompt(courtCase, history, SituationText(courtCase, rq.situation), rq.responseTo, rq.persona);
    }

    /** startSimulation: the judge is sent `OpeningRequest`, whose prompt is
        `ComposePrompt(OpeningRequest)` taken before this call. */
    method StartSimulation(nowMs: int, reply: ChatReply)
      modifies this
      ensures Snapshot() == Start(old(Snapshot()), nowMs, reply)
    {
      phase := Opening;
      startTime := Some(nowMs);
      timerRunning := true;
      ApplyChatReply(Judge, reply);
    }

    /** The student's trimmed, non-blank message, queued for the next speaker. */
    method Post(message: string, r: real)
      modifies this
      ensures Snapshot() == Posted(old(Snapshot()), message, r)
    {
      history := history + [Turn(StudentSpeaker(), message)];
      inputEnabled := false;
      var shouldJudgeRespond := r < 0.4 || judgeInterventions < 2;
      if shouldJudgeRespond && judgeInterventions < 3 {
        pending := pending + [JudgeFollowUp(message)];
      } else {
        pending := pending + [ProsecutorFollowUp(message)];
        if evidencePresented >= Min(4, totalEvidence) {
          pending := pending + [InitiateClosing];
        }
      }
    }

    /** sendMessage, with `r` the value Math.random() drew. */
    method SendMessage(caller: Persona, input: string, r: real)
      modifies this
      ensures Snapshot() == Send(old(Snapshot()), caller, input, r)
    {
      if caller != Defendant {
        return;
      }
      var message := Trim(input);
      if message == "" {
        return;
      }
      Post(message, r);
    }

    method TakePending(i: nat)
      requires i < |pending|
      modifies this
      ensures Snapshot() == old(Snapshot()).(pending := Removed(old(pending), i))
    {
      pending := Removed(pending, i);
    }

    method Prepare(cb: Callback)
      modifies this
      ensures Snapshot() == BeforeRequest(old(Snapshot()), cb)
    {
      match cb {
        case JudgeFollowUp(_) => judgeInterventions := judgeInterventions + 1;
        case ProsecutorFollowUp(_) => evidencePresented := evidencePresented + 1;
        case InitiateClosing => phase := Closing;
        case Verdict =>
          phase := Ended;
          pending := pending + [FinishCase];
        case _ =>
      }
    }

    method Conclude(cb: Callback)
      modifies this
      ensures Snapshot() == AfterReply(old(Snapshot()), cb)
    {
      if cb == InitiateClosing {
        pending := pending + [Verdict];
      }
    }

    /** A persona callback fires: the prosecutor's opening, a follow-up of either persona,
        the closing or the verdict. It gives the request it sends; the history is not
        touched before the reply, so the prompt is `ComposePrompt(rq)` taken just before. */
    method FireRequest(i: nat, reply: ChatReply) returns (rq: Request)
      requires i < |pending| && Speaker(pending[i]).Some?
      modifies this
      ensures Some(rq) == RequestOf(old(pending[i])) && rq.persona == Speaker(old(pending[i])).value
      ensures Snapshot() == Fire(old(Snapshot()), i, reply, 0)
    {
      var cb := pending[i];
      rq := RequestOf(cb).value;
      TakePending(i);
      Prepare(cb);
      ApplyChatReply(rq.persona, reply);
      Conclude(cb);
    }

    method FireEnableInput(i: nat)
      requires i < |pending| && pending[i] == EnableInput
      modifies this
      ensures Snapshot() == Fire(old(Snapshot()), i, Failure(""), 0)
    {
      TakePending(i);
      inputEnabled := true;
    }

    /** finishCase: stop the timer, score the history as it stands, and give the body
        posted to /progress/complete-case. */
    method Finish(nowMs: int) returns (report: CompletionReport)
      modifies this
      ensures Snapshot() == Finished(old(Snapshot()), nowMs)
      ensures report == CompletionReport(finalScore.value, ElapsedSeconds(startTime, nowMs), history)
      ensures 50 <= report.score <= 100
    {
      timerRunning := false;
      var elapsed := ElapsedSeconds(startTime, nowMs);
      var score := CalculateScore(elapsed, history);
      finalScore := Some(score);
      report := CompletionReport(score, elapsed, history);
    }

    method FireFinishCase(i: nat, nowMs: int) returns (report: CompletionReport)
      requires i < |pending| && pending[i] == FinishCase
      modifies this
      ensures Snapshot() == Fire(old(Snapshot()), i, Failure(""), nowMs)
      ensures report.conversationLog == old(history) && 50 <= report.score <= 100
    {
      TakePending(i);
      report := Finish(nowMs);
    }

    /** endCase: finishes when the student confirms. Queued callbacks stay queued. */
    method EndCase(confirmed: bool, nowMs: int) returns (report: Option<CompletionReport>)
      modifies this
      ensures Snapshot() == Terminated(old(Snapshot()), confirmed, nowMs)
      ensures report.Some? <==> confirmed
    {
      if confirmed {
        var r := Finish(nowMs);
        report := Some(r);
      } else {
        report := None;
      }
    }
  }
}
