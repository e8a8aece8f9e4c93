/**
 * The pure parts of the courtroom page (frontend/js/rechtszaal.js): the three personas
 * and their fixed tables, the prompt sent to the chat model, the final score, the score
 * feedback band and the mm:ss timer text.
 */
module Courtroom {
  import opened Text
  import opened Wrappers

  // ---- personas ----------------------------------------------------------

  /** The three roles the page drives: 'rechter', 'officier' and 'verdachte'. */
  datatype Persona = Judge | Prosecutor | Defendant

  /** The display name a persona's turns are recorded under (getBotName). */
  function BotName(p: Persona): string {
    match p
    case Judge => "Rechter Van der Berg"
    case Prosecutor => "Officier Jansen"
    case Defendant => "Alex Vermeer"
  }

  /** The behavioural instruction closing every prompt (getCharacterInstructions). */
  function CharacterInstructions(p: Persona): string {
    match p
    case Judge =>
      "\nJe bent Rechter Van der Berg. Leid het gesprek neutraal, stel verhelderende vragen, zorg voor orde. Presenteer bewijs alleen als dat nodig is voor verduidelijking. Wees kort maar autoritair."
    case Prosecutor =>
      "\nJe bent Officier van Justitie Jansen. Presenteer bewijs uit de lijst, stel kritische vragen, probeer schuld aan te tonen. Gebruik het beschikbare bewijs strategisch. Wees professioneel maar assertief."
    case Defendant =>
      "\nJe bent Alex Vermeer, de verdachte. Reageer menselijk en emotioneel op beschuldigingen. Je kunt onschuldig zijn of schuldig maar met verklaringen. Wees authentiek."
  }

  /** The speaker under which the student's own turns are recorded. */
  function StudentSpeaker(): string { "Alex Vermeer (Verdachte - JIJ)" }

  /** The marker the scorer looks for in a speaker to recognise the student. */
  function StudentMarker(): string { "JIJ" }

  /** One entry of the conversation history. */
  datatype Turn = Turn(speaker: string, message: string)

  /** The scenario the page loaded: title, description and evidence list. */
  datatype Case = Case(title: string, description: string, evidence: seq<string>)

  /** A persona's name never carries the student marker, the student's speaker does:
      so the scorer counts exactly the student's turns. */
  lemma SpeakersAreTellable(p: Persona)
    ensures !Contains(BotName(p), StudentMarker())
    ensures Contains(StudentSpeaker(), StudentMarker())
  {
    assert Slice(StudentSpeaker(), 26, 3) == StudentMarker();
    var name := BotName(p);
    forall i | 0 <= i <= |name| - 3 ensures Slice(name, i, 3) != StudentMarker() {
      assert name[i] != 'J' || name[i + 1] != 'I';
      assert Slice(name, i, 3)[0] == name[i] && Slice(name, i, 3)[1] == name[i + 1];
    }
  }

  // ---- prompt ------------------------------------------------------------

  /** One history line of the prompt: `speaker: message`. */
  function TranscriptLine(t: Turn): string {
    t.speaker + ": " + t.message + "\n"
  }

  /** The history lines, oldest first. */
  function TranscriptLines(h: seq<Turn>): string {
    if h == [] then "" else TranscriptLine(h[0]) + TranscriptLines(h[1..])
  }

  function TitleLine(c: Case): string {
    "RECHTSZAAK: " + c.title + "\n"
  }

  function DescriptionLine(c: Case): string {
    "BESCHRIJVING: " + c.description + "\n"
  }

  /** The evidence, joined by '; ', followed by an empty line. */
  function EvidenceLine(c: Case): string {
    "BEWIJS: " + Join(c.evidence, "; ") + "\n\n"
  }

  function CaseHeader(c: Case): string {
    TitleLine(c) + DescriptionLine(c) + EvidenceLine(c)
  }

  function TranscriptHeading(): string { "GESPREKSVERLAUF TOT NU:\n" }

  /** The history block, present only when there is history. */
  function TranscriptBlock(h: seq<Turn>): string {
    if h == [] then "" else TranscriptHeading() + TranscriptLines(h) + "\n"
  }

  function SituationLine(situation: string): string {
    "HUIDIGE SITUATIE: " + situation + "\n"
  }

  /** The quote of the message replied to; absent when there is none (null or the empty,
      falsy string). */
  function QuoteBlock(responseTo: string): string {
    if responseTo != "" then "REAGEER OP: \"" + responseTo + "\"\n" else ""
  }

  /** The system prompt sendBotMessage sends for persona `p`. */
  function PromptText(c: Case, h: seq<Turn>, situation: string, responseTo: string, p: Persona): string {
    CaseHeader(c) + TranscriptBlock(h) + SituationLine(situation) + QuoteBlock(responseTo) + CharacterInstructions(p)
  }

  lemma {:induction false} TranscriptLinesAppend(h: seq<Turn>, t: Turn)
    ensures TranscriptLines(h + [t]) == TranscriptLines(h) + TranscriptLine(t)
  {
    if h == [] {
      assert [t][1..] == [];
    } else {
      assert (h + [t])[1..] == h[1..] + [t];
      TranscriptLinesAppend(h[1..], t);
    }
  }

  /** The history loop of sendBotMessage: one `speaker: message` line per turn, in order. */
  method AppendTranscriptLines(start: string, h: seq<Turn>) returns (text: string)
    ensures text == start + TranscriptLines(h)
  {
    text := start;
    var i := 0;
    while i < |h|
      invariant 0 <= i <= |h|
      invariant text == start + TranscriptLines(h[..i])
    {
      TranscriptLinesAppend(h[..i], h[i]);
      assert h[..i + 1] == h[..i] + [h[i]];
      AppendAssoc(start, TranscriptLines(h[..i]), TranscriptLine(h[i]));
      text := text + TranscriptLine(h[i]);
      i := i + 1;
    }
    assert h[..i] == h;
  }

  /** The history part of sendBotMessage: heading, lines and an empty line, only when
      there is history. */
  method AppendTranscriptBlock(start: string, h: seq<Turn>) returns (text: string)
    ensures text == start + TranscriptBlock(h)
  {
    text := start;
    if |h| > 0 {
      text := AppendTranscriptLines(text + TranscriptHeading(), h);
      AppendAssoc(start, TranscriptHeading(), TranscriptLines(h));
      AppendAssoc(start, TranscriptHeading() + TranscriptLines(h), "\n");
      text := text + "\n";
    } else {
      assert start + TranscriptBlock(h) == start;
    }
  }

  /** Builds the prompt piece by piece, as sendBotMessage does with `fullContext +=`. */
  method BuildPrompt(c: Case, h: seq<Turn>, situation: string, responseTo: string, p: Persona)
    returns (prompt: string)
    ensures prompt == PromptText(c, h, situation, responseTo, p)
  {
    prompt := TitleLine(c);
    prompt := prompt + DescriptionLine(c);
    prompt := prompt + EvidenceLine(c);
    prompt := AppendTranscriptBlock(prompt, h);
    prompt := prompt + SituationLine(situation);
    prompt := prompt + QuoteBlock(responseTo);
    prompt := prompt + CharacterInstructions(p);
  }

  lemma AppendParts(x: string, y: string)
    ensures (x + y)[..|x|] == x && (x + y)[|x|..] == y
  {
  }

  lemma AppendAssoc(x: string, y: string, z: string)
    ensures x + (y + z) == (x + y) + z
  {
  }

  lemma PrefixSurvivesAppend(x: string, y: string, p: string)
    requires StartsWith(x, p)
    ensures StartsWith(x + y, p)
  {
    assert (x + y)[..|p|] == x[..|p|];
  }

  /** Every prompt opens with the case title and closes with the persona's instruction. */
  lemma PromptFrame(c: Case, h: seq<Turn>, situation: string, responseTo: string, p: Persona)
    ensures StartsWith(PromptText(c, h, situation, responseTo, p), TitleLine(c))
    ensures var r := PromptText(c, h, situation, responseTo, p);
      |CharacterInstructions(p)| <= |r| && r[|r| - |CharacterInstructions(p)|..] == CharacterInstructions(p)
  {
    var x0 := TitleLine(c);
    assert StartsWith(x0, x0);
    var x1 := x0 + DescriptionLine(c);
    PrefixSurvivesAppend(x0, DescriptionLine(c), x0);
    var x2 := x1 + EvidenceLine(c);
    PrefixSurvivesAppend(x1, EvidenceLine(c), x0);
    var x3 := x2 + TranscriptBlock(h);
    PrefixSurvivesAppend(x2, TranscriptBlock(h), x0);
    var x4 := x3 + SituationLine(situation);
    PrefixSurvivesAppend(x3, SituationLine(situation), x0);
    var x5 := x4 + QuoteBlock(responseTo);
    PrefixSurvivesAppend(x4, QuoteBlock(responseTo), x0);
    PrefixSurvivesAppend(x5, CharacterInstructions(p), x0);
    AppendParts(x5, CharacterInstructions(p));
  }

  /** A turn added to the history shows up as one more line of the transcript block, right
      after the earlier lines: nothing earlier is reordered or lost. */
  lemma TranscriptBlockGrows(h: seq<Turn>, t: Turn)
    ensures TranscriptBlock(h + [t]) == TranscriptHeading() + TranscriptLines(h) + TranscriptLine(t) + "\n"
  {
    TranscriptLinesAppend(h, t);
    AppendAssoc(TranscriptHeading(), TranscriptLines(h), TranscriptLine(t));
  }

  // ---- score -------------------------------------------------------------

  /** Elapsed seconds: t < 300 gives +10, < 600 +20, < 900 +15, < 1200 +10, otherwise nothing. */
  function TimeBonus(t: int): int {
    if t < 300 then 10 else if t < 600 then 20 else if t < 900 then 15 else if t < 1200 then 10 else 0
  }

  /** Number of student turns: >= 5 gives +20, >= 3 +15, >= 1 +10. */
  function ParticipationBonus(n: nat): int {
    if n >= 5 then 20 else if n >= 3 then 15 else if n >= 1 then 10 else 0
  }

  /** Average student message length total/n: > 100 gives +15, > 50 +10, > 20 +5. With no
      student turn the average is 0/0 (NaN), every comparison fails and nothing is added.
      For n > 0, total/n > k exactly when total > k * n. */
  function EngagementBonus(n: nat, total: nat): int {
    if n == 0 then 0
    else if total > 100 * n then 15 else if total > 50 * n then 10 else if total > 20 * n then 5 else 0
  }

  /** The unclamped sum; the score is this, capped to [0, 100]. */
  function RawScore(t: int, n: nat, total: nat): int {
    50 + TimeBonus(t) + ParticipationBonus(n) + EngagementBonus(n, total)
  }

  function Score(t: int, n: nat, total: nat): (score: int)
    ensures 50 <= score <= 100
    ensures score == 100 <==> RawScore(t, n, total) >= 100
    ensures score < 100 ==> score == RawScore(t, n, total)
  {
    var raw := RawScore(t, n, total);
    if raw > 100 then 100 else if raw < 0 then 0 else raw
  }

  /** The engagement brackets read against the real average total / n. */
  lemma EngagementFollowsAverage(n: nat, total: nat)
    requires n > 0
    ensures var avg := total as real / n as real;
      EngagementBonus(n, total) == (if avg > 100.0 then 15 else if avg > 50.0 then 10 else if avg > 20.0 then 5 else 0)
  {
    var avg := total as real / n as real;
    assert avg * n as real == total as real;
    forall k: int | k == 100 || k == 50 || k == 20 ensures (avg > k as real) <==> (total > k * n) {
      assert (k * n) as real == k as real * n as real;
      if avg > k as real {
        assert avg * n as real > k as real * n as real;
      } else {
        assert avg * n as real <= k as real * n as real;
      }
    }
  }

  /** The only way to reach the cap: the raw score of the best case is 105. */
  lemma ScoreCapIsReached(t: int, n: nat, total: nat)
    ensures RawScore(t, n, total) <= 105
    ensures RawScore(t, n, total) == 105 <==> 300 <= t < 600 && n >= 5 && total > 100 * n
  {
  }

  /** More student turns never lower the participation bonus. */
  lemma ParticipationIsMonotone(n: nat, m: nat)
    requires n <= m
    ensures ParticipationBonus(n) <= ParticipationBonus(m)
  {
  }

  function IsStudentTurn(t: Turn): bool {
    Contains(t.speaker, StudentMarker())
  }

  /** The turns whose speaker contains 'JIJ', in order. */
  function StudentTurns(h: seq<Turn>): (r: seq<Turn>)
    ensures |r| <= |h|
    ensures forall k :: 0 <= k < |r| ==> IsStudentTurn(r[k])
  {
    if h == [] then []
    else if IsStudentTurn(h[0]) then [h[0]] + StudentTurns(h[1..])
    else StudentTurns(h[1..])
  }

  function TotalLength(h: seq<Turn>): nat {
    if h == [] then 0 else |h[0].message| + TotalLength(h[1..])
  }

  lemma {:induction false} StudentTurnsAppend(h: seq<Turn>, t: Turn)
    ensures StudentTurns(h + [t]) == StudentTurns(h) + (if IsStudentTurn(t) then [t] else [])
  {
    if h == [] {
      assert [t][1..] == [];
    } else {
      assert (h + [t])[1..] == h[1..] + [t];
      StudentTurnsAppend(h[1..], t);
    }
  }

  lemma {:induction false} TotalLengthAppend(h: seq<Turn>, t: Turn)
    ensures TotalLength(h + [t]) == TotalLength(h) + |t.message|
  {
    if h == [] {
      assert [t][1..] == [];
    } else {
      assert (h + [t])[1..] == h[1..] + [t];
      TotalLengthAppend(h[1..], t);
    }
  }

  /** A persona's reply never counts towards participation or engagement. */
  lemma PersonaTurnsDoNotScore(h: seq<Turn>, p: Persona, text: string)
    ensures StudentTurns(h + [Turn(BotName(p), text)]) == StudentTurns(h)
  {
    SpeakersAreTellable(p);
    StudentTurnsAppend(h, Turn(BotName(p), text));
  }

  /** A student turn counts once more, with its length added. */
  lemma StudentTurnScores(h: seq<Turn>, text: string)
    ensures StudentTurns(h + [Turn(StudentSpeaker(), text)]) == StudentTurns(h) + [Turn(StudentSpeaker(), text)]
    ensures TotalLength(StudentTurns(h + [Turn(StudentSpeaker(), text)])) == TotalLength(StudentTurns(h)) + |text|
  {
    SpeakersAreTellable(Judge);
    StudentTurnsAppend(h, Turn(StudentSpeaker(), text));
    TotalLengthAppend(StudentTurns(h), Turn(StudentSpeaker(), text));
  }

  /** calculateScore: counts the student's turns and their total length, then adds the
      bonuses to the base of 50 step by step and caps the result. */
  method CalculateScore(elapsed: int, history: seq<Turn>) returns (score: int)
    ensures score == Score(elapsed, |StudentTurns(history)|, TotalLength(StudentTurns(history)))
    ensures 50 <= score <= 100
  {
    var userMessages := 0;
    var totalLength := 0;
    var i := 0;
    while i < |history|
      invariant 0 <= i <= |history|
      invariant userMessages == |StudentTurns(history[..i])|
      invariant totalLength == TotalLength(StudentTurns(history[..i]))
    {
      assert history[..i + 1] == history[..i] + [history[i]];
      StudentTurnsAppend(history[..i], history[i]);
      TotalLengthAppend(StudentTurns(history[..i]), history[i]);
      if IsStudentTurn(history[i]) {
        assert StudentTurns(history[..i + 1]) == StudentTurns(history[..i]) + [history[i]];
      } else {
        assert StudentTurns(history[..i + 1]) == StudentTurns(history[..i]);
      }
      if IsStudentTurn(history[i]) {
        userMessages := userMessages + 1;
        totalLength := totalLength + |history[i].message|;
      }
      i := i + 1;
    }
    assert history[..i] == history;

    score := 50;
    if elapsed < 300 { score := score + 10; }
    else if elapsed < 600 { score := score + 20; }
    else if elapsed < 900 { score := score + 15; }
    else if elapsed < 1200 { score := score + 10; }

    if userMessages >= 5 { score := score + 20; }
    else if userMessages >= 3 { score := score + 15; }
    else if userMessages >= 1 { score := score + 10; }

    if userMessages > 0 {
      if totalLength > 100 * userMessages { score := score + 15; }
      else if totalLength > 50 * userMessages { score := score + 10; }
      else if totalLength > 20 * userMessages { score := score + 5; }
    }

    score := if score > 100 then 100 else if score < 0 then 0 else score;
  }

  // ---- feedback ----------------------------------------------------------

  /** The five feedback bands of getScoreFeedback, worst first. */
  datatype Feedback = TryAgain | Okay | Fair | WellDone | Excellent

  function FeedbackRank(f: Feedback): nat {
    match f
    case TryAgain => 0
    case Okay => 1
    case Fair => 2
    case WellDone => 3
    case Excellent => 4
  }

  function ScoreFeedback(score: int): (f: Feedback)
    ensures f == Excellent <==> score >= 90
    ensures f == TryAgain <==> score < 60
  {
    if score >= 90 then Excellent
    else if score >= 80 then WellDone
    else if score >= 70 then Fair
    else if score >= 60 then Okay
    else TryAgain
  }

  /** A higher score never earns a worse band. */
  lemma FeedbackIsMonotone(a: int, b: int)
    requires a <= b
    ensures FeedbackRank(ScoreFeedback(a)) <= FeedbackRank(ScoreFeedback(b))
  {
  }

  // ---- timer -------------------------------------------------------------

  /** getElapsedTime: whole seconds since the start (milliseconds), 0 before the start. */
  function ElapsedSeconds(startMs: Option<int>, nowMs: int): int {
    match startMs
    case None => 0
    case Some(start) => (nowMs - start) / 1000   // the divisor is positive, so this is Math.floor
  }

  /** `n.toString()` for any integer. */
  function IntToString(n: int): string {
    if n >= 0 then NatToString(n) else "-" + NatToString(-n)
  }

  /** JavaScript's `%`: the remainder takes the sign of the dividend. */
  function JsRemainder(a: int, b: int): int
    requires b > 0
  {
    if a >= 0 then a % b else -((-a) % b)
  }

  /** The mm:ss text updateTimer writes for `elapsed` seconds. */
  function TimerText(elapsed: int): string {
    PadTwo(IntToString(elapsed / 60)) + ":" + PadTwo(IntToString(JsRemainder(elapsed, 60)))
  }

  /** updateTimer: nothing is written before the simulation started. */
  function UpdateTimer(startMs: Option<int>, nowMs: int): (r: Option<string>)
    ensures r.None? <==> startMs.None?
  {
    if startMs.None? then None else Some(TimerText(ElapsedSeconds(startMs, nowMs)))
  }

  /** Reads mm:ss back into seconds. */
  function ClockSeconds(s: string): int {
    var parts := Split(s, ':');
    if |parts| == 2 then DigitsValue(parts[0]) * 60 + DigitsValue(parts[1]) else -1
  }

  lemma PaddedValue(n: nat)
    ensures DigitsValue(PadTwo(NatToString(n))) == n
    ensures forall i :: 0 <= i < |PadTwo(NatToString(n))| ==> IsDigit(PadTwo(NatToString(n))[i])
  {
    NatToStringValue(n);
    var s := NatToString(n);
    if |s| == 1 {
      LeadingZeroKeepsValue(s);
    }
  }

  /** The timer's text always reads back as the elapsed seconds, and the seconds field
      is always two digits. */
  lemma TimerTextRoundTrip(elapsed: nat)
    ensures ClockSeconds(TimerText(elapsed)) == elapsed
    ensures var t := TimerText(elapsed); |t| >= 5 && t[|t| - 3] == ':'
  {
    var m := PadTwo(NatToString(elapsed / 60));
    var sec := PadTwo(NatToString(elapsed % 60));
    assert TimerText(elapsed) == m + ":" + sec;
    PaddedValue(elapsed / 60);
    PaddedValue(elapsed % 60);
    assert ':' !in m;
    assert ':' !in sec;
    SplitAtFirstSeparator(m, sec, ':');
    SplitWithoutSeparator(sec, ':');
    assert |NatToString(elapsed % 60)| <= 2 by {
      if elapsed % 60 >= 10 { assert NatToString(elapsed % 60) == NatToString(elapsed % 60 / 10) + [DigitChar(elapsed % 60 % 10)]; }
    }
  }
}
