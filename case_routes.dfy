/**
 * The case routes of routes/cases.js: looking up one active case, the chat proxy to the
 * language-model provider, and creating, replacing and deleting cases.
 *
 * Evidence arrives as an array, or as text with one item per line; the provider's answer
 * (its choices, or an error with an optional HTTP status) is an input.
 */
module CaseRoutes {
  import opened Wrappers
  import opened Js
  import opened Text
  import opened Db
  import opened AuthMiddleware

  /** Text lines as JavaScript strings. */
  function Strings(lines: seq<string>): (r: seq<JsValue>)
    ensures |r| == |lines|
    ensures forall k | 0 <= k < |lines| :: r[k] == Str(lines[k])
  {
    seq(|lines|, k requires 0 <= k < |lines| => Str(lines[k]))
  }

  /** `Array.isArray(evidence) ? evidence : evidence.split('\n').filter(e => e.trim())`.
      Anything that is neither an array nor a string has no `split`; the TypeError is
      answered with 400. */
  function NormaliseEvidence(evidence: JsValue): (r: Option<seq<JsValue>>)
    ensures r.None? <==> !evidence.Arr? && !evidence.Str?
    ensures evidence.Arr? ==> r == Some(evidence.items)
    ensures evidence.Str? ==> r == Some(Strings(NonBlankLines(evidence.s)))
  {
    match evidence
    case Arr(items) => Some(items)
    case Str(s) => Some(Strings(NonBlankLines(s)))
    case _ => None
  }

  /** Text evidence keeps, in order and untrimmed, exactly the lines that are not blank;
      none of them holds a newline. */
  lemma TextEvidenceLines(s: string)
    ensures var items := NormaliseEvidence(Str(s)).value;
      && |items| <= |Split(s, '\n')|
      && (forall k | 0 <= k < |items| :: items[k].Str? && !IsBlank(items[k].s) && '\n' !in items[k].s)
      && (forall k | 0 <= k < |Split(s, '\n')| && !IsBlank(Split(s, '\n')[k]) :: Str(Split(s, '\n')[k]) in items)
  {
    var lines := NonBlankLines(s);
    NonBlankLinesShape(s);
    KeepNonBlankIsOrderedFilter(Split(s, '\n'));
    forall k | 0 <= k < |Split(s, '\n')| && !IsBlank(Split(s, '\n')[k])
      ensures Str(Split(s, '\n')[k]) in Strings(lines)
    {
      var j :| 0 <= j < |lines| && lines[j] == Split(s, '\n')[k];
      assert Strings(lines)[j] == Str(lines[j]);
    }
  }

  /** Items written one per line are read back as the same items, provided none is blank
      or holds a newline. */
  lemma TextEvidenceRoundTrip(items: seq<string>)
    requires forall k | 0 <= k < |items| :: '\n' !in items[k] && !IsBlank(items[k])
    ensures NormaliseEvidence(Str(Join(items, "\n"))) == Some(Strings(items))
  {
    NonBlankLinesOfJoin(items);
  }

  function Staff(): seq<string> {
    ["teacher", "admin"]
  }

  function AdminOnly(): seq<string> {
    ["admin"]
  }

  // The messages the handlers answer with.
  function CaseNotFound(): string { "Zaak niet gevonden" }
  function NoApiKey(): string { "OpenAI API key niet gevonden. Update je profiel." }
  function InvalidApiKey(): string { "Ongeldige OpenAI API key. Update je profiel." }
  function RateLimited(): string { "OpenAI rate limit bereikt. Probeer later opnieuw." }
  function ProviderFailure(): string { "OpenAI fout: " }
  function NoChoiceMessage(): string { "Cannot read properties of undefined (reading 'message')" }
  function FieldsRequired(): string { "Titel, beschrijving en bewijs zijn verplicht" }
  function EvidenceNotAList(): string { "Bewijs moet een lijst zijn" }
  function CaseCreated(): string { "Zaak succesvol aangemaakt" }
  function CaseCreateFailed(): string { "Fout bij aanmaken zaak" }
  function CaseUpdated(): string { "Zaak succesvol bijgewerkt" }
  function CaseUpdateFailed(): string { "Fout bij updaten zaak" }
  function CaseDeleted(): string { "Zaak succesvol verwijderd" }
  function CaseDeleteFailed(): string { "Fout bij verwijderen zaak" }

  // ---------------------------------------------------------------------------------
  // GET /:id

  /** The answer to GET /:id: the row and its parsed evidence, a 404, or nothing when
      JSON.parse throws inside the callback. */
  datatype CaseAnswer = Found(row: Row, evidence: JsValue) | Missing(error: HttpError) | NoAnswer

  predicate IsActiveRow(row: Row) {
    IsActive in row && row[IsActive] == Value(Num(1))
  }

  /** `JSON.parse(caseItem.evidence || '[]')`. The evidence JSON the handlers write parses
      back to the value it encodes; a NULL column gives []. Plain text in the column, which
      no handler writes, is not JSON and throws. */
  function ParsedEvidence(row: Row): Option<JsValue> {
    if Evidence !in row then Some(Arr([]))
    else match row[Evidence]
      case JsonOf(v) => Some(if v == Undefined then Arr([]) else v)
      case Value(v) => if Truthy(v) then None else Some(Arr([]))
  }

  function GetCaseOutcome(st: Tables, id: int): (r: CaseAnswer)
    ensures r.Found? ==> id in st.cases && r.row == st.cases[id]
  {
    if id !in st.cases || !IsActiveRow(st.cases[id]) then Missing(HttpError(404, CaseNotFound()))
    else match ParsedEvidence(st.cases[id])
      case None => NoAnswer
      case Some(e) => Found(st.cases[id], e)
  }

  /** 404 exactly for a case that is absent or not active; an active case answers with
      the evidence JSON stored in it, [] when there is none, and no answer when the
      column holds text that is not JSON. */
  lemma GetCaseRules(st: Tables, id: int)
    ensures GetCaseOutcome(st, id) == Missing(HttpError(404, CaseNotFound()))
            <==> id !in st.cases || !IsActiveRow(st.cases[id])
    ensures id in st.cases && IsActiveRow(st.cases[id]) && (Evidence !in st.cases[id] || IsNull(st.cases[id][Evidence])) ==>
              GetCaseOutcome(st, id) == Found(st.cases[id], Arr([]))
    ensures forall v | id in st.cases && IsActiveRow(st.cases[id]) && Evidence in st.cases[id]
                       && st.cases[id][Evidence] == JsonOf(v) && v != Undefined ::
              GetCaseOutcome(st, id) == Found(st.cases[id], v)
    ensures id in st.cases && IsActiveRow(st.cases[id]) && Evidence in st.cases[id]
            && st.cases[id][Evidence].Value? && Truthy(st.cases[id][Evidence].v) ==>
              GetCaseOutcome(st, id) == NoAnswer
  {
  }

  // ---------------------------------------------------------------------------------
  // POST /chat

  /** What `openai.chat.completions.create` gives: the message contents of its choices, or
      an error with the HTTP status it carries, if any. */
  datatype Completion = Choices(contents: seq<string>) | ProviderError(status: Option<int>, message: string)

  datatype ChatAnswer = Reply(content: string) | ChatFailed(error: HttpError)

  /** `user.openai_api_key` for the requester, when the user row exists. */
  function StoredApiKey(st: Tables, userId: int): Option<Param> {
    if userId in st.users && ApiKey in st.users[userId] then Some(st.users[userId][ApiKey]) else None
  }

  predicate Usable(key: Option<Param>) {
    key.Some? && (key.value.JsonOf? || Truthy(key.value.v))
  }

  /** The handler makes its one provider call only with a usable key, and maps the
      provider's answer to its own. */
  function ChatOutcome(st: Tables, requester: Claims, provider: Completion): (r: ChatAnswer)
    ensures !Usable(StoredApiKey(st, requester.userId)) ==> r == ChatFailed(HttpError(400, NoApiKey()))
  {
    if !Usable(StoredApiKey(st, requester.userId)) then ChatFailed(HttpError(400, NoApiKey()))
    else match provider
      case Choices(contents) =>
        if |contents| == 0 then ChatFailed(HttpError(500, ProviderFailure() + NoChoiceMessage()))
        else Reply(contents[0])
      case ProviderError(status, message) =>
        if status == Some(401) then ChatFailed(HttpError(400, InvalidApiKey()))
        else if status == Some(429) then ChatFailed(HttpError(429, RateLimited()))
        else ChatFailed(HttpError(500, ProviderFailure() + message))
  }

  /** Without a usable key the answer does not depend on the provider: it is not called. */
  lemma ChatWithoutKeyNeverCallsProvider(st: Tables, requester: Claims, p: Completion, q: Completion)
    requires !Usable(StoredApiKey(st, requester.userId))
    ensures ChatOutcome(st, requester, p) == ChatOutcome(st, requester, q)
  {
  }

  /** With a key: the first choice's content, 401 becomes 400, 429 stays 429, and any other
      failure is a 500 carrying the provider's message. */
  lemma ChatStatusMapping(st: Tables, requester: Claims, provider: Completion)
    requires Usable(StoredApiKey(st, requester.userId))
    ensures var r := ChatOutcome(st, requester, provider);
      && (r.Reply? <==> provider.Choices? && |provider.contents| > 0)
      && (r.Reply? ==> r.content == provider.contents[0])
      && (r.ChatFailed? ==> r.error.status in {400, 429, 500})
      && (r.ChatFailed? && r.error.status == 400 <==> provider.ProviderError? && provider.status == Some(401))
      && (r.ChatFailed? && r.error.status == 429 <==> provider.ProviderError? && provider.status == Some(429))
      && (provider.ProviderError? && provider.status !in {Some(401), Some(429)} ==>
            r == ChatFailed(HttpError(500, ProviderFailure() + provider.message)))
  {
  }

  // ---------------------------------------------------------------------------------
  // POST /, PUT /:id, DELETE /:id

  datatype CaseFields = CaseFields(
    title: JsValue, description: JsValue, evidence: JsValue, difficultyLevel: JsValue, category: JsValue)

  /** The row POST / inserts; `difficulty_level = 1` and `category = 'algemeen'` are
      destructuring defaults, which replace only an undefined field. */
  function NewCaseRow(b: CaseFields, items: seq<JsValue>, createdBy: int): Row {
    map[Title := Value(b.title), Description := Value(b.description), Evidence := JsonOf(Arr(items)),
        DifficultyLevel := Value(DefaultIfUndefined(b.difficultyLevel, Num(1))),
        Category := Value(DefaultIfUndefined(b.category, Str("algemeen"))),
        CreatedBy := Value(Num(createdBy))]
  }

  function CreateCaseOutcome(st: Tables, requester: Claims, b: CaseFields): (r: (Tables, Response))
    ensures !r.1.Success? ==> r.0 == st
  {
    var gate := Gate(Staff(), requester);
    if gate.Some? then (st, Fail(gate.value))
    else if !Truthy(b.title) || !Truthy(b.description) || !Truthy(b.evidence) then (st, Error(400, FieldsRequired()))
    else match NormaliseEvidence(b.evidence)
      case None => (st, Error(400, EvidenceNotAList()))
      case Some(items) =>
        var (st', id) := Inserted(st, LegalCases, NewCaseRow(b, items, requester.userId));
        (st', if id.Some? then Success(CaseCreated(), id) else Error(500, CaseCreateFailed()))
  }

  method CreateCase(db: Database, requester: Claims, b: CaseFields) returns (res: Response)
    modifies db
    ensures (db.Snapshot(), res) == CreateCaseOutcome(old(db.Snapshot()), requester, b)
  {
    var gate := Gate(Staff(), requester);
    if gate.Some? {
      return Fail(gate.value);
    }
    if !Truthy(b.title) || !Truthy(b.description) || !Truthy(b.evidence) {
      return Error(400, FieldsRequired());
    }
    var items := NormaliseEvidence(b.evidence);
    if items.None? {
      return Error(400, EvidenceNotAList());
    }
    var id := db.Insert(LegalCases, NewCaseRow(b, items.value, requester.userId));
    res := if id.Some? then Success(CaseCreated(), id) else Error(500, CaseCreateFailed());
  }

  /** A case without title, description or evidence is refused with 400, and so is
      evidence that is neither an array nor text; nothing is written. */
  lemma CreateCaseValidation(st: Tables, requester: Claims, b: CaseFields)
    requires requester.role in Staff()
    ensures !Truthy(b.title) || !Truthy(b.description) || !Truthy(b.evidence) ==>
              CreateCaseOutcome(st, requester, b) == (st, Error(400, FieldsRequired()))
    ensures Truthy(b.title) && Truthy(b.description) && Truthy(b.evidence) && !b.evidence.Arr? && !b.evidence.Str? ==>
              CreateCaseOutcome(st, requester, b) == (st, Error(400, EvidenceNotAList()))
  {
  }

  /** Any other case is stored under a fresh id, over the schema's defaults. */
  lemma CreateCaseStores(st: Tables, requester: Claims, b: CaseFields)
    requires Consistent(st) && requester.role in Staff()
    requires Truthy(b.title) && Truthy(b.description) && Truthy(b.evidence) && (b.evidence.Arr? || b.evidence.Str?)
    ensures var r := CreateCaseOutcome(st, requester, b);
      var row := NewCaseRow(b, NormaliseEvidence(b.evidence).value, requester.userId);
      && Consistent(r.0)
      && r.1 == Success(CaseCreated(), Some(st.nextCaseId))
      && st.nextCaseId !in st.cases && r.0.users == st.users
      && r.0.cases == st.cases[st.nextCaseId := Defaults(LegalCases) + row]
  {
    var row := NewCaseRow(b, NormaliseEvidence(b.evidence).value, requester.userId);
    assert Admissible(LegalCases, st.cases, st.nextCaseId, Defaults(LegalCases) + row);
    InsertedKeepsConsistent(st, LegalCases, row);
  }

  /** The stored row: the normalised evidence as JSON, 1 and 'algemeen' for an undefined
      difficulty or category (a null one stays NULL), and the schema's is_active 1. */
  lemma NewCaseRowDefaults(b: CaseFields, items: seq<JsValue>, createdBy: int)
    ensures var row := Defaults(LegalCases) + NewCaseRow(b, items, createdBy);
      && row[Title] == Value(b.title) && row[Description] == Value(b.description)
      && row[Evidence] == JsonOf(Arr(items)) && row[CreatedBy] == Value(Num(createdBy))
      && row[DifficultyLevel] == Value(if b.difficultyLevel == Undefined then Num(1) else b.difficultyLevel)
      && row[Category] == Value(if b.category == Undefined then Str("algemeen") else b.category)
      && row[IsActive] == Value(Num(1))
  {
  }

  /** A case just created is found, with the evidence it was given. */
  lemma CreatedCaseIsFound(st: Tables, b: CaseFields, items: seq<JsValue>, createdBy: int)
    ensures var row := Defaults(LegalCases) + NewCaseRow(b, items, createdBy);
      GetCaseOutcome(Stored(st, LegalCases, row), st.nextCaseId) == Found(row, Arr(items))
  {
    var row := Defaults(LegalCases) + NewCaseRow(b, items, createdBy);
    assert Stored(st, LegalCases, row).cases[st.nextCaseId] == row;
  }

  /** PUT /:id replaces all five columns, an undefined field included. */
  function ReplacePlan(b: CaseFields, items: seq<JsValue>): seq<Assignment> {
    [Assignment(Title, Value(b.title)), Assignment(Description, Value(b.description)),
     Assignment(Evidence, JsonOf(Arr(items))), Assignment(DifficultyLevel, Value(b.difficultyLevel)),
     Assignment(Category, Value(b.category))]
  }

  function ReplaceCaseOutcome(st: Tables, requester: Claims, id: int, b: CaseFields): (r: (Tables, Response))
    ensures !r.1.Success? ==> r.0 == st
  {
    var gate := Gate(Staff(), requester);
    if gate.Some? then (st, Fail(gate.value))
    else match NormaliseEvidence(b.evidence)
      case None => (st, Error(400, EvidenceNotAList()))
      case Some(items) => Written(Updated(st, LegalCases, id, ReplacePlan(b, items)), CaseUpdated(), CaseUpdateFailed())
  }

  method ReplaceCase(db: Database, requester: Claims, id: int, b: CaseFields) returns (res: Response)
    modifies db
    ensures (db.Snapshot(), res) == ReplaceCaseOutcome(old(db.Snapshot()), requester, id, b)
  {
    var gate := Gate(Staff(), requester);
    if gate.Some? {
      return Fail(gate.value);
    }
    var items := NormaliseEvidence(b.evidence);
    if items.None? {
      return Error(400, EvidenceNotAList());
    }
    var stmt := UpdateStatement(LegalCases, [Title, Description, Evidence, DifficultyLevel, Category],
      [Value(b.title), Value(b.description), JsonOf(Arr(items.value)), Value(b.difficultyLevel), Value(b.category), Value(Num(id))]);
    assert PlanOf(stmt) == ReplacePlan(b, items.value);
    var ok := db.Execute(stmt);
    res := if ok then Success(CaseUpdated(), None) else Error(500, CaseUpdateFailed());
  }

  /** Evidence that is neither an array nor text (missing evidence included) is refused
      with 400 and nothing is written. */
  lemma ReplaceCaseValidation(st: Tables, requester: Claims, id: int, b: CaseFields)
    requires requester.role in Staff() && !b.evidence.Arr? && !b.evidence.Str?
    ensures ReplaceCaseOutcome(st, requester, id, b) == (st, Error(400, EvidenceNotAList()))
  {
  }

  /** The row after the five SET clauses. */
  lemma ReplacedRow(row: Row, b: CaseFields, items: seq<JsValue>)
    ensures Assigned(row, ReplacePlan(b, items)) ==
      row[Title := Value(b.title)][Description := Value(b.description)][Evidence := JsonOf(Arr(items))]
         [DifficultyLevel := Value(b.difficultyLevel)][Category := Value(b.category)]
  {
    var a1, a2, a3 := Assignment(Title, Value(b.title)), Assignment(Description, Value(b.description)), Assignment(Evidence, JsonOf(Arr(items)));
    var a4, a5 := Assignment(DifficultyLevel, Value(b.difficultyLevel)), Assignment(Category, Value(b.category));
    assert ReplacePlan(b, items)[1..] == [a2, a3, a4, a5];
    assert [a2, a3, a4, a5][1..] == [a3, a4, a5];
    assert [a3, a4, a5][1..] == [a4, a5];
    assert [a4, a5][1..] == [a5];
    assert [a5][1..] == [];
    var r1 := row[Title := Value(b.title)];
    var r2 := r1[Description := Value(b.description)];
    var r3 := r2[Evidence := JsonOf(Arr(items))];
    var r4 := r3[DifficultyLevel := Value(b.difficultyLevel)];
    var r5 := r4[Category := Value(b.category)];
    assert Assigned(r5, []) == r5;
    assert Assigned(r4, [a5]) == r5;
    assert Assigned(r3, [a4, a5]) == r5;
    assert Assigned(r2, [a3, a4, a5]) == r5;
    assert Assigned(r1, [a2, a3, a4, a5]) == r5;
  }

  /** An existing case sent without a title or description breaks NOT NULL: 500, and
      nothing is written. */
  lemma ReplaceCaseNeedsText(st: Tables, requester: Claims, id: int, b: CaseFields)
    requires requester.role in Staff() && (b.evidence.Arr? || b.evidence.Str?) && id in st.cases
    requires IsNull(Value(b.title)) || IsNull(Value(b.description))
    ensures ReplaceCaseOutcome(st, requester, id, b) == (st, Error(500, CaseUpdateFailed()))
  {
    var items := NormaliseEvidence(b.evidence).value;
    var plan := ReplacePlan(b, items);
    assert ReplaceCaseOutcome(st, requester, id, b) == Written(Updated(st, LegalCases, id, plan), CaseUpdated(), CaseUpdateFailed());
    ReplacedRow(st.cases[id], b, items);
    var row := Assigned(st.cases[id], plan);
    assert row[Title] == Value(b.title) && row[Description] == Value(b.description);
    assert Title in NotNullColumns(LegalCases) && Description in NotNullColumns(LegalCases);
    UpdatedRefused(st, LegalCases, id, plan, row);
  }

  /** Otherwise an existing case gets all five columns from the body, and its other
      columns (is_active, the creator) stay. */
  lemma ReplaceCaseWrites(st: Tables, requester: Claims, id: int, b: CaseFields)
    requires requester.role in Staff() && (b.evidence.Arr? || b.evidence.Str?) && id in st.cases
    requires !IsNull(Value(b.title)) && !IsNull(Value(b.description))
    ensures var r := ReplaceCaseOutcome(st, requester, id, b);
      && r.1 == Success(CaseUpdated(), None)
      && r.0 == st.(cases := st.cases[id := st.cases[id][Title := Value(b.title)][Description := Value(b.description)]
                 [Evidence := JsonOf(Arr(NormaliseEvidence(b.evidence).value))]
                 [DifficultyLevel := Value(b.difficultyLevel)][Category := Value(b.category)]])
  {
    var items := NormaliseEvidence(b.evidence).value;
    var plan := ReplacePlan(b, items);
    assert ReplaceCaseOutcome(st, requester, id, b) == Written(Updated(st, LegalCases, id, plan), CaseUpdated(), CaseUpdateFailed());
    var row := st.cases[id][Title := Value(b.title)][Description := Value(b.description)][Evidence := JsonOf(Arr(items))]
                 [DifficultyLevel := Value(b.difficultyLevel)][Category := Value(b.category)];
    ReplacedRow(st.cases[id], b, items);
    ReplacedRowAdmissible(st.cases, id, b, items);
    UpdatedTo(st, LegalCases, id, plan, row);
  }

  /** The rewritten row keeps the NOT NULL columns filled when the body's title and
      description are not NULL. */
  lemma ReplacedRowAdmissible(rows: map<int, Row>, id: int, b: CaseFields, items: seq<JsValue>)
    requires id in rows && !IsNull(Value(b.title)) && !IsNull(Value(b.description))
    ensures Admissible(LegalCases, rows, id, rows[id][Title := Value(b.title)][Description := Value(b.description)]
              [Evidence := JsonOf(Arr(items))][DifficultyLevel := Value(b.difficultyLevel)][Category := Value(b.category)])
  {
    var row := rows[id][Title := Value(b.title)][Description := Value(b.description)]
              [Evidence := JsonOf(Arr(items))][DifficultyLevel := Value(b.difficultyLevel)][Category := Value(b.category)];
    assert row[Title] == Value(b.title) && row[Description] == Value(b.description);
  }

  /** Replacing a case, whatever the body, keeps the database consistent. */
  lemma ReplaceCaseKeepsConsistent(st: Tables, requester: Claims, id: int, b: CaseFields)
    requires Consistent(st)
    ensures Consistent(ReplaceCaseOutcome(st, requester, id, b).0)
  {
    if Gate(Staff(), requester).None? && NormaliseEvidence(b.evidence).Some? {
      UpdatedKeepsConsistent(st, LegalCases, id, ReplacePlan(b, NormaliseEvidence(b.evidence).value));
    }
  }

  function DeleteCaseOutcome(st: Tables, requester: Claims, id: int): (r: (Tables, Response))
    ensures !r.1.Success? ==> r.0 == st
  {
    var gate := Gate(AdminOnly(), requester);
    if gate.Some? then (st, Fail(gate.value))
    else Written(Updated(st, LegalCases, id, [Assignment(IsActive, Value(Num(0)))]), CaseDeleted(), CaseDeleteFailed())
  }

  method DeleteCase(db: Database, requester: Claims, id: int) returns (res: Response)
    modifies db
    ensures (db.Snapshot(), res) == DeleteCaseOutcome(old(db.Snapshot()), requester, id)
  {
    var gate := Gate(AdminOnly(), requester);
    if gate.Some? {
      return Fail(gate.value);
    }
    var ok := db.Execute(UpdateStatement(LegalCases, [IsActive], [Value(Num(0)), Value(Num(id))]));
    res := if ok then Success(CaseDeleted(), None) else Error(500, CaseDeleteFailed());
  }

  /** Deleting keeps the row and sets only its is_active to 0, after which the case is no
      longer found. */
  lemma DeleteCaseHidesCase(st: Tables, requester: Claims, id: int)
    requires Consistent(st) && requester.role == "admin" && id in st.cases
    ensures var r := DeleteCaseOutcome(st, requester, id);
      && r.1 == Success(CaseDeleted(), None)
      && r.0 == st.(cases := st.cases[id := st.cases[id][IsActive := Value(Num(0))]])
      && GetCaseOutcome(r.0, id) == Missing(HttpError(404, CaseNotFound()))
  {
    SettingColumnSucceeds(st, LegalCases, id, IsActive, Value(Num(0)));
  }
}
