/**
 * The admin page in the browser (frontend/js/admin.js): who may stay on it, the student
 * search, and the case form that creates a case or edits an existing one.
 *
 * The lists the server sends are inputs to the load steps, and so is the server's reply
 * to a submitted form. HTML rendering is not modelled: a search yields the list it
 * would display.
 */
module AdminClient {
  import opened Wrappers
  import opened Js
  import opened Text
  import opened AuthClient

  // ---------------------------------------------------------------------------------
  // Role gate (the first DOMContentLoaded handler)

  /** Where loading the admin page leads: the login page (checkAuth failed), the
      dashboard after an alert, or the student list. */
  datatype Landing = ToLogin | Turned(alert: string, location: string) | ShowStudents

  function NoAccess(): string { "Je hebt geen toegang tot deze pagina" }

  /** `role` is the role inside the stored user JSON. */
  function AdminLanding(storage: map<string, string>, role: string): (r: Landing)
    ensures r == ShowStudents <==> HasToken(storage) && (role == "admin" || role == "teacher")
    ensures r == ToLogin <==> !HasToken(storage)
  {
    if !HasToken(storage) then ToLogin
    else if role != "admin" && role != "teacher" then Turned(NoAccess(), "dashboard.html")
    else ShowStudents
  }

  /** admin.js's own gate: a user who logged in with a non-empty token passes
      checkAdminAuth on the admin page exactly when the login sent them there. The
      redirect auth.js makes when a page loads (`AuthClient.Loaded`) is not composed
      with it here. */
  lemma LoginAgreesWithAdminGate(p: Page, reply: Reply)
    requires reply.Accepted? && reply.token != ""
    ensures AdminLanding(AfterLogin(p, reply).storage, reply.role) == ShowStudents
            <==> HomePage(reply.role) == "admin.html"
  {
  }

  // ---------------------------------------------------------------------------------
  // Student search

  /** A row of /admin/students: student_number may be NULL. */
  datatype Student = Student(firstName: string, lastName: string, email: string, studentNumber: Option<string>)

  /** The filter's test for one student and the lowercased term: `||` stops at the first
      field that contains it, and reaching a NULL student_number throws (None). */
  function Matches(s: Student, term: string): (r: Option<bool>)
    ensures r == Some(true) <==>
      Contains(ToLower(s.firstName), term) || Contains(ToLower(s.lastName), term) || Contains(ToLower(s.email), term)
      || (s.studentNumber.Some? && Contains(ToLower(s.studentNumber.value), term))
  {
    if Contains(ToLower(s.firstName), term) || Contains(ToLower(s.lastName), term) || Contains(ToLower(s.email), term) then Some(true)
    else if s.studentNumber.None? then None
    else Some(Contains(ToLower(s.studentNumber.value), term))
  }

  /** `students.filter(...)`: the students that match, or None when the filter throws. */
  function Filtered(students: seq<Student>, term: string): Option<seq<Student>>
  {
    if students == [] then Some([])
    else match Matches(students[0], term)
      case None => None
      case Some(keep) =>
        match Filtered(students[1..], term)
        case None => None
        case Some(rest) => Some(if keep then [students[0]] + rest else rest)
  }

  /** searchStudents(): the term is lowercased like the fields. */
  function Search(students: seq<Student>, input: string): Option<seq<Student>> {
    Filtered(students, ToLower(input))
  }

  /** The search keeps, in order, exactly the students that match. */
  lemma {:induction false} SearchKeepsMatches(students: seq<Student>, term: string)
    requires Filtered(students, term).Some?
    ensures var r := Filtered(students, term).value;
      && IsSubsequence(r, students)
      && (forall k | 0 <= k < |r| :: Matches(r[k], term) == Some(true))
      && (forall k | 0 <= k < |students| && Matches(students[k], term) == Some(true) :: students[k] in r)
  {
    if students != [] {
      SearchKeepsMatches(students[1..], term);
      var rest := Filtered(students[1..], term).value;
      var r := Filtered(students, term).value;
      if Matches(students[0], term) == Some(true) {
        assert r == [students[0]] + rest;
        assert r[1..] == rest;
        forall k | 1 <= k < |r| ensures Matches(r[k], term) == Some(true) {
          assert r[k] == rest[k - 1];
        }
      }
      forall k | 0 <= k < |students| && Matches(students[k], term) == Some(true) ensures students[k] in r {
        if k > 0 { assert students[k] == students[1..][k - 1]; }
      }
    }
  }

  /** The search throws exactly when some student reaches the test of a NULL
      student_number. */
  lemma {:induction false} SearchFailsOnNullNumber(students: seq<Student>, term: string)
    ensures Filtered(students, term).None? <==> exists k | 0 <= k < |students| :: Matches(students[k], term).None?
  {
    if students != [] {
      SearchFailsOnNullNumber(students[1..], term);
      if Matches(students[0], term).Some? && Filtered(students[1..], term).None? {
        var k :| 0 <= k < |students[1..]| && Matches(students[1..][k], term).None?;
        assert students[k + 1] == students[1..][k];
      }
      if exists k | 0 <= k < |students| :: Matches(students[k], term).None? {
        var k :| 0 <= k < |students| && Matches(students[k], term).None?;
        if k > 0 { assert students[1..][k - 1] == students[k]; }
      }
    }
  }

  lemma ContainsEmpty(s: string)
    ensures Contains(s, "")
  {
    assert Slice(s, 0, 0) == "";
  }

  /** An empty search shows every student, those without a student number included. */
  lemma {:induction false} EmptySearchKeepsAll(students: seq<Student>)
    ensures Search(students, "") == Some(students)
  {
    if students != [] {
      ContainsEmpty(ToLower(students[0].firstName));
      EmptySearchKeepsAll(students[1..]);
      assert [students[0]] + students[1..] == students;
    }
  }

  /** As written: a student without a student number, whose name and email do not
      contain the term, makes the whole search throw, so nothing is displayed. */
  lemma NullNumberBreaksSearch(s: Student, others: seq<Student>, term: string)
    requires s.studentNumber.None?
    requires !Contains(ToLower(s.firstName), term) && !Contains(ToLower(s.lastName), term) && !Contains(ToLower(s.email), term)
    ensures Filtered([s] + others, term) == None
  {
    assert ([s] + others)[0] == s;
  }

  /** The smallest such list: searching for "b" when the only student is named "a a", with e-mail "a". */
  lemma NullNumberExample()
    ensures Search([Student("a", "a", "a", None)], "b") == None
  {
    assert ToLower("b") == "b";
    assert ToLower("a") == "a";
    assert !Contains("a", "b") by {
      forall i | 0 <= i <= 0 ensures Slice("a", i, 1) != "b" { }
    }
    NullNumberBreaksSearch(Student("a", "a", "a", None), [], "b");
    assert [Student("a", "a", "a", None)] + [] == [Student("a", "a", "a", None)];
  }

  /** As intended: a missing student number never matches. */
  function MatchesSkippingNull(s: Student, term: string): bool {
    Contains(ToLower(s.firstName), term) || Contains(ToLower(s.lastName), term) || Contains(ToLower(s.email), term)
    || (s.studentNumber.Some? && Contains(ToLower(s.studentNumber.value), term))
  }

  function SafeFiltered(students: seq<Student>, term: string): (r: seq<Student>)
    ensures |r| <= |students|
  {
    if students == [] then []
    else if MatchesSkippingNull(students[0], term) then [students[0]] + SafeFiltered(students[1..], term)
    else SafeFiltered(students[1..], term)
  }

  /** The intended search always displays a list: the one the written search gives when
      it does not throw, and in every case, in order, exactly the students with a field
      containing the term. */
  lemma {:induction false} SafeSearchKeepsMatches(students: seq<Student>, term: string)
    ensures Filtered(students, term).Some? ==> SafeFiltered(students, term) == Filtered(students, term).value
    ensures IsSubsequence(SafeFiltered(students, term), students)
    ensures forall k | 0 <= k < |students| :: MatchesSkippingNull(students[k], term) ==> students[k] in SafeFiltered(students, term)
    ensures forall k | 0 <= k < |SafeFiltered(students, term)| :: MatchesSkippingNull(SafeFiltered(students, term)[k], term)
  {
    if students != [] {
      SafeSearchKeepsMatches(students[1..], term);
      var rest := SafeFiltered(students[1..], term);
      var r := SafeFiltered(students, term);
      if MatchesSkippingNull(students[0], term) {
        assert r == [students[0]] + rest;
        assert r[1..] == rest;
        forall k | 1 <= k < |r| ensures MatchesSkippingNull(r[k], term) {
          assert r[k] == rest[k - 1];
        }
      }
      forall k | 0 <= k < |students| && MatchesSkippingNull(students[k], term) ensures students[k] in r {
        if k > 0 { assert students[k] == students[1..][k - 1]; }
      }
    }
  }

  // ---------------------------------------------------------------------------------
  // Case form

  /** A case as /cases lists it; difficulty_level as a whole number and the evidence
      items as text. */
  datatype CaseView = CaseView(id: int, title: string, description: string, category: string, difficulty: nat, evidence: seq<string>)

  /** The form's inputs as text, evidence one item per line. */
  datatype FormFields = FormFields(title: string, description: string, category: string, difficulty: string, evidence: string)

  /** The case modal: its inputs, `dataset.caseId`, its heading, whether it shows, and
      the last alert. */
  datatype CaseForm = CaseForm(fields: FormFields, caseId: Option<int>, heading: string, open: bool, alert: Option<string>)

  datatype AdminState = AdminState(students: seq<Student>, cases: seq<CaseView>, form: CaseForm)

  datatype Verb = Post | Put(id: int)

  /** The JSON body the form sends. */
  datatype CaseBody = CaseBody(title: string, description: string, evidence: seq<string>, difficulty: JsValue, category: string)

  datatype CaseRequest = CaseRequest(verb: Verb, body: CaseBody)

  /** The server's answer: ok, an error with its text, or a thrown failure. */
  datatype SubmitReply = Saved | Rejected(error: string) | Broken

  /** The textarea as a list: `value.split('\n').filter(e => e.trim())`. */
  function ParseEvidence(text: string): seq<string> {
    NonBlankLines(text)
  }

  /** The list as textarea text: `evidence.join('\n')`. */
  function JoinEvidence(items: seq<string>): string {
    Join(items, "\n")
  }

  /** Items shown in the textarea are read back unchanged when none is blank or holds a
      newline. */
  lemma EvidenceRoundTrip(items: seq<string>)
    requires forall k | 0 <= k < |items| :: '\n' !in items[k] && !IsBlank(items[k])
    ensures ParseEvidence(JoinEvidence(items)) == items
  {
    NonBlankLinesOfJoin(items);
  }

  /** Parsing keeps, in order and untrimmed, the lines that are not blank, and reading
      the result back through the textarea changes nothing more. */
  lemma EvidenceParseKeepsLines(text: string)
    ensures IsSubsequence(ParseEvidence(text), Split(text, '\n'))
    ensures forall k | 0 <= k < |Split(text, '\n')| && !IsBlank(Split(text, '\n')[k]) :: Split(text, '\n')[k] in ParseEvidence(text)
    ensures ParseEvidence(JoinEvidence(ParseEvidence(text))) == ParseEvidence(text)
  {
    KeepNonBlankIsOrderedFilter(Split(text, '\n'));
    NonBlankLinesShape(text);
    NonBlankLinesOfJoin(NonBlankLines(text));
  }

  /** The leading decimal digits of `s`. */
  function DigitPrefix(s: string): (r: string)
    ensures |r| <= |s| && r == s[..|r|]
    ensures forall i | 0 <= i < |r| :: IsDigit(r[i])
    ensures |r| < |s| ==> !IsDigit(s[|r|])
  {
    if s == [] || !IsDigit(s[0]) then [] else [s[0]] + DigitPrefix(s[1..])
  }

  /** `parseInt(s)` as JSON.stringify sends it: its leading digits, or null for NaN. */
  function ParseInt(s: string): (r: JsValue)
    ensures r == Null <==> s == [] || !IsDigit(s[0])
  {
    var p := DigitPrefix(s);
    if p == [] then Null else Num(DigitsValue(p))
  }

  lemma {:induction false} DigitPrefixOfDigits(s: string)
    requires forall i | 0 <= i < |s| :: IsDigit(s[i])
    ensures DigitPrefix(s) == s
  {
    if s != [] {
      DigitPrefixOfDigits(s[1..]);
      assert [s[0]] + s[1..] == s;
    }
  }

  /** A difficulty written into the form is read back as the same number. */
  lemma ParseIntOfNatToString(n: nat)
    ensures ParseInt(NatToString(n)) == Num(n)
  {
    DigitPrefixOfDigits(NatToString(n));
    NatToStringValue(n);
  }

  /** `currentCases.find(c => c.id === caseId)`. */
  function FirstWithId(cases: seq<CaseView>, id: int): (r: Option<CaseView>)
    ensures r.Some? ==> r.value in cases && r.value.id == id
    ensures r.None? <==> forall k | 0 <= k < |cases| :: cases[k].id != id
    ensures r.Some? ==> exists j | 0 <= j < |cases| :: cases[j] == r.value && forall i | 0 <= i < j :: cases[i].id != id
  {
    if cases == [] then None
    else if cases[0].id == id then Some(cases[0])
    else FirstWithId(cases[1..], id)
  }

  function FieldsOf(c: CaseView): FormFields {
    FormFields(c.title, c.description, c.category, NatToString(c.difficulty), JoinEvidence(c.evidence))
  }

  function NewCaseHeading(): string { "Nieuwe Rechtszaak" }
  function EditCaseHeading(): string { "Rechtszaak Bewerken" }
  function CaseUpdatedAlert(): string { "Rechtszaak bijgewerkt!" }
  function CaseCreatedAlert(): string { "Rechtszaak aangemaakt!" }
  function SubmitFailedAlert(): string { "Er ging iets mis" }

  /** showAddCase(): `form.reset()` puts back the inputs' initial values (`defaults`,
      from the page's markup) but leaves `dataset.caseId` alone. */
  function AddCaseOpened(f: CaseForm, defaults: FormFields): (r: CaseForm)
    ensures r.caseId == f.caseId && r.open && r.fields == defaults
  {
    f.(fields := defaults, heading := NewCaseHeading(), open := true)
  }

  /** showAddCase() as intended: a new case starts without a case id. */
  function FreshAddCaseOpened(f: CaseForm, defaults: FormFields): (r: CaseForm)
    ensures r.caseId.None? && r.open && r.fields == defaults
  {
    f.(fields := defaults, caseId := None, heading := NewCaseHeading(), open := true)
  }

  /** editCase(caseId): nothing happens for an id not in the list. */
  function CaseEdited(s: AdminState, id: int): (r: AdminState)
    ensures r.students == s.students && r.cases == s.cases
    ensures FirstWithId(s.cases, id).None? ==> r == s
  {
    match FirstWithId(s.cases, id)
    case None => s
    case Some(c) => s.(form := s.form.(fields := FieldsOf(c), caseId := Some(id), heading := EditCaseHeading(), open := true))
  }

  /** The request a submit sends: PUT to the stored case id, or POST when none is
      stored. */
  function RequestOf(f: CaseForm): (r: CaseRequest)
    ensures r.verb.Put? <==> f.caseId.Some?
    ensures r.verb.Put? ==> r.verb.id == f.caseId.value
    ensures r.body.evidence == ParseEvidence(f.fields.evidence)
  {
    CaseRequest(if f.caseId.Some? then Put(f.caseId.value) else Post,
      CaseBody(f.fields.title, f.fields.description, ParseEvidence(f.fields.evidence), ParseInt(f.fields.difficulty), f.fields.category))
  }

  /** The form after the server's reply: a success closes the modal and forgets the case
      id. */
  function Submitted(f: CaseForm, reply: SubmitReply): (r: CaseForm)
    ensures r.fields == f.fields
    ensures reply.Saved? ==> !r.open && r.caseId.None?
    ensures !reply.Saved? ==> r.caseId == f.caseId && r.open == f.open
  {
    match reply
    case Saved => f.(alert := Some(if f.caseId.Some? then CaseUpdatedAlert() else CaseCreatedAlert()), open := false, caseId := None)
    case Rejected(e) => f.(alert := Some(e))
    case Broken => f.(alert := Some(SubmitFailedAlert()))
  }

  class AdminPage {
    var students: seq<Student>
    var cases: seq<CaseView>
    var fields: FormFields
    var caseId: Option<int>
    var heading: string
    var open: bool
    var alert: Option<string>

    ghost function Snapshot(): AdminState
      reads this
    {
      AdminState(students, cases, CaseForm(fields, caseId, heading, open, alert))
    }

    constructor (s: AdminState)
      ensures Snapshot() == s
    {
      students := s.students;
      cases := s.cases;
      fields := s.form.fields;
      caseId := s.form.caseId;
      heading := s.form.heading;
      open := s.form.open;
      alert := s.form.alert;
    }

    /** loadStudents(): `reply` is the list of an ok response. */
    method LoadStudents(reply: Option<seq<Student>>)
      modifies this
      ensures Snapshot() == if reply.Some? then old(Snapshot()).(students := reply.value) else old(Snapshot())
    {
      if reply.Some? {
        students := reply.value;
      }
    }

    /** loadCasesAdmin(). */
    method LoadCases(reply: Option<seq<CaseView>>)
      modifies this
      ensures Snapshot() == if reply.Some? then old(Snapshot()).(cases := reply.value) else old(Snapshot())
    {
      if reply.Some? {
        cases := reply.value;
      }
    }

    method ShowAddCase(defaults: FormFields)
      modifies this
      ensures Snapshot() == old(Snapshot()).(form := AddCaseOpened(old(Snapshot()).form, defaults))
    {
      heading := NewCaseHeading();
      fields := defaults;
      open := true;
    }

    method EditCase(id: int)
      modifies this
      ensures Snapshot() == CaseEdited(old(Snapshot()), id)
    {
      var c := FirstWithId(cases, id);
      if c.None? {
        return;
      }
      heading := EditCaseHeading();
      fields := FieldsOf(c.value);
      caseId := Some(id);
      open := true;
    }

    method CloseCaseModal()
      modifies this
      ensures Snapshot() == old(Snapshot()).(form := old(Snapshot()).form.(open := false))
    {
      open := false;
    }

    /** The form's submit handler: the request it sends, then the reply's effect. The
        list is reloaded by a LoadCases step of its own. */
    method SubmitCase(reply: SubmitReply) returns (req: CaseRequest)
      modifies this
      ensures req == RequestOf(old(Snapshot()).form)
      ensures Snapshot() == old(Snapshot()).(form := Submitted(old(Snapshot()).form, reply))
    {
      var evidence := ParseEvidence(fields.evidence);
      var isEdit := caseId.Some?;
      req := CaseRequest(if isEdit then Put(caseId.value) else Post,
        CaseBody(fields.title, fields.description, evidence, ParseInt(fields.difficulty), fields.category));
      match reply
      case Saved =>
        alert := Some(if isEdit then CaseUpdatedAlert() else CaseCreatedAlert());
        open := false;
        caseId := None;
      case Rejected(e) =>
        alert := Some(e);
      case Broken =>
        alert := Some(SubmitFailedAlert());
    }
  }

  /** Editing a listed case and submitting unchanged sends that case back with PUT: the
      same title, description, category, difficulty and evidence, when no evidence item is
      blank or holds a newline. */
  lemma EditThenSubmitRoundTrip(s: AdminState, id: int)
    requires FirstWithId(s.cases, id).Some?
    requires var c := FirstWithId(s.cases, id).value;
      forall k | 0 <= k < |c.evidence| :: '\n' !in c.evidence[k] && !IsBlank(c.evidence[k])
    ensures var c := FirstWithId(s.cases, id).value;
      RequestOf(CaseEdited(s, id).form) == CaseRequest(Put(id), CaseBody(c.title, c.description, c.evidence, Num(c.difficulty), c.category))
  {
    var c := FirstWithId(s.cases, id).value;
    EvidenceRoundTrip(c.evidence);
    ParseIntOfNatToString(c.difficulty);
  }

  /** As written: opening the new-case form after editing a case (and closing it without
      saving) keeps that case's id, so the "new" case is sent with PUT and overwrites the
      edited one. */
  lemma AddAfterEditOverwrites(s: AdminState, id: int, defaults: FormFields)
    requires FirstWithId(s.cases, id).Some?
    ensures var f := AddCaseOpened(CaseEdited(s, id).form.(open := false), defaults);
      RequestOf(f).verb == Put(id) && RequestOf(f).body.title == defaults.title
  {
  }

  /** As intended: the new-case form always creates, whatever was edited before. */
  lemma FreshAddCreates(f: CaseForm, defaults: FormFields, reply: SubmitReply)
    ensures RequestOf(FreshAddCaseOpened(f, defaults)).verb == Post
    ensures reply.Saved? ==> Submitted(FreshAddCaseOpened(f, defaults), reply).alert == Some(CaseCreatedAlert())
  {
  }

  /** A saved form, edit or not, leaves no case id behind: the next new case is created. */
  lemma SavedFormCreatesNext(f: CaseForm, defaults: FormFields)
    ensures RequestOf(AddCaseOpened(Submitted(f, Saved), defaults)).verb == Post
  {
  }
}
