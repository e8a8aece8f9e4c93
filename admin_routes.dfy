/**
 * The user and case management handlers of routes/admin.js. Every route sits behind
 * authenticateToken, so a handler receives the requester's token claims, and behind
 * requireRole with the route's list of roles.
 *
 * A handler that updates part of a row builds its SET clause as the source does: one
 * `push` onto the clause list and one onto the value list per field the body carries, in
 * a fixed order, and then the row id. bcrypt's hash is an input, absent when hashing fails.
 *
 * Each handler is a method on the database and is proved equal to an outcome function
 * (the new tables and the response); the lemmas state what the outcome means.
 */
module AdminRoutes {
  import opened Wrappers
  import opened Js
  import opened Db
  import opened AuthMiddleware

  /** A field of a PUT body as its handler reads it: whether the field asks for its clause,
      and the clause. */
  datatype Field = Field(present: bool, clause: Assignment)

  /** `if (present) { updates.push('c = ?'); values.push(p); }` */
  function Push(plan: seq<Assignment>, f: Field): seq<Assignment> {
    if f.present then plan + [f.clause] else plan
  }

  /** The six pushes a PUT handler makes in turn, starting from no clause. */
  function Pushed(f1: Field, f2: Field, f3: Field, f4: Field, f5: Field, f6: Field): seq<Assignment> {
    Push(Push(Push(Push(Push(Push([], f1), f2), f3), f4), f5), f6)
  }

  /** Exactly the clauses of the fields that ask for one. */
  lemma PushedMembers(f1: Field, f2: Field, f3: Field, f4: Field, f5: Field, f6: Field)
    ensures forall a :: a in Pushed(f1, f2, f3, f4, f5, f6) <==>
      || (f1.present && a == f1.clause) || (f2.present && a == f2.clause) || (f3.present && a == f3.clause)
      || (f4.present && a == f4.clause) || (f5.present && a == f5.clause) || (f6.present && a == f6.clause)
  {
  }

  lemma PushedEmpty(f1: Field, f2: Field, f3: Field, f4: Field, f5: Field, f6: Field)
    ensures Pushed(f1, f2, f3, f4, f5, f6) == [] <==>
      !f1.present && !f2.present && !f3.present && !f4.present && !f5.present && !f6.present
  {
  }

  /** Where a column's clause stands in the SET clause of PUT /users/:id or PUT /cases/:id. */
  function ClausePosition(c: Column): nat {
    match c
    case FirstName => 0
    case LastName => 1
    case Email => 2
    case Role => 3
    case StudentNumber => 4
    case Title => 0
    case Description => 1
    case Evidence => 2
    case DifficultyLevel => 3
    case Category => 4
    case IsActive => 5
    case _ => 6
  }

  /** The clauses follow the handler's fixed order; in particular no column is set twice. */
  predicate InClauseOrder(plan: seq<Assignment>) {
    forall i, j | 0 <= i < j < |plan| :: ClausePosition(plan[i].column) < ClausePosition(plan[j].column)
  }

  predicate Below(plan: seq<Assignment>, c: Column) {
    forall a | a in plan :: ClausePosition(a.column) < ClausePosition(c)
  }

  lemma PushKeepsOrder(plan: seq<Assignment>, f: Field)
    requires InClauseOrder(plan) && Below(plan, f.clause.column)
    ensures InClauseOrder(Push(plan, f))
    ensures forall a | a in Push(plan, f) :: ClausePosition(a.column) <= ClausePosition(f.clause.column)
  {
    if f.present {
      var q := plan + [f.clause];
      forall i, j | 0 <= i < j < |q| ensures ClausePosition(q[i].column) < ClausePosition(q[j].column) {
        if j == |plan| {
          assert q[i] in plan;
        }
      }
    }
  }

  /** Fields in the handler's order give clauses in that order. */
  lemma PushedInOrder(f1: Field, f2: Field, f3: Field, f4: Field, f5: Field, f6: Field)
    requires ClausePosition(f1.clause.column) < ClausePosition(f2.clause.column) < ClausePosition(f3.clause.column)
             < ClausePosition(f4.clause.column) < ClausePosition(f5.clause.column) < ClausePosition(f6.clause.column)
    ensures InClauseOrder(Pushed(f1, f2, f3, f4, f5, f6))
  {
    var p1 := Push([], f1);
    var p2 := Push(p1, f2);
    var p3 := Push(p2, f3);
    var p4 := Push(p3, f4);
    var p5 := Push(p4, f5);
    PushKeepsOrder([], f1);
    PushKeepsOrder(p1, f2);
    PushKeepsOrder(p2, f3);
    PushKeepsOrder(p3, f4);
    PushKeepsOrder(p4, f5);
    PushKeepsOrder(p5, f6);
  }

  /** With the clauses in order, each one's value is the one the row ends up with. */
  lemma AssignedInOrder(row: Row, plan: seq<Assignment>)
    requires InClauseOrder(plan)
    ensures forall a | a in plan :: a.column in Assigned(row, plan) && Assigned(row, plan)[a.column] == a.value
  {
    forall a | a in plan ensures a.column in Assigned(row, plan) && Assigned(row, plan)[a.column] == a.value {
      var k :| 0 <= k < |plan| && plan[k] == a;
      var later := plan[k + 1..];
      assert a.column !in ColumnsOf(later) by {
        forall j | 0 <= j < |later| ensures ColumnsOf(later)[j] != a.column {
          assert later[j] == plan[k + 1 + j];
        }
      }
      AssignedValue(row, plan, k);
    }
  }

  /** `isActive ? 1 : 0`. */
  function Flag(v: JsValue): Param {
    Value(Num(if Truthy(v) then 1 else 0))
  }

  function Staff(): seq<string> {
    ["admin", "teacher"]
  }

  function AdminOnly(): seq<string> {
    ["admin"]
  }

  // The messages the handlers answer with.
  function RoleChangeDenied(): string { "Alleen admins kunnen rollen wijzigen" }
  function NothingToUpdate(): string { "Geen velden om bij te werken" }
  function UserUpdated(): string { "Gebruiker succesvol bijgewerkt" }
  function UserUpdateFailed(): string { "Fout bij updaten gebruiker" }
  function UserFieldsRequired(): string { "Alle velden zijn verplicht" }
  function EmailExists(): string { "Email bestaat al" }
  function UserCreated(): string { "Gebruiker succesvol aangemaakt" }
  function UserCreateFailed(): string { "Fout bij aanmaken gebruiker" }
  function CannotDeleteSelf(): string { "Je kunt jezelf niet verwijderen" }
  function UserDeactivated(): string { "Gebruiker succesvol gedeactiveerd" }
  function UserDeleteFailed(): string { "Fout bij verwijderen gebruiker" }
  function PasswordTooShort(): string { "Wachtwoord moet minimaal 6 karakters zijn" }
  function ServerError(): string { "Server fout" }
  function PasswordWasReset(): string { "Wachtwoord succesvol gereset" }
  function PasswordResetFailed(): string { "Fout bij resetten wachtwoord" }
  function CaseFieldsRequired(): string { "Titel, beschrijving en bewijs zijn verplicht" }
  function CaseCreated(): string { "Rechtszaak succesvol aangemaakt" }
  function CaseCreateFailed(): string { "Fout bij aanmaken rechtszaak" }
  function CaseUpdated(): string { "Rechtszaak succesvol bijgewerkt" }
  function CaseUpdateFailed(): string { "Fout bij updaten rechtszaak" }
  function CaseDeactivated(): string { "Rechtszaak succesvol gedeactiveerd" }
  function CaseDeleteFailed(): string { "Fout bij verwijderen rechtszaak" }

  // ---------------------------------------------------------------------------------
  // PUT /users/:id

  datatype UserBody = UserBody(
    firstName: JsValue, lastName: JsValue, email: JsValue, role: JsValue, studentNumber: JsValue, isActive: JsValue)

  /** The SET clauses of PUT /users/:id: each truthy field, then is_active when isActive is
      defined at all. */
  function UserPlan(b: UserBody): seq<Assignment> {
    Pushed(
      Field(Truthy(b.firstName), Assignment(FirstName, Value(b.firstName))),
      Field(Truthy(b.lastName), Assignment(LastName, Value(b.lastName))),
      Field(Truthy(b.email), Assignment(Email, Value(b.email))),
      Field(Truthy(b.role), Assignment(Role, Value(b.role))),
      Field(Truthy(b.studentNumber), Assignment(StudentNumber, Value(b.studentNumber))),
      Field(b.isActive != Undefined, Assignment(IsActive, Flag(b.isActive))))
  }

  /** The first name, last name and email each get a clause, with the field's value, iff
      the field is truthy. */
  lemma UserPlanNameClauses(b: UserBody)
    ensures Assignment(FirstName, Value(b.firstName)) in UserPlan(b) <==> Truthy(b.firstName)
    ensures Assignment(LastName, Value(b.lastName)) in UserPlan(b) <==> Truthy(b.lastName)
    ensures Assignment(Email, Value(b.email)) in UserPlan(b) <==> Truthy(b.email)
  {
    PushedMembers(
      Field(Truthy(b.firstName), Assignment(FirstName, Value(b.firstName))),
      Field(Truthy(b.lastName), Assignment(LastName, Value(b.lastName))),
      Field(Truthy(b.email), Assignment(Email, Value(b.email))),
      Field(Truthy(b.role), Assignment(Role, Value(b.role))),
      Field(Truthy(b.studentNumber), Assignment(StudentNumber, Value(b.studentNumber))),
      Field(b.isActive != Undefined, Assignment(IsActive, Flag(b.isActive))));
  }

  /** So do the role and the student number; is_active gets 1 or 0 iff isActive is
      defined at all. */
  lemma UserPlanAccountClauses(b: UserBody)
    ensures Assignment(Role, Value(b.role)) in UserPlan(b) <==> Truthy(b.role)
    ensures Assignment(StudentNumber, Value(b.studentNumber)) in UserPlan(b) <==> Truthy(b.studentNumber)
    ensures Assignment(IsActive, Flag(b.isActive)) in UserPlan(b) <==> b.isActive != Undefined
  {
    PushedMembers(
      Field(Truthy(b.firstName), Assignment(FirstName, Value(b.firstName))),
      Field(Truthy(b.lastName), Assignment(LastName, Value(b.lastName))),
      Field(Truthy(b.email), Assignment(Email, Value(b.email))),
      Field(Truthy(b.role), Assignment(Role, Value(b.role))),
      Field(Truthy(b.studentNumber), Assignment(StudentNumber, Value(b.studentNumber))),
      Field(b.isActive != Undefined, Assignment(IsActive, Flag(b.isActive))));
  }

  /** There is no other clause. */
  lemma UserPlanOnlyFields(b: UserBody)
    ensures forall a | a in UserPlan(b) ::
      a in [Assignment(FirstName, Value(b.firstName)), Assignment(LastName, Value(b.lastName)),
            Assignment(Email, Value(b.email)), Assignment(Role, Value(b.role)),
            Assignment(StudentNumber, Value(b.studentNumber)), Assignment(IsActive, Flag(b.isActive))]
  {
    PushedMembers(
      Field(Truthy(b.firstName), Assignment(FirstName, Value(b.firstName))),
      Field(Truthy(b.lastName), Assignment(LastName, Value(b.lastName))),
      Field(Truthy(b.email), Assignment(Email, Value(b.email))),
      Field(Truthy(b.role), Assignment(Role, Value(b.role))),
      Field(Truthy(b.studentNumber), Assignment(StudentNumber, Value(b.studentNumber))),
      Field(b.isActive != Undefined, Assignment(IsActive, Flag(b.isActive))));
  }

  /** The clauses come in the handler's order, so no column is set twice. */
  lemma UserPlanInOrder(b: UserBody)
    ensures InClauseOrder(UserPlan(b))
  {
    PushedInOrder(
      Field(Truthy(b.firstName), Assignment(FirstName, Value(b.firstName))),
      Field(Truthy(b.lastName), Assignment(LastName, Value(b.lastName))),
      Field(Truthy(b.email), Assignment(Email, Value(b.email))),
      Field(Truthy(b.role), Assignment(Role, Value(b.role))),
      Field(Truthy(b.studentNumber), Assignment(StudentNumber, Value(b.studentNumber))),
      Field(b.isActive != Undefined, Assignment(IsActive, Flag(b.isActive))));
  }

  /** The plan is empty iff no field asks for a clause. */
  lemma UserPlanEmpty(b: UserBody)
    ensures UserPlan(b) == [] <==>
      !Truthy(b.firstName) && !Truthy(b.lastName) && !Truthy(b.email) && !Truthy(b.role)
      && !Truthy(b.studentNumber) && b.isActive == Undefined
  {
    PushedEmpty(
      Field(Truthy(b.firstName), Assignment(FirstName, Value(b.firstName))),
      Field(Truthy(b.lastName), Assignment(LastName, Value(b.lastName))),
      Field(Truthy(b.email), Assignment(Email, Value(b.email))),
      Field(Truthy(b.role), Assignment(Role, Value(b.role))),
      Field(Truthy(b.studentNumber), Assignment(StudentNumber, Value(b.studentNumber))),
      Field(b.isActive != Undefined, Assignment(IsActive, Flag(b.isActive))));
  }


  /** The `updates` and `values` arrays, built by successive pushes. */
  method BuildUserUpdate(b: UserBody) returns (sets: seq<Column>, values: seq<Param>)
    ensures Aligned(sets, values, UserPlan(b))
  {
    sets, values := [], [];
    ghost var plan: seq<Assignment> := [];
    if Truthy(b.firstName) {
      PushAligned(sets, values, plan, FirstName, Value(b.firstName));
      sets, values := sets + [FirstName], values + [Value(b.firstName)];
    }
    plan := Push(plan, Field(Truthy(b.firstName), Assignment(FirstName, Value(b.firstName))));
    if Truthy(b.lastName) {
      PushAligned(sets, values, plan, LastName, Value(b.lastName));
      sets, values := sets + [LastName], values + [Value(b.lastName)];
    }
    plan := Push(plan, Field(Truthy(b.lastName), Assignment(LastName, Value(b.lastName))));
    if Truthy(b.email) {
      PushAligned(sets, values, plan, Email, Value(b.email));
      sets, values := sets + [Email], values + [Value(b.email)];
    }
    plan := Push(plan, Field(Truthy(b.email), Assignment(Email, Value(b.email))));
    if Truthy(b.role) {
      PushAligned(sets, values, plan, Role, Value(b.role));
      sets, values := sets + [Role], values + [Value(b.role)];
    }
    plan := Push(plan, Field(Truthy(b.role), Assignment(Role, Value(b.role))));
    if Truthy(b.studentNumber) {
      PushAligned(sets, values, plan, StudentNumber, Value(b.studentNumber));
      sets, values := sets + [StudentNumber], values + [Value(b.studentNumber)];
    }
    plan := Push(plan, Field(Truthy(b.studentNumber), Assignment(StudentNumber, Value(b.studentNumber))));
    if b.isActive != Undefined {
      PushAligned(sets, values, plan, IsActive, Flag(b.isActive));
      sets, values := sets + [IsActive], values + [Flag(b.isActive)];
    }
    plan := Push(plan, Field(b.isActive != Undefined, Assignment(IsActive, Flag(b.isActive))));
  }

  function UpdateUserOutcome(st: Tables, requester: Claims, id: int, b: UserBody): (r: (Tables, Response))
    ensures !r.1.Success? ==> r.0 == st
  {
    var gate := Gate(Staff(), requester);
    if gate.Some? then (st, Fail(gate.value))
    else if Truthy(b.role) && requester.role != "admin" then (st, Error(403, RoleChangeDenied()))
    else if UserPlan(b) == [] then (st, Error(400, NothingToUpdate()))
    else Written(Updated(st, Users, id, UserPlan(b)), UserUpdated(), UserUpdateFailed())
  }

  method UpdateUser(db: Database, requester: Claims, id: int, b: UserBody) returns (res: Response)
    modifies db
    ensures (db.Snapshot(), res) == UpdateUserOutcome(old(db.Snapshot()), requester, id, b)
  {
    var gate := Gate(Staff(), requester);
    if gate.Some? {
      return Fail(gate.value);
    }
    if Truthy(b.role) && requester.role != "admin" {
      return Error(403, RoleChangeDenied());
    }
    var sets, values := BuildUserUpdate(b);
    if |sets| == 0 {
      return Error(400, NothingToUpdate());
    }
    var stmt := UpdateStatement(Users, sets, values + [Value(Num(id))]);
    ZipAligned(sets, values, UserPlan(b), [Value(Num(id))]);
    var ok := db.Execute(stmt);
    res := if ok then Success(UserUpdated(), None) else Error(500, UserUpdateFailed());
  }

  /** A body with a role is refused with 403 for a teacher, and only for a teacher: a role
      is only ever changed at an admin's request. */
  lemma UpdateUserRoleGuard(st: Tables, requester: Claims, id: int, b: UserBody)
    ensures UpdateUserOutcome(st, requester, id, b).1 == Error(403, RoleChangeDenied())
            <==> requester.role == "teacher" && Truthy(b.role)
    ensures Truthy(b.role) && UpdateUserOutcome(st, requester, id, b).1.Success? ==> requester.role == "admin"
  {
  }

  /** An authorised body with no field to set is refused with 400 and writes nothing. */
  lemma UpdateUserNeedsAField(st: Tables, requester: Claims, id: int, b: UserBody)
    requires requester.role in Staff()
    ensures UpdateUserOutcome(st, requester, id, b) == (st, Error(400, NothingToUpdate()))
            <==> !Truthy(b.firstName) && !Truthy(b.lastName) && !Truthy(b.email) && !Truthy(b.role)
                 && !Truthy(b.studentNumber) && b.isActive == Undefined
  {
    UserPlanEmpty(b);
  }

  /** A successful update writes every clause's value into the one row it names and leaves
      the other columns, the other rows and the cases alone; a missing row is reported as
      updated although nothing is written. The database stays consistent. */
  lemma UpdateUserWrites(st: Tables, requester: Claims, id: int, b: UserBody)
    requires Consistent(st)
    ensures var r := UpdateUserOutcome(st, requester, id, b);
      && Consistent(r.0)
      && (r.1.Success? && id !in st.users ==> r.0 == st)
      && (r.1.Success? && id in st.users ==>
            && r.0 == st.(users := st.users[id := r.0.users[id]])
            && (forall a | a in UserPlan(b) :: a.column in r.0.users[id] && r.0.users[id][a.column] == a.value)
            && (forall c | c in st.users[id] && c !in ColumnsOf(UserPlan(b)) :: r.0.users[id][c] == st.users[id][c]))
  {
    UserPlanInOrder(b);
    UpdatedKeepsConsistent(st, Users, id, UserPlan(b));
    if id in st.users {
      AssignedInOrder(st.users[id], UserPlan(b));
    }
  }

  // ---------------------------------------------------------------------------------
  // POST /users

  datatype NewUserBody = NewUserBody(
    email: JsValue, password: JsValue, firstName: JsValue, lastName: JsValue, role: JsValue, studentNumber: JsValue)

  predicate HasRequiredUserFields(b: NewUserBody) {
    Truthy(b.email) && Truthy(b.password) && Truthy(b.firstName) && Truthy(b.lastName) && Truthy(b.role)
  }

  /** `SELECT id FROM users WHERE email = ?` finds a row (active or not). */
  predicate EmailTaken(st: Tables, email: JsValue) {
    SomeRowHas(st.users, Email, Value(email))
  }

  function NewUserRow(b: NewUserBody, hash: string): Row {
    map[Email := Value(b.email), PasswordHash := Value(Str(hash)), FirstName := Value(b.firstName),
        LastName := Value(b.lastName), Role := Value(b.role), StudentNumber := Value(b.studentNumber),
        IsActive := Value(Num(1))]
  }

  /** POST /users. A failed hash rejects inside the lookup's callback, which nothing
      catches, so no response is sent. */
  function CreateUserOutcome(st: Tables, requester: Claims, b: NewUserBody, hash: Option<string>): (r: (Tables, Response))
    ensures !r.1.Success? ==> r.0 == st
  {
    var gate := Gate(AdminOnly(), requester);
    if gate.Some? then (st, Fail(gate.value))
    else if !HasRequiredUserFields(b) then (st, Error(400, UserFieldsRequired()))
    else if EmailTaken(st, b.email) then (st, Error(400, EmailExists()))
    else if hash.None? then (st, NoResponse)
    else
      var (st', id) := Inserted(st, Users, NewUserRow(b, hash.value));
      (st', if id.Some? then Success(UserCreated(), id) else Error(500, UserCreateFailed()))
  }

  method CreateUser(db: Database, requester: Claims, b: NewUserBody, hash: Option<string>) returns (res: Response)
    modifies db
    ensures (db.Snapshot(), res) == CreateUserOutcome(old(db.Snapshot()), requester, b, hash)
  {
    var gate := Gate(AdminOnly(), requester);
    if gate.Some? {
      return Fail(gate.value);
    }
    if !HasRequiredUserFields(b) {
      return Error(400, UserFieldsRequired());
    }
    var existing := db.FindBy(Users, Email, Value(b.email));
    if existing.Some? {
      return Error(400, EmailExists());
    }
    if hash.None? {
      return NoResponse;
    }
    var id := db.Insert(Users, NewUserRow(b, hash.value));
    res := if id.Some? then Success(UserCreated(), id) else Error(500, UserCreateFailed());
  }

  /** An admin's request lacking a required field, or naming an email some user already
      has, is refused with 400 before anything is hashed or written. */
  lemma CreateUserValidation(st: Tables, requester: Claims, b: NewUserBody, hash: Option<string>)
    requires requester.role == "admin"
    ensures !HasRequiredUserFields(b) ==> CreateUserOutcome(st, requester, b, hash) == (st, Error(400, UserFieldsRequired()))
    ensures HasRequiredUserFields(b) && EmailTaken(st, b.email) ==>
              CreateUserOutcome(st, requester, b, hash) == (st, Error(400, EmailExists()))
  {
  }

  /** A created user is a new row under a fresh id holding the body's fields, the hash and
      is_active 1, with the old rows untouched; afterwards the email belongs to exactly
      that row, and the database stays consistent. */
  lemma CreateUserInserts(st: Tables, requester: Claims, b: NewUserBody, hash: Option<string>)
    requires Consistent(st)
    ensures var r := CreateUserOutcome(st, requester, b, hash);
      && Consistent(r.0)
      && (r.1.Success? ==>
            && hash.Some? && r.1.id == Some(st.nextUserId) && st.nextUserId !in st.users
            && r.0.users == st.users[st.nextUserId := Defaults(Users) + NewUserRow(b, hash.value)]
            && r.0.users[st.nextUserId][IsActive] == Value(Num(1))
            && r.0.cases == st.cases
            && forall i | i in r.0.users && Email in r.0.users[i] && r.0.users[i][Email] == Value(b.email) :: i == st.nextUserId)
  {
    if requester.role == "admin" && HasRequiredUserFields(b) && !EmailTaken(st, b.email) && hash.Some? {
      InsertedKeepsConsistent(st, Users, NewUserRow(b, hash.value));
    }
  }

  // ---------------------------------------------------------------------------------
  // DELETE /users/:id

  function SoftDelete(): seq<Assignment> {
    [Assignment(IsActive, Value(Num(0)))]
  }

  function DeleteUserOutcome(st: Tables, requester: Claims, id: int): (r: (Tables, Response))
    ensures !r.1.Success? ==> r.0 == st
  {
    var gate := Gate(AdminOnly(), requester);
    if gate.Some? then (st, Fail(gate.value))
    else if id == requester.userId then (st, Error(400, CannotDeleteSelf()))
    else Written(Updated(st, Users, id, SoftDelete()), UserDeactivated(), UserDeleteFailed())
  }

  method DeleteUser(db: Database, requester: Claims, id: int) returns (res: Response)
    modifies db
    ensures (db.Snapshot(), res) == DeleteUserOutcome(old(db.Snapshot()), requester, id)
  {
    var gate := Gate(AdminOnly(), requester);
    if gate.Some? {
      return Fail(gate.value);
    }
    if id == requester.userId {
      return Error(400, CannotDeleteSelf());
    }
    var ok := db.Execute(UpdateStatement(Users, [IsActive], [Value(Num(0)), Value(Num(id))]));
    res := if ok then Success(UserDeactivated(), None) else Error(500, UserDeleteFailed());
  }

  /** An admin cannot deactivate themself; deactivating anyone else succeeds on a
      consistent database, keeps the row and changes only its is_active, to 0. */
  lemma DeleteUserIsSoft(st: Tables, requester: Claims, id: int)
    requires Consistent(st) && requester.role == "admin"
    ensures id == requester.userId ==> DeleteUserOutcome(st, requester, id) == (st, Error(400, CannotDeleteSelf()))
    ensures id != requester.userId ==>
      var r := DeleteUserOutcome(st, requester, id);
      && r.1 == Success(UserDeactivated(), None)
      && r.0.cases == st.cases
      && r.0.users == (if id in st.users then st.users[id := st.users[id][IsActive := Value(Num(0))]] else st.users)
  {
    if id != requester.userId && id in st.users {
      SettingColumnSucceeds(st, Users, id, IsActive, Value(Num(0)));
    }
  }

  // ---------------------------------------------------------------------------------
  // POST /users/:id/reset-password

  /** `!newPassword || newPassword.length < 6`; a value without a length passes. */
  predicate TooShort(password: JsValue) {
    !Truthy(password) || (Length(password).Some? && Length(password).value < 6)
  }

  function ResetPasswordOutcome(st: Tables, requester: Claims, id: int, newPassword: JsValue, hash: Option<string>): (r: (Tables, Response))
    ensures !r.1.Success? ==> r.0 == st
  {
    var gate := Gate(Staff(), requester);
    if gate.Some? then (st, Fail(gate.value))
    else if TooShort(newPassword) then (st, Error(400, PasswordTooShort()))
    else if hash.None? then (st, Error(500, ServerError()))
    else Written(Updated(st, Users, id, [Assignment(PasswordHash, Value(Str(hash.value)))]), PasswordWasReset(), PasswordResetFailed())
  }

  method ResetPassword(db: Database, requester: Claims, id: int, newPassword: JsValue, hash: Option<string>) returns (res: Response)
    modifies db
    ensures (db.Snapshot(), res) == ResetPasswordOutcome(old(db.Snapshot()), requester, id, newPassword, hash)
  {
    var gate := Gate(Staff(), requester);
    if gate.Some? {
      return Fail(gate.value);
    }
    if TooShort(newPassword) {
      return Error(400, PasswordTooShort());
    }
    if hash.None? {
      return Error(500, ServerError());
    }
    var ok := db.Execute(UpdateStatement(Users, [PasswordHash], [Value(Str(hash.value)), Value(Num(id))]));
    res := if ok then Success(PasswordWasReset(), None) else Error(500, PasswordResetFailed());
  }

  /** A missing password or a string of fewer than 6 characters is refused with 400 before
      hashing; an accepted one on a consistent database replaces only the hash. */
  lemma ResetPasswordRules(st: Tables, requester: Claims, id: int, newPassword: JsValue, hash: Option<string>)
    requires Consistent(st) && requester.role in Staff()
    ensures newPassword == Undefined || (newPassword.Str? && |newPassword.s| < 6) ==>
              ResetPasswordOutcome(st, requester, id, newPassword, hash) == (st, Error(400, PasswordTooShort()))
    ensures newPassword.Str? && |newPassword.s| >= 6 && hash.Some? ==>
      var r := ResetPasswordOutcome(st, requester, id, newPassword, hash);
      && r.1 == Success(PasswordWasReset(), None)
      && r.0.cases == st.cases
      && r.0.users == (if id in st.users then st.users[id := st.users[id][PasswordHash := Value(Str(hash.value))]] else st.users)
  {
    if newPassword.Str? && |newPassword.s| >= 6 && hash.Some? && id in st.users {
      SettingColumnSucceeds(st, Users, id, PasswordHash, Value(Str(hash.value)));
    }
  }

  // ---------------------------------------------------------------------------------
  // POST /cases, PUT /cases/:id, DELETE /cases/:id

  datatype CaseBody = CaseBody(
    title: JsValue, description: JsValue, evidence: JsValue, difficultyLevel: JsValue, category: JsValue, isActive: JsValue)

  /** `!title || !description || !evidence || evidence.length === 0` */
  predicate MissingCaseFields(b: CaseBody) {
    !Truthy(b.title) || !Truthy(b.description) || !Truthy(b.evidence) || Length(b.evidence) == Some(0)
  }

  function NewCaseRow(b: CaseBody, createdBy: int): Row {
    map[Title := Value(b.title), Description := Value(b.description), Evidence := JsonOf(b.evidence),
        DifficultyLevel := Value(OrElse(b.difficultyLevel, Num(1))), Category := Value(OrElse(b.category, Str("algemeen"))),
        CreatedBy := Value(Num(createdBy)), IsActive := Value(Num(1))]
  }

  function CreateCaseOutcome(st: Tables, requester: Claims, b: CaseBody): (r: (Tables, Response))
    ensures !r.1.Success? ==> r.0 == st
  {
    var gate := Gate(Staff(), requester);
    if gate.Some? then (st, Fail(gate.value))
    else if MissingCaseFields(b) then (st, Error(400, CaseFieldsRequired()))
    else
      var (st', id) := Inserted(st, LegalCases, NewCaseRow(b, requester.userId));
      (st', if id.Some? then Success(CaseCreated(), id) else Error(500, CaseCreateFailed()))
  }

  method CreateCase(db: Database, requester: Claims, b: CaseBody) returns (res: Response)
    modifies db
    ensures (db.Snapshot(), res) == CreateCaseOutcome(old(db.Snapshot()), requester, b)
  {
    var gate := Gate(Staff(), requester);
    if gate.Some? {
      return Fail(gate.value);
    }
    if MissingCaseFields(b) {
      return Error(400, CaseFieldsRequired());
    }
    var id := db.Insert(LegalCases, NewCaseRow(b, requester.userId));
    res := if id.Some? then Success(CaseCreated(), id) else Error(500, CaseCreateFailed());
  }

  /** A case without title, description or non-empty evidence is refused with 400. */
  lemma CreateCaseValidation(st: Tables, requester: Claims, b: CaseBody)
    requires requester.role in Staff() && MissingCaseFields(b)
    ensures CreateCaseOutcome(st, requester, b) == (st, Error(400, CaseFieldsRequired()))
  {
  }

  /** Any other case is always stored, under a fresh id, with the evidence as JSON, the
      difficulty 1 and category 'algemeen' in place of falsy ones, the requester as creator,
      and is_active 1; the database stays consistent. */
  lemma CreateCaseStores(st: Tables, requester: Claims, b: CaseBody)
    requires Consistent(st) && requester.role in Staff() && !MissingCaseFields(b)
    ensures var r := CreateCaseOutcome(st, requester, b);
      && Consistent(r.0)
      && r.1 == Success(CaseCreated(), Some(st.nextCaseId))
      && st.nextCaseId !in st.cases && r.0.users == st.users
      && r.0.cases == st.cases[st.nextCaseId := Defaults(LegalCases) + NewCaseRow(b, requester.userId)]
  {
    var row := Defaults(LegalCases) + NewCaseRow(b, requester.userId);
    assert Admissible(LegalCases, st.cases, st.nextCaseId, row);
    InsertedKeepsConsistent(st, LegalCases, NewCaseRow(b, requester.userId));
  }

  /** The stored case row: the body's fields over the defaults, falsy difficulty and category
      replaced by 1 and 'algemeen'. */
  lemma NewCaseRowDefaults(b: CaseBody, createdBy: int)
    ensures var row := Defaults(LegalCases) + NewCaseRow(b, createdBy);
      && row[Title] == Value(b.title) && row[Description] == Value(b.description)
      && row[Evidence] == JsonOf(b.evidence) && row[CreatedBy] == Value(Num(createdBy))
      && row[DifficultyLevel] == Value(if Truthy(b.difficultyLevel) then b.difficultyLevel else Num(1))
      && row[Category] == Value(if Truthy(b.category) then b.category else Str("algemeen"))
      && row[IsActive] == Value(Num(1))
  {
  }

  /** The SET clauses of PUT /cases/:id: each truthy field (the evidence as JSON), then
      is_active when isActive is defined. */
  function CasePlan(b: CaseBody): seq<Assignment> {
    Pushed(
      Field(Truthy(b.title), Assignment(Title, Value(b.title))),
      Field(Truthy(b.description), Assignment(Description, Value(b.description))),
      Field(Truthy(b.evidence), Assignment(Evidence, JsonOf(b.evidence))),
      Field(Truthy(b.difficultyLevel), Assignment(DifficultyLevel, Value(b.difficultyLevel))),
      Field(Truthy(b.category), Assignment(Category, Value(b.category))),
      Field(b.isActive != Undefined, Assignment(IsActive, Flag(b.isActive))))
  }

  /** The title, description and evidence (as JSON) each get a clause iff the field is truthy. */
  lemma CasePlanTextClauses(b: CaseBody)
    ensures Assignment(Title, Value(b.title)) in CasePlan(b) <==> Truthy(b.title)
    ensures Assignment(Description, Value(b.description)) in CasePlan(b) <==> Truthy(b.description)
    ensures Assignment(Evidence, JsonOf(b.evidence)) in CasePlan(b) <==> Truthy(b.evidence)
  {
    PushedMembers(
      Field(Truthy(b.title), Assignment(Title, Value(b.title))),
      Field(Truthy(b.description), Assignment(Description, Value(b.description))),
      Field(Truthy(b.evidence), Assignment(Evidence, JsonOf(b.evidence))),
      Field(Truthy(b.difficultyLevel), Assignment(DifficultyLevel, Value(b.difficultyLevel))),
      Field(Truthy(b.category), Assignment(Category, Value(b.category))),
      Field(b.isActive != Undefined, Assignment(IsActive, Flag(b.isActive))));
  }

  /** So do the difficulty and the category; is_active gets 1 or 0 iff isActive is defined. */
  lemma CasePlanSettingClauses(b: CaseBody)
    ensures Assignment(DifficultyLevel, Value(b.difficultyLevel)) in CasePlan(b) <==> Truthy(b.difficultyLevel)
    ensures Assignment(Category, Value(b.category)) in CasePlan(b) <==> Truthy(b.category)
    ensures Assignment(IsActive, Flag(b.isActive)) in CasePlan(b) <==> b.isActive != Undefined
  {
    PushedMembers(
      Field(Truthy(b.title), Assignment(Title, Value(b.title))),
      Field(Truthy(b.description), Assignment(Description, Value(b.description))),
      Field(Truthy(b.evidence), Assignment(Evidence, JsonOf(b.evidence))),
      Field(Truthy(b.difficultyLevel), Assignment(DifficultyLevel, Value(b.difficultyLevel))),
      Field(Truthy(b.category), Assignment(Category, Value(b.category))),
      Field(b.isActive != Undefined, Assignment(IsActive, Flag(b.isActive))));
  }

  /** There is no other clause. */
  lemma CasePlanOnlyFields(b: CaseBody)
    ensures forall a | a in CasePlan(b) ::
      a in [Assignment(Title, Value(b.title)), Assignment(Description, Value(b.description)),
            Assignment(Evidence, JsonOf(b.evidence)), Assignment(DifficultyLevel, Value(b.difficultyLevel)),
            Assignment(Category, Value(b.category)), Assignment(IsActive, Flag(b.isActive))]
  {
    PushedMembers(
      Field(Truthy(b.title), Assignment(Title, Value(b.title))),
      Field(Truthy(b.description), Assignment(Description, Value(b.description))),
      Field(Truthy(b.evidence), Assignment(Evidence, JsonOf(b.evidence))),
      Field(Truthy(b.difficultyLevel), Assignment(DifficultyLevel, Value(b.difficultyLevel))),
      Field(Truthy(b.category), Assignment(Category, Value(b.category))),
      Field(b.isActive != Undefined, Assignment(IsActive, Flag(b.isActive))));
  }

  /** The clauses come in the handler's order. */
  lemma CasePlanInOrder(b: CaseBody)
    ensures InClauseOrder(CasePlan(b))
  {
    PushedInOrder(
      Field(Truthy(b.title), Assignment(Title, Value(b.title))),
      Field(Truthy(b.description), Assignment(Description, Value(b.description))),
      Field(Truthy(b.evidence), Assignment(Evidence, JsonOf(b.evidence))),
      Field(Truthy(b.difficultyLevel), Assignment(DifficultyLevel, Value(b.difficultyLevel))),
      Field(Truthy(b.category), Assignment(Category, Value(b.category))),
      Field(b.isActive != Undefined, Assignment(IsActive, Flag(b.isActive))));
  }

  /** The plan is empty iff no field asks for a clause. */
  lemma CasePlanEmpty(b: CaseBody)
    ensures CasePlan(b) == [] <==>
      !Truthy(b.title) && !Truthy(b.description) && !Truthy(b.evidence) && !Truthy(b.difficultyLevel)
      && !Truthy(b.category) && b.isActive == Undefined
  {
    PushedEmpty(
      Field(Truthy(b.title), Assignment(Title, Value(b.title))),
      Field(Truthy(b.description), Assignment(Description, Value(b.description))),
      Field(Truthy(b.evidence), Assignment(Evidence, JsonOf(b.evidence))),
      Field(Truthy(b.difficultyLevel), Assignment(DifficultyLevel, Value(b.difficultyLevel))),
      Field(Truthy(b.category), Assignment(Category, Value(b.category))),
      Field(b.isActive != Undefined, Assignment(IsActive, Flag(b.isActive))));
  }


  method BuildCaseUpdate(b: CaseBody) returns (sets: seq<Column>, values: seq<Param>)
    ensures Aligned(sets, values, CasePlan(b))
  {
    sets, values := [], [];
    ghost var plan: seq<Assignment> := [];
    if Truthy(b.title) {
      PushAligned(sets, values, plan, Title, Value(b.title));
      sets, values := sets + [Title], values + [Value(b.title)];
    }
    plan := Push(plan, Field(Truthy(b.title), Assignment(Title, Value(b.title))));
    if Truthy(b.description) {
      PushAligned(sets, values, plan, Description, Value(b.description));
      sets, values := sets + [Description], values + [Value(b.description)];
    }
    plan := Push(plan, Field(Truthy(b.description), Assignment(Description, Value(b.description))));
    if Truthy(b.evidence) {
      PushAligned(sets, values, plan, Evidence, JsonOf(b.evidence));
      sets, values := sets + [Evidence], values + [JsonOf(b.evidence)];
    }
    plan := Push(plan, Field(Truthy(b.evidence), Assignment(Evidence, JsonOf(b.evidence))));
    if Truthy(b.difficultyLevel) {
      PushAligned(sets, values, plan, DifficultyLevel, Value(b.difficultyLevel));
      sets, values := sets + [DifficultyLevel], values + [Value(b.difficultyLevel)];
    }
    plan := Push(plan, Field(Truthy(b.difficultyLevel), Assignment(DifficultyLevel, Value(b.difficultyLevel))));
    if Truthy(b.category) {
      PushAligned(sets, values, plan, Category, Value(b.category));
      sets, values := sets + [Category], values + [Value(b.category)];
    }
    plan := Push(plan, Field(Truthy(b.category), Assignment(Category, Value(b.category))));
    if b.isActive != Undefined {
      PushAligned(sets, values, plan, IsActive, Flag(b.isActive));
      sets, values := sets + [IsActive], values + [Flag(b.isActive)];
    }
    plan := Push(plan, Field(b.isActive != Undefined, Assignment(IsActive, Flag(b.isActive))));
  }

  function UpdateCaseOutcome(st: Tables, requester: Claims, id: int, b: CaseBody): (r: (Tables, Response))
    ensures !r.1.Success? ==> r.0 == st
  {
    var gate := Gate(Staff(), requester);
    if gate.Some? then (st, Fail(gate.value))
    else if CasePlan(b) == [] then (st, Error(400, NothingToUpdate()))
    else Written(Updated(st, LegalCases, id, CasePlan(b)), CaseUpdated(), CaseUpdateFailed())
  }

  method UpdateCase(db: Database, requester: Claims, id: int, b: CaseBody) returns (res: Response)
    modifies db
    ensures (db.Snapshot(), res) == UpdateCaseOutcome(old(db.Snapshot()), requester, id, b)
  {
    var gate := Gate(Staff(), requester);
    if gate.Some? {
      return Fail(gate.value);
    }
    var sets, values := BuildCaseUpdate(b);
    if |sets| == 0 {
      return Error(400, NothingToUpdate());
    }
    ZipAligned(sets, values, CasePlan(b), [Value(Num(id))]);
    var ok := db.Execute(UpdateStatement(LegalCases, sets, values + [Value(Num(id))]));
    res := if ok then Success(CaseUpdated(), None) else Error(500, CaseUpdateFailed());
  }

  /** An empty case update is refused with 400; a successful one writes every clause's
      value into the row it names, leaves everything else alone and keeps the database
      consistent. */
  lemma UpdateCaseRules(st: Tables, requester: Claims, id: int, b: CaseBody)
    requires Consistent(st)
    ensures requester.role in Staff() ==>
      (UpdateCaseOutcome(st, requester, id, b) == (st, Error(400, NothingToUpdate()))
       <==> !Truthy(b.title) && !Truthy(b.description) && !Truthy(b.evidence) && !Truthy(b.difficultyLevel)
            && !Truthy(b.category) && b.isActive == Undefined)
    ensures var r := UpdateCaseOutcome(st, requester, id, b);
      && Consistent(r.0)
      && (r.1.Success? && id !in st.cases ==> r.0 == st)
      && (r.1.Success? && id in st.cases ==>
            && r.0 == st.(cases := st.cases[id := r.0.cases[id]])
            && (forall a | a in CasePlan(b) :: a.column in r.0.cases[id] && r.0.cases[id][a.column] == a.value)
            && (forall c | c in st.cases[id] && c !in ColumnsOf(CasePlan(b)) :: r.0.cases[id][c] == st.cases[id][c]))
  {
    CasePlanInOrder(b);
    CasePlanEmpty(b);
    UpdatedKeepsConsistent(st, LegalCases, id, CasePlan(b));
    if id in st.cases {
      AssignedInOrder(st.cases[id], CasePlan(b));
    }
  }

  function DeleteCaseOutcome(st: Tables, requester: Claims, id: int): (r: (Tables, Response))
    ensures !r.1.Success? ==> r.0 == st
  {
    var gate := Gate(AdminOnly(), requester);
    if gate.Some? then (st, Fail(gate.value))
    else Written(Updated(st, LegalCases, id, SoftDelete()), CaseDeactivated(), CaseDeleteFailed())
  }

  method DeleteCase(db: Database, requester: Claims, id: int) returns (res: Response)
    modifies db
    ensures (db.Snapshot(), res) == DeleteCaseOutcome(old(db.Snapshot()), requester, id)
  {
    var gate := Gate(AdminOnly(), requester);
    if gate.Some? {
      return Fail(gate.value);
    }
    var ok := db.Execute(UpdateStatement(LegalCases, [IsActive], [Value(Num(0)), Value(Num(id))]));
    res := if ok then Success(CaseDeactivated(), None) else Error(500, CaseDeleteFailed());
  }

  /** Only an admin may delete a case; on a consistent database the deletion succeeds,
      keeps the row and sets only its is_active, to 0. */
  lemma DeleteCaseIsSoft(st: Tables, requester: Claims, id: int)
    requires Consistent(st)
    ensures requester.role != "admin" ==> DeleteCaseOutcome(st, requester, id) == (st, Error(403, "Onvoldoende rechten"))
    ensures requester.role == "admin" ==>
      var r := DeleteCaseOutcome(st, requester, id);
      && r.1 == Success(CaseDeactivated(), None)
      && r.0.users == st.users
      && r.0.cases == (if id in st.cases then st.cases[id := st.cases[id][IsActive := Value(Num(0))]] else st.cases)
  {
    if requester.role == "admin" && id in st.cases {
      SettingColumnSucceeds(st, LegalCases, id, IsActive, Value(Num(0)));
    }
  }
}
