/**
 * The two tables the admin and case routes write (database/db.js): users and
 * legal_cases, each a map from row id to the row's columns, with AUTOINCREMENT ids and
 * the NOT NULL and UNIQUE constraints of their schema.
 *
 * A statement parameter is the JavaScript value bound to it, or the JSON text that
 * JSON.stringify makes of a value (kept as the value it encodes). SQL text is not
 * modelled: an UPDATE is its table, the columns of its SET clause in order, and its
 * parameter list.
 */
module Db {
  import opened Wrappers
  import opened Js

  datatype Table = Users | LegalCases

  datatype Column =
    | Email | PasswordHash | FirstName | LastName | Role | StudentNumber | ApiKey | IsActive
    | Title | Description | Evidence | DifficultyLevel | Category | CreatedBy

  datatype Param = Value(v: JsValue) | JsonOf(v: JsValue)

  /** undefined and null are both bound as NULL. */
  predicate IsNull(p: Param) {
    p == Value(Undefined) || p == Value(Null)
  }

  type Row = map<Column, Param>

  datatype Assignment = Assignment(column: Column, value: Param)

  function ColumnsOf(plan: seq<Assignment>): (r: seq<Column>)
    ensures |r| == |plan|
    ensures forall i :: 0 <= i < |plan| ==> r[i] == plan[i].column
  {
    if plan == [] then [] else [plan[0].column] + ColumnsOf(plan[1..])
  }

  /** The row after the SET clause: each assignment in turn. */
  function Assigned(row: Row, plan: seq<Assignment>): (r: Row)
    ensures r.Keys == row.Keys + set i | 0 <= i < |plan| :: plan[i].column
    ensures forall c | c in row && c !in ColumnsOf(plan) :: r[c] == row[c]
    decreases |plan|
  {
    if plan == [] then row else Assigned(row[plan[0].column := plan[0].value], plan[1..])
  }

  /** An assignment to a column no later assignment repeats is the value it keeps. */
  lemma {:induction false} AssignedValue(row: Row, plan: seq<Assignment>, i: nat)
    requires i < |plan| && plan[i].column !in ColumnsOf(plan[i + 1..])
    ensures Assigned(row, plan)[plan[i].column] == plan[i].value
    decreases i
  {
    if i == 0 {
      assert plan[1..] == plan[i + 1..];
    } else {
      assert plan[1..][i - 1] == plan[i];
      assert plan[1..][i - 1 + 1..] == plan[i + 1..];
      AssignedValue(row[plan[0].column := plan[0].value], plan[1..], i - 1);
    }
  }

  function NotNullColumns(t: Table): set<Column> {
    match t
    case Users => {Email, PasswordHash, FirstName, LastName, Role}
    case LegalCases => {Title, Description}
  }

  function UniqueColumns(t: Table): set<Column> {
    match t
    case Users => {Email, StudentNumber}
    case LegalCases => {}
  }

  /** Row `id` may hold `row` in `rows`: no NOT NULL column is missing or NULL, and no
      other row has the same non-NULL value in a UNIQUE column. */
  predicate Admissible(t: Table, rows: map<int, Row>, id: int, row: Row) {
    && (forall c | c in NotNullColumns(t) :: c in row && !IsNull(row[c]))
    && (forall c, other | c in UniqueColumns(t) && c in row && !IsNull(row[c]) && other in rows && other != id ::
          !(c in rows[other] && rows[other][c] == row[c]))
  }

  datatype Tables = Tables(users: map<int, Row>, cases: map<int, Row>, nextUserId: nat, nextCaseId: nat)

  function Rows(st: Tables, t: Table): map<int, Row> {
    match t
    case Users => st.users
    case LegalCases => st.cases
  }

  function WithRows(st: Tables, t: Table, rows: map<int, Row>): (r: Tables)
    ensures Rows(r, t) == rows
    ensures Rows(r, Other(t)) == Rows(st, Other(t))
    ensures r.nextUserId == st.nextUserId && r.nextCaseId == st.nextCaseId
  {
    match t
    case Users => st.(users := rows)
    case LegalCases => st.(cases := rows)
  }

  /** `UPDATE t SET … WHERE id = ?`: no row matches, the new row breaks a constraint (an
      error, nothing written), or the row is rewritten. */
  function Updated(st: Tables, t: Table, id: int, plan: seq<Assignment>): (r: (Tables, bool))
    ensures !r.1 ==> r.0 == st
    ensures id !in Rows(st, t) ==> r == (st, true)
    ensures r.1 && id in Rows(st, t) ==> r.0 == WithRows(st, t, Rows(st, t)[id := Assigned(Rows(st, t)[id], plan)])
    ensures r.1 && id in Rows(st, t) ==> Admissible(t, Rows(st, t), id, Assigned(Rows(st, t)[id], plan))
  {
    var rows := Rows(st, t);
    if id !in rows then (st, true)
    else
      var row := Assigned(rows[id], plan);
      if Admissible(t, rows, id, row) then (WithRows(st, t, rows[id := row]), true) else (st, false)
  }

  /** An UPDATE of an existing row whose new contents `row` meet the constraints stores it. */
  lemma UpdatedTo(st: Tables, t: Table, id: int, plan: seq<Assignment>, row: Row)
    requires id in Rows(st, t) && Assigned(Rows(st, t)[id], plan) == row && Admissible(t, Rows(st, t), id, row)
    ensures Updated(st, t, id, plan) == (WithRows(st, t, Rows(st, t)[id := row]), true)
  {
  }

  /** An UPDATE of an existing row whose new contents `row` break a constraint fails and
      writes nothing. */
  lemma UpdatedRefused(st: Tables, t: Table, id: int, plan: seq<Assignment>, row: Row)
    requires id in Rows(st, t) && Assigned(Rows(st, t)[id], plan) == row && !Admissible(t, Rows(st, t), id, row)
    ensures Updated(st, t, id, plan) == (st, false)
  {
  }

  function NextId(st: Tables, t: Table): nat {
    if t == Users then st.nextUserId else st.nextCaseId
  }

  /** The schema's DEFAULT clauses: what a column an INSERT does not name holds. */
  function Defaults(t: Table): Row {
    match t
    case Users => map[Role := Value(Str("student")), IsActive := Value(Num(1))]
    case LegalCases => map[DifficultyLevel := Value(Num(1)), Category := Value(Str("algemeen")), IsActive := Value(Num(1))]
  }

  /** `INSERT INTO t …`: the named columns over the defaults, stored under the next id, or
      an error (nothing written) when the row breaks a constraint. */
  function Inserted(st: Tables, t: Table, row: Row): (r: (Tables, Option<nat>))
    ensures r.1.None? ==> r.0 == st
    ensures r.1.Some? ==> r.1.value == NextId(st, t) && r.0 == Stored(st, t, Defaults(t) + row)
  {
    var id := NextId(st, t);
    if !Admissible(t, Rows(st, t), id, Defaults(t) + row) then (st, None)
    else (Stored(st, t, Defaults(t) + row), Some(id))
  }

  /** The state after `row` is stored under the next id of `t`. */
  function Stored(st: Tables, t: Table, row: Row): (r: Tables)
    ensures Rows(r, t) == Rows(st, t)[NextId(st, t) := row]
    ensures Rows(r, Other(t)) == Rows(st, Other(t)) && NextId(r, Other(t)) == NextId(st, Other(t))
    ensures NextId(r, t) == NextId(st, t) + 1
  {
    var st' := WithRows(st, t, Rows(st, t)[NextId(st, t) := row]);
    if t == Users then st'.(nextUserId := st.nextUserId + 1) else st'.(nextCaseId := st.nextCaseId + 1)
  }

  function Other(t: Table): Table {
    if t == Users then LegalCases else Users
  }

  /** Every row of `t` is admissible beside the others. */
  predicate TableValid(t: Table, rows: map<int, Row>) {
    forall id | id in rows :: Admissible(t, rows, id, rows[id])
  }

  /** What the schema keeps true of the database: every row meets the constraints and
      every id is below the next AUTOINCREMENT id. */
  predicate Consistent(st: Tables) {
    && TableValid(Users, st.users) && TableValid(LegalCases, st.cases)
    && (forall id | id in st.users :: id < st.nextUserId)
    && (forall id | id in st.cases :: id < st.nextCaseId)
  }

  /** Storing an admissible row keeps the other rows admissible: UNIQUE is symmetric. */
  lemma StoringAdmissibleKeepsValid(t: Table, rows: map<int, Row>, id: int, row: Row)
    requires TableValid(t, rows) && Admissible(t, rows, id, row)
    ensures TableValid(t, rows[id := row])
  {
    var rows' := rows[id := row];
    forall o | o in rows' ensures Admissible(t, rows', o, rows'[o]) {
      if o != id {
        assert Admissible(t, rows, o, rows[o]);
        forall c, other | c in UniqueColumns(t) && c in rows'[o] && !IsNull(rows'[o][c]) && other in rows' && other != o
          ensures !(c in rows'[other] && rows'[other][c] == rows'[o][c])
        {
          if other == id {
            assert o in rows && o != id;
          }
        }
      }
    }
  }

  lemma UpdatedKeepsConsistent(st: Tables, t: Table, id: int, plan: seq<Assignment>)
    requires Consistent(st)
    ensures Consistent(Updated(st, t, id, plan).0)
  {
    var rows := Rows(st, t);
    if id in rows && Admissible(t, rows, id, Assigned(rows[id], plan)) {
      StoringAdmissibleKeepsValid(t, rows, id, Assigned(rows[id], plan));
      assert Rows(Updated(st, t, id, plan).0, t) == rows[id := Assigned(rows[id], plan)];
    }
  }

  lemma InsertedKeepsConsistent(st: Tables, t: Table, row: Row)
    requires Consistent(st)
    ensures Consistent(Inserted(st, t, row).0)
    ensures Inserted(st, t, row).1.Some? ==> Inserted(st, t, row).1.value !in Rows(st, t)
  {
    var rows := Rows(st, t);
    var id := NextId(st, t);
    if Admissible(t, rows, id, Defaults(t) + row) {
      StoringAdmissibleKeepsValid(t, rows, id, Defaults(t) + row);
    }
  }

  /** Setting one column that is not UNIQUE, to a value that is not NULL when the column is
      NOT NULL, never fails on a consistent database and keeps every other column of the row. */
  lemma SettingColumnSucceeds(st: Tables, t: Table, id: int, c: Column, p: Param)
    requires Consistent(st) && id in Rows(st, t)
    requires c !in UniqueColumns(t) && (c in NotNullColumns(t) ==> !IsNull(p))
    ensures Updated(st, t, id, [Assignment(c, p)]).1
    ensures Rows(Updated(st, t, id, [Assignment(c, p)]).0, t) == Rows(st, t)[id := Rows(st, t)[id][c := p]]
  {
    var rows := Rows(st, t);
    var plan := [Assignment(c, p)];
    assert plan[1..] == [];
    assert Assigned(rows[id], plan) == rows[id][c := p];
    assert Admissible(t, rows, id, rows[id]);
  }

  /** An UPDATE as db.run receives it: the SET columns, and their values followed by the
      row id for the WHERE clause. */
  datatype UpdateStatement = UpdateStatement(table: Table, sets: seq<Column>, values: seq<Param>)

  predicate WellFormed(stmt: UpdateStatement) {
    |stmt.values| == |stmt.sets| + 1 && stmt.values[|stmt.sets|].Value? && stmt.values[|stmt.sets|].v.Num?
  }

  function Zip(cs: seq<Column>, ps: seq<Param>): (r: seq<Assignment>)
    requires |cs| <= |ps|
    ensures |r| == |cs|
    ensures forall i :: 0 <= i < |cs| ==> r[i] == Assignment(cs[i], ps[i])
  {
    if cs == [] then [] else [Assignment(cs[0], ps[0])] + Zip(cs[1..], ps[1..])
  }

  /** db.run's callback: the success message, or a 500 when the statement failed. */
  function Written(u: (Tables, bool), success: string, failure: string): (r: (Tables, Response))
    ensures r.0 == u.0
    ensures r.1.Success? <==> u.1
  {
    (u.0, if u.1 then Success(success, None) else Error(500, failure))
  }

  /** Column and value lists built side by side: their assignments are `plan`, and the
      row id appended to the values does not disturb them. */
  predicate Aligned(sets: seq<Column>, values: seq<Param>, plan: seq<Assignment>) {
    |sets| == |values| == |plan| && forall i | 0 <= i < |sets| :: Assignment(sets[i], values[i]) == plan[i]
  }

  lemma PushAligned(sets: seq<Column>, values: seq<Param>, plan: seq<Assignment>, c: Column, p: Param)
    requires Aligned(sets, values, plan)
    ensures Aligned(sets + [c], values + [p], plan + [Assignment(c, p)])
  {
  }

  lemma ZipAligned(sets: seq<Column>, values: seq<Param>, plan: seq<Assignment>, extra: seq<Param>)
    requires Aligned(sets, values, plan)
    ensures Zip(sets, values + extra) == plan
  {
    assert forall i | 0 <= i < |sets| :: (values + extra)[i] == values[i];
  }

  /** The row an UPDATE names and the assignments it makes. */
  function WhereId(stmt: UpdateStatement): int
    requires WellFormed(stmt)
  {
    stmt.values[|stmt.sets|].v.n
  }

  function PlanOf(stmt: UpdateStatement): seq<Assignment>
    requires WellFormed(stmt)
  {
    Zip(stmt.sets, stmt.values)
  }

  /** Some row holds `p` in column `c`. */
  predicate SomeRowHas(rows: map<int, Row>, c: Column, p: Param) {
    exists i | i in rows :: c in rows[i] && rows[i][c] == p
  }

  class Database {
    var users: map<int, Row>
    var cases: map<int, Row>
    var nextUserId: nat
    var nextCaseId: nat

    ghost function Snapshot(): Tables
      reads this
    {
      Tables(users, cases, nextUserId, nextCaseId)
    }

    constructor (st: Tables)
      ensures Snapshot() == st
    {
      users := st.users;
      cases := st.cases;
      nextUserId := st.nextUserId;
      nextCaseId := st.nextCaseId;
    }

    /** `SELECT … WHERE id = ?`. */
    method Find(t: Table, id: int) returns (row: Option<Row>)
      ensures row == (if id in Rows(Snapshot(), t) then Some(Rows(Snapshot(), t)[id]) else None)
    {
      var rows := if t == Users then users else cases;
      row := if id in rows then Some(rows[id]) else None;
    }

    /** `SELECT id FROM t WHERE c = ?`: some matching row, if any. */
    method FindBy(t: Table, c: Column, p: Param) returns (id: Option<int>)
      ensures id.Some? ==> id.value in Rows(Snapshot(), t) && c in Rows(Snapshot(), t)[id.value]
                           && Rows(Snapshot(), t)[id.value][c] == p
      ensures id.None? <==> !SomeRowHas(Rows(Snapshot(), t), c, p)
    {
      var rows := if t == Users then users else cases;
      if exists i | i in rows :: c in rows[i] && rows[i][c] == p {
        var i :| i in rows && c in rows[i] && rows[i][c] == p;
        id := Some(i);
      } else {
        id := None;
      }
    }

    method Execute(stmt: UpdateStatement) returns (ok: bool)
      requires WellFormed(stmt)
      modifies this
      ensures (Snapshot(), ok) == Updated(old(Snapshot()), stmt.table, WhereId(stmt), PlanOf(stmt))
    {
      var id := WhereId(stmt);
      var plan := PlanOf(stmt);
      var rows := if stmt.table == Users then users else cases;
      if id !in rows {
        return true;
      }
      var row := Assigned(rows[id], plan);
      if !Admissible(stmt.table, rows, id, row) {
        return false;
      }
      if stmt.table == Users {
        users := users[id := row];
      } else {
        cases := cases[id := row];
      }
      ok := true;
    }

    method Insert(t: Table, row: Row) returns (id: Option<nat>)
      modifies this
      ensures (Snapshot(), id) == Inserted(old(Snapshot()), t, row)
    {
      var next := if t == Users then nextUserId else nextCaseId;
      var rows := if t == Users then users else cases;
      var full := Defaults(t) + row;
      if !Admissible(t, rows, next, full) {
        return None;
      }
      if t == Users {
        users := users[next := full];
        nextUserId := next + 1;
      } else {
        cases := cases[next := full];
        nextCaseId := next + 1;
      }
      id := Some(next);
    }
  }
}
