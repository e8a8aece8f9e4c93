/**
 * A student's progress through the cases and the badges they earn (routes/progress.js),
 * over the two tables they write: user_progress, one row per (user, case), and
 * achievements, one row per (user, badge) by the table's UNIQUE(user_id,
 * achievement_type) constraint (database/db.js:77).
 *
 * The tables are maps: rows keyed by (user, case), badges keyed by (user, badge type).
 * The pure functions (`AfterStart`, `AfterUpdate`, `AfterComplete`, `WithBadges`) are the
 * specification; the class `ProgressStore` holds the same tables in fields and its
 * methods, one per route handler, are proved to agree with them. CURRENT_TIMESTAMP is
 * the input `now`; database errors (the 500 replies) are not modelled.
 */
module Progress {
  import opened Wrappers

  datatype Status = Started | Completed

  /** A user_progress row; `completedAt` is NULL until the case is completed. The log
      is the JSON text the client sent, stored as it is. */
  datatype Row = Row(id: nat, status: Status, score: int, timeSpent: int, log: string, completedAt: Option<int>)

  datatype Key = Key(user: int, caseId: int)

  /** The badges checkAchievements can grant (achievement_type). */
  datatype Badge = FirstCompletion | HighScore | SpeedDemon | Milestone5 | Milestone10

  /** The achievement_type text stored for a badge. */
  function BadgeType(b: Badge): string {
    match b
    case FirstCompletion => "first_completion"
    case HighScore => "high_score"
    case SpeedDemon => "speed_demon"
    case Milestone5 => "milestone_5"
    case Milestone10 => "milestone_10"
  }

  /** The two tables, and the next AUTOINCREMENT id of user_progress. An achievement
      entry holds its earned_at; its name and description are fixed by its type. */
  datatype Store = Store(rows: map<Key, Row>, nextId: nat, badges: map<(int, Badge), int>)

  /** Every row has an id already handed out, and no two rows share one. */
  predicate Valid(st: Store) {
    && 1 <= st.nextId
    && (forall k | k in st.rows :: 1 <= st.rows[k].id < st.nextId)
    && (forall k1, k2 | k1 in st.rows && k2 in st.rows && k1 != k2 :: st.rows[k1].id != st.rows[k2].id)
  }

  const Empty: Store := Store(map[], 1, map[])

  /** The reset and the fresh row of start-case: started, score and time 0, an empty log. */
  function FreshRow(id: nat): Row {
    Row(id, Started, 0, 0, "[]", None)
  }

  datatype StartReply = StartReply(progressId: nat, message: string)

  // ---- /start-case ------------------------------------------------------

  /** start-case: a started row is answered as it is, any other existing row is reset
      under its id, and only when there is no row is one inserted. */
  function AfterStart(st: Store, k: Key): (Store, StartReply) {
    if k in st.rows then
      var row := st.rows[k];
      if row.status == Started then (st, StartReply(row.id, "Zaak al gestart"))
      else (st.(rows := st.rows[k := FreshRow(row.id)]), StartReply(row.id, "Zaak herstart"))
    else
      (st.(rows := st.rows[k := FreshRow(st.nextId)], nextId := st.nextId + 1),
       StartReply(st.nextId, "Zaak gestart"))
  }

  // ---- /update-progress -------------------------------------------------

  /** update-progress: the log and time of a started row; other rows and a missing
      row are left alone. */
  function AfterUpdate(st: Store, k: Key, log: string, timeSpent: int): Store {
    if k in st.rows && st.rows[k].status == Started then
      st.(rows := st.rows[k := st.rows[k].(log := log, timeSpent := timeSpent)])
    else st
  }

  // ---- /complete-case ---------------------------------------------------

  /** The number of the user's completed rows, which both COUNT queries read. */
  function CompletedCount(rows: map<Key, Row>, user: int): nat {
    |set k | k in rows && k.user == user && rows[k].status == Completed|
  }

  /** The badges a completion earns, in the order checkAchievements tries them. */
  function EarnedBadges(count: nat, score: int, timeSpent: int): (r: seq<Badge>)
    ensures FirstCompletion in r <==> count == 1
    ensures HighScore in r <==> score >= 90
    ensures SpeedDemon in r <==> timeSpent < 300
    ensures Milestone5 in r <==> count == 5
    ensures Milestone10 in r <==> count == 10
  {
    (if count == 1 then [FirstCompletion] else [])
    + (if score >= 90 then [HighScore] else [])
    + (if timeSpent < 300 then [SpeedDemon] else [])
    + (if count == 5 then [Milestone5] else if count == 10 then [Milestone10] else [])
  }

  /** INSERT OR IGNORE: a badge the user already has keeps its earned_at. */
  function Grant(badges: map<(int, Badge), int>, user: int, b: Badge, now: int): (r: map<(int, Badge), int>)
    ensures (user, b) in r
    ensures r.Keys == badges.Keys + {(user, b)}
    ensures forall key | key in badges :: r[key] == badges[key]
  {
    if (user, b) in badges then badges else badges[(user, b) := now]
  }

  function GrantAll(badges: map<(int, Badge), int>, user: int, bs: seq<Badge>, now: int): map<(int, Badge), int>
    decreases |bs|
  {
    if bs == [] then badges else GrantAll(Grant(badges, user, bs[0], now), user, bs[1..], now)
  }

  lemma {:induction false} GrantAllAppend(badges: map<(int, Badge), int>, user: int, xs: seq<Badge>, ys: seq<Badge>, now: int)
    ensures GrantAll(badges, user, xs + ys, now) == GrantAll(GrantAll(badges, user, xs, now), user, ys, now)
    decreases |xs|
  {
    if xs == [] {
      assert xs + ys == ys;
    } else {
      assert (xs + ys)[1..] == xs[1..] + ys;
      GrantAllAppend(Grant(badges, user, xs[0], now), user, xs[1..], ys, now);
    }
  }

  /** checkAchievements for a user, after the completion is recorded. */
  function WithBadges(st: Store, user: int, score: int, timeSpent: int, now: int): Store {
    st.(badges := GrantAll(st.badges, user, EarnedBadges(CompletedCount(st.rows, user), score, timeSpent), now))
  }

  /** complete-case: the row, whatever its status, is completed with the given score,
      time and log; then the badges are checked, also when there was no row. */
  function AfterComplete(st: Store, k: Key, score: int, timeSpent: int, log: string, now: int): Store {
    var rows := if k in st.rows
      then st.rows[k := st.rows[k].(status := Completed, score := score, timeSpent := timeSpent,
                                      log := log, completedAt := Some(now))]
      else st.rows;
    WithBadges(st.(rows := rows), k.user, score, timeSpent, now)
  }

  /** The conversation_log GET hands back: the stored JSON text, or the empty list
      when the column is NULL or empty. */
  datatype LogView = EmptyList | Json(text: string)

  function ReadLog(stored: Option<string>): (r: LogView)
    ensures r == EmptyList <==> stored == None || stored == Some("")
    ensures r.Json? ==> stored == Some(r.text)
  {
    match stored
    case None => EmptyList
    case Some(text) => if text == "" then EmptyList else Json(text)
  }

  // ---- properties --------------------------------------------------------

  /** The three outcomes of start-case. */
  lemma StartCaseOutcomes(st: Store, k: Key)
    ensures var (st', reply) := AfterStart(st, k);
      && k in st'.rows && st'.rows[k].status == Started
      && st'.rows.Keys == st.rows.Keys + {k}
      && st'.badges == st.badges
      && (forall k' | k' in st.rows && k' != k :: st'.rows[k'] == st.rows[k'])
      && (k in st.rows && st.rows[k].status == Started ==> st' == st && reply.progressId == st.rows[k].id)
      && (k in st.rows && st.rows[k].status != Started ==>
            st'.rows[k] == FreshRow(st.rows[k].id) && reply.progressId == st.rows[k].id && st'.nextId == st.nextId)
      && (k !in st.rows ==> st'.rows[k] == FreshRow(st.nextId) && reply.progressId == st.nextId
                            && st'.nextId == st.nextId + 1)
  {
  }

  /** start-case keeps row ids distinct and already handed out. */
  lemma StartCaseKeepsIdsUnique(st: Store, k: Key)
    requires Valid(st)
    ensures Valid(AfterStart(st, k).0)
  {
    var st' := AfterStart(st, k).0;
    if k in st.rows && st.rows[k].status != Started {
      var rows' := st.rows[k := FreshRow(st.rows[k].id)];
      assert st'.rows == rows' && st'.nextId == st.nextId;
      assert forall k' | k' in rows' :: rows'[k'].id == st.rows[k'].id;
    } else if k !in st.rows {
      var rows' := st.rows[k := FreshRow(st.nextId)];
      assert st'.rows == rows' && st'.nextId == st.nextId + 1;
      forall k1, k2 | k1 in rows' && k2 in rows' && k1 != k2
        ensures rows'[k1].id != rows'[k2].id
      {
        if k1 == k {
          assert rows'[k2] == st.rows[k2];
        } else if k2 == k {
          assert rows'[k1] == st.rows[k1];
        }
      }
    }
  }

  /** Starting a case twice leaves the row as the first start made it. */
  lemma StartCaseIsIdempotent(st: Store, k: Key)
    ensures AfterStart(AfterStart(st, k).0, k).0 == AfterStart(st, k).0
    ensures AfterStart(AfterStart(st, k).0, k).1.progressId == AfterStart(st, k).1.progressId
  {
  }

  /** update-progress changes only the log and time of a started row. */
  lemma UpdateTouchesOnlyStartedRow(st: Store, k: Key, log: string, timeSpent: int)
    ensures var st' := AfterUpdate(st, k, log, timeSpent);
      && st'.rows.Keys == st.rows.Keys && st'.nextId == st.nextId && st'.badges == st.badges
      && (forall k' | k' in st.rows && k' != k :: st'.rows[k'] == st.rows[k'])
      && (k in st.rows ==> st'.rows[k].id == st.rows[k].id && st'.rows[k].status == st.rows[k].status
                           && st'.rows[k].score == st.rows[k].score && st'.rows[k].completedAt == st.rows[k].completedAt)
      && (k in st.rows && st.rows[k].status == Started ==> st'.rows[k].log == log && st'.rows[k].timeSpent == timeSpent)
      && (k in st.rows && st.rows[k].status == Completed ==> st'.rows[k] == st.rows[k])
  {
  }

  lemma {:induction false} GrantAllKeys(badges: map<(int, Badge), int>, user: int, bs: seq<Badge>, now: int)
    ensures var r := GrantAll(badges, user, bs, now);
      && (forall key :: key in r <==> key in badges || (key.0 == user && key.1 in bs))
      && (forall key | key in badges :: r[key] == badges[key])
    decreases |bs|
  {
    if bs != [] {
      var g := Grant(badges, user, bs[0], now);
      GrantAllKeys(g, user, bs[1..], now);
      assert forall b :: b in bs <==> b == bs[0] || b in bs[1..];
    }
  }

  /** The badges after a completion: the user's old ones with their original earned_at,
      plus exactly the ones the completion earns. */
  lemma BadgesAfterCompletion(st: Store, user: int, score: int, timeSpent: int, now: int)
    ensures var st' := WithBadges(st, user, score, timeSpent, now);
      var earned := EarnedBadges(CompletedCount(st.rows, user), score, timeSpent);
      && (forall key :: key in st'.badges <==> key in st.badges || (key.0 == user && key.1 in earned))
      && (forall key | key in st.badges :: st'.badges[key] == st.badges[key])
      && st'.rows == st.rows && st'.nextId == st.nextId
  {
    GrantAllKeys(st.badges, user, EarnedBadges(CompletedCount(st.rows, user), score, timeSpent), now);
  }

  /** Granting a badge again changes nothing: the one record keeps its first earned_at. */
  lemma GrantIsIdempotent(badges: map<(int, Badge), int>, user: int, b: Badge, now: int, later: int)
    ensures Grant(Grant(badges, user, b, now), user, b, later) == Grant(badges, user, b, now)
    ensures Grant(Grant(badges, user, b, now), user, b, later)[(user, b)] ==
            (if (user, b) in badges then badges[(user, b)] else now)
  {
  }

  /** complete-case records the completion on the row and nowhere else. */
  lemma CompleteCaseRecordsRow(st: Store, k: Key, score: int, timeSpent: int, log: string, now: int)
    ensures var st' := AfterComplete(st, k, score, timeSpent, log, now);
      && st'.rows.Keys == st.rows.Keys && st'.nextId == st.nextId
      && (forall k' | k' in st.rows && k' != k :: st'.rows[k'] == st.rows[k'])
      && (k in st.rows ==> st'.rows[k] == Row(st.rows[k].id, Completed, score, timeSpent, log, Some(now)))
  {
  }

  /** The user's completed rows after complete-case: the completed row is counted, and
      the first-completion badge is held afterwards exactly when it was held before or
      no other row of the user is completed. Without a row nothing is counted anew. */
  lemma CompletionIsCounted(st: Store, k: Key, score: int, timeSpent: int, log: string, now: int)
    ensures var st' := AfterComplete(st, k, score, timeSpent, log, now);
      && (k in st.rows ==> CompletedCount(st'.rows, k.user) >= 1)
      && (k in st.rows ==>
            ((k.user, FirstCompletion) in st'.badges <==>
               (k.user, FirstCompletion) in st.badges
               || forall k' | k' in st.rows && k' != k && k'.user == k.user :: st.rows[k'].status != Completed))
      && (k !in st.rows ==> CompletedCount(st'.rows, k.user) == CompletedCount(st.rows, k.user))
  {
    var st' := AfterComplete(st, k, score, timeSpent, log, now);
    var user := k.user;
    if k in st.rows {
      var rows' := st.rows[k := st.rows[k].(status := Completed, score := score, timeSpent := timeSpent,
                                            log := log, completedAt := Some(now))];
      assert st'.rows == rows';
      var done := set k' | k' in rows' && k'.user == user && rows'[k'].status == Completed;
      assert k in done;
      var count := CompletedCount(rows', user);
      assert count == |done|;
      BadgesAfterCompletion(st.(rows := rows'), user, score, timeSpent, now);
      if forall k' | k' in st.rows && k' != k && k'.user == user :: st.rows[k'].status != Completed {
        assert done == {k};
      } else {
        var o :| o in st.rows && o != k && o.user == user && st.rows[o].status == Completed;
        assert done == {k, o} + (done - {k, o});
        assert |done| == |{k, o}| + |done - {k, o}|;
        assert FirstCompletion !in EarnedBadges(count, score, timeSpent);
      }
    } else {
      assert st'.rows == st.rows;
    }
  }

  /** Started, completed, then started again: the same row and id, reset. */
  lemma RestartReusesTheRow(st: Store, k: Key, score: int, timeSpent: int, log: string, now: int)
    requires k in st.rows
    ensures var done := AfterComplete(st, k, score, timeSpent, log, now);
      var (again, reply) := AfterStart(done, k);
      && reply.progressId == st.rows[k].id && reply.message == "Zaak herstart"
      && again.rows[k] == FreshRow(st.rows[k].id) && again.nextId == st.nextId
  {
    var done := AfterComplete(st, k, score, timeSpent, log, now);
    assert done.rows[k].status == Completed;
  }

  // ---- the route handlers, in place -------------------------------------

  class ProgressStore {
    var rows: map<Key, Row>
    var nextId: nat
    var badges: map<(int, Badge), int>

    ghost function Snapshot(): Store
      reads this
    {
      Store(rows, nextId, badges)
    }

    constructor ()
      ensures Snapshot() == Empty
    {
      rows := map[];
      nextId := 1;
      badges := map[];
    }

    method StartCase(user: int, caseId: int) returns (reply: StartReply)
      modifies this
      ensures (Snapshot(), reply) == AfterStart(old(Snapshot()), Key(user, caseId))
    {
      var k := Key(user, caseId);
      if k in rows {
        var existing := rows[k];
        if existing.status == Started {
          reply := StartReply(existing.id, "Zaak al gestart");
        } else {
          rows := rows[k := FreshRow(existing.id)];
          reply := StartReply(existing.id, "Zaak herstart");
        }
        return;
      }
      rows := rows[k := FreshRow(nextId)];
      reply := StartReply(nextId, "Zaak gestart");
      nextId := nextId + 1;
    }

    method UpdateProgress(user: int, caseId: int, log: string, timeSpent: int)
      modifies this
      ensures Snapshot() == AfterUpdate(old(Snapshot()), Key(user, caseId), log, timeSpent)
    {
      var k := Key(user, caseId);
      if k in rows && rows[k].status == Started {
        rows := rows[k := rows[k].(log := log, timeSpent := timeSpent)];
      }
    }

    /** The completed rows of a user, counted. */
    method CountCompleted(user: int) returns (count: nat)
      ensures count == CompletedCount(rows, user)
    {
      count := |set k | k in rows && k.user == user && rows[k].status == Completed|;
    }

    /** One INSERT OR IGNORE of the given badges (none or one) for the user. */
    method Award(user: int, bs: seq<Badge>, now: int)
      requires |bs| <= 1
      modifies this
      ensures Snapshot() == old(Snapshot()).(badges := GrantAll(old(badges), user, bs, now))
    {
      if bs != [] && (user, bs[0]) !in badges {
        badges := badges[(user, bs[0]) := now];
      }
    }

    method CheckAchievements(user: int, score: int, timeSpent: int, now: int)
      modifies this
      ensures Snapshot() == WithBadges(old(Snapshot()), user, score, timeSpent, now)
    {
      ghost var b0 := badges;
      var count := CountCompleted(user);
      var first := if count == 1 then [FirstCompletion] else [];
      var high := if score >= 90 then [HighScore] else [];
      var speed := if timeSpent < 300 then [SpeedDemon] else [];
      var milestone := if count == 5 then [Milestone5] else if count == 10 then [Milestone10] else [];
      Award(user, first, now);
      Award(user, high, now);
      GrantAllAppend(b0, user, first, high, now);
      Award(user, speed, now);
      GrantAllAppend(b0, user, first + high, speed, now);
      Award(user, milestone, now);
      GrantAllAppend(b0, user, first + high + speed, milestone, now);
    }

    method CompleteCase(user: int, caseId: int, score: int, timeSpent: int, log: string, now: int)
      modifies this
      ensures Snapshot() == AfterComplete(old(Snapshot()), Key(user, caseId), score, timeSpent, log, now)
    {
      var k := Key(user, caseId);
      if k in rows {
        rows := rows[k := rows[k].(status := Completed, score := score, timeSpent := timeSpent,
                                    log := log, completedAt := Some(now))];
      }
      CheckAchievements(user, score, timeSpent, now);
    }
  }
}
