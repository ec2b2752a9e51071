/** The rows of a report: one for each assigned task of each session. */
module ReportRows {
  import opened Common
  import opened Trees
  import opened Events
  import opened EventStore
  import opened Metrics
  import opened Sessions
  import opened SessionRuns

  datatype Standing = Unreached | Unfinished | Ended(outcome: Outcome)

  datatype Row = Row(sessionId: Id, arm: string, taskCode: string, taskIndex: nat, sessionCompleted: bool,
                     shown: bool, standing: Standing,
                     correct: Option<bool>, metrics: AttemptMetrics)

  /** The blinded names that reports use for variants and tasks. */
  datatype Codes = Codes(arms: map<Id, string>, tasks: map<Id, string>)

  datatype Health = Health(enrolled: nat, completed: nat, incomplete: nat)

  const NOT_STARTED := AttemptMetrics(None, 0, NotStarted, 0, false, 0)

  // ------------------------------------------------------------------------ rows

  /** Frozen at the finish, or computed from what has been stored so far. */
  function MetricsFor(frozen: Frozen, s: Session, a: Attempt): AttemptMetrics
  {
    if a.finished.Some? then a.finished.value.metrics.(direct := a.finished.value.direct)
    else Measure(EnvOf(frozen, s).places, a.log, "", NoOutcome, false).(direct := false)
  }

  function RowFor(frozen: Frozen, codes: Codes, s: Session, i: nat): Row
    requires i < |s.tasks|
  {
    var k := RowAt(s.attempts, i);
    var arm, task := Opaque(codes.arms, s.variant), Opaque(codes.tasks, s.tasks[i]);
    if k == |s.attempts| then Row(s.id, arm, task, i, s.completedAt.Some?, false, Unreached, None, NOT_STARTED)
    else
      var a := s.attempts[k];
      Row(s.id, arm, task, i, s.completedAt.Some?, true,
          if a.finished.Some? then Ended(a.finished.value.outcome) else Unfinished,
          if a.finished.Some? && a.finished.value.outcome.Selected? then Some(a.finished.value.correct) else None,
          MetricsFor(frozen, s, a))
  }

  function RowsOfSession(frozen: Frozen, codes: Codes, s: Session, n: nat): seq<Row>
    requires n <= |s.tasks|
  {
    if n == 0 then [] else RowsOfSession(frozen, codes, s, n - 1) + [RowFor(frozen, codes, s, n - 1)]
  }

  /** Every assigned task of every session, in order. */
  function AllRows(frozen: Frozen, codes: Codes, sessions: seq<Session>): seq<Row>
  {
    if sessions == [] then []
    else
      AllRows(frozen, codes, sessions[..|sessions| - 1])
      + RowsOfSession(frozen, codes, Last(sessions), |Last(sessions).tasks|)
  }

  function CompletedCount(sessions: seq<Session>): (n: nat)
    ensures n <= |sessions|
  {
    if sessions == [] then 0 else CompletedCount(sessions[..|sessions| - 1]) + if Last(sessions).completedAt.Some?
        then 1 else 0
  }

  /** Attempts keyed by their task index. */
  method AttemptsByIndex(attempts: seq<Attempt>) returns (byIndex: map<nat, Attempt>)
    requires forall i, j :: 0 <= i < j < |attempts| ==> attempts[i].taskIndex != attempts[j].taskIndex
    ensures forall i: nat :: i in byIndex <==> RowAt(attempts, i) < |attempts|
    ensures forall i: nat :: i in byIndex ==> byIndex[i] == attempts[RowAt(attempts, i)]
  {
    byIndex := map[];
    for k := 0 to |attempts|
      invariant forall i: nat :: i in byIndex <==> exists j :: 0 <= j < k && attempts[j].taskIndex == i
      invariant forall j :: 0 <= j < k ==>
                  attempts[j].taskIndex in byIndex && byIndex[attempts[j].taskIndex] == attempts[j]
    {
      byIndex := byIndex[attempts[k].taskIndex := attempts[k]];
    }
  }

  /** One session's rows: unreached until an attempt is found at the index. */
  method SessionRows(frozen: Frozen, codes: Codes, s: Session) returns (rows: seq<Row>)
    requires Progress(s)
    ensures rows == RowsOfSession(frozen, codes, s, |s.tasks|)
  {
    IndexesDiffer(s);
    var attempts := AttemptsByIndex(s.attempts);
    rows := [];
    for i := 0 to |s.tasks|
      invariant rows == RowsOfSession(frozen, codes, s, i)
    {
      var r := AssignedRow(frozen, codes, s, i, attempts);
      rows := rows + [r];
    }
  }

  method AssignedRow(frozen: Frozen, codes: Codes, s: Session, i: nat, attempts: map<nat, Attempt>) returns (r: Row)
    requires i < |s.tasks| && (i in attempts <==> RowAt(s.attempts, i) < |s.attempts|)
    requires i in attempts ==> attempts[i] == s.attempts[RowAt(s.attempts, i)]
    ensures r == RowFor(frozen, codes, s, i)
  {
    r :=
        Row(s.id, Opaque(codes.arms, s.variant), Opaque(codes.tasks, s.tasks[i]), i, s.completedAt.Some?, false,
            Unreached, None, NOT_STARTED);
    if i in attempts {
      var a := attempts[i];
      r := r.(shown := true, standing := Unfinished, metrics := MetricsFor(frozen, s, a));
      if a.finished.Some? {
        r := r.(standing := Ended(a.finished.value.outcome));
        if a.finished.value.outcome.Selected? { r := r.(correct := Some(a.finished.value.correct)); }
      }
    }
  }

  method ReportRows(frozen: Frozen, codes: Codes, sessions: seq<Session>) returns (rows: seq<Row>, health: Health)
    requires forall k {:trigger Progress(sessions[k])} :: 0 <= k < |sessions| ==> Progress(sessions[k])
    ensures rows == AllRows(frozen, codes, sessions)
    ensures health == Health(|sessions|, CompletedCount(sessions), |sessions| - CompletedCount(sessions))
    ensures |rows| == TasksBefore(sessions, |sessions|)
    ensures forall k, i {:trigger RowTells(codes, sessions, rows, k, i)} ::
              0 <= k < |sessions| && 0 <= i < |sessions[k].tasks| ==> RowTells(codes, sessions, rows, k, i)
    ensures health.completed == |Finishers(sessions)|
  {
    rows, health := [], Health(0, 0, 0);
    for k := 0 to |sessions|
      invariant rows == AllRows(frozen, codes, sessions[..k])
      invariant health == Health(k, CompletedCount(sessions[..k]), k - CompletedCount(sessions[..k]))
    {
      var s := sessions[k];
      assert sessions[..k + 1][..k] == sessions[..k] && Last(sessions[..k + 1]) == s && Progress(sessions[k]);
      health := health.(enrolled := health.enrolled + 1);
      if s.completedAt.Some? { health := health.(completed := health.completed + 1); }
          else { health := health.(incomplete := health.incomplete + 1); }
      var ofSession := SessionRows(frozen, codes, s);
      rows := rows + ofSession;
    }
    assert sessions[..|sessions|] == sessions;
    AllRowsTell(frozen, codes, sessions);
    CompletedAre(sessions);
  }

  lemma {:induction false} IndexesDiffer(s: Session)
    requires Progress(s)
    ensures forall i, j :: 0 <= i < j < |s.attempts| ==> s.attempts[i].taskIndex != s.attempts[j].taskIndex
  {
    forall i, j | 0 <= i < j < |s.attempts| ensures s.attempts[i].taskIndex != s.attempts[j].taskIndex {
      assert RowOk(s, i) && RowOk(s, j);
    }
  }

  // -------------------------------------------------------------- what a row is

  /** Shown exactly when reached; a direct success is a correct selection. */
  ghost predicate RowStands(r: Row)
  {
    && (r.shown <==> !r.standing.Unreached?)
    && (r.standing.Ended? ==> r.standing.outcome.Selected? || r.standing.outcome.GaveUp? || r.standing.outcome.Skipped?)
    && (r.metrics.direct ==> r.standing == Ended(Selected) && r.correct == Some(true))
    && (r.sessionCompleted ==> r.standing.Ended?)
  }

  /** In a reachable session every row stands, and a completed session has no task
      unfinished or unreached. */
  lemma {:induction false} SessionRowStands(frozen: Frozen, codes: Codes, s: Session, i: nat)
    requires Progress(s) && i < |s.tasks|
    ensures RowStands(RowFor(frozen, codes, s, i))
    ensures RowFor(frozen, codes, s, i).standing.Ended? <==> i < s.index
    ensures RowFor(frozen, codes, s, i).standing.Unreached? <==> i >= |s.attempts|
  {
    var k := RowAt(s.attempts, i);
    if k < |s.attempts| { assert RowOk(s, k); }
    if i < |s.attempts| { assert RowOk(s, i); }
  }

  ghost predicate AllStand(rows: seq<Row>)
  {
    forall i {:trigger RowStands(rows[i])} :: 0 <= i < |rows| ==> RowStands(rows[i])
  }

  lemma {:induction false} SessionRowsStand(frozen: Frozen, codes: Codes, s: Session, n: nat)
    requires Progress(s) && n <= |s.tasks|
    ensures AllStand(RowsOfSession(frozen, codes, s, n))
  {
    if n > 0 {
      SessionRowsStand(frozen, codes, s, n - 1);
      SessionRowStands(frozen, codes, s, n - 1);
    }
  }

  lemma {:induction false} RowsStand(frozen: Frozen, codes: Codes, sessions: seq<Session>)
    requires forall k {:trigger Progress(sessions[k])} :: 0 <= k < |sessions| ==> Progress(sessions[k])
    ensures AllStand(AllRows(frozen, codes, sessions))
  {
    if sessions != [] {
      var init, s := sessions[..|sessions| - 1], Last(sessions);
      assert forall k :: 0 <= k < |init| ==> init[k] == sessions[k] && Progress(sessions[k]);
      RowsStand(frozen, codes, init);
      assert Progress(sessions[|sessions| - 1]);
      SessionRowsStand(frozen, codes, s, |s.tasks|);
      var a, b := AllRows(frozen, codes, init), RowsOfSession(frozen, codes, s, |s.tasks|);
      forall i | 0 <= i < |a + b| ensures RowStands((a + b)[i]) {
        assert i < |a| ==> RowStands(a[i]);
        assert i >= |a| ==> RowStands(b[i - |a|]);
      }
    }
  }

  // ---------------------------------------------------------- what a row tells

  function TasksBefore(sessions: seq<Session>, k: nat): nat
    requires k <= |sessions|
  {
    if k == 0 then 0 else TasksBefore(sessions, k - 1) + |sessions[k - 1].tasks|
  }

  /** The row of a session's task: whose it is, and how its attempt ended or how far it
      got. The attempt is the one in that position. */
  ghost predicate Tells(codes: Codes, s: Session, i: nat, r: Row)
    requires i < |s.tasks|
  {
    && r.sessionId == s.id && r.taskIndex == i && (r.sessionCompleted <==> s.index == |s.tasks|)
    && r.arm == Opaque(codes.arms, s.variant) && r.taskCode == Opaque(codes.tasks, s.tasks[i])
    && (r.shown <==> i < |s.attempts|)
    && if i < s.index then TellsEnd(s, i, r)
       else
         && r.standing == (if i < |s.attempts| then Unfinished else Unreached)
         && r.correct == None && !r.metrics.direct && r.metrics.navigation == None
  }

  ghost predicate TellsEnd(s: Session, i: nat, r: Row)
  {
    && i < |s.attempts| && s.attempts[i].finished.Some?
    && var f := s.attempts[i].finished.value;
    && r.standing == Ended(f.outcome)
    && r.correct == (if f.outcome == Selected then Some(f.correct) else None)
    && r.metrics == f.metrics.(direct := f.direct)
  }

  ghost predicate RowTells(codes: Codes, sessions: seq<Session>, rows: seq<Row>, k: nat, i: nat)
    requires k < |sessions| && i < |sessions[k].tasks|
  {
    TasksBefore(sessions, k) + i < |rows| && Tells(codes, sessions[k], i, rows[TasksBefore(sessions, k) + i])
  }

  lemma {:induction false} RowIsTold(frozen: Frozen, codes: Codes, s: Session, i: nat)
    requires Progress(s) && i < |s.tasks|
    ensures Tells(codes, s, i, RowFor(frozen, codes, s, i))
  {
    var k := RowAt(s.attempts, i);
    if k < |s.attempts| { assert RowOk(s, k); }
    if i < |s.attempts| { assert RowOk(s, i); }
  }

  lemma {:induction false} SessionRowAt(frozen: Frozen, codes: Codes, s: Session, n: nat, i: nat)
    requires i < n <= |s.tasks|
    ensures |RowsOfSession(frozen, codes, s, n)| == n
    ensures RowsOfSession(frozen, codes, s, n)[i] == RowFor(frozen, codes, s, i)
  {
    if i < n - 1 {
      SessionRowAt(frozen, codes, s, n - 1, i);
    } else if n > 1 {
      SessionRowAt(frozen, codes, s, n - 1, 0);
    }
  }

  lemma {:induction false} BeforeStays(sessions: seq<Session>, init: seq<Session>, k: nat)
    requires k <= |init| <= |sessions| && init == sessions[..|init|]
    ensures TasksBefore(init, k) == TasksBefore(sessions, k)
  {
    if k > 0 { BeforeStays(sessions, init, k - 1); }
  }

  lemma {:induction false} HowManyRows(frozen: Frozen, codes: Codes, sessions: seq<Session>)
    ensures |AllRows(frozen, codes, sessions)| == TasksBefore(sessions, |sessions|)
  {
    if sessions != [] {
      var init, s := sessions[..|sessions| - 1], Last(sessions);
      HowManyRows(frozen, codes, init);
      BeforeStays(sessions, init, |init|);
      if s.tasks != [] { SessionRowAt(frozen, codes, s, |s.tasks|, 0); }
    }
  }

  lemma {:induction false} RowAtTells(frozen: Frozen, codes: Codes, sessions: seq<Session>, k: nat, i: nat)
    requires k < |sessions| && i < |sessions[k].tasks| && Progress(sessions[k])
    ensures RowTells(codes, sessions, AllRows(frozen, codes, sessions), k, i)
  {
    var init, s := sessions[..|sessions| - 1], Last(sessions);
    HowManyRows(frozen, codes, init);
    BeforeStays(sessions, init, |init|);
    if k < |init| {
      assert init[k] == sessions[k];
      RowAtTells(frozen, codes, init, k, i);
      BeforeStays(sessions, init, k);
    } else {
      SessionRowAt(frozen, codes, s, |s.tasks|, i);
      RowIsTold(frozen, codes, s, i);
    }
  }

  /** There is one row for each session and task, in order, and it tells what is stored. */
  lemma {:induction false} AllRowsTell(frozen: Frozen, codes: Codes, sessions: seq<Session>)
    requires forall k {:trigger Progress(sessions[k])} :: 0 <= k < |sessions| ==> Progress(sessions[k])
    ensures |AllRows(frozen, codes, sessions)| == TasksBefore(sessions, |sessions|)
    ensures forall k, i {:trigger RowTells(codes, sessions, AllRows(frozen, codes, sessions), k, i)} ::
              0 <= k < |sessions| && 0 <= i < |sessions[k].tasks| ==>
                RowTells(codes, sessions, AllRows(frozen, codes, sessions), k, i)
  {
    HowManyRows(frozen, codes, sessions);
    forall k, i {:trigger RowTells(codes, sessions, AllRows(frozen, codes, sessions), k, i)}
        | 0 <= k < |sessions| && 0 <= i < |sessions[k].tasks|
        ensures RowTells(codes, sessions, AllRows(frozen, codes, sessions), k, i) {
      assert Progress(sessions[k]);
      RowAtTells(frozen, codes, sessions, k, i);
    }
  }

  /** The sessions in which no task is left. */
  ghost function Finishers(sessions: seq<Session>): set<nat>
  {
    set k: nat | k < |sessions| && sessions[k].index == |sessions[k].tasks|
  }

  lemma {:induction false} CompletedAre(sessions: seq<Session>)
    requires forall k {:trigger Progress(sessions[k])} :: 0 <= k < |sessions| ==> Progress(sessions[k])
    ensures CompletedCount(sessions) == |Finishers(sessions)|
  {
    if sessions != [] {
      var init, n := sessions[..|sessions| - 1], |sessions| - 1;
      assert forall k :: 0 <= k < n ==> init[k] == sessions[k] && Progress(sessions[k]);
      assert Progress(sessions[n]);
      CompletedAre(init);
      var a, b := Finishers(init), Finishers(sessions);
      if sessions[n].index == |sessions[n].tasks| {
        assert b == a + {n};
      } else {
        assert b == a;
      }
    }
  }
}
