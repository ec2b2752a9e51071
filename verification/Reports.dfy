/** Summaries of a report: what each number counts, and that no assigned task is lost. */
module Reports {
  import opened Common
  import opened Trees
  import opened Events
  import opened EventStore
  import opened Metrics
  import opened Sessions
  import opened SessionRuns
  import opened MenuRender
  import opened ReportRows

  // ------------------------------------------------------------------- summaries

  datatype Column =
    | AssignedTask
    | ShownTask
    | CorrectAnswer
    | IncorrectAnswer
    | GivenUp
    | SkippedTask
    | UnfinishedTask
    | UnreachedTask
    | DirectSuccess
    | InterruptedAttempt

  /** What a column of a summary counts. */
  predicate Falls(r: Row, c: Column)
  {
    match c
    case AssignedTask => true
    case ShownTask => r.shown
    case CorrectAnswer => r.standing == Ended(Selected) && r.correct == Some(true)
    case IncorrectAnswer => r.standing == Ended(Selected) && r.correct != Some(true)
    case GivenUp => r.standing == Ended(GaveUp)
    case SkippedTask => r.standing == Ended(Skipped)
    case UnfinishedTask => r.standing.Unfinished?
    case UnreachedTask => r.standing.Unreached?
    case DirectSuccess => r.metrics.direct
    case InterruptedAttempt => r.metrics.quality.Interrupted?
  }

  /** Rows of an arm, and of one task unless the task code is empty. */
  predicate Selects(code: string, task: string, r: Row)
  {
    r.arm == code && (task == "" || r.taskCode == task)
  }

  function Total(rows: seq<Row>, code: string, task: string, c: Column): nat
  {
    if rows == [] then 0
    else Total(rows[..|rows| - 1], code, task, c) + if Selects(code, task, Last(rows)) && Falls(Last(rows), c) then 1
        else 0
  }

  function Backtracked(rows: seq<Row>, code: string, task: string): nat
  {
    if rows == [] then 0
    else
      Backtracked(rows[..|rows| - 1], code, task)
      + if Selects(code, task, Last(rows)) then Last(rows).metrics.backtracks else 0
  }

  function SessionsOf(rows: seq<Row>, code: string, task: string, completed: bool): set<Id>
  {
    set i |
      && 0 <= i < |rows|
      && Selects(code, task, rows[i])
      && (completed ==> rows[i].sessionCompleted) :: rows[i].sessionId
  }

  /** Navigation times of uninterrupted attempts that ended in a selection or in giving up. */
  function Times(rows: seq<Row>, code: string, task: string): seq<int>
  {
    if rows == [] then []
    else
      var r := Last(rows);
      Times(rows[..|rows| - 1], code, task) +
      if Selects(code, task, r) && r.metrics.quality.Complete? && r.metrics.navigation.Some?
          && (r.standing == Ended(Selected) || r.standing == Ended(GaveUp))
      then [r.metrics.navigation.value] else []
  }

  datatype Summary = Summary(participants: nat, completed: nat, given: nat, shown: nat, correct: nat, incorrect: nat,
                             gaveUp: nat, skipped: nat,
                             unfinished: nat, unreached: nat, direct: nat, backtracks: nat, interrupted: nat)

  /** The summary as counts of rows. */
  function SummaryOf(rows: seq<Row>, code: string, task: string): Summary
  {
    Summary(|SessionsOf(rows, code, task, false)|, |SessionsOf(rows, code, task, true)|,
            Total(rows, code, task, AssignedTask), Total(rows, code, task, ShownTask),
                Total(rows, code, task, CorrectAnswer),
            Total(rows, code, task, IncorrectAnswer), Total(rows, code, task, GivenUp),
                Total(rows, code, task, SkippedTask),
            Total(rows, code, task, UnfinishedTask), Total(rows, code, task, UnreachedTask),
                Total(rows, code, task, DirectSuccess),
            Backtracked(rows, code, task), Total(rows, code, task, InterruptedAttempt))
  }

  /** One row more. */
  function Counted(s: Summary, r: Row): Summary
  {
    var t := s.(given := s.given + 1,
                shown := s.shown + if r.shown then 1 else 0,
                direct := s.direct + if r.metrics.direct then 1 else 0,
                backtracks := s.backtracks + r.metrics.backtracks,
                interrupted := s.interrupted + if r.metrics.quality.Interrupted? then 1 else 0);
    match r.standing
    case Unfinished => t.(unfinished := s.unfinished + 1)
    case Unreached => t.(unreached := s.unreached + 1)
    case Ended(outcome) =>
      match outcome
      case Selected => if r.correct == Some(true) then t.(correct := s.correct + 1)
          else t.(incorrect := s.incorrect + 1)
      case GaveUp => t.(gaveUp := s.gaveUp + 1)
      case Skipped => t.(skipped := s.skipped + 1)
      case _ => t
  }

  ghost predicate SameCounts(s: Summary, t: Summary)
  {
    s == t.(participants := s.participants, completed := s.completed)
  }

  lemma {:induction false} CountedTheSame(s: Summary, t: Summary, r: Row)
    requires SameCounts(s, t)
    ensures SameCounts(Counted(s, r), Counted(t, r))
  {}

  lemma {:induction false} SummarySkips(rows: seq<Row>, code: string, task: string)
    requires rows != [] && !Selects(code, task, Last(rows))
    ensures SameCounts(SummaryOf(rows[..|rows| - 1], code, task), SummaryOf(rows, code, task))
  {}

  function One(r: Row, c: Column): nat
  {
    if Falls(r, c) then 1 else 0
  }

  lemma {:induction false} CountedFalls(s: Summary, r: Row)
    ensures
      Counted(s, r) ==
        s.(given := s.given + 1, shown := s.shown + One(r, ShownTask), correct := s.correct + One(r, CorrectAnswer),
           incorrect := s.incorrect + One(r, IncorrectAnswer), gaveUp := s.gaveUp + One(r, GivenUp),
           skipped := s.skipped + One(r, SkippedTask), unfinished := s.unfinished + One(r, UnfinishedTask),
           unreached := s.unreached + One(r, UnreachedTask), direct := s.direct + One(r, DirectSuccess),
           backtracks := s.backtracks + r.metrics.backtracks,
           interrupted := s.interrupted + One(r, InterruptedAttempt))
  {}

  lemma {:induction false} SummaryAdds(rows: seq<Row>, code: string, task: string)
    requires rows != [] && Selects(code, task, Last(rows))
    ensures SameCounts(Counted(SummaryOf(rows[..|rows| - 1], code, task), Last(rows)), SummaryOf(rows, code, task))
  {
    CountedFalls(SummaryOf(rows[..|rows| - 1], code, task), Last(rows));
  }

  lemma {:induction false} CountsStep(rows: seq<Row>, code: string, task: string, s: Summary, i: nat)
    requires i < |rows| && SameCounts(s, SummaryOf(rows[..i], code, task))
    ensures SameCounts(if Selects(code, task, rows[i]) then Counted(s, rows[i])
                       else s, SummaryOf(rows[..i + 1], code, task))
  {
    if Selects(code, task, rows[i]) { SummaryAdds(rows[..i + 1], code, task); }
        else { SummarySkips(rows[..i + 1], code, task); }
    assert rows[..i + 1][..i] == rows[..i] && Last(rows[..i + 1]) == rows[i];
    CountedTheSame(s, SummaryOf(rows[..i], code, task), rows[i]);
  }

  // -------------------------------------------------------- what the fields count

  /** Positions of the rows of an arm, and of one of its tasks unless the task code is
      empty. */
  function Picked(rows: seq<Row>, code: string, task: string): set<nat>
  {
    set i: nat | i < |rows| && rows[i].arm == code && (task == "" || rows[i].taskCode == task)
  }

  function Sum(numbers: seq<nat>): nat
  {
    if numbers == [] then 0 else Sum(numbers[..|numbers| - 1]) + Last(numbers)
  }

  /** The steps back on each row; none on a row that is not asked for. */
  function StepsBack(rows: seq<Row>, code: string, task: string): seq<nat>
  {
    seq(|rows|, i requires 0 <= i < |rows| =>
      if rows[i].arm == code && (task == "" || rows[i].taskCode == task) then rows[i].metrics.backtracks else 0)
  }

  ghost predicate CountsRows(s: Summary, rows: seq<Row>, code: string, task: string)
  {
    var them := Picked(rows, code, task);
    && s.given == |them|
    && s.shown == |set i | i in them && rows[i].shown|
    && s.correct == |set i | i in them && rows[i].standing == Ended(Selected) && rows[i].correct == Some(true)|
    && s.incorrect == |set i | i in them && rows[i].standing == Ended(Selected) && rows[i].correct != Some(true)|
    && s.gaveUp == |set i | i in them && rows[i].standing == Ended(GaveUp)|
    && s.skipped == |set i | i in them && rows[i].standing == Ended(Skipped)|
    && s.unfinished == |set i | i in them && rows[i].standing == Unfinished|
    && s.unreached == |set i | i in them && rows[i].standing == Unreached|
    && s.direct == |set i | i in them && rows[i].metrics.direct|
    && s.interrupted == |set i | i in them && rows[i].metrics.quality == Interrupted|
    && s.backtracks == Sum(StepsBack(rows, code, task))
    && s.participants == |set i | i in them :: rows[i].sessionId|
    && s.completed == |set i | i in them && rows[i].sessionCompleted :: rows[i].sessionId|
  }

  /** The same positions, column by column. */
  function Falling(rows: seq<Row>, code: string, task: string, c: Column): set<nat>
  {
    set i | i in Picked(rows, code, task) && Falls(rows[i], c)
  }

  /** One row more: its position joins, or none does. */
  lemma {:induction false} FallingGrows(rows: seq<Row>, r: Row, code: string, task: string, c: Column)
    ensures |Falling(rows + [r], code, task, c)| ==
            |Falling(rows, code, task, c)| + if Selects(code, task, r) && Falls(r, c) then 1 else 0
  {
    var a, b, all := Falling(rows, code, task, c), Falling(rows + [r], code, task, c), rows + [r];
    var joins := Selects(code, task, r) && Falls(r, c);
    forall i: nat ensures i in b <==> i in a || (joins && i == |rows|) {
      if i < |rows| { assert all[i] == rows[i]; }
    }
    OneMorePosition(a, b, |rows|, joins);
  }

  lemma {:induction false} TotalIsHowMany(rows: seq<Row>, code: string, task: string, c: Column)
    ensures Total(rows, code, task, c) == |Falling(rows, code, task, c)|
  {
    if rows == [] {
      assert Falling(rows, code, task, c) == {};
    } else {
      var init := rows[..|rows| - 1];
      TotalIsHowMany(init, code, task, c);
      FallingGrows(init, Last(rows), code, task, c);
      assert rows == init + [Last(rows)];
    }
  }

  lemma {:induction false} BacktrackedIsSum(rows: seq<Row>, code: string, task: string)
    ensures Backtracked(rows, code, task) == Sum(StepsBack(rows, code, task))
  {
    if rows != [] {
      var init, all := rows[..|rows| - 1], StepsBack(rows, code, task);
      BacktrackedIsSum(init, code, task);
      assert all[..|all| - 1] == StepsBack(init, code, task);
    }
  }

  lemma {:induction false} PeopleAreCounted(rows: seq<Row>, code: string, task: string)
    ensures SessionsOf(rows, code, task, false) == set i | i in Picked(rows, code, task) :: rows[i].sessionId
    ensures SessionsOf(rows, code, task, true) ==
            set i | i in Picked(rows, code, task) && rows[i].sessionCompleted :: rows[i].sessionId
  {
    var them := Picked(rows, code, task);
    assert forall i :: 0 <= i < |rows| ==> (i in them <==> Selects(code, task, rows[i]));
  }

  /** How the attempts that ended did so. */
  lemma {:induction false} EndingsAre(rows: seq<Row>, code: string, task: string)
    ensures var them := Picked(rows, code, task);
            && Falling(rows, code, task, CorrectAnswer) ==
               (set i | i in them && rows[i].standing == Ended(Selected) && rows[i].correct == Some(true))
            && Falling(rows, code, task, IncorrectAnswer) ==
               (set i | i in them && rows[i].standing == Ended(Selected) && rows[i].correct != Some(true))
            && Falling(rows, code, task, GivenUp) == (set i | i in them && rows[i].standing == Ended(GaveUp))
            && Falling(rows, code, task, SkippedTask) == (set i | i in them && rows[i].standing == Ended(Skipped))
  {}

  lemma {:induction false} OthersAre(rows: seq<Row>, code: string, task: string)
    ensures var them := Picked(rows, code, task);
            && Falling(rows, code, task, AssignedTask) == them
            && Falling(rows, code, task, ShownTask) == (set i | i in them && rows[i].shown)
            && Falling(rows, code, task, UnfinishedTask) == (set i | i in them && rows[i].standing == Unfinished)
            && Falling(rows, code, task, UnreachedTask) == (set i | i in them && rows[i].standing == Unreached)
            && Falling(rows, code, task, DirectSuccess) == (set i | i in them && rows[i].metrics.direct)
            && Falling(rows, code, task, InterruptedAttempt) ==
               (set i | i in them && rows[i].metrics.quality == Interrupted)
  {}

  /** Every field of a summary is the number of rows of its kind. */
  lemma {:induction false} SummaryCountsRows(rows: seq<Row>, code: string, task: string)
    ensures CountsRows(SummaryOf(rows, code, task), rows, code, task)
  {
    forall c ensures Total(rows, code, task, c) == |Falling(rows, code, task, c)| {
      TotalIsHowMany(rows, code, task, c);
    }
    EndingsAre(rows, code, task);
    OthersAre(rows, code, task);
    BacktrackedIsSum(rows, code, task);
    PeopleAreCounted(rows, code, task);
  }

  /** An uninterrupted attempt that took this time to select a page or to give up. */
  predicate Took(r: Row, code: string, task: string, time: int)
  {
    && r.arm == code && (task == "" || r.taskCode == task)
    && r.metrics.quality == Complete && r.metrics.navigation == Some(time)
    && (r.standing == Ended(Selected) || r.standing == Ended(GaveUp))
  }

  ghost function Taking(rows: seq<Row>, code: string, task: string, time: int): set<nat>
  {
    set i: nat | i < |rows| && Took(rows[i], code, task, time)
  }

  lemma {:induction false} TakingGrows(rows: seq<Row>, r: Row, code: string, task: string, time: int)
    ensures |Taking(rows + [r], code, task, time)| ==
            |Taking(rows, code, task, time)| + if Took(r, code, task, time) then 1 else 0
  {
    var a, b, all := Taking(rows, code, task, time), Taking(rows + [r], code, task, time), rows + [r];
    forall i: nat ensures i in b <==> i in a || (Took(r, code, task, time) && i == |rows|) {
      if i < |rows| { assert all[i] == rows[i]; }
    }
    OneMorePosition(a, b, |rows|, Took(r, code, task, time));
  }

  lemma {:induction false} OneMoreTime(times: seq<int>, one: seq<int>, time: int)
    requires |one| <= 1
    ensures multiset(times + one)[time] == multiset(times)[time] + if one == [time] then 1 else 0
  {
    assert multiset(times + one) == multiset(times) + multiset(one);
  }

  function OneTime(r: Row, code: string, task: string): seq<int>
  {
    if Selects(code, task, r) && r.metrics.quality.Complete? && r.metrics.navigation.Some?
       && (r.standing == Ended(Selected) || r.standing == Ended(GaveUp))
    then [r.metrics.navigation.value] else []
  }

  lemma {:induction false} TimesGrow(rows: seq<Row>, code: string, task: string)
    requires rows != []
    ensures Times(rows, code, task) == Times(rows[..|rows| - 1], code, task) + OneTime(Last(rows), code, task)
  {}

  lemma {:induction false} OneTimeMore(rows: seq<Row>, code: string, task: string, time: int)
    requires rows != []
    ensures multiset(Times(rows, code, task))[time] ==
            multiset(Times(rows[..|rows| - 1], code, task))[time] + if Took(Last(rows), code, task, time) then 1 else 0
  {
    var one := OneTime(Last(rows), code, task);
    TimesGrow(rows, code, task);
    OneMoreTime(Times(rows[..|rows| - 1], code, task), one, time);
    assert one == [time] <==> Took(Last(rows), code, task, time);
  }

  /** Each time occurs as often as there are such attempts. */
  lemma {:induction false} TimesAreTaken(rows: seq<Row>, code: string, task: string, time: int)
    ensures multiset(Times(rows, code, task))[time] == |Taking(rows, code, task, time)|
  {
    if rows == [] {
      assert Taking(rows, code, task, time) == {};
    } else {
      var init, r := rows[..|rows| - 1], Last(rows);
      TimesAreTaken(init, code, task, time);
      assert |Taking(rows, code, task, time)| ==
             |Taking(init, code, task, time)| + if Took(r, code, task, time) then 1 else 0 by {
        TakingGrows(init, r, code, task, time);
        assert rows == init + [r];
      }
      OneTimeMore(rows, code, task, time);
    }
  }

  method Summarize(code: string, task: string, rows: seq<Row>) returns (s: Summary, times: seq<int>)
    ensures s == SummaryOf(rows, code, task) && times == Times(rows, code, task)
    ensures CountsRows(s, rows, code, task)
  {
    s, times := Summary(0, 0, 0, 0, 0, 0, 0, 0, 0, 0, 0, 0, 0), [];
    var participants, completed: set<Id> := {}, {};
    for i := 0 to |rows|
      invariant SameCounts(s, SummaryOf(rows[..i], code, task)) && times == Times(rows[..i], code, task)
      invariant
        && participants == SessionsOf(rows[..i], code, task, false)
        && completed == SessionsOf(rows[..i], code, task, true)
    {
      var r := rows[i];
      CountsStep(rows, code, task, s, i);
      SessionsStep(rows, code, task, i);
      assert rows[..i + 1][..i] == rows[..i] && Last(rows[..i + 1]) == r;
      if r.arm != code || (task != "" && r.taskCode != task) { continue; }
      participants := participants + {r.sessionId};
      if r.sessionCompleted { completed := completed + {r.sessionId}; }
      s := Counted(s, r);
      if r.metrics.quality.Complete? && r.metrics.navigation.Some?
          && (r.standing == Ended(Selected) || r.standing == Ended(GaveUp)) {
        times := times + [r.metrics.navigation.value];
      }
    }
    assert rows[..|rows|] == rows;
    s := s.(participants := |participants|, completed := |completed|);
    SummaryCountsRows(rows, code, task);
  }

  lemma {:induction false} SessionsStep(rows: seq<Row>, code: string, task: string, i: nat)
    requires i < |rows|
    ensures forall c :: SessionsOf(rows[..i + 1], code, task, c) ==
              SessionsOf(rows[..i], code, task, c) + if Selects(code, task, rows[i])
                  && (c ==> rows[i].sessionCompleted) then {rows[i].sessionId} else {}
  {
    forall c ensures SessionsOf(rows[..i + 1], code, task, c) ==
              SessionsOf(rows[..i], code, task, c) + if Selects(code, task, rows[i])
                  && (c ==> rows[i].sessionCompleted) then {rows[i].sessionId} else {} {
      var a, b := SessionsOf(rows[..i], code, task, c), SessionsOf(rows[..i + 1], code, task, c);
      forall x | x in a ensures x in b {
        var j :| 0 <= j < i && Selects(code, task, rows[..i][j]) && (c ==> rows[..i][j].sessionCompleted)
            && rows[..i][j].sessionId == x;
        assert rows[..i + 1][j] == rows[..i][j];
      }
      forall x | x in b
          ensures x in a
          || (Selects(code, task, rows[i]) && (c ==> rows[i].sessionCompleted) && x == rows[i].sessionId) {
        var j :| 0 <= j < i + 1 && Selects(code, task, rows[..i + 1][j]) && (c ==> rows[..i + 1][j].sessionCompleted)
            && rows[..i + 1][j].sessionId == x;
        if j < i { assert rows[..i][j] == rows[..i + 1][j]; }
      }
      assert rows[..i + 1][i] == rows[i];
    }
  }

  // ---------------------------------------------------------------- conservation

  /** Every assigned task has exactly one standing; what was shown is what was reached;
      direct successes are among the correct ones. */
  lemma {:induction false} NothingIsMiscounted(rows: seq<Row>, code: string, task: string)
    requires AllStand(rows)
    ensures var s := SummaryOf(rows, code, task);
            && s.given == s.correct + s.incorrect + s.gaveUp + s.skipped + s.unfinished + s.unreached
            && s.shown == s.given - s.unreached && s.direct <= s.correct
  {
    if rows != [] {
      var init := rows[..|rows| - 1];
      assert RowStands(rows[|rows| - 1]);
      forall i | 0 <= i < |init| ensures RowStands(init[i]) { assert RowStands(rows[i]); }
      NothingIsMiscounted(init, code, task);
    }
  }

  function SumOver(rows: seq<Row>, code: string, tasks: seq<string>, c: Column): nat
  {
    if tasks == [] then 0 else SumOver(rows, code, tasks[..|tasks| - 1], c) + Total(rows, code, Last(tasks), c)
  }

  /** A row is counted under one task: its own. */
  lemma {:induction false} OneTaskEach(rows: seq<Row>, r: Row, code: string, tasks: seq<string>, c: Column)
    requires NoDuplicates(tasks) && "" !in tasks
    ensures SumOver(rows + [r], code, tasks, c) == SumOver(rows, code, tasks, c) + if r.arm == code && Falls(r, c)
            && r.taskCode in tasks then 1 else 0
  {
    assert (rows + [r])[..|rows|] == rows;
    if tasks != [] {
      var init := tasks[..|tasks| - 1];
      assert tasks == init + [Last(tasks)];
      assert forall i :: 0 <= i < |init| ==> init[i] == tasks[i];
      OneTaskEach(rows, r, code, init, c);
    }
  }

  lemma {:induction false} NoRows(code: string, tasks: seq<string>, c: Column)
    ensures SumOver([], code, tasks, c) == 0
  {
    if tasks != [] { NoRows(code, tasks[..|tasks| - 1], c); }
  }

  /** The counts of an arm are the sums of its counts by task. */
  lemma {:induction false} ArmIsSumOfTasks(rows: seq<Row>, code: string, tasks: seq<string>, c: Column)
    requires NoDuplicates(tasks) && "" !in tasks && forall i :: 0 <= i < |rows| ==> rows[i].taskCode in tasks
    ensures Total(rows, code, "", c) == SumOver(rows, code, tasks, c)
  {
    if rows == [] {
      NoRows(code, tasks, c);
    } else {
      var init := rows[..|rows| - 1];
      assert rows == init + [Last(rows)];
      assert Last(rows) == rows[|rows| - 1];
      assert forall i :: 0 <= i < |init| ==> init[i] == rows[i];
      ArmIsSumOfTasks(init, code, tasks, c);
      OneTaskEach(init, Last(rows), code, tasks, c);
    }
  }

  const NO_ROWS := Summary(0, 0, 0, 0, 0, 0, 0, 0, 0, 0, 0, 0, 0)

  /** Field by field; participants are not added, as one may have rows in both. */
  function Plus(s: Summary, t: Summary): Summary
  {
    Summary(0, 0, s.given + t.given, s.shown + t.shown, s.correct + t.correct, s.incorrect + t.incorrect,
            s.gaveUp + t.gaveUp, s.skipped + t.skipped, s.unfinished + t.unfinished, s.unreached + t.unreached,
            s.direct + t.direct, s.backtracks + t.backtracks, s.interrupted + t.interrupted)
  }

  function SumOfTasks(rows: seq<Row>, code: string, tasks: seq<string>): Summary
  {
    if tasks == [] then NO_ROWS
    else Plus(SumOfTasks(rows, code, tasks[..|tasks| - 1]), SummaryOf(rows, code, Last(tasks)))
  }

  function BacktracksOver(rows: seq<Row>, code: string, tasks: seq<string>): nat
  {
    if tasks == [] then 0
    else BacktracksOver(rows, code, tasks[..|tasks| - 1]) + Backtracked(rows, code, Last(tasks))
  }

  lemma {:induction false} SumsAreSums(rows: seq<Row>, code: string, tasks: seq<string>)
    ensures SumOfTasks(rows, code, tasks) ==
            Summary(0, 0,
                    SumOver(rows, code, tasks, AssignedTask), SumOver(rows, code, tasks, ShownTask),
                    SumOver(rows, code, tasks, CorrectAnswer), SumOver(rows, code, tasks, IncorrectAnswer),
                    SumOver(rows, code, tasks, GivenUp), SumOver(rows, code, tasks, SkippedTask),
                    SumOver(rows, code, tasks, UnfinishedTask), SumOver(rows, code, tasks, UnreachedTask),
                    SumOver(rows, code, tasks, DirectSuccess), BacktracksOver(rows, code, tasks),
                    SumOver(rows, code, tasks, InterruptedAttempt))
  {
    if tasks != [] { SumsAreSums(rows, code, tasks[..|tasks| - 1]); }
  }

  lemma {:induction false} StepsBackOnce(rows: seq<Row>, r: Row, code: string, tasks: seq<string>)
    requires NoDuplicates(tasks) && "" !in tasks
    ensures BacktracksOver(rows + [r], code, tasks) ==
            BacktracksOver(rows, code, tasks) + if r.arm == code && r.taskCode in tasks then r.metrics.backtracks else 0
  {
    assert (rows + [r])[..|rows|] == rows;
    if tasks != [] {
      var init := tasks[..|tasks| - 1];
      assert tasks == init + [Last(tasks)];
      assert forall i :: 0 <= i < |init| ==> init[i] == tasks[i];
      StepsBackOnce(rows, r, code, init);
    }
  }

  lemma {:induction false} NoStepsBack(code: string, tasks: seq<string>)
    ensures BacktracksOver([], code, tasks) == 0
  {
    if tasks != [] { NoStepsBack(code, tasks[..|tasks| - 1]); }
  }

  lemma {:induction false} ArmStepsBack(rows: seq<Row>, code: string, tasks: seq<string>)
    requires NoDuplicates(tasks) && "" !in tasks && forall i :: 0 <= i < |rows| ==> rows[i].taskCode in tasks
    ensures Backtracked(rows, code, "") == BacktracksOver(rows, code, tasks)
  {
    if rows == [] {
      NoStepsBack(code, tasks);
    } else {
      var init := rows[..|rows| - 1];
      assert rows == init + [Last(rows)] && Last(rows) == rows[|rows| - 1];
      assert forall i :: 0 <= i < |init| ==> init[i] == rows[i];
      ArmStepsBack(init, code, tasks);
      StepsBackOnce(init, Last(rows), code, tasks);
    }
  }

  /** The summary of an arm is the sum of the summaries of its tasks, field by field. */
  lemma {:induction false} ArmSummaryAddsUp(rows: seq<Row>, code: string, tasks: seq<string>)
    requires NoDuplicates(tasks) && "" !in tasks && forall i :: 0 <= i < |rows| ==> rows[i].taskCode in tasks
    ensures SameCounts(SummaryOf(rows, code, ""), SumOfTasks(rows, code, tasks))
  {
    SumsAreSums(rows, code, tasks);
    forall c ensures Total(rows, code, "", c) == SumOver(rows, code, tasks, c) {
      ArmIsSumOfTasks(rows, code, tasks, c);
    }
    ArmStepsBack(rows, code, tasks);
  }

  // ------------------------------------------------------------------ task codes

  function TaskCode(i: nat): string
  {
    "T" + Padded(i + 1, 2)
  }

  function TaskCodes(n: nat): seq<string>
  {
    seq(n, i requires 0 <= i < n => TaskCode(i))
  }

  /** The codes given out when a run is created are what the sums need. */
  lemma {:induction false} CodesAreDistinct(n: nat)
    ensures NoDuplicates(TaskCodes(n)) && "" !in TaskCodes(n)
  {
    forall i, j | 0 <= i < j < n ensures TaskCode(i) != TaskCode(j) {
      PaddedReads(i + 1, 2);
      PaddedReads(j + 1, 2);
      assert TaskCode(i)[1..] == Padded(i + 1, 2) && TaskCode(j)[1..] == Padded(j + 1, 2);
    }
  }

  // ------------------------------------------------------------ the whole report

  lemma {:induction false} SessionRowCodes(frozen: Frozen, codes: Codes, s: Session, n: nat, names: seq<string>)
    requires n <= |s.tasks| && forall i :: 0 <= i < |s.tasks| ==> Opaque(codes.tasks, s.tasks[i]) in names
    ensures forall i :: 0 <= i < |RowsOfSession(frozen, codes, s, n)| ==>
              RowsOfSession(frozen, codes, s, n)[i].taskCode in names
  {
    if n > 0 { SessionRowCodes(frozen, codes, s, n - 1, names); }
  }

  /** The session's tasks have codes among these. */
  ghost predicate CodedBy(codes: Codes, s: Session, names: seq<string>)
  {
    forall i :: 0 <= i < |s.tasks| ==> Opaque(codes.tasks, s.tasks[i]) in names
  }

  lemma {:induction false} RowCodes(frozen: Frozen, codes: Codes, sessions: seq<Session>, names: seq<string>)
    requires forall k {:trigger CodedBy(codes, sessions[k], names)} :: 0 <= k < |sessions| ==>
               CodedBy(codes, sessions[k], names)
    ensures forall i :: 0 <= i < |AllRows(frozen, codes, sessions)| ==>
              AllRows(frozen, codes, sessions)[i].taskCode in names
  {
    if sessions != [] {
      var init := sessions[..|sessions| - 1];
      forall k | 0 <= k < |init| ensures CodedBy(codes, init[k], names) { assert CodedBy(codes, sessions[k], names); }
      RowCodes(frozen, codes, init, names);
      assert CodedBy(codes, sessions[|sessions| - 1], names);
      SessionRowCodes(frozen, codes, Last(sessions), |Last(sessions).tasks|, names);
    }
  }

  /** Over the rows of reachable sessions: every assigned task is accounted for once, in
      every arm and for every task, and the arms' counts are the sums of their tasks'. */
  lemma {:induction false} ReportAddsUp(frozen: Frozen, codes: Codes, sessions: seq<Session>, n: nat, code: string,
                                        task: string)
    requires forall k {:trigger Progress(sessions[k])} :: 0 <= k < |sessions| ==> Progress(sessions[k])
    requires forall k {:trigger CodedBy(codes, sessions[k], TaskCodes(n))} :: 0 <= k < |sessions| ==>
               CodedBy(codes, sessions[k], TaskCodes(n))
    ensures var rows := AllRows(frozen, codes, sessions); var s := SummaryOf(rows, code, task);
            && s.given == s.correct + s.incorrect + s.gaveUp + s.skipped + s.unfinished + s.unreached
            && s.shown == s.given - s.unreached && s.direct <= s.correct
            && CountsRows(s, rows, code, task)
            && SameCounts(SummaryOf(rows, code, ""), SumOfTasks(rows, code, TaskCodes(n)))
  {
    RowsStand(frozen, codes, sessions);
    NothingIsMiscounted(AllRows(frozen, codes, sessions), code, task);
    CodesAreDistinct(n);
    RowCodes(frozen, codes, sessions, TaskCodes(n));
    SummaryCountsRows(AllRows(frozen, codes, sessions), code, task);
    ArmSummaryAddsUp(AllRows(frozen, codes, sessions), code, TaskCodes(n));
  }
}
