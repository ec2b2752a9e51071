/** The participant's handlers as the server runs them: transactions that change stored
    rows step by step, and are rolled back when any step refuses. */
module SessionStore {
  import opened Common
  import opened Trees
  import opened Events
  import opened Append
  import opened EventStore
  import opened Metrics
  import opened Navigation
  import opened Sessions

  class StoredSession {
    const id: Id
    const identity: Id
    const variant: Id
    const panel: nat
    const tasks: seq<Id>
    const publicTasks: map<Id, Id>
    const nodes: map<Id, Id>
    const storageBytes: nat
    var index: nat
    var eventBytes: nat
    var completedAt: Option<int>
    var attempts: seq<Attempt>
    var receipts: seq<Receipt>

    constructor (s: Session)
      ensures State() == s
    {
      id, identity, variant, panel, tasks, publicTasks, nodes, storageBytes :=
          s.id, s.identity, s.variant, s.panel, s.tasks, s.publicTasks, s.nodes, s.storageBytes;
      index, eventBytes, completedAt, attempts, receipts :=
          s.index, s.eventBytes, s.completedAt, s.attempts, s.receipts;
    }

    function State(): Session
      reads this
    {
      Session(id, identity, variant, panel, tasks, publicTasks, nodes, index, storageBytes, eventBytes, completedAt,
              attempts, receipts)
    }

    /** The run's two counters have moved by exactly what was added. */
    static ghost predicate RunFollows(dataBytes: nat, runEventBytes: nat, run: RunRow, added: int)
      reads run
    {
      run.dataBytes - dataBytes == run.eventBytes - runEventBytes == added
    }

    /** The stored receipt of a command, if it is still valid; an expired one is deleted. */
    method ReadReceipt(commandId: Id, request: Request, now: int) returns (r: Result<Option<Receipt>>)
      modifies this`receipts
      ensures match FindReceipt(old(State()), commandId, request, now)
              case Err(p) => r == Err(p) && State() == old(State())
              case Ok(Known(receipt)) => r == Ok(Some(receipt)) && State() == old(State())
              case Ok(Fresh(s)) => r == Ok(None) && State() == s
    {
      var k := ReceiptOf(receipts, commandId);
      if k == |receipts| { return Ok(None); }
      if receipts[k].request != request { return Err(CommandReused); }
      if receipts[k].expiresAt <= now {
        receipts := WithoutRow(receipts, k);
        return Ok(None);
      }
      return Ok(Some(receipts[k]));
    }

    method WriteReceipt(receipt: Receipt, now: int) returns (problem: Option<Problem>)
      modifies this`receipts
      ensures match SaveReceipt(old(State()), receipt, now)
              case Err(p) => problem == Some(p)
              case Ok(s) => problem == None && State() == s
    {
      receipts := Unexpired(receipts, now);
      if |receipts| >= MAX_COMMAND_RECEIPTS { return Some(TooManyReceipts); }
      receipts := receipts + [receipt];
      return None;
    }

    /** A refused transaction leaves no trace. */
    method Rollback(s: Session)
      requires State() ==
               s.(index := index, eventBytes := eventBytes, completedAt := completedAt,
                  attempts := attempts, receipts := receipts)
      modifies this
      ensures State() == s
    {
      index, eventBytes, completedAt, attempts, receipts :=
          s.index, s.eventBytes, s.completedAt, s.attempts, s.receipts;
    }

    method Start(frozen: Frozen, commandId: Id, taskId: Id, now: int, attemptId: Id) returns (r: Result<PublicSession>)
      modifies this
      ensures match StartTask(frozen, old(State()), commandId, taskId, now, attemptId)
              case Err(p) => r == Err(p) && State() == old(State())
              case Ok(done) => r == Ok(done.1) && State() == done.0
    {
      var before := State();
      if !ValidCommandId(commandId) { return Err(InvalidCommandId); }
      if taskId == "" { return Err(TaskRequired); }
      var found := ReadReceipt(commandId, StartRequest(taskId), now);
      if found.Err? { return Err(found.problem); }
      if found.value.Some? {
        r := Rebuild(frozen, State(), found.value.value);
        return;
      }
      var problem: Option<Problem> := None;
      if index >= |tasks| {
        problem := Some(SessionComplete);
      } else if taskId != Opaque(publicTasks, tasks[index]) {
        problem := Some(TaskChanged);
      } else if RowAt(attempts, index) < |attempts| {
        problem := Some(TaskAlreadyStarted);
      } else {
        attempts := attempts + [Attempt(attemptId, index, tasks[index], now, [], 1, 0, None)];
        r := Ok(MakeSession(frozen, State()));
        problem :=
            WriteReceipt(Receipt(commandId, StartRequest(taskId), index, Some(attemptId), now + RECEIPT_LIFETIME), now);
      }
      if problem.Some? {
        Rollback(before);
        r := Err(problem.value);
      }
    }

    /** appendEvents on the rows of one attempt. */
    method Append(frozen: Frozen, run: RunRow, k: nat, events: seq<Event>, choice: Option<Choice>)
                  returns (problem: Option<Problem>)
      requires k < |attempts| && Labelled(Menu(frozen, State()), nodes)
      modifies this, run
      ensures match AppendTo(frozen, old(State()), old(run.dataBytes), k, events, choice)
              case Err(p) => problem == Some(p) && State() == old(State())
              case Ok(s) => problem == None && State() == s
      ensures RunFollows(old(run.dataBytes), old(run.eventBytes), run, eventBytes - old(eventBytes))
    {
      var a := attempts[k];
      var row := new AttemptRow(a.taskIndex);
      row.log, row.nextSeq, row.eventBytes, row.finished := a.log, a.nextSeq, a.bytes, a.finished.Some?;
      var session := new SessionRow(storageBytes, index, eventBytes);
      assert LedgerOf(run, session, row) == AttemptLedger(State(), k, run.dataBytes);
      var r := AppendEvents(run, session, row, Menu(frozen, State()), nodes, frozen.size, events, choice);
      if r.Err? { return Some(r.problem); }
      attempts := attempts[k := a.(log := row.log, nextSeq := row.nextSeq, bytes := row.eventBytes)];
      eventBytes := session.eventBytes;
      return None;
    }

    method Send(frozen: Frozen, run: RunRow, attemptId: Id, events: seq<Event>) returns (r: Result<nat>)
      requires Labelled(Menu(frozen, State()), nodes)
      modifies this, run
      ensures match SendEvents(frozen, old(State()), old(run.dataBytes), attemptId, events)
              case Err(p) => r == Err(p) && State() == old(State())
              case Ok(done) => r == Ok(done.1) && State() == done.0
      ensures RunFollows(old(run.dataBytes), old(run.eventBytes), run, eventBytes - old(eventBytes))
    {
      var k := RowOf(attempts, attemptId);
      if k == |attempts| { return Err(AttemptNotFound); }
      var problem := Append(frozen, run, k, events, None);
      if problem.Some? { return Err(problem.value); }
      return Ok(attempts[k].nextSeq);
    }

    /** What finish computes for the attempt once its events are in. */
    method ScoreAttempt(frozen: Frozen, k: nat, outcome: Outcome, nodeId: Id, now: int) returns (f: Finished)
      requires k < |attempts| && Labelled(Menu(frozen, State()), nodes)
      ensures f == Score(frozen, State(), attempts[k], outcome, nodeId, now)
    {
      var tree, a := Menu(frozen, State()), attempts[k];
      var places := EnvOf(frozen, State()).places;
      IndexesAreSound(tree, nodes);
      var metrics := EventMetrics(a.log, IndexNodes(tree, nodes, ""), places, nodeId, outcome, true);
      var correct := outcome.Selected?
          && Accepted(FindTask(frozen, a.taskId), variant, ContentOf(frozen, State(), nodeId));
      return Finished(now, outcome, nodeId, correct, metrics, correct && metrics.direct);
    }

    method CheckSelection(frozen: Frozen, log: seq<Event>, outcome: Outcome, nodeId: Id)
                          returns (problem: Option<Problem>)
      ensures problem == SelectionProblem(frozen, State(), log, outcome, nodeId)
    {
      if !outcome.Selected? { return None; }
      if ContentOf(frozen, State(), nodeId) == "" { return Some(SelectANode); }
      var last := FindSelection(log);
      if last != nodeId { return Some(SelectEventRequired); }
      return None;
    }

    method CloseTask(frozen: Frozen, k: nat, outcome: Outcome, nodeId: Id, now: int)
      requires k < |attempts| && Labelled(Menu(frozen, State()), nodes)
      modifies this
      ensures State() == Closed(frozen, old(State()), k, outcome, nodeId, now)
    {
      var score := ScoreAttempt(frozen, k, outcome, nodeId, now);
      attempts := attempts[k := attempts[k].(finished := Some(score))];
      index := index + 1;
      completedAt := if index == |tasks| then Some(now) else None;
    }

    /** The part of finish after the receipt: append, score, close, and record. */
    method FinishAttempt(frozen: Frozen, run: RunRow, commandId: Id, request: Request, now: int)
                         returns (r: Result<PublicSession>)
      requires request.FinishRequest? && Labelled(Menu(frozen, State()), nodes)
      modifies this, run
      ensures match FinishNew(frozen, old(State()), old(run.dataBytes), commandId, request, now)
              case Err(p) => r == Err(p)
              case Ok(done) => r == Ok(done.1) && State() == done.0
      ensures RunFollows(old(run.dataBytes), old(run.eventBytes), run, eventBytes - old(eventBytes))
    {
      var k := RowOf(attempts, request.attemptId);
      if k == |attempts| { return Err(AttemptNotFound); }
      if attempts[k].finished.Some? || attempts[k].taskIndex != index { return Err(AttemptFinished); }
      var refused := Append(frozen, run, k, request.events, Some(Choice(request.outcome, request.nodeId)));
      if refused.Some? { return Err(refused.value); }
      var wrong := CheckSelection(frozen, attempts[k].log, request.outcome, request.nodeId);
      if wrong.Some? { return Err(wrong.value); }
      CloseTask(frozen, k, request.outcome, request.nodeId, now);
      r := Ok(MakeSession(frozen, State()));
      var full := WriteReceipt(Receipt(commandId, request, index, None, now + RECEIPT_LIFETIME), now);
      if full.Some? { r := Err(full.value); }
    }

    method Finish(frozen: Frozen, run: RunRow, commandId: Id, request: Request, now: int)
                  returns (r: Result<PublicSession>)
      requires request.FinishRequest? && Labelled(Menu(frozen, State()), nodes)
      modifies this, run
      ensures match FinishTask(frozen, old(State()), old(run.dataBytes), commandId, request, now)
              case Err(p) => r == Err(p) && State() == old(State())
              case Ok(done) => r == Ok(done.1) && State() == done.0
      ensures RunFollows(old(run.dataBytes), old(run.eventBytes), run, eventBytes - old(eventBytes))
    {
      var before, dataBytes, runEventBytes := State(), run.dataBytes, run.eventBytes;
      if !ValidCommandId(commandId) { return Err(InvalidCommandId); }
      if !request.outcome.Selected? && !request.outcome.GaveUp?
          && !request.outcome.Skipped? { return Err(InvalidOutcome); }
      if !request.outcome.Selected? && request.nodeId != "" { return Err(NodeWithoutSelection); }
      var found := ReadReceipt(commandId, request, now);
      if found.Err? { return Err(found.problem); }
      if found.value.Some? {
        r := Rebuild(frozen, State(), found.value.value);
        return;
      }
      r := FinishAttempt(frozen, run, commandId, request, now);
      if r.Err? {
        Rollback(before);
        run.dataBytes, run.eventBytes := dataBytes, runEventBytes;
      }
    }
  }
}
