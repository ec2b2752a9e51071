/** One participant's session: start, events and finish as atomic requests, with
    command receipts from which a lost response can be rebuilt. */
module Sessions {
  import opened Common
  import opened Trees
  import opened Events
  import opened Append
  import opened EventStore
  import opened Metrics
  import opened Navigation

  const MAX_COMMAND_RECEIPTS: nat := 64
  /** Twenty-four hours, in milliseconds. */
  const RECEIPT_LIFETIME: int := 24 * 60 * 60 * 1000
  const MAX_TASKS_PER_SESSION: nat := 30

  datatype Task = Task(id: Id, prompt: string, difficulty: string, answers: map<Id, seq<string>>)

  /** The frozen publication a session runs on; `size` is the length of an event's
      canonical encoding. */
  datatype Frozen = Frozen(title: string, tasks: seq<Task>, trees: map<Id, seq<Node>>, size: Event -> nat)

  datatype PublicTask = PublicTask(id: Id, prompt: string)

  datatype PublicAttempt = PublicAttempt(id: Id, nextSeq: nat, events: seq<Event>, startedAt: int)

  datatype PublicSession = PublicSession(id: Id, title: string, completed: bool, taskIndex: nat, totalTasks: nat,
                                         task: Option<PublicTask>, tree: seq<PublicNode>,
                                             attempt: Option<PublicAttempt>)

  datatype Finished = Finished(at: int, outcome: Outcome, selected: Id, correct: bool, metrics: AttemptMetrics,
                               direct: bool)

  datatype Attempt = Attempt(id: Id, taskIndex: nat, taskId: Id, startedAt: int, log: seq<Event>, nextSeq: nat,
                             bytes: nat, finished: Option<Finished>)

  /** A command's request stands for its digest; the constructor is its operation. */
  datatype Request =
    | StartRequest(taskId: Id)
    | FinishRequest(attemptId: Id, outcome: Outcome, nodeId: Id, events: seq<Event>)

  datatype Receipt = Receipt(commandId: Id, request: Request, responseIndex: nat, attemptId: Option<Id>, expiresAt: int)

  datatype Session = Session(id: Id, identity: Id, variant: Id, panel: nat, tasks: seq<Id>, publicTasks: map<Id, Id>,
                             nodes: map<Id, Id>,
                             index: nat, storageBytes: nat, eventBytes: nat, completedAt: Option<int>,
                             attempts: seq<Attempt>, receipts: seq<Receipt>)

  // -------------------------------------------------------------- reading rows

  function FindTask(frozen: Frozen, id: Id): Task
  {
    FirstTask(frozen.tasks, id)
  }

  function FirstTask(tasks: seq<Task>, id: Id): Task
  {
    if tasks == [] then Task("", "", "", map[]) else if tasks[0].id == id then tasks[0] else FirstTask(tasks[1..], id)
  }

  function Menu(frozen: Frozen, s: Session): seq<Node>
  {
    if s.variant in frozen.trees then frozen.trees[s.variant] else []
  }

  function EnvOf(frozen: Frozen, s: Session): Env
  {
    SessionEnv(Menu(frozen, s), s.nodes, frozen.size)
  }

  /** Row of an attempt by its ID; the number of rows when there is none. */
  function RowOf(attempts: seq<Attempt>, id: Id): (k: nat)
    ensures k <= |attempts|
    ensures k < |attempts| ==> attempts[k].id == id
    ensures k == |attempts| ==> forall i :: 0 <= i < |attempts| ==> attempts[i].id != id
  {
    if attempts == [] then 0 else if attempts[0].id == id then 0 else 1 + RowOf(attempts[1..], id)
  }

  /** Row of the attempt at a task index. */
  function RowAt(attempts: seq<Attempt>, index: nat): (k: nat)
    ensures k <= |attempts|
    ensures k < |attempts| ==> attempts[k].taskIndex == index
    ensures k == |attempts| ==> forall i :: 0 <= i < |attempts| ==> attempts[i].taskIndex != index
  {
    if attempts == [] then 0 else if attempts[0].taskIndex == index then 0 else 1 + RowAt(attempts[1..], index)
  }

  function ReceiptOf(receipts: seq<Receipt>, commandId: Id): (k: nat)
    ensures k <= |receipts|
    ensures k < |receipts| ==> receipts[k].commandId == commandId
    ensures k == |receipts| ==> forall i :: 0 <= i < |receipts| ==> receipts[i].commandId != commandId
  {
    if receipts == [] then 0 else if receipts[0].commandId == commandId then 0
        else 1 + ReceiptOf(receipts[1..], commandId)
  }

  function PublicTaskAt(frozen: Frozen, s: Session, index: nat): Option<PublicTask>
  {
    if index >= |s.tasks| then None
    else
      var task := FindTask(frozen, s.tasks[index]);
      Some(PublicTask(Opaque(s.publicTasks, task.id), task.prompt))
  }

  function View(frozen: Frozen, s: Session, index: nat, attempt: Option<PublicAttempt>): PublicSession
  {
    PublicSession(s.id, frozen.title, index >= |s.tasks|, index, |s.tasks|, PublicTaskAt(frozen, s, index),
      if index >= |s.tasks| then [] else NodesFor(Menu(frozen, s), s.nodes), attempt)
  }

  /** The session as the participant sees it now. */
  function MakeSession(frozen: Frozen, s: Session): PublicSession
  {
    var k := RowAt(s.attempts, s.index);
    View(frozen, s, s.index,
      if s.index >= |s.tasks| || k == |s.attempts| then None
      else Some(PublicAttempt(s.attempts[k].id, s.attempts[k].nextSeq, s.attempts[k].log, s.attempts[k].startedAt)))
  }

  // ------------------------------------------------------------------ receipts

  function Unexpired(receipts: seq<Receipt>, now: int): seq<Receipt>
  {
    if receipts == [] then []
    else (if receipts[0].expiresAt > now then [receipts[0]] else []) + Unexpired(receipts[1..], now)
  }

  function WithoutRow(receipts: seq<Receipt>, k: nat): seq<Receipt>
    requires k < |receipts|
  {
    receipts[..k] + receipts[k + 1..]
  }

  datatype Lookup = Known(receipt: Receipt) | Fresh(session: Session)

  /** A receipt with another request is a conflict; an expired one is deleted. */
  function FindReceipt(s: Session, commandId: Id, request: Request, now: int): Result<Lookup>
  {
    var k := ReceiptOf(s.receipts, commandId);
    if k == |s.receipts| then Ok(Fresh(s))
    else if s.receipts[k].request != request then Err(CommandReused)
    else if s.receipts[k].expiresAt <= now then Ok(Fresh(s.(receipts := WithoutRow(s.receipts, k))))
    else Ok(Known(s.receipts[k]))
  }

  function SaveReceipt(s: Session, receipt: Receipt, now: int): Result<Session>
  {
    var live := Unexpired(s.receipts, now);
    if |live| >= MAX_COMMAND_RECEIPTS then Err(TooManyReceipts)
    else Ok(s.(receipts := live + [receipt]))
  }

  /** The response a receipt stands for, from what is stored now. */
  function Rebuild(frozen: Frozen, s: Session, receipt: Receipt): Result<PublicSession>
  {
    if receipt.responseIndex > |s.tasks| then Err(ReceiptNotRebuildable)
    else if receipt.attemptId.None? then Ok(View(frozen, s, receipt.responseIndex, None))
    else
      var k := RowOf(s.attempts, receipt.attemptId.value);
      if k == |s.attempts| then Err(ReceiptNotRebuildable)
      else Ok(View(frozen, s, receipt.responseIndex,
                   Some(PublicAttempt(receipt.attemptId.value, 1, [], s.attempts[k].startedAt))))
  }

  // ------------------------------------------------------------------ requests

  predicate ValidCommandId(id: Id)
  {
    Trimmed(id) && 1 <= |id| <= 128
  }

  /** A command that was carried out: its receipt is stored, the new view is the response. */
  function Conclude(frozen: Frozen, s: Session, receipt: Receipt, now: int): Result<(Session, PublicSession)>
  {
    var saved := SaveReceipt(s, receipt, now);
    if saved.Err? then Err(saved.problem) else Ok((saved.value, MakeSession(frozen, s)))
  }

  function StartTask(frozen: Frozen, s: Session, commandId: Id, taskId: Id, now: int, attemptId: Id): Result<(Session,
                     PublicSession)>
  {
    if !ValidCommandId(commandId) then Err(InvalidCommandId)
    else if taskId == "" then Err(TaskRequired)
    else
      var found := FindReceipt(s, commandId, StartRequest(taskId), now);
      if found.Err? then Err(found.problem)
      else match found.value
        case Known(receipt) =>
          var rebuilt := Rebuild(frozen, s, receipt);
          if rebuilt.Err? then Err(rebuilt.problem) else Ok((s, rebuilt.value))
        case Fresh(s1) =>
          if s1.index >= |s1.tasks| then Err(SessionComplete)
          else if taskId != Opaque(s1.publicTasks, s1.tasks[s1.index]) then Err(TaskChanged)
          else if RowAt(s1.attempts, s1.index) < |s1.attempts| then Err(TaskAlreadyStarted)
          else
            var s2 :=
                s1.(attempts := s1.attempts + [Attempt(attemptId, s1.index, s1.tasks[s1.index], now, [], 1, 0, None)]);
            Conclude(frozen, s2, Receipt(commandId, StartRequest(taskId), s2.index, Some(attemptId),
                                         now + RECEIPT_LIFETIME), now)
  }

  function AttemptLedger(s: Session, k: nat, runBytes: nat): Ledger
    requires k < |s.attempts|
  {
    var a := s.attempts[k];
    Ledger(a.log, a.bytes, s.storageBytes + s.eventBytes, runBytes, a.finished.None? && a.taskIndex == s.index)
  }

  /** The rows after an append: the log, its next number, and the bytes it added. */
  function Appended(s: Session, k: nat, l: Ledger): Session
    requires k < |s.attempts| && l.attemptBytes >= s.attempts[k].bytes
  {
    var a := s.attempts[k];
    s.(attempts := s.attempts[k := a.(log := l.log, nextSeq := |l.log| + 1, bytes := l.attemptBytes)],
       eventBytes := s.eventBytes + (l.attemptBytes - a.bytes))
  }

  function AppendTo(frozen: Frozen, s: Session, runBytes: nat, k: nat, events: seq<Event>,
                    choice: Option<Choice>): Result<Session>
    requires k < |s.attempts|
  {
    var r := AppendBatch(EnvOf(frozen, s), AttemptLedger(s, k, runBytes), events, choice);
    if r.Err? then Err(r.problem) else Ok(Appended(s, k, r.value))
  }

  /** The events request: the new session row and the acknowledged next number. */
  function SendEvents(frozen: Frozen, s: Session, runBytes: nat, attemptId: Id, events: seq<Event>): Result<(Session,
                      nat)>
  {
    var k := RowOf(s.attempts, attemptId);
    if k == |s.attempts| then Err(AttemptNotFound)
    else
      var r := AppendTo(frozen, s, runBytes, k, events, None);
      if r.Err? then Err(r.problem) else Ok((r.value, r.value.attempts[k].nextSeq))
  }

  predicate Accepted(task: Task, variant: Id, content: string)
  {
    variant in task.answers && content in task.answers[variant]
  }

  function ContentOf(frozen: Frozen, s: Session, node: Id): string
  {
    var index := IndexNodes(Menu(frozen, s), s.nodes, "");
    if node in index then index[node].node.contentId else ""
  }

  /** What finish checks once the events are in: a selected page must be the live selection. */
  function SelectionProblem(frozen: Frozen, s: Session, log: seq<Event>, outcome: Outcome, nodeId: Id): Option<Problem>
  {
    if !outcome.Selected? then None
    else if ContentOf(frozen, s, nodeId) == "" then Some(SelectANode)
    else if LiveSelection(log) != nodeId then Some(SelectEventRequired)
    else None
  }

  /** Scoring: membership in the accepted answers, and directness only if correct. */
  function Score(frozen: Frozen, s: Session, a: Attempt, outcome: Outcome, nodeId: Id, now: int): Finished
  {
    var correct := outcome.Selected? && Accepted(FindTask(frozen, a.taskId), s.variant, ContentOf(frozen, s, nodeId));
    var metrics := Measure(EnvOf(frozen, s).places, a.log, nodeId, outcome, true);
    Finished(now, outcome, nodeId, correct, metrics, correct && metrics.direct)
  }

  /** The task is closed and the session moves to the next one. */
  function Closed(frozen: Frozen, s: Session, k: nat, outcome: Outcome, nodeId: Id, now: int): Session
    requires k < |s.attempts|
  {
    var score := Score(frozen, s, s.attempts[k], outcome, nodeId, now);
    s.(attempts := s.attempts[k := s.attempts[k].(finished := Some(score))],
       index := s.index + 1,
       completedAt := if s.index + 1 == |s.tasks| then Some(now) else None)
  }

  function FinishTask(frozen: Frozen, s: Session, runBytes: nat, commandId: Id, request: Request,
                      now: int): Result<(Session, PublicSession)>
    requires request.FinishRequest?
  {
    if !ValidCommandId(commandId) then Err(InvalidCommandId)
    else if !request.outcome.Selected? && !request.outcome.GaveUp? && !request.outcome.Skipped? then Err(InvalidOutcome)
    else if !request.outcome.Selected? && request.nodeId != "" then Err(NodeWithoutSelection)
    else
      var found := FindReceipt(s, commandId, request, now);
      if found.Err? then Err(found.problem)
      else match found.value
        case Known(receipt) =>
          var rebuilt := Rebuild(frozen, s, receipt);
          if rebuilt.Err? then Err(rebuilt.problem) else Ok((s, rebuilt.value))
        case Fresh(s1) => FinishNew(frozen, s1, runBytes, commandId, request, now)
  }

  function FinishNew(frozen: Frozen, s: Session, runBytes: nat, commandId: Id, request: Request,
                     now: int): Result<(Session, PublicSession)>
    requires request.FinishRequest?
  {
    var k := RowOf(s.attempts, request.attemptId);
    if k == |s.attempts| then Err(AttemptNotFound)
    else if s.attempts[k].finished.Some? || s.attempts[k].taskIndex != s.index then Err(AttemptFinished)
    else
      var r := AppendTo(frozen, s, runBytes, k, request.events, Some(Choice(request.outcome, request.nodeId)));
      if r.Err? then Err(r.problem)
      else
        var s1 := r.value;
        var problem := SelectionProblem(frozen, s1, s1.attempts[k].log, request.outcome, request.nodeId);
        if problem.Some? then Err(problem.value)
        else
          var s2 := Closed(frozen, s1, k, request.outcome, request.nodeId, now);
          Conclude(frozen, s2, Receipt(commandId, request, s2.index, None, now + RECEIPT_LIFETIME), now)
  }
}
