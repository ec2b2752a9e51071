/** Runs of a session: what every request keeps, that start and finish take effect
    once per task and in order, and that a retry gets the original answer. */
module SessionRuns {
  import opened Common
  import opened Trees
  import opened Events
  import opened Append
  import opened EventStore
  import opened Metrics
  import opened Sessions

  datatype Step =
    | Start(commandId: Id, taskId: Id, now: int, attemptId: Id)
    | Send(attemptId: Id, events: seq<Event>, runBytes: nat)
    | Finish(commandId: Id, attemptId: Id, outcome: Outcome, nodeId: Id, events: seq<Event>, now: int, runBytes: nat)

  datatype Answer = Refused(problem: Problem) | Shown(view: PublicSession) | Acknowledged(nextSeq: nat)

  function RequestOf(step: Step): Request
    requires step.Finish?
  {
    FinishRequest(step.attemptId, step.outcome, step.nodeId, step.events)
  }

  /** Requests are serialized transactions: applied whole or not at all. */
  function Apply(frozen: Frozen, s: Session, step: Step): (Session, Answer)
  {
    match step
    case Start(commandId, taskId, now, attemptId) =>
      (var r := StartTask(frozen, s, commandId, taskId, now, attemptId);
       if r.Err? then (s, Refused(r.problem)) else (r.value.0, Shown(r.value.1)))
    case Send(attemptId, events, runBytes) =>
      (var r := SendEvents(frozen, s, runBytes, attemptId, events);
       if r.Err? then (s, Refused(r.problem)) else (r.value.0, Acknowledged(r.value.1)))
    case Finish(commandId, _, _, _, _, now, runBytes) =>
      (var r := FinishTask(frozen, s, runBytes, commandId, RequestOf(step), now);
       if r.Err? then (s, Refused(r.problem)) else (r.value.0, Shown(r.value.1)))
  }

  /** Attempt IDs are drawn fresh, and the run's bytes are within their limit. */
  ghost predicate Enabled(s: Session, step: Step)
  {
    match step
    case Start(_, _, _, attemptId) => attemptId != "" && RowOf(s.attempts, attemptId) == |s.attempts|
    case Send(_, _, runBytes) => runBytes <= MAX_RUN_BYTES
    case Finish(_, _, _, _, _, _, runBytes) => runBytes <= MAX_RUN_BYTES
  }

  // --------------------------------------------------------------- invariants

  /** Fixed at enrolment. */
  ghost predicate Enrolled(frozen: Frozen, s: Session)
  {
    && 0 < |s.tasks| <= MAX_TASKS_PER_SESSION
    && Labelled(Menu(frozen, s), s.nodes)
  }

  /** Attempts exist exactly for the tasks passed, all finished, and perhaps for the
      current one, unfinished; the session is complete when no task is left. */
  ghost predicate Progress(s: Session)
  {
    && s.index <= |s.attempts| <= s.index + 1
    && |s.attempts| <= |s.tasks|
    && (forall i {:trigger RowOk(s, i)} :: 0 <= i < |s.attempts| ==> RowOk(s, i))
    && (forall i, j :: 0 <= i < j < |s.attempts| ==> s.attempts[i].id != s.attempts[j].id)
    && (s.completedAt.Some? <==> s.index == |s.tasks|)
  }

  ghost predicate RowOk(s: Session, i: nat)
    requires i < |s.attempts|
  {
    var a := s.attempts[i];
    && a.taskIndex == i && i < |s.tasks| && a.taskId == s.tasks[i] && a.nextSeq == |a.log| + 1 && a.id != ""
    && (a.finished.Some? <==> i < s.index)
    && (a.finished.Some? ==> a.log != [] && Last(a.log).kind.Submit? && ProperFinish(a.finished.value))
    && (a.finished.None? ==> forall j :: 0 <= j < |a.log| ==> !a.log[j].kind.Submit?)
  }

  /** An outcome of the study, and a direct success only on a correct selection. */
  ghost predicate ProperFinish(f: Finished)
  {
    && (f.outcome.Selected? || f.outcome.GaveUp? || f.outcome.Skipped?)
    && (f.correct ==> f.outcome.Selected?)
    && (f.direct ==> f.correct)
  }

  function SumBytes(attempts: seq<Attempt>): nat
  {
    if attempts == [] then 0 else SumBytes(attempts[..|attempts| - 1]) + Last(attempts).bytes
  }

  /** Every log is committed and every byte is accounted for. */
  ghost predicate Ledgers(frozen: Frozen, s: Session)
  {
    && (forall i {:trigger LedgerOk(frozen, s, i)} :: 0 <= i < |s.attempts| ==> LedgerOk(frozen, s, i))
    && s.eventBytes == SumBytes(s.attempts)
    && s.storageBytes + s.eventBytes <= MAX_SESSION_BYTES
  }

  ghost predicate LedgerOk(frozen: Frozen, s: Session, i: nat)
    requires i < |s.attempts|
  {
    var a := s.attempts[i];
    Committed(EnvOf(frozen, s), Ledger(a.log, a.bytes, 0, 0, true))
  }

  ghost predicate Receipts(s: Session)
  {
    && |s.receipts| <= |s.attempts| + s.index
    && (forall i {:trigger ReceiptOk(s, s.receipts[i])} :: 0 <= i < |s.receipts| ==> ReceiptOk(s, s.receipts[i]))
    && (forall i, j :: 0 <= i < j < |s.receipts| ==> s.receipts[i].commandId != s.receipts[j].commandId)
  }

  /** A receipt names the task it started or the task its finish closed. */
  ghost predicate ReceiptOk(s: Session, r: Receipt)
  {
    match r.request
    case StartRequest(taskId) =>
      && r.responseIndex < |s.attempts| && r.responseIndex < |s.tasks|
      && r.attemptId == Some(s.attempts[r.responseIndex].id)
      && taskId == Opaque(s.publicTasks, s.tasks[r.responseIndex])
    case FinishRequest(attemptId, _, _, _) =>
      && 0 < r.responseIndex <= s.index && r.responseIndex <= |s.attempts|
      && r.attemptId == None
      && s.attempts[r.responseIndex - 1].id == attemptId
  }

  ghost predicate Invariant(frozen: Frozen, s: Session)
  {
    Enrolled(frozen, s) && Progress(s) && Ledgers(frozen, s) && Receipts(s)
  }

  // ---------------------------------------------------------- receipts are few

  lemma {:induction false} UnexpiredIsPart(receipts: seq<Receipt>, now: int)
    ensures |Unexpired(receipts, now)| <= |receipts|
    ensures forall r :: r in Unexpired(receipts, now) <==> r in receipts && r.expiresAt > now
    ensures (forall i, j :: 0 <= i < j < |receipts| ==> receipts[i].commandId != receipts[j].commandId) ==>
              forall i, j :: 0 <= i < j < |Unexpired(receipts, now)| ==>
                  Unexpired(receipts, now)[i].commandId != Unexpired(receipts, now)[j].commandId
  {
    if receipts != [] {
      UnexpiredIsPart(receipts[1..], now);
      assert forall r :: r in receipts <==> r == receipts[0] || r in receipts[1..];
      var rest := Unexpired(receipts[1..], now);
      forall i | 0 <= i < |rest| ensures rest[i] in receipts[1..] {}
    }
  }

  lemma {:induction false} WithoutRowIsPart(receipts: seq<Receipt>, k: nat)
    requires k < |receipts|
    ensures forall r :: r in WithoutRow(receipts, k) ==> r in receipts
    ensures forall r :: r in receipts && r != receipts[k] ==> r in WithoutRow(receipts, k)
    ensures (forall i, j :: 0 <= i < j < |receipts| ==> receipts[i].commandId != receipts[j].commandId) ==>
              && (forall i, j :: 0 <= i < j < |receipts| - 1 ==>
                  WithoutRow(receipts, k)[i].commandId != WithoutRow(receipts, k)[j].commandId)
              && (forall r :: r in WithoutRow(receipts, k) ==> r.commandId != receipts[k].commandId)
  {
    forall r | r in receipts && r != receipts[k] ensures r in WithoutRow(receipts, k) {
      var i :| 0 <= i < |receipts| && receipts[i] == r;
      assert r == WithoutRow(receipts, k)[if i < k then i else i - 1];
    }
  }

  // ------------------------------------------------------- what never goes back

  /** The session goes on: what was fixed stays, rows keep their identity and start,
      logs only grow, and a finished attempt is never touched again. */
  ghost predicate Continues(s: Session, t: Session)
  {
    && t.id == s.id && t.identity == s.identity && t.variant == s.variant && t.panel == s.panel
    && t.tasks == s.tasks && t.publicTasks == s.publicTasks && t.nodes == s.nodes && t.storageBytes == s.storageBytes
    && s.index <= t.index && |s.attempts| <= |t.attempts|
    && forall i {:trigger RowContinues(s.attempts[i], t.attempts[i])} :: 0 <= i < |s.attempts| ==>
         RowContinues(s.attempts[i], t.attempts[i])
  }

  ghost predicate RowContinues(a: Attempt, b: Attempt)
  {
    && b.id == a.id && b.taskIndex == a.taskIndex && b.taskId == a.taskId && b.startedAt == a.startedAt
    && a.log <= b.log
    && (a.finished.Some? ==> b == a)
  }

  lemma {:induction false} ContinuesOn(s: Session, t: Session, u: Session)
    requires Continues(s, t) && Continues(t, u)
    ensures Continues(s, u)
  {
    forall i | 0 <= i < |s.attempts| ensures RowContinues(s.attempts[i], u.attempts[i]) {
      assert RowContinues(s.attempts[i], t.attempts[i]) && RowContinues(t.attempts[i], u.attempts[i]);
    }
  }

  lemma {:induction false} ReceiptStays(s: Session, t: Session, r: Receipt)
    requires Continues(s, t) && ReceiptOk(s, r)
    ensures ReceiptOk(t, r)
  {
    match r.request
    case StartRequest(_) => assert RowContinues(s.attempts[r.responseIndex], t.attempts[r.responseIndex]);
    case FinishRequest(_, _, _, _) =>
        assert RowContinues(s.attempts[r.responseIndex - 1], t.attempts[r.responseIndex - 1]);
  }

  // ------------------------------------------------------------- each small step

  lemma {:induction false} SumReplace(attempts: seq<Attempt>, k: nat, a: Attempt)
    requires k < |attempts|
    ensures SumBytes(attempts[k := a]) == SumBytes(attempts) - attempts[k].bytes + a.bytes
    decreases |attempts|
  {
    var n := |attempts| - 1;
    if k == n {
      assert attempts[k := a][..n] == attempts[..n];
    } else {
      assert attempts[k := a][..n] == attempts[..n][k := a];
      SumReplace(attempts[..n], k, a);
    }
  }

  lemma {:induction false} SoundEnv(frozen: Frozen, s: Session)
    requires Enrolled(frozen, s)
    ensures Sound(EnvOf(frozen, s).places)
  {
    IndexesAreSound(Menu(frozen, s), s.nodes);
  }

  /** The stored attempt, seen with the bytes of its session and run. */
  lemma {:induction false} LedgerCommitted(frozen: Frozen, s: Session, runBytes: nat, k: nat)
    requires Ledgers(frozen, s) && k < |s.attempts| && runBytes <= MAX_RUN_BYTES
    ensures Committed(EnvOf(frozen, s), AttemptLedger(s, k, runBytes))
  {
    assert LedgerOk(frozen, s, k);
  }

  /** The rows t follow from s by an accepted batch on attempt k. */
  ghost predicate RowAppended(frozen: Frozen, s: Session, runBytes: nat, k: nat, choice: Option<Choice>, t: Session)
    requires k < |s.attempts|
  {
    && |t.attempts| == |s.attempts|
    && t == s.(attempts := s.attempts[k := t.attempts[k]], eventBytes := t.eventBytes)
    && t.attempts[k] ==
         s.attempts[k].(log := t.attempts[k].log, nextSeq := |t.attempts[k].log| + 1, bytes := t.attempts[k].bytes)
    && t.eventBytes - s.eventBytes == t.attempts[k].bytes - s.attempts[k].bytes >= 0
    && runBytes + t.eventBytes - s.eventBytes <= MAX_RUN_BYTES
    && Ledgers(frozen, t)
    && BatchEffect(AttemptLedger(s, k, runBytes), t.attempts[k].log, choice)
  }

  lemma {:induction false} AppendedEffect(frozen: Frozen, s: Session, runBytes: nat, k: nat, l: Ledger,
                                          choice: Option<Choice>)
    requires Ledgers(frozen, s) && k < |s.attempts| && l.attemptBytes >= s.attempts[k].bytes
    requires Committed(EnvOf(frozen, s), l)
    requires l.sessionBytes - l.attemptBytes == s.storageBytes + s.eventBytes - s.attempts[k].bytes
    requires l.runBytes - l.attemptBytes == runBytes - s.attempts[k].bytes
    requires BatchEffect(AttemptLedger(s, k, runBytes), l.log, choice)
    ensures RowAppended(frozen, s, runBytes, k, choice, Appended(s, k, l))
  {
    var t := Appended(s, k, l);
    SumReplace(s.attempts, k, t.attempts[k]);
    forall i | 0 <= i < |t.attempts| ensures LedgerOk(frozen, t, i) {
      assert i != k ==> LedgerOk(frozen, s, i);
    }
  }

  /** What an accepted batch does to the rows. */
  lemma {:induction false} AppendEffect(frozen: Frozen, s: Session, runBytes: nat, k: nat, events: seq<Event>,
                                        choice: Option<Choice>)
    requires Enrolled(frozen, s) && Ledgers(frozen, s) && k < |s.attempts| && runBytes <= MAX_RUN_BYTES
    requires AppendTo(frozen, s, runBytes, k, events, choice).Ok?
    ensures RowAppended(frozen, s, runBytes, k, choice, AppendTo(frozen, s, runBytes, k, events, choice).value)
  {
    SoundEnv(frozen, s);
    LedgerCommitted(frozen, s, runBytes, k);
    var env, l := EnvOf(frozen, s), AttemptLedger(s, k, runBytes);
    CommitKeeps(env, l, events, choice.Some?);
    BatchHasEffect(env, l, events, choice);
    AppendedEffect(frozen, s, runBytes, k, AppendBatch(env, l, events, choice).value, choice);
  }

  lemma {:induction false} SameLogSameBytes(frozen: Frozen, s: Session, runBytes: nat, k: nat, choice: Option<Choice>,
                                            t: Session)
    requires k < |s.attempts| && Ledgers(frozen, s) && RowAppended(frozen, s, runBytes, k, choice, t)
    requires t.attempts[k].log == s.attempts[k].log
    ensures t.attempts[k].bytes == s.attempts[k].bytes
  {
    assert LedgerOk(frozen, s, k) && LedgerOk(frozen, t, k);
  }

  lemma {:induction false} AppendContinues(frozen: Frozen, s: Session, runBytes: nat, k: nat, events: seq<Event>,
                                           choice: Option<Choice>)
    requires Enrolled(frozen, s) && Ledgers(frozen, s) && Progress(s) && k < |s.attempts| && runBytes <= MAX_RUN_BYTES
    requires AppendTo(frozen, s, runBytes, k, events, choice).Ok?
    ensures Continues(s, AppendTo(frozen, s, runBytes, k, events, choice).value)
  {
    AppendEffect(frozen, s, runBytes, k, events, choice);
    var t := AppendTo(frozen, s, runBytes, k, events, choice).value;
    assert RowOk(s, k);
    if t.attempts[k].log == s.attempts[k].log {
      SameLogSameBytes(frozen, s, runBytes, k, choice, t);
    }
    forall i | 0 <= i < |s.attempts| ensures RowContinues(s.attempts[i], t.attempts[i]) {}
  }

  /** Receipts that may be one short: the command under way is not yet recorded. */
  ghost predicate ReceiptsBelow(s: Session)
  {
    && |s.receipts| < |s.attempts| + s.index
    && (forall i {:trigger ReceiptOk(s, s.receipts[i])} :: 0 <= i < |s.receipts| ==> ReceiptOk(s, s.receipts[i]))
    && (forall i, j :: 0 <= i < j < |s.receipts| ==> s.receipts[i].commandId != s.receipts[j].commandId)
  }

  /** The receipt refusal cannot happen: there is always room for one more. */
  lemma {:induction false} SaveReceiptKeeps(s: Session, receipt: Receipt, now: int)
    requires ReceiptsBelow(s) && ReceiptOk(s, receipt) && |s.attempts| + s.index <= 2 * MAX_TASKS_PER_SESSION
    requires forall r :: r in s.receipts ==> r.commandId != receipt.commandId
    ensures SaveReceipt(s, receipt, now).Ok? && Receipts(SaveReceipt(s, receipt, now).value)
    ensures forall r :: r in s.receipts && r.expiresAt > now ==> r in SaveReceipt(s, receipt, now).value.receipts
    ensures receipt in SaveReceipt(s, receipt, now).value.receipts
    ensures forall x :: x in SaveReceipt(s, receipt, now).value.receipts ==>
              (x in s.receipts && x.expiresAt > now) || x == receipt
  {
    UnexpiredIsPart(s.receipts, now);
    var live := Unexpired(s.receipts, now);
    var t := SaveReceipt(s, receipt, now).value;
    forall i | 0 <= i < |t.receipts| ensures ReceiptOk(t, t.receipts[i]) {
      if i < |live| {
        assert live[i] in s.receipts;
        var j :| 0 <= j < |s.receipts| && s.receipts[j] == live[i];
        assert ReceiptOk(s, s.receipts[j]);
      }
    }
    forall i, j | 0 <= i < j < |t.receipts| ensures t.receipts[i].commandId != t.receipts[j].commandId {
      if j == |live| { assert live[i] in s.receipts; }
    }
    assert t.receipts[|live|] == receipt;
    forall r | r in live ensures r in t.receipts {
      var j :| 0 <= j < |live| && live[j] == r;
      assert t.receipts[j] == r;
    }
  }

  /** Looking a command up leaves everything but that command's expired receipt. */
  lemma {:induction false} FindReceiptKeeps(frozen: Frozen, s: Session, commandId: Id, request: Request, now: int)
    requires Invariant(frozen, s)
    requires FindReceipt(s, commandId, request, now).Ok? && FindReceipt(s, commandId, request, now).value.Fresh?
    ensures var t := FindReceipt(s, commandId, request, now).value.session;
            && t == s.(receipts := t.receipts) && Invariant(frozen, t) && Continues(s, t)
            && (forall r :: r in t.receipts ==> r.commandId != commandId && r in s.receipts)
            && (forall r :: r in s.receipts && r.expiresAt > now ==> r in t.receipts)
  {
    var k := ReceiptOf(s.receipts, commandId);
    var t := FindReceipt(s, commandId, request, now).value.session;
    if k < |s.receipts| {
      WithoutRowIsPart(s.receipts, k);
    }
    ReceiptsDrop(s, t);
    forall i | 0 <= i < |t.attempts| ensures RowOk(t, i) && LedgerOk(frozen, t, i) {
      assert RowOk(s, i) && LedgerOk(frozen, s, i);
    }
    forall i | 0 <= i < |s.attempts| ensures RowContinues(s.attempts[i], t.attempts[i]) {}
  }

  lemma {:induction false} ReceiptsDrop(s: Session, t: Session)
    requires Receipts(s) && t == s.(receipts := t.receipts) && |t.receipts| <= |s.receipts|
    requires forall r :: r in t.receipts ==> r in s.receipts
    requires forall i, j :: 0 <= i < j < |t.receipts| ==> t.receipts[i].commandId != t.receipts[j].commandId
    ensures Receipts(t)
  {
    forall i | 0 <= i < |t.receipts| ensures ReceiptOk(t, t.receipts[i]) {
      assert t.receipts[i] in s.receipts;
      var j :| 0 <= j < |s.receipts| && s.receipts[j] == t.receipts[i];
      assert ReceiptOk(s, s.receipts[j]);
    }
  }

  /** Receipts survive while the rows go on. */
  lemma {:induction false} ReceiptsContinue(s: Session, t: Session)
    requires Receipts(s) && Continues(s, t) && t.receipts == s.receipts
    requires |s.attempts| + s.index < |t.attempts| + t.index
    ensures ReceiptsBelow(t)
  {
    forall i | 0 <= i < |t.receipts| ensures ReceiptOk(t, t.receipts[i]) {
      assert ReceiptOk(s, s.receipts[i]);
      ReceiptStays(s, t, s.receipts[i]);
    }
  }

  /** A new attempt row for the current task. */
  function Opened(s: Session, attemptId: Id, now: int): Session
    requires s.index < |s.tasks|
  {
    s.(attempts := s.attempts + [Attempt(attemptId, s.index, s.tasks[s.index], now, [], 1, 0, None)])
  }

  lemma {:induction false} OpenKeeps(frozen: Frozen, s: Session, attemptId: Id, now: int)
    requires Enrolled(frozen, s) && Progress(s) && Ledgers(frozen, s) && s.index < |s.tasks|
    requires RowAt(s.attempts, s.index) == |s.attempts|
    requires attemptId != "" && RowOf(s.attempts, attemptId) == |s.attempts|
    ensures |s.attempts| == s.index
    ensures
      && Progress(Opened(s, attemptId, now))
      && Ledgers(frozen, Opened(s, attemptId, now))
      && Continues(s, Opened(s, attemptId, now))
  {
    var t := Opened(s, attemptId, now);
    assert |s.attempts| > s.index ==> RowOk(s, s.index);
    forall i | 0 <= i < |t.attempts| ensures RowOk(t, i) && LedgerOk(frozen, t, i) {
      if i < |s.attempts| {
        assert RowOk(s, i) && LedgerOk(frozen, s, i);
      }
    }
    forall i | 0 <= i < |s.attempts| ensures RowContinues(s.attempts[i], t.attempts[i]) {}
    assert t.attempts[..|s.attempts|] == s.attempts;
  }

  /** The whole of a finish on the current attempt, apart from the receipt. */
  lemma {:induction false} CloseKeeps(frozen: Frozen, s: Session, t: Session, k: nat, outcome: Outcome, nodeId: Id,
                                      now: int)
    requires
      && Progress(s)
      && Enrolled(frozen, s)
      && k < |s.attempts|
      && s.attempts[k].finished.None?
      && s.attempts[k].taskIndex == s.index
    requires Continues(s, t) && Ledgers(frozen, t)
    requires t == s.(attempts := s.attempts[k := t.attempts[k]], eventBytes := t.eventBytes)
    requires
      && |t.attempts| == |s.attempts|
      && t.attempts[k] ==
           s.attempts[k].(log := t.attempts[k].log, nextSeq := |t.attempts[k].log| + 1, bytes := t.attempts[k].bytes)
    requires t.attempts[k].log != [] && Last(t.attempts[k].log).kind.Submit?
    requires outcome.Selected? || outcome.GaveUp? || outcome.Skipped?
    ensures var u := Closed(frozen, t, k, outcome, nodeId, now);
            Progress(u) && Ledgers(frozen, u) && Continues(s, u) && k == s.index && |u.attempts| == u.index
  {
    var u := Closed(frozen, t, k, outcome, nodeId, now);
    assert RowOk(s, k);
    SumReplace(t.attempts, k, u.attempts[k]);
    forall i | 0 <= i < |u.attempts| ensures RowOk(u, i) && LedgerOk(frozen, u, i) {
      assert RowOk(s, i) && LedgerOk(frozen, t, i);
    }
    forall i | 0 <= i < |s.attempts| ensures RowContinues(s.attempts[i], u.attempts[i]) {
      assert RowContinues(s.attempts[i], t.attempts[i]);
    }
  }

  // --------------------------------------------------------------- every request

  /** A receipt is only ever removed once it has expired. */
  ghost predicate LiveReceiptsStay(s: Session, t: Session, now: int)
  {
    forall r :: r in s.receipts && r.expiresAt > now ==> r in t.receipts
  }

  lemma {:induction false} SavedKeepsRest(frozen: Frozen, s: Session, t: Session)
    requires Progress(s) && Ledgers(frozen, s) && t == s.(receipts := t.receipts)
    ensures Progress(t) && Ledgers(frozen, t) && Continues(s, t)
  {
    forall i | 0 <= i < |t.attempts| ensures RowOk(t, i) && LedgerOk(frozen, t, i) {
      assert RowOk(s, i) && LedgerOk(frozen, s, i);
    }
    forall i | 0 <= i < |s.attempts| ensures RowContinues(s.attempts[i], t.attempts[i]) {}
  }

  /** What is known once a command has been carried out and its receipt recorded. */
  ghost predicate Recorded(frozen: Frozen, s: Session, t: Session, now: int, r: Receipt)
  {
    && Invariant(frozen, t) && Continues(s, t) && LiveReceiptsStay(s, t, now)
    && r in t.receipts && r.expiresAt == now + RECEIPT_LIFETIME
    && (forall x :: x in t.receipts ==> (x in s.receipts && x.expiresAt > now) || x == r)
  }

  lemma {:induction false} RecordKeeps(frozen: Frozen, s: Session, u: Session, receipt: Receipt, now: int)
    requires Enrolled(frozen, s) && Receipts(s) && Continues(s, u) && u.receipts == s.receipts
    requires Progress(u) && Ledgers(frozen, u) && |s.attempts| + s.index < |u.attempts| + u.index
    requires ReceiptOk(u, receipt) && receipt.expiresAt == now + RECEIPT_LIFETIME
    requires forall r :: r in s.receipts ==> r.commandId != receipt.commandId
    ensures SaveReceipt(u, receipt, now).Ok? && Recorded(frozen, s, SaveReceipt(u, receipt, now).value, now, receipt)
  {
    ReceiptsContinue(s, u);
    SaveReceiptKeeps(u, receipt, now);
    var t := SaveReceipt(u, receipt, now).value;
    SavedKeepsRest(frozen, u, t);
    ContinuesOn(s, u, t);
  }

  function StartReceipt(s: Session, commandId: Id, taskId: Id, now: int, attemptId: Id): Receipt
  {
    Receipt(commandId, StartRequest(taskId), s.index, Some(attemptId), now + RECEIPT_LIFETIME)
  }

  /** A start that takes effect opens exactly the current task. */
  lemma {:induction false} NewStart(frozen: Frozen, s: Session, commandId: Id, taskId: Id, now: int, attemptId: Id)
    requires Invariant(frozen, s) && attemptId != "" && RowOf(s.attempts, attemptId) == |s.attempts|
    requires StartTask(frozen, s, commandId, taskId, now, attemptId).Ok?
    requires FindReceipt(s, commandId, StartRequest(taskId), now).value.Fresh?
    ensures var (t, view) := StartTask(frozen, s, commandId, taskId, now, attemptId).value;
            && Recorded(frozen, s, t, now, StartReceipt(s, commandId, taskId, now, attemptId))
            && |s.attempts| == s.index == t.index && t.attempts == Opened(s, attemptId, now).attempts
            && view == View(frozen, s, s.index, Some(PublicAttempt(attemptId, 1, [], now)))
  {
    FindReceiptKeeps(frozen, s, commandId, StartRequest(taskId), now);
    var s1 := FindReceipt(s, commandId, StartRequest(taskId), now).value.session;
    OpenKeeps(frozen, s1, attemptId, now);
    var u := Opened(s1, attemptId, now);
    assert u.attempts[s1.index].taskIndex == u.index;
    RowAtOpened(s1, attemptId, now);
    RecordKeeps(frozen, s1, u, StartReceipt(s, commandId, taskId, now, attemptId), now);
    var t := StartTask(frozen, s, commandId, taskId, now, attemptId).value.0;
    ContinuesOn(s, s1, t);
  }

  lemma {:induction false} RowAtOpened(s: Session, attemptId: Id, now: int)
    requires s.index < |s.tasks| && RowAt(s.attempts, s.index) == |s.attempts|
    ensures RowAt(Opened(s, attemptId, now).attempts, s.index) == |s.attempts|
  {
    var all := Opened(s, attemptId, now).attempts;
    assert all[|s.attempts|].taskIndex == s.index;
    assert forall i :: 0 <= i < |s.attempts| ==> all[i] == s.attempts[i];
  }

  function FinishReceipt(s: Session, step: Step): Receipt
    requires step.Finish?
  {
    Receipt(step.commandId, RequestOf(step), s.index + 1, None, step.now + RECEIPT_LIFETIME)
  }

  /** What a finish that takes effect leaves behind. */
  ghost predicate FinishDone(frozen: Frozen, s: Session, step: Step, t: Session)
    requires step.Finish?
  {
    && Recorded(frozen, s, t, step.now, FinishReceipt(s, step))
    && t.index == s.index + 1 == |s.attempts| == |t.attempts|
    && RowOf(s.attempts, step.attemptId) == s.index
    && t.eventBytes >= s.eventBytes && step.runBytes + t.eventBytes - s.eventBytes <= MAX_RUN_BYTES
  }

  /** The attempt is current, its events are accepted and the selection is live. */
  ghost predicate FinishGoesThrough(frozen: Frozen, s: Session, step: Step)
    requires step.Finish?
  {
    var k := RowOf(s.attempts, step.attemptId);
    && k < |s.attempts| && s.attempts[k].finished.None? && s.attempts[k].taskIndex == s.index
    && var r := AppendTo(frozen, s, step.runBytes, k, step.events, Some(Choice(step.outcome, step.nodeId)));
    r.Ok? && SelectionProblem(frozen, r.value, r.value.attempts[k].log, step.outcome, step.nodeId) == None
  }

  /** The rows after the append and the closing, before the receipt. */
  ghost function FinishRows(frozen: Frozen, s: Session, step: Step): Session
    requires step.Finish? && FinishGoesThrough(frozen, s, step)
  {
    var k := RowOf(s.attempts, step.attemptId);
    Closed(frozen, AppendTo(frozen, s, step.runBytes, k, step.events, Some(Choice(step.outcome, step.nodeId))).value,
           k, step.outcome, step.nodeId, step.now)
  }

  lemma {:induction false} FinishRowsKeep(frozen: Frozen, s: Session, step: Step)
    requires Invariant(frozen, s) && step.Finish? && step.runBytes <= MAX_RUN_BYTES
    requires step.outcome.Selected? || step.outcome.GaveUp? || step.outcome.Skipped?
    requires FinishGoesThrough(frozen, s, step)
    ensures var u := FinishRows(frozen, s, step);
            && Progress(u) && Ledgers(frozen, u) && Continues(s, u) && u.receipts == s.receipts
            && u.index == s.index + 1 == |s.attempts| == |u.attempts| && RowOf(s.attempts, step.attemptId) == s.index
            && u.attempts[s.index].id == step.attemptId
            && u.eventBytes >= s.eventBytes && step.runBytes + u.eventBytes - s.eventBytes <= MAX_RUN_BYTES
  {
    var k := RowOf(s.attempts, step.attemptId);
    var choice := Some(Choice(step.outcome, step.nodeId));
    var s2 := AppendTo(frozen, s, step.runBytes, k, step.events, choice).value;
    AppendEffect(frozen, s, step.runBytes, k, step.events, choice);
    AppendContinues(frozen, s, step.runBytes, k, step.events, choice);
    CloseKeeps(frozen, s, s2, k, step.outcome, step.nodeId, step.now);
    assert RowContinues(s.attempts[k], FinishRows(frozen, s, step).attempts[k]);
  }

  /** A finish that goes through is never turned away for want of receipt room. */
  lemma {:induction false} FinishNewKeeps(frozen: Frozen, s: Session, step: Step)
    requires Invariant(frozen, s) && step.Finish? && step.runBytes <= MAX_RUN_BYTES
    requires step.outcome.Selected? || step.outcome.GaveUp? || step.outcome.Skipped?
    requires forall r :: r in s.receipts ==> r.commandId != step.commandId
    requires FinishGoesThrough(frozen, s, step)
    ensures var r := FinishNew(frozen, s, step.runBytes, step.commandId, RequestOf(step), step.now);
            r.Ok? && FinishDone(frozen, s, step, r.value.0) && r.value.1 == View(frozen, s, s.index + 1, None)
  {
    FinishRowsKeep(frozen, s, step);
    var u := FinishRows(frozen, s, step);
    FinishNewIs(frozen, s, step);
    FinishRecorded(frozen, s, step, u);
  }

  lemma {:induction false} FinishNewIs(frozen: Frozen, s: Session, step: Step)
    requires step.Finish? && FinishGoesThrough(frozen, s, step)
    ensures var u := FinishRows(frozen, s, step);
            u.index == s.index + 1 ==>
                FinishNew(frozen, s, step.runBytes, step.commandId, RequestOf(step), step.now) ==
                Conclude(frozen, u, FinishReceipt(s, step), step.now)
  {}

  lemma {:induction false} FinishRecorded(frozen: Frozen, s: Session, step: Step, u: Session)
    requires Enrolled(frozen, s) && Receipts(s) && step.Finish?
    requires Progress(u) && Ledgers(frozen, u) && Continues(s, u) && u.receipts == s.receipts
    requires u.index == s.index + 1 == |s.attempts| == |u.attempts| && RowOf(s.attempts, step.attemptId) == s.index
    requires u.attempts[s.index].id == step.attemptId
    requires u.eventBytes >= s.eventBytes && step.runBytes + u.eventBytes - s.eventBytes <= MAX_RUN_BYTES
    requires forall r :: r in s.receipts ==> r.commandId != step.commandId
    ensures var r := Conclude(frozen, u, FinishReceipt(s, step), step.now);
            r.Ok? && FinishDone(frozen, s, step, r.value.0) && r.value.1 == View(frozen, s, s.index + 1, None)
  {
    RecordKeeps(frozen, s, u, FinishReceipt(s, step), step.now);
    NoRowYet(u);
  }

  /** A finish that takes effect closes exactly the current task. */
  lemma {:induction false} NewFinish(frozen: Frozen, s: Session, step: Step)
    requires Invariant(frozen, s) && step.Finish? && step.runBytes <= MAX_RUN_BYTES
    requires FinishTask(frozen, s, step.runBytes, step.commandId, RequestOf(step), step.now).Ok?
    requires FindReceipt(s, step.commandId, RequestOf(step), step.now).value.Fresh?
    ensures var (t, view) := FinishTask(frozen, s, step.runBytes, step.commandId, RequestOf(step), step.now).value;
            FinishDone(frozen, s, step, t) && view == View(frozen, s, s.index + 1, None)
  {
    FindReceiptKeeps(frozen, s, step.commandId, RequestOf(step), step.now);
    var s1 := FindReceipt(s, step.commandId, RequestOf(step), step.now).value.session;
    FinishNewKeeps(frozen, s1, step);
    DoneAfterLookup(frozen, s, s1, step,
                    FinishNew(frozen, s1, step.runBytes, step.commandId, RequestOf(step), step.now).value.0);
  }

  lemma {:induction false} DoneAfterLookup(frozen: Frozen, s: Session, s1: Session, step: Step, t: Session)
    requires step.Finish? && s1 == s.(receipts := s1.receipts) && Continues(s, s1) && LiveReceiptsStay(s, s1, step.now)
    requires forall r :: r in s1.receipts ==> r in s.receipts
    requires FinishDone(frozen, s1, step, t)
    ensures FinishDone(frozen, s, step, t)
  {
    ContinuesOn(s, s1, t);
  }

  lemma {:induction false} NoRowYet(s: Session)
    requires Progress(s) && |s.attempts| == s.index
    ensures RowAt(s.attempts, s.index) == |s.attempts|
  {
    var k := RowAt(s.attempts, s.index);
    assert k < |s.attempts| ==> RowOk(s, k);
  }

  /** A checkpoint moves neither tasks nor receipts. */
  lemma {:induction false} NewEvents(frozen: Frozen, s: Session, step: Step)
    requires Invariant(frozen, s) && step.Send? && step.runBytes <= MAX_RUN_BYTES
    requires SendEvents(frozen, s, step.runBytes, step.attemptId, step.events).Ok?
    ensures var (t, next) := SendEvents(frozen, s, step.runBytes, step.attemptId, step.events).value;
            && Invariant(frozen, t) && Continues(s, t) && t.receipts == s.receipts
            && t.index == s.index && |t.attempts| == |s.attempts|
            && t.eventBytes >= s.eventBytes && step.runBytes + t.eventBytes - s.eventBytes <= MAX_RUN_BYTES
            && next == |t.attempts[RowOf(s.attempts, step.attemptId)].log| + 1
  {
    var k := RowOf(s.attempts, step.attemptId);
    var t := SendEvents(frozen, s, step.runBytes, step.attemptId, step.events).value.0;
    AppendEffect(frozen, s, step.runBytes, k, step.events, None);
    AppendContinues(frozen, s, step.runBytes, k, step.events, None);
    forall i | 0 <= i < |t.attempts| ensures RowOk(t, i) {
      assert RowOk(s, i);
      assert RowContinues(s.attempts[i], t.attempts[i]);
      assert i == k && t.attempts[i].finished.None? ==> forall j :: 0 <= j < |s.attempts[i].log| ==>
          t.attempts[i].log[j] == s.attempts[i].log[j];
    }
    forall i | 0 <= i < |t.receipts| ensures ReceiptOk(t, t.receipts[i]) {
      assert ReceiptOk(s, s.receipts[i]);
      ReceiptStays(s, t, s.receipts[i]);
    }
  }

  /** The time at which a request can expire receipts; checkpoints expire none. */
  function Clock(step: Step, otherwise: int): int
  {
    match step
    case Start(_, _, now, _) => now
    case Send(_, _, _) => otherwise
    case Finish(_, _, _, _, _, now, _) => now
  }

  lemma {:induction false} StepKeeps(frozen: Frozen, s: Session, step: Step, expiry: int)
    requires Invariant(frozen, s) && Enabled(s, step) && Clock(step, expiry - 1) < expiry
    ensures var t := Apply(frozen, s, step).0;
            && Invariant(frozen, t) && Continues(s, t)
            && (forall r :: r in s.receipts && r.expiresAt >= expiry ==> r in t.receipts)
  {
    ContinuesItself(s);
    match step
    case Start(commandId, taskId, now, attemptId) =>
      var r := StartTask(frozen, s, commandId, taskId, now, attemptId);
      if r.Ok? && FindReceipt(s, commandId, StartRequest(taskId), now).value.Fresh? {
        NewStart(frozen, s, commandId, taskId, now, attemptId);
      }
    case Send(_, _, _) =>
      if SendEvents(frozen, s, step.runBytes, step.attemptId, step.events).Ok? {
        NewEvents(frozen, s, step);
      }
    case Finish(commandId, _, _, _, _, now, runBytes) =>
      var r := FinishTask(frozen, s, runBytes, commandId, RequestOf(step), now);
      if r.Ok? && FindReceipt(s, commandId, RequestOf(step), now).value.Fresh? {
        NewFinish(frozen, s, step);
      }
  }

  lemma {:induction false} ContinuesItself(s: Session)
    ensures Continues(s, s)
  {
    forall i | 0 <= i < |s.attempts| ensures RowContinues(s.attempts[i], s.attempts[i]) {}
  }

  // ----------------------------------------------------------------- whole runs

  function RunOf(frozen: Frozen, s: Session, steps: seq<Step>): Session
    decreases |steps|
  {
    if steps == [] then s else RunOf(frozen, Apply(frozen, s, steps[0]).0, steps[1..])
  }

  ghost predicate AllEnabled(frozen: Frozen, s: Session, steps: seq<Step>, expiry: int)
    decreases |steps|
  {
    steps == []
        || (Enabled(s, steps[0]) && Clock(steps[0], expiry - 1) < expiry
            && AllEnabled(frozen, Apply(frozen, s, steps[0]).0, steps[1..], expiry))
  }

  /** In every run the invariant holds, the session goes on, and unexpired receipts stay. */
  lemma {:induction false} RunKeeps(frozen: Frozen, s: Session, steps: seq<Step>, expiry: int)
    requires Invariant(frozen, s) && AllEnabled(frozen, s, steps, expiry)
    ensures var t := RunOf(frozen, s, steps);
            && Invariant(frozen, t) && Continues(s, t)
            && (forall r :: r in s.receipts && r.expiresAt >= expiry ==> r in t.receipts)
    decreases |steps|
  {
    if steps == [] {
      ContinuesItself(s);
    } else {
      var next := Apply(frozen, s, steps[0]).0;
      StepKeeps(frozen, s, steps[0], expiry);
      RunKeeps(frozen, next, steps[1..], expiry);
      ContinuesOn(s, next, RunOf(frozen, next, steps[1..]));
    }
  }

  /** The task indices at which a start took effect, in order. */
  function Starts(frozen: Frozen, s: Session, steps: seq<Step>): seq<nat>
    decreases |steps|
  {
    if steps == [] then []
    else
      var t := Apply(frozen, s, steps[0]).0;
      (if steps[0].Start? && |t.attempts| != |s.attempts| && t.attempts != [] then [Last(t.attempts).taskIndex]
       else []) + Starts(frozen, t, steps[1..])
  }

  /** The rows of the attempts that a finish closed, in order. */
  function Finishes(frozen: Frozen, s: Session, steps: seq<Step>): seq<nat>
    decreases |steps|
  {
    if steps == [] then []
    else
      var t := Apply(frozen, s, steps[0]).0;
      (if steps[0].Finish? && t.index != s.index then [RowOf(s.attempts, steps[0].attemptId)] else [])
          + Finishes(frozen, t, steps[1..])
  }

  function Range(a: nat, b: nat): seq<nat>
    decreases b - a
  {
    if a >= b then [] else [a] + Range(a + 1, b)
  }

  /** What one request can do to the two counters. */
  lemma {:induction false} StepCounts(frozen: Frozen, s: Session, step: Step)
    requires Invariant(frozen, s) && Enabled(s, step)
    ensures var t := Apply(frozen, s, step).0;
            && (|t.attempts| == |s.attempts|
                || (step.Start? && |t.attempts| == |s.attempts| + 1 && Last(t.attempts).taskIndex == |s.attempts|))
            && (t.index == s.index || (step.Finish? && t.index == s.index + 1
                                       && RowOf(s.attempts, step.attemptId) == s.index))
  {
    match step
    case Start(commandId, taskId, now, attemptId) =>
      var r := StartTask(frozen, s, commandId, taskId, now, attemptId);
      if r.Ok? && FindReceipt(s, commandId, StartRequest(taskId), now).value.Fresh? {
        NewStart(frozen, s, commandId, taskId, now, attemptId);
      }
    case Send(_, _, _) =>
      if SendEvents(frozen, s, step.runBytes, step.attemptId, step.events).Ok? {
        NewEvents(frozen, s, step);
      }
    case Finish(commandId, _, _, _, _, now, runBytes) =>
      var r := FinishTask(frozen, s, runBytes, commandId, RequestOf(step), now);
      if r.Ok? && FindReceipt(s, commandId, RequestOf(step), now).value.Fresh? {
        NewFinish(frozen, s, step);
      }
  }

  /** However requests are lost, repeated, delayed or mixed, starts take effect for
      the tasks 0, 1, 2, ... in this order and once each, and so do finishes. */
  lemma {:induction false} OncePerTask(frozen: Frozen, s: Session, steps: seq<Step>, expiry: int)
    requires Invariant(frozen, s) && AllEnabled(frozen, s, steps, expiry)
    ensures var t := RunOf(frozen, s, steps);
            && Starts(frozen, s, steps) == Range(|s.attempts|, |t.attempts|)
            && Finishes(frozen, s, steps) == Range(s.index, t.index)
            && t.index <= |t.attempts| <= |s.tasks|
    decreases |steps|
  {
    if steps != [] {
      var next := Apply(frozen, s, steps[0]).0;
      StepCounts(frozen, s, steps[0]);
      StepKeeps(frozen, s, steps[0], expiry);
      OncePerTask(frozen, next, steps[1..], expiry);
      RunKeeps(frozen, next, steps[1..], expiry);
    }
  }

  // -------------------------------------------------------------------- replays

  lemma {:induction false} ReceiptFound(s: Session, r: Receipt, now: int)
    requires Receipts(s) && r in s.receipts && r.expiresAt > now
    ensures FindReceipt(s, r.commandId, r.request, now) == Ok(Known(r))
  {
    var i :| 0 <= i < |s.receipts| && s.receipts[i] == r;
    var k := ReceiptOf(s.receipts, r.commandId);
    assert s.receipts[i].commandId == s.receipts[k].commandId;
  }

  /** A receipt rebuilds the same response from any later state. */
  lemma {:induction false} RebuildsTheSame(frozen: Frozen, s: Session, t: Session, r: Receipt)
    requires Progress(s) && Progress(t) && ReceiptOk(s, r) && Continues(s, t)
    ensures Rebuild(frozen, t, r) == Rebuild(frozen, s, r)
  {
    if r.request.StartRequest? {
      var k := r.responseIndex;
      assert RowContinues(s.attempts[k], t.attempts[k]);
      RowOfIsUnique(s, k);
      RowOfIsUnique(t, k);
    }
  }

  lemma {:induction false} RowOfIsUnique(s: Session, k: nat)
    requires Progress(s) && k < |s.attempts|
    ensures RowOf(s.attempts, s.attempts[k].id) == k
  {
    var j := RowOf(s.attempts, s.attempts[k].id);
    assert j < k || j == k || k < j;
  }

  /** The same request sent again. */
  function Again(step: Step, now: int, runBytes: nat, attemptId: Id): Step
    requires !step.Send?
  {
    match step
    case Start(commandId, taskId, _, _) => Start(commandId, taskId, now, attemptId)
    case Finish(commandId, attempt, outcome, nodeId, events, _, _) =>
        Finish(commandId, attempt, outcome, nodeId, events, now, runBytes)
  }

  ghost predicate TakesEffect(frozen: Frozen, s: Session, step: Step)
  {
    var t := Apply(frozen, s, step).0;
    (step.Start? && |t.attempts| != |s.attempts|) || (step.Finish? && t.index != s.index)
  }

  /** The receipt stands in t, and rebuilds the answer from it. */
  ghost predicate RecordedAs(frozen: Frozen, t: Session, answer: Answer, step: Step, r: Receipt)
    requires !step.Send?
  {
    && Invariant(frozen, t) && r in t.receipts && r.commandId == step.commandId
    && r.expiresAt == step.now + RECEIPT_LIFETIME
    && r.request == (if step.Start? then StartRequest(step.taskId) else RequestOf(step))
    && Rebuild(frozen, t, r).Ok? && answer == Shown(Rebuild(frozen, t, r).value)
  }

  lemma {:induction false} StartIsRecorded(frozen: Frozen, s: Session, step: Step)
    requires Invariant(frozen, s) && Enabled(s, step) && step.Start? && TakesEffect(frozen, s, step)
    ensures var (t, answer) := Apply(frozen, s, step);
            RecordedAs(frozen, t, answer, step, StartReceipt(s, step.commandId, step.taskId, step.now, step.attemptId))
  {
    NewStart(frozen, s, step.commandId, step.taskId, step.now, step.attemptId);
    RowOfIsUnique(Apply(frozen, s, step).0, s.index);
  }

  lemma {:induction false} FinishIsRecorded(frozen: Frozen, s: Session, step: Step)
    requires Invariant(frozen, s) && Enabled(s, step) && step.Finish? && TakesEffect(frozen, s, step)
    ensures var (t, answer) := Apply(frozen, s, step); RecordedAs(frozen, t, answer, step, FinishReceipt(s, step))
  {
    NewFinish(frozen, s, step);
  }

  /** The receipt written by a command that takes effect rebuilds its response. */
  lemma {:induction false} EffectIsRecorded(frozen: Frozen, s: Session, step: Step) returns (r: Receipt)
    requires Invariant(frozen, s) && Enabled(s, step) && TakesEffect(frozen, s, step)
    ensures !step.Send?
    ensures var (t, answer) := Apply(frozen, s, step); RecordedAs(frozen, t, answer, step, r)
  {
    if step.Start? {
      StartIsRecorded(frozen, s, step);
      r := StartReceipt(s, step.commandId, step.taskId, step.now, step.attemptId);
    } else {
      FinishIsRecorded(frozen, s, step);
      r := FinishReceipt(s, step);
    }
  }

  lemma {:induction false} ReplayAnswers(frozen: Frozen, u: Session, step: Step, r: Receipt, now: int, runBytes: nat,
                                         attemptId: Id)
    requires Receipts(u) && r in u.receipts && r.expiresAt > now && !step.Send?
    requires
      && r.commandId == step.commandId
      && r.request == (if step.Start? then StartRequest(step.taskId) else RequestOf(step))
    requires Rebuild(frozen, u, r).Ok?
    requires ValidCommandId(step.commandId)
    requires step.Start? ==> step.taskId != ""
    requires step.Finish? ==>
               (step.outcome.Selected? || step.outcome.GaveUp? || step.outcome.Skipped?)
               && (!step.outcome.Selected? ==> step.nodeId == "")
    ensures Apply(frozen, u, Again(step, now, runBytes, attemptId)) == (u, Shown(Rebuild(frozen, u, r).value))
  {
    ReceiptFound(u, r, now);
  }

  /** A retry within the receipt's life gets a response equal to the original one and
      changes nothing, whatever the participant did in between. */
  lemma {:induction false} RetryGetsTheOriginal(frozen: Frozen, s: Session, step: Step, later: seq<Step>, now: int,
                                                runBytes: nat, attemptId: Id)
    requires Invariant(frozen, s) && Enabled(s, step) && TakesEffect(frozen, s, step)
    requires now < step.now + RECEIPT_LIFETIME
    requires AllEnabled(frozen, Apply(frozen, s, step).0, later, step.now + RECEIPT_LIFETIME)
    ensures var (t, answer) := Apply(frozen, s, step);
            var u := RunOf(frozen, t, later);
            Apply(frozen, u, Again(step, now, runBytes, attemptId)) == (u, answer)
  {
    var r := EffectIsRecorded(frozen, s, step);
    var t := Apply(frozen, s, step).0;
    RunKeeps(frozen, t, later, step.now + RECEIPT_LIFETIME);
    var u := RunOf(frozen, t, later);
    var i :| 0 <= i < |t.receipts| && t.receipts[i] == r;
    assert ReceiptOk(t, t.receipts[i]);
    RebuildsTheSame(frozen, t, u, r);
    ReplayAnswers(frozen, u, step, r, now, runBytes, attemptId);
  }

  /** The receipt limit is never what refuses a command: two receipts a task at most
      leave room for the one being recorded. */
  lemma {:induction false} ReceiptLimitIsUnreachable(frozen: Frozen, s: Session, receipt: Receipt, now: int)
    requires Invariant(frozen, s)
    ensures |s.receipts| <= 2 * MAX_TASKS_PER_SESSION < MAX_COMMAND_RECEIPTS
    ensures SaveReceipt(s, receipt, now).Ok?
  {
    UnexpiredIsPart(s.receipts, now);
  }
}
