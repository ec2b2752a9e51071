/** The server answering session, start and finish requests. */
module NetworkCommands {
  import opened Common
  import opened Trees
  import opened Events
  import opened Append
  import opened EventStore
  import opened Segments
  import opened Sessions
  import opened SessionRuns
  import opened Client
  import opened Network
  import opened NetworkSafety
  import opened NetworkSending
  import opened NetworkServing

  // ------------------------------------------------------------------ the session

  /** What the server shows of a session. */
  lemma {:induction false} MakeSessionShows(frozen: Frozen, s: Session)
    requires Progress(s)
    ensures var v := MakeSession(frozen, s);
            && v == View(frozen, s, s.index, v.attempt)
            && (v.attempt.Some? <==> |s.attempts| == s.index + 1)
            && (v.attempt.Some? ==> var a := s.attempts[s.index];
                v.attempt.value == PublicAttempt(a.id, |a.log| + 1, a.log, a.startedAt))
  {
    var k := RowAt(s.attempts, s.index);
    assert k < |s.attempts| ==> RowOk(s, k);
    if |s.attempts| == s.index + 1 {
      assert RowOk(s, s.index);
      assert k < |s.attempts|;
    }
  }

  lemma {:induction false} SnapshotFits(frozen: Frozen, s: Session, hs: map<Id, seq<Event>>, saved: Saved)
    requires Progress(s) && PhaseOk(s, hs, saved)
    ensures SnapshotOk(frozen, s, hs, saved, MakeSession(frozen, s))
  {
    MakeSessionShows(frozen, s);
    if |s.attempts| == s.index + 1 {
      assert RowOk(s, s.index);
    }
  }

  lemma {:induction false} ServeSessionKeeps(frozen: Frozen, w: World, m: Move)
    requires Safe(frozen, w) && m.Serve? && Possible(w, m) && w.requests[m.n].GetSession?
    ensures Safe(frozen, Next(frozen, w, m))
  {
    SnapshotFits(frozen, w.server, w.histories, w.tab.saved);
    ReplyJoins(frozen, w, m.n, SessionReply(MakeSession(frozen, w.server)));
  }

  // ---------------------------------------------------------------------- a start

  /** The server opens an attempt for the current task, on the way from s to t. */
  ghost predicate OpensTask(frozen: Frozen, s: Session, commandId: Id, taskId: Id, now: int, attemptId: Id, t: Session)
  {
    && Invariant(frozen, t) && Continues(s, t)
    && |s.attempts| == s.index == t.index < |s.tasks| && t.attempts == Opened(s, attemptId, now).attempts
    && (forall r :: r in t.receipts ==> r in s.receipts || r == StartReceipt(s, commandId, taskId, now, attemptId))
    && taskId == PublicId(s, s.index)
  }

  lemma {:induction false} StartOpens(frozen: Frozen, s: Session, commandId: Id, taskId: Id, now: int, attemptId: Id)
    requires Invariant(frozen, s) && attemptId != "" && RowOf(s.attempts, attemptId) == |s.attempts|
    requires StartTask(frozen, s, commandId, taskId, now, attemptId).Ok?
    requires FindReceipt(s, commandId, StartRequest(taskId), now).value.Fresh?
    ensures var (t, view) := StartTask(frozen, s, commandId, taskId, now, attemptId).value;
            && OpensTask(frozen, s, commandId, taskId, now, attemptId, t)
            && view == View(frozen, s, s.index, Some(PublicAttempt(attemptId, 1, [], now)))
  {
    NewStart(frozen, s, commandId, taskId, now, attemptId);
    FindReceiptKeeps(frozen, s, commandId, StartRequest(taskId), now);
  }

  /** A task that has its attempt is not opened again. */
  lemma {:induction false} OnlyFreshTasksOpen(frozen: Frozen, s: Session, commandId: Id, taskId: Id, now: int,
                                              attemptId: Id, t: Session)
    requires Study(frozen, s) && OpensTask(frozen, s, commandId, taskId, now, attemptId, t)
    ensures !Stale(s, taskId)
  {
    forall k | 0 <= k < |s.attempts| && k < |s.tasks| ensures taskId != PublicId(s, k) {
      assert Opaque(s.publicTasks, s.tasks[k]) != Opaque(s.publicTasks, s.tasks[s.index]);
    }
  }

  lemma {:induction false} OpenHistories(frozen: Frozen, s: Session, hs: map<Id, seq<Event>>, attemptId: Id, now: int,
                                         t: Session)
    requires Progress(s) && Progress(t) && Continues(s, t) && HistoriesOk(EnvOf(frozen, s).places, s, hs)
    requires
      && s.index < |s.tasks|
      && t.attempts == Opened(s, attemptId, now).attempts
      && RowOf(s.attempts, attemptId) == |s.attempts|
    ensures HistoriesOk(EnvOf(frozen, t).places, t, hs) && Hist(hs, attemptId) == []
  {
    assert attemptId in hs ==> HistoryOk(EnvOf(frozen, s).places, s, hs, attemptId);
    forall i | 0 <= i < |t.attempts| ensures LogOk(t, hs, i) {
      assert i < |s.attempts| ==> LogOk(s, hs, i);
    }
    HistoryRowsStay(EnvOf(frozen, s).places, s, t, hs);
  }

  /** Only the page between tasks, with this very command saved, can be waiting for it. */
  lemma {:induction false} OpenKeepsRest(frozen: Frozen, w: World, commandId: Id, taskId: Id, now: int, attemptId: Id,
                                         t: Session)
    requires Safe(frozen, w) && OpensTask(frozen, w.server, commandId, taskId, now, attemptId, t)
    requires RowOf(w.server.attempts, attemptId) == |w.server.attempts|
    requires
      && w.tab.saved.startCommand.Some?
      && w.tab.saved.startCommand.value.commandId == commandId
      && w.tab.saved.startCommand.value.taskId == taskId
    ensures Safe(frozen, w.(server := t))
  {
    var s, hs, saved := w.server, w.histories, w.tab.saved;
    assert saved.attemptId == "";
    OpenHistories(frozen, s, hs, attemptId, now, t);
    RequestsStay(s, t, hs, saved, w.requests);
    PageStays(frozen, s, t, hs, saved, w.tab.page);
    if w.waiting.ForSession? {
      forall v | (w.waiting.n, SessionReply(v)) in w.replies ensures SnapshotOk(frozen, t, hs, saved, v) {
        SnapshotStays(frozen, s, t, hs, saved, v);
      }
    }
  }

  lemma {:induction false} StartReplay(frozen: Frozen, s: Session, commandId: Id, taskId: Id, now: int, attemptId: Id)
    requires Invariant(frozen, s) && StartTask(frozen, s, commandId, taskId, now, attemptId).Ok?
    requires FindReceipt(s, commandId, StartRequest(taskId), now).value.Known?
    ensures var (t, view) := StartTask(frozen, s, commandId, taskId, now, attemptId).value;
            var r := FindReceipt(s, commandId, StartRequest(taskId), now).value.receipt;
            && t == s && r in s.receipts && r.commandId == commandId
            && r.responseIndex < |s.attempts| && r.attemptId == Some(s.attempts[r.responseIndex].id)
            && view ==
                 View(frozen, s, r.responseIndex,
                      Some(PublicAttempt(s.attempts[r.responseIndex].id, 1, [], s.attempts[r.responseIndex].startedAt)))
  {
    var k := ReceiptOf(s.receipts, commandId);
    assert ReceiptOk(s, s.receipts[k]);
    RowOfIsUnique(s, s.receipts[k].responseIndex);
  }

  lemma {:induction false} ServeStartKeeps(frozen: Frozen, w: World, m: Move)
    requires Safe(frozen, w) && m.Serve? && Possible(w, m) && w.requests[m.n].PostStart?
    ensures Safe(frozen, Next(frozen, w, m))
  {
    var s, r := w.server, w.requests[m.n];
    AnsweredStart(frozen, w, m);
    var answer := StartTask(frozen, s, r.commandId, r.taskId, m.now, m.attemptId);
    if answer.Ok? {
      var (t, view) := answer.value;
      if FindReceipt(s, r.commandId, StartRequest(r.taskId), m.now).value.Known? {
        StartReplay(frozen, s, r.commandId, r.taskId, m.now, m.attemptId);
        StartReplayFits(frozen, w, m.n, FindReceipt(s, r.commandId, StartRequest(r.taskId), m.now).value.receipt, view);
        ReplyJoins(frozen, w, m.n, SessionReply(view));
      } else {
        StartOpens(frozen, s, r.commandId, r.taskId, m.now, m.attemptId);
        StartServed(frozen, w, m.n, m.now, m.attemptId, t, view);
      }
    }
  }

  lemma {:induction false} StartServed(frozen: Frozen, w: World, n: nat, now: int, attemptId: Id, t: Session,
                                       view: PublicSession)
    requires Safe(frozen, w) && n < |w.requests| && w.requests[n].PostStart?
    requires OpensTask(frozen, w.server, w.requests[n].commandId, w.requests[n].taskId, now, attemptId, t)
    requires RowOf(w.server.attempts, attemptId) == |w.server.attempts|
    requires view == View(frozen, w.server, w.server.index, Some(PublicAttempt(attemptId, 1, [], now)))
    ensures Safe(frozen, w.(server := t, replies := w.replies + {(n, SessionReply(view))}))
  {
    var s, r := w.server, w.requests[n];
    assert RequestOk(s, w.histories, w.tab.saved, w.requests[n]);
    OnlyFreshTasksOpen(frozen, s, r.commandId, r.taskId, now, attemptId, t);
    OpenKeepsRest(frozen, w, r.commandId, r.taskId, now, attemptId, t);
    assert w.tab.saved.attemptId == "";
    ReplyJoins(frozen, w.(server := t), n, SessionReply(view));
  }

  lemma {:induction false} AnsweredStart(frozen: Frozen, w: World, m: Move)
    requires m.Serve? && Possible(w, m) && w.requests[m.n].PostStart?
    ensures var r := StartTask(frozen, w.server, w.requests[m.n].commandId, w.requests[m.n].taskId, m.now, m.attemptId);
            Next(frozen, w, m) == if r.Err? then w
                else w.(server := r.value.0, replies := w.replies + {(m.n, SessionReply(r.value.1))})
  {}

  lemma {:induction false} StartReplayFits(frozen: Frozen, w: World, n: nat, r: Receipt, view: PublicSession)
    requires
      && Safe(frozen, w)
      && n < |w.requests|
      && w.requests[n].PostStart?
      && r in w.server.receipts
      && r.commandId == w.requests[n].commandId
    requires r.responseIndex < |w.server.attempts|
    requires view ==
             View(frozen, w.server, r.responseIndex,
                  Some(PublicAttempt(w.server.attempts[r.responseIndex].id, 1, [],
                                     w.server.attempts[r.responseIndex].startedAt)))
    ensures ReplyFits(frozen, w, n, SessionReply(view))
  {}

  // --------------------------------------------------------------------- a finish

  /** The server closes the current attempt with the whole recorded history. */
  ghost predicate Closes(frozen: Frozen, s: Session, h: seq<Event>, r: Receipt, t: Session)
  {
    && Invariant(frozen, t) && Continues(s, t)
    && t.index == s.index + 1 == |s.attempts| == |t.attempts| && t.attempts[s.index].log == h
    && (forall x :: x in t.receipts ==> x in s.receipts || x == r)
  }

  lemma {:induction false} FinishCloses(frozen: Frozen, s: Session, step: Step, h: seq<Event>)
    requires Invariant(frozen, s) && step.Finish? && step.runBytes <= MAX_RUN_BYTES
    requires FinishTask(frozen, s, step.runBytes, step.commandId, RequestOf(step), step.now).Ok?
    requires FindReceipt(s, step.commandId, RequestOf(step), step.now).value.Fresh?
    requires
      && Current(s, step.attemptId)
      && s.attempts[s.index].log <= h
      && Sequenced(h)
      && 0 < |step.events| <= |h|
      && step.events == h[|h| - |step.events|..]
    ensures var (t, view) := FinishTask(frozen, s, step.runBytes, step.commandId, RequestOf(step), step.now).value;
            Closes(frozen, s, h, FinishReceipt(s, step), t) && view == View(frozen, s, s.index + 1, None)
  {
    NewFinish(frozen, s, step);
    FindReceiptKeeps(frozen, s, step.commandId, RequestOf(step), step.now);
    var s1 := FindReceipt(s, step.commandId, RequestOf(step), step.now).value.session;
    RowOfIsUnique(s, s.index);
    AppendLog(frozen, s1, step.runBytes, s.index, step.events, Some(Choice(step.outcome, step.nodeId)), h,
              |h| - |step.events|);
  }

  lemma {:induction false} CloseHistories(frozen: Frozen, s: Session, hs: map<Id, seq<Event>>, a: Id, r: Receipt,
                                          t: Session)
    requires
      && Progress(s)
      && HistoriesOk(EnvOf(frozen, s).places, s, hs)
      && Current(s, a)
      && Closes(frozen, s, Hist(hs, a), r, t)
    ensures HistoriesOk(EnvOf(frozen, t).places, t, hs)
  {
    forall i | 0 <= i < |t.attempts| ensures LogOk(t, hs, i) {
      assert LogOk(s, hs, i) && RowContinues(s.attempts[i], t.attempts[i]) && RowOk(s, i);
    }
    HistoryRowsStay(EnvOf(frozen, s).places, s, t, hs);
  }

  /** Once the frozen command has taken effect the server is done with the attempt, and
      everything the browser may still do with it is to ask again. */
  lemma {:induction false} ClosingKeepsRest(frozen: Frozen, w: World, c: FinishCommand, r: Receipt, t: Session)
    requires
      && Safe(frozen, w)
      && w.tab.saved.finishCommand == Some(c)
      && Current(w.server, c.attemptId)
      && w.tab.saved.attemptId != ""
    requires Closes(frozen, w.server, Hist(w.histories, c.attemptId), r, t)
    requires r.request == FrozenRequest(c) && r.responseIndex == w.server.index + 1
    requires Acked(w.tab.saved, w.histories) >= |Hist(w.histories, c.attemptId)| - |c.events|
    requires !NeverSent(w.requests, c)
    ensures Safe(frozen, w.(server := t))
  {
    var s, hs, saved := w.server, w.histories, w.tab.saved;
    CloseHistories(frozen, s, hs, c.attemptId, r, t);
    assert RowContinues(s.attempts[s.index], t.attempts[s.index]);
    RequestsStay(s, t, hs, saved, w.requests);
    PageStays(frozen, s, t, hs, saved, w.tab.page);
    if w.waiting.ForSession? {
      forall v | (w.waiting.n, SessionReply(v)) in w.replies ensures SnapshotOk(frozen, t, hs, saved, v) {
        SnapshotStays(frozen, s, t, hs, saved, v);
      }
    }
  }

  lemma {:induction false} FinishReplay(frozen: Frozen, s: Session, step: Step)
    requires
      && Invariant(frozen, s)
      && step.Finish?
      && FinishTask(frozen, s, step.runBytes, step.commandId, RequestOf(step), step.now).Ok?
    requires FindReceipt(s, step.commandId, RequestOf(step), step.now).value.Known?
    ensures var (t, view) := FinishTask(frozen, s, step.runBytes, step.commandId, RequestOf(step), step.now).value;
            var r := FindReceipt(s, step.commandId, RequestOf(step), step.now).value.receipt;
            && t == s && r in s.receipts && r.commandId == step.commandId
            && view == View(frozen, s, r.responseIndex, None)
  {
    var k := ReceiptOf(s.receipts, step.commandId);
    assert ReceiptOk(s, s.receipts[k]);
  }

  /** A finish request in the network is the saved command, or its attempt is over. */
  lemma {:induction false} FinishIsCurrent(frozen: Frozen, w: World, n: nat)
    requires
      && Safe(frozen, w)
      && n < |w.requests|
      && w.requests[n].PostFinish?
      && Current(w.server, w.requests[n].command.attemptId)
    ensures w.tab.saved.finishCommand == Some(w.requests[n].command) && w.tab.saved.attemptId != ""
    ensures Acked(w.tab.saved, w.histories) >= |Hist(w.histories,
                                                     w.requests[n].command.attemptId)| - |w.requests[n].command.events|
    ensures w.tab.saved.attemptId == w.requests[n].command.attemptId
  {
    assert RequestOk(w.server, w.histories, w.tab.saved, w.requests[n]);
  }

  lemma {:induction false} EffectIsOnCurrent(frozen: Frozen, s: Session, step: Step)
    requires Invariant(frozen, s) && step.Finish? && step.runBytes <= MAX_RUN_BYTES
    requires FinishTask(frozen, s, step.runBytes, step.commandId, RequestOf(step), step.now).Ok?
    requires FindReceipt(s, step.commandId, RequestOf(step), step.now).value.Fresh?
    ensures Current(s, step.attemptId)
  {
    NewFinish(frozen, s, step);
  }

  ghost function FinishStep(c: FinishCommand, now: int, runBytes: nat): Step
  {
    Finish(c.commandId, c.attemptId, c.outcome, c.nodeId, c.events, now, runBytes)
  }

  /** What the server does with a fresh finish request in the network. */
  lemma {:induction false} FinishTakesEffect(frozen: Frozen, w: World, n: nat, now: int, runBytes: nat)
    requires Safe(frozen, w) && n < |w.requests| && w.requests[n].PostFinish? && runBytes <= MAX_RUN_BYTES
    requires var c := w.requests[n].command;
             FinishTask(frozen, w.server, runBytes, c.commandId, FrozenRequest(c), now).Ok?
    requires var c := w.requests[n].command; FindReceipt(w.server, c.commandId, FrozenRequest(c), now).value.Fresh?
    ensures var c := w.requests[n].command;
            var (t, view) := FinishTask(frozen, w.server, runBytes, c.commandId, FrozenRequest(c), now).value;
            && Closes(frozen, w.server, Hist(w.histories, c.attemptId),
                      FinishReceipt(w.server, FinishStep(c, now, runBytes)), t)
            && view == View(frozen, w.server, w.server.index + 1, None) && Current(w.server, c.attemptId)
  {
    var s, hs, c := w.server, w.histories, w.requests[n].command;
    var step := FinishStep(c, now, runBytes);
    EffectIsOnCurrent(frozen, s, step);
    FinishIsCurrent(frozen, w, n);
    assert LogOk(s, hs, s.index);
    HistorySequenced(EnvOf(frozen, s).places, s, hs, c.attemptId);
    FinishCloses(frozen, s, step, Hist(hs, c.attemptId));
  }

  lemma {:induction false} FinishReplyFits(frozen: Frozen, w: World, n: nat, t: Session)
    requires n < |w.requests| && w.requests[n].PostFinish? && AwaitOk(frozen, w) && Continues(w.server, t)
    requires
      && Current(w.server, w.tab.saved.attemptId)
      && t.index == w.server.index + 1 == |t.attempts| == |w.server.attempts|
    ensures ReplyFits(frozen, w.(server := t), n, SessionReply(View(frozen, w.server, w.server.index + 1, None)))
  {
    assert RowContinues(w.server.attempts[w.server.index], t.attempts[w.server.index]);
  }

  lemma {:induction false} FinishServed(frozen: Frozen, w: World, n: nat, now: int, runBytes: nat)
    requires Safe(frozen, w) && n < |w.requests| && w.requests[n].PostFinish? && runBytes <= MAX_RUN_BYTES
    requires var c := w.requests[n].command;
             FinishTask(frozen, w.server, runBytes, c.commandId, FrozenRequest(c), now).Ok?
    requires var c := w.requests[n].command; FindReceipt(w.server, c.commandId, FrozenRequest(c), now).value.Fresh?
    ensures var c := w.requests[n].command;
            var (t, view) := FinishTask(frozen, w.server, runBytes, c.commandId, FrozenRequest(c), now).value;
            Safe(frozen, w.(server := t, replies := w.replies + {(n, SessionReply(view))}))
  {
    var s, c := w.server, w.requests[n].command;
    FinishTakesEffect(frozen, w, n, now, runBytes);
    FinishIsCurrent(frozen, w, n);
    var (t, view) := FinishTask(frozen, s, runBytes, c.commandId, FrozenRequest(c), now).value;
    ClosingKeepsRest(frozen, w, c, FinishReceipt(s, FinishStep(c, now, runBytes)), t);
    FinishReplyFits(frozen, w, n, t);
    ReplyJoins(frozen, w.(server := t), n, SessionReply(view));
  }

  lemma {:induction false} FinishReplayFits(frozen: Frozen, w: World, n: nat, r: Receipt, view: PublicSession)
    requires
      && Safe(frozen, w)
      && n < |w.requests|
      && w.requests[n].PostFinish?
      && r in w.server.receipts
      && r.commandId == w.requests[n].command.commandId
    requires view == View(frozen, w.server, r.responseIndex, None)
    ensures ReplyFits(frozen, w, n, SessionReply(view))
  {}

  lemma {:induction false} AnsweredFinish(frozen: Frozen, w: World, m: Move)
    requires m.Serve? && Possible(w, m) && w.requests[m.n].PostFinish?
    ensures var c := w.requests[m.n].command;
            var r := FinishTask(frozen, w.server, m.runBytes, c.commandId, FrozenRequest(c), m.now);
            Next(frozen, w, m) == if r.Err? then w
                else w.(server := r.value.0, replies := w.replies + {(m.n, SessionReply(r.value.1))})
  {}

  lemma {:induction false} ServeFinishKeeps(frozen: Frozen, w: World, m: Move)
    requires Safe(frozen, w) && m.Serve? && Possible(w, m) && w.requests[m.n].PostFinish?
    ensures Safe(frozen, Next(frozen, w, m))
  {
    var s, c := w.server, w.requests[m.n].command;
    AnsweredFinish(frozen, w, m);
    if FinishTask(frozen, s, m.runBytes, c.commandId, FrozenRequest(c), m.now).Ok? {
      if FindReceipt(s, c.commandId, FrozenRequest(c), m.now).value.Known? {
        FinishReplay(frozen, s, FinishStep(c, m.now, m.runBytes));
        var r := FindReceipt(s, c.commandId, FrozenRequest(c), m.now).value.receipt;
        FinishReplayFits(frozen, w, m.n, r, View(frozen, s, r.responseIndex, None));
        ReplyJoins(frozen, w, m.n, SessionReply(View(frozen, s, r.responseIndex, None)));
      } else {
        FinishServed(frozen, w, m.n, m.now, m.runBytes);
      }
    }
  }
}
