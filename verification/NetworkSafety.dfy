/** What holds in every state of every single-tab run. */
module NetworkSafety {
  import opened Common
  import opened Trees
  import opened Events
  import opened Append
  import opened EventStore
  import opened Navigation
  import opened Outbox
  import opened Segments
  import opened Sessions
  import opened SessionRuns
  import opened Client
  import opened Network

  // ------------------------------------------------------------------ invariants

  /** What enrolment guarantees: tasks of the study, with distinct nonempty public IDs. */
  ghost predicate Study(frozen: Frozen, s: Session)
  {
    && s.id != ""
    && (forall i :: 0 <= i < |s.tasks| ==> FindTask(frozen, s.tasks[i]).id == s.tasks[i])
    && (forall i :: 0 <= i < |s.tasks| ==> Opaque(s.publicTasks, s.tasks[i]) != "")
    && (forall i, j :: 0 <= i < j < |s.tasks| ==>
        Opaque(s.publicTasks, s.tasks[i]) != Opaque(s.publicTasks, s.tasks[j]))
  }

  ghost predicate NoSubmit(log: seq<Event>)
  {
    forall i :: 0 <= i < |log| ==> !log[i].kind.Submit?
  }

  function PublicId(s: Session, k: nat): Id
    requires k < |s.tasks|
  {
    Opaque(s.publicTasks, s.tasks[k])
  }

  ghost predicate Current(s: Session, id: Id)
  {
    |s.attempts| == s.index + 1 && s.attempts[s.index].id == id
  }

  /** The attempt just closed; the next task has not been started. */
  ghost predicate Done(s: Session, id: Id)
  {
    |s.attempts| == s.index > 0 && s.attempts[s.index - 1].id == id
  }

  /** Every stored log is a beginning of what its client recorded, and all of it once
      the attempt is finished; what was recorded is always storable. */
  ghost predicate HistoriesOk(places: Places, s: Session, hs: map<Id, seq<Event>>)
  {
    && (forall a {:trigger HistoryOk(places, s, hs, a)} :: a in hs ==> HistoryOk(places, s, hs, a))
    && (forall i {:trigger LogOk(s, hs, i)} :: 0 <= i < |s.attempts| ==> LogOk(s, hs, i))
  }

  ghost predicate HistoryOk(places: Places, s: Session, hs: map<Id, seq<Event>>, a: Id)
    requires a in hs
  {
    Storable(places, hs[a]) && RowOf(s.attempts, a) < |s.attempts|
  }

  ghost predicate LogOk(s: Session, hs: map<Id, seq<Event>>, i: nat)
    requires i < |s.attempts|
  {
    var a := s.attempts[i];
    a.log <= Hist(hs, a.id) && (a.finished.Some? ==> a.log == Hist(hs, a.id))
  }

  /** How much of the current attempt's history has left the outbox. */
  ghost function Acked(saved: Saved, hs: map<Id, seq<Event>>): int
  {
    |Hist(hs, saved.attemptId)| - |saved.events|
  }

  ghost predicate StartOk(s: Session, c: StartCommand)
  {
    && ValidCommandId(c.commandId) && ProperStamp(c.submission)
    && s.index < |s.tasks| && c.taskId == PublicId(s, s.index)
    && forall r :: r in s.receipts && r.commandId == c.commandId ==>
         r.request == StartRequest(c.taskId) && |s.attempts| > s.index && r.attemptId == Some(s.attempts[s.index].id)
             && r.responseIndex == s.index
  }

  ghost function FrozenRequest(c: FinishCommand): Request
  {
    FinishRequest(c.attemptId, c.outcome, c.nodeId, c.events)
  }

  /** The command is the end of the history: its last event is the only submit and says
      what the command says, and a selected page is the live selection. */
  ghost predicate FrozenFrom(h: seq<Event>, c: FinishCommand)
  {
    && 0 < |c.events| <= |h| && |c.events| <= MAX_EVENT_BATCH && EndsWith(h, c.events)
    && Last(h).kind.Submit? && Last(h).outcome == c.outcome && Last(h).nodeId == c.nodeId && SubmitOnlyLast(h)
    && (c.outcome.Selected? || c.outcome.GaveUp? || c.outcome.Skipped?) && (!c.outcome.Selected? ==> c.nodeId == "")
    && (c.outcome.Selected? ==> c.nodeId != "" && LiveSelection(h) == c.nodeId)
  }

  ghost predicate EndsWith(h: seq<Event>, events: seq<Event>)
  {
    |events| <= |h| && forall i {:trigger events[i]} :: 0 <= i < |events| ==> events[i] == h[|h| - |events| + i]
  }

  /** The server still has the attempt open, and the outbox covers what it lacks; or it
      has closed it, which took the frozen command and so an outbox pruned up to it. */
  ghost predicate OpenOrDone(s: Session, hs: map<Id, seq<Event>>, saved: Saved, c: FinishCommand)
  {
    var h := Hist(hs, saved.attemptId);
    || (Current(s, saved.attemptId) && Acked(saved, hs) <= |s.attempts[s.index].log| < |h|)
    || (Done(s, saved.attemptId) && Acked(saved, hs) >= |h| - |c.events|)
  }

  /** A receipt of the command is the receipt of the finish that closed the attempt. */
  ghost predicate FinishReceiptsOk(s: Session, saved: Saved, c: FinishCommand)
  {
    forall r :: r in s.receipts && r.commandId == c.commandId ==>
      r.request == FrozenRequest(c) && Done(s, saved.attemptId) && r.responseIndex == s.index
  }

  ghost predicate FinishOk(s: Session, hs: map<Id, seq<Event>>, saved: Saved, c: FinishCommand)
  {
    && c.attemptId == saved.attemptId && saved.startCommand.None? && ValidCommandId(c.commandId)
    && FrozenFrom(Hist(hs, saved.attemptId), c) && OpenOrDone(s, hs, saved, c) && FinishReceiptsOk(s, saved, c)
  }

  /** What is saved fits what the server has. */
  ghost predicate PhaseOk(s: Session, hs: map<Id, seq<Event>>, saved: Saved)
  {
    && (saved.sessionId == "" || saved.sessionId == s.id)
    && (saved.startCommand.Some? ==> StartOk(s, saved.startCommand.value))
    && if saved.attemptId == "" then
         && saved.events == [] && saved.finishCommand.None?
         && (|s.attempts| > s.index ==> saved.startCommand.Some? && Hist(hs, s.attempts[s.index].id) == [])
       else
         var h := Hist(hs, saved.attemptId);
         && 0 <= Acked(saved, hs) && saved.events == h[Acked(saved, hs)..] && saved.nextSeq == |h| + 1
         && if saved.finishCommand.None? then
              && Current(s, saved.attemptId) && Acked(saved, hs) <= |s.attempts[s.index].log| && NoSubmit(h)
              && (saved.startCommand.Some? ==> saved.startCommand.value.skip && h == [])
            else FinishOk(s, hs, saved, saved.finishCommand.value)
  }

  function EndOf(batch: seq<Event>): int
    requires batch != []
  {
    batch[0].seqNo - 1 + |batch|
  }

  /** A batch is a stretch of its attempt's history that starts where the server had got to. */
  ghost predicate Segment(s: Session, hs: map<Id, seq<Event>>, a: Id, batch: seq<Event>)
  {
    var k, h := RowOf(s.attempts, a), Hist(hs, a);
    && k < |s.attempts| && batch != [] && |batch| <= MAX_EVENT_BATCH && NoSubmit(batch)
    && 0 <= batch[0].seqNo - 1 <= |s.attempts[k].log| && EndOf(batch) <= |h|
    && batch == h[batch[0].seqNo - 1..EndOf(batch)]
  }

  ghost predicate Stale(s: Session, taskId: Id)
  {
    exists k :: 0 <= k < |s.attempts| && k < |s.tasks| && taskId == PublicId(s, k)
  }

  ghost predicate Over(s: Session, a: Id)
  {
    exists k :: 0 <= k < s.index && k < |s.attempts| && s.attempts[k].id == a
  }

  /** Requests in the network: commands are the saved one or have had their effect;
      batches reach at most one batch length past what has left the outbox. */
  ghost predicate RequestOk(s: Session, hs: map<Id, seq<Event>>, saved: Saved, message: Message)
  {
    match message
    case GetSession => true
    case PostStart(commandId, taskId) =>
      || Stale(s, taskId)
      || (saved.startCommand.Some? && saved.startCommand.value.commandId == commandId
          && saved.startCommand.value.taskId == taskId)
    case PostEvents(a, batch) =>
        a != "" && Segment(s, hs, a, batch)
        && (a == saved.attemptId ==> EndOf(batch) <= Acked(saved, hs) + MAX_EVENT_BATCH)
    case PostFinish(c) =>
      || Over(s, c.attemptId)
      || (saved.finishCommand == Some(c) && Acked(saved, hs) >= |Hist(hs, saved.attemptId)| - |c.events|)
  }

  /** How far the batches sent for an attempt reach. */
  function Farthest(requests: seq<Message>, a: Id): int
  {
    if requests == [] then 0
    else
      var before, m := Farthest(requests[..|requests| - 1], a), Last(requests);
      if m.PostEvents? && m.attemptId == a && m.events != [] then Max(before, EndOf(m.events)) else before
  }

  ghost predicate RequestsOk(s: Session, hs: map<Id, seq<Event>>, saved: Saved, requests: seq<Message>)
  {
    && (forall n {:trigger RequestOk(s, hs, saved, requests[n])} :: 0 <= n < |requests| ==>
        RequestOk(s, hs, saved, requests[n]))
    && (saved.attemptId != "" && Current(s, saved.attemptId) ==>
        |s.attempts[s.index].log| <= Farthest(requests, saved.attemptId))
  }

  /** The page agrees with the recorded history, and never met a conflict. */
  ghost predicate PageOk(frozen: Frozen, s: Session, hs: map<Id, seq<Event>>, saved: Saved, page: Page)
  {
    && !page.conflict && ValidEpoch(page.epoch) && 0 <= page.lastElapsed
    && (page.active ==> ActiveOk(s, hs, saved, page))
    && (page.view.Some? && saved.finishCommand.None? && saved.startCommand.None? && page.view.value.attempt.None? ==>
          saved.attemptId == "" && page.view.value == View(frozen, s, s.index, None))
    && (page.view.Some? && page.view.value.attempt.Some? ==> PlacesOf(page.view.value) == EnvOf(frozen, s).places)
  }

  ghost predicate ActiveOk(s: Session, hs: map<Id, seq<Event>>, saved: Saved, page: Page)
  {
    var h := Hist(hs, saved.attemptId);
    && saved.attemptId != "" && saved.finishCommand.None? && saved.startCommand.None?
    && page.view.Some? && page.view.value.attempt.Some? && page.view.value.attempt.value.id == saved.attemptId
    && h != [] && h[0].kind.TreeShown? && Last(h).epoch == page.epoch && Last(h).elapsed <= page.lastElapsed
    && page.current == Location(h) && page.selected == LiveSelection(h)
  }

  /** A view of the session that was true when the server gave it. */
  ghost predicate SnapshotOk(frozen: Frozen, s: Session, hs: map<Id, seq<Event>>, saved: Saved, v: PublicSession)
  {
    && v == View(frozen, s, v.taskIndex, v.attempt) && v.taskIndex <= s.index
    && (v.attempt.Some? ==>
          var at := v.attempt.value;
          && v.taskIndex < |s.attempts| && v.taskIndex < |s.tasks| && s.attempts[v.taskIndex].id == at.id
          && at.events <= s.attempts[v.taskIndex].log && at.nextSeq == |at.events| + 1
          && (at.id == saved.attemptId ==> Acked(saved, hs) <= |at.events|))
    && (saved.finishCommand.None? && saved.startCommand.None? ==>
        v.taskIndex == s.index && (v.attempt.None? <==> saved.attemptId == ""))
  }

  ghost predicate NeverSent(requests: seq<Message>, c: FinishCommand)
  {
    forall n :: 0 <= n < |requests| ==> requests[n] != PostFinish(c)
  }

  ghost predicate AwaitOk(frozen: Frozen, w: World)
  {
    var s, hs, saved := w.server, w.histories, w.tab.saved;
    && (forall x :: x in w.replies ==> x.0 < |w.requests|)
    && (w.waiting.Idle? || !w.tab.page.blocked)
    && match w.waiting
       case Idle => true
       case ForSession(n) =>
         && n < |w.requests| && w.requests[n] == GetSession
         && w.tab.page.view.None? && !w.tab.page.active && EpochNeverUsed(hs, w.tab.page.epoch)
         && forall v :: (n, SessionReply(v)) in w.replies ==> SnapshotOk(frozen, s, hs, saved, v)
       case ForStart(n) =>
         && n < |w.requests| && saved.startCommand.Some? && saved.finishCommand.None? && !w.tab.page.active
         && w.requests[n] == PostStart(saved.startCommand.value.commandId, saved.startCommand.value.taskId)
         && forall v :: (n, SessionReply(v)) in w.replies ==> StartedOk(frozen, s, v)
       case ForCheckpoint(n, a, batch) =>
         && n < |w.requests| && a != "" && a == saved.attemptId && w.requests[n] == PostEvents(a, batch)
         && batch != [] && batch <= saved.events && EndOf(batch) == Farthest(w.requests, a)
         && Current(s, a) && (saved.finishCommand.Some? ==> NeverSent(w.requests, saved.finishCommand.value))
         && forall next :: (n, EventsReply(next)) in w.replies ==>
              next == EndOf(batch) + 1 && EndOf(batch) <= |s.attempts[s.index].log|
       case ForFinish(n) =>
         && n < |w.requests|
         && saved.finishCommand.Some?
         && w.requests[n] == PostFinish(saved.finishCommand.value)
         && !w.tab.page.active
         && forall v :: (n, SessionReply(v)) in w.replies ==>
              Done(s, saved.attemptId) && v == View(frozen, s, s.index, None)
  }

  /** The reply to a start: the current task's attempt, as it was when it began. */
  ghost predicate StartedOk(frozen: Frozen, s: Session, v: PublicSession)
  {
    && |s.attempts| == s.index + 1 && s.index < |s.tasks|
    && v == View(frozen, s, s.index, Some(PublicAttempt(s.attempts[s.index].id, 1, [], s.attempts[s.index].startedAt)))
  }

  ghost predicate Safe(frozen: Frozen, w: World)
  {
    && Invariant(frozen, w.server) && Study(frozen, w.server)
    && HistoriesOk(EnvOf(frozen, w.server).places, w.server, w.histories)
    && PhaseOk(w.server, w.histories, w.tab.saved)
    && RequestsOk(w.server, w.histories, w.tab.saved, w.requests)
    && PageOk(frozen, w.server, w.histories, w.tab.saved, w.tab.page)
    && AwaitOk(frozen, w)
  }
}
