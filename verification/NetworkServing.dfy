/** The server answering any request that was ever sent, at any later time and any
    number of times, keeps every invariant intact. */
module NetworkServing {
  import opened Common
  import opened Trees
  import opened Events
  import opened Append
  import opened EventStore
  import opened Segments
  import opened Sessions
  import opened SessionRuns
  import opened Client
  import opened Network
  import opened NetworkSafety
  import opened NetworkSending

  // -------------------------------------------------------- effects on one log

  /** What a checkpoint cut from the recorded history leaves in the attempt's log. */
  lemma {:induction false} EventsLog(frozen: Frozen, s: Session, step: Step, h: seq<Event>, from: nat, to: nat)
    requires Invariant(frozen, s) && step.Send? && step.runBytes <= MAX_RUN_BYTES
    requires SendEvents(frozen, s, step.runBytes, step.attemptId, step.events).Ok?
    requires var k := RowOf(s.attempts, step.attemptId);
             s.attempts[k].log <= h && Sequenced(h) && from < to <= |h| && step.events == h[from..to]
    ensures var k, t :=
            RowOf(s.attempts, step.attemptId),
            SendEvents(frozen, s, step.runBytes, step.attemptId, step.events).value.0;
            && |t.attempts| == |s.attempts| && t.attempts[k].log == h[..Max(|s.attempts[k].log|, to)]
            && forall i :: 0 <= i < |s.attempts| && i != k ==> t.attempts[i] == s.attempts[i]
  {
    var k := RowOf(s.attempts, step.attemptId);
    SoundEnv(frozen, s);
    LedgerCommitted(frozen, s, step.runBytes, k);
    SegmentCommitted(EnvOf(frozen, s), AttemptLedger(s, k, step.runBytes), h, from, to, false);
  }

  lemma {:induction false} AppendLog(frozen: Frozen, s: Session, runBytes: nat, k: nat, events: seq<Event>,
                                     choice: Option<Choice>, h: seq<Event>, from: nat)
    requires Invariant(frozen, s) && runBytes <= MAX_RUN_BYTES && k < |s.attempts|
    requires AppendTo(frozen, s, runBytes, k, events, choice).Ok?
    requires s.attempts[k].log <= h && Sequenced(h) && from < |h| && events == h[from..]
    ensures AppendTo(frozen, s, runBytes, k, events, choice).value.attempts[k].log == h
  {
    SoundEnv(frozen, s);
    LedgerCommitted(frozen, s, runBytes, k);
    assert h[from..] == h[from..|h|] && h[..|h|] == h;
    SegmentCommitted(EnvOf(frozen, s), AttemptLedger(s, k, runBytes), h, from, |h|, choice.Some?);
  }

  // ------------------------------------------------------- the server moves on

  /** Rows keep their place and identity. */
  lemma {:induction false} RowStays(s: Session, t: Session, a: Id)
    requires Progress(s) && Progress(t) && Continues(s, t) && RowOf(s.attempts, a) < |s.attempts|
    ensures RowOf(t.attempts, a) == RowOf(s.attempts, a)
  {
    var k := RowOf(s.attempts, a);
    assert RowContinues(s.attempts[k], t.attempts[k]);
    RowOfIsUnique(t, k);
  }

  lemma {:induction false} SegmentStays(s: Session, t: Session, hs: map<Id, seq<Event>>, a: Id, batch: seq<Event>)
    requires Progress(s) && Progress(t) && Continues(s, t) && Segment(s, hs, a, batch)
    ensures Segment(t, hs, a, batch)
  {
    RowStays(s, t, a);
    var k := RowOf(s.attempts, a);
    assert RowContinues(s.attempts[k], t.attempts[k]);
  }

  lemma {:induction false} RequestStays(s: Session, t: Session, hs: map<Id, seq<Event>>, saved: Saved, m: Message)
    requires Progress(s) && Progress(t) && Continues(s, t) && RequestOk(s, hs, saved, m)
    ensures RequestOk(t, hs, saved, m)
  {
    match m
    case GetSession =>
    case PostStart(_, taskId) =>
      if Stale(s, taskId) {
        var k :| 0 <= k < |s.attempts| && k < |s.tasks| && taskId == PublicId(s, k);
        assert k < |t.attempts| && taskId == PublicId(t, k);
      }
    case PostEvents(a, batch) => SegmentStays(s, t, hs, a, batch);
    case PostFinish(c) =>
      if Over(s, c.attemptId) {
        var k :| 0 <= k < s.index && k < |s.attempts| && s.attempts[k].id == c.attemptId;
        assert RowContinues(s.attempts[k], t.attempts[k]);
      }
  }

  lemma {:induction false} RequestsStay(s: Session, t: Session, hs: map<Id, seq<Event>>, saved: Saved,
                                        requests: seq<Message>)
    requires Progress(s) && Progress(t) && Continues(s, t) && RequestsOk(s, hs, saved, requests)
    requires saved.attemptId != "" && Current(t, saved.attemptId) ==>
               |t.attempts[t.index].log| <= Farthest(requests, saved.attemptId)
    ensures RequestsOk(t, hs, saved, requests)
  {
    forall n {:trigger RequestOk(t, hs, saved, requests[n])} | 0 <= n < |requests|
        ensures RequestOk(t, hs, saved, requests[n]) {
      assert RequestOk(s, hs, saved, requests[n]);
      RequestStays(s, t, hs, saved, requests[n]);
    }
  }

  lemma {:induction false} HistoryRowsStay(places: Places, s: Session, t: Session, hs: map<Id, seq<Event>>)
    requires Progress(s) && Progress(t) && Continues(s, t) && HistoriesOk(places, s, hs)
    requires forall i {:trigger LogOk(t, hs, i)} :: 0 <= i < |t.attempts| ==> LogOk(t, hs, i)
    ensures HistoriesOk(places, t, hs)
  {
    forall a | a in hs ensures HistoryOk(places, t, hs, a) {
      assert HistoryOk(places, s, hs, a);
      RowStays(s, t, a);
    }
  }

  lemma {:induction false} SnapshotStays(frozen: Frozen, s: Session, t: Session, hs: map<Id, seq<Event>>,
                                         saved: Saved, v: PublicSession)
    requires Continues(s, t) && SnapshotOk(frozen, s, hs, saved, v)
    requires saved.finishCommand.None? && saved.startCommand.None? ==> t.index == s.index
    ensures SnapshotOk(frozen, t, hs, saved, v)
  {
    if v.attempt.Some? {
      assert RowContinues(s.attempts[v.taskIndex], t.attempts[v.taskIndex]);
    }
  }

  // ---------------------------------------------------------------- a checkpoint

  lemma {:induction false} FarthestCovers(requests: seq<Message>, n: nat)
    requires n < |requests| && requests[n].PostEvents? && requests[n].events != []
    ensures EndOf(requests[n].events) <= Farthest(requests, requests[n].attemptId)
  {
    if n < |requests| - 1 {
      FarthestCovers(requests[..|requests| - 1], n);
    }
  }

  /** The server's rows after a checkpoint, on the way from s to t. */
  ghost predicate LogAdvances(frozen: Frozen, s: Session, hs: map<Id, seq<Event>>, a: Id, end: int, t: Session)
  {
    var k := RowOf(s.attempts, a);
    && Invariant(frozen, t)
    && Continues(s, t)
    && t.receipts == s.receipts
    && t.index == s.index
    && |t.attempts| == |s.attempts|
    && k < |s.attempts| && 0 <= end <= |Hist(hs, a)| && |s.attempts[k].log| <= |Hist(hs, a)|
    && (forall i :: 0 <= i < |s.attempts| && i != k ==> t.attempts[i] == s.attempts[i])
    && t.attempts[k].log == Hist(hs, a)[..Max(|s.attempts[k].log|, end)]
  }

  /** A stretch of the history served: its log is the history up to whichever end lies
      farther. */
  lemma {:induction false} SegmentServed(frozen: Frozen, s: Session, hs: map<Id, seq<Event>>, step: Step)
    requires
      && Invariant(frozen, s)
      && HistoriesOk(EnvOf(frozen, s).places, s, hs)
      && step.Send?
      && step.runBytes <= MAX_RUN_BYTES
    requires
      && Segment(s, hs, step.attemptId, step.events)
      && SendEvents(frozen, s, step.runBytes, step.attemptId, step.events).Ok?
    ensures var k, t :=
            RowOf(s.attempts, step.attemptId),
            SendEvents(frozen, s, step.runBytes, step.attemptId, step.events).value.0;
            && |t.attempts| == |s.attempts|
            && (forall i :: 0 <= i < |s.attempts| && i != k ==> t.attempts[i] == s.attempts[i])
            && |s.attempts[k].log| <= |Hist(hs, step.attemptId)|
            && t.attempts[k].log == Hist(hs, step.attemptId)[..Max(|s.attempts[k].log|, EndOf(step.events))]
  {
    assert LogOk(s, hs, RowOf(s.attempts, step.attemptId));
    HistorySequenced(EnvOf(frozen, s).places, s, hs, step.attemptId);
    EventsLog(frozen, s, step, Hist(hs, step.attemptId), step.events[0].seqNo - 1, EndOf(step.events));
  }

  lemma {:induction false} CheckpointAdvances(frozen: Frozen, w: World, m: Move)
    requires Safe(frozen, w) && m.Serve? && Possible(w, m) && w.requests[m.n].PostEvents?
    requires var step := StepFor(w.requests[m.n], m.now, m.runBytes, m.attemptId);
             SendEvents(frozen, w.server, step.runBytes, step.attemptId, step.events).Ok?
    ensures var r := w.requests[m.n];
            var (t, next) := SendEvents(frozen, w.server, m.runBytes, r.attemptId, r.events).value;
            && r.events != [] && Segment(w.server, w.histories, r.attemptId, r.events)
            && LogAdvances(frozen, w.server, w.histories, r.attemptId, EndOf(r.events), t)
            && next == |t.attempts[RowOf(w.server.attempts, r.attemptId)].log| + 1
  {
    var step := StepFor(w.requests[m.n], m.now, m.runBytes, m.attemptId);
    assert RequestOk(w.server, w.histories, w.tab.saved, w.requests[m.n]);
    NewEvents(frozen, w.server, step);
    SegmentServed(frozen, w.server, w.histories, step);
  }

  lemma {:induction false} LogsAdvance(frozen: Frozen, s: Session, hs: map<Id, seq<Event>>, a: Id, end: int, t: Session)
    requires Progress(s) && HistoriesOk(EnvOf(frozen, s).places, s, hs) && LogAdvances(frozen, s, hs, a, end, t)
    ensures HistoriesOk(EnvOf(frozen, t).places, t, hs)
  {
    forall i | 0 <= i < |t.attempts| ensures LogOk(t, hs, i) {
      assert LogOk(s, hs, i) && RowContinues(s.attempts[i], t.attempts[i]) && RowOk(s, i) && RowOk(t, i);
    }
    HistoryRowsStay(EnvOf(frozen, s).places, s, t, hs);
  }

  /** The current log only grows, and never into the submit. */
  lemma {:induction false} CurrentAdvances(frozen: Frozen, s: Session, hs: map<Id, seq<Event>>, id: Id, a: Id,
                                           end: int, t: Session)
    requires Progress(s) && LogAdvances(frozen, s, hs, a, end, t) && end <= Sendable(Hist(hs, a)) && Current(s, id)
    ensures Current(t, id) && |s.attempts[s.index].log| <= |t.attempts[s.index].log|
    ensures |t.attempts[s.index].log| <= Max(|s.attempts[s.index].log|, Sendable(Hist(hs, id)))
  {
    RowOfIsUnique(s, s.index);
    assert RowContinues(s.attempts[s.index], t.attempts[s.index]);
  }

  lemma {:induction false} PhaseAdvances(frozen: Frozen, s: Session, hs: map<Id, seq<Event>>, saved: Saved, a: Id,
                                         end: int, t: Session)
    requires
      && Progress(s)
      && PhaseOk(s, hs, saved)
      && LogAdvances(frozen, s, hs, a, end, t)
      && end <= Sendable(Hist(hs, a))
    ensures PhaseOk(t, hs, saved)
  {
    assert forall i :: 0 <= i < |s.attempts| ==> t.attempts[i].id == s.attempts[i].id by {
      forall i | 0 <= i < |s.attempts| ensures t.attempts[i].id == s.attempts[i].id {
        assert RowContinues(s.attempts[i], t.attempts[i]);
      }
    }
    if Current(s, saved.attemptId) {
      CurrentAdvances(frozen, s, hs, saved.attemptId, a, end, t);
    }
  }

  lemma {:induction false} AwaitAdvances(frozen: Frozen, w: World, a: Id, end: int, t: Session)
    requires Invariant(frozen, w.server) && AwaitOk(frozen, w) && LogAdvances(frozen, w.server, w.histories, a, end, t)
    ensures AwaitOk(frozen, w.(server := t))
  {
    if w.server.index < |w.server.attempts| { assert RowContinues(w.server.attempts[w.server.index],
                                                                  t.attempts[w.server.index]); }
    if w.server.index > 0
        && w.server.index - 1 < |w.server.attempts| { assert RowContinues(w.server.attempts[w.server.index - 1],
        t.attempts[w.server.index - 1]); }
    if w.waiting.ForSession? {
      forall v | (w.waiting.n, SessionReply(v)) in w.replies
          ensures SnapshotOk(frozen, t, w.histories, w.tab.saved, v) {
        SnapshotStays(frozen, w.server, t, w.histories, w.tab.saved, v);
      }
    }
  }

  /** A reply matters only to the page that waits for it. */
  ghost predicate ReplyFits(frozen: Frozen, w: World, n: nat, reply: Reply)
  {
    n < |w.requests| &&
    match w.waiting
    case ForSession(k) => n == k && reply.SessionReply? ==>
        SnapshotOk(frozen, w.server, w.histories, w.tab.saved, reply.view)
    case ForStart(k) => n == k && reply.SessionReply? ==> StartedOk(frozen, w.server, reply.view)
    case ForCheckpoint(k, a, batch) =>
      n == k && reply.EventsReply? ==>
          batch != [] && reply.nextSeq == EndOf(batch) + 1 && Current(w.server, a)
          && EndOf(batch) <= |w.server.attempts[w.server.index].log|
    case ForFinish(k) => n == k && reply.SessionReply? ==>
        Done(w.server, w.tab.saved.attemptId) && reply.view == View(frozen, w.server, w.server.index, None)
    case Idle => true
  }

  lemma {:induction false} AwaitReplyJoins(frozen: Frozen, w: World, n: nat, reply: Reply)
    requires AwaitOk(frozen, w) && ReplyFits(frozen, w, n, reply)
    ensures AwaitOk(frozen, w.(replies := w.replies + {(n, reply)}))
  {
    var all := w.replies + {(n, reply)};
    match w.waiting
    case Idle =>
    case ForSession(k) =>
      forall v | (k, SessionReply(v)) in all ensures SnapshotOk(frozen, w.server, w.histories, w.tab.saved, v) {
        assert (k, SessionReply(v)) in w.replies || (k, SessionReply(v)) == (n, reply);
      }
    case ForStart(k) =>
      forall v | (k, SessionReply(v)) in all ensures StartedOk(frozen, w.server, v) {
        assert (k, SessionReply(v)) in w.replies || (k, SessionReply(v)) == (n, reply);
      }
    case ForCheckpoint(k, a, batch) =>
      forall next | (k, EventsReply(next)) in all
          ensures next == EndOf(batch) + 1 && EndOf(batch) <= |w.server.attempts[w.server.index].log| {
        assert (k, EventsReply(next)) in w.replies || (k, EventsReply(next)) == (n, reply);
      }
    case ForFinish(k) =>
      forall v | (k, SessionReply(v)) in all
          ensures Done(w.server, w.tab.saved.attemptId) && v == View(frozen, w.server, w.server.index, None) {
        assert (k, SessionReply(v)) in w.replies || (k, SessionReply(v)) == (n, reply);
      }
  }

  lemma {:induction false} ReplyJoins(frozen: Frozen, w: World, n: nat, reply: Reply)
    requires Safe(frozen, w) && ReplyFits(frozen, w, n, reply)
    ensures Safe(frozen, w.(replies := w.replies + {(n, reply)}))
  {
    AwaitReplyJoins(frozen, w, n, reply);
  }

  /** The awaited batch reaches farthest of all, so the log ends exactly with it. */
  lemma {:induction false} CheckpointReplyFits(frozen: Frozen, w: World, n: nat, t: Session, next: int)
    requires Safe(frozen, w) && n < |w.requests| && w.requests[n].PostEvents? && w.requests[n].events != []
    requires LogAdvances(frozen, w.server, w.histories, w.requests[n].attemptId, EndOf(w.requests[n].events), t)
    requires next == |t.attempts[RowOf(w.server.attempts, w.requests[n].attemptId)].log| + 1
    ensures ReplyFits(frozen, w.(server := t), n, EventsReply(next))
  {
    var s, a := w.server, w.requests[n].attemptId;
    if w.waiting.ForCheckpoint? && w.waiting.n == n {
      RowOfIsUnique(s, s.index);
      assert RowContinues(s.attempts[s.index], t.attempts[s.index]);
    }
  }

  lemma {:induction false} ServeEventsKeeps(frozen: Frozen, w: World, m: Move)
    requires Safe(frozen, w) && m.Serve? && Possible(w, m) && w.requests[m.n].PostEvents?
    ensures Safe(frozen, Next(frozen, w, m))
  {
    var s, hs, saved, r := w.server, w.histories, w.tab.saved, w.requests[m.n];
    if SendEvents(frozen, s, m.runBytes, r.attemptId, r.events).Ok? {
      var (t, next) := SendEvents(frozen, s, m.runBytes, r.attemptId, r.events).value;
      CheckpointAdvances(frozen, w, m);
      CheckpointServed(frozen, w, m.n, t, next);
    }
    AnsweredEvents(frozen, w, m);
  }

  lemma {:induction false} AnsweredEvents(frozen: Frozen, w: World, m: Move)
    requires m.Serve? && Possible(w, m) && w.requests[m.n].PostEvents?
    ensures var r := SendEvents(frozen, w.server, m.runBytes, w.requests[m.n].attemptId, w.requests[m.n].events);
            Next(frozen, w, m) == if r.Err? then w
                else w.(server := r.value.0, replies := w.replies + {(m.n, EventsReply(r.value.1))})
  {}

  lemma {:induction false} CheckpointServed(frozen: Frozen, w: World, n: nat, t: Session, next: nat)
    requires Safe(frozen, w) && n < |w.requests| && w.requests[n].PostEvents? && w.requests[n].events != []
    requires Segment(w.server, w.histories, w.requests[n].attemptId, w.requests[n].events)
    requires LogAdvances(frozen, w.server, w.histories, w.requests[n].attemptId, EndOf(w.requests[n].events), t)
    requires next == |t.attempts[RowOf(w.server.attempts, w.requests[n].attemptId)].log| + 1
    ensures Safe(frozen, w.(server := t, replies := w.replies + {(n, EventsReply(next))}))
  {
    var s, hs, saved, r := w.server, w.histories, w.tab.saved, w.requests[n];
    var end := EndOf(r.events);
    SegmentIsSendable(s, hs, r.attemptId, r.events);
    LogsAdvance(frozen, s, hs, r.attemptId, end, t);
    PhaseAdvances(frozen, s, hs, saved, r.attemptId, end, t);
    FarthestCovers(w.requests, n);
    if Current(s, saved.attemptId) { RowOfIsUnique(s, s.index); }
    RequestsStay(s, t, hs, saved, w.requests);
    AwaitAdvances(frozen, w, r.attemptId, end, t);
    PageStays(frozen, s, t, hs, saved, w.tab.page);
    CheckpointReplyFits(frozen, w, n, t, next);
    ReplyJoins(frozen, w.(server := t), n, EventsReply(next));
  }

  lemma {:induction false} PageStays(frozen: Frozen, s: Session, t: Session, hs: map<Id, seq<Event>>, saved: Saved,
                                     page: Page)
    requires Continues(s, t) && PageOk(frozen, s, hs, saved, page)
    requires saved.finishCommand.None? && saved.startCommand.None? ==> t.index == s.index
    ensures PageOk(frozen, t, hs, saved, page)
  {}
}
