/** What the histories remember: in every run they are, attempt by attempt, exactly the
    events that the moves of the run put in the outbox, in order. */
module NetworkMemory {
  import opened Common
  import opened Trees
  import opened Events
  import opened Append
  import opened Outbox
  import opened Sessions
  import opened SessionRuns
  import opened Client
  import opened Network
  import opened NetworkSafety
  import opened NetworkRecording
  import opened NetworkSending
  import opened NetworkReceiving
  import opened NetworkAccepting
  import opened NetworkRuns

  /** The event that a move records: an action, the terminal event of a response, or the
      first event of a page that a reply has made live. */
  ghost function EventOf(frozen: Frozen, w: World, m: Move): Option<Event>
    requires Possible(w, m)
  {
    var tab := Next(frozen, w, m).tab;
    match m
    case Act(_, _, _) => Some(ActionOf(w, m))
    case Confirm(_, _, _) => Some(Terminal(w, m))
    case Deliver(_, _) =>
      if tab.page.active && !w.tab.page.active && tab.saved.events != [] then Some(Last(tab.saved.events)) else None
    case _ => None
  }

  /** The outbox gains this event and no other; so does the history of its attempt. */
  ghost predicate Remembers(saved: Saved, hs: map<Id, seq<Event>>, saved': Saved, hs': map<Id, seq<Event>>,
                            e: Option<Event>)
  {
    && (forall x :: x in saved'.events ==> x in saved.events || e == Some(x))
    && (e.None? ==> hs' == hs)
    && (e.Some? ==>
          && saved'.attemptId != "" && saved'.events != [] && Last(saved'.events) == e.value
          && e.value !in saved.events
          && hs' == hs[saved'.attemptId := Hist(hs, saved'.attemptId) + [e.value]])
  }

  // ------------------------------------------------------------ nothing recorded

  lemma {:induction false} TailsNest(h: seq<Event>, p: nat, n: nat)
    requires p <= n <= |h|
    ensures forall x :: x in h[n..] ==> x in h[p..]
  {
    forall x | x in h[n..] ensures x in h[p..] {
      var i :| 0 <= i < |h[n..]| && h[n..][i] == x;
      assert h[p..][n - p + i] == x;
    }
  }

  lemma {:induction false} PruningRemembers(frozen: Frozen, w: World, n: nat)
    requires Safe(frozen, w) && w.tab.saved.attemptId != ""
    requires Acked(w.tab.saved, w.histories) <= n <= |Hist(w.histories, w.tab.saved.attemptId)|
    ensures var saved' := Pruned(w.histories, w.tab.saved, n);
            Remembers(w.tab.saved, w.histories, saved', Remembered(w.histories, saved'), None)
  {
    OutboxIsTail(w.server, w.histories, w.tab.saved);
    TailsNest(Hist(w.histories, w.tab.saved.attemptId), Acked(w.tab.saved, w.histories), n);
    NothingNew(EnvOf(frozen, w.server).places, w.server, w.histories, w.tab.saved, n);
  }

  // ------------------------------------------------------------ something recorded

  /** The outbox holds no event with a number beyond the history. */
  lemma {:induction false} NewInOutbox(frozen: Frozen, w: World, e: Event)
    requires Safe(frozen, w) && w.tab.saved.attemptId != "" && e.seqNo == |Hist(w.histories, w.tab.saved.attemptId)| + 1
    ensures e !in w.tab.saved.events
  {
    var h := Hist(w.histories, w.tab.saved.attemptId);
    OutboxIsTail(w.server, w.histories, w.tab.saved);
    HistorySequenced(EnvOf(frozen, w.server).places, w.server, w.histories, w.tab.saved.attemptId);
    forall i | 0 <= i < |w.tab.saved.events| ensures w.tab.saved.events[i] != e {
      assert w.tab.saved.events[i] == h[Acked(w.tab.saved, w.histories) + i];
    }
  }

  lemma {:induction false} OwnEventRemembered(frozen: Frozen, w: World, saved': Saved, e: Event)
    requires Safe(frozen, w) && w.tab.saved.attemptId != "" && saved'.attemptId == w.tab.saved.attemptId
    requires Current(w.server, w.tab.saved.attemptId) && e.seqNo == |Hist(w.histories, w.tab.saved.attemptId)| + 1
    requires saved'.events == w.tab.saved.events + [e] && saved'.nextSeq == w.tab.saved.nextSeq + 1
    ensures Remembers(w.tab.saved, w.histories, saved', Remembered(w.histories, saved'), Some(e))
  {
    RememberedGrows(w.server, w.histories, w.tab.saved, saved', e);
    NewInOutbox(frozen, w, e);
  }

  lemma {:induction false} OwnMoveRemembers(frozen: Frozen, w: World, m: Move)
    requires Safe(frozen, w) && Possible(w, m) && !m.Deliver?
    ensures var u := Next(frozen, w, m);
            Remembers(w.tab.saved, w.histories, u.tab.saved, u.histories, EventOf(frozen, w, m))
  {
    var saved' := Next(frozen, w, m).tab.saved;
    if m.Act? {
      OfferedFollows(frozen, w, m);
      OwnEventRemembered(frozen, w, saved', ActionOf(w, m));
    } else if m.Confirm? {
      TerminalFollows(frozen, w, m);
      OwnEventRemembered(frozen, w, saved', Terminal(w, m));
    }
  }

  /** A page that goes live records its first event. */
  lemma {:induction false} FirstRemembered(frozen: Frozen, w: World, tab: Tab, stamp: Stamp)
    requires Safe(frozen, w) && TakenUp(frozen, w.server, w.histories, w.requests, tab)
    requires ProperStamp(stamp) && stamp.epoch == tab.page.epoch && IdNeverUsed(w.histories, stamp.id)
    requires forall x :: x in tab.saved.events ==> x in w.tab.saved.events
    requires w.tab.saved.attemptId == tab.saved.attemptId || w.tab.saved.events == []
    ensures var e := FirstHere(tab, Hist(w.histories, tab.saved.attemptId), stamp);
            var saved' := LiveTab(tab, e, stamp).saved;
            Remembers(w.tab.saved, w.histories, saved', Remembered(w.histories, saved'), Some(e))
  {
    var e := FirstHere(tab, Hist(w.histories, tab.saved.attemptId), stamp);
    FirstFollows(frozen, w.server, w.histories, w.requests, tab, stamp);
    RememberedGrows(w.server, w.histories, tab.saved, LiveTab(tab, e, stamp).saved, e);
    if w.tab.saved.attemptId == tab.saved.attemptId { NewInOutbox(frozen, w, e); }
  }

  lemma {:induction false} StartRemembers(frozen: Frozen, w: World, m: Move)
    requires Safe(frozen, w) && m.Deliver? && Possible(w, m) && w.waiting.ForStart?
    ensures var u := Next(frozen, w, m);
            Remembers(w.tab.saved, w.histories, u.tab.saved, u.histories, EventOf(frozen, w, m))
  {
    var v, skip := m.reply.view, w.tab.saved.startCommand.value.skip;
    StartFacts(frozen, w, v);
    FreshTakenUp(frozen, w, v);
    FreshAccepted(w.tab, v, skip, m.stamp);
    if !skip { FirstRemembered(frozen, w, FreshTab(w.tab, v, false), m.stamp); }
  }

  lemma {:induction false} ResumeRemembers(frozen: Frozen, w: World, m: Move)
    requires
      && Safe(frozen, w)
      && m.Deliver?
      && Possible(w, m)
      && w.waiting.ForSession?
      && Resumes(frozen, w, m.reply.view)
    ensures var u := Next(frozen, w, m);
            Remembers(w.tab.saved, w.histories, u.tab.saved, u.histories, EventOf(frozen, w, m))
  {
    var v := m.reply.view;
    ResumeFacts(frozen, w, v);
    RestoredTakenUp(frozen, w, v);
    ResumeRecovers(frozen, w, v, m.stamp);
    var h, n := Hist(w.histories, w.tab.saved.attemptId), |v.attempt.value.events|;
    OutboxIsTail(w.server, w.histories, w.tab.saved);
    TailsNest(h, Acked(w.tab.saved, w.histories), n);
    FirstRemembered(frozen, w, RestoredTab(w.tab, v, h, n), m.stamp);
  }

  lemma {:induction false} FetchRemembers(frozen: Frozen, w: World, m: Move)
    requires
      && Safe(frozen, w)
      && m.Deliver?
      && Possible(w, m)
      && w.waiting.ForSession?
      && !Resumes(frozen, w, m.reply.view)
    ensures var u := Next(frozen, w, m);
            Remembers(w.tab.saved, w.histories, u.tab.saved, u.histories, EventOf(frozen, w, m))
  {
    var v, places := m.reply.view, EnvOf(frozen, w.server).places;
    assert SnapshotOk(frozen, w.server, w.histories, w.tab.saved, v);
    NothingRemembered(places, w.server, w.histories, w.tab.saved);
    if ForTheFrozen(w, v) {
      FrozenPrunes(frozen, w, v, m.stamp);
      PruningRemembers(frozen, w, |v.attempt.value.events|);
    }
  }

  lemma {:induction false} CheckpointRemembers(frozen: Frozen, w: World, m: Move)
    requires Safe(frozen, w) && m.Deliver? && Possible(w, m) && w.waiting.ForCheckpoint?
    ensures var u := Next(frozen, w, m);
            Remembers(w.tab.saved, w.histories, u.tab.saved, u.histories, EventOf(frozen, w, m))
  {
    AwaitedCheckpoint(frozen, w, m.reply.nextSeq);
    CheckpointNoConflict(EnvOf(frozen, w.server).places, w.server, w.histories, w.tab.saved, w.waiting.batch);
    PruningRemembers(frozen, w, EndOf(w.waiting.batch));
  }

  lemma {:induction false} FinishReplyRemembers(frozen: Frozen, w: World, m: Move)
    requires Safe(frozen, w) && m.Deliver? && Possible(w, m) && w.waiting.ForFinish?
    ensures var u := Next(frozen, w, m);
            Remembers(w.tab.saved, w.histories, u.tab.saved, u.histories, EventOf(frozen, w, m))
  {
    AwaitedFinish(frozen, w, m.reply.view);
  }

  lemma {:induction false} AwaitedFinish(frozen: Frozen, w: World, v: PublicSession)
    requires AwaitOk(frozen, w) && w.waiting.ForFinish? && (w.waiting.n, SessionReply(v)) in w.replies
    ensures v == View(frozen, w.server, w.server.index, None)
  {}

  // -------------------------------------------------------------------- every run

  /** From every safe state: a move puts the event it records in the outbox, and no
      other, and the history of its attempt grows by exactly that event. */
  lemma {:induction false} MoveRemembers(frozen: Frozen, w: World, m: Move)
    requires Safe(frozen, w) && Possible(w, m)
    ensures var u := Next(frozen, w, m);
            Remembers(w.tab.saved, w.histories, u.tab.saved, u.histories, EventOf(frozen, w, m))
  {
    if !m.Deliver? {
      OwnMoveRemembers(frozen, w, m);
    } else if w.waiting.ForStart? {
      StartRemembers(frozen, w, m);
    } else if w.waiting.ForSession? {
      if Resumes(frozen, w, m.reply.view) { ResumeRemembers(frozen, w, m); } else { FetchRemembers(frozen, w, m); }
    } else if w.waiting.ForCheckpoint? {
      CheckpointRemembers(frozen, w, m);
    } else {
      FinishReplyRemembers(frozen, w, m);
    }
  }

  lemma {:induction false} MoveKeeps(frozen: Frozen, w: World, m: Move)
    requires Safe(frozen, w) && Possible(w, m)
    ensures Safe(frozen, Next(frozen, w, m))
  {
    if m.Serve? || m.Deliver? { RemoteMoveKeeps(frozen, w, m); } else { OwnMoveKeeps(frozen, w, m); }
  }

  ghost function RecordedBy(frozen: Frozen, w: World, m: Move, a: Id): seq<Event>
    requires Possible(w, m)
  {
    var e := EventOf(frozen, w, m);
    if e.Some? && Next(frozen, w, m).tab.saved.attemptId == a then [e.value] else []
  }

  /** The events that a run records for one attempt, in order. */
  ghost function Recordings(frozen: Frozen, w: World, moves: seq<Move>, a: Id): seq<Event>
    requires Happens(frozen, w, moves)
    decreases |moves|
  {
    if moves == [] then []
    else RecordedBy(frozen, w, moves[0], a) + Recordings(frozen, Next(frozen, w, moves[0]), moves[1..], a)
  }

  lemma {:induction false} MoveRecords(frozen: Frozen, w: World, m: Move, a: Id)
    requires Safe(frozen, w) && Possible(w, m)
    ensures Hist(Next(frozen, w, m).histories, a) == Hist(w.histories, a) + RecordedBy(frozen, w, m, a)
  {
    MoveRemembers(frozen, w, m);
  }

  lemma {:induction false} HistoriesRecord(frozen: Frozen, w: World, moves: seq<Move>, a: Id)
    requires Safe(frozen, w) && Happens(frozen, w, moves)
    ensures Hist(WorldAfter(frozen, w, moves).histories, a) == Hist(w.histories, a) + Recordings(frozen, w, moves, a)
    decreases |moves|
  {
    if moves != [] {
      HistoriesRecord(frozen, Next(frozen, w, moves[0]), moves[1..], a) by { MoveKeeps(frozen, w, moves[0]); }
      MoveRecords(frozen, w, moves[0], a);
      Associates(Hist(w.histories, a), RecordedBy(frozen, w, moves[0], a),
                 Recordings(frozen, Next(frozen, w, moves[0]), moves[1..], a));
    }
  }

  /** In every run from an enrolment: what the server stores for an attempt is a
      beginning of what the run recorded for it, and every event recorded is stored, or
      is in the outbox still. */
  lemma {:induction false} EveryRecordingSurvives(frozen: Frozen, w: World, moves: seq<Move>, a: Id)
    requires Begins(frozen, w) && Study(frozen, w.server) && Happens(frozen, w, moves)
    ensures var u, recorded := WorldAfter(frozen, w, moves), Recordings(frozen, w, moves, a);
            && (forall i :: 0 <= i < |u.server.attempts| && u.server.attempts[i].id == a ==>
                u.server.attempts[i].log <= recorded)
            && (forall e :: e in recorded ==> Recovered(u, a, e))
  {
    BeginsSafe(frozen, w);
    HistoriesRecord(frozen, w, moves, a);
    NothingIsLost(frozen, w, moves);
    var u, recorded := WorldAfter(frozen, w, moves), Recordings(frozen, w, moves, a);
    assert Hist(u.histories, a) == recorded;
    forall e | e in recorded ensures Recovered(u, a, e) {
      assert a in u.histories && e in u.histories[a];
    }
  }
}
