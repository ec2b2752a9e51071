/** The guarantees of the outbox protocol, over whole runs. */
module NetworkRuns {
  import opened Common
  import opened Trees
  import opened Events
  import opened Append
  import opened EventStore
  import opened Navigation
  import opened Outbox
  import opened Segments
  import opened Sessions
  import opened SessionRuns
  import opened Client
  import opened Network
  import opened NetworkSafety
  import opened NetworkRecording
  import opened NetworkSending
  import opened NetworkServing
  import opened NetworkCommands
  import opened NetworkReceiving
  import opened NetworkAccepting

  // ------------------------------------------- the other branches after a reload

  /** A page that has the session in view but has taken up nothing. */
  lemma {:induction false} SeenIsSafe(frozen: Frozen, w: World, v: PublicSession)
    requires Safe(frozen, w) && w.waiting.ForSession? && (w.waiting.n, SessionReply(v)) in w.replies
    requires w.tab.saved.finishCommand.Some? || w.tab.saved.startCommand.Some?
    ensures Safe(frozen, w.(tab := w.tab.(page := w.tab.page.(view := Some(v))), waiting := Idle))
  {
    assert SnapshotOk(frozen, w.server, w.histories, w.tab.saved, v);
  }

  /** Remembering is idle while the outbox holds nothing new. */
  lemma {:induction false} NothingRemembered(places: Places, s: Session, hs: map<Id, seq<Event>>, saved: Saved)
    requires HistoriesOk(places, s, hs) && PhaseOk(s, hs, saved)
    ensures Remembered(hs, saved) == hs
  {
    if saved.attemptId != "" {
      OutboxIsTail(s, hs, saved);
      NothingNew(places, s, hs, saved, Acked(saved, hs));
      assert Pruned(hs, saved, Acked(saved, hs)) == saved;
    }
  }

  lemma {:induction false} FrozenSnapshot(frozen: Frozen, w: World, v: PublicSession)
    requires
      && Safe(frozen, w)
      && w.waiting.ForSession?
      && (w.waiting.n, SessionReply(v)) in w.replies
      && w.tab.saved.finishCommand.Some?
    requires v.attempt.Some? && v.attempt.value.id == w.tab.saved.finishCommand.value.attemptId
    ensures var h, at := Hist(w.histories, w.tab.saved.attemptId), v.attempt.value;
            && w.tab.saved.attemptId != ""
            && at.events <= h
            && at.nextSeq == |at.events| + 1
            && Acked(w.tab.saved, w.histories) <= |at.events|
            && (Current(w.server, w.tab.saved.attemptId) ==> |at.events| <= |w.server.attempts[w.server.index].log|)
  {
    assert SnapshotOk(frozen, w.server, w.histories, w.tab.saved, v);
    assert LogOk(w.server, w.histories, v.taskIndex);
    RowOfIsUnique(w.server, v.taskIndex);
    if Current(w.server, w.tab.saved.attemptId) { RowOfIsUnique(w.server, w.server.index); }
  }

  /** The outbox is pruned, the frozen command and everything else saved stay. */
  lemma {:induction false} FrozenRecovers(tab: Tab, v: PublicSession, h: seq<Event>, p: nat, stamp: Stamp)
    requires tab.saved.finishCommand.Some? && (tab.saved.sessionId == "" || tab.saved.sessionId == v.id)
    requires v.attempt.Some? && v.attempt.value.id == tab.saved.finishCommand.value.attemptId
    requires
      && Sequenced(h)
      && DistinctIds(h)
      && v.attempt.value.events <= h
      && v.attempt.value.nextSeq == |v.attempt.value.events| + 1
    requires p <= |v.attempt.value.events| && tab.saved.events == h[p..]
    ensures Recover(tab, v, stamp) ==
            Some(Tab(tab.saved.(events := h[|v.attempt.value.events|..]), tab.page.(view := Some(v))))
  {
    SnapshotReconciles(h, v.attempt.value.events, p);
  }

  ghost predicate ForTheFrozen(w: World, v: PublicSession)
  {
    && w.waiting.ForSession? && (w.waiting.n, SessionReply(v)) in w.replies && w.tab.saved.finishCommand.Some?
    && v.attempt.Some? && v.attempt.value.id == w.tab.saved.finishCommand.value.attemptId
  }

  /** A checkpoint may have been stored just before its reply was lost. */
  lemma {:induction false} FrozenPrunes(frozen: Frozen, w: World, v: PublicSession, stamp: Stamp)
    requires Safe(frozen, w) && ForTheFrozen(w, v)
    ensures var h, n := Hist(w.histories, w.tab.saved.attemptId), |v.attempt.value.events|;
            && w.tab.saved.attemptId != "" && Acked(w.tab.saved, w.histories) <= n <= |h|
            && (Current(w.server, w.tab.saved.attemptId) ==> n <= |w.server.attempts[w.server.index].log|)
            && Recover(w.tab, v, stamp) == Some(Tab(Pruned(w.histories, w.tab.saved, n), w.tab.page.(view := Some(v))))
  {
    var s, hs, saved := w.server, w.histories, w.tab.saved;
    FrozenSnapshot(frozen, w, v);
    assert SnapshotOk(frozen, s, hs, saved, v);
    HistorySequenced(EnvOf(frozen, s).places, s, hs, saved.attemptId);
    OutboxIsTail(s, hs, saved);
    FrozenRecovers(w.tab, v, Hist(hs, saved.attemptId), Acked(saved, hs), stamp);
  }

  lemma {:induction false} FrozenReceived(frozen: Frozen, w: World, v: PublicSession, stamp: Stamp)
    requires
      && Safe(frozen, w)
      && w.waiting.ForSession?
      && (w.waiting.n, SessionReply(v)) in w.replies
      && w.tab.saved.finishCommand.Some?
    ensures var tab := Recover(w.tab, v, stamp); tab.Some? && Safe(frozen, WithTab(w, tab.value).(waiting := Idle))
  {
    SeenIsSafe(frozen, w, v);
    if v.attempt.Some? && v.attempt.value.id == w.tab.saved.finishCommand.value.attemptId {
      FrozenPrunes(frozen, w, v, stamp);
      PrunedIsSafe(frozen, w.(tab := w.tab.(page := w.tab.page.(view := Some(v))), waiting := Idle),
                   |v.attempt.value.events|);
    } else {
      assert SnapshotOk(frozen, w.server, w.histories, w.tab.saved, v);
      NothingRemembered(EnvOf(frozen, w.server).places, w.server, w.histories, w.tab.saved);
    }
  }

  lemma {:induction false} WaitingReceived(frozen: Frozen, w: World, v: PublicSession, stamp: Stamp)
    requires Safe(frozen, w) && w.waiting.ForSession? && (w.waiting.n, SessionReply(v)) in w.replies
    requires w.tab.saved.finishCommand.None? && (w.tab.saved.startCommand.Some? || w.tab.saved.attemptId == "")
    ensures var tab := Recover(w.tab, v, stamp); tab.Some? && Safe(frozen, WithTab(w, tab.value).(waiting := Idle))
  {
    var places, s, hs, saved := EnvOf(frozen, w.server).places, w.server, w.histories, w.tab.saved;
    assert SnapshotOk(frozen, s, hs, saved, v);
    if saved.startCommand.Some? {
      SeenIsSafe(frozen, w, v);
      NothingRemembered(places, s, hs, saved);
    } else {
      var saved' := Saved(s.id, "", 0, [], None, None);
      forall k {:trigger RequestOk(s, hs, saved', w.requests[k])} | 0 <= k < |w.requests|
          ensures RequestOk(s, hs, saved', w.requests[k]) {
        assert RequestOk(s, hs, saved, w.requests[k]);
      }
    }
  }

  lemma {:induction false} SessionReceived(frozen: Frozen, w: World, m: Move)
    requires Safe(frozen, w) && m.Deliver? && Possible(w, m) && w.waiting.ForSession?
    ensures Safe(frozen, Next(frozen, w, m))
  {
    var v, saved := m.reply.view, w.tab.saved;
    if saved.finishCommand.Some? {
      FrozenReceived(frozen, w, v, m.stamp);
    } else if saved.startCommand.Some? || saved.attemptId == "" {
      WaitingReceived(frozen, w, v, m.stamp);
    } else {
      ResumeReceived(frozen, w, v, m.stamp);
    }
  }

  // -------------------------------------------------------------------- every run

  lemma {:induction false} BeginsSafe(frozen: Frozen, w: World)
    requires Begins(frozen, w) && Study(frozen, w.server)
    ensures Safe(frozen, w)
  {}

  lemma {:induction false} ServeKeeps(frozen: Frozen, w: World, m: Move)
    requires Safe(frozen, w) && m.Serve? && Possible(w, m)
    ensures Safe(frozen, Next(frozen, w, m))
  {
    match w.requests[m.n]
    case GetSession => ServeSessionKeeps(frozen, w, m);
    case PostStart(_, _) => ServeStartKeeps(frozen, w, m);
    case PostEvents(_, _) => ServeEventsKeeps(frozen, w, m);
    case PostFinish(_) => ServeFinishKeeps(frozen, w, m);
  }

  lemma {:induction false} DeliverKeeps(frozen: Frozen, w: World, m: Move)
    requires Safe(frozen, w) && m.Deliver? && Possible(w, m)
    ensures Safe(frozen, Next(frozen, w, m))
  {
    match w.waiting
    case ForSession(_) => SessionReceived(frozen, w, m);
    case ForStart(_) => StartReceived(frozen, w, m);
    case ForCheckpoint(_, _, _) => CheckpointReceived(frozen, w, m);
    case ForFinish(_) => FinishReceived(frozen, w, m);
  }

  lemma {:induction false} PressKeeps(frozen: Frozen, w: World, m: Move)
    requires Safe(frozen, w) && Possible(w, m) && (m.BeginStart? || m.PressStart? || m.SendBatch? || m.PressFinish?)
    ensures Safe(frozen, Next(frozen, w, m))
  {
    match m
    case BeginStart(_, _, _) => BeginStartKeeps(frozen, w, m);
    case PressStart => PressStartKeeps(frozen, w, m);
    case SendBatch => SendBatchKeeps(frozen, w, m);
    case PressFinish => PressFinishKeeps(frozen, w, m);
  }

  lemma {:induction false} PageKeeps(frozen: Frozen, w: World, m: Move)
    requires Safe(frozen, w) && Possible(w, m) && (m.Reload? || m.Act? || m.Confirm? || m.Fail?)
    ensures Safe(frozen, Next(frozen, w, m))
  {
    match m
    case Reload(_) => ReloadKeeps(frozen, w, m);
    case Act(_, _, _) => ActKeeps(frozen, w, m);
    case Confirm(_, _, _) => ConfirmKeeps(frozen, w, m);
    case Fail(_) => FailKeeps(frozen, w, m);
  }

  /** What the server or the network does. */
  lemma {:induction false} RemoteMoveKeeps(frozen: Frozen, w: World, m: Move)
    requires Safe(frozen, w) && Possible(w, m) && (m.Serve? || m.Deliver?)
    ensures Safe(frozen, Next(frozen, w, m))
  {
    if m.Serve? { ServeKeeps(frozen, w, m); } else { DeliverKeeps(frozen, w, m); }
  }

  /** What the page does. */
  lemma {:induction false} OwnMoveKeeps(frozen: Frozen, w: World, m: Move)
    requires Safe(frozen, w) && Possible(w, m) && !m.Serve? && !m.Deliver?
    ensures Safe(frozen, Next(frozen, w, m))
  {
    if m.Reload? || m.Act? || m.Confirm? || m.Fail? { PageKeeps(frozen, w, m); } else { PressKeeps(frozen, w, m); }
  }

  lemma {:induction false} RunIsSafe(frozen: Frozen, w: World, moves: seq<Move>)
    requires Safe(frozen, w) && Happens(frozen, w, moves)
    ensures Safe(frozen, WorldAfter(frozen, w, moves))
    decreases |moves|
  {
    if moves != [] {
      if moves[0].Serve? || moves[0].Deliver? { RemoteMoveKeeps(frozen, w, moves[0]); }
          else { OwnMoveKeeps(frozen, w, moves[0]); }
      RunIsSafe(frozen, Next(frozen, w, moves[0]), moves[1..]);
    }
  }

  /** In every single-tab run, with requests lost, delayed and repeated and reloads at
      any point: no SequenceConflict is ever raised, every log on the server is a
      beginning of what the browser recorded for that attempt, and everything recorded
      for the attempt at hand is on the server or still in the outbox. */
  lemma {:induction false} NothingIsLost(frozen: Frozen, w: World, moves: seq<Move>)
    requires Begins(frozen, w) && Study(frozen, w.server) && Happens(frozen, w, moves)
    ensures var u := WorldAfter(frozen, w, moves);
            && !u.tab.page.conflict
            && (forall i :: 0 <= i < |u.server.attempts| ==>
                u.server.attempts[i].log <= Hist(u.histories, u.server.attempts[i].id))
            && (forall i :: 0 <= i < |u.server.attempts| && u.server.attempts[i].id != u.tab.saved.attemptId ==>
                  u.server.attempts[i].log == Hist(u.histories, u.server.attempts[i].id))
            && (forall a, e :: a in u.histories && e in u.histories[a] ==> Recovered(u, a, e))
  {
    BeginsSafe(frozen, w);
    RunIsSafe(frozen, w, moves);
    var u := WorldAfter(frozen, w, moves);
    forall i | 0 <= i < |u.server.attempts|
      ensures u.server.attempts[i].log <= Hist(u.histories, u.server.attempts[i].id)
      ensures u.server.attempts[i].id != u.tab.saved.attemptId ==>
                u.server.attempts[i].log == Hist(u.histories, u.server.attempts[i].id)
    {
      LogAccounted(frozen, u, i);
    }
    forall a, e | a in u.histories && e in u.histories[a] ensures Recovered(u, a, e) {
      EventAccounted(frozen, u, a, e);
    }
  }

  /** The event is stored for its attempt, or waits in the outbox of that attempt. */
  ghost predicate Recovered(w: World, a: Id, e: Event)
  {
    || (a == w.tab.saved.attemptId && e in w.tab.saved.events)
    || (exists i :: 0 <= i < |w.server.attempts| && w.server.attempts[i].id == a && e in w.server.attempts[i].log)
  }

  lemma {:induction false} LogAccounted(frozen: Frozen, w: World, i: nat)
    requires Safe(frozen, w) && i < |w.server.attempts|
    ensures var a := w.server.attempts[i];
            a.log <= Hist(w.histories, a.id) && (a.id != w.tab.saved.attemptId ==> a.log == Hist(w.histories, a.id))
  {
    assert LogOk(w.server, w.histories, i) && RowOk(w.server, i);
  }

  /** A history is covered by what left the outbox and what is still in it. */
  lemma {:induction false} EventCovered(h: seq<Event>, log: seq<Event>, p: int, events: seq<Event>, e: Event)
    requires e in h && 0 <= p <= |h| && events == h[p..] && log <= h && p <= |log|
    ensures e in events || e in log
  {
    var j :| 0 <= j < |h| && h[j] == e;
    if j < p {
      assert e == log[j];
    } else {
      assert e == h[p..][j - p];
    }
  }

  lemma {:induction false} EventAccounted(frozen: Frozen, w: World, a: Id, e: Event)
    requires Safe(frozen, w) && a in w.histories && e in w.histories[a]
    ensures Recovered(w, a, e)
  {
    assert HistoryOk(EnvOf(frozen, w.server).places, w.server, w.histories, a);
    var i := RowOf(w.server.attempts, a);
    LogAccounted(frozen, w, i);
    assert RowOk(w.server, i);
    if a == w.tab.saved.attemptId {
      OutboxIsTail(w.server, w.histories, w.tab.saved);
      CoverMeets(frozen, w, i);
      EventCovered(w.histories[a], w.server.attempts[i].log, Acked(w.tab.saved, w.histories), w.tab.saved.events, e);
    }
  }

  /** The server's log and the outbox overlap or meet. */
  lemma {:induction false} CoverMeets(frozen: Frozen, w: World, i: nat)
    requires
      && Safe(frozen, w)
      && i < |w.server.attempts|
      && w.tab.saved.attemptId != ""
      && w.server.attempts[i].id == w.tab.saved.attemptId
    ensures Acked(w.tab.saved, w.histories) <= |w.server.attempts[i].log|
  {
    var s := w.server;
    RowOfIsUnique(s, i);
    assert LogOk(s, w.histories, i) && RowOk(s, i);
    if Current(s, w.tab.saved.attemptId) {
      RowOfIsUnique(s, s.index);
    }
  }
}
