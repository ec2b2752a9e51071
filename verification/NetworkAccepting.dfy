/** The page accepting a session: after a start, and after a reload. */
module NetworkAccepting {
  import opened Common
  import opened Trees
  import opened Events
  import opened Append
  import opened Navigation
  import opened Outbox
  import opened Segments
  import opened Sessions
  import opened SessionRuns
  import opened Client
  import opened Network
  import opened NetworkSafety
  import opened NetworkRecording
  import opened NetworkSending
  import opened NetworkReceiving

  lemma {:induction false} FarthestNotNegative(requests: seq<Message>, a: Id)
    ensures Farthest(requests, a) >= 0
  {
    if requests != [] {
      FarthestNotNegative(requests[..|requests| - 1], a);
    }
  }

  /** A page that has taken up its attempt but records nothing yet. */
  lemma {:induction false} TakenUpIsSafe(frozen: Frozen, w: World, tab: Tab)
    requires Safe(frozen, w) && TakenUp(frozen, w.server, w.histories, w.requests, tab) && !tab.page.active
    ensures Safe(frozen, w.(tab := tab, waiting := Idle))
  {}

  // --------------------------------------------------------------- after a start

  /** What is adopted when the attempt has no events yet. */
  ghost function FreshTab(tab: Tab, v: PublicSession, skip: bool): Tab
    requires v.attempt.Some?
  {
    Tab(Saved(v.id, v.attempt.value.id, 1, [], if skip then tab.saved.startCommand else None, None),
        tab.page.(view := Some(v), current := "", selected := "", active := !skip))
  }

  lemma {:induction false} StartFacts(frozen: Frozen, w: World, v: PublicSession)
    requires Safe(frozen, w) && w.waiting.ForStart? && (w.waiting.n, SessionReply(v)) in w.replies
    ensures
      && StartedOk(frozen, w.server, v)
      && v.attempt.Some?
      && !v.completed
      && v.id == w.server.id
      && w.tab.saved.startCommand.Some?
    ensures
      && Hist(w.histories, v.attempt.value.id) == []
      && w.server.attempts[w.server.index].log == []
      && v.attempt.value.id != ""
    ensures w.tab.saved.attemptId == "" || w.tab.saved.attemptId == v.attempt.value.id
    ensures w.tab.saved.events == [] && PlacesOf(v) == EnvOf(frozen, w.server).places
    ensures
      && StartOk(w.server, w.tab.saved.startCommand.value)
      && w.tab.saved.finishCommand.None?
      && !w.tab.page.active
      && !w.tab.page.blocked
  {
    var s := w.server;
    assert RowOk(s, s.index) && LogOk(s, w.histories, s.index);
  }

  lemma {:induction false} FreshRequests(s: Session, hs: map<Id, seq<Event>>, saved: Saved, requests: seq<Message>,
                                         saved': Saved)
    requires
      && RequestsOk(s, hs, saved, requests)
      && saved.finishCommand.None?
      && saved.startCommand.Some?
      && StartOk(s, saved.startCommand.value)
    requires
      && saved'.attemptId != ""
      && Current(s, saved'.attemptId)
      && Hist(hs, saved'.attemptId) == []
      && s.attempts[s.index].log == []
    requires saved'.startCommand == saved.startCommand || saved'.startCommand.None?
    requires saved'.finishCommand.None?
    ensures RequestsOk(s, hs, saved', requests)
  {
    FarthestNotNegative(requests, saved'.attemptId);
    assert Stale(s, PublicId(s, s.index));
    forall k {:trigger RequestOk(s, hs, saved', requests[k])} | 0 <= k < |requests|
        ensures RequestOk(s, hs, saved', requests[k]) {
      assert RequestOk(s, hs, saved, requests[k]);
    }
  }

  lemma {:induction false} FreshTakenUp(frozen: Frozen, w: World, v: PublicSession)
    requires Safe(frozen, w) && w.waiting.ForStart? && (w.waiting.n, SessionReply(v)) in w.replies
    ensures v.attempt.Some? && w.tab.saved.startCommand.Some?
    ensures TakenUp(frozen, w.server, w.histories, w.requests, FreshTab(w.tab, v, w.tab.saved.startCommand.value.skip))
  {
    StartFacts(frozen, w, v);
    FreshRequests(w.server, w.histories, w.tab.saved, w.requests,
                  FreshTab(w.tab, v, w.tab.saved.startCommand.value.skip).saved);
  }

  lemma {:induction false} NothingToReconcile()
    ensures Reconcile([], [], 1) == Some(Restored([], [], 1))
  {
    var none: seq<Event> := [];
    assert (none + none)[0..] == none && none + none == none;
    ReconcileRestores(none, none, 0);
  }

  /** acceptSession on an attempt without events. */
  lemma {:induction false} FreshAccepted(tab: Tab, v: PublicSession, skip: bool, stamp: Stamp)
    requires v.attempt.Some? && !v.completed && v.attempt.value.nextSeq == 1 && v.attempt.value.events == []
    requires tab.saved.events == [] && !tab.page.blocked
    ensures AcceptSession(tab, v, true, skip, stamp) ==
            Some(if skip then FreshTab(tab, v, true)
                 else LiveTab(FreshTab(tab, v, false), FirstHere(FreshTab(tab, v, false), [], stamp), stamp))
  {
    NothingToReconcile();
  }

  lemma {:induction false} StartReceived(frozen: Frozen, w: World, m: Move)
    requires Safe(frozen, w) && m.Deliver? && Possible(w, m) && w.waiting.ForStart?
    ensures Safe(frozen, Next(frozen, w, m))
  {
    var v, skip := m.reply.view, w.tab.saved.startCommand.value.skip;
    StartFacts(frozen, w, v);
    FreshTakenUp(frozen, w, v);
    FreshAccepted(w.tab, v, skip, m.stamp);
    var tab := FreshTab(w.tab, v, skip);
    if skip {
      assert Remembered(w.histories, tab.saved) == w.histories;
      TakenUpIsSafe(frozen, w, tab);
    } else {
      GoesLive(frozen, w, tab, m.stamp);
    }
  }

  // -------------------------------------------------------------- after a reload

  lemma {:induction false} FirstIsShown(places: Places, h: seq<Event>)
    requires Storable(places, h) && h != [] && NoSubmit(h)
    ensures h[0].kind.TreeShown? && HasTreeShown(h)
  {
    assert WellShaped(places, h[0]);
  }

  /** The server's snapshot and the outbox together hold the whole history. */
  lemma {:induction false} SnapshotReconciles(h: seq<Event>, events: seq<Event>, p: nat)
    requires Sequenced(h) && DistinctIds(h) && events <= h && p <= |events|
    ensures Reconcile(events, h[p..], |events| + 1) == Some(Restored(h[|events|..], h, |h| + 1))
  {
    var rest := h[|events|..];
    assert events + rest == h;
    ReconcileRestores(events, rest, p);
  }

  ghost function RestoredTab(tab: Tab, v: PublicSession, h: seq<Event>, n: nat): Tab
    requires v.attempt.Some? && n <= |h|
  {
    Tab(Saved(v.id, v.attempt.value.id, |h| + 1, h[n..], None, None),
        tab.page.(view := Some(v), current := Location(h), selected := LiveSelection(h), active := true))
  }

  /** acceptSession on an attempt taken up again. */
  lemma {:induction false} RestoredAdopted(tab: Tab, v: PublicSession, h: seq<Event>, n: nat, stamp: Stamp)
    requires v.attempt.Some? && !tab.page.blocked && n <= |h|
    requires Replay(PlacesOf(v), SortBySeq(h)) == (Location(h), LiveSelection(h))
    requires HasTreeShown(h) <==> h != []
    ensures var taken := RestoredTab(tab, v, h, n);
            Adopt(tab, v, Restored(h[n..], h, |h| + 1), true, false, stamp) ==
                LiveTab(taken, FirstHere(taken, h, stamp), stamp)
  {}

  lemma {:induction false} RecoverAccepts(tab: Tab, v: PublicSession, restored: Restored, stamp: Stamp)
    requires
      && tab.saved.finishCommand.None?
      && tab.saved.startCommand.None?
      && (tab.saved.sessionId == "" || tab.saved.sessionId == v.id)
    requires v.attempt.Some? && !v.completed && tab.saved.attemptId == v.attempt.value.id
    requires Reconcile(v.attempt.value.events, tab.saved.events, v.attempt.value.nextSeq) == Some(restored)
    ensures Recover(tab, v, stamp) == Some(Adopt(tab, v, restored, true, false, stamp))
  {}

  ghost predicate Resumes(frozen: Frozen, w: World, v: PublicSession)
  {
    && w.waiting.ForSession? && (w.waiting.n, SessionReply(v)) in w.replies
    && w.tab.saved.finishCommand.None? && w.tab.saved.startCommand.None? && w.tab.saved.attemptId != ""
  }

  lemma {:induction false} ResumeFacts(frozen: Frozen, w: World, v: PublicSession)
    requires Safe(frozen, w) && Resumes(frozen, w, v)
    ensures v.attempt.Some? && !v.completed && v.id == w.server.id && v.attempt.value.id == w.tab.saved.attemptId
    ensures v.attempt.value.nextSeq == |v.attempt.value.events| + 1
    ensures v.attempt.value.events <= w.server.attempts[w.server.index].log <= Hist(w.histories, w.tab.saved.attemptId)
    ensures Acked(w.tab.saved, w.histories) <= |v.attempt.value.events|
    ensures PlacesOf(v) == EnvOf(frozen, w.server).places && !w.tab.page.blocked
    ensures EpochNeverUsed(w.histories, w.tab.page.epoch)
    ensures Current(w.server, w.tab.saved.attemptId) && NoSubmit(Hist(w.histories, w.tab.saved.attemptId))
  {
    assert SnapshotOk(frozen, w.server, w.histories, w.tab.saved, v);
    assert LogOk(w.server, w.histories, w.server.index);
  }

  lemma {:induction false} RestoredParts(s: Session, hs: map<Id, seq<Event>>, saved: Saved, requests: seq<Message>,
                                         n: nat, saved': Saved)
    requires PhaseOk(s, hs, saved) && RequestsOk(s, hs, saved, requests) && saved.attemptId != ""
    requires saved.finishCommand.None? && saved.startCommand.None?
    requires Acked(saved, hs) <= n <= |Hist(hs, saved.attemptId)| && n <= |s.attempts[s.index].log|
    requires saved' ==
             Saved(s.id, saved.attemptId, |Hist(hs, saved.attemptId)| + 1, Hist(hs, saved.attemptId)[n..], None, None)
    ensures PhaseOk(s, hs, saved') && RequestsOk(s, hs, saved', requests)
  {
    PruneKeeps(s, hs, saved, requests, n);
    var pruned := Pruned(hs, saved, n);
    forall k {:trigger RequestOk(s, hs, saved', requests[k])} | 0 <= k < |requests|
        ensures RequestOk(s, hs, saved', requests[k]) {
      assert RequestOk(s, hs, pruned, requests[k]);
    }
  }

  lemma {:induction false} RestoredTakenUp(frozen: Frozen, w: World, v: PublicSession)
    requires Safe(frozen, w) && Resumes(frozen, w, v)
    ensures v.attempt.Some?
    ensures var h := Hist(w.histories, w.tab.saved.attemptId);
            && |v.attempt.value.events| <= |h|
            && TakenUp(frozen, w.server, w.histories, w.requests, RestoredTab(w.tab, v, h, |v.attempt.value.events|))
  {
    ResumeFacts(frozen, w, v);
    var s, saved := w.server, w.tab.saved;
    var h, n := Hist(w.histories, saved.attemptId), |v.attempt.value.events|;
    RestoredParts(s, w.histories, saved, w.requests, n, RestoredTab(w.tab, v, h, n).saved);
    HistorySequenced(EnvOf(frozen, s).places, s, w.histories, saved.attemptId);
    if h != [] {
      FirstIsShown(EnvOf(frozen, s).places, h);
    }
    assert forall i :: 0 <= i < |h| ==> h[i].epoch != w.tab.page.epoch;
  }

  lemma {:induction false} ResumeRecovers(frozen: Frozen, w: World, v: PublicSession, stamp: Stamp)
    requires Safe(frozen, w) && Resumes(frozen, w, v)
    ensures v.attempt.Some?
    ensures var h := Hist(w.histories, w.tab.saved.attemptId);
            && |v.attempt.value.events| <= |h|
            && var taken := RestoredTab(w.tab, v, h, |v.attempt.value.events|);
            Recover(w.tab, v, stamp) == Some(LiveTab(taken, FirstHere(taken, h, stamp), stamp))
  {
    ResumeFacts(frozen, w, v);
    var places, h := EnvOf(frozen, w.server).places, Hist(w.histories, w.tab.saved.attemptId);
    var events := v.attempt.value.events;
    HistorySequenced(places, w.server, w.histories, w.tab.saved.attemptId);
    OutboxIsTail(w.server, w.histories, w.tab.saved);
    SnapshotReconciles(h, events, Acked(w.tab.saved, w.histories));
    RecoverAccepts(w.tab, v, Restored(h[|events|..], h, |h| + 1), stamp);
    SoundEnv(frozen, w.server);
    ReplayAgrees(places, h);
    if h != [] { FirstIsShown(places, h); }
    RestoredAdopted(w.tab, v, h, |events|, stamp);
  }

  lemma {:induction false} ResumeReceived(frozen: Frozen, w: World, v: PublicSession, stamp: Stamp)
    requires
      && Safe(frozen, w)
      && Resumes(frozen, w, v)
      && ProperStamp(stamp)
      && stamp.epoch == w.tab.page.epoch
      && IdNeverUsed(w.histories, stamp.id)
    ensures var tab := Recover(w.tab, v, stamp); tab.Some? && Safe(frozen, WithTab(w, tab.value).(waiting := Idle))
  {
    RestoredTakenUp(frozen, w, v);
    ResumeRecovers(frozen, w, v, stamp);
    GoesLive(frozen, w, RestoredTab(w.tab, v, Hist(w.histories, w.tab.saved.attemptId), |v.attempt.value.events|),
             stamp);
  }
}
