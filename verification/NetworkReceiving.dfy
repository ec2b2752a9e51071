/** The page taking in a reply: no reply ever leads to a conflict, and every invariant
    is kept. */
module NetworkReceiving {
  import opened Common
  import opened Trees
  import opened Events
  import opened Append
  import opened Navigation
  import opened Outbox
  import opened Segments
  import opened Sessions
  import opened SessionRuns
  import opened Client
  import opened Network
  import opened NetworkSafety
  import opened NetworkRecording
  import opened NetworkSending
  import opened NetworkServing

  // -------------------------------------------------------- pruning the outbox

  ghost function Pruned(hs: map<Id, seq<Event>>, saved: Saved, n: nat): Saved
    requires n <= |Hist(hs, saved.attemptId)|
  {
    saved.(events := Hist(hs, saved.attemptId)[n..])
  }

  /** The outbox may lose what the server has stored. */
  lemma {:induction false} PruneKeeps(s: Session, hs: map<Id, seq<Event>>, saved: Saved, requests: seq<Message>, n: nat)
    requires PhaseOk(s, hs, saved) && RequestsOk(s, hs, saved, requests) && saved.attemptId != ""
    requires Acked(saved, hs) <= n <= |Hist(hs, saved.attemptId)|
    requires Current(s, saved.attemptId) ==> n <= |s.attempts[s.index].log|
    ensures PhaseOk(s, hs, Pruned(hs, saved, n)) && RequestsOk(s, hs, Pruned(hs, saved, n), requests)
    ensures Acked(Pruned(hs, saved, n), hs) == n
  {
    var saved' := Pruned(hs, saved, n);
    forall k {:trigger RequestOk(s, hs, saved', requests[k])} | 0 <= k < |requests|
        ensures RequestOk(s, hs, saved', requests[k]) {
      assert RequestOk(s, hs, saved, requests[k]);
    }
  }

  lemma {:induction false} NothingNew(places: Places, s: Session, hs: map<Id, seq<Event>>, saved: Saved, n: nat)
    requires HistoriesOk(places, s, hs) && n <= |Hist(hs, saved.attemptId)|
    ensures Remembered(hs, Pruned(hs, saved, n)) == hs
  {
    HistorySequenced(places, s, hs, saved.attemptId);
    TailEnds(Hist(hs, saved.attemptId), n);
  }

  lemma {:induction false} TailEnds(h: seq<Event>, n: nat)
    requires Sequenced(h) && n <= |h|
    ensures h[n..] != [] ==> Last(h[n..]).seqNo == |h|
  {
    assert n < |h| ==> Last(h[n..]) == h[|h| - 1];
  }

  // -------------------------------------------------------- a checkpoint's reply

  /** The whole batch is acknowledged, and nothing beyond it: no conflict. */
  lemma {:induction false} CheckpointAcked(h: seq<Event>, p: nat, batch: seq<Event>)
    requires Sequenced(h) && p <= |h| && batch != [] && batch <= h[p..]
    ensures EndOf(batch) == p + |batch| <= |h|
    ensures AckEvents(batch, EndOf(batch) + 1) == Some([])
    ensures AckEvents(h[p..], EndOf(batch) + 1) == Some(h[EndOf(batch)..])
  {
    assert batch == h[p..p + |batch|] && batch[0] == h[p];
    AckStretch(h, p, p + |batch|, p + |batch| + 1);
    AckStretch(h, p, |h|, p + |batch| + 1);
    assert h[p..|h|] == h[p..] && h[p + |batch|..|h|] == h[p + |batch|..];
    assert h[p + |batch|..p + |batch|] == [];
  }

  lemma {:induction false} CheckpointPrunes(saved: Saved, h: seq<Event>, p: nat, batch: seq<Event>)
    requires Sequenced(h) && p <= |h| && saved.events == h[p..] && batch != [] && batch <= saved.events
    ensures p <= EndOf(batch) <= |h|
    ensures Checkpointed(saved, saved.attemptId, batch, EndOf(batch) + 1) == Some(saved.(events := h[EndOf(batch)..]))
  {
    CheckpointAcked(h, p, batch);
  }

  lemma {:induction false} AwaitedCheckpoint(frozen: Frozen, w: World, next: int)
    requires AwaitOk(frozen, w) && w.waiting.ForCheckpoint? && (w.waiting.n, EventsReply(next)) in w.replies
    ensures
      && w.waiting.attemptId == w.tab.saved.attemptId != ""
      && w.waiting.batch != []
      && w.waiting.batch <= w.tab.saved.events
    ensures next == EndOf(w.waiting.batch) + 1 && Current(w.server, w.tab.saved.attemptId)
    ensures EndOf(w.waiting.batch) <= |w.server.attempts[w.server.index].log|
  {}

  lemma {:induction false} CheckpointNoConflict(places: Places, s: Session, hs: map<Id, seq<Event>>, saved: Saved,
                                                batch: seq<Event>)
    requires
      && HistoriesOk(places, s, hs)
      && PhaseOk(s, hs, saved)
      && saved.attemptId != ""
      && batch != []
      && batch <= saved.events
    ensures Acked(saved, hs) <= EndOf(batch) <= |Hist(hs, saved.attemptId)|
    ensures Checkpointed(saved, saved.attemptId, batch, EndOf(batch) + 1) == Some(Pruned(hs, saved, EndOf(batch)))
  {
    HistorySequenced(places, s, hs, saved.attemptId);
    OutboxIsTail(s, hs, saved);
    CheckpointPrunes(saved, Hist(hs, saved.attemptId), Acked(saved, hs), batch);
  }

  lemma {:induction false} OutboxIsTail(s: Session, hs: map<Id, seq<Event>>, saved: Saved)
    requires PhaseOk(s, hs, saved) && saved.attemptId != ""
    ensures
      && 0 <= Acked(saved, hs) <= |Hist(hs, saved.attemptId)|
      && saved.events == Hist(hs, saved.attemptId)[Acked(saved, hs)..]
  {}

  /** The live outbox is pruned and the page waits for nothing. */
  lemma {:induction false} PrunedIsSafe(frozen: Frozen, w: World, n: nat)
    requires Safe(frozen, w) && w.tab.saved.attemptId != ""
    requires Acked(w.tab.saved, w.histories) <= n <= |Hist(w.histories, w.tab.saved.attemptId)|
    requires Current(w.server, w.tab.saved.attemptId) ==> n <= |w.server.attempts[w.server.index].log|
    ensures Safe(frozen, w.(tab := w.tab.(saved := Pruned(w.histories, w.tab.saved, n)), waiting := Idle))
    ensures Remembered(w.histories, Pruned(w.histories, w.tab.saved, n)) == w.histories
  {
    PruneKeeps(w.server, w.histories, w.tab.saved, w.requests, n);
    NothingNew(EnvOf(frozen, w.server).places, w.server, w.histories, w.tab.saved, n);
  }

  lemma {:induction false} CheckpointReceived(frozen: Frozen, w: World, m: Move)
    requires Safe(frozen, w) && m.Deliver? && Possible(w, m) && w.waiting.ForCheckpoint?
    ensures Safe(frozen, Next(frozen, w, m))
  {
    AwaitedCheckpoint(frozen, w, m.reply.nextSeq);
    CheckpointNoConflict(EnvOf(frozen, w.server).places, w.server, w.histories, w.tab.saved, w.waiting.batch);
    PrunedIsSafe(frozen, w, EndOf(w.waiting.batch));
  }

  // ------------------------------------------------------------ a finish's reply

  lemma {:induction false} FinishReceived(frozen: Frozen, w: World, m: Move)
    requires Safe(frozen, w) && m.Deliver? && Possible(w, m) && w.waiting.ForFinish?
    ensures Safe(frozen, Next(frozen, w, m))
  {
    var s, hs, saved := w.server, w.histories, w.tab.saved;
    assert (w.waiting.n, SessionReply(m.reply.view)) in w.replies;
    var saved' := Saved(s.id, "", 0, [], None, None);
    forall k {:trigger RequestOk(s, hs, saved', w.requests[k])} | 0 <= k < |w.requests|
        ensures RequestOk(s, hs, saved', w.requests[k]) {
      assert RequestOk(s, hs, saved, w.requests[k]);
    }
  }

  // ------------------------------------------------- taking up an attempt again

  /** The outbox and page after the session has been accepted, before the first event
      of this page is recorded: the whole history is restored and replayed. */
  ghost predicate TakenUp(frozen: Frozen, s: Session, hs: map<Id, seq<Event>>, requests: seq<Message>, tab: Tab)
  {
    var h := Hist(hs, tab.saved.attemptId);
    && PhaseOk(s, hs, tab.saved) && RequestsOk(s, hs, tab.saved, requests)
    && tab.saved.attemptId != "" && Current(s, tab.saved.attemptId) && tab.saved.finishCommand.None?
    && !tab.page.conflict && !tab.page.blocked && ValidEpoch(tab.page.epoch) && 0 <= tab.page.lastElapsed
    && tab.page.view.Some?
    && tab.page.view.value.attempt.Some?
    && tab.page.view.value.attempt.value.id == tab.saved.attemptId
    && PlacesOf(tab.page.view.value) == EnvOf(frozen, s).places
    && tab.page.current == Location(h) && tab.page.selected == LiveSelection(h)
    && (h != [] ==> h[0].kind.TreeShown?)
    && (forall i :: 0 <= i < |h| ==> h[i].epoch != tab.page.epoch)
  }

  /** The first event this page records for the attempt. */
  ghost function FirstHere(tab: Tab, h: seq<Event>, stamp: Stamp): Event
  {
    if h == [] then MakeEvent(tab.saved.nextSeq, TreeShown, "", NoOutcome, stamp)
        else MakeEvent(tab.saved.nextSeq, Resume, tab.page.current, NoOutcome, stamp)
  }

  lemma {:induction false} FirstFits(frozen: Frozen, s: Session, hs: map<Id, seq<Event>>, requests: seq<Message>,
                                     tab: Tab, stamp: Stamp)
    requires
      && Sound(EnvOf(frozen, s).places)
      && HistoriesOk(EnvOf(frozen, s).places, s, hs)
      && TakenUp(frozen, s, hs, requests, tab)
    requires ProperStamp(stamp) && stamp.epoch == tab.page.epoch && IdNeverUsed(hs, stamp.id)
    ensures var h := Hist(hs, tab.saved.attemptId); Fitting(EnvOf(frozen, s).places, h, FirstHere(tab, h, stamp), stamp)
  {
    var h := Hist(hs, tab.saved.attemptId);
    HistorySequenced(EnvOf(frozen, s).places, s, hs, tab.saved.attemptId);
    LocationKnown(EnvOf(frozen, s).places, h);
    assert h != [] ==> !Last(h).kind.Submit?;
    if h != [] { assert tab.saved.attemptId in hs; }
  }

  lemma {:induction false} FirstFollows(frozen: Frozen, s: Session, hs: map<Id, seq<Event>>, requests: seq<Message>,
                                        tab: Tab, stamp: Stamp)
    requires Enrolled(frozen, s) && HistoriesOk(EnvOf(frozen, s).places, s, hs) && TakenUp(frozen, s, hs, requests, tab)
    requires ProperStamp(stamp) && stamp.epoch == tab.page.epoch && IdNeverUsed(hs, stamp.id)
    ensures var h := Hist(hs, tab.saved.attemptId); var e := FirstHere(tab, h, stamp);
            e.seqNo == |h| + 1 && Storable(EnvOf(frozen, s).places, h + [e]) && NoSubmit(h)
  {
    var h := Hist(hs, tab.saved.attemptId);
    SoundEnv(frozen, s);
    FirstFits(frozen, s, hs, requests, tab, stamp);
    FittingFollows(EnvOf(frozen, s).places, h, FirstHere(tab, h, stamp), stamp);
  }

  /** The first event leaves the place and the selection where they were. */
  lemma {:induction false} FirstStays(tab: Tab, h: seq<Event>, stamp: Stamp)
    ensures var e := FirstHere(tab, h, stamp);
            Location(h + [e]) == Location(h) && LiveSelection(h + [e]) == LiveSelection(h)
    ensures FirstHere(tab, h, stamp).epoch == stamp.epoch && FirstHere(tab, h, stamp).elapsed == stamp.elapsed
    ensures h == [] ==> FirstHere(tab, h, stamp).kind.TreeShown?
  {
    var e := FirstHere(tab, h, stamp);
    assert (h + [e])[..|h|] == h && Last(h + [e]) == e;
  }

  lemma {:induction false} LivePage(frozen: Frozen, s: Session, hs: map<Id, seq<Event>>, requests: seq<Message>,
                                    tab: Tab, stamp: Stamp, hs': map<Id, seq<Event>>, saved': Saved)
    requires
      && TakenUp(frozen, s, hs, requests, tab)
      && tab.saved.startCommand.None?
      && 0 <= stamp.elapsed
      && stamp.epoch == tab.page.epoch
    requires Grows(s, hs, tab.saved, hs', saved', FirstHere(tab, Hist(hs, tab.saved.attemptId), stamp))
    requires saved'.finishCommand.None? && saved'.startCommand.None?
    ensures PageOk(frozen, s, hs', saved', tab.page.(active := true, lastElapsed := stamp.elapsed))
  {
    var h := Hist(hs, tab.saved.attemptId);
    var e := FirstHere(tab, h, stamp);
    FirstStays(tab, h, stamp);
    assert Hist(hs', saved'.attemptId) == h + [e];
    assert Last(h + [e]) == e && (h + [e])[0] == if h == [] then e else h[0];
  }

  ghost function LiveTab(tab: Tab, e: Event, stamp: Stamp): Tab
  {
    Tab(tab.saved.(events := tab.saved.events + [e], nextSeq := tab.saved.nextSeq + 1),
        tab.page.(active := true, lastElapsed := stamp.elapsed))
  }

  lemma {:induction false} LiveParts(frozen: Frozen, s: Session, hs: map<Id, seq<Event>>, requests: seq<Message>,
                                     tab: Tab, stamp: Stamp)
    requires Enrolled(frozen, s) && Progress(s) && HistoriesOk(EnvOf(frozen, s).places, s, hs)
    requires TakenUp(frozen, s, hs, requests, tab) && tab.saved.startCommand.None?
    requires ProperStamp(stamp) && stamp.epoch == tab.page.epoch && IdNeverUsed(hs, stamp.id)
    ensures var live := LiveTab(tab, FirstHere(tab, Hist(hs, tab.saved.attemptId), stamp), stamp);
            var hs' := Remembered(hs, live.saved);
            && HistoriesOk(EnvOf(frozen, s).places, s, hs') && PhaseOk(s, hs', live.saved)
            && RequestsOk(s, hs', live.saved, requests) && PageOk(frozen, s, hs', live.saved, live.page)
  {
    var e := FirstHere(tab, Hist(hs, tab.saved.attemptId), stamp);
    var saved' := LiveTab(tab, e, stamp).saved;
    var hs' := Remembered(hs, saved');
    FirstFollows(frozen, s, hs, requests, tab, stamp);
    RememberedGrows(s, hs, tab.saved, saved', e);
    HistoriesGrow(EnvOf(frozen, s).places, s, hs, tab.saved, hs', saved', e);
    RequestsGrow(s, hs, tab.saved, hs', saved', e, requests);
    ActPhase(s, hs, tab.saved, hs', saved', e);
    LivePage(frozen, s, hs, requests, tab, stamp, hs', saved');
  }

  /** Recording it makes the page live. */
  lemma {:induction false} GoesLive(frozen: Frozen, w: World, tab: Tab, stamp: Stamp)
    requires Safe(frozen, w) && TakenUp(frozen, w.server, w.histories, w.requests, tab) && tab.saved.startCommand.None?
    requires ProperStamp(stamp) && stamp.epoch == tab.page.epoch && IdNeverUsed(w.histories, stamp.id)
    ensures Safe(frozen, WithTab(w,
                                 LiveTab(tab, FirstHere(tab, Hist(w.histories, tab.saved.attemptId), stamp),
                                         stamp)).(waiting := Idle))
  {
    LiveParts(frozen, w.server, w.histories, w.requests, tab, stamp);
  }
}
