/** Recording one more event keeps a history storable and every invariant intact. */
module NetworkRecording {
  import opened Common
  import opened Trees
  import opened Events
  import opened Append
  import opened EventStore
  import opened Navigation
  import opened Outbox
  import opened Segments
  import opened Sessions
  import opened SessionRuns
  import opened Client
  import opened Network
  import opened NetworkSafety

  lemma {:induction false} StorableExtends(places: Places, h: seq<Event>, e: Event)
    requires
      && Storable(places, h)
      && e.seqNo == |h| + 1
      && !IdUsed(h, e.id)
      && WellShaped(places, e)
      && MayFollow(places, h, e)
    ensures Storable(places, h + [e])
  {
    ValidExtend(places, h, e);
    forall i | 0 <= i < |h + [e]| ensures WellShaped(places, (h + [e])[i]) {
      assert i < |h| ==> WellShaped(places, h[i]);
    }
    assert forall i :: 0 <= i < |h| ==> h[i].id != e.id;
  }

  lemma {:induction false} EpochFollows(h: seq<Event>, e: Event)
    requires OneBlockPerEpoch(h)
    requires (h != [] && Last(h).epoch == e.epoch) || (forall i :: 0 <= i < |h| ==> h[i].epoch != e.epoch)
    ensures OneBlockPerEpoch(h + [e])
  {
    BlocksExtend(h, e, set i | 0 <= i < |h| :: h[i].epoch);
  }

  lemma {:induction false} StampedIsShaped(places: Places, e: Event, stamp: Stamp)
    requires
      && ProperStamp(stamp)
      && e.id == stamp.id
      && e.elapsed == stamp.elapsed
      && e.epoch == stamp.epoch
      && e.visible == Some(stamp.visible)
    requires !e.kind.UnlistedKind? && NamesKnownNode(places, e) && "" !in places
    requires e.seqNo == 1 ==> e.kind.TreeShown? || (e.kind.Submit? && e.outcome.Skipped?)
    requires e.kind.Hidden? ==> !stamp.visible
    requires e.kind.Visible? ==> stamp.visible
    requires if e.kind.Submit? then e.outcome.Selected? || e.outcome.GaveUp? || e.outcome.Skipped?
             else e.outcome.NoOutcome?
    ensures WellShaped(places, e)
  {}

  /** One more event, stamped by the page, that fits the end of a storable history. */
  ghost predicate Fitting(places: Places, h: seq<Event>, e: Event, stamp: Stamp)
  {
    && Storable(places, h)
    && (h != [] ==> !Last(h).kind.Submit?)
    && e.seqNo == |h| + 1
    && ProperStamp(stamp)
    && !IdUsed(h, stamp.id)
    && e == MakeEvent(e.seqNo, e.kind, e.nodeId, e.outcome, stamp)
    && !e.kind.UnlistedKind? && NamesKnownNode(places, e) && NavOk(places, Location(h), e)
    && (h == [] ==> e.kind.TreeShown? || (e.kind.Submit? && e.outcome.Skipped?)) && (e.kind.TreeShown? ==> h == [])
    && (e.kind.Hidden? ==> !stamp.visible) && (e.kind.Visible? ==> stamp.visible)
    && (if e.kind.Submit? then e.outcome.Selected? || e.outcome.GaveUp? || e.outcome.Skipped? else e.outcome.NoOutcome?)
    && (|| (h != [] && Last(h).epoch == e.epoch && Last(h).elapsed <= e.elapsed)
        || ((forall i :: 0 <= i < |h| ==> h[i].epoch != e.epoch) && (h != [] ==> e.kind.Resume?)))
  }

  lemma {:induction false} FittingFollows(places: Places, h: seq<Event>, e: Event, stamp: Stamp)
    requires "" !in places && Fitting(places, h, e, stamp)
    ensures Storable(places, h + [e])
  {
    StampedIsShaped(places, e, stamp);
    EpochFollows(h, e);
    StorableExtends(places, h, e);
  }

  /** The recorded history of one attempt grows by the event just put in the outbox. */
  ghost predicate Grows(s: Session, hs: map<Id, seq<Event>>, saved: Saved, hs': map<Id, seq<Event>>, saved': Saved,
                        e: Event)
  {
    && saved.attemptId != "" && saved'.attemptId == saved.attemptId && Current(s, saved.attemptId)
    && saved'.events == saved.events + [e] && saved'.nextSeq == saved.nextSeq + 1
    && hs' == hs[saved.attemptId := Hist(hs, saved.attemptId) + [e]]
  }

  lemma {:induction false} RememberedGrows(s: Session, hs: map<Id, seq<Event>>, saved: Saved, saved': Saved, e: Event)
    requires saved.attemptId != "" && saved'.attemptId == saved.attemptId && Current(s, saved.attemptId)
    requires
      && saved'.events == saved.events + [e]
      && saved'.nextSeq == saved.nextSeq + 1
      && e.seqNo == |Hist(hs, saved.attemptId)| + 1
    ensures Grows(s, hs, saved, Remembered(hs, saved'), saved', e)
  {
    assert Last(saved'.events) == e;
  }

  lemma {:induction false} HistoriesGrow(places: Places, s: Session, hs: map<Id, seq<Event>>, saved: Saved,
                                         hs': map<Id, seq<Event>>, saved': Saved, e: Event)
    requires HistoriesOk(places, s, hs) && Grows(s, hs, saved, hs', saved', e) && Progress(s)
    requires Storable(places, Hist(hs, saved.attemptId) + [e])
    ensures HistoriesOk(places, s, hs')
  {
    var a := saved.attemptId;
    RowOfIsUnique(s, s.index);
    forall b | b in hs' ensures HistoryOk(places, s, hs', b) {
      assert b != a ==> HistoryOk(places, s, hs, b);
    }
    forall i | 0 <= i < |s.attempts| ensures LogOk(s, hs', i) {
      assert LogOk(s, hs, i) && RowOk(s, i);
    }
  }

  lemma {:induction false} SegmentGrows(s: Session, hs: map<Id, seq<Event>>, saved: Saved, hs': map<Id, seq<Event>>,
                                        saved': Saved, e: Event, a: Id, batch: seq<Event>)
    requires Grows(s, hs, saved, hs', saved', e) && Segment(s, hs, a, batch)
    ensures Segment(s, hs', a, batch)
  {
    var h, h' := Hist(hs, a), Hist(hs', a);
    assert h <= h';
    assert h'[batch[0].seqNo - 1..EndOf(batch)] == h[batch[0].seqNo - 1..EndOf(batch)];
  }

  lemma {:induction false} RequestsGrow(s: Session, hs: map<Id, seq<Event>>, saved: Saved, hs': map<Id, seq<Event>>,
                                        saved': Saved, e: Event, requests: seq<Message>)
    requires RequestsOk(s, hs, saved, requests) && Grows(s, hs, saved, hs', saved', e) && Progress(s)
    requires saved.finishCommand.None?
    requires saved'.startCommand == saved.startCommand
             || (saved'.startCommand.None? && saved.startCommand.value.taskId == PublicId(s, s.index))
    ensures RequestsOk(s, hs', saved', requests)
  {
    assert RowOk(s, s.index);
    assert Acked(saved', hs') == Acked(saved, hs);
    forall n {:trigger RequestOk(s, hs', saved', requests[n])} | 0 <= n < |requests|
        ensures RequestOk(s, hs', saved', requests[n]) {
      assert RequestOk(s, hs, saved, requests[n]);
      if requests[n].PostEvents? {
        SegmentGrows(s, hs, saved, hs', saved', e, requests[n].attemptId, requests[n].events);
      }
    }
  }

  // ------------------------------------------------------------------- an action

  ghost function ActionOf(w: World, m: Move): Event
    requires m.Act?
  {
    MakeEvent(w.tab.saved.nextSeq, m.kind, m.nodeId, NoOutcome, m.stamp)
  }

  lemma {:induction false} OfferedFits(frozen: Frozen, w: World, m: Move)
    requires Safe(frozen, w) && m.Act? && Possible(w, m)
    ensures Fitting(EnvOf(frozen, w.server).places, Hist(w.histories, w.tab.saved.attemptId), ActionOf(w, m), m.stamp)
  {
    var places, a := EnvOf(frozen, w.server).places, w.tab.saved.attemptId;
    var h := Hist(w.histories, a);
    assert a in w.histories && HistoryOk(places, w.server, w.histories, a);
    assert !Last(h).kind.Submit?;
    NavIgnoresNumber(places, Location(h), MakeEvent(0, m.kind, m.nodeId, NoOutcome, m.stamp), ActionOf(w, m));
  }

  lemma {:induction false} OfferedFollows(frozen: Frozen, w: World, m: Move)
    requires Safe(frozen, w) && m.Act? && Possible(w, m)
    ensures var h, e := Hist(w.histories, w.tab.saved.attemptId), ActionOf(w, m);
            && Storable(EnvOf(frozen, w.server).places, h + [e]) && e.seqNo == |h| + 1
  {
    SoundEnv(frozen, w.server);
    OfferedFits(frozen, w, m);
    FittingFollows(EnvOf(frozen, w.server).places, Hist(w.histories, w.tab.saved.attemptId), ActionOf(w, m), m.stamp);
  }

  lemma {:induction false} NavIgnoresNumber(places: Places, at: Id, e: Event, e': Event)
    requires e.kind == e'.kind && e.nodeId == e'.nodeId && NavOk(places, at, e)
    ensures NavOk(places, at, e')
  {}

  /** A page that waits for a checkpoint, or for nothing, goes on waiting. */
  lemma {:induction false} AwaitGrows(frozen: Frozen, w: World, w': World, e: Event)
    requires AwaitOk(frozen, w) && (w.waiting.Idle? || w.waiting.ForCheckpoint?)
    requires
      && w'.tab.page.blocked == w.tab.page.blocked
      && w'.waiting == w.waiting
      && w'.server == w.server
      && w'.requests == w.requests
      && w'.replies == w.replies
    requires Grows(w.server, w.histories, w.tab.saved, w'.histories, w'.tab.saved, e) && w.tab.saved.finishCommand.None?
    requires w'.tab.saved.finishCommand.Some? ==> NeverSent(w.requests, w'.tab.saved.finishCommand.value)
    ensures AwaitOk(frozen, w')
  {}

  lemma {:induction false} ActPhase(s: Session, hs: map<Id, seq<Event>>, saved: Saved, hs': map<Id, seq<Event>>,
                                    saved': Saved, e: Event)
    requires PhaseOk(s, hs, saved) && Grows(s, hs, saved, hs', saved', e) && !e.kind.Submit?
    requires saved.finishCommand.None? && saved.startCommand.None?
    requires saved' == saved.(events := saved'.events, nextSeq := saved'.nextSeq)
    ensures PhaseOk(s, hs', saved')
  {
    var h := Hist(hs, saved.attemptId);
    assert saved'.events == (h + [e])[Acked(saved, hs)..];
  }

  lemma {:induction false} ActKeeps(frozen: Frozen, w: World, m: Move)
    requires Safe(frozen, w) && m.Act? && Possible(w, m)
    ensures Safe(frozen, Next(frozen, w, m))
  {
    var s, hs, saved := w.server, w.histories, w.tab.saved;
    var w' := Next(frozen, w, m);
    var saved', hs' := w'.tab.saved, w'.histories;
    var h := Hist(hs, saved.attemptId);
    var e := ActionOf(w, m);
    OfferedFollows(frozen, w, m);
    RememberedGrows(s, hs, saved, saved', e);
    HistoriesGrow(EnvOf(frozen, s).places, s, hs, saved, hs', saved', e);
    RequestsGrow(s, hs, saved, hs', saved', e, w.requests);
    ActPhase(s, hs, saved, hs', saved', e);
    AwaitGrows(frozen, w, w', e);
    assert (h + [e])[..|h|] == h;
  }

  // ------------------------------------------------------- confirming a response

  lemma {:induction false} SelectionKnown(places: Places, log: seq<Event>)
    requires Shaped(places, log)
    ensures LiveSelection(log) == "" || LiveSelection(log) in places
  {
    if log != [] {
      ShapedPrefix(places, log, |log| - 1);
      SelectionKnown(places, log[..|log| - 1]);
      assert WellShaped(places, log[|log| - 1]);
      ShapedNamesKnownNode(places, Last(log));
    }
  }

  /** The terminal event that confirming puts last. */
  ghost function Terminal(w: World, m: Move): Event
    requires m.Confirm?
  {
    MakeEvent(w.tab.saved.nextSeq, Submit, if m.outcome.Selected? then w.tab.page.selected else "", m.outcome, m.stamp)
  }

  /** An attempt at hand whose finish is not frozen. */
  ghost predicate Unfrozen(s: Session, hs: map<Id, seq<Event>>, saved: Saved)
  {
    var h := Hist(hs, saved.attemptId);
    && saved.attemptId != "" && Current(s, saved.attemptId) && (saved.sessionId == "" || saved.sessionId == s.id)
    && 0 <= Acked(saved, hs) <= |s.attempts[s.index].log|
    && saved.events == h[Acked(saved, hs)..]
    && NoSubmit(h)
    && saved.nextSeq == |h| + 1
  }

  lemma {:induction false} UnfrozenFacts(s: Session, hs: map<Id, seq<Event>>, saved: Saved)
    requires PhaseOk(s, hs, saved) && saved.attemptId != "" && saved.finishCommand.None?
    ensures Unfrozen(s, hs, saved)
    ensures saved.startCommand.Some? && saved.startCommand.value.skip ==>
              Hist(hs, saved.attemptId) == [] && ProperStamp(saved.startCommand.value.submission)
  {}

  lemma {:induction false} HistoryStands(places: Places, s: Session, hs: map<Id, seq<Event>>, a: Id)
    requires HistoriesOk(places, s, hs)
    ensures Storable(places, Hist(hs, a))
  {
    if a in hs { assert HistoryOk(places, s, hs, a); }
  }

  /** Confirming on a live page. */
  lemma {:induction false} LiveTerminalFits(places: Places, h: seq<Event>, e: Event, stamp: Stamp)
    requires
      && Storable(places, h)
      && h != []
      && NoSubmit(h)
      && "" !in places
      && ProperStamp(stamp)
      && !IdUsed(h, stamp.id)
    requires
      && e == MakeEvent(|h| + 1, Submit, e.nodeId, e.outcome, stamp)
      && (e.outcome.Selected? || e.outcome.GaveUp? || e.outcome.Skipped?)
    requires e.nodeId == "" || e.nodeId == LiveSelection(h)
    requires Last(h).epoch == stamp.epoch && Last(h).elapsed <= stamp.elapsed
    ensures Fitting(places, h, e, stamp)
  {
    SelectionKnown(places, h);
    assert !Last(h).kind.Submit?;
  }

  /** Skipping a task whose tree was never shown. */
  lemma {:induction false} SkipFits(places: Places, e: Event, stamp: Stamp)
    requires ProperStamp(stamp) && e == MakeEvent(1, Submit, "", Skipped, stamp)
    ensures Fitting(places, [], e, stamp)
  {}

  /** What confirming needs of the page and of what is saved. */
  lemma {:induction false} TerminalCases(frozen: Frozen, w: World, m: Move)
    requires Safe(frozen, w) && m.Confirm? && Possible(w, m)
    ensures Unfrozen(w.server, w.histories, w.tab.saved)
    ensures var h := Hist(w.histories, w.tab.saved.attemptId);
            if w.tab.page.active
            then h != [] && Last(h).epoch == m.stamp.epoch && Last(h).elapsed <= m.stamp.elapsed
                && ProperStamp(m.stamp) && !IdUsed(h, m.stamp.id)
                 && w.tab.page.selected == LiveSelection(h) && (m.outcome.Selected? ==> w.tab.page.selected != "")
            else h == [] && ProperStamp(m.stamp) && m.outcome.Skipped?
  {
    UnfrozenFacts(w.server, w.histories, w.tab.saved);
    assert w.tab.page.active ==> w.tab.saved.attemptId in w.histories;
  }

  lemma {:induction false} TerminalFits(frozen: Frozen, w: World, m: Move)
    requires Safe(frozen, w) && m.Confirm? && Possible(w, m)
    ensures Fitting(EnvOf(frozen, w.server).places, Hist(w.histories, w.tab.saved.attemptId), Terminal(w, m), m.stamp)
    ensures "" !in EnvOf(frozen, w.server).places && Unfrozen(w.server, w.histories, w.tab.saved)
    ensures m.outcome.Selected? ==>
              w.tab.page.selected != ""
              && LiveSelection(Hist(w.histories, w.tab.saved.attemptId)) == w.tab.page.selected
  {
    var places, h := EnvOf(frozen, w.server).places, Hist(w.histories, w.tab.saved.attemptId);
    SoundEnv(frozen, w.server);
    TerminalCases(frozen, w, m);
    HistoryStands(places, w.server, w.histories, w.tab.saved.attemptId);
    if w.tab.page.active {
      LiveTerminalFits(places, h, Terminal(w, m), m.stamp);
    } else {
      SkipFits(places, Terminal(w, m), m.stamp);
    }
  }

  lemma {:induction false} TerminalFollows(frozen: Frozen, w: World, m: Move)
    requires Safe(frozen, w) && m.Confirm? && Possible(w, m)
    ensures var h, e := Hist(w.histories, w.tab.saved.attemptId), Terminal(w, m);
            && Current(w.server, w.tab.saved.attemptId) && w.tab.saved.attemptId != ""
            && Storable(EnvOf(frozen, w.server).places, h + [e]) && e.seqNo == |h| + 1
            && (m.outcome.Selected? ==> e.nodeId != "" && LiveSelection(h) == e.nodeId)
  {
    TerminalFits(frozen, w, m);
    FittingFollows(EnvOf(frozen, w.server).places, Hist(w.histories, w.tab.saved.attemptId), Terminal(w, m), m.stamp);
  }

  /** A command that freezes the end of what was just recorded. */
  ghost predicate Freezes(s: Session, hs: map<Id, seq<Event>>, saved: Saved, saved': Saved, e: Event, c: FinishCommand)
  {
    && e.kind.Submit? && e.outcome == c.outcome && e.nodeId == c.nodeId && c.attemptId == saved.attemptId
    && (c.outcome.Selected? || c.outcome.GaveUp? || c.outcome.Skipped?)
    && (c.outcome.Selected? ==> c.nodeId != "" && LiveSelection(Hist(hs, saved.attemptId)) == c.nodeId)
    && (!c.outcome.Selected? ==> c.nodeId == "")
    && ValidCommandId(c.commandId)
    && (forall r :: r in s.receipts ==> r.commandId != c.commandId)
    && Current(s, saved.attemptId) && s.attempts[s.index].log <= Hist(hs, saved.attemptId)
    && saved'.finishCommand == Some(c) && saved'.startCommand == None && saved'.sessionId == saved.sessionId
  }

  /** The outbox after the terminal event is still the tail of the history. */
  lemma {:induction false} ConfirmTail(s: Session, hs: map<Id, seq<Event>>, saved: Saved, hs': map<Id, seq<Event>>,
                                       saved': Saved, e: Event)
    requires Grows(s, hs, saved, hs', saved', e)
    requires 0 <= Acked(saved, hs) && saved.events == Hist(hs, saved.attemptId)[Acked(saved, hs)..]
    ensures Hist(hs', saved'.attemptId) == Hist(hs, saved.attemptId) + [e] && Acked(saved', hs') == Acked(saved, hs)
    ensures saved'.events == Hist(hs', saved.attemptId)[Acked(saved, hs)..]
  {
    FrozenTail(Hist(hs, saved.attemptId), e, Acked(saved, hs));
  }

  /** What makes a newly frozen command fit what the server has. */
  ghost predicate Ready(s: Session, hs: map<Id, seq<Event>>, saved: Saved, c: FinishCommand)
    requires s.index < |s.attempts|
  {
    var h := Hist(hs, saved.attemptId);
    && saved.attemptId != ""
    && saved.finishCommand == Some(c)
    && saved.startCommand.None?
    && (saved.sessionId == "" || saved.sessionId == s.id)
    && 0 <= Acked(saved, hs) <= |s.attempts[s.index].log| < |h|
    && saved.events == h[Acked(saved, hs)..]
    && saved.nextSeq == |h| + 1
    && FrozenFrom(h, c) && c.attemptId == saved.attemptId && ValidCommandId(c.commandId)
    && (forall r :: r in s.receipts ==> r.commandId != c.commandId)
  }

  lemma {:induction false} ReadyIsOk(s: Session, hs: map<Id, seq<Event>>, saved: Saved, c: FinishCommand)
    requires Current(s, saved.attemptId) && Ready(s, hs, saved, c)
    ensures PhaseOk(s, hs, saved)
  {
    ConfirmReceipts(s, saved, saved, c);
  }

  lemma {:induction false} FreezesTail(s: Session, hs: map<Id, seq<Event>>, saved: Saved, saved': Saved, e: Event,
                                       c: FinishCommand)
    requires Freezes(s, hs, saved, saved', e, c) && saved'.events == saved.events + [e] && Unfrozen(s, hs, saved)
    requires c.events == LastOf(saved'.events, MAX_EVENT_BATCH)
    ensures FrozenFrom(Hist(hs, saved.attemptId) + [e], c)
  {
    FreezesEnd(Hist(hs, saved.attemptId), e, Acked(saved, hs), c);
  }

  lemma {:induction false} ConfirmReceipts(s: Session, saved: Saved, saved': Saved, c: FinishCommand)
    requires forall r :: r in s.receipts ==> r.commandId != c.commandId
    ensures FinishReceiptsOk(s, saved', c)
  {}

  lemma {:induction false} FreezesEnd(h: seq<Event>, e: Event, p: nat, c: FinishCommand)
    requires p <= |h| && NoSubmit(h) && e.kind.Submit? && e.outcome == c.outcome && e.nodeId == c.nodeId
    requires c.outcome.Selected? || c.outcome.GaveUp? || c.outcome.Skipped?
    requires if c.outcome.Selected? then c.nodeId != "" && LiveSelection(h) == c.nodeId else c.nodeId == ""
    requires c.events == LastOf(h[p..] + [e], MAX_EVENT_BATCH)
    ensures FrozenFrom(h + [e], c)
  {
    FrozenTail(h, e, p);
  }

  lemma {:induction false} ConfirmPhase(s: Session, hs: map<Id, seq<Event>>, saved: Saved, hs': map<Id, seq<Event>>,
                                        saved': Saved, e: Event, c: FinishCommand)
    requires Unfrozen(s, hs, saved) && Grows(s, hs, saved, hs', saved', e) && Freezes(s, hs, saved, saved', e, c)
    requires FrozenFrom(Hist(hs, saved.attemptId) + [e], c)
    ensures PhaseOk(s, hs', saved')
  {
    ConfirmTail(s, hs, saved, hs', saved', e);
    ReadyIsOk(s, hs', saved', c);
  }

  /** The frozen events are the end of the history with its terminal event. */
  lemma {:induction false} FrozenTail(h: seq<Event>, e: Event, p: nat)
    requires p <= |h|
    ensures var all, tail := h + [e], LastOf(h[p..] + [e], MAX_EVENT_BATCH);
            && h[p..] + [e] == all[p..] && all[..|all| - 1] == h && Last(all) == e
            && 0 < |tail| <= |all| && |tail| <= MAX_EVENT_BATCH && tail == all[|all| - |tail|..]
  {}

  lemma {:induction false} ConfirmKeeps(frozen: Frozen, w: World, m: Move)
    requires Safe(frozen, w) && m.Confirm? && Possible(w, m)
    ensures Safe(frozen, Next(frozen, w, m))
  {
    var s, hs, saved := w.server, w.histories, w.tab.saved;
    var w' := Next(frozen, w, m);
    var saved', hs' := w'.tab.saved, w'.histories;
    var e, c := Terminal(w, m), saved'.finishCommand.value;
    TerminalFollows(frozen, w, m);
    RememberedGrows(s, hs, saved, saved', e);
    HistoriesGrow(EnvOf(frozen, s).places, s, hs, saved, hs', saved', e);
    RequestsGrow(s, hs, saved, hs', saved', e, w.requests);
    assert LogOk(s, hs, s.index);
    UnfrozenFacts(s, hs, saved);
    FreezesTail(s, hs, saved, saved', e, c);
    ConfirmPhase(s, hs, saved, hs', saved', e, c);
    NewCommandNeverSent(s, hs, saved, w.requests, c);
    AwaitGrows(frozen, w, w', e);
  }

  lemma {:induction false} NewCommandNeverSent(s: Session, hs: map<Id, seq<Event>>, saved: Saved,
                                               requests: seq<Message>, c: FinishCommand)
    requires Progress(s) && RequestsOk(s, hs, saved, requests) && saved.finishCommand.None?
    requires Current(s, saved.attemptId) && c.attemptId == saved.attemptId
    ensures NeverSent(requests, c)
  {
    forall n | 0 <= n < |requests| ensures requests[n] != PostFinish(c) {
      assert RequestOk(s, hs, saved, requests[n]);
    }
  }
}
