/** What the recorded events say: the number, the stamp, and what the participant did. */
module NetworkTelling {
  import opened Common
  import opened Trees
  import opened Events
  import opened Append
  import opened Navigation
  import opened Outbox
  import opened Sessions
  import opened SessionRuns
  import opened Client
  import opened Network
  import opened NetworkSafety
  import opened NetworkRecording
  import opened NetworkSending
  import opened NetworkReceiving
  import opened NetworkAccepting
  import opened NetworkRuns
  import opened NetworkMemory

  ghost predicate Stamped(e: Event, stamp: Stamp)
  {
    e.id == stamp.id && e.elapsed == stamp.elapsed && e.epoch == stamp.epoch && e.visible == Some(stamp.visible)
  }

  /** After this history, the event is the next, carries the stamp of the move, and says
      what was done: an action and its node, a response with the page selected, or that
      the page shows the tree for the first time or again, and where. */
  ghost predicate Tells(h: seq<Event>, m: Move, e: Event)
  {
    && e.seqNo == |h| + 1
    && match m
       case Act(kind, nodeId, stamp) =>
         Stamped(e, stamp) && e.kind == kind && e.nodeId == nodeId && e.outcome == NoOutcome
       case Confirm(_, outcome, stamp) =>
         && Stamped(e, stamp) && e.kind == Submit && e.outcome == outcome
         && (outcome == Selected ==> e.nodeId != "" && e.nodeId == LiveSelection(h))
         && (outcome != Selected ==> e.nodeId == "")
       case Deliver(_, stamp) =>
         && Stamped(e, stamp) && e.outcome == NoOutcome
         && if h == [] then e.kind == TreeShown && e.nodeId == "" else e.kind == Resume && e.nodeId == Location(h)
       case _ => false
  }

  lemma {:induction false} FirstTells(frozen: Frozen, w: World, tab: Tab, m: Move)
    requires Safe(frozen, w) && TakenUp(frozen, w.server, w.histories, w.requests, tab) && m.Deliver?
    requires ProperStamp(m.stamp) && m.stamp.epoch == tab.page.epoch && IdNeverUsed(w.histories, m.stamp.id)
    ensures var h := Hist(w.histories, tab.saved.attemptId); Tells(h, m, FirstHere(tab, h, m.stamp))
  {
    FirstFollows(frozen, w.server, w.histories, w.requests, tab, m.stamp);
  }

  lemma {:induction false} StartTells(frozen: Frozen, w: World, m: Move)
    requires Safe(frozen, w) && m.Deliver? && Possible(w, m) && w.waiting.ForStart?
    requires EventOf(frozen, w, m).Some?
    ensures var u := Next(frozen, w, m); Tells(Hist(w.histories, u.tab.saved.attemptId), m, EventOf(frozen, w, m).value)
  {
    var v, skip := m.reply.view, w.tab.saved.startCommand.value.skip;
    StartFacts(frozen, w, v);
    FreshTakenUp(frozen, w, v);
    FreshAccepted(w.tab, v, skip, m.stamp);
    if !skip { FirstTells(frozen, w, FreshTab(w.tab, v, false), m); }
  }

  /** The tab after the reply: restored, and live with its first event. */
  lemma {:induction false} ResumedTab(frozen: Frozen, w: World, m: Move)
    requires Safe(frozen, w) && m.Deliver? && Possible(w, m) && w.waiting.ForSession?
    requires Resumes(frozen, w, m.reply.view)
    ensures m.reply.view.attempt.Some?
    ensures var h := Hist(w.histories, w.tab.saved.attemptId);
            && |m.reply.view.attempt.value.events| <= |h|
            && var taken := RestoredTab(w.tab, m.reply.view, h, |m.reply.view.attempt.value.events|);
            && taken.saved.attemptId == w.tab.saved.attemptId
            && Next(frozen, w, m).tab == LiveTab(taken, FirstHere(taken, h, m.stamp), m.stamp)
            && TakenUp(frozen, w.server, w.histories, w.requests, taken)
  {
    ResumeFacts(frozen, w, m.reply.view);
    RestoredTakenUp(frozen, w, m.reply.view);
    ResumeRecovers(frozen, w, m.reply.view, m.stamp);
  }

  lemma {:induction false} ResumeTells(frozen: Frozen, w: World, m: Move)
    requires Safe(frozen, w) && m.Deliver? && Possible(w, m) && w.waiting.ForSession?
    requires Resumes(frozen, w, m.reply.view)
    ensures EventOf(frozen, w, m).Some? ==>
              var u := Next(frozen, w, m);
              Tells(Hist(w.histories, u.tab.saved.attemptId), m, EventOf(frozen, w, m).value)
  {
    ResumedTab(frozen, w, m);
    var h := Hist(w.histories, w.tab.saved.attemptId);
    FirstTells(frozen, w, RestoredTab(w.tab, m.reply.view, h, |m.reply.view.attempt.value.events|), m);
  }

  lemma {:induction false} FetchTellsNothing(frozen: Frozen, w: World, m: Move)
    requires
      && Safe(frozen, w)
      && m.Deliver?
      && Possible(w, m)
      && w.waiting.ForSession?
      && !Resumes(frozen, w, m.reply.view)
    ensures EventOf(frozen, w, m).None?
  {
    var v := m.reply.view;
    assert SnapshotOk(frozen, w.server, w.histories, w.tab.saved, v);
    if ForTheFrozen(w, v) { FrozenPrunes(frozen, w, v, m.stamp); }
  }

  lemma {:induction false} CheckpointTellsNothing(frozen: Frozen, w: World, m: Move)
    requires Safe(frozen, w) && m.Deliver? && Possible(w, m) && w.waiting.ForCheckpoint?
    ensures EventOf(frozen, w, m).None?
  {
    AwaitedCheckpoint(frozen, w, m.reply.nextSeq);
    CheckpointNoConflict(EnvOf(frozen, w.server).places, w.server, w.histories, w.tab.saved, w.waiting.batch);
  }

  lemma {:induction false} FinishTellsNothing(frozen: Frozen, w: World, m: Move)
    requires Safe(frozen, w) && m.Deliver? && Possible(w, m) && w.waiting.ForFinish?
    ensures EventOf(frozen, w, m).None?
  {
    AwaitedFinish(frozen, w, m.reply.view);
  }

  lemma {:induction false} ConfirmTells(frozen: Frozen, w: World, m: Move)
    requires Safe(frozen, w) && Possible(w, m) && m.Confirm?
    ensures Tells(Hist(w.histories, w.tab.saved.attemptId), m, Terminal(w, m))
    ensures Next(frozen, w, m).tab.saved.attemptId == w.tab.saved.attemptId
  {
    TerminalFollows(frozen, w, m);
  }

  lemma {:induction false} ActTells(frozen: Frozen, w: World, m: Move)
    requires Safe(frozen, w) && Possible(w, m) && m.Act?
    ensures Tells(Hist(w.histories, w.tab.saved.attemptId), m, ActionOf(w, m))
    ensures Next(frozen, w, m).tab.saved.attemptId == w.tab.saved.attemptId
  {
    OfferedFollows(frozen, w, m);
  }

  /** From every safe state: an event that a move records says what the move was. */
  lemma {:induction false} RecordedTells(frozen: Frozen, w: World, m: Move)
    requires Safe(frozen, w) && Possible(w, m) && EventOf(frozen, w, m).Some?
    ensures Tells(Hist(w.histories, Next(frozen, w, m).tab.saved.attemptId), m, EventOf(frozen, w, m).value)
  {
    if m.Act? {
      ActTells(frozen, w, m);
    } else if m.Confirm? {
      ConfirmTells(frozen, w, m);
    } else if w.waiting.ForStart? {
      StartTells(frozen, w, m);
    } else if w.waiting.ForSession? {
      if Resumes(frozen, w, m.reply.view) { ResumeTells(frozen, w, m); } else { FetchTellsNothing(frozen, w, m); }
    } else if w.waiting.ForCheckpoint? {
      CheckpointTellsNothing(frozen, w, m);
    } else {
      FinishTellsNothing(frozen, w, m);
    }
  }
}
