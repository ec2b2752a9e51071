/** The two implementations agree: whatever the browser sends, the server takes. */
module NetworkAcceptance {
  import opened Common
  import opened Trees
  import opened Events
  import opened Append
  import opened EventStore
  import opened Navigation
  import opened Segments
  import opened Sessions
  import opened SessionRuns
  import opened Client
  import opened Network
  import opened NetworkSafety
  import opened NetworkSending
  import opened NetworkCommands

  /** Whenever a checkpoint of a single-tab client reaches the server while its attempt
      is open, however late and whatever else has arrived, the server accepts it unless
      a size limit is in the way: navigation, clocks, numbers and identities never are. */
  lemma {:induction false} CheckpointIsAccepted(frozen: Frozen, w: World, n: nat, runBytes: nat)
    requires Safe(frozen, w) && n < |w.requests| && w.requests[n].PostEvents? && runBytes <= MAX_RUN_BYTES
    requires var s, r := w.server, w.requests[n];
             var k, h := RowOf(s.attempts, r.attemptId), Hist(w.histories, r.attemptId);
             k < |s.attempts| && r.events != [] && |s.attempts[k].log| < EndOf(r.events) <= |h| ==>
               && EndOf(r.events) <= MAX_EVENTS_PER_ATTEMPT
               && BudgetProblem(AttemptLedger(s, k, runBytes),
                                Bytes(frozen.size, h[|s.attempts[k].log|..EndOf(r.events)])) == None
    ensures SendEvents(frozen, w.server, runBytes, w.requests[n].attemptId, w.requests[n].events).Ok?
  {
    var s, hs, a, batch := w.server, w.histories, w.requests[n].attemptId, w.requests[n].events;
    assert RequestOk(s, hs, w.tab.saved, w.requests[n]);
    var k := RowOf(s.attempts, a);
    assert LogOk(s, hs, k) && RowOk(s, k);
    StretchHasNoSubmit(Hist(hs, a), batch, batch[0].seqNo - 1, EndOf(batch));
    SegmentIsTaken(frozen, s, hs, a, k, batch, None, runBytes);
  }

  lemma {:induction false} StretchHasNoSubmit(h: seq<Event>, batch: seq<Event>, from: nat, to: nat)
    requires from <= to <= |h| && batch == h[from..to] && NoSubmit(batch)
    ensures forall i :: from <= i < to ==> !h[i].kind.Submit?
  {
    forall i | from <= i < to ensures !h[i].kind.Submit? { assert batch[i - from] == h[i]; }
  }

  /** A batch is a stretch of the history that starts within the stored log, on an attempt
      with room for it, and only a finish carries the submit. */
  ghost predicate Fits(env: Env, l: Ledger, h: seq<Event>, batch: seq<Event>, terminal: bool)
    requires l.log <= h
  {
    batch != [] &&
    var from := batch[0].seqNo - 1;
    && 0 <= from <= |l.log| && EndOf(batch) <= |h| && batch == h[from..EndOf(batch)]
    && (forall i :: from <= i < EndOf(batch) && h[i].kind.Submit? ==> terminal && i == EndOf(batch) - 1)
    && (|l.log| < EndOf(batch) ==> l.open)
    && RoomFor(env, l, h, EndOf(batch))
  }

  lemma {:induction false} FittingIsCommitted(env: Env, l: Ledger, h: seq<Event>, batch: seq<Event>, terminal: bool)
    requires Sound(env.places) && Committed(env, l) && l.log <= h && Storable(env.places, h)
    requires Fits(env, l, h, batch, terminal)
    ensures Commit(env, l, batch, terminal).Ok?
    ensures Commit(env, l, batch, terminal).value.log == h[..Max(|l.log|, EndOf(batch))]
  {
    SegmentAccepted(env, l, h, batch[0].seqNo - 1, EndOf(batch), terminal);
  }

  lemma {:induction false} SegmentIsCommitted(frozen: Frozen, s: Session, hs: map<Id, seq<Event>>, a: Id, k: nat,
                                              batch: seq<Event>, terminal: bool, runBytes: nat)
    requires Invariant(frozen, s) && HistoriesOk(EnvOf(frozen, s).places, s, hs) && runBytes <= MAX_RUN_BYTES
    requires k < |s.attempts| && s.attempts[k].id == a && s.attempts[k].log <= Hist(hs, a)
    requires Fits(EnvOf(frozen, s), AttemptLedger(s, k, runBytes), Hist(hs, a), batch, terminal)
    ensures var r := Commit(EnvOf(frozen, s), AttemptLedger(s, k, runBytes), batch, terminal);
            && r.Ok? && r.value.attemptBytes >= s.attempts[k].bytes
            && r.value.log == Hist(hs, a)[..Max(|s.attempts[k].log|, EndOf(batch))]
  {
    SoundEnv(frozen, s);
    LedgerCommitted(frozen, s, runBytes, k);
    HistorySequenced(EnvOf(frozen, s).places, s, hs, a);
    FittingIsCommitted(EnvOf(frozen, s), AttemptLedger(s, k, runBytes), Hist(hs, a), batch, terminal);
  }

  /** Such a batch is stored. */
  lemma {:induction false} SegmentIsTaken(frozen: Frozen, s: Session, hs: map<Id, seq<Event>>, a: Id, k: nat,
                                          batch: seq<Event>, choice: Option<Choice>, runBytes: nat)
    requires Invariant(frozen, s) && HistoriesOk(EnvOf(frozen, s).places, s, hs) && runBytes <= MAX_RUN_BYTES
    requires k < |s.attempts| && s.attempts[k].id == a && s.attempts[k].log <= Hist(hs, a)
    requires RequestProblem(batch, choice) == None
    requires Fits(EnvOf(frozen, s), AttemptLedger(s, k, runBytes), Hist(hs, a), batch, choice.Some?)
    ensures AppendTo(frozen, s, runBytes, k, batch, choice).Ok?
    ensures AppendTo(frozen, s, runBytes, k, batch, choice).value.attempts[k].log ==
            Hist(hs, a)[..Max(|s.attempts[k].log|, EndOf(batch))]
  {
    SegmentIsCommitted(frozen, s, hs, a, k, batch, choice.Some?, runBytes);
    CommittedIsAppended(frozen, s, runBytes, k, batch, choice);
  }

  lemma {:induction false} CommittedIsAppended(frozen: Frozen, s: Session, runBytes: nat, k: nat, batch: seq<Event>,
                                               choice: Option<Choice>)
    requires
      && k < |s.attempts|
      && RequestProblem(batch, choice) == None
      && Commit(EnvOf(frozen, s), AttemptLedger(s, k, runBytes), batch, choice.Some?).Ok?
    requires Commit(EnvOf(frozen, s), AttemptLedger(s, k, runBytes), batch,
                    choice.Some?).value.attemptBytes >= s.attempts[k].bytes
    ensures AppendTo(frozen, s, runBytes, k, batch, choice).Ok?
    ensures AppendTo(frozen, s, runBytes, k, batch, choice).value.attempts[k].log ==
            Commit(EnvOf(frozen, s), AttemptLedger(s, k, runBytes), batch, choice.Some?).value.log
  {}

  /** A frozen command is numbered as the end of its history, and is its own choice. */
  lemma {:induction false} FrozenFitsRequest(h: seq<Event>, c: FinishCommand)
    requires Sequenced(h) && FrozenFrom(h, c)
    ensures RequestProblem(c.events, Some(Choice(c.outcome, c.nodeId))) == None
    ensures
      && c.events[0].seqNo - 1 == |h| - |c.events|
      && EndOf(c.events) == |h|
      && c.events == h[c.events[0].seqNo - 1..EndOf(c.events)]
    ensures forall i :: 0 <= i < |h| && h[i].kind.Submit? ==> i == |h| - 1
  {
    var from := |h| - |c.events|;
    assert c.events[0] == h[from] && Last(c.events) == Last(h);
    assert h[from..] == h[from..|h|];
    assert forall i :: 0 <= i < |h| - 1 ==> h[..|h| - 1][i] == h[i];
  }

  /** A page selected on a storable history is a page of the server's menu. */
  lemma {:induction false} SelectionIsSelectable(places: Places, log: seq<Event>)
    requires Shaped(places, log) && LiveSelection(log) != ""
    ensures LiveSelection(log) in places && places[LiveSelection(log)].node.selectable
  {
    assert WellShaped(places, log[|log| - 1]);
    if !Last(log).kind.Select? {
      ShapedPrefix(places, log, |log| - 1);
      SelectionIsSelectable(places, log[..|log| - 1]);
    }
  }

  lemma {:induction false} SelectionHasContent(frozen: Frozen, s: Session, log: seq<Event>, outcome: Outcome,
                                               nodeId: Id)
    requires Enrolled(frozen, s) && Shaped(EnvOf(frozen, s).places, log)
    requires outcome.Selected? ==> nodeId != "" && LiveSelection(log) == nodeId
    ensures SelectionProblem(frozen, s, log, outcome, nodeId) == None
  {
    if outcome.Selected? {
      SelectionIsSelectable(EnvOf(frozen, s).places, log);
      IndexesAreSound(Menu(frozen, s), s.nodes);
      var index := IndexNodes(Menu(frozen, s), s.nodes, "");
      assert nodeId in index && AgreeAt(index[nodeId], EnvOf(frozen, s).places[nodeId]);
    }
  }

  lemma {:induction false} FrozenIsFresh(frozen: Frozen, w: World, c: FinishCommand, now: int)
    requires Safe(frozen, w) && w.tab.saved.finishCommand == Some(c) && Current(w.server, c.attemptId)
    ensures forall r :: r in w.server.receipts ==> r.commandId != c.commandId
    ensures FindReceipt(w.server, c.commandId, FrozenRequest(c), now) == Ok(Fresh(w.server))
  {}

  /** What the invariants say of a frozen command that may still take effect. */
  lemma {:induction false} FrozenFacts(frozen: Frozen, w: World, c: FinishCommand)
    requires Safe(frozen, w) && w.tab.saved.finishCommand == Some(c) && Current(w.server, c.attemptId)
    requires Acked(w.tab.saved, w.histories) >= |Hist(w.histories, c.attemptId)| - |c.events|
    ensures FrozenMeets(frozen, w.server, w.histories, c) && ValidCommandId(c.commandId)
  {
    var s := w.server;
    assert LogOk(s, w.histories, s.index) && RowOk(s, s.index);
    RowOfIsUnique(s, s.index);
    assert HistoryOk(EnvOf(frozen, s).places, s, w.histories, c.attemptId);
  }

  ghost predicate FrozenMeets(frozen: Frozen, s: Session, hs: map<Id, seq<Event>>, c: FinishCommand)
  {
    var h := Hist(hs, c.attemptId);
    && Storable(EnvOf(frozen, s).places, h)
    && FrozenFrom(h, c)
    && RowOf(s.attempts, c.attemptId) == s.index < |s.attempts|
    && s.attempts[s.index].log <= h && |h| - |c.events| <= |s.attempts[s.index].log|
    && s.attempts[s.index].finished.None? && s.attempts[s.index].taskIndex == s.index
  }

  lemma {:induction false} FrozenAppended(frozen: Frozen, s: Session, hs: map<Id, seq<Event>>, c: FinishCommand,
                                          runBytes: nat)
    requires
      && Invariant(frozen, s)
      && HistoriesOk(EnvOf(frozen, s).places, s, hs)
      && runBytes <= MAX_RUN_BYTES
      && FrozenMeets(frozen, s, hs, c)
    requires RoomFor(EnvOf(frozen, s), AttemptLedger(s, s.index, runBytes), Hist(hs, c.attemptId),
                     |Hist(hs, c.attemptId)|)
    ensures var r := AppendTo(frozen, s, runBytes, s.index, c.events, Some(Choice(c.outcome, c.nodeId)));
            r.Ok? && r.value.attempts[s.index].log == Hist(hs, c.attemptId)
  {
    var h := Hist(hs, c.attemptId);
    FrozenFitsRequest(h, c);
    SegmentIsTaken(frozen, s, hs, c.attemptId, s.index, c.events, Some(Choice(c.outcome, c.nodeId)), runBytes);
    assert h[..|h|] == h;
  }

  lemma {:induction false} AppendedChoosable(frozen: Frozen, s: Session, k: nat, events: seq<Event>, runBytes: nat,
                                             c: FinishCommand, h: seq<Event>)
    requires k < |s.attempts| && AppendTo(frozen, s, runBytes, k, events, Some(Choice(c.outcome, c.nodeId))).Ok?
    requires
      && Enrolled(frozen, s)
      && Shaped(EnvOf(frozen, s).places, h)
      && (c.outcome.Selected? ==> c.nodeId != "" && LiveSelection(h) == c.nodeId)
    ensures SelectionProblem(frozen,
                             AppendTo(frozen, s, runBytes, k, events, Some(Choice(c.outcome, c.nodeId))).value, h,
                             c.outcome, c.nodeId) == None
  {
    SelectionHasContent(frozen, s, h, c.outcome, c.nodeId);
  }

  lemma {:induction false} FrozenGoesThrough(frozen: Frozen, s: Session, hs: map<Id, seq<Event>>, c: FinishCommand,
                                             now: int, runBytes: nat)
    requires
      && Invariant(frozen, s)
      && HistoriesOk(EnvOf(frozen, s).places, s, hs)
      && runBytes <= MAX_RUN_BYTES
      && FrozenMeets(frozen, s, hs, c)
    requires RoomFor(EnvOf(frozen, s), AttemptLedger(s, s.index, runBytes), Hist(hs, c.attemptId),
                     |Hist(hs, c.attemptId)|)
    ensures FinishGoesThrough(frozen, s, FinishStep(c, now, runBytes))
  {
    FrozenAppended(frozen, s, hs, c, runBytes);
    AppendedChoosable(frozen, s, s.index, c.events, runBytes, c, Hist(hs, c.attemptId));
  }

  /** A finish request whose attempt is still open is carried out whenever it arrives,
      unless a size limit is in the way. */
  lemma {:induction false} FinishIsAccepted(frozen: Frozen, w: World, n: nat, now: int, runBytes: nat)
    requires Safe(frozen, w) && n < |w.requests| && w.requests[n].PostFinish? && runBytes <= MAX_RUN_BYTES
    requires Current(w.server, w.requests[n].command.attemptId)
    requires var s, c := w.server, w.requests[n].command;
             var h, l := Hist(w.histories, c.attemptId), AttemptLedger(s, s.index, runBytes);
             l.log < h ==> |h| <= MAX_EVENTS_PER_ATTEMPT && BudgetProblem(l, Bytes(frozen.size, h[|l.log|..])) == None
    ensures var c := w.requests[n].command;
            FinishTask(frozen, w.server, runBytes, c.commandId, FrozenRequest(c), now).Ok?
  {
    var s, c := w.server, w.requests[n].command;
    FinishIsCurrent(frozen, w, n);
    FrozenFacts(frozen, w, c);
    FrozenIsFresh(frozen, w, c, now);
    var h, l := Hist(w.histories, c.attemptId), AttemptLedger(s, s.index, runBytes);
    assert h[|l.log|..|h|] == h[|l.log|..];
    FrozenIsCarriedOut(frozen, s, w.histories, c, now, runBytes);
  }

  lemma {:induction false} FrozenIsCarriedOut(frozen: Frozen, s: Session, hs: map<Id, seq<Event>>, c: FinishCommand,
                                              now: int, runBytes: nat)
    requires
      && Invariant(frozen, s)
      && HistoriesOk(EnvOf(frozen, s).places, s, hs)
      && runBytes <= MAX_RUN_BYTES
      && FrozenMeets(frozen, s, hs, c)
    requires RoomFor(EnvOf(frozen, s), AttemptLedger(s, s.index, runBytes), Hist(hs, c.attemptId),
                     |Hist(hs, c.attemptId)|)
    requires ValidCommandId(c.commandId) && forall r :: r in s.receipts ==> r.commandId != c.commandId
    requires FindReceipt(s, c.commandId, FrozenRequest(c), now) == Ok(Fresh(s))
    ensures FinishTask(frozen, s, runBytes, c.commandId, FrozenRequest(c), now).Ok?
  {
    FrozenGoesThrough(frozen, s, hs, c, now, runBytes);
    FinishNewKeeps(frozen, s, FinishStep(c, now, runBytes));
  }
}
