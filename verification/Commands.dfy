/** Exactly when a participant's request takes effect, and what the response shows. */
module Commands {
  import opened Common
  import opened Trees
  import opened Events
  import opened Append
  import opened EventStore
  import opened Metrics
  import opened Navigation
  import opened Sessions
  import opened SessionRuns
  import opened Scoring

  // -------------------------------------------------------------------- receipts

  /** The command has not been used, or for this very request so long ago that its
      receipt has expired. */
  ghost predicate Unused(s: Session, commandId: Id, request: Request, now: int)
  {
    forall r :: r in s.receipts && r.commandId == commandId ==> r.request == request && r.expiresAt <= now
  }

  ghost predicate ProperCommand(id: Id)
  {
    1 <= |id| <= 128 && !IsSpace(id[0]) && !IsSpace(id[|id| - 1])
  }

  lemma {:induction false} UnusedExactlyWhen(s: Session, commandId: Id, request: Request, now: int)
    requires Receipts(s)
    ensures var found := FindReceipt(s, commandId, request, now);
            found.Ok? && found.value.Fresh? <==> Unused(s, commandId, request, now)
  {
    var k := ReceiptOf(s.receipts, commandId);
    forall r | r in s.receipts && r.commandId == commandId ensures k < |s.receipts| && r == s.receipts[k] {
      var i :| 0 <= i < |s.receipts| && s.receipts[i] == r;
    }
  }

  /** The receipt that a command leaves: for the task it found, and for a day. */
  function ReceiptLeft(s: Session, step: Step): Receipt
    requires !step.Send?
  {
    if step.Start?
        then Receipt(step.commandId, StartRequest(step.taskId), s.index, Some(step.attemptId), step.now + 86_400_000)
        else Receipt(step.commandId, RequestOf(step), s.index + 1, None, step.now + 86_400_000)
  }

  lemma {:induction false} EffectKeepsReceipts(frozen: Frozen, s: Session, step: Step)
    requires Invariant(frozen, s) && Enabled(s, step) && TakesEffect(frozen, s, step) && !step.Send?
    ensures forall r :: r in Apply(frozen, s, step).0.receipts <==>
              (r in s.receipts && r.expiresAt > step.now) || r == ReceiptLeft(s, step)
  {
    if step.Start? {
      NewStart(frozen, s, step.commandId, step.taskId, step.now, step.attemptId);
    } else {
      NewFinish(frozen, s, step);
    }
  }

  /** A command that takes effect leaves its receipt, and of the others exactly those that
      have not expired; nothing else touches the receipts. */
  lemma {:induction false} ReceiptsExactlyKept(frozen: Frozen, s: Session, step: Step)
    requires Invariant(frozen, s) && Enabled(s, step)
    ensures var t := Apply(frozen, s, step).0;
            && (!TakesEffect(frozen, s, step) ==> t.receipts == s.receipts)
            && (TakesEffect(frozen, s, step) ==>
                  forall r :: r in t.receipts <==>
                        (r in s.receipts && r.expiresAt > step.now) || r == ReceiptLeft(s, step))
  {
    if step.Send? {
      if SendEvents(frozen, s, step.runBytes, step.attemptId, step.events).Ok? { NewEvents(frozen, s, step); }
    } else if TakesEffect(frozen, s, step) {
      EffectKeepsReceipts(frozen, s, step);
    } else if step.Start? {
      StartsExactlyWhen(frozen, s, step);
    } else {
      FinishesExactlyWhen(frozen, s, step);
    }
  }

  // --------------------------------------------------------------------- starting

  /** A start opens the current task, and only that. */
  ghost predicate MayStart(s: Session, step: Step)
    requires step.Start?
  {
    && ProperCommand(step.commandId) && Unused(s, step.commandId, StartRequest(step.taskId), step.now)
    && s.index < |s.tasks| && |s.attempts| == s.index
    && step.taskId != "" && step.taskId == Opaque(s.publicTasks, s.tasks[s.index])
  }

  lemma {:induction false} StartsExactlyWhen(frozen: Frozen, s: Session, step: Step)
    requires Invariant(frozen, s) && Enabled(s, step) && step.Start?
    ensures var t := Apply(frozen, s, step).0;
            && (TakesEffect(frozen, s, step) <==> MayStart(s, step))
            && t.index == s.index && t.eventBytes == s.eventBytes
            && (MayStart(s, step) ==>
                  t.attempts ==
                      s.attempts + [Attempt(step.attemptId, s.index, s.tasks[s.index], step.now, [], 1, 0, None)])
            && (!MayStart(s, step) ==> t == s)
  {
    UnusedExactlyWhen(s, step.commandId, StartRequest(step.taskId), step.now);
    var found := FindReceipt(s, step.commandId, StartRequest(step.taskId), step.now);
    if found.Ok? && found.value.Fresh? {
      FindReceiptKeeps(frozen, s, step.commandId, StartRequest(step.taskId), step.now);
      CurrentRow(found.value.session);
      if StartTask(frozen, s, step.commandId, step.taskId, step.now, step.attemptId).Ok? {
        NewStart(frozen, s, step.commandId, step.taskId, step.now, step.attemptId);
      } else if MayStart(s, step) {
        StartNotRefused(frozen, s, found.value.session, step);
      }
    }
  }

  lemma {:induction false} CurrentRow(s: Session)
    requires Progress(s)
    ensures RowAt(s.attempts, s.index) < |s.attempts| <==> |s.attempts| == s.index + 1
  {
    var k := RowAt(s.attempts, s.index);
    if k < |s.attempts| { assert RowOk(s, k); }
    if |s.attempts| == s.index + 1 { assert RowOk(s, s.index); }
  }

  lemma {:induction false} StartNotRefused(frozen: Frozen, s: Session, s1: Session, step: Step)
    requires Invariant(frozen, s1) && step.Start? && MayStart(s, step) && s1 == s.(receipts := s1.receipts)
    requires FindReceipt(s, step.commandId, StartRequest(step.taskId), step.now) == Ok(Fresh(s1))
    requires RowAt(s1.attempts, s1.index) == |s1.attempts|
    ensures StartTask(frozen, s, step.commandId, step.taskId, step.now, step.attemptId).Ok?
  {
    UnexpiredIsPart(s1.receipts, step.now);
  }

  // ----------------------------------------------------------------- sending events

  /** A checkpoint is acknowledged exactly when a legal log comes of it. */
  lemma {:induction false} SendsExactlyWhen(frozen: Frozen, s: Session, step: Step)
    requires Invariant(frozen, s) && Enabled(s, step) && step.Send?
    ensures Apply(frozen, s, step).1.Acknowledged? <==>
              exists k: nat, log :: TakesEvents(frozen, s, k, step.attemptId, step.events, None, step.runBytes, log)
    ensures !Apply(frozen, s, step).1.Acknowledged? ==> Apply(frozen, s, step).0 == s
  {
    var k := RowOf(s.attempts, step.attemptId);
    if k < |s.attempts| { EventsExactlyWhen(frozen, s, k, step.events, None, step.runBytes); }
    forall j: nat, log | TakesEvents(frozen, s, j, step.attemptId, step.events, None, step.runBytes, log)
        ensures j == k {
      RowOfIsUnique(s, j);
    }
  }

  /** The attempt at k takes the events and its log becomes this one. */
  ghost predicate TakesEvents(frozen: Frozen, s: Session, k: nat, attemptId: Id, events: seq<Event>,
                              choice: Option<Choice>, runBytes: nat, log: seq<Event>)
  {
    && k < |s.attempts| && s.attempts[k].id == attemptId
    && |s.attempts[k].log| <= |log|
    && LegalAppend(EnvOf(frozen, s), AttemptLedger(s, k, runBytes), events, choice.Some?, log)
    && |events| <= 200
    && (choice.Some? ==>
          && events != [] && Last(events).kind == Submit
          && Last(events).outcome == choice.value.outcome && Last(events).nodeId == choice.value.nodeId)
  }

  lemma {:induction false} EventsExactlyWhen(frozen: Frozen, s: Session, k: nat, events: seq<Event>,
                                             choice: Option<Choice>, runBytes: nat)
    requires Invariant(frozen, s) && k < |s.attempts| && runBytes <= MAX_RUN_BYTES
    ensures var r := AppendTo(frozen, s, runBytes, k, events, choice);
            && (r.Ok? <==> exists log :: TakesEvents(frozen, s, k, s.attempts[k].id, events, choice, runBytes, log))
            && (forall log :: TakesEvents(frozen, s, k, s.attempts[k].id, events, choice, runBytes, log) ==>
                  r.Ok? && r.value.attempts[k].log == log)
  {
    var env, l := EnvOf(frozen, s), AttemptLedger(s, k, runBytes);
    SoundEnv(frozen, s);
    LedgerCommitted(frozen, s, runBytes, k);
    forall log | TakesEvents(frozen, s, k, s.attempts[k].id, events, choice, runBytes, log)
      ensures AppendTo(frozen, s, runBytes, k, events, choice).Ok?
      ensures AppendTo(frozen, s, runBytes, k, events, choice).value.attempts[k].log == log {
      RequestDecides(env, l, events, choice, log);
    }
    if AppendBatch(env, l, events, choice).Ok? {
      CommitDecides(env, l, events, choice.Some?, l.log);
      var log := AppendBatch(env, l, events, choice).value.log;
      assert TakesEvents(frozen, s, k, s.attempts[k].id, events, choice, runBytes, log);
    }
  }

  // ---------------------------------------------------------------------- finishing

  /** A finish takes the current attempt's last events, and closes it with a page that is
      selected when they are in, or with none. */
  ghost predicate MayFinish(frozen: Frozen, s: Session, step: Step, log: seq<Event>)
    requires step.Finish?
  {
    && ProperCommand(step.commandId) && Unused(s, step.commandId, RequestOf(step), step.now)
    && (step.outcome == Selected || step.outcome == GaveUp || step.outcome == Skipped)
    && (step.outcome != Selected ==> step.nodeId == "")
    && |s.attempts| == s.index + 1
    && TakesEvents(frozen, s, s.index, step.attemptId, step.events, Some(Choice(step.outcome, step.nodeId)),
                   step.runBytes, log)
    && (step.outcome == Selected ==>
          LiveSelection(log) == step.nodeId && exists n :: Chosen(frozen, s, step.nodeId, n) && n.contentId != "")
  }

  lemma {:induction false} ContentExactlyWhen(frozen: Frozen, s: Session, id: Id)
    requires Enrolled(frozen, s)
    ensures ContentOf(frozen, s, id) != "" <==> exists n :: Chosen(frozen, s, id, n) && n.contentId != ""
  {
    ContentIsChosen(frozen, s, id);
  }

  /** What an append leaves alone. */
  lemma {:induction false} AppendedRow(frozen: Frozen, s: Session, k: nat, events: seq<Event>, choice: Option<Choice>,
                                       runBytes: nat)
    requires Invariant(frozen, s) && k < |s.attempts| && runBytes <= MAX_RUN_BYTES
    ensures AppendTo(frozen, s, runBytes, k, events, choice).Ok? ==>
              var t := AppendTo(frozen, s, runBytes, k, events, choice).value;
              |t.attempts| == |s.attempts| && t.variant == s.variant && t.nodes == s.nodes
              && t.attempts[k].finished == s.attempts[k].finished
  {
    if AppendTo(frozen, s, runBytes, k, events, choice).Ok? { AppendEffect(frozen, s, runBytes, k, events, choice); }
  }

  /** The current attempt is the one that the request names. */
  lemma {:induction false} CurrentAttempt(s: Session, id: Id)
    requires Progress(s)
    ensures var k := RowOf(s.attempts, id);
            (k < |s.attempts| && s.attempts[k].finished.None? && s.attempts[k].taskIndex == s.index) <==>
            (|s.attempts| == s.index + 1 && s.attempts[s.index].id == id)
    ensures |s.attempts| == s.index + 1 && s.attempts[s.index].id == id ==> RowOf(s.attempts, id) == s.index
  {
    var k := RowOf(s.attempts, id);
    if k < |s.attempts| { assert RowOk(s, k); }
    if |s.attempts| == s.index + 1 && s.attempts[s.index].id == id {
      RowOfIsUnique(s, s.index);
      assert RowOk(s, s.index);
    }
  }

  /** With the receipts out of the way, a finish that may goes through with that log. */
  lemma {:induction false} MayFinishGoes(frozen: Frozen, s: Session, step: Step, log: seq<Event>)
    requires Invariant(frozen, s) && step.Finish? && step.runBytes <= MAX_RUN_BYTES && MayFinish(frozen, s, step, log)
    ensures FinishGoesThrough(frozen, s, step)
    ensures AppendTo(frozen, s, step.runBytes, s.index, step.events,
                     Some(Choice(step.outcome, step.nodeId))).value.attempts[s.index].log == log
  {
    var choice := Some(Choice(step.outcome, step.nodeId));
    CurrentAttempt(s, step.attemptId);
    EventsExactlyWhen(frozen, s, s.index, step.events, choice, step.runBytes);
    AppendedRow(frozen, s, s.index, step.events, choice, step.runBytes);
    ContentStays(frozen, s, AppendTo(frozen, s, step.runBytes, s.index, step.events, choice).value, step.nodeId);
    ContentExactlyWhen(frozen, s, step.nodeId);
  }

  lemma {:induction false} ContentStays(frozen: Frozen, s: Session, t: Session, id: Id)
    requires t.variant == s.variant && t.nodes == s.nodes
    ensures ContentOf(frozen, t, id) == ContentOf(frozen, s, id)
  {}

  lemma {:induction false} GoingMayFinish(frozen: Frozen, s: Session, step: Step) returns (log: seq<Event>)
    requires Invariant(frozen, s) && step.Finish? && step.runBytes <= MAX_RUN_BYTES
    requires step.outcome.Selected? || step.outcome.GaveUp? || step.outcome.Skipped?
    requires ProperCommand(step.commandId) && (!step.outcome.Selected? ==> step.nodeId == "")
    requires Unused(s, step.commandId, RequestOf(step), step.now) && FinishGoesThrough(frozen, s, step)
    ensures MayFinish(frozen, s, step, log)
  {
    var choice := Some(Choice(step.outcome, step.nodeId));
    CurrentAttempt(s, step.attemptId);
    EventsExactlyWhen(frozen, s, s.index, step.events, choice, step.runBytes);
    log :| TakesEvents(frozen, s, s.index, step.attemptId, step.events, choice, step.runBytes, log);
    AppendedRow(frozen, s, s.index, step.events, choice, step.runBytes);
    ContentStays(frozen, s, AppendTo(frozen, s, step.runBytes, s.index, step.events, choice).value, step.nodeId);
    ContentExactlyWhen(frozen, s, step.nodeId);
  }

  lemma {:induction false} MayFinishMoves(frozen: Frozen, s: Session, s1: Session, step: Step, log: seq<Event>)
    requires step.Finish? && s1 == s.(receipts := s1.receipts)
    requires Unused(s, step.commandId, RequestOf(step), step.now)
    requires Unused(s1, step.commandId, RequestOf(step), step.now)
    ensures MayFinish(frozen, s, step, log) <==> MayFinish(frozen, s1, step, log)
  {}

  /** Exactly then it takes effect; otherwise the session stays as it is. */
  lemma {:induction false} FinishesExactlyWhen(frozen: Frozen, s: Session, step: Step)
    requires Invariant(frozen, s) && Enabled(s, step) && step.Finish?
    ensures TakesEffect(frozen, s, step) <==> exists log :: MayFinish(frozen, s, step, log)
    ensures !TakesEffect(frozen, s, step) ==> Apply(frozen, s, step).0 == s
  {
    UnusedExactlyWhen(s, step.commandId, RequestOf(step), step.now);
    var found := FindReceipt(s, step.commandId, RequestOf(step), step.now);
    if && ProperCommand(step.commandId) && found.Ok? && found.value.Fresh?
       && (step.outcome.Selected? || step.outcome.GaveUp? || step.outcome.Skipped?)
       && (!step.outcome.Selected? ==> step.nodeId == "") {
      FreshFinishes(frozen, s, found.value.session, step);
      GoingIsMay(frozen, s, found.value.session, step);
    }
  }

  lemma {:induction false} GoingIsMay(frozen: Frozen, s: Session, s1: Session, step: Step)
    requires Invariant(frozen, s1) && step.Finish? && step.runBytes <= MAX_RUN_BYTES && ProperCommand(step.commandId)
    requires s1 == s.(receipts := s1.receipts)
    requires Unused(s, step.commandId, RequestOf(step), step.now)
    requires Unused(s1, step.commandId, RequestOf(step), step.now)
    requires step.outcome.Selected? || step.outcome.GaveUp? || step.outcome.Skipped?
    requires !step.outcome.Selected? ==> step.nodeId == ""
    ensures FinishGoesThrough(frozen, s1, step) <==> exists log :: MayFinish(frozen, s, step, log)
  {
    forall log | MayFinish(frozen, s, step, log) ensures FinishGoesThrough(frozen, s1, step) {
      MayFinishMoves(frozen, s, s1, step, log);
      MayFinishGoes(frozen, s1, step, log);
    }
    if FinishGoesThrough(frozen, s1, step) {
      var log := GoingMayFinish(frozen, s1, step);
      MayFinishMoves(frozen, s, s1, step, log);
    }
  }

  lemma {:induction false} FoundFresh(frozen: Frozen, s: Session, s1: Session, step: Step)
    requires step.Finish? && ProperCommand(step.commandId)
    requires FindReceipt(s, step.commandId, RequestOf(step), step.now) == Ok(Fresh(s1))
    requires step.outcome.Selected? || step.outcome.GaveUp? || step.outcome.Skipped?
    requires !step.outcome.Selected? ==> step.nodeId == ""
    ensures FinishTask(frozen, s, step.runBytes, step.commandId, RequestOf(step), step.now) ==
            FinishNew(frozen, s1, step.runBytes, step.commandId, RequestOf(step), step.now)
  {
    assert ValidCommandId(step.commandId);
  }

  lemma {:induction false} NotThrough(frozen: Frozen, s: Session, step: Step)
    requires step.Finish? && !FinishGoesThrough(frozen, s, step)
    ensures FinishNew(frozen, s, step.runBytes, step.commandId, RequestOf(step), step.now).Err?
  {}

  lemma {:induction false} FreshFinishes(frozen: Frozen, s: Session, s1: Session, step: Step)
    requires Invariant(frozen, s) && Enabled(s, step) && step.Finish? && ProperCommand(step.commandId)
    requires FindReceipt(s, step.commandId, RequestOf(step), step.now) == Ok(Fresh(s1))
    requires step.outcome.Selected? || step.outcome.GaveUp? || step.outcome.Skipped?
    requires !step.outcome.Selected? ==> step.nodeId == ""
    ensures TakesEffect(frozen, s, step) <==> FinishGoesThrough(frozen, s1, step)
    ensures !TakesEffect(frozen, s, step) ==> Apply(frozen, s, step).0 == s
    ensures Invariant(frozen, s1) && s1 == s.(receipts := s1.receipts)
    ensures Unused(s1, step.commandId, RequestOf(step), step.now)
  {
    FindReceiptKeeps(frozen, s, step.commandId, RequestOf(step), step.now);
    FoundFresh(frozen, s, s1, step);
    if FinishGoesThrough(frozen, s1, step) { FinishNewKeeps(frozen, s1, step); } else { NotThrough(frozen, s1, step); }
  }

  // ----------------------------------------------------------------- the response

  /** The menu as participants see it: the same shape and labels under opaque IDs, pages
      marked, and no content. */
  ghost predicate Mirrors(shown: seq<PublicNode>, menu: seq<Node>, ids: map<Id, Id>)
    decreases menu
  {
    && |shown| == |menu|
    && forall i {:trigger shown[i]} :: 0 <= i < |menu| ==>
         && shown[i].id == Opaque(ids, menu[i].id) && shown[i].caption == menu[i].caption
         && (shown[i].selectable <==> menu[i].contentId != "")
         && Mirrors(shown[i].children, menu[i].children, ids)
  }

  lemma {:induction false} NodesMirror(menu: seq<Node>, ids: map<Id, Id>)
    ensures Mirrors(NodesFor(menu, ids), menu, ids)
    decreases menu
  {
    if menu != [] {
      var shown, rest := NodesFor(menu, ids), NodesFor(menu[1..], ids);
      NodesMirror(menu[0].children, ids);
      NodesMirror(menu[1..], ids);
      forall i | 0 < i < |menu| ensures shown[i] == rest[i - 1] && menu[i] == menu[1..][i - 1] {}
    }
  }

  /** The session as shown: where the participant is, the task at hand with its prompt and
      menu, and the attempt with the log so far; nothing of these once it is complete. */
  ghost predicate ShowsSession(frozen: Frozen, s: Session, v: PublicSession)
  {
    && v.id == s.id && v.title == frozen.title && v.taskIndex == s.index && v.totalTasks == |s.tasks|
    && (v.completed <==> s.completedAt.Some?)
    && (v.completed ==> v.task == None && v.tree == [] && v.attempt == None)
    && (!v.completed ==>
          && s.index < |s.tasks| && v.task.Some? && Mirrors(v.tree, Menu(frozen, s), s.nodes)
          && (forall i: nat :: TaskAt(frozen.tasks, s.tasks[s.index], i) ==>
                v.task.value == PublicTask(Opaque(s.publicTasks, s.tasks[s.index]), frozen.tasks[i].prompt)))
    && (v.attempt.Some? <==> |s.attempts| == s.index + 1)
    && (v.attempt.Some? ==>
          var a := s.attempts[s.index]; v.attempt.value == PublicAttempt(a.id, |a.log| + 1, a.log, a.startedAt))
  }

  lemma {:induction false} SessionIsShown(frozen: Frozen, s: Session)
    requires Progress(s)
    ensures ShowsSession(frozen, s, MakeSession(frozen, s))
  {
    CurrentRow(s);
    if |s.attempts| == s.index + 1 {
      assert RowOk(s, s.index);
      assert RowAt(s.attempts, s.index) == s.index by { assert RowOk(s, RowAt(s.attempts, s.index)); }
    }
    NodesMirror(Menu(frozen, s), s.nodes);
    if s.index < |s.tasks| {
      forall i: nat | TaskAt(frozen.tasks, s.tasks[s.index], i)
        ensures FindTask(frozen, s.tasks[s.index]) == frozen.tasks[i] {
        FirstTaskIsAt(frozen.tasks, s.tasks[s.index], i);
      }
    }
  }
}
