/** How a finished attempt is scored, in the terms of the menu and the answer key, and
    that every score in a session stands for the log it was given on. */
module Scoring {
  import opened Common
  import opened Trees
  import opened Events
  import opened Append
  import opened EventStore
  import opened Metrics
  import opened Navigation
  import opened Sessions
  import opened SessionRuns
  import opened Solvable
  import opened NetworkAcceptance

  // -------------------------------------------------------- pages and answers

  predicate InMenu(nodes: seq<Node>, n: Node)
    decreases nodes
  {
    nodes != [] && (nodes[0] == n || InMenu(nodes[0].children, n) || InMenu(nodes[1..], n))
  }

  /** The node of the session's menu that goes by this public ID. */
  ghost predicate Chosen(frozen: Frozen, s: Session, id: Id, n: Node)
  {
    InMenu(Menu(frozen, s), n) && Opaque(s.nodes, n.id) == id
  }

  /** The i-th task is the one with this ID. */
  ghost predicate TaskAt(tasks: seq<Task>, id: Id, i: nat)
  {
    i < |tasks| && tasks[i].id == id && forall j :: 0 <= j < i ==> tasks[j].id != id
  }

  ghost predicate AnswerAt(task: Task, variant: Id, k: nat, content: string)
  {
    variant in task.answers && k < |task.answers[variant]| && task.answers[variant][k] == content
  }

  /** The content is an accepted answer of the task in this variant. */
  ghost predicate Answered(tasks: seq<Task>, id: Id, variant: Id, content: string)
  {
    exists i: nat, k: nat {:trigger AnswerAt(tasks[i], variant, k, content)} ::
      TaskAt(tasks, id, i) && AnswerAt(tasks[i], variant, k, content)
  }

  /** The chosen page holds an accepted answer. */
  ghost predicate Right(frozen: Frozen, s: Session, task: Id, id: Id)
  {
    exists n :: Chosen(frozen, s, id, n) && Answered(frozen.tasks, task, s.variant, n.contentId)
  }

  lemma {:induction false} MenuNodeIsIndexed(nodes: seq<Node>, ids: map<Id, Id>, parents: seq<Id>, n: Node)
    requires InMenu(nodes, n) && NoDuplicates(PublicIds(NodesFor(nodes, ids)))
    ensures var index, id := IndexNodes(nodes, ids, LastOr(parents)), Opaque(ids, n.id);
            id in index && index[id].node == n
    decreases nodes
  {
    var here := Opaque(ids, nodes[0].id);
    assert nodes == [nodes[0]] + nodes[1..];
    HeadKept(nodes[0], ids, parents, nodes[1..]);
    if nodes[0] != n && InMenu(nodes[0].children, n) {
      MenuNodeIsIndexed(nodes[0].children, ids, parents + [here], n);
    } else if nodes[0] != n {
      MenuNodeIsIndexed(nodes[1..], ids, parents, n);
    }
  }

  lemma {:induction false} IndexedIsMenuNode(nodes: seq<Node>, ids: map<Id, Id>, parent: Id, id: Id)
    requires id in IndexNodes(nodes, ids, parent)
    ensures InMenu(nodes, IndexNodes(nodes, ids, parent)[id].node)
    ensures Opaque(ids, IndexNodes(nodes, ids, parent)[id].node.id) == id
    decreases nodes
  {
    var here := Opaque(ids, nodes[0].id);
    if id in IndexNodes(nodes[1..], ids, parent) {
      IndexedIsMenuNode(nodes[1..], ids, parent, id);
    } else if id in IndexNodes(nodes[0].children, ids, here) {
      IndexedIsMenuNode(nodes[0].children, ids, here, id);
    }
  }

  /** Content looked up in the server's index is that of the node, if there is one. */
  lemma {:induction false} ContentIsChosen(frozen: Frozen, s: Session, id: Id)
    requires Enrolled(frozen, s)
    ensures forall n :: Chosen(frozen, s, id, n) ==> ContentOf(frozen, s, id) == n.contentId
    ensures ContentOf(frozen, s, id) != "" ==> exists n :: Chosen(frozen, s, id, n)
  {
    forall n | Chosen(frozen, s, id, n) ensures ContentOf(frozen, s, id) == n.contentId {
      MenuNodeIsIndexed(Menu(frozen, s), s.nodes, [], n);
    }
    if ContentOf(frozen, s, id) != "" {
      IndexedIsMenuNode(Menu(frozen, s), s.nodes, "", id);
      assert Chosen(frozen, s, id, IndexNodes(Menu(frozen, s), s.nodes, "")[id].node);
    }
  }

  lemma {:induction false} FirstTaskIsAt(tasks: seq<Task>, id: Id, i: nat)
    requires TaskAt(tasks, id, i)
    ensures FirstTask(tasks, id) == tasks[i]
  {
    if i > 0 {
      forall j | 0 <= j < i - 1 ensures tasks[1..][j].id != id { assert tasks[1..][j] == tasks[j + 1]; }
      FirstTaskIsAt(tasks[1..], id, i - 1);
    }
  }

  lemma {:induction false} FoundTaskIsAt(tasks: seq<Task>, id: Id) returns (i: nat)
    ensures TaskAt(tasks, id, i) || FirstTask(tasks, id).answers == map[]
  {
    if tasks == [] || tasks[0].id == id {
      i := 0;
    } else {
      i := FoundTaskIsAt(tasks[1..], id);
      forall j | 0 <= j < i + 1 && i + 1 < |tasks| && TaskAt(tasks[1..], id, i) ensures tasks[j].id != id {
        if j > 0 { assert tasks[1..][j - 1] == tasks[j]; }
      }
      i := i + 1;
    }
  }

  lemma {:induction false} AcceptedMeans(frozen: Frozen, task: Id, variant: Id, content: string)
    ensures Accepted(FindTask(frozen, task), variant, content) <==> Answered(frozen.tasks, task, variant, content)
  {
    if Accepted(FindTask(frozen, task), variant, content) {
      var i := FoundTaskIsAt(frozen.tasks, task);
      FirstTaskIsAt(frozen.tasks, task, i);
      var answers := frozen.tasks[i].answers[variant];
      var k :| 0 <= k < |answers| && answers[k] == content;
      assert AnswerAt(frozen.tasks[i], variant, k, content);
    }
    if Answered(frozen.tasks, task, variant, content) {
      var i: nat, k: nat :| TaskAt(frozen.tasks, task, i) && AnswerAt(frozen.tasks[i], variant, k, content);
      FirstTaskIsAt(frozen.tasks, task, i);
    }
  }

  // ------------------------------------------------------------------ one score

  /** No step back, and no page selected but this one. */
  ghost predicate Straight(log: seq<Event>, id: Id)
  {
    && (forall i :: 0 <= i < |log| ==> log[i].kind != Back && log[i].kind != Root)
    && (forall i :: 0 <= i < |log| && log[i].kind == Select ==> log[i].nodeId == id)
  }

  /** The finished attempt says what its log says, and is scored by the answer key. */
  ghost predicate Scored(frozen: Frozen, s: Session, a: Attempt)
  {
    a.finished.Some? &&
    var f := a.finished.value;
    && a.log != [] && Last(a.log).kind == Submit && Last(a.log).outcome == f.outcome && Last(a.log).nodeId == f.selected
    && (f.outcome == Selected || f.outcome == GaveUp || f.outcome == Skipped)
    && (f.outcome != Selected ==> f.selected == "")
    && (f.outcome == Selected ==>
          LiveSelection(a.log) == f.selected && exists n :: Chosen(frozen, s, f.selected, n) && n.contentId != "")
    && (f.correct <==> f.outcome == Selected && Right(frozen, s, a.taskId, f.selected))
    && (f.direct <==> f.correct && Straight(a.log, f.selected))
    && f.metrics == Measure(EnvOf(frozen, s).places, a.log, f.selected, f.outcome, true)
  }

  lemma {:induction false} CorrectIsRight(frozen: Frozen, s: Session, task: Id, id: Id)
    requires Enrolled(frozen, s) && ContentOf(frozen, s, id) != ""
    ensures Accepted(FindTask(frozen, task), s.variant, ContentOf(frozen, s, id)) <==> Right(frozen, s, task, id)
    ensures exists n :: Chosen(frozen, s, id, n) && n.contentId != ""
  {
    ContentIsChosen(frozen, s, id);
    AcceptedMeans(frozen, task, s.variant, ContentOf(frozen, s, id));
    var n :| Chosen(frozen, s, id, n);
    assert ContentOf(frozen, s, id) == n.contentId;
  }

  lemma {:induction false} DirectIsStraight(places: Places, log: seq<Event>, id: Id)
    requires Sound(places) && Shaped(places, log) && Navigates(places, log) && LiveSelection(log) == id != ""
    ensures Direct(places, id, log) <==> Straight(log, id)
  {
    SelectionIsSelectable(places, log);
    DirectMeans(places, log, id);
  }

  /** The rows in which a finish writes the score. */
  ghost function ScoredRow(frozen: Frozen, s: Session, k: nat, step: Step): Attempt
    requires k < |s.attempts| && step.Finish?
  {
    s.attempts[k].(finished := Some(Score(frozen, s, s.attempts[k], step.outcome, step.nodeId, step.now)))
  }

  lemma {:induction false} RowIsScored(frozen: Frozen, s: Session, k: nat, step: Step)
    requires Enrolled(frozen, s) && k < |s.attempts| && LedgerOk(frozen, s, k) && step.Finish?
    requires step.outcome.Selected? || step.outcome.GaveUp? || step.outcome.Skipped?
    requires !step.outcome.Selected? ==> step.nodeId == ""
    requires SelectionProblem(frozen, s, s.attempts[k].log, step.outcome, step.nodeId) == None
    requires s.attempts[k].log != [] && Last(s.attempts[k].log).kind.Submit?
    requires Last(s.attempts[k].log).outcome == step.outcome && Last(s.attempts[k].log).nodeId == step.nodeId
    ensures Scored(frozen, s, ScoredRow(frozen, s, k, step))
  {
    if step.outcome.Selected? {
      SoundEnv(frozen, s);
      IndexesAreSound(Menu(frozen, s), s.nodes);
      CorrectIsRight(frozen, s, s.attempts[k].taskId, step.nodeId);
      DirectIsStraight(EnvOf(frozen, s).places, s.attempts[k].log, step.nodeId);
    }
  }

  // ------------------------------------------------------------- every finish

  /** The rows between the append and the closing. */
  ghost predicate Ready(frozen: Frozen, s: Session, step: Step, k: nat)
    requires step.Finish?
  {
    && Enrolled(frozen, s) && k < |s.attempts| && LedgerOk(frozen, s, k) && s.attempts[k].id == step.attemptId
    && (step.outcome.Selected? || step.outcome.GaveUp? || step.outcome.Skipped?)
    && (!step.outcome.Selected? ==> step.nodeId == "")
    && SelectionProblem(frozen, s, s.attempts[k].log, step.outcome, step.nodeId) == None
    && s.attempts[k].log != [] && Last(s.attempts[k].log).kind.Submit?
    && Last(s.attempts[k].log).outcome == step.outcome && Last(s.attempts[k].log).nodeId == step.nodeId
  }

  /** A finish that goes through closes the row that its events left. */
  lemma {:induction false} FinishCloses(frozen: Frozen, s: Session, step: Step) returns (between: Session)
    requires Invariant(frozen, s) && step.Finish? && step.runBytes <= MAX_RUN_BYTES
    requires FinishNew(frozen, s, step.runBytes, step.commandId, RequestOf(step), step.now).Ok?
    requires step.outcome.Selected? || step.outcome.GaveUp? || step.outcome.Skipped?
    requires !step.outcome.Selected? ==> step.nodeId == ""
    ensures s.index < |s.attempts| && Ready(frozen, between, step, s.index)
    ensures between.variant == s.variant && between.nodes == s.nodes
    ensures var t := FinishNew(frozen, s, step.runBytes, step.commandId, RequestOf(step), step.now).value.0;
            && t.attempts == between.attempts[s.index := ScoredRow(frozen, between, s.index, step)]
            && t.completedAt == if t.index == |t.tasks| then Some(step.now) else None
  {
    var k := RowOf(s.attempts, step.attemptId);
    var choice := Some(Choice(step.outcome, step.nodeId));
    between := AppendTo(frozen, s, step.runBytes, k, step.events, choice).value;
    AppendEffect(frozen, s, step.runBytes, k, step.events, choice);
    assert RowOk(s, k);
    assert LedgerOk(frozen, between, k);
  }

  /** So does a request that takes effect. */
  lemma {:induction false} FinishLeaves(frozen: Frozen, s: Session, step: Step) returns (between: Session)
    requires Invariant(frozen, s) && Enabled(s, step) && step.Finish? && TakesEffect(frozen, s, step)
    ensures Ready(frozen, between, step, s.index)
    ensures var t := Apply(frozen, s, step).0;
            && between.variant == t.variant && between.nodes == t.nodes
            && t.index == s.index + 1 == |t.attempts|
            && t.attempts[s.index] == ScoredRow(frozen, between, s.index, step)
            && t.completedAt == if t.index == |t.tasks| then Some(step.now) else None
  {
    NewFinish(frozen, s, step);
    FindReceiptKeeps(frozen, s, step.commandId, RequestOf(step), step.now);
    between := FinishCloses(frozen, FindReceipt(s, step.commandId, RequestOf(step), step.now).value.session, step);
  }

  /** Every finish that takes effect closes the current attempt, named by the request,
      with the outcome, the page and the time of the request, and scores it: correct
      exactly when the page selected holds an accepted answer of the attempt's task, and
      direct when moreover nothing led back or astray. */
  lemma {:induction false} FinishIsScored(frozen: Frozen, s: Session, step: Step)
    requires Invariant(frozen, s) && Enabled(s, step) && step.Finish? && TakesEffect(frozen, s, step)
    ensures var t := Apply(frozen, s, step).0;
            && t.index == s.index + 1 == |t.attempts|
            && (t.completedAt == if t.index == |t.tasks| then Some(step.now) else None)
            && var a := t.attempts[s.index];
            && a.id == step.attemptId && Scored(frozen, t, a)
            && a.finished.value.outcome == step.outcome
            && a.finished.value.selected == step.nodeId
            && a.finished.value.at == step.now
  {
    var between := FinishLeaves(frozen, s, step);
    RowIsScored(frozen, between, s.index, step);
    ScoredMoves(frozen, between, Apply(frozen, s, step).0, ScoredRow(frozen, between, s.index, step));
  }

  lemma {:induction false} ScoredMoves(frozen: Frozen, s: Session, t: Session, a: Attempt)
    requires Scored(frozen, s, a) && t.variant == s.variant && t.nodes == s.nodes
    ensures Scored(frozen, t, a)
  {
    forall n | Chosen(frozen, s, a.finished.value.selected, n)
        ensures Chosen(frozen, t, a.finished.value.selected, n) {}
    forall n | Chosen(frozen, t, a.finished.value.selected, n)
        ensures Chosen(frozen, s, a.finished.value.selected, n) {}
  }

  /** A page that holds no accepted answer is never a correct one. */
  lemma {:induction false} WrongPageIsWrong(frozen: Frozen, s: Session, a: Attempt, n: Node)
    requires Enrolled(frozen, s) && Scored(frozen, s, a) && Chosen(frozen, s, a.finished.value.selected, n)
    requires !Answered(frozen.tasks, a.taskId, s.variant, n.contentId)
    ensures !a.finished.value.correct && !a.finished.value.direct
  {
    forall m | Chosen(frozen, s, a.finished.value.selected, m) ensures m == n {
      MenuNodeIsIndexed(Menu(frozen, s), s.nodes, [], n);
      MenuNodeIsIndexed(Menu(frozen, s), s.nodes, [], m);
    }
  }

  // ------------------------------------------------------------------ whole runs

  ghost predicate AllScored(frozen: Frozen, s: Session)
  {
    forall i {:trigger s.attempts[i]} :: 0 <= i < s.index && i < |s.attempts| ==> Scored(frozen, s, s.attempts[i])
  }

  lemma {:induction false} ScoreStays(frozen: Frozen, s: Session, t: Session, i: nat)
    requires Progress(s) && Continues(s, t) && i < s.index && i < |s.attempts| && Scored(frozen, s, s.attempts[i])
    ensures Scored(frozen, t, t.attempts[i])
  {
    assert RowContinues(s.attempts[i], t.attempts[i]) && RowOk(s, i);
    ScoredMoves(frozen, s, t, s.attempts[i]);
  }

  lemma {:induction false} ScoresStay(frozen: Frozen, s: Session, t: Session)
    requires Progress(s) && Continues(s, t) && AllScored(frozen, s)
    requires t.index == s.index || (t.index == s.index + 1 == |t.attempts| && Scored(frozen, t, t.attempts[s.index]))
    ensures AllScored(frozen, t)
  {
    forall i | 0 <= i < t.index && i < |t.attempts| ensures Scored(frozen, t, t.attempts[i]) {
      if i < s.index { ScoreStays(frozen, s, t, i); }
    }
  }

  lemma {:induction false} StepScores(frozen: Frozen, s: Session, step: Step)
    requires Invariant(frozen, s) && Enabled(s, step) && AllScored(frozen, s)
    ensures AllScored(frozen, Apply(frozen, s, step).0)
  {
    StepKeeps(frozen, s, step, Clock(step, 0) + 1);
    StepCounts(frozen, s, step);
    if Apply(frozen, s, step).0.index != s.index { FinishIsScored(frozen, s, step); }
    ScoresStay(frozen, s, Apply(frozen, s, step).0);
  }

  /** In every run of requests from an enrolment, every finished attempt is scored by the
      answer key on the log it has. */
  lemma {:induction false} EveryScoreStands(frozen: Frozen, s: Session, steps: seq<Step>, expiry: int)
    requires Invariant(frozen, s) && AllScored(frozen, s) && AllEnabled(frozen, s, steps, expiry)
    ensures AllScored(frozen, RunOf(frozen, s, steps))
    decreases |steps|
  {
    if steps != [] {
      StepScores(frozen, s, steps[0]);
      StepKeeps(frozen, s, steps[0], expiry);
      EveryScoreStands(frozen, Apply(frozen, s, steps[0]).0, steps[1..], expiry);
    }
  }
}
