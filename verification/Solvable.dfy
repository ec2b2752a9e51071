/** Every task of an accepted study can be solved in every variant, directly and
    within a single request. */
module Solvable {
  import opened Common
  import opened Trees
  import opened Events
  import opened Append
  import opened EventStore
  import opened Metrics
  import opened Navigation
  import opened Segments
  import opened Sessions
  import opened SessionRuns
  import opened Client
  import opened NetworkRecording
  import opened Menus
  import opened Studies

  // ------------------------------------------------- a page that holds an answer

  lemma {:induction false} HeadKept(n: Node, ids: map<Id, Id>, parents: seq<Id>, rest: seq<Node>)
    requires NoDuplicates(PublicIds(NodesFor([n] + rest, ids)))
    ensures var id := Opaque(ids, n.id);
            var below, below', after, after' :=
                IndexTree(NodesFor(n.children, ids), parents + [id]), IndexNodes(n.children, ids, id),
                IndexTree(NodesFor(rest, ids), parents), IndexNodes(rest, ids, LastOr(parents));
            && NoDuplicates(PublicIds(NodesFor(n.children, ids))) && NoDuplicates(PublicIds(NodesFor(rest, ids)))
            && id !in below && id !in below' && id !in after && id !in after'
            && below.Keys == below'.Keys && after.Keys == after'.Keys && below.Keys !! after.Keys
  {
    var id := Opaque(ids, n.id);
    assert ([n] + rest)[1..] == rest;
    assert NodesFor([n] + rest, ids)[1..] == NodesFor(rest, ids);
    PreorderPartsDiffer(id, PublicIds(NodesFor(n.children, ids)), PublicIds(NodesFor(rest, ids)));
    IndexKeys(NodesFor(n.children, ids), parents + [id]);
    IndexKeys(NodesFor(rest, ids), parents);
    BothIndexesAgree(n.children, ids, parents + [id]);
    BothIndexesAgree(rest, ids, parents);
  }

  ghost predicate HoldsPage(nodes: seq<Node>, ids: map<Id, Id>, parents: seq<Id>, content: string, id: Id)
  {
    var places, index := IndexTree(NodesFor(nodes, ids), parents), IndexNodes(nodes, ids, LastOr(parents));
    id in places && |places[id].parents| <= MAX_DEPTH && id in index && index[id].node.contentId == content
  }

  /** Content that a menu places has a node, and not too deep. */
  lemma {:induction false} NodeHolding(nodes: seq<Node>, ids: map<Id, Id>, parents: seq<Id>, content: string)
                                       returns (id: Id)
    requires content in Contents(nodes) && NoDuplicates(PublicIds(NodesFor(nodes, ids)))
    requires forall i :: 0 <= i < |Listing(nodes, |parents|)| ==> Listing(nodes, |parents|)[i].depth <= MAX_DEPTH
    ensures HoldsPage(nodes, ids, parents, content, id)
    decreases nodes
  {
    var n, rest, here := nodes[0], nodes[1..], Opaque(ids, nodes[0].id);
    assert nodes == [n] + rest;
    HeadKept(n, ids, parents, rest);
    ListingParts(nodes, |parents|);
    if n.contentId == content && content != "" {
      id := here;
    } else if content in Contents(n.children) {
      id := NodeHolding(n.children, ids, parents + [here], content);
      assert HoldsPage(n.children, ids, parents + [here], content, id);
    } else {
      id := NodeHolding(rest, ids, parents, content);
      assert HoldsPage(rest, ids, parents, content, id);
    }
  }

  lemma {:induction false} ListingParts(nodes: seq<Node>, depth: nat)
    requires nodes != [] && forall i :: 0 <= i < |Listing(nodes, depth)| ==> Listing(nodes, depth)[i].depth <= MAX_DEPTH
    ensures depth <= MAX_DEPTH
    ensures var a := Listing(nodes[0].children, depth + 1); forall i :: 0 <= i < |a| ==> a[i].depth <= MAX_DEPTH
    ensures var b := Listing(nodes[1..], depth); forall i :: 0 <= i < |b| ==> b[i].depth <= MAX_DEPTH
  {
    var all, a, b := Listing(nodes, depth), Listing(nodes[0].children, depth + 1), Listing(nodes[1..], depth);
    assert all[0].depth == depth;
    assert forall i :: 0 <= i < |a| ==> all[1 + i] == a[i];
    assert forall i :: 0 <= i < |b| ==> all[1 + |a| + i] == b[i];
  }

  // ----------------------------------------------------------- the way to a page

  function Marks(n: nat): string
  {
    if n == 0 then "" else "e" + Marks(n - 1)
  }

  lemma {:induction false} MarksAre(n: nat)
    ensures |Marks(n)| == n && forall i :: 0 <= i < n ==> Marks(n)[i] == 'e'
  {
    if n > 0 { MarksAre(n - 1); }
  }

  const CLOCK: Epoch := NumberEpoch(0)

  function Moment(n: nat, kind: Kind, node: Id, outcome: Outcome): Event
  {
    Event(Marks(n), n, kind, node, 0, CLOCK, Some(true), outcome)
  }

  /** The tree is shown and the first k of the ancestors are entered. */
  function Climb(path: seq<Id>, k: nat): seq<Event>
    requires k <= |path|
  {
    if k == 0 then [Moment(1, TreeShown, "", NoOutcome)]
        else Climb(path, k - 1) + [Moment(k + 1, Enter, path[k - 1], NoOutcome)]
  }

  function Solution(path: seq<Id>, id: Id): seq<Event>
  {
    var n := |path|;
    Climb(path, n) + [Moment(n + 2, Select, id, NoOutcome)] + [Moment(n + 3, Submit, id, Selected)]
  }

  /** A log made of such moments, with nothing but enters after the tree. */
  ghost predicate OnOneClock(log: seq<Event>)
  {
    && (forall i :: 0 <= i < |log| ==> log[i].epoch == CLOCK && log[i].elapsed == 0)
    && (forall i :: 0 <= i < |log| ==> |log[i].id| == i + 1)
    && (forall i :: 0 <= i < |log| ==> !log[i].kind.Submit? && !log[i].kind.Back? && !log[i].kind.Root?)
  }

  lemma {:induction false} MomentIsShaped(places: Places, e: Event, n: nat)
    requires e == Moment(n, e.kind, e.nodeId, e.outcome) && 1 <= n <= 128 && "" !in places
    requires !e.kind.UnlistedKind? && !e.kind.Hidden? && NamesKnownNode(places, e) && (n == 1 ==> e.kind.TreeShown?)
    requires (e.kind.Submit? <==> e.outcome.Selected?) && (!e.kind.Submit? ==> e.outcome.NoOutcome?)
    ensures WellShaped(places, e)
  {
    MarksAre(n);
    assert Trimmed(Marks(n));
  }

  lemma {:induction false} MomentMayFollow(places: Places, log: seq<Event>, e: Event)
    requires OneBlockPerEpoch(log) && OnOneClock(log) && e == Moment(|log| + 1, e.kind, e.nodeId, e.outcome)
    requires (log == [] <==> e.kind.TreeShown?) && NavOk(places, Location(log), e)
    ensures MayFollow(places, log, e) && !IdUsed(log, e.id)
  {
    EpochFollows(log, e);
    MarksAre(|log| + 1);
  }

  lemma {:induction false} MomentFollows(places: Places, log: seq<Event>, e: Event)
    requires Storable(places, log) && OnOneClock(log) && |log| + 1 <= 128 && "" !in places
    requires
      && e == Moment(|log| + 1, e.kind, e.nodeId, e.outcome)
      && !e.kind.UnlistedKind?
      && !e.kind.Hidden?
      && NamesKnownNode(places, e)
    requires
      && (log == [] <==> e.kind.TreeShown?)
      && (e.kind.Submit? <==> e.outcome.Selected?)
      && (!e.kind.Submit? ==> e.outcome.NoOutcome?)
    requires NavOk(places, Location(log), e)
    ensures Storable(places, log + [e])
  {
    MomentFits(places, log, e);
    StorableExtends(places, log, e);
  }

  lemma {:induction false} MomentFits(places: Places, log: seq<Event>, e: Event)
    requires OneBlockPerEpoch(log) && OnOneClock(log) && |log| + 1 <= 128 && "" !in places
    requires
      && e == Moment(|log| + 1, e.kind, e.nodeId, e.outcome)
      && !e.kind.UnlistedKind?
      && !e.kind.Hidden?
      && NamesKnownNode(places, e)
    requires
      && (log == [] <==> e.kind.TreeShown?)
      && (e.kind.Submit? <==> e.outcome.Selected?)
      && (!e.kind.Submit? ==> e.outcome.NoOutcome?)
    requires NavOk(places, Location(log), e)
    ensures WellShaped(places, e) && MayFollow(places, log, e) && !IdUsed(log, e.id)
  {
    MomentIsShaped(places, e, |log| + 1);
    MomentMayFollow(places, log, e);
  }

  lemma {:induction false} ClockGoesOn(log: seq<Event>, e: Event)
    requires
      && OnOneClock(log)
      && e == Moment(|log| + 1, e.kind, e.nodeId, e.outcome)
      && !e.kind.Submit?
      && !e.kind.Back?
      && !e.kind.Root?
    ensures OnOneClock(log + [e])
  {
    MarksAre(|log| + 1);
  }

  /** What holds after the first k ancestors have been entered. */
  ghost predicate Climbing(places: Places, id: Id, k: nat, log: seq<Event>)
    requires id in places && k <= |places[id].parents|
  {
    && |log| == k + 1 && Storable(places, log) && OnOneClock(log) && Location(log) == LastOr(places[id].parents[..k])
    && LiveSelection(log) == "" && SelectsOnly(log, id)
  }

  lemma {:induction false} EnterStep(places: Places, id: Id, k: nat, log: seq<Event>)
    requires
      && Sound(places)
      && id in places
      && 0 < k <= |places[id].parents| <= MAX_DEPTH
      && Climbing(places, id, k - 1, log)
    ensures Climbing(places, id, k, log + [Moment(k + 1, Enter, places[id].parents[k - 1], NoOutcome)])
  {
    var path := places[id].parents;
    var e := Moment(k + 1, Enter, path[k - 1], NoOutcome);
    EnterAlongPath(places, id, k - 1);
    assert Path(places, id)[..k - 1] == path[..k - 1] && Path(places, id)[k - 1] == path[k - 1];
    MomentFollows(places, log, e);
    ClockGoesOn(log, e);
    assert path[..k][k - 1] == path[k - 1];
    Extended(log, e);
  }

  lemma {:induction false} Extended(log: seq<Event>, e: Event)
    ensures Last(log + [e]) == e && (log + [e])[..|log + [e]| - 1] == log
  {}

  lemma {:induction false} FirstStands(places: Places, e: Event)
    requires "" !in places && e == Moment(1, TreeShown, "", NoOutcome)
    ensures Storable(places, [e]) && OnOneClock([e])
  {
    var none: seq<Event> := [];
    MomentFollows(places, none, e);
    ClockGoesOn(none, e);
    assert none + [e] == [e];
  }

  lemma {:induction false} FirstMeans(e: Event)
    requires e.kind.TreeShown?
    ensures Location([e]) == "" && LiveSelection([e]) == ""
  {
    assert Last([e]) == e && [e][..0] == [];
  }

  lemma {:induction false} ClimbStart(places: Places, id: Id)
    requires Sound(places) && id in places
    ensures Climbing(places, id, 0, Climb(places[id].parents, 0))
  {
    FirstStands(places, Moment(1, TreeShown, "", NoOutcome));
    FirstMeans(Moment(1, TreeShown, "", NoOutcome));
  }

  lemma {:induction false} ClimbStands(places: Places, id: Id, k: nat)
    requires Sound(places) && id in places && k <= |places[id].parents| <= MAX_DEPTH
    ensures Climbing(places, id, k, Climb(places[id].parents, k))
  {
    if k == 0 {
      ClimbStart(places, id);
    } else {
      ClimbStands(places, id, k - 1);
      EnterStep(places, id, k, Climb(places[id].parents, k - 1));
    }
  }

  /** A direct way to a page, ending with its submission. */
  ghost predicate LeadsTo(places: Places, log: seq<Event>, id: Id)
  {
    && 0 < |log| <= 15 && Storable(places, log) && LiveSelection(log) == id && NoBacktrack(log) && SelectsOnly(log, id)
    && Last(log).kind.Submit? && Last(log).outcome.Selected? && Last(log).nodeId == id
    && forall i :: 0 <= i < |log| - 1 ==> !log[i].kind.Submit?
  }

  lemma {:induction false} SelectStep(places: Places, id: Id, log: seq<Event>)
    requires Sound(places) && id in places && places[id].node.selectable && |places[id].parents| <= MAX_DEPTH
    requires Climbing(places, id, |places[id].parents|, log)
    ensures var e := Moment(|log| + 1, Select, id, NoOutcome);
            && Storable(places, log + [e])
            && OnOneClock(log + [e])
            && LiveSelection(log + [e]) == id
            && SelectsOnly(log + [e], id)
  {
    var path, e := places[id].parents, Moment(|log| + 1, Select, id, NoOutcome);
    assert path[..|path|] == path;
    if path != [] {
      EnterAlongPath(places, id, |path| - 1);
      assert path[|path| - 1] == Path(places, id)[|path| - 1];
    }
    assert SoundAt(places, id);
    ChildIffPathExtends(places, LastOr(path), id);
    MomentFollows(places, log, e);
    ClockGoesOn(log, e);
    Extended(log, e);
  }

  lemma {:induction false} SubmitMeans(log: seq<Event>, e: Event, id: Id)
    requires OnOneClock(log) && SelectsOnly(log, id) && e.kind.Submit?
    ensures NoBacktrack(log + [e]) && SelectsOnly(log + [e], id) && LiveSelection(log + [e]) == LiveSelection(log)
    ensures forall i :: 0 <= i < |log + [e]| - 1 ==> !(log + [e])[i].kind.Submit?
  {
    Extended(log, e);
  }

  lemma {:induction false} SubmitStep(places: Places, id: Id, log: seq<Event>)
    requires "" !in places && id in places && |log| <= 14 && log != []
    requires Storable(places, log) && OnOneClock(log) && LiveSelection(log) == id && SelectsOnly(log, id)
    ensures LeadsTo(places, log + [Moment(|log| + 1, Submit, id, Selected)], id)
  {
    var e := Moment(|log| + 1, Submit, id, Selected);
    SubmitStores(places, id, log);
    SubmitMeans(log, e, id);
    Extended(log, e);
  }

  lemma {:induction false} SubmitStores(places: Places, id: Id, log: seq<Event>)
    requires "" !in places && id in places && |log| <= 14 && log != [] && Storable(places, log) && OnOneClock(log)
    ensures Storable(places, log + [Moment(|log| + 1, Submit, id, Selected)])
  {
    var e := Moment(|log| + 1, Submit, id, Selected);
    assert NavOk(places, Location(log), e);
    MomentFollows(places, log, e);
  }

  /** Going straight to a page, selecting and submitting it. */
  lemma {:induction false} SolutionStands(places: Places, id: Id)
    requires Sound(places) && id in places && places[id].node.selectable && |places[id].parents| <= MAX_DEPTH
    ensures LeadsTo(places, Solution(places[id].parents, id), id)
  {
    var path := places[id].parents;
    ClimbStands(places, id, |path|);
    var log := Climb(path, |path|);
    SelectStep(places, id, log);
    SubmitStep(places, id, log + [Moment(|log| + 1, Select, id, NoOutcome)]);
  }

  // ------------------------------------------------------ every task is solvable

  /** The publication is the accepted study: its tasks, and the trees its texts list. */
  ghost predicate Publishes(b: Bundle, frozen: Frozen)
  {
    && frozen.tasks == b.config.tasks
    && forall v {:trigger TreeStands(b, v, frozen.trees)} :: 0 <= v < |b.config.variants| ==>
         TreeStands(b, v, frozen.trees)
  }

  /** A page of the session's menu that holds an accepted answer to the task. */
  ghost predicate Answers(frozen: Frozen, s: Session, task: Task, node: Id)
  {
    var places := EnvOf(frozen, s).places;
    && node in places && places[node].node.selectable && |places[node].parents| <= MAX_DEPTH
    && ContentOf(frozen, s, node) != "" && Accepted(task, s.variant, ContentOf(frozen, s, node))
  }

  lemma {:induction false} MenuHolds(b: Bundle, frozen: Frozen, v: nat, answer: string)
    requires
      && v < |b.config.variants|
      && TreeStands(b, v, frozen.trees)
      && answer in Placed(b.trees[b.config.variants[v].tree])
    ensures var menu := frozen.trees[b.config.variants[v].id];
            && answer in Contents(menu)
            && forall i :: 0 <= i < |Listing(menu, 0)| ==> Listing(menu, 0)[i].depth <= MAX_DEPTH
  {
    var menu, lines := frozen.trees[b.config.variants[v].id], Lines(b.trees[b.config.variants[v].tree]);
    ContentsAreListed(menu, 0);
    ScanKeeps(lines);
    forall i | 0 <= i < |Listing(menu, 0)| ensures Listing(menu, 0)[i].depth <= MAX_DEPTH {
      assert EntryOk(ScanLines(lines).value.entries[i]);
    }
  }

  lemma {:induction false} AnswerHasPage(b: Bundle, frozen: Frozen, s: Session, i: nat, v: nat) returns (node: Id)
    requires ValidStudy(b) && Publishes(b, frozen) && Enrolled(frozen, s)
    requires i < |b.config.tasks| && v < |b.config.variants| && s.variant == b.config.variants[v].id
    ensures Answers(frozen, s, b.config.tasks[i], node)
  {
    var task := b.config.tasks[i];
    assert TaskOk(b, i) && AnswersAt(b, task, v) && TreeStands(b, v, frozen.trees);
    var answer := AnswersFor(task, s.variant)[0];
    MenuHolds(b, frozen, v, answer);
    IndexesAreSound(Menu(frozen, s), s.nodes);
    node := NodeHolding(Menu(frozen, s), s.nodes, [], answer);
    assert AgreeAt(IndexNodes(Menu(frozen, s), s.nodes, "")[node], EnvOf(frozen, s).places[node]);
    assert answer in ContentIn(ScanLines(Lines(b.trees[b.config.variants[v].tree])).value.entries);
  }

  /** The current attempt has just been started. */
  ghost predicate JustStarted(s: Session)
  {
    |s.attempts| == s.index + 1 && s.index < |s.tasks| && s.attempts[s.index].log == []
  }

  lemma {:induction false} SolutionIsStored(frozen: Frozen, s: Session, runBytes: nat, log: seq<Event>, node: Id)
    requires Invariant(frozen, s) && JustStarted(s) && runBytes <= MAX_RUN_BYTES
    requires LeadsTo(EnvOf(frozen, s).places, log, node)
    requires BudgetProblem(AttemptLedger(s, s.index, runBytes), Bytes(frozen.size, log)) == None
    ensures var r := AppendTo(frozen, s, runBytes, s.index, log, Some(Choice(Selected, node)));
            r.Ok? && r.value.attempts[s.index].log == log
  {
    var env, l := EnvOf(frozen, s), AttemptLedger(s, s.index, runBytes);
    assert RowOk(s, s.index);
    SoundEnv(frozen, s);
    LedgerCommitted(frozen, s, runBytes, s.index);
    assert log[0..|log|] == log && log[..|log|] == log;
    SegmentAccepted(env, l, log, 0, |log|, true);
  }

  lemma {:induction false} SolutionGoesThrough(frozen: Frozen, s: Session, step: Step, task: Task)
    requires Invariant(frozen, s) && JustStarted(s) && step.Finish? && step.runBytes <= MAX_RUN_BYTES
    requires step.attemptId == s.attempts[s.index].id && step.outcome.Selected? && Answers(frozen, s, task, step.nodeId)
    requires LeadsTo(EnvOf(frozen, s).places, step.events, step.nodeId)
    requires BudgetProblem(AttemptLedger(s, s.index, step.runBytes), Bytes(frozen.size, step.events)) == None
    ensures FinishGoesThrough(frozen, s, step) && RowOf(s.attempts, step.attemptId) == s.index
    ensures AppendTo(frozen, s, step.runBytes, s.index, step.events,
                     Some(Choice(Selected, step.nodeId))).value.attempts[s.index].log == step.events
  {
    assert RowOk(s, s.index);
    RowOfIsUnique(s, s.index);
    SolutionIsStored(frozen, s, step.runBytes, step.events, step.nodeId);
  }

  lemma {:induction false} SolutionScores(frozen: Frozen, s: Session, a: Attempt, task: Task, node: Id, now: int)
    requires Enrolled(frozen, s) && Answers(frozen, s, task, node) && FindTask(frozen, a.taskId) == task
    requires LeadsTo(EnvOf(frozen, s).places, a.log, node)
    ensures var f := Score(frozen, s, a, Selected, node, now); f.correct && f.direct
  {
    SoundEnv(frozen, s);
    DirectMeans(EnvOf(frozen, s).places, a.log, node);
  }

  /** The task closed as a direct success. */
  ghost predicate Solved(t: Session, k: nat)
  {
    k < |t.attempts| && t.attempts[k].finished.Some? && t.attempts[k].finished.value.outcome.Selected?
    && t.attempts[k].finished.value.correct && t.attempts[k].finished.value.direct
  }

  lemma {:induction false} SolutionFinishes(frozen: Frozen, s: Session, step: Step, task: Task)
    requires Invariant(frozen, s) && JustStarted(s) && step.Finish? && step.runBytes <= MAX_RUN_BYTES
    requires step.attemptId == s.attempts[s.index].id && step.outcome.Selected? && Answers(frozen, s, task, step.nodeId)
    requires LeadsTo(EnvOf(frozen, s).places, step.events, step.nodeId) && FindTask(frozen, s.tasks[s.index]) == task
    requires BudgetProblem(AttemptLedger(s, s.index, step.runBytes), Bytes(frozen.size, step.events)) == None
    requires forall r :: r in s.receipts ==> r.commandId != step.commandId
    ensures var r := FinishNew(frozen, s, step.runBytes, step.commandId, RequestOf(step), step.now);
            r.Ok? && Solved(r.value.0, s.index)
  {
    assert RowOk(s, s.index);
    SolutionGoesThrough(frozen, s, step, task);
    FinishNewKeeps(frozen, s, step);
    FinishRowsKeep(frozen, s, step);
    FinishNewIs(frozen, s, step);
    var s1 := AppendTo(frozen, s, step.runBytes, s.index, step.events, Some(Choice(Selected, step.nodeId))).value;
    SolutionScores(frozen, s1, s1.attempts[s.index], task, step.nodeId, step.now);
  }

  lemma {:induction false} NewCommandIsCarriedOut(frozen: Frozen, s: Session, step: Step)
    requires
      && step.Finish?
      && step.outcome.Selected?
      && ValidCommandId(step.commandId)
      && forall r :: r in s.receipts ==> r.commandId != step.commandId
    ensures FinishTask(frozen, s, step.runBytes, step.commandId, RequestOf(step), step.now) ==
            FinishNew(frozen, s, step.runBytes, step.commandId, RequestOf(step), step.now)
  {}

  /** For every task of an accepted study and every variant there are a page and a log
      of at most fifteen events that the server stores, unless a size limit is in the
      way, and that finish scores as a correct and direct success. */
  lemma {:induction false} EveryTaskIsSolvable(b: Bundle, frozen: Frozen, s: Session, i: nat, v: nat, runBytes: nat,
                                               commandId: Id, now: int) returns (node: Id, log: seq<Event>)
    requires
      && ValidStudy(b)
      && Publishes(b, frozen)
      && Invariant(frozen, s)
      && JustStarted(s)
      && runBytes <= MAX_RUN_BYTES
    requires i < |b.config.tasks| && s.tasks[s.index] == b.config.tasks[i].id
    requires v < |b.config.variants| && s.variant == b.config.variants[v].id
    requires ValidCommandId(commandId) && forall r :: r in s.receipts ==> r.commandId != commandId
    ensures |log| <= 15
    ensures BudgetProblem(AttemptLedger(s, s.index, runBytes), Bytes(frozen.size, log)) == None ==>
              var r :=
                  FinishTask(frozen, s, runBytes, commandId,
                             FinishRequest(s.attempts[s.index].id, Selected, node, log), now);
              r.Ok? && Solved(r.value.0, s.index)
  {
    var task := b.config.tasks[i];
    node := AnswerHasPage(b, frozen, s, i, v);
    SoundEnv(frozen, s);
    log := Solution(EnvOf(frozen, s).places[node].parents, node);
    SolutionStands(EnvOf(frozen, s).places, node);
    TasksDiffer(b);
    FirstTaskIs(b.config.tasks, i);
    if BudgetProblem(AttemptLedger(s, s.index, runBytes), Bytes(frozen.size, log)) == None {
      var step := Finish(commandId, s.attempts[s.index].id, Selected, node, log, now, runBytes);
      SolutionFinishes(frozen, s, step, task);
      NewCommandIsCarriedOut(frozen, s, step);
    }
  }
}
