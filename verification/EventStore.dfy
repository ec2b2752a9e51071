/** appendEvents over the stored rows, written as the server runs it: one loop that
    grows the saved log, the budgets, and one loop that validates the whole log. */
module EventStore {
  import opened Common
  import opened Trees
  import opened Events
  import opened Append

  class RunRow {
    var eventBytes: nat
    var dataBytes: nat

    constructor (eventBytes: nat, dataBytes: nat)
      ensures this.eventBytes == eventBytes && this.dataBytes == dataBytes
    {
      this.eventBytes, this.dataBytes := eventBytes, dataBytes;
    }
  }

  class SessionRow {
    const storageBytes: nat
    var index: nat
    var eventBytes: nat

    constructor (storageBytes: nat, index: nat, eventBytes: nat)
      ensures this.storageBytes == storageBytes && this.index == index && this.eventBytes == eventBytes
    {
      this.storageBytes, this.index, this.eventBytes := storageBytes, index, eventBytes;
    }
  }

  class AttemptRow {
    const index: nat
    var log: seq<Event>
    var nextSeq: nat
    var eventBytes: nat
    var finished: bool

    constructor (index: nat)
      ensures this.index == index && log == [] && nextSeq == 1 && eventBytes == 0 && !finished
    {
      this.index, log, nextSeq, eventBytes, finished := index, [], 1, 0, false;
    }
  }

  function LedgerOf(run: RunRow, session: SessionRow, a: AttemptRow): Ledger
    reads run, session, a
  {
    Ledger(a.log, a.eventBytes, session.storageBytes + session.eventBytes, run.dataBytes, !a.finished
           && a.index == session.index)
  }

  function SessionEnv(tree: seq<Node>, ids: map<Id, Id>, size: Event -> nat): Env
  {
    Env(IndexTree(NodesFor(tree, ids), []), size)
  }

  /** Opaque IDs are random: nonempty, and distinct over the tree. */
  ghost predicate Labelled(tree: seq<Node>, ids: map<Id, Id>)
  {
    NoDuplicates(PublicIds(NodesFor(tree, ids))) && "" !in PublicIds(NodesFor(tree, ids))
  }

  lemma {:induction false} ClimbStep(index: map<Id, Indexed>, places: Places, current: Id, k: nat)
    requires Sound(places) && Agree(index, places) && current in places && 0 < k <= |places[current].parents|
    ensures places[current].parents[k - 1] != ""
    ensures ParentIn(index, places[current].parents[k - 1]) == LastOr(places[current].parents[..k - 1])
  {
    var path := places[current].parents;
    AncestorPath(places, current, k - 1);
    assert Path(places, current)[k - 1] == path[k - 1];
    assert Path(places, current)[..k][..k - 1] == path[..k - 1];
    assert AgreeAt(index[path[k - 1]], places[path[k - 1]]);
  }

  /** Climbs the parents of the current location looking for the target. */
  method IsAncestor(index: map<Id, Indexed>, ghost places: Places, current: Id, target: Id) returns (valid: bool)
    requires Sound(places) && Agree(index, places)
    ensures valid <==> target == "" || (current in places && target in places[current].parents)
  {
    valid := target == "";
    var ancestor := ParentIn(index, current);
    if current !in index { return; }
    assert AgreeAt(index[current], places[current]);
    ghost var path := places[current].parents;
    ghost var k := |path|;
    assert path[..k] == path;
    while ancestor != ""
      invariant 0 <= k <= |path| && ancestor == LastOr(path[..k])
      invariant valid <==> target == "" || target in path[k..]
      decreases k
    {
      assert ancestor == path[k - 1] && path[k - 1..] == [path[k - 1]] + path[k..];
      ClimbStep(index, places, current, k);
      if ancestor == target {
        valid := true;
      }
      ancestor := ParentIn(index, ancestor);
      k := k - 1;
    }
    if k > 0 { ClimbStep(index, places, current, k); }
    assert path[0..] == path;
  }

  /** The checks of the first loop on one new event, against the server's index. */
  method CheckShape(index: map<Id, Indexed>, ghost places: Places, e: Event) returns (problem: Option<Problem>)
    requires Agree(index, places)
    ensures problem == ShapeProblem(places, e)
  {
    if |e.id| == 0 || |e.id| > 128 || !Trimmed(e.id) { return Some(InvalidEventId); }
    if e.elapsed < 0 || e.elapsed > MAX_ELAPSED { return Some(InvalidElapsed); }
    if !ValidEpoch(e.epoch) { return Some(InvalidEpoch); }
    if e.kind.UnlistedKind? { return Some(InvalidType); }
    if e.seqNo == 1 && !e.kind.TreeShown? && !(e.kind.Submit? && e.outcome.Skipped?) { return Some(InvalidFirstEvent); }
    if e.kind.Submit? && e.visible.None? { return Some(SubmitNeedsVisible); }
    if e.kind.Hidden? && e.visible.Some? && e.visible.value { return Some(HiddenWithVisible); }
    if e.kind.Visible? && e.visible.Some? && !e.visible.value { return Some(VisibleWithHidden); }
    if e.kind.Submit? && !e.outcome.Selected? && !e.outcome.GaveUp?
        && !e.outcome.Skipped? { return Some(InvalidOutcome); }
    if e.nodeId != "" {
      if e.nodeId !in index { return Some(UnknownNode); }
      assert AgreeAt(index[e.nodeId], places[e.nodeId]);
    }
    if (e.kind.Enter? || e.kind.Select?) && e.nodeId == "" { return Some(NodeRequired); }
    if e.kind.Select? && index[e.nodeId].node.contentId == "" { return Some(NotSelectable); }
    return None;
  }

  /** The navigation switch of the second loop. */
  method CheckNavigation(index: map<Id, Indexed>, ghost places: Places, current: Id, e: Event)
                         returns (problem: Option<Problem>, next: Id)
    requires Sound(places) && Agree(index, places)
    ensures problem == NavProblem(places, current, e)
    ensures next == Moved(current, e)
  {
    next := Moved(current, e);
    assert ParentIn(index, e.nodeId) == Parent(places, e.nodeId) by {
      if e.nodeId in index { assert AgreeAt(index[e.nodeId], places[e.nodeId]); }
    }
    match e.kind {
      case TreeShown =>
        if e.seqNo != 1 { return Some(LateTreeShown), next; }
      case Enter =>
        if ParentIn(index, e.nodeId) != current { return Some(EnterNotChild), next; }
      case Select =>
        if e.nodeId != current && ParentIn(index, e.nodeId) != current { return Some(SelectNotVisible), next; }
      case Back =>
        var valid := IsAncestor(index, places, current, e.nodeId);
        if current == "" || !valid { return Some(BackNotAncestor), next; }
      case Root =>
        if e.nodeId != "" { return Some(RootWithNode), next; }
      case Resume =>
        if e.nodeId != "" && e.nodeId != current { return Some(LocationConflict), next; }
      case Hidden =>
        if e.nodeId != "" && e.nodeId != current { return Some(LocationConflict), next; }
      case Visible =>
        if e.nodeId != "" && e.nodeId != current { return Some(LocationConflict), next; }
      case _ =>
    }
    return None, next;
  }

  /** First loop: resends are compared, new events join `saved`. */
  method CollectEvents(index: map<Id, Indexed>, ghost places: Places, size: Event -> nat, stored: seq<Event>,
                       open: bool, incoming: seq<Event>, terminal: bool)
    returns (r: Result<seq<Event>>, addedBytes: nat)
    requires Agree(index, places)
    ensures r == Collect(places, open, stored, incoming, terminal)
    ensures r.Ok? ==> stored <= r.value && addedBytes == Bytes(size, r.value[|stored|..])
  {
    var saved, ids: set<Id> := stored, {};
    for k := 0 to |stored|
      invariant forall id :: id in ids <==> IdUsed(stored[..k], id)
    {
      ids := ids + {stored[k].id};
      IdUsedExtends(stored[..k], stored[k]);
      assert stored[..k] + [stored[k]] == stored[..k + 1];
    }
    assert stored[..|stored|] == stored;
    addedBytes := 0;
    for i := 0 to |incoming|
      invariant stored <= saved && addedBytes == Bytes(size, saved[|stored|..])
      invariant forall id :: id in ids <==> IdUsed(saved, id)
      invariant Collect(places, open, stored, incoming, terminal) ==
                Collect(places, open, saved, incoming[i..], terminal)
    {
      var e := incoming[i];
      assert incoming[i..][0] == e && incoming[i..][1..] == incoming[i + 1..];
      if e.kind.Submit? && !(terminal && i == |incoming| - 1) { return Err(MisplacedSubmit), 0; }
      if !e.kind.Submit? && !e.outcome.NoOutcome? { return Err(StrayOutcome), 0; }
      if e.seqNo < 1 { return Err(SequenceBelowOne), 0; }
      if e.seqNo <= |saved| {
        if saved[e.seqNo - 1] != e { return Err(SequenceConflict), 0; }
        continue;
      }
      if !open { return Err(AttemptFinished), 0; }
      if e.seqNo != |saved| + 1 { return Err(SequenceGap), 0; }
      if e.id in ids { return Err(ReusedEventId), 0; }
      var problem := CheckShape(index, places, e);
      if problem.Some? { return Err(problem.value), 0; }
      if |saved| >= MAX_EVENTS_PER_ATTEMPT { return Err(EventLimit), 0; }
      addedBytes := addedBytes + size(e);
      ids := ids + {e.id};
      IdUsedExtends(saved, e);
      assert (saved + [e])[|stored|..] == saved[|stored|..] + [e];
      assert saved[|stored|..] + [e] != [] && (saved[|stored|..] + [e])[..|saved| - |stored|] == saved[|stored|..];
      saved := saved + [e];
    }
    assert incoming[|incoming|..] == [];
    return Ok(saved), addedBytes;
  }

  lemma {:induction false} IdUsedExtends(log: seq<Event>, e: Event)
    ensures forall id :: IdUsed(log + [e], id) <==> IdUsed(log, id) || id == e.id
  {
    var all := log + [e];
    forall id ensures IdUsed(all, id) <==> IdUsed(log, id) || id == e.id {
      assert all[|log|].id == e.id;
      if IdUsed(log, id) {
        var i :| 0 <= i < |log| && log[i].id == id;
        assert all[i].id == id;
      }
    }
  }

  /** The page-clock part of the second loop, on the variables before event i. */
  method CheckEpoch(st: ScanState, e: Event, first: bool) returns (problem: Option<Problem>)
    requires first <==> st.epoch.None?
    ensures problem == EpochProblem(st, e)
  {
    if st.epoch != Some(e.epoch) {
      if e.epoch in st.seen { return Some(EpochConflict); }
      if e.visible.None? { return Some(EpochNeedsVisible); }
      if !first && !e.kind.Resume? { return Some(EpochNeedsResume); }
    } else {
      if e.elapsed < st.elapsed { return Some(ElapsedNotMonotone); }
    }
    return None;
  }

  lemma {:induction false} ScanNext(places: Places, log: seq<Event>, i: nat)
    requires i < |log| && Scan(places, log[..i]).Ok?
    ensures Scan(places, log[..i + 1]) == ScanStep(places, Scan(places, log[..i]).value, log[i])
    ensures Scan(places, log[..i + 1]).Err? ==> Scan(places, log) == Scan(places, log[..i + 1])
  {
    assert log[..i + 1][..i] == log[..i] && Last(log[..i + 1]) == log[i];
    if Scan(places, log[..i + 1]).Err? {
      ScanErrSticks(places, log, i + 1);
    }
  }

  /** Second loop: the whole log is replayed and validated. */
  method ValidateLog(index: map<Id, Indexed>, ghost places: Places, saved: seq<Event>)
                     returns (problem: Option<Problem>)
    requires Sound(places) && Agree(index, places)
    ensures problem == match Scan(places, saved) case Ok(_) => None case Err(p) => Some(p)
  {
    var st := SCAN_START;
    for i := 0 to |saved|
      invariant Scan(places, saved[..i]) == Ok(st)
      invariant i < |saved| ==> !st.ended
      invariant st.epoch.None? <==> i == 0
    {
      var e := saved[i];
      ScanNext(places, saved, i);
      var clock := CheckEpoch(st, e, i == 0);
      if clock.Some? { return clock; }
      var navigation, next := CheckNavigation(index, places, st.current, e);
      if navigation.Some? { return navigation; }
      st := ScanState(Some(e.epoch), e.elapsed, st.seen + {e.epoch}, next, e.kind.Submit?);
      if e.kind.Submit? && i != |saved| - 1 {
        ScanNext(places, saved, i + 1);
        return Some(SubmitNotTerminal);
      }
    }
    assert saved[..|saved|] == saved;
    return None;
  }

  /** Stores the new events and charges their bytes at all three levels. */
  method Store(run: RunRow, session: SessionRow, a: AttemptRow, saved: seq<Event>, addedBytes: nat)
    modifies run, session, a
    ensures LedgerOf(run, session, a) == Grown(old(LedgerOf(run, session, a)), saved, addedBytes)
    ensures a.nextSeq == |a.log| + 1 && a.finished == old(a.finished) && session.index == old(session.index)
    ensures run.eventBytes - old(run.eventBytes) == run.dataBytes - old(run.dataBytes)
  {
    a.log := saved;
    a.nextSeq := |saved| + 1;
    a.eventBytes := a.eventBytes + addedBytes;
    session.eventBytes := session.eventBytes + addedBytes;
    run.eventBytes := run.eventBytes + addedBytes;
    run.dataBytes := run.dataBytes + addedBytes;
  }

  /** What the handler reports, from the results of its steps. */
  lemma {:induction false} AppendInSteps(env: Env, l: Ledger, incoming: seq<Event>, choice: Option<Choice>)
    requires RequestProblem(incoming, choice) == None
    ensures var c := Collect(env.places, l.open, l.log, incoming, choice.Some?);
            && (c.Err? ==> AppendBatch(env, l, incoming, choice) == Err(c.problem))
            && (c.Ok? ==> l.log <= c.value && AppendBatch(env, l, incoming, choice) == Settle(env, l, c.value))
  {
    CollectExtends(env.places, l.open, l.log, incoming, choice.Some?);
  }

  /** The handler's append: either nothing changes and the problem is reported, or
      the rows hold the appended log, its next number and the added bytes. */
  method AppendEvents(run: RunRow, session: SessionRow, a: AttemptRow, tree: seq<Node>, ids: map<Id, Id>,
                      size: Event -> nat,
                      incoming: seq<Event>, choice: Option<Choice>) returns (r: Result<seq<Event>>)
    requires Labelled(tree, ids)
    modifies run, session, a
    ensures var spec := AppendBatch(SessionEnv(tree, ids, size), old(LedgerOf(run, session, a)), incoming, choice);
            match spec
            case Err(p) => r == Err(p) && unchanged(run) && unchanged(session) && unchanged(a)
            case Ok(next) =>
              && r == Ok(a.log) && LedgerOf(run, session, a) == next
              && a.nextSeq == |a.log| + 1 && a.finished == old(a.finished) && session.index == old(session.index)
              && run.eventBytes - old(run.eventBytes) == run.dataBytes - old(run.dataBytes)
  {
    ghost var env, l := SessionEnv(tree, ids, size), LedgerOf(run, session, a);
    if |incoming| > MAX_EVENTS_PER_REQUEST { return Err(TooManyEvents); }
    if choice.Some? {
      if |incoming| == 0 || !incoming[|incoming| - 1].kind.Submit? { return Err(FinishNeedsSubmit); }
      var last := incoming[|incoming| - 1];
      if last.outcome != choice.value.outcome || last.nodeId != choice.value.nodeId { return Err(SubmitMismatch); }
    }
    AppendInSteps(env, l, incoming, choice);
    var index := IndexNodes(tree, ids, "");
    IndexesAreSound(tree, ids);
    var collected, addedBytes :=
        CollectEvents(index, env.places, size, a.log, !a.finished && a.index == session.index, incoming, choice.Some?);
    if collected.Err? { return Err(collected.problem); }
    var saved := collected.value;
    if a.eventBytes + addedBytes > MAX_ATTEMPT_BYTES { return Err(AttemptBytesLimit); }
    if session.storageBytes + session.eventBytes + addedBytes > MAX_SESSION_BYTES { return Err(SessionBytesLimit); }
    if run.dataBytes + addedBytes > MAX_RUN_BYTES { return Err(RunBytesLimit); }
    var problem := ValidateLog(index, env.places, saved);
    if problem.Some? { return Err(problem.value); }
    assert AppendBatch(env, l, incoming, choice) == Ok(Grown(l, saved, addedBytes));
    Store(run, session, a, saved, addedBytes);
    return Ok(saved);
  }
}
