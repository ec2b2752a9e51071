/** The browser's side: what is saved durably, what lives only in the page, and how
    each handler changes both. A page that meets a SequenceConflict is marked. */
module Client {
  import opened Common
  import opened Trees
  import opened Events
  import opened Append
  import opened Navigation
  import opened Outbox
  import opened Sessions

  const MAX_EVENT_BATCH: nat := 200

  /** Identity, clock reading and visibility taken at the moment of a click. */
  datatype Stamp = Stamp(id: Id, elapsed: int, epoch: Epoch, visible: bool)

  datatype StartCommand = StartCommand(commandId: Id, taskId: Id, skip: bool, submission: Stamp)

  datatype FinishCommand = FinishCommand(attemptId: Id, commandId: Id, outcome: Outcome, nodeId: Id, events: seq<Event>)

  /** What survives a reload. Absent IDs are the empty string. */
  datatype Saved = Saved(sessionId: Id, attemptId: Id, nextSeq: int, events: seq<Event>,
                         startCommand: Option<StartCommand>, finishCommand: Option<FinishCommand>)

  const NOTHING_SAVED := Saved("", "", 0, [], None, None)

  /** What a reload loses. */
  datatype Page = Page(view: Option<PublicSession>, current: Id, selected: Id, active: bool, blocked: bool,
                       conflict: bool,
                       epoch: Epoch, lastElapsed: int)

  datatype Tab = Tab(saved: Saved, page: Page)

  function PlacesOf(view: PublicSession): Places
  {
    IndexTree(view.tree, [])
  }

  function MakeEvent(nextSeq: int, kind: Kind, nodeId: Id, outcome: Outcome, stamp: Stamp): Event
  {
    Event(stamp.id, nextSeq, kind, nodeId, stamp.elapsed, stamp.epoch, Some(stamp.visible), outcome)
  }

  /** showError on a conflict: the page stops for good. */
  function Conflicted(tab: Tab): Tab
  {
    tab.(page := tab.page.(blocked := true, active := false, conflict := true))
  }

  /** Appends one event to the outbox, unless the page may not record. */
  function RecordIn(tab: Tab, kind: Kind, nodeId: Id, stamp: Stamp): Tab
  {
    if !tab.page.active || tab.page.blocked || tab.saved.finishCommand.Some? then tab
    else
      var event := MakeEvent(tab.saved.nextSeq, kind, nodeId, NoOutcome, stamp);
      tab.(saved := tab.saved.(events := tab.saved.events + [event], nextSeq := tab.saved.nextSeq + 1),
           page := tab.page.(lastElapsed := stamp.elapsed))
  }

  predicate HasTreeShown(events: seq<Event>)
  {
    exists i :: 0 <= i < |events| && events[i].kind.TreeShown?
  }

  /** acceptSession once the outbox has been reconciled. */
  function Adopt(tab: Tab, value: PublicSession, restored: Restored, resuming: bool, skipTree: bool, stamp: Stamp): Tab
    requires value.attempt.Some?
  {
    var at := Replay(PlacesOf(value), SortBySeq(restored.events));
    var startingSkip := if skipTree then tab.saved.startCommand else None;
    var adopted := Tab(Saved(value.id, value.attempt.value.id, restored.nextSeq, restored.pending, startingSkip, None),
                       tab.page.(view := Some(value), current := at.0, selected := at.1, active := !skipTree));
    if skipTree then adopted
    else if !HasTreeShown(restored.events) then RecordIn(adopted, TreeShown, "", stamp)
    else if resuming then RecordIn(adopted, Resume, at.0, stamp)
    else adopted
  }

  /** acceptSession. None is the conflict. */
  function AcceptSession(tab: Tab, value: PublicSession, resuming: bool, skipTree: bool, stamp: Stamp): Option<Tab>
  {
    if value.attempt.None? || value.completed then
      Some(Tab(Saved(value.id, "", 0, [], None, None),
               tab.page.(view := Some(value), current := "", selected := "", active := false)))
    else if tab.saved.attemptId != "" && tab.saved.attemptId != value.attempt.value.id && tab.saved.events != []
        then None
    else
      var attempt := value.attempt.value;
      var pending := if tab.saved.attemptId == attempt.id then tab.saved.events else [];
      var restored := Reconcile(attempt.events, pending, attempt.nextSeq);
      if restored.None? then None else Some(Adopt(tab, value, restored.value, resuming, skipTree, stamp))
  }

  /** The first events of the outbox that a checkpoint may carry. */
  function Unsubmitted(events: seq<Event>): seq<Event>
  {
    if events == [] then []
    else (if events[0].kind.Submit? then [] else [events[0]]) + Unsubmitted(events[1..])
  }

  function Batch(events: seq<Event>): seq<Event>
  {
    var rest := Unsubmitted(events);
    if |rest| <= MAX_EVENT_BATCH then rest else rest[..MAX_EVENT_BATCH]
  }

  /** checkpoint once its reply is in: the whole batch must be acknowledged and no
      more than the batch; then the live outbox is pruned. None is the conflict. */
  function Checkpointed(saved: Saved, attemptId: Id, batch: seq<Event>, nextSeq: int): Option<Saved>
  {
    if saved.attemptId != attemptId then None
    else
      var left := AckEvents(batch, nextSeq);
      if left != Some([]) then None
      else
        var events := AckEvents(saved.events, nextSeq);
        if events.None? then None else Some(saved.(events := events.value))
  }

  /** sendFinish still has a prefix to checkpoint. */
  predicate PrefixLeft(saved: Saved)
  {
    saved.finishCommand.Some? && saved.finishCommand.value.events != [] &&
    exists i :: 0 <= i < |saved.events| && saved.events[i].seqNo < saved.finishCommand.value.events[0].seqNo
  }

  function LastOf(events: seq<Event>, n: nat): seq<Event>
  {
    if |events| <= n then events else events[|events| - n..]
  }

  /** finish's first part: the terminal event and the frozen command in one update. */
  function ConfirmFinish(tab: Tab, attemptId: Id, commandId: Id, outcome: Outcome, nodeId: Id, stamp: Stamp): Tab
  {
    var node := if outcome.Selected? then nodeId else "";
    var terminal := MakeEvent(tab.saved.nextSeq, Submit, node, outcome, stamp);
    var events := tab.saved.events + [terminal];
    var command := FinishCommand(attemptId, commandId, outcome, node, LastOf(events, MAX_EVENT_BATCH));
    Tab(tab.saved.(events := events, nextSeq := tab.saved.nextSeq + 1, finishCommand := Some(command),
                   startCommand := None),
        tab.page.(active := false))
  }

  /** The recovery branch of init, when the session has been fetched. None is the conflict. */
  function Recover(tab: Tab, value: PublicSession, stamp: Stamp): Option<Tab>
  {
    var seen := tab.(page := tab.page.(view := Some(value)));
    if tab.saved.sessionId != "" && tab.saved.sessionId != value.id then None
    else if tab.saved.finishCommand.Some? then
      if value.attempt.Some? && value.attempt.value.id == tab.saved.finishCommand.value.attemptId then
        var restored := Reconcile(value.attempt.value.events, tab.saved.events, value.attempt.value.nextSeq);
        if restored.None? then None else Some(seen.(saved := seen.saved.(events := restored.value.pending)))
      else Some(seen)
    else if tab.saved.startCommand.Some? then Some(seen)
    else AcceptSession(tab, value, true, false, stamp)
  }

  // ------------------------------------------------------- the page as an object

  /** Replies of the server to a series of checkpoint requests: a number or a failure. */
  type Replies = nat -> Option<int>

  /** The module-level variables of the participant page and the functions that move them. */
  class ParticipantPage {
    var saved: Saved
    var page: Page

    constructor (saved: Saved, page: Page)
      ensures this.saved == saved && this.page == page
    {
      this.saved, this.page := saved, page;
    }

    function State(): Tab
      reads this
    {
      Tab(saved, page)
    }

    method Record(kind: Kind, nodeId: Id, stamp: Stamp)
      modifies this
      ensures State() == RecordIn(old(State()), kind, nodeId, stamp)
    {
      if !page.active || page.blocked || saved.finishCommand.Some? { return; }
      var event := MakeEvent(saved.nextSeq, kind, nodeId, NoOutcome, stamp);
      saved := saved.(events := saved.events + [event]);
      saved := saved.(nextSeq := saved.nextSeq + 1);
      page := page.(lastElapsed := stamp.elapsed);
    }

    /** The page may record. */
    ghost predicate Recording()
      reads this
    {
      page.active && !page.blocked && saved.finishCommand.None?
    }

    /** One step of a move: the event is recorded and the location follows. */
    method Step(places: Places, kind: Kind, next: Id, stamp: Stamp) returns (ghost e: Event)
      requires Recording() && (kind.Enter? || kind.Back?)
      modifies this
      ensures Recording() && page.current == next && page.selected == old(page.selected)
      ensures e.kind == kind && e.nodeId == next
      ensures saved.events == old(saved.events) + [e] && saved.nextSeq == old(saved.nextSeq) + 1
    {
      e := MakeEvent(saved.nextSeq, kind, next, NoOutcome, stamp);
      Record(kind, next, stamp);
      page := page.(current := next);
    }

    /** The second half of moveTo: one enter for each level from `common` on. */
    method Descend(places: Places, target: Id, common: nat, stamp: nat -> Stamp) returns (ghost moves: seq<Event>)
      requires Sound(places) && (target == "" || target in places) && common <= |Path(places, target)|
      requires Recording() && page.current == LastOr(Path(places, target)[..common])
      modifies this
      ensures Recording() && page.current == target && page.selected == old(page.selected)
      ensures saved.events == old(saved.events) + moves && saved.nextSeq == old(saved.nextSeq) + |moves|
      ensures |moves| == |Path(places, target)| - common
      ensures Walk(places, old(page.current), moves, target)
      ensures forall i :: 0 <= i < |moves| ==> moves[i].kind.Enter?
    {
      var to := Path(places, target);
      moves := [];
      assert old(saved.events) + [] == old(saved.events);
      for i := common to |to|
        invariant page.current == LastOr(to[..i]) && page.selected == old(page.selected) && Recording()
        invariant saved.events == old(saved.events) + moves && saved.nextSeq == old(saved.nextSeq) + |moves|
        invariant |moves| == i - common && Walk(places, old(page.current), moves, page.current)
        invariant forall k :: 0 <= k < |moves| ==> moves[k].kind.Enter?
      {
        EnterAlongPath(places, target, i);
        ghost var at := page.current;
        ghost var e := Step(places, Enter, to[i], stamp(i + 1));
        WalkFurther(places, old(page.current), moves, at, e);
        assert old(saved.events) + moves + [e] == old(saved.events) + (moves + [e]);
        moves := moves + [e];
        assert LastOr(to[..i + 1]) == to[i];
      }
      assert to[..|to|] == to;
      LocationOfPath(places, target);
    }

    /** moveTo without a type: from any location to any other, one step back to the
        common ancestor if that is not where the page is, then one enter a level. */
    method MoveTo(places: Places, target: Id, stamp: nat -> Stamp) returns (ghost moves: seq<Event>)
      requires Sound(places)
      requires page.current == "" || page.current in places
      requires target == "" || target in places
      requires Recording()
      modifies this
      ensures page.current == target && page.selected == old(page.selected)
      ensures saved.events == old(saved.events) + moves && saved.nextSeq == old(saved.nextSeq) + |moves|
      ensures Walk(places, old(page.current), moves, target)
      ensures forall i :: 0 <= i < |moves| ==> moves[i].kind.Enter? || (i == 0 && moves[i].kind.Back?)
      ensures old(page.current) == target ==> moves == []
    {
      var from, to := Path(places, page.current), Path(places, target);
      var common := 0;
      while common < |from| && common < |to| && from[common] == to[common]
        invariant common <= |from| && common <= |to| && from[..common] == to[..common]
      {
        common := common + 1;
      }
      LocationOfPath(places, page.current);
      if common < |from| {
        var up := LastOr(from[..common]);
        PrefixIsPath(places, page.current, common);
        ghost var e := Step(places, Back, up, stamp(0));
        moves := Descend(places, target, common, stamp);
        WalkFrom(places, old(page.current), e, moves, target);
        assert old(saved.events) + [e] + moves == old(saved.events) + ([e] + moves);
        moves := [e] + moves;
      } else {
        assert from[..common] == from;
        moves := Descend(places, target, common, stamp);
      }
    }

    /** checkpoint: the reply has come back with a next sequence number. */
    method Checkpoint(attemptId: Id, batch: seq<Event>, nextSeq: int) returns (ok: bool)
      modifies this`saved
      ensures ok <==> Checkpointed(old(saved), attemptId, batch, nextSeq).Some?
      ensures saved == if ok then Checkpointed(old(saved), attemptId, batch, nextSeq).value else old(saved)
    {
      if saved.attemptId != attemptId { return false; }
      var left := AckEvents(batch, nextSeq);
      if left.None? || left.value != [] { return false; }
      var events := AckEvents(saved.events, nextSeq);
      if events.None? { return false; }
      saved := saved.(events := events.value);
      return true;
    }

    /** sendFinish's loop, for any replies whatever: it ends, because a reply either
        fails, conflicts, or acknowledges a nonempty batch. When it ends by itself no
        event before the frozen command is left, and the command is untouched. */
    method SendPrefix(replies: Replies) returns (sent: nat, ready: bool)
      requires saved.finishCommand.Some? && saved.finishCommand.value.events != []
      requires forall i, j :: 0 <= i < j < |saved.events| ==> saved.events[i].seqNo < saved.events[j].seqNo
      requires forall i :: 0 <= i < |saved.events| && saved.events[i].kind.Submit? ==>
                 saved.events[i].seqNo >= saved.finishCommand.value.events[0].seqNo
      modifies this
      ensures
        && saved.finishCommand == old(saved.finishCommand)
        && saved.attemptId == old(saved.attemptId)
        && saved.nextSeq == old(saved.nextSeq)
      ensures ready ==> !PrefixLeft(saved)
      ensures sent <= |old(saved.events)| + 1
      ensures exists k :: 0 <= k <= |old(saved.events)| && saved.events == old(saved.events)[k..]
    {
      sent, ready := 0, false;
      ghost var dropped := 0;
      ghost var first := saved.finishCommand.value.events[0].seqNo;
      assert old(saved.events)[0..] == old(saved.events);
      while true
        invariant
          && saved.finishCommand == old(saved.finishCommand)
          && saved.attemptId == old(saved.attemptId)
          && saved.nextSeq == old(saved.nextSeq)
        invariant 0 <= dropped <= |old(saved.events)| && saved.events == old(saved.events)[dropped..]
        invariant sent <= dropped
        decreases |saved.events|
      {
        if page.blocked { return; }
        var left := false;
        for i := 0 to |saved.events|
          invariant left <==>
                      exists j :: 0 <= j < i && saved.events[j].seqNo < saved.finishCommand.value.events[0].seqNo
        {
          if saved.events[i].seqNo < saved.finishCommand.value.events[0].seqNo { left := true; }
        }
        if !left { return sent, true; }
        var batch := Batch(saved.events);
        var reply := replies(sent);
        sent := sent + 1;
        if reply.None? { return; }
        ghost var before := saved.events;
        assert saved.events == old(saved.events)[dropped..];
        FirstIsUnsubmitted(saved.events, first);
        var ok := Checkpoint(saved.finishCommand.value.attemptId, batch, reply.value);
        if !ok { return; }
        ghost var k := AckDropsPrefix(before, reply.value);
        FirstIsAcknowledged(before, batch, reply.value);
        dropped := dropped + k;
      }
    }
  }

  // ------------------------------------------------------------------ moving about

  /** The location after some moves. */
  function Destination(from: Id, moves: seq<Event>): Id
  {
    if moves == [] then from else Moved(Destination(from, moves[..|moves| - 1]), Last(moves))
  }

  /** Events that the server's navigation rules accept one after the other. */
  ghost predicate Walk(places: Places, from: Id, moves: seq<Event>, to: Id)
  {
    && Destination(from, moves) == to
    && forall i {:trigger WalkAt(places, from, moves, i)} :: 0 <= i < |moves| ==> WalkAt(places, from, moves, i)
  }

  ghost predicate WalkAt(places: Places, from: Id, moves: seq<Event>, i: nat)
    requires i < |moves|
  {
    NavOk(places, Destination(from, moves[..i]), moves[i])
  }

  lemma {:induction false} WalkFurther(places: Places, from: Id, moves: seq<Event>, at: Id, e: Event)
    requires Walk(places, from, moves, at) && NavOk(places, at, e)
    ensures Walk(places, from, moves + [e], Moved(at, e))
  {
    var all := moves + [e];
    assert all[..|moves|] == moves;
    forall i {:trigger WalkAt(places, from, all, i)} | 0 <= i < |all| ensures WalkAt(places, from, all, i) {
      assert i < |moves| ==> all[..i] == moves[..i] && WalkAt(places, from, moves, i);
    }
  }

  lemma {:induction false} WalkFrom(places: Places, from: Id, e: Event, moves: seq<Event>, to: Id)
    requires NavOk(places, from, e) && Walk(places, Moved(from, e), moves, to)
    ensures Walk(places, from, [e] + moves, to)
  {
    var all := [e] + moves;
    AfterFirst(from, e, moves);
    forall i {:trigger WalkAt(places, from, all, i)} | 0 <= i < |all| ensures WalkAt(places, from, all, i) {
      if i > 0 {
        assert WalkAt(places, Moved(from, e), moves, i - 1);
        assert all[..i] == [e] + moves[..i - 1];
        AfterFirst(from, e, moves[..i - 1]);
      }
    }
  }

  lemma {:induction false} AfterFirst(from: Id, e: Event, moves: seq<Event>)
    ensures Destination(from, [e] + moves) == Destination(Moved(from, e), moves)
  {
    if moves == [] {
      assert [e] + moves == [e] && [e][..0] == [];
    } else {
      assert ([e] + moves)[..|moves|] == [e] + moves[..|moves| - 1];
      AfterFirst(from, e, moves[..|moves| - 1]);
    }
  }

  /** A location is the last node of its path. */
  lemma {:induction false} LocationOfPath(places: Places, id: Id)
    requires Sound(places) && (id == "" || id in places)
    ensures LastOr(Path(places, id)) == id
  {}

  /** The node that ends a beginning of a path has that beginning as its path. */
  lemma {:induction false} PrefixIsPath(places: Places, id: Id, k: nat)
    requires Sound(places) && k <= |Path(places, id)|
    ensures LastOr(Path(places, id)[..k]) == "" || LastOr(Path(places, id)[..k]) in places
    ensures Path(places, LastOr(Path(places, id)[..k])) == Path(places, id)[..k]
  {
    if k > 0 {
      AncestorPath(places, id, k - 1);
    }
  }

  lemma {:induction false} EnterAlongPath(places: Places, target: Id, i: nat)
    requires Sound(places) && i < |Path(places, target)|
    ensures var path := Path(places, target);
            path[i] in places && Path(places, path[i]) == Path(places, LastOr(path[..i])) + [path[i]]
  {
    AncestorPath(places, target, i);
    PrefixIsPath(places, target, i);
    assert Path(places, target)[..i + 1] == Path(places, target)[..i] + [Path(places, target)[i]];
  }

  /** A strictly numbered outbox with something before the tail starts with it. */
  lemma {:induction false} FirstIsUnsubmitted(events: seq<Event>, first: int)
    requires forall i, j :: 0 <= i < j < |events| ==> events[i].seqNo < events[j].seqNo
    requires forall i :: 0 <= i < |events| && events[i].kind.Submit? ==> events[i].seqNo >= first
    requires exists i :: 0 <= i < |events| && events[i].seqNo < first
    ensures Batch(events) != [] && Batch(events)[0] == events[0]
  {
    var i :| 0 <= i < |events| && events[i].seqNo < first;
    assert events[0].seqNo <= events[i].seqNo;
  }

  lemma {:induction false} AckDropsPrefix(events: seq<Event>, nextSeq: int) returns (k: nat)
    requires forall i, j :: 0 <= i < j < |events| ==> events[i].seqNo < events[j].seqNo
    ensures k <= |events| && FromSeq(events, nextSeq) == events[k..]
    ensures events != [] && events[0].seqNo < nextSeq ==> k > 0
  {
    k := 0;
    if events != [] {
      var init := events[..|events| - 1];
      if Last(events).seqNo >= nextSeq {
        k := AckDropsPrefix(init, nextSeq);
        assert events[k..] == init[k..] + [Last(events)];
      } else {
        NothingFrom(init, nextSeq);
        k := |events|;
      }
    }
  }

  lemma {:induction false} NothingFrom(events: seq<Event>, nextSeq: int)
    requires forall i :: 0 <= i < |events| ==> events[i].seqNo < nextSeq
    ensures FromSeq(events, nextSeq) == []
  {
    if events != [] {
      NothingFrom(events[..|events| - 1], nextSeq);
    }
  }

  /** If nothing of a batch is left, its first event lies before the acknowledgment. */
  lemma {:induction false} FirstIsAcknowledged(events: seq<Event>, batch: seq<Event>, nextSeq: int)
    requires batch != [] && events != [] && batch[0] == events[0] && AckEvents(batch, nextSeq) == Some([])
    ensures events[0].seqNo < nextSeq
  {
    NoneKept(batch, nextSeq, 0);
  }

  lemma {:induction false} NoneKept(events: seq<Event>, nextSeq: int, i: nat)
    requires i < |events| && FromSeq(events, nextSeq) == []
    ensures events[i].seqNo < nextSeq
  {
    if i < |events| - 1 {
      NoneKept(events[..|events| - 1], nextSeq, i);
    }
  }
}
