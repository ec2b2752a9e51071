/** Sending requests, losing replies and reloading keep every invariant intact. */
module NetworkSending {
  import opened Common
  import opened Trees
  import opened Events
  import opened Append
  import opened Navigation
  import opened Segments
  import opened Sessions
  import opened SessionRuns
  import opened Client
  import opened Network
  import opened NetworkSafety

  lemma {:induction false} FarthestGrows(requests: seq<Message>, m: Message, a: Id)
    ensures Farthest(requests + [m], a) == if m.PostEvents? && m.attemptId == a && m.events != []
            then Max(Farthest(requests, a), EndOf(m.events)) else Farthest(requests, a)
  {
    assert (requests + [m])[..|requests|] == requests;
  }

  lemma {:induction false} RequestJoins(s: Session, hs: map<Id, seq<Event>>, saved: Saved, requests: seq<Message>,
                                        m: Message)
    requires RequestsOk(s, hs, saved, requests) && RequestOk(s, hs, saved, m)
    ensures RequestsOk(s, hs, saved, requests + [m])
  {
    FarthestGrows(requests, m, saved.attemptId);
    var all := requests + [m];
    forall n {:trigger RequestOk(s, hs, saved, all[n])} | 0 <= n < |all| ensures RequestOk(s, hs, saved, all[n]) {
      assert n < |requests| ==> RequestOk(s, hs, saved, requests[n]);
    }
  }

  lemma {:induction false} ReloadKeeps(frozen: Frozen, w: World, m: Move)
    requires Safe(frozen, w) && m.Reload? && Possible(w, m)
    ensures Safe(frozen, Next(frozen, w, m))
  {
    RequestJoins(w.server, w.histories, w.tab.saved, w.requests, GetSession);
  }

  lemma {:induction false} FailKeeps(frozen: Frozen, w: World, m: Move)
    requires Safe(frozen, w) && m.Fail? && Possible(w, m)
    ensures Safe(frozen, Next(frozen, w, m))
  {}

  lemma {:induction false} BeginStartKeeps(frozen: Frozen, w: World, m: Move)
    requires Safe(frozen, w) && m.BeginStart? && Possible(w, m)
    ensures Safe(frozen, Next(frozen, w, m))
  {
    var s, hs, saved := w.server, w.histories, w.tab.saved;
    var saved' := Next(frozen, w, m).tab.saved;
    assert saved.attemptId == "";
    assert FindTask(frozen, s.tasks[s.index]).id == s.tasks[s.index];
    forall n {:trigger RequestOk(s, hs, saved', w.requests[n])} | 0 <= n < |w.requests|
        ensures RequestOk(s, hs, saved', w.requests[n]) {
      assert RequestOk(s, hs, saved, w.requests[n]);
    }
  }

  lemma {:induction false} PressStartKeeps(frozen: Frozen, w: World, m: Move)
    requires Safe(frozen, w) && m.PressStart? && Possible(w, m)
    ensures Safe(frozen, Next(frozen, w, m))
  {
    var c := w.tab.saved.startCommand.value;
    RequestJoins(w.server, w.histories, w.tab.saved, w.requests, PostStart(c.commandId, c.taskId));
  }

  lemma {:induction false} PressFinishKeeps(frozen: Frozen, w: World, m: Move)
    requires Safe(frozen, w) && m.PressFinish? && Possible(w, m)
    ensures Safe(frozen, Next(frozen, w, m))
  {
    var s, hs, saved := w.server, w.histories, w.tab.saved;
    var c, h := saved.finishCommand.value, Hist(hs, saved.attemptId);
    NothingBeforeFrozen(EnvOf(frozen, s).places, s, hs, saved);
    RequestJoins(s, hs, saved, w.requests, PostFinish(c));
  }

  lemma {:induction false} HistorySequenced(places: Places, s: Session, hs: map<Id, seq<Event>>, a: Id)
    requires HistoriesOk(places, s, hs)
    ensures Storable(places, Hist(hs, a))
  {
    if a in hs {
      assert HistoryOk(places, s, hs, a);
    }
  }

  /** When nothing before the frozen command is left, all of it has left the outbox. */
  lemma {:induction false} NothingBeforeFrozen(places: Places, s: Session, hs: map<Id, seq<Event>>, saved: Saved)
    requires HistoriesOk(places, s, hs) && PhaseOk(s, hs, saved) && saved.attemptId != "" && saved.finishCommand.Some?
    ensures var f := |Hist(hs, saved.attemptId)| - |saved.finishCommand.value.events|;
            PrefixLeft(saved) <==> Acked(saved, hs) < f
  {
    HistorySequenced(places, s, hs, saved.attemptId);
    SmallerNumberLeft(Hist(hs, saved.attemptId), Acked(saved, hs), |saved.finishCommand.value.events|);
  }

  /** The tail from p holds a smaller number than the last n events do exactly when it
      starts before them. */
  lemma {:induction false} SmallerNumberLeft(h: seq<Event>, p: nat, n: nat)
    requires Sequenced(h) && p <= |h| && 0 < n <= |h|
    ensures (exists i :: 0 <= i < |h[p..]| && h[p..][i].seqNo < h[|h| - n..][0].seqNo) <==> p < |h| - n
  {
    assert h[|h| - n..][0] == h[|h| - n];
    assert forall i :: 0 <= i < |h| - p ==> h[p..][i] == h[p + i];
    if p < |h| - n { assert h[p..][0] == h[p]; }
  }

  // -------------------------------------------------------------------- a batch

  lemma {:induction false} UnsubmittedIsAll(events: seq<Event>)
    requires NoSubmit(events)
    ensures Unsubmitted(events) == events
  {
    if events != [] {
      UnsubmittedIsAll(events[1..]);
    }
  }

  lemma {:induction false} UnsubmittedStops(before: seq<Event>, e: Event)
    requires NoSubmit(before) && e.kind.Submit?
    ensures Unsubmitted(before + [e]) == before
  {
    if before != [] {
      assert (before + [e])[1..] == before[1..] + [e];
      UnsubmittedStops(before[1..], e);
    }
  }

  lemma {:induction false} UnsubmittedDropsLast(events: seq<Event>)
    requires events != [] && NoSubmit(events[..|events| - 1]) && Last(events).kind.Submit?
    ensures Unsubmitted(events) == events[..|events| - 1]
  {
    assert events == events[..|events| - 1] + [Last(events)];
    UnsubmittedStops(events[..|events| - 1], Last(events));
  }

  /** How many events of the history a checkpoint may carry in all. */
  ghost function Sendable(h: seq<Event>): nat
  {
    if h != [] && Last(h).kind.Submit? then |h| - 1 else |h|
  }

  /** The batch is the next stretch of the history, as long as the limits allow. */
  lemma {:induction false} BatchIsNext(h: seq<Event>, p: nat)
    requires p <= |h| && NoSubmit(h[..Sendable(h)])
    ensures var n := Sendable(h);
            Batch(h[p..]) == if p >= n then [] else if n - p <= MAX_EVENT_BATCH then h[p..n]
                else h[p..p + MAX_EVENT_BATCH]
  {
    var rest, n := h[p..], Sendable(h);
    if n == |h| {
      assert h[..n] == h;
      UnsubmittedIsAll(rest);
      assert h[p..n] == rest;
    } else if p < |h| {
      assert rest[..|rest| - 1] == h[p..n];
      UnsubmittedDropsLast(rest);
    }
  }

  /** A stretch without submit ends before the submit. */
  lemma {:induction false} SegmentIsSendable(s: Session, hs: map<Id, seq<Event>>, a: Id, batch: seq<Event>)
    requires Segment(s, hs, a, batch)
    ensures EndOf(batch) <= Sendable(Hist(hs, a))
  {
    var h := Hist(hs, a);
    assert batch[|batch| - 1] == h[EndOf(batch) - 1];
  }

  /** The new batch reaches at least as far as any sent before. */
  lemma {:induction false} FarthestWithin(s: Session, hs: map<Id, seq<Event>>, saved: Saved, requests: seq<Message>,
                                          bound: int)
    requires forall n {:trigger RequestOk(s, hs, saved, requests[n])} :: 0 <= n < |requests| ==>
               RequestOk(s, hs, saved, requests[n])
    requires saved.attemptId != "" && bound >= 0
    requires bound >= Acked(saved, hs) + MAX_EVENT_BATCH || bound >= Sendable(Hist(hs, saved.attemptId))
    ensures Farthest(requests, saved.attemptId) <= bound
  {
    if requests != [] {
      var init, m := requests[..|requests| - 1], Last(requests);
      forall n {:trigger RequestOk(s, hs, saved, init[n])} | 0 <= n < |init| ensures RequestOk(s, hs, saved, init[n]) {
        assert RequestOk(s, hs, saved, requests[n]);
      }
      FarthestWithin(s, hs, saved, init, bound);
      assert RequestOk(s, hs, saved, requests[|requests| - 1]);
      if m.PostEvents? && m.attemptId == saved.attemptId {
        SegmentIsSendable(s, hs, saved.attemptId, m.events);
      }
    }
  }

  lemma {:induction false} StillOpen(places: Places, s: Session, hs: map<Id, seq<Event>>, saved: Saved)
    requires HistoriesOk(places, s, hs) && PhaseOk(s, hs, saved) && saved.attemptId != ""
    requires saved.finishCommand.Some? ==> PrefixLeft(saved)
    ensures Current(s, saved.attemptId) && 0 <= Acked(saved, hs) <= |s.attempts[s.index].log|
    ensures
      && Acked(saved, hs) <= |Hist(hs, saved.attemptId)|
      && saved.events == Hist(hs, saved.attemptId)[Acked(saved, hs)..]
    ensures NoSubmit(Hist(hs, saved.attemptId)[..Sendable(Hist(hs, saved.attemptId))])
  {
    if saved.finishCommand.Some? {
      NothingBeforeFrozen(places, s, hs, saved);
    }
  }

  /** A stretch of a numbered history, from where the outbox begins. */
  lemma {:induction false} StretchIsSegment(s: Session, hs: map<Id, seq<Event>>, a: Id, p: nat, to: nat)
    requires
      && Progress(s)
      && Current(s, a)
      && Sequenced(Hist(hs, a))
      && p < to <= |Hist(hs, a)|
      && p <= |s.attempts[s.index].log|
    requires to <= p + MAX_EVENT_BATCH && to <= Sendable(Hist(hs, a)) && NoSubmit(Hist(hs, a)[..Sendable(Hist(hs, a))])
    ensures Segment(s, hs, a, Hist(hs, a)[p..to]) && EndOf(Hist(hs, a)[p..to]) == to
  {
    var h := Hist(hs, a);
    RowOfIsUnique(s, s.index);
    assert forall i :: 0 <= i < to - p ==> h[p..to][i] == h[..Sendable(h)][p + i];
  }

  lemma {:induction false} StretchBegins(h: seq<Event>, p: nat, to: nat)
    requires p <= to <= |h|
    ensures h[p..to] <= h[p..]
  {}

  lemma {:induction false} BatchIsSegment(s: Session, hs: map<Id, seq<Event>>, a: Id, events: seq<Event>, p: nat)
    requires
      && Progress(s)
      && Current(s, a)
      && Sequenced(Hist(hs, a))
      && p <= |s.attempts[s.index].log|
      && p <= |Hist(hs, a)|
    requires NoSubmit(Hist(hs, a)[..Sendable(Hist(hs, a))]) && events == Hist(hs, a)[p..] && Batch(events) != []
    ensures Segment(s, hs, a, Batch(events)) && Batch(events) <= events
    ensures EndOf(Batch(events)) == p + MAX_EVENT_BATCH
            || (EndOf(Batch(events)) == Sendable(Hist(hs, a)) <= p + MAX_EVENT_BATCH)
  {
    BatchIsNext(Hist(hs, a), p);
    StretchBegins(Hist(hs, a), p, p + |Batch(events)|);
    StretchIsSegment(s, hs, a, p, p + |Batch(events)|);
  }

  /** What makes a new checkpoint safe to send. */
  ghost predicate BatchReady(s: Session, hs: map<Id, seq<Event>>, saved: Saved, requests: seq<Message>,
                             batch: seq<Event>)
  {
    && batch != [] && batch <= saved.events && saved.attemptId != "" && Current(s, saved.attemptId)
    && RequestOk(s, hs, saved, PostEvents(saved.attemptId, batch))
    && Farthest(requests, saved.attemptId) <= EndOf(batch)
    && (saved.finishCommand.Some? ==> NeverSent(requests, saved.finishCommand.value))
  }

  lemma {:induction false} BatchIsReady(places: Places, s: Session, hs: map<Id, seq<Event>>, saved: Saved,
                                        requests: seq<Message>)
    requires HistoriesOk(places, s, hs) && PhaseOk(s, hs, saved) && Progress(s) && RequestsOk(s, hs, saved, requests)
    requires saved.attemptId != "" && Batch(saved.events) != [] && (saved.finishCommand.Some? ==> PrefixLeft(saved))
    ensures BatchReady(s, hs, saved, requests, Batch(saved.events))
  {
    StillOpen(places, s, hs, saved);
    HistorySequenced(places, s, hs, saved.attemptId);
    BatchIsSegment(s, hs, saved.attemptId, saved.events, Acked(saved, hs));
    FarthestWithin(s, hs, saved, requests, EndOf(Batch(saved.events)));
    if saved.finishCommand.Some? {
      NothingBeforeFrozen(places, s, hs, saved);
      UnsentFinish(s, hs, saved, requests);
    }
  }

  lemma {:induction false} BatchSent(frozen: Frozen, w: World, batch: seq<Event>)
    requires Safe(frozen, w) && !w.tab.page.blocked && BatchReady(w.server, w.histories, w.tab.saved, w.requests, batch)
    ensures Safe(frozen, Sent(w, PostEvents(w.tab.saved.attemptId, batch),
                              ForCheckpoint(|w.requests|, w.tab.saved.attemptId, batch)))
  {
    var a := w.tab.saved.attemptId;
    RequestJoins(w.server, w.histories, w.tab.saved, w.requests, PostEvents(a, batch));
    FarthestGrows(w.requests, PostEvents(a, batch), a);
  }

  lemma {:induction false} SendBatchKeeps(frozen: Frozen, w: World, m: Move)
    requires Safe(frozen, w) && m.SendBatch? && Possible(w, m)
    ensures Safe(frozen, Next(frozen, w, m))
  {
    BatchIsReady(EnvOf(frozen, w.server).places, w.server, w.histories, w.tab.saved, w.requests);
    BatchSent(frozen, w, Batch(w.tab.saved.events));
  }

  lemma {:induction false} UnsentFinish(s: Session, hs: map<Id, seq<Event>>, saved: Saved, requests: seq<Message>)
    requires
      && Progress(s)
      && RequestsOk(s, hs, saved, requests)
      && saved.finishCommand.Some?
      && Current(s, saved.attemptId)
    requires saved.finishCommand.value.attemptId == saved.attemptId
    requires Acked(saved, hs) < |Hist(hs, saved.attemptId)| - |saved.finishCommand.value.events|
    ensures NeverSent(requests, saved.finishCommand.value)
  {
    forall n | 0 <= n < |requests| ensures requests[n] != PostFinish(saved.finishCommand.value) {
      assert RequestOk(s, hs, saved, requests[n]);
    }
  }
}
