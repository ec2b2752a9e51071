/** The browser's durable outbox: acknowledging what the server stored and
    reconciling what is still pending after a reload. None stands for the
    SequenceConflict error. */
module Outbox {
  import opened Common
  import opened Events
  import opened Append
  import opened EventStore
  import opened Navigation

  // ------------------------------------------------------------ acknowledgment

  function MaxSeq(events: seq<Event>): int
    requires events != []
  {
    if |events| == 1 then events[0].seqNo
    else
      var m := MaxSeq(events[..|events| - 1]);
      if Last(events).seqNo > m then Last(events).seqNo else m
  }

  function FromSeq(events: seq<Event>, nextSeq: int): seq<Event>
  {
    if events == [] then []
    else FromSeq(events[..|events| - 1], nextSeq) + if Last(events).seqNo >= nextSeq then [Last(events)] else []
  }

  /** Drops what the server acknowledged; a number past the events is a conflict. */
  function AckEvents(events: seq<Event>, nextSeq: int): Option<seq<Event>>
  {
    if nextSeq < 1 || (events != [] && nextSeq > MaxSeq(events) + 1) then None
    else Some(FromSeq(events, nextSeq))
  }

  /** On a stretch of a recorded history, an acknowledgment is a conflict exactly when
      it lies past the stretch, and otherwise cuts the stretch at that number. */
  lemma {:induction false} AckStretch(history: seq<Event>, p: nat, q: nat, nextSeq: int)
    requires Sequenced(history) && p <= q <= |history| && nextSeq >= 1
    ensures AckEvents(history[p..q], nextSeq) ==
            if p < q && nextSeq > q + 1 then None else if p == q then Some([])
                else Some(history[Max(p, nextSeq - 1)..q])
  {
    if p < q {
      StretchMax(history, p, q);
    }
    StretchFrom(history, p, q, nextSeq);
  }

  lemma {:induction false} StretchMax(history: seq<Event>, p: nat, q: nat)
    requires Sequenced(history) && p < q <= |history|
    ensures MaxSeq(history[p..q]) == q
  {
    if p + 1 < q {
      assert history[p..q][..q - p - 1] == history[p..q - 1];
      StretchMax(history, p, q - 1);
    }
  }

  lemma {:induction false} StretchFrom(history: seq<Event>, p: nat, q: nat, nextSeq: int)
    requires Sequenced(history) && p <= q <= |history| && nextSeq >= 1
    ensures FromSeq(history[p..q], nextSeq) == if nextSeq - 1 >= q then [] else history[Max(p, nextSeq - 1)..q]
  {
    if p < q {
      assert history[p..q][..q - p - 1] == history[p..q - 1];
      StretchFrom(history, p, q - 1, nextSeq);
      assert Last(history[p..q]) == history[q - 1];
    }
  }

  // -------------------------------------------------------------- reconciliation

  datatype Restored = Restored(pending: seq<Event>, events: seq<Event>, nextSeq: int)

  /** Lookup in a map built from the server's events: a later entry replaces an earlier one. */
  function FindSeq(server: seq<Event>, seqNo: int): Option<Event>
  {
    if server == [] then None else if Last(server).seqNo == seqNo then Some(Last(server))
        else FindSeq(server[..|server| - 1], seqNo)
  }

  function FindId(server: seq<Event>, id: Id): Option<Event>
  {
    if server == [] then None else if Last(server).id == id then Some(Last(server))
        else FindId(server[..|server| - 1], id)
  }

  function Existing(server: seq<Event>, e: Event): Option<Event>
  {
    if FindSeq(server, e.seqNo).Some? then FindSeq(server, e.seqNo) else FindId(server, e.id)
  }

  /** The pending events the server does not know yet. */
  function Remaining(server: seq<Event>, pending: seq<Event>, nextSeq: int): Option<seq<Event>>
  {
    if pending == [] then Some([])
    else
      var before := Remaining(server, pending[..|pending| - 1], nextSeq);
      if before.None? then None
      else
        var e := Last(pending);
        var existing := Existing(server, e);
        if existing.Some? then (if existing.value != e then None else before)
        else if e.seqNo < nextSeq then None
        else Some(before.value + [e])
  }

  /** Numbered from nextSeq on, with fresh IDs. */
  predicate Follows(server: seq<Event>, rest: seq<Event>, nextSeq: int)
  {
    forall i {:trigger FollowsAt(server, rest, nextSeq, i)} :: 0 <= i < |rest| ==> FollowsAt(server, rest, nextSeq, i)
  }

  predicate FollowsAt(server: seq<Event>, rest: seq<Event>, nextSeq: int, i: nat)
    requires i < |rest|
  {
    rest[i].seqNo == nextSeq + i && !IdUsed(server, rest[i].id) && !IdUsed(rest[..i], rest[i].id)
  }

  function RestoredIf(server: seq<Event>, rest: seq<Event>, all: seq<Event>, nextSeq: int): Option<Restored>
  {
    if Follows(server, rest, nextSeq) then Some(Restored(rest, all, nextSeq + |rest|)) else None
  }

  function Reconcile(server: seq<Event>, pending: seq<Event>, nextSeq: int): Option<Restored>
  {
    var remaining := Remaining(server, pending, nextSeq);
    if remaining.None? then None
    else
      var rest := SortBySeq(remaining.value);
      RestoredIf(server, rest, SortBySeq(server + rest), nextSeq)
  }

  /** The two maps over the server's events. */
  method IndexServer(server: seq<Event>) returns (bySeq: map<int, Event>, byId: map<Id, Event>)
    ensures forall e :: Existing(server, e) == if e.seqNo in bySeq then Some(bySeq[e.seqNo]) else if e.id in byId
              then Some(byId[e.id]) else None
  {
    bySeq, byId := map[], map[];
    for i := 0 to |server|
      invariant forall n :: FindSeq(server[..i], n) == if n in bySeq then Some(bySeq[n]) else None
      invariant forall id :: FindId(server[..i], id) == if id in byId then Some(byId[id]) else None
    {
      assert server[..i + 1][..i] == server[..i] && Last(server[..i + 1]) == server[i];
      bySeq := bySeq[server[i].seqNo := server[i]];
      byId := byId[server[i].id := server[i]];
    }
    assert server[..|server|] == server;
  }

  /** The pass over the outbox. */
  method FilterPending(server: seq<Event>, pending: seq<Event>, nextSeq: int) returns (r: Option<seq<Event>>)
    ensures r == Remaining(server, pending, nextSeq)
  {
    var bySeq, byId := IndexServer(server);
    var remaining := [];
    for i := 0 to |pending|
      invariant Remaining(server, pending[..i], nextSeq) == Some(remaining)
    {
      var e := pending[i];
      assert pending[..i + 1][..i] == pending[..i] && Last(pending[..i + 1]) == e;
      if Remaining(server, pending[..i + 1], nextSeq).None? {
        RemainingFails(server, pending, nextSeq, i + 1);
      }
      var existing := if e.seqNo in bySeq then Some(bySeq[e.seqNo]) else if e.id in byId then Some(byId[e.id])
          else None;
      if existing.Some? {
        if existing.value != e { return None; }
      } else {
        if e.seqNo < nextSeq { return None; }
        remaining := remaining + [e];
      }
    }
    assert pending[..|pending|] == pending;
    return Some(remaining);
  }

  /** The pass that checks numbers and identities. */
  method CheckNumbers(server: seq<Event>, rest: seq<Event>, nextSeq: int) returns (ok: bool)
    ensures ok == Follows(server, rest, nextSeq)
  {
    var ids := set i | 0 <= i < |server| :: server[i].id;
    for i := 0 to |rest|
      invariant forall id :: id in ids <==> IdUsed(server, id) || IdUsed(rest[..i], id)
      invariant forall j :: 0 <= j < i ==> FollowsAt(server, rest, nextSeq, j)
    {
      if rest[i].seqNo != nextSeq + i || rest[i].id in ids {
        assert !FollowsAt(server, rest, nextSeq, i);
        return false;
      }
      ids := ids + {rest[i].id};
      assert rest[..i + 1] == rest[..i] + [rest[i]];
      IdUsedExtends(rest[..i], rest[i]);
    }
    return true;
  }

  /** reconcileEvents: two maps over the server's events, a pass over the outbox, a
      sort, and a pass that checks numbers and identities. */
  method ReconcileEvents(server: seq<Event>, pending: seq<Event>, nextSeq: int) returns (r: Option<Restored>)
    ensures r == Reconcile(server, pending, nextSeq)
  {
    var remaining := FilterPending(server, pending, nextSeq);
    if remaining.None? { return None; }
    var rest := SortBySeq(remaining.value);
    var ok := CheckNumbers(server, rest, nextSeq);
    if !ok { return None; }
    return Some(Restored(rest, SortBySeq(server + rest), nextSeq + |rest|));
  }

  lemma {:induction false} RemainingFails(server: seq<Event>, pending: seq<Event>, nextSeq: int, k: nat)
    requires k <= |pending| && Remaining(server, pending[..k], nextSeq).None?
    ensures Remaining(server, pending, nextSeq).None?
    decreases |pending| - k
  {
    if k < |pending| {
      assert pending[..k + 1][..k] == pending[..k];
      RemainingFails(server, pending, nextSeq, k + 1);
    } else {
      assert pending[..k] == pending;
    }
  }

  // ------------------------------------------------------- what it restores

  /** The server's log and the outbox are stretches of one history that together
      cover it: then reconciliation never conflicts, keeps exactly the events the
      server lacks, and restores the whole history. */
  lemma {:induction false} ReconcileRestores(server: seq<Event>, rest: seq<Event>, p: nat)
    requires Sequenced(server + rest) && DistinctIds(server + rest)
    requires p <= |server|
    ensures Reconcile(server, (server + rest)[p..], |server| + 1) ==
            Some(Restored(rest, server + rest, |server| + |rest| + 1))
  {
    TailRemains(server, rest, p);
    SortedRest(server, rest);
    TailFollows(server, rest);
    ReconcileFrom(server, (server + rest)[p..], rest);
  }

  lemma {:induction false} TailRemains(server: seq<Event>, rest: seq<Event>, p: nat)
    requires Sequenced(server + rest) && DistinctIds(server + rest) && p <= |server|
    ensures Remaining(server, (server + rest)[p..], |server| + 1) == Some(rest)
  {
    var history := server + rest;
    RemainingIsTail(server, history, p, |history|);
    assert history[p..|history|] == history[p..] && Stretch(history, |server|, |history|) == rest;
  }

  lemma {:induction false} SortedRest(server: seq<Event>, rest: seq<Event>)
    requires Sequenced(server + rest)
    ensures SortBySeq(rest) == rest && SortBySeq(server + rest) == server + rest
  {
    assert forall i :: 0 <= i < |rest| ==> rest[i] == (server + rest)[|server| + i];
    SortedStays(rest);
    SortedStays(server + rest);
  }

  lemma {:induction false} ReconcileFrom(server: seq<Event>, pending: seq<Event>, rest: seq<Event>)
    requires Remaining(server, pending, |server| + 1) == Some(rest) && SortBySeq(rest) == rest
    requires SortBySeq(server + rest) == server + rest
    ensures Reconcile(server, pending, |server| + 1) == RestoredIf(server, rest, server + rest, |server| + 1)
  {}

  lemma {:induction false} TailFollows(server: seq<Event>, rest: seq<Event>)
    requires Sequenced(server + rest) && DistinctIds(server + rest)
    ensures Follows(server, rest, |server| + 1)
  {
    var history := server + rest;
    forall i {:trigger FollowsAt(server, rest, |server| + 1, i)} | 0 <= i < |rest|
        ensures FollowsAt(server, rest, |server| + 1, i) {
      assert rest[i] == history[|server| + i];
      assert forall j :: 0 <= j < i ==> rest[..i][j] == history[|server| + j];
      assert forall j :: 0 <= j < |server| ==> server[j] == history[j] && history[j].id != history[|server| + i].id;
    }
  }

  /** The part of a history from n up to q, empty when q comes first. */
  function Stretch(history: seq<Event>, n: nat, q: nat): seq<Event>
    requires n <= |history| && q <= |history|
  {
    if q <= n then [] else history[n..q]
  }

  lemma {:induction false} RemainingStep(server: seq<Event>, pending: seq<Event>, e: Event, nextSeq: int)
    requires Remaining(server, pending, nextSeq).Some?
    ensures Existing(server, e) == Some(e) ==>
              Remaining(server, pending + [e], nextSeq) == Remaining(server, pending, nextSeq)
    ensures Existing(server, e) == None && e.seqNo >= nextSeq ==>
              Remaining(server, pending + [e], nextSeq) == Some(Remaining(server, pending, nextSeq).value + [e])
  {
    assert (pending + [e])[..|pending|] == pending;
  }

  lemma {:induction false} StretchGrows(history: seq<Event>, n: nat, q: nat)
    requires n <= |history| && 0 < q <= |history|
    ensures n < q ==> Stretch(history, n, q) == Stretch(history, n, q - 1) + [history[q - 1]]
    ensures n >= q ==> Stretch(history, n, q) == Stretch(history, n, q - 1) == []
  {}

  lemma {:induction false} RemainingIsTail(server: seq<Event>, history: seq<Event>, p: nat, q: nat)
    requires Sequenced(history) && DistinctIds(history) && server <= history && p <= |server| && p <= q <= |history|
    ensures Remaining(server, history[p..q], |server| + 1) == Some(Stretch(history, |server|, q))
    decreases q
  {
    if p < q {
      var e := history[q - 1];
      assert history[p..q] == history[p..q - 1] + [e];
      RemainingIsTail(server, history, p, q - 1);
      ServerKnows(history, |server|, q - 1);
      assert server == history[..|server|];
      RemainingStep(server, history[p..q - 1], e, |server| + 1);
      StretchGrows(history, |server|, q);
    } else {
      assert history[p..q] == [];
    }
  }

  lemma {:induction false} ServerKnows(history: seq<Event>, n: nat, k: nat)
    requires Sequenced(history) && DistinctIds(history) && n <= |history| && k < |history|
    ensures Existing(history[..n], history[k]) == if k < n then Some(history[k]) else None
    decreases n
  {
    if n > 0 {
      assert history[..n][..n - 1] == history[..n - 1] && Last(history[..n]) == history[n - 1];
      assert n - 1 != k ==> history[n - 1].id != history[k].id;
      ServerKnows(history, n - 1, k);
    }
  }

  /** Whatever the two sides hold, a reconciliation that succeeds on a proper server
      log yields one gap-free history that begins with that log, has no identity
      twice, and contains every pending event: nothing is renumbered or merged. */
  lemma {:induction false} ReconcileIsSound(server: seq<Event>, pending: seq<Event>)
    requires Sequenced(server) && DistinctIds(server)
    requires Reconcile(server, pending, |server| + 1).Some?
    ensures var r := Reconcile(server, pending, |server| + 1).value;
            && r.events == server + r.pending && r.nextSeq == |r.events| + 1
            && Sequenced(r.events) && DistinctIds(r.events)
            && forall e :: e in pending ==> Holds(r.events, e)
  {
    var rest := Reconcile(server, pending, |server| + 1).value.pending;
    FollowingExtends(server, rest);
    SortedStays(server + rest);
    forall e | e in pending ensures Holds(server + rest, e) {
      PendingIsHeld(server, pending, rest, e);
    }
  }

  lemma {:induction false} FollowingExtends(server: seq<Event>, rest: seq<Event>)
    requires Sequenced(server) && DistinctIds(server) && Follows(server, rest, |server| + 1)
    ensures Sequenced(server + rest) && DistinctIds(server + rest)
  {
    var all := server + rest;
    forall i | 0 <= i < |all| ensures all[i].seqNo == i + 1 {
      assert i >= |server| ==> FollowsAt(server, rest, |server| + 1, i - |server|);
    }
    forall i, j | 0 <= i < j < |all| ensures all[i].id != all[j].id {
      if j >= |server| {
        assert FollowsAt(server, rest, |server| + 1, j - |server|);
        if i >= |server| { assert all[i] == rest[..j - |server|][i - |server|]; }
      }
    }
  }

  lemma {:induction false} PendingIsHeld(server: seq<Event>, pending: seq<Event>, rest: seq<Event>, e: Event)
    requires Sequenced(server) && Sequenced(server + rest) && e in pending
    requires var r := Remaining(server, pending, |server| + 1); r.Some? && rest == SortBySeq(r.value)
    ensures Holds(server + rest, e)
  {
    var all := server + rest;
    PendingIsKept(server, pending, |server| + 1, e);
    var remaining := Remaining(server, pending, |server| + 1).value;
    if e in remaining {
      SortKeeps(remaining, e);
      var i :| 0 <= i < |rest| && rest[i] == e;
      assert all[|server| + i] == e;
    } else {
      ExistingIsHeld(server, e);
      assert all[e.seqNo - 1] == server[e.seqNo - 1];
    }
  }

  lemma {:induction false} PendingIsKept(server: seq<Event>, pending: seq<Event>, nextSeq: int, e: Event)
    requires Remaining(server, pending, nextSeq).Some? && e in pending
    ensures e in Remaining(server, pending, nextSeq).value || Existing(server, e) == Some(e)
  {
    if e != Last(pending) || (|pending| > 1 && e in pending[..|pending| - 1]) {
      PendingIsKept(server, pending[..|pending| - 1], nextSeq, e);
    }
  }

  lemma {:induction false} ExistingIsHeld(server: seq<Event>, e: Event)
    requires Sequenced(server) && Existing(server, e) == Some(e)
    ensures Holds(server, e)
  {
    FoundIsHeld(server, e);
  }

  lemma {:induction false} FoundIsHeld(server: seq<Event>, e: Event)
    requires Sequenced(server) && (FindSeq(server, e.seqNo) == Some(e) || FindId(server, e.id) == Some(e))
    ensures Holds(server, e)
  {
    var init := server[..|server| - 1];
    if Last(server) != e {
      FoundIsHeld(init, e);
    }
  }

  lemma {:induction false} SortKeeps(events: seq<Event>, e: Event)
    ensures e in events ==> e in SortBySeq(events)
  {
    if events != [] {
      SortKeeps(events[..|events| - 1], e);
      InsertKeeps(SortBySeq(events[..|events| - 1]), Last(events), e);
    }
  }

  lemma {:induction false} InsertKeeps(sorted: seq<Event>, new_: Event, e: Event)
    ensures e == new_ || e in sorted ==> e in InsertBySeq(sorted, new_)
  {
    if sorted != [] && !(Last(sorted).seqNo <= new_.seqNo) {
      InsertKeeps(sorted[..|sorted| - 1], new_, e);
    }
  }
}
