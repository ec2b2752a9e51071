/** Exactly when the outbox and the server's log conflict. */
module Conflicts {
  import opened Common
  import opened Events
  import opened Append
  import opened EventStore
  import opened Navigation
  import opened Outbox

  /** The pending events that are numbered past the server's log. */
  function Later(pending: seq<Event>, n: nat): seq<Event>
  {
    if pending == [] then []
    else Later(pending[..|pending| - 1], n) + if Last(pending).seqNo > n then [Last(pending)] else []
  }

  /** One history that continues the server's log, holds every pending event, and has of
      the later ones each exactly as often as the outbox: once. */
  ghost predicate Continued(server: seq<Event>, pending: seq<Event>, rest: seq<Event>)
  {
    && Sequenced(server + rest) && DistinctIds(server + rest)
    && (forall e :: e in pending ==> e in server + rest)
    && multiset(Later(pending, |server|)) == multiset(rest)
  }

  // --------------------------------------------------------------------- sorting

  ghost predicate InOrder(events: seq<Event>)
  {
    forall i, j :: 0 <= i < j < |events| ==> events[i].seqNo <= events[j].seqNo
  }

  lemma {:induction false} EndsInOrder(events: seq<Event>, last: Event)
    requires InOrder(events) && forall x :: x in multiset(events) ==> x.seqNo <= last.seqNo
    ensures InOrder(events + [last])
  {
    var all := events + [last];
    forall i, j | 0 <= i < j < |all| ensures all[i].seqNo <= all[j].seqNo {
      if j == |events| { assert all[i] in multiset(events); }
    }
  }

  lemma {:induction false} InsertSorts(sorted: seq<Event>, e: Event)
    requires InOrder(sorted)
    ensures InOrder(InsertBySeq(sorted, e)) && multiset(InsertBySeq(sorted, e)) == multiset(sorted) + multiset{e}
  {
    if sorted != [] && Last(sorted).seqNo > e.seqNo {
      var init, last := sorted[..|sorted| - 1], Last(sorted);
      assert sorted == init + [last];
      InsertSorts(init, e);
      EndsInOrder(InsertBySeq(init, e), last);
    } else if sorted != [] {
      forall x | x in multiset(sorted) ensures x.seqNo <= e.seqNo { assert x.seqNo <= Last(sorted).seqNo; }
      EndsInOrder(sorted, e);
    }
  }

  lemma {:induction false} SortSorts(events: seq<Event>)
    ensures InOrder(SortBySeq(events)) && multiset(SortBySeq(events)) == multiset(events)
  {
    if events != [] {
      SortSorts(events[..|events| - 1]);
      InsertSorts(SortBySeq(events[..|events| - 1]), Last(events));
      assert events == events[..|events| - 1] + [Last(events)];
    }
  }

  lemma {:induction false} WithoutLast(events: seq<Event>)
    requires events != []
    ensures multiset(events[..|events| - 1]) == multiset(events) - multiset{Last(events)}
    ensures Last(events) in multiset(events)
  {
    assert events == events[..|events| - 1] + [Last(events)];
  }

  lemma {:induction false} SameLast(a: seq<Event>, b: seq<Event>, from: int)
    requires InOrder(a) && multiset(a) == multiset(b) && forall i :: 0 <= i < |b| ==> b[i].seqNo == from + i
    requires a != [] && b != []
    ensures Last(a) == Last(b)
  {
    WithoutLast(a);
    WithoutLast(b);
    assert Last(b) in a && Last(a) in b;
    var i :| 0 <= i < |a| && a[i] == Last(b);
    assert a[i].seqNo <= Last(a).seqNo;
  }

  lemma {:induction false} SameSize(a: seq<Event>, b: seq<Event>)
    requires multiset(a) == multiset(b)
    ensures |a| == |b|
  {
    assert |a| == |multiset(a)| && |b| == |multiset(b)|;
  }

  lemma {:induction false} SameWithoutLast(a: seq<Event>, b: seq<Event>)
    requires a != [] && b != [] && Last(a) == Last(b) && a[..|a| - 1] == b[..|b| - 1]
    ensures a == b
  {
    assert a == a[..|a| - 1] + [Last(a)] && b == b[..|b| - 1] + [Last(b)];
  }

  /** Numbered without gaps, the same events can be in order in one way only. */
  lemma {:induction false} OneOrder(a: seq<Event>, b: seq<Event>, from: int)
    requires InOrder(a) && multiset(a) == multiset(b) && forall i :: 0 <= i < |b| ==> b[i].seqNo == from + i
    ensures a == b
    decreases |b|
  {
    SameSize(a, b);
    if b != [] {
      SameLast(a, b, from);
      var c, d := a[..|a| - 1], b[..|b| - 1];
      assert multiset(c) == multiset(d) by {
        WithoutLast(a);
        WithoutLast(b);
      }
      OneOrder(c, d, from);
      SameWithoutLast(a, b);
    }
  }

  // ------------------------------------------------------------ what remains pending

  /** Of an event in the continued history, the server knows it or it is numbered later. */
  lemma {:induction false} KnownOrLater(server: seq<Event>, rest: seq<Event>, e: Event)
    requires Sequenced(server + rest) && DistinctIds(server + rest) && e in server + rest
    ensures Existing(server, e) == if e.seqNo > |server| then None else Some(e)
  {
    var history := server + rest;
    var k :| 0 <= k < |history| && history[k] == e;
    ServerKnows(history, |server|, k);
    assert history[..|server|] == server;
  }

  lemma {:induction false} LaterRemain(server: seq<Event>, rest: seq<Event>, pending: seq<Event>)
    requires Sequenced(server + rest) && DistinctIds(server + rest)
    requires forall e :: e in pending ==> e in server + rest
    ensures Remaining(server, pending, |server| + 1) == Some(Later(pending, |server|))
  {
    if pending != [] {
      var init, e := pending[..|pending| - 1], Last(pending);
      assert pending == init + [e];
      assert forall x :: x in init ==> x in pending;
      LaterRemain(server, rest, init);
      assert e in pending;
      KnownOrLater(server, rest, e);
      RemainingStep(server, init, e, |server| + 1);
      assert Later(init, |server|) + [] == Later(init, |server|);
    }
  }

  lemma {:induction false} RestFollowsOn(server: seq<Event>, rest: seq<Event>)
    requires Sequenced(server + rest)
    ensures forall i :: 0 <= i < |rest| ==> rest[i].seqNo == |server| + 1 + i
  {
    forall i | 0 <= i < |rest| ensures rest[i].seqNo == |server| + 1 + i {
      assert rest[i] == (server + rest)[|server| + i];
    }
  }

  lemma {:induction false} ContinuedReconciles(server: seq<Event>, pending: seq<Event>, rest: seq<Event>)
    requires Sequenced(server) && DistinctIds(server) && Continued(server, pending, rest)
    ensures Reconcile(server, pending, |server| + 1) == Some(Restored(rest, server + rest, |server| + |rest| + 1))
  {
    var later := Later(pending, |server|);
    LaterRemain(server, rest, pending);
    SortSorts(later);
    RestFollowsOn(server, rest);
    OneOrder(SortBySeq(later), rest, |server| + 1);
    SortedRest(server, rest);
    TailFollows(server, rest);
  }

  /** There is no conflict exactly when one history continues the server's log, holds all
      that is pending and repeats nothing; then the later events stay pending, in order. */
  lemma {:induction false} ReconcilesExactlyWhen(server: seq<Event>, pending: seq<Event>)
    requires Sequenced(server) && DistinctIds(server)
    ensures Reconcile(server, pending, |server| + 1).Some? <==> exists rest :: Continued(server, pending, rest)
    ensures forall rest :: Continued(server, pending, rest) ==>
              Reconcile(server, pending, |server| + 1) == Some(Restored(rest, server + rest, |server| + |rest| + 1))
  {
    forall rest | Continued(server, pending, rest)
      ensures Reconcile(server, pending, |server| + 1) ==
              Some(Restored(rest, server + rest, |server| + |rest| + 1)) {
      ContinuedReconciles(server, pending, rest);
    }
    if Reconcile(server, pending, |server| + 1).Some? {
      var rest := Reconcile(server, pending, |server| + 1).value.pending;
      ReconcileIsSound(server, pending);
      assert forall e :: e in pending ==> e in server + rest;
      LaterRemain(server, rest, pending);
      SortSorts(Later(pending, |server|));
      assert Continued(server, pending, rest);
    }
  }
}
