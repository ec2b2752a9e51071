/** Batches cut from one recorded history, in whatever order they reach the server. */
module Segments {
  import opened Common
  import opened Trees
  import opened Events
  import opened Append

  /** A history the server would store: numbered, distinct, well shaped and valid. */
  ghost predicate Storable(places: Places, history: seq<Event>)
  {
    Sequenced(history) && DistinctIds(history) && Shaped(places, history) && ValidLog(places, history)
  }

  lemma {:induction false} ReachOfSegment(history: seq<Event>, n: nat, s: nat, e: nat)
    requires Sequenced(history) && s <= e <= |history|
    ensures Reach(n, history[s..e]) == if s == e then n else Max(n, e)
    decreases e
  {
    if s < e {
      assert history[s..e][..e - s - 1] == history[s..e - 1];
      ReachOfSegment(history, n, s, e - 1);
    }
  }

  /** A batch cut from the history, sent after a shorter part of it was stored, merges
      into the history cut at whichever end lies farther; nothing else can come of it. */
  lemma {:induction false} SegmentMergesInto(places: Places, open: bool, history: seq<Event>, n: nat, s: nat, e: nat,
                                             terminal: bool, log: seq<Event>)
    requires Sequenced(history) && n <= |history| && s < e <= |history|
    requires Merges(places, open, history[..n], history[s..e], terminal, log)
    ensures log == history[..Max(n, e)]
  {
    var batch := history[s..e];
    ReachOfSegment(history, n, s, e);
    MergedSequence(places, open, history[..n], batch, terminal, log);
    assert Sequenced(history[..n]);
    forall k | 0 <= k < |log| ensures log[k] == history[k] {
      if k >= n {
        assert log[k] in batch;
        var i :| 0 <= i < |batch| && batch[i] == log[k];
        assert batch[i] == history[s + i];
      } else {
        assert log[k] == history[..n][k];
      }
    }
  }

  lemma {:induction false} SegmentFits(places: Places, history: seq<Event>, n: nat, s: nat, e: nat, terminal: bool,
                                       i: nat)
    requires Sequenced(history) && Shaped(places, history) && s <= n <= |history| && s < e <= |history| && i < e - s
    requires forall i :: s <= i < e && history[i].kind.Submit? ==> terminal && i == e - 1
    ensures Fits(n, history[s..e], terminal, history[..Max(n, e)], i)
  {
    var batch := history[s..e];
    assert batch[i] == history[s + i] && batch[..i] == history[s..s + i];
    ReachOfSegment(history, n, s, s + i);
    assert WellShaped(places, history[s + i]);
  }

  lemma {:induction false} SegmentIsNew(places: Places, history: seq<Event>, m: nat, k: nat)
    requires DistinctIds(history) && Shaped(places, history) && k < m <= |history|
    ensures NewAt(places, history[..m], k)
  {
    var log := history[..m];
    assert WellShaped(places, history[k]) && log[k] == history[k];
    assert forall j :: 0 <= j < k ==> log[..k][j] == history[j] && history[j].id != history[k].id;
  }

  /** Such a batch does merge, unless the attempt's event limit stands in the way. */
  lemma {:induction false} SegmentMerges(places: Places, open: bool, history: seq<Event>, n: nat, s: nat, e: nat,
                                         terminal: bool)
    requires Sequenced(history) && DistinctIds(history) && Shaped(places, history)
    requires s <= n <= |history| && s < e <= |history|
    requires n < e ==> open && e <= MAX_EVENTS_PER_ATTEMPT
    requires forall i :: s <= i < e && history[i].kind.Submit? ==> terminal && i == e - 1
    ensures Merges(places, open, history[..n], history[s..e], terminal, history[..Max(n, e)])
  {
    var batch, log := history[s..e], history[..Max(n, e)];
    ReachOfSegment(history, n, s, e);
    forall i | 0 <= i < |batch| ensures Fits(n, batch, terminal, log, i) {
      SegmentFits(places, history, n, s, e, terminal, i);
    }
    forall k | n <= k < |log| ensures NewAt(places, log, k) { SegmentIsNew(places, history, |log|, k); }
  }

  lemma {:induction false} StorablePrefix(places: Places, history: seq<Event>, k: nat)
    requires k <= |history| && Storable(places, history)
    ensures Storable(places, history[..k])
  {
    forall i | 0 <= i < k ensures WellShaped(places, history[..k][i]) {
      assert WellShaped(places, history[i]);
    }
    ValidPrefix(places, history, k);
  }

  /** What the server stores from such a batch, whenever it accepts it. */
  lemma {:induction false} SegmentCommitted(env: Env, l: Ledger, history: seq<Event>, s: nat, e: nat, terminal: bool)
    requires Sound(env.places) && Committed(env, l) && l.log <= history && Sequenced(history) && s < e <= |history|
    requires Commit(env, l, history[s..e], terminal).Ok?
    ensures Commit(env, l, history[s..e], terminal).value.log == history[..Max(|l.log|, e)]
  {
    CommitDecides(env, l, history[s..e], terminal, l.log);
    assert l.log == history[..|l.log|];
    SegmentMergesInto(env.places, l.open, history, |l.log|, s, e, terminal,
                      Commit(env, l, history[s..e], terminal).value.log);
  }

  /** The limits leave room for the history up to an event. */
  ghost predicate RoomFor(env: Env, l: Ledger, history: seq<Event>, e: nat)
    requires l.log <= history && e <= |history|
  {
    |l.log| < e ==> e <= MAX_EVENTS_PER_ATTEMPT && BudgetProblem(l, Bytes(env.size, history[|l.log|..e])) == None
  }

  /** The server accepts it whenever the limits leave room. */
  lemma {:induction false} SegmentAccepted(env: Env, l: Ledger, history: seq<Event>, s: nat, e: nat, terminal: bool)
    requires Sound(env.places) && Committed(env, l) && l.log <= history && Storable(env.places, history)
    requires s <= |l.log| && s < e <= |history|
    requires |l.log| < e ==> l.open
    requires RoomFor(env, l, history, e)
    requires forall i :: s <= i < e && history[i].kind.Submit? ==> terminal && i == e - 1
    ensures Commit(env, l, history[s..e], terminal).Ok?
    ensures Commit(env, l, history[s..e], terminal).value.log == history[..Max(|l.log|, e)]
  {
    var n := |l.log|;
    var log := history[..Max(n, e)];
    assert l.log == history[..n];
    SegmentMerges(env.places, l.open, history, n, s, e, terminal);
    StorablePrefix(env.places, history, Max(n, e));
    assert n < e ==> log[n..] == history[n..e];
    assert n >= e ==> log[n..] == [];
    CommitDecides(env, l, history[s..e], terminal, log);
  }
}
