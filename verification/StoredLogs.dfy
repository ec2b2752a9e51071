/** What can be relied on of every log that the server has stored, in every session it
    has let go on from an enrolment, and of the times it took from them. */
module StoredLogs {
  import opened Common
  import opened Trees
  import opened Events
  import opened Append
  import opened Metrics
  import opened Sessions
  import opened SessionRuns
  import opened Timing
  import opened Scoring

  /** One event: every field within its bounds. */
  ghost predicate Proper(places: Places, e: Event)
  {
    && 1 <= |e.id| <= 128 && !IsSpace(e.id[0]) && !IsSpace(e.id[|e.id| - 1])
    && 0 <= e.elapsed <= 31_536_000_000
    && (|| (e.epoch.TextEpoch? && 1 <= |e.epoch.text| <= 128)
        || (e.epoch.NumberEpoch? && 0 <= e.epoch.number <= 9_223_372_036_854_775_807))
    && !e.kind.UnlistedKind?
    && (e.seqNo == 1 ==> e.kind == TreeShown || (e.kind == Submit && e.outcome == Skipped))
    && (e.kind == Submit ==> e.outcome == Selected || e.outcome == GaveUp || e.outcome == Skipped)
    && (e.kind == Submit ==> e.visible.Some?)
    && (e.kind != Submit ==> e.outcome == NoOutcome)
    && (e.kind == Hidden ==> e.visible != Some(true))
    && (e.kind == Visible ==> e.visible != Some(false))
    && (e.nodeId != "" ==> e.nodeId in places)
    && (e.kind == Enter || e.kind == Select ==> e.nodeId != "")
    && (e.kind == Select ==> e.nodeId in places && places[e.nodeId].node.selectable)
  }

  /** The checks of the first loop let through exactly these. */
  lemma {:induction false} ShapedExactlyWhen(places: Places, e: Event)
    ensures WellShaped(places, e) <==> Proper(places, e)
  {}

  ghost predicate ProperLog(places: Places, log: seq<Event>)
  {
    && |log| <= 5000
    && (forall i {:trigger log[i]} :: 0 <= i < |log| ==>
          && Proper(places, log[i]) && log[i].seqNo == i + 1
          && (log[i].kind == TreeShown ==> i == 0) && (log[i].kind == Submit ==> i == |log| - 1))
    && (forall i, j :: 0 <= i < j < |log| ==> log[i].id != log[j].id)
  }

  lemma {:induction false} CommittedIsProper(env: Env, l: Ledger)
    requires Committed(env, l)
    ensures ProperLog(env.places, l.log) && l.attemptBytes <= 1_048_576
  {
    forall i | 0 <= i < |l.log| ensures Proper(env.places, l.log[i]) {
      assert WellShaped(env.places, l.log[i]);
      ShapedExactlyWhen(env.places, l.log[i]);
    }
  }

  lemma {:induction false} TimeIsBounded(places: Places, log: seq<Event>)
    requires ProperLog(places, log) && ClockMonotone(log)
    ensures 0 <= Observed(log) <= 31_536_000_000 * |log| <= 157_680_000_000_000
  {
    ObservedIsBounded(log);
  }

  /** The log of an attempt, and the times taken from it. */
  ghost predicate Reliable(frozen: Frozen, s: Session, a: Attempt)
  {
    && ProperLog(EnvOf(frozen, s).places, a.log)
    && a.bytes <= 1_048_576 && a.bytes == Bytes(frozen.size, a.log)
    && 0 <= Observed(a.log) <= 157_680_000_000_000
    && (a.finished.Some? ==>
          && SaysSo(a.finished.value.metrics, a.log, a.finished.value.outcome, true)
          && a.finished.value.metrics.observed == Observed(a.log))
  }

  lemma {:induction false} AttemptIsReliable(frozen: Frozen, s: Session, k: nat)
    requires Invariant(frozen, s) && AllScored(frozen, s) && k < |s.attempts|
    ensures Reliable(frozen, s, s.attempts[k])
  {
    var a := s.attempts[k];
    assert LedgerOk(frozen, s, k) && RowOk(s, k);
    CommittedIsProper(EnvOf(frozen, s), Ledger(a.log, a.bytes, 0, 0, true));
    TimeIsBounded(EnvOf(frozen, s).places, a.log);
    if a.finished.Some? {
      assert Scored(frozen, s, s.attempts[k]);
      MetricsSaySo(EnvOf(frozen, s).places, a.log, a.finished.value.selected, a.finished.value.outcome, true);
    }
  }

  /** In every run of requests from an enrolment, whatever was sent: every stored log is
      proper and within its bounds, and the times of finished attempts are its own. */
  lemma {:induction false} EveryLogIsReliable(frozen: Frozen, s: Session, steps: seq<Step>, expiry: int)
    requires Invariant(frozen, s) && AllScored(frozen, s) && AllEnabled(frozen, s, steps, expiry)
    ensures var t := RunOf(frozen, s, steps);
            && t.storageBytes + t.eventBytes <= 4_194_304
            && forall k {:trigger t.attempts[k]} :: 0 <= k < |t.attempts| ==> Reliable(frozen, t, t.attempts[k])
  {
    RunKeeps(frozen, s, steps, expiry);
    EveryScoreStands(frozen, s, steps, expiry);
    var t := RunOf(frozen, s, steps);
    forall k | 0 <= k < |t.attempts| ensures Reliable(frozen, t, t.attempts[k]) { AttemptIsReliable(frozen, t, k); }
  }
}
