/** What each step of a run leads to, field by field: whom a join enrols, what a change
    of status does and until when a suspension holds, and what a purge leaves. */
module RunRules {
  import opened Common
  import opened Trees
  import opened Events
  import opened Append
  import opened Sessions
  import opened SessionRuns
  import opened Studies
  import opened Allocation
  import opened Runs
  import opened RunSafety
  import opened RunStories

  // ---------------------------------------------------------------- enrolment

  ghost predicate HasSession(run: Run, identity: Id)
  {
    exists k :: 0 <= k < |run.sessions| && run.sessions[k].identity == identity
  }

  /** What the next participant gets: the head of the block in use, or of a new one. */
  ghost predicate IsNext(run: Run, j: Joining, choice: Pair, rest: seq<Pair>)
  {
    if run.allocation != [] then run.allocation == [choice] + rest
    else j.block.Some? && j.block.value == [choice] + rest
  }

  /** Everything that enrolment asks for. */
  ghost predicate MayEnrol(run: Run, j: Joining)
  {
    && !run.suspended && run.status == Open && !HasSession(run, j.identity) && |run.sessions| < run.cap
    && (run.allocation != [] || (j.block.Some? && j.block.value != [])) && j.order.Some?
    && j.storage <= 0x40_0000 && run.dataBytes + j.storage <= 0x800_0000
    && (run.byInvitation ==> j.invited)
  }

  /** A new session of the participant, at its first task, with nothing stored. */
  ghost predicate Fresh(s: Session, j: Joining, choice: Pair)
  {
    && s.id == j.sessionId && s.identity == j.identity && s.variant == choice.variant && s.panel == choice.panel
    && Some(s.tasks) == j.order && s.publicTasks == j.publicTasks && s.nodes == j.nodes
    && s.index == 0 && s.attempts == [] && s.receipts == [] && s.completedAt == None
    && s.storageBytes == j.storage && s.eventBytes == 0
  }

  /** A join adds one session, takes one allocation and charges its bytes; it does so
      exactly when everything asked for is there, and otherwise leaves the run alone. */
  lemma {:induction false} EnrolsExactlyWhen(frozen: Frozen, story: Story, j: Joining)
    ensures var run, after := story.run, Tell(frozen, story, Enrol(j)).run;
            && (!MayEnrol(run, j) ==> after == run)
            && (MayEnrol(run, j) ==>
                  && |after.sessions| == |run.sessions| + 1 && after.sessions[..|run.sessions|] == run.sessions
                  && after == run.(sessions := after.sessions, allocation := after.allocation,
                                   dataBytes := run.dataBytes + j.storage)
                  && exists choice, rest :: IsNext(run, j, choice, rest) && after.allocation == rest
                                            && Fresh(after.sessions[|run.sessions|], j, choice))
  {
    var run, after := story.run, Tell(frozen, story, Enrol(j)).run;
    var k := SessionOf(run.sessions, j.identity);
    assert HasSession(run, j.identity) <==> k < |run.sessions|;
    if MayEnrol(run, j) {
      var stock := Stock(run, j);
      assert stock == [stock[0]] + stock[1..];
      assert IsNext(run, j, stock[0], stock[1..]);
    }
  }

  // ------------------------------------------------------------ changes of status

  /** When the owner's change of a run is carried out. */
  ghost predicate Accepts(run: Run, wish: Wish, days: int)
  {
    && !wish.UnlistedStatus?
    && (wish == NoStatus ==> days != 0) && (days == 0 || 1 <= days <= 3650)
    && (run.purgedAt.Some? ==> wish != OpenIt)
    && (run.purgePending ==> wish == NoStatus || wish == CloseIt || wish == SuspendIt)
  }

  /** Suspending keeps the status, every other status ends a suspension. */
  ghost predicate StatusMet(run: Run, wish: Wish, after: Run)
  {
    match wish
    case OpenIt => after.status == Open && !after.suspended
    case PauseIt => after.status == Paused && !after.suspended
    case CloseIt => after.status == Closed && !after.suspended
    case SuspendIt => after.status == run.status && after.suspended
    case _ => after.status == run.status && after.suspended == run.suspended
  }

  /** The run closes now, stays closed since it did, or is not closed. */
  ghost predicate ClosureMet(run: Run, days: int, now: int, after: Run)
  {
    && after.retentionDays == (if days != 0 then days else run.retentionDays)
    && (after.status != Closed ==> after.closedAt == None && after.retentionTarget == None)
    && (after.status == Closed ==> after.closedAt == if run.status == Closed then run.closedAt else Some(now))
    && (after.status == Closed && after.closedAt.Some? ==>
          after.retentionTarget == Some(after.closedAt.value + after.retentionDays * 86_400_000))
  }

  lemma {:induction false} UpdatesExactlyWhen(frozen: Frozen, story: Story, wish: Wish, days: int, now: int)
    requires LifecycleOk(story)
    ensures var run, after := story.run, Tell(frozen, story, Update(wish, days, now)).run;
            && (!Accepts(run, wish, days) ==> after == run)
            && (Accepts(run, wish, days) ==>
                  && StatusMet(run, wish, after) && ClosureMet(run, days, now, after)
                  && after == run.(status := after.status, suspended := after.suspended,
                                   retentionDays := after.retentionDays, closedAt := after.closedAt,
                                   retentionTarget := after.retentionTarget))
  {}

  // ---------------------------------------------------------------- suspension

  /** No change that ends a suspension is carried out in these steps. */
  ghost predicate Unlifted(frozen: Frozen, story: Story, steps: seq<RunStep>)
    decreases |steps|
  {
    steps == [] ||
    (&& !(steps[0].Update? && Accepts(story.run, steps[0].wish, steps[0].days)
          && (steps[0].wish == OpenIt || steps[0].wish == PauseIt || steps[0].wish == CloseIt))
     && Unlifted(frozen, Tell(frozen, story, steps[0]), steps[1..]))
  }

  /** Joins and participants' requests are turned away and leave the run as it is. */
  ghost predicate WritesAreOff(frozen: Frozen, story: Story)
  {
    && (forall j :: Tell(frozen, story, Enrol(j)) == story && JoinRun(story.run, j) == Err(WritesSuspended))
    && (forall identity, step ::
          && Tell(frozen, story, Request(identity, step)) == story
          && (HasSession(story.run, identity) ==>
                ActIn(frozen, story.run, identity, step) == (story.run, Answer.Refused(WritesSuspended))))
  }

  lemma {:induction false} SuspendedRefuses(frozen: Frozen, story: Story)
    requires story.run.suspended
    ensures WritesAreOff(frozen, story)
  {
    forall identity, step
      ensures Tell(frozen, story, Request(identity, step)) == story
      ensures HasSession(story.run, identity) ==>
                ActIn(frozen, story.run, identity, step) == (story.run, Answer.Refused(WritesSuspended)) {
      var k := SessionOf(story.run.sessions, identity);
      assert HasSession(story.run, identity) <==> k < |story.run.sessions|;
    }
  }

  lemma {:induction false} SuspendedStays(frozen: Frozen, story: Story, steps: seq<RunStep>)
    requires story.run.suspended && Unlifted(frozen, story, steps)
    ensures var after := Told(frozen, story, steps).run; after.suspended && after.status == story.run.status
    decreases |steps|
  {
    if steps != [] {
      SuspendedRefuses(frozen, story);
      SuspendedStays(frozen, Tell(frozen, story, steps[0]), steps[1..]);
    }
  }

  /** From an accepted suspension until an accepted opening, pausing or closing, the run
      keeps its status, and joins and requests are refused and change nothing. */
  lemma {:induction false} SuspensionHolds(frozen: Frozen, story: Story, days: int, now: int, steps: seq<RunStep>)
    requires Accepts(story.run, SuspendIt, days)
    requires Unlifted(frozen, Tell(frozen, story, Update(SuspendIt, days, now)), steps)
    ensures var after := Told(frozen, Tell(frozen, story, Update(SuspendIt, days, now)), steps);
            after.run.status == story.run.status && after.run.suspended && WritesAreOff(frozen, after)
  {
    var suspended := Tell(frozen, story, Update(SuspendIt, days, now));
    SuspendedStays(frozen, suspended, steps);
    SuspendedRefuses(frozen, Told(frozen, suspended, steps));
  }

  // -------------------------------------------------------------- purge, requests

  /** Only a closed run loses its rows; it then waits for the cleanup to be marked. */
  lemma {:induction false} PurgesExactlyWhen(frozen: Frozen, story: Story, now: int)
    ensures var run, after := story.run, Tell(frozen, story, DeleteRows).run;
            && (run.status != Closed ==> after == run)
            && (run.status == Closed ==>
                  after ==
                      run.(sessions := [], eventBytes := 0, dataBytes := 0, purgedAt := None, purgePending := true))
    ensures var run, after := story.run, Tell(frozen, story, MarkPurged(now)).run;
            after == run.(purgedAt := Some(now), purgePending := false)
  {}

  /** A request moves the session of its participant as the session's own rules say, with
      the bytes of the run at that moment, and no other session. */
  lemma {:induction false} RequestMovesOwnSession(frozen: Frozen, c: Config, story: Story, identity: Id, step: Step,
                                                  k: nat)
    requires SessionsOk(frozen, c, story.run) && BytesOk(story.run) && k < |story.run.sessions|
    ensures var run, after := story.run, Tell(frozen, story, Request(identity, step)).run;
            && |after.sessions| == |run.sessions|
            && (run.suspended || run.sessions[k].identity != identity ==> after.sessions[k] == run.sessions[k])
            && (!run.suspended && run.sessions[k].identity == identity ==>
                  after.sessions[k] == Apply(frozen, run.sessions[k], WithRunBytes(step, run.dataBytes)).0)
  {
    var j := SessionOf(story.run.sessions, identity);
    assert story.run.dataBytes == SumData(story.run.sessions);
  }
}
