/** The guarantees of a run, over whole stories. */
module RunStories {
  import opened Common
  import opened Trees
  import opened Events
  import opened Append
  import opened EventStore
  import opened Sessions
  import opened SessionRuns
  import opened Studies
  import opened Allocation
  import opened Runs
  import opened RunSafety

  /** A run as it is created. */
  ghost predicate Created(story: Story)
  {
    && story.run.status == Paused
    && !story.run.suspended
    && story.run.closedAt == None
    && story.run.retentionTarget == None
    && story.run.purgedAt == None
    && !story.run.purgePending
    && story.run.allocation == []
    && story.run.eventBytes == story.run.dataBytes == 0
    && story.run.sessions == [] && story.blocks == story.cleaning == 0
  }

  ghost predicate Happen(frozen: Frozen, c: Config, story: Story, steps: seq<RunStep>)
    decreases |steps|
  {
    steps == []
        || (CanHappen(frozen, c, story, steps[0]) && Happen(frozen, c, Tell(frozen, story, steps[0]), steps[1..]))
  }

  function Told(frozen: Frozen, story: Story, steps: seq<RunStep>): Story
    decreases |steps|
  {
    if steps == [] then story else Told(frozen, Tell(frozen, story, steps[0]), steps[1..])
  }

  lemma {:induction false} CreatedIsOk(frozen: Frozen, c: Config, story: Story)
    requires Created(story)
    ensures StoryOk(frozen, c, story)
  {}

  lemma {:induction false} StoryKeeps(frozen: Frozen, c: Config, story: Story, steps: seq<RunStep>)
    requires Design(c) && StoryOk(frozen, c, story) && Happen(frozen, c, story, steps)
    ensures StoryOk(frozen, c, Told(frozen, story, steps))
    decreases |steps|
  {
    if steps != [] {
      TellKeeps(frozen, c, story, steps[0]);
      StoryKeeps(frozen, c, Tell(frozen, story, steps[0]), steps[1..]);
    }
  }

  /** Reached from the creation of a run, in whatever order requests came. */
  ghost predicate Reached(frozen: Frozen, c: Config, begin: Story, steps: seq<RunStep>, story: Story)
  {
    Design(c) && Created(begin) && Happen(frozen, c, begin, steps) && story == Told(frozen, begin, steps)
  }

  lemma {:induction false} ReachedIsOk(frozen: Frozen, c: Config, begin: Story, steps: seq<RunStep>, story: Story)
    requires Reached(frozen, c, begin, steps, story)
    ensures StoryOk(frozen, c, story)
  {
    CreatedIsOk(frozen, c, begin);
    StoryKeeps(frozen, c, begin, steps);
  }

  /** An accepted study is a design. */
  lemma {:induction false} StudyIsDesign(b: Bundle)
    requires ValidStudy(b)
    ensures Design(b.config)
  {
    var c := b.config;
    forall i, j | 0 <= i < j < |c.variants| ensures c.variants[i].id != c.variants[j].id {
      assert VariantOk(b, j);
    }
    forall p | 0 <= p < |c.panels| ensures PanelSized(c, p) {
      assert PanelOk(c, c.panels[p]);
    }
  }

  // ---------------------------------------------------------------------- balance

  /** How many participants have a pair. */
  ghost function Having(sessions: seq<Session>, variant: Id, panel: nat): nat
  {
    multiset(PairsEnrolled(sessions))[Pair(variant, panel)]
  }

  /** How often a task has been assigned in a variant. */
  function TimesAssigned(sessions: seq<Session>, variant: Id, task: Id): nat
  {
    if sessions == [] then 0
    else TimesAssigned(sessions[..|sessions| - 1], variant, task) + if Last(sessions).variant == variant
        then Count(Last(sessions).tasks, task) else 0
  }

  /** The same, panel by panel. */
  ghost function ByPanel(c: Config, sessions: seq<Session>, variant: Id, task: Id, n: nat): nat
    requires n <= |c.panels|
  {
    if n == 0 then 0
    else
      ByPanel(c, sessions, variant, task, n - 1)
      + Having(sessions, variant, n - 1) * Count(c.panels[n - 1], task)
  }

  lemma {:induction false} CountIsMultiplicity(panel: seq<Id>, task: Id)
    ensures Count(panel, task) == multiset(panel)[task]
  {
    if panel != [] {
      CountIsMultiplicity(panel[..|panel| - 1], task);
      assert panel == panel[..|panel| - 1] + [Last(panel)];
    }
  }

  lemma {:induction false} TimesGrows(a: nat, b: nat, c: nat)
    requires b <= 1
    ensures (a + b) * c == a * c + if b == 1 then c else 0
  {}

  /** What one session adds to a panel's count. */
  ghost function Added(c: Config, s: Session, variant: Id, task: Id, p: nat): nat
    requires p < |c.panels|
  {
    if s.variant == variant && s.panel == p then Count(c.panels[p], task) else 0
  }

  lemma {:induction false} OneMoreAt(c: Config, sessions: seq<Session>, s: Session, variant: Id, task: Id, p: nat)
    requires p < |c.panels|
    ensures Having(sessions + [s], variant, p) * Count(c.panels[p], task) ==
            Having(sessions, variant, p) * Count(c.panels[p], task) + Added(c, s, variant, task, p)
  {
    PairEnrolled(sessions, s, Pair(variant, p));
    var one := if s.variant == variant && s.panel == p then 1 else 0;
    TimesGrows(Having(sessions, variant, p), one, Count(c.panels[p], task));
  }

  lemma {:induction false} OneMorePanel(c: Config, sessions: seq<Session>, s: Session, variant: Id, task: Id, n: nat)
    requires n <= |c.panels|
    ensures ByPanel(c, sessions + [s], variant, task, n) ==
            ByPanel(c, sessions, variant, task, n) + if s.panel < n then Added(c, s, variant, task, s.panel) else 0
  {
    if n > 0 {
      OneMorePanel(c, sessions, s, variant, task, n - 1);
      OneMoreAt(c, sessions, s, variant, task, n - 1);
    }
  }

  lemma {:induction false} NoneByPanel(c: Config, variant: Id, task: Id, n: nat)
    requires n <= |c.panels|
    ensures ByPanel(c, [], variant, task, n) == 0
  {
    if n > 0 { NoneByPanel(c, variant, task, n - 1); }
  }

  /** The session's tasks are its panel's, in some order. */
  ghost predicate TakesPanel(c: Config, s: Session)
  {
    s.panel < |c.panels| && multiset(s.tasks) == multiset(c.panels[s.panel])
  }

  lemma {:induction false} PanelIsCounted(c: Config, s: Session, task: Id)
    requires TakesPanel(c, s)
    ensures Count(s.tasks, task) == Count(c.panels[s.panel], task)
  {
    CountIsMultiplicity(s.tasks, task);
    CountIsMultiplicity(c.panels[s.panel], task);
  }

  /** Counting assignments by participant or by panel gives the same. */
  lemma {:induction false} AssignedByPanel(c: Config, sessions: seq<Session>, variant: Id, task: Id)
    requires forall k {:trigger sessions[k]} :: 0 <= k < |sessions| ==> TakesPanel(c, sessions[k])
    ensures TimesAssigned(sessions, variant, task) == ByPanel(c, sessions, variant, task, |c.panels|)
  {
    if sessions == [] {
      NoneByPanel(c, variant, task, |c.panels|);
    } else {
      var init, s := sessions[..|sessions| - 1], Last(sessions);
      assert sessions == init + [s];
      AssignedByPanel(c, init, variant, task);
      PanelIsCounted(c, s, task);
      OneMorePanel(c, init, s, variant, task, |c.panels|);
    }
  }

  lemma {:induction false} Distributes(k: nat, a: nat, b: nat)
    ensures k * (a + b) == k * a + k * b
  {}

  lemma {:induction false} EvenByPanel(c: Config, sessions: seq<Session>, variant: Id, task: Id, k: nat, n: nat)
    requires n <= |c.panels| && forall p :: 0 <= p < n ==> Having(sessions, variant, p) == k
    ensures ByPanel(c, sessions, variant, task, n) == k * Exposure(c.panels[..n], task)
  {
    if n > 0 {
      EvenByPanel(c, sessions, variant, task, k, n - 1);
      assert c.panels[..n][..n - 1] == c.panels[..n - 1] && Last(c.panels[..n]) == c.panels[n - 1];
      Distributes(k, Exposure(c.panels[..n - 1], task), Count(c.panels[n - 1], task));
    }
  }

  /** Until a purge, with k blocks drawn every pair of a variant and a panel has been
      enrolled k or k - 1 times, and the enrolment is within the cap. */
  lemma {:induction false} EnrolmentIsBalanced(frozen: Frozen, c: Config, begin: Story, steps: seq<RunStep>,
                                               story: Story, v: nat, panel: nat)
    requires Reached(frozen, c, begin, steps, story) && !Purged(story.run) && v < |c.variants| && panel < |c.panels|
    ensures story.blocks - 1 <= Having(story.run.sessions, c.variants[v].id, panel) <= story.blocks
    ensures story.run.allocation == [] ==> Having(story.run.sessions, c.variants[v].id, panel) == story.blocks
    ensures |story.run.sessions| <= story.run.cap
  {
    ReachedIsOk(frozen, c, begin, steps, story);
    assert InDesign(c, Pair(c.variants[v].id, panel));
    assert PairOk(c, story, Pair(c.variants[v].id, panel));
  }

  /** When a block is used up, every task of the study has been assigned equally often in
      every variant: once a block for each panel that holds it. */
  lemma {:induction false} BlocksAssignEvenly(frozen: Frozen, b: Bundle, begin: Story, steps: seq<RunStep>,
                                              story: Story, v: nat, i: nat)
    requires
      && ValidStudy(b)
      && Reached(frozen, b.config, begin, steps, story)
      && !Purged(story.run)
      && story.run.allocation == []
    requires v < |b.config.variants| && i < |b.config.tasks|
    ensures TimesAssigned(story.run.sessions, b.config.variants[v].id, b.config.tasks[i].id) ==
            story.blocks * Exposure(b.config.panels, b.config.tasks[0].id)
  {
    var c := b.config;
    var variant, task := c.variants[v].id, c.tasks[i].id;
    ReachedIsOk(frozen, c, begin, steps, story);
    forall p | 0 <= p < |c.panels| ensures Having(story.run.sessions, variant, p) == story.blocks {
      EnrolmentIsBalanced(frozen, c, begin, steps, story, v, p);
    }
    forall k | 0 <= k < |story.run.sessions| ensures TakesPanel(c, story.run.sessions[k]) {
      assert SessionFits(frozen, c, story.run.sessions[k]);
    }
    AssignedByPanel(c, story.run.sessions, variant, task);
    EvenByPanel(c, story.run.sessions, variant, task, story.blocks, |c.panels|);
    assert c.panels[..|c.panels|] == c.panels;
    StudyFacts(b);
  }

  // ------------------------------------------------------------------------ bytes

  function EncodedAttempts(frozen: Frozen, attempts: seq<Attempt>): nat
  {
    if attempts == [] then 0
        else EncodedAttempts(frozen, attempts[..|attempts| - 1]) + Bytes(frozen.size, Last(attempts).log)
  }

  /** The encoded length of every event stored in the run. */
  function EncodedEvents(frozen: Frozen, sessions: seq<Session>): nat
  {
    if sessions == [] then 0
        else EncodedEvents(frozen, sessions[..|sessions| - 1]) + EncodedAttempts(frozen, Last(sessions).attempts)
  }

  function Stored(sessions: seq<Session>): nat
  {
    if sessions == [] then 0 else Stored(sessions[..|sessions| - 1]) + Last(sessions).storageBytes
  }

  lemma {:induction false} AttemptsEncoded(frozen: Frozen, s: Session, n: nat)
    requires Ledgers(frozen, s) && n <= |s.attempts|
    ensures SumBytes(s.attempts[..n]) == EncodedAttempts(frozen, s.attempts[..n])
  {
    if n > 0 {
      AttemptsEncoded(frozen, s, n - 1);
      assert LedgerOk(frozen, s, n - 1);
      assert s.attempts[..n][..n - 1] == s.attempts[..n - 1] && Last(s.attempts[..n]) == s.attempts[n - 1];
    }
  }

  lemma {:induction false} SessionsEncoded(frozen: Frozen, c: Config, sessions: seq<Session>)
    requires forall k {:trigger SessionFits(frozen, c, sessions[k])} :: 0 <= k < |sessions| ==>
               SessionFits(frozen, c, sessions[k])
    ensures
      && SumEvents(sessions) == EncodedEvents(frozen, sessions)
      && SumData(sessions) == Stored(sessions) + EncodedEvents(frozen, sessions)
  {
    if sessions != [] {
      var init, s := sessions[..|sessions| - 1], Last(sessions);
      forall k | 0 <= k < |init| ensures SessionFits(frozen, c, init[k]) { assert SessionFits(frozen, c, sessions[k]); }
      SessionsEncoded(frozen, c, init);
      assert SessionFits(frozen, c, sessions[|sessions| - 1]);
      AttemptsEncoded(frozen, s, |s.attempts|);
      assert s.attempts[..|s.attempts|] == s.attempts;
    }
  }

  /** The counters of a run are exactly the encoded events it stores and what its
      sessions took to enrol, and no limit is ever passed. */
  lemma {:induction false} EveryByteIsCounted(frozen: Frozen, c: Config, begin: Story, steps: seq<RunStep>,
                                              story: Story)
    requires Reached(frozen, c, begin, steps, story)
    ensures story.run.eventBytes == EncodedEvents(frozen, story.run.sessions)
    ensures story.run.dataBytes ==
            Stored(story.run.sessions) + EncodedEvents(frozen, story.run.sessions) <= MAX_RUN_BYTES
    ensures forall k :: 0 <= k < |story.run.sessions| ==> WithinLimits(frozen, story.run.sessions[k])
  {
    ReachedIsOk(frozen, c, begin, steps, story);
    SessionsEncoded(frozen, c, story.run.sessions);
    forall k | 0 <= k < |story.run.sessions| ensures WithinLimits(frozen, story.run.sessions[k]) {
      assert SessionFits(frozen, c, story.run.sessions[k]);
      SessionWithinLimits(frozen, story.run.sessions[k]);
    }
  }

  /** A session's events, attempt by attempt, and the limits on both. */
  ghost predicate WithinLimits(frozen: Frozen, s: Session)
  {
    && s.eventBytes == EncodedAttempts(frozen, s.attempts) && s.storageBytes + s.eventBytes <= MAX_SESSION_BYTES
    && forall i :: 0 <= i < |s.attempts| ==>
         s.attempts[i].bytes == Bytes(frozen.size, s.attempts[i].log) <= MAX_ATTEMPT_BYTES
  }

  lemma {:induction false} SessionWithinLimits(frozen: Frozen, s: Session)
    requires Ledgers(frozen, s)
    ensures WithinLimits(frozen, s)
  {
    AttemptsEncoded(frozen, s, |s.attempts|);
    assert s.attempts[..|s.attempts|] == s.attempts;
    forall i | 0 <= i < |s.attempts|
        ensures s.attempts[i].bytes == Bytes(frozen.size, s.attempts[i].log) <= MAX_ATTEMPT_BYTES {
      assert LedgerOk(frozen, s, i);
    }
  }

  // --------------------------------------------------------------------- lifecycle

  /** A run is closed exactly while it has a closing time, which with the current
      retention days gives its retention target; a run waiting for a purge is closed. */
  lemma {:induction false} ClosureIsDated(frozen: Frozen, c: Config, begin: Story, steps: seq<RunStep>, story: Story)
    requires Reached(frozen, c, begin, steps, story)
    ensures story.run.status == Closed <==> story.run.closedAt.Some?
    ensures story.run.closedAt.Some? <==> story.run.retentionTarget.Some?
    ensures story.run.closedAt.Some? ==>
              story.run.retentionTarget.value == story.run.closedAt.value + story.run.retentionDays * DAY
    ensures story.run.purgePending ==> story.run.status == Closed
  {
    ReachedIsOk(frozen, c, begin, steps, story);
  }

  lemma {:induction false} PurgedStays(frozen: Frozen, c: Config, story: Story, steps: seq<RunStep>)
    requires Design(c) && StoryOk(frozen, c, story) && Purged(story.run) && Happen(frozen, c, story, steps)
    ensures Purged(Told(frozen, story, steps).run)
    decreases |steps|
  {
    if steps != [] {
      TellKeeps(frozen, c, story, steps[0]);
      PurgedStep(frozen, c, story, steps[0]);
      PurgedStays(frozen, c, Tell(frozen, story, steps[0]), steps[1..]);
    }
  }

  lemma {:induction false} PurgedStep(frozen: Frozen, c: Config, story: Story, step: RunStep)
    requires LifecycleOk(story) && Purged(story.run) && CanHappen(frozen, c, story, step)
    ensures Purged(Tell(frozen, story, step).run)
  {
    match step
    case Enrol(_) =>
    case Request(_, _) =>
    case Update(_, _, _) =>
    case DeleteRows =>
    case MarkPurged(_) =>
  }

  /** Once its rows are deleted a run has no session ever again, and is never open,
      whatever else is asked of it. */
  lemma {:induction false} PurgedForGood(frozen: Frozen, c: Config, begin: Story, steps: seq<RunStep>, story: Story,
                                         later: seq<RunStep>)
    requires Reached(frozen, c, begin, steps, story) && Purged(story.run) && Happen(frozen, c, story, later)
    ensures var after := Told(frozen, story, later).run;
            after.sessions == [] && after.status != Open && after.dataBytes == 0
  {
    ReachedIsOk(frozen, c, begin, steps, story);
    StoryKeeps(frozen, c, story, later);
    PurgedStays(frozen, c, story, later);
  }
}
