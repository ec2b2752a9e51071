/** What holds of a run in every reachable state. */
module RunSafety {
  import opened Common
  import opened Trees
  import opened Events
  import opened Append
  import opened EventStore
  import opened Sessions
  import opened SessionRuns
  import opened Studies
  import opened Allocation
  import opened Runs

  /** A run with what only the proof remembers: how many blocks have been drawn, and
      how many purges have deleted rows and not yet been marked done. */
  datatype Story = Story(run: Run, blocks: nat, cleaning: nat)

  datatype RunStep =
    | Enrol(joining: Joining)
    | Request(identity: Id, step: Step)
    | Update(wish: Wish, days: int, now: int)
    | DeleteRows
    | MarkPurged(now: int)

  function Drawn(run: Run, j: Joining): nat
  {
    if run.allocation == [] && JoinRun(run, j).Ok? && JoinRun(run, j).value != run then 1 else 0
  }

  function Tell(frozen: Frozen, story: Story, step: RunStep): Story
  {
    var run := story.run;
    match step
    case Enrol(j) =>
        (var r := JoinRun(run, j);
         if r.Err? then story else story.(run := r.value, blocks := story.blocks + Drawn(run, j)))
    case Request(identity, s) => story.(run := ActIn(frozen, run, identity, s).0)
    case Update(wish, days, now) =>
        (var r := UpdateRun(run, wish, days, now); if r.Err? then story else story.(run := r.value))
    case DeleteRows =>
        (var r := PurgeRows(run); if r.Err? then story else story.(run := r.value, cleaning := story.cleaning + 1))
    case MarkPurged(now) =>
        story.(run := PurgeDone(run, now), cleaning := if story.cleaning > 0 then story.cleaning - 1 else 0)
  }

  /** Random draws are what they should be; a purge is marked done only after it deleted. */
  ghost predicate CanHappen(frozen: Frozen, c: Config, story: Story, step: RunStep)
  {
    match step
    case Enrol(j) => JoiningOk(frozen, c, story.run, j)
    case Request(identity, s) => var k := SessionOf(story.run.sessions, identity);
      (k < |story.run.sessions| && s.Start?) ==>
          s.attemptId != "" && RowOf(story.run.sessions[k].attempts, s.attemptId) == |story.run.sessions[k].attempts|
    case Update(_, _, _) => true
    case DeleteRows => true
    case MarkPurged(_) => story.cleaning > 0
  }

  /** A block is drawn from all pairs, tasks are in some order of the panel, and opaque
      IDs are nonempty and distinct. */
  ghost predicate JoiningOk(frozen: Frozen, c: Config, run: Run, j: Joining)
  {
    && (j.block.Some? ==> multiset(j.block.value) == multiset(AllPairs(c.variants, |c.panels|)))
    && (Stock(run, j) != [] && Stock(run, j)[0].panel < |c.panels| && j.order.Some? ==>
          && multiset(j.order.value) == multiset(c.panels[Stock(run, j)[0].panel])
          && TasksNamed(j.order.value, j.publicTasks)
          && Labelled(Menu(frozen, NewSession(j, Stock(run, j)[0])), j.nodes))
    && j.sessionId != ""
  }

  ghost predicate TasksNamed(tasks: seq<Id>, names: map<Id, Id>)
  {
    && (forall t :: t in tasks ==> Opaque(names, t) != "")
    && (forall t, u :: t in tasks && u in tasks && Opaque(names, t) == Opaque(names, u) ==> t == u)
  }

  /** The design of an accepted study. */
  ghost predicate Design(c: Config)
  {
    && DistinctVariants(c.variants) && c.variants != [] && c.panels != []
    && forall p {:trigger PanelSized(c, p)} :: 0 <= p < |c.panels| ==> PanelSized(c, p)
  }

  ghost predicate PanelSized(c: Config, p: nat)
    requires p < |c.panels|
  {
    0 < |c.panels[p]| <= MAX_TASKS_PER_SESSION
  }

  // ------------------------------------------------------------------ invariants

  function SumEvents(sessions: seq<Session>): nat
  {
    if sessions == [] then 0 else SumEvents(sessions[..|sessions| - 1]) + Last(sessions).eventBytes
  }

  function SumData(sessions: seq<Session>): nat
  {
    if sessions == [] then 0
        else SumData(sessions[..|sessions| - 1]) + Last(sessions).storageBytes + Last(sessions).eventBytes
  }

  function PairsEnrolled(sessions: seq<Session>): seq<Pair>
  {
    if sessions == [] then []
        else PairsEnrolled(sessions[..|sessions| - 1]) + [Pair(Last(sessions).variant, Last(sessions).panel)]
  }

  ghost predicate SessionFits(frozen: Frozen, c: Config, s: Session)
  {
    Invariant(frozen, s) && s.panel < |c.panels| && multiset(s.tasks) == multiset(c.panels[s.panel])
  }

  /** Sessions are sound, one per identity, and within the cap. */
  ghost predicate SessionsOk(frozen: Frozen, c: Config, run: Run)
  {
    && |run.sessions| <= run.cap
    && (forall k {:trigger SessionFits(frozen, c, run.sessions[k])} :: 0 <= k < |run.sessions| ==>
        SessionFits(frozen, c, run.sessions[k]))
    && (forall i, j :: 0 <= i < j < |run.sessions| ==> run.sessions[i].identity != run.sessions[j].identity)
  }

  /** Every byte of the run belongs to one of its sessions, and the limit holds. */
  ghost predicate BytesOk(run: Run)
  {
    && run.eventBytes == SumEvents(run.sessions)
    && run.dataBytes == SumData(run.sessions)
    && run.dataBytes <= MAX_RUN_BYTES
  }

  ghost function Share(c: Config, pair: Pair): nat
  {
    if InDesign(c, pair) then 1 else 0
  }

  /** Enrolled and still to come, each pair of the design has been drawn once a block. */
  ghost predicate PairOk(c: Config, story: Story, pair: Pair)
  {
    && multiset(PairsEnrolled(story.run.sessions))[pair] + multiset(story.run.allocation)[pair] ==
         story.blocks * Share(c, pair)
    && multiset(story.run.allocation)[pair] <= Share(c, pair)
  }

  ghost predicate Purged(run: Run)
  {
    run.purgePending || run.purgedAt.Some?
  }

  ghost predicate AllocationOk(c: Config, story: Story)
  {
    && (forall pair {:trigger PairOk(c, story, pair)} :: !Purged(story.run) ==> PairOk(c, story, pair))
    && (forall i :: 0 <= i < |story.run.allocation| ==> InDesign(c, story.run.allocation[i]))
  }

  /** Closure, retention and purging. */
  ghost predicate LifecycleOk(story: Story)
  {
    var run := story.run;
    && (run.status == Closed <==> run.closedAt.Some?)
    && run.retentionTarget == (if run.closedAt.Some? then Some(run.closedAt.value + run.retentionDays * DAY) else None)
    && (run.purgePending ==> run.status == Closed)
    && (Purged(run) ==> run.sessions == [] && run.status != Open)
    && (story.cleaning > 0 ==> Purged(run))
  }

  ghost predicate StoryOk(frozen: Frozen, c: Config, story: Story)
  {
    SessionsOk(frozen, c, story.run) && BytesOk(story.run) && AllocationOk(c, story) && LifecycleOk(story)
  }

  // -------------------------------------------------------------------- enrolment

  lemma {:induction false} StockInDesign(frozen: Frozen, c: Config, story: Story, j: Joining)
    requires Design(c) && AllocationOk(c, story) && JoiningOk(frozen, c, story.run, j)
    ensures forall i :: 0 <= i < |Stock(story.run, j)| ==> InDesign(c, Stock(story.run, j)[i])
  {
    var stock := Stock(story.run, j);
    if story.run.allocation == [] && j.block.Some? {
      forall i | 0 <= i < |stock| ensures InDesign(c, stock[i]) {
        assert stock[i] in multiset(stock);
        AllPairsOnce(c.variants, |c.panels|, stock[i]);
      }
    }
  }

  lemma {:induction false} BlockShares(c: Config, block: seq<Pair>, pair: Pair)
    requires DistinctVariants(c.variants) && multiset(block) == multiset(AllPairs(c.variants, |c.panels|))
    ensures multiset(block)[pair] == Share(c, pair)
  {
    AllPairsOnce(c.variants, |c.panels|, pair);
  }

  /** After a block has been drawn when one was needed. */
  lemma {:induction false} StockShares(frozen: Frozen, c: Config, story: Story, j: Joining, pair: Pair)
    requires Design(c) && PairOk(c, story, pair) && JoiningOk(frozen, c, story.run, j)
    requires JoinProblem(story.run, j) == None
    ensures var stock := Stock(story.run, j);
            && multiset(stock)[pair] <= Share(c, pair)
            && multiset(PairsEnrolled(story.run.sessions))[pair] + multiset(stock)[pair] ==
                 (story.blocks + if story.run.allocation == [] then 1 else 0) * Share(c, pair)
  {
    if story.run.allocation == [] {
      BlockShares(c, j.block.value, pair);
      assert (story.blocks + 1) * Share(c, pair) == story.blocks * Share(c, pair) + Share(c, pair) by {
        OneMore(story.blocks, Share(c, pair));
      }
    }
  }

  /** Allocation is untouched when the same pairs are enrolled and still to come. */
  lemma {:induction false} AllocationStays(c: Config, story: Story, after: Story)
    requires AllocationOk(c, story) && after.blocks == story.blocks && after.run.allocation == story.run.allocation
    requires !Purged(after.run) ==>
               !Purged(story.run) && PairsEnrolled(after.run.sessions) == PairsEnrolled(story.run.sessions)
    ensures AllocationOk(c, after)
  {
    forall pair | !Purged(after.run) ensures PairOk(c, after, pair) { assert PairOk(c, story, pair); }
  }

  lemma {:induction false} NewSessionFits(frozen: Frozen, c: Config, story: Story, j: Joining)
    requires
      && Design(c)
      && AllocationOk(c, story)
      && JoiningOk(frozen, c, story.run, j)
      && JoinProblem(story.run, j) == None
      && Stock(story.run, j) != []
    ensures SessionFits(frozen, c, NewSession(j, Stock(story.run, j)[0]))
  {
    StockInDesign(frozen, c, story, j);
    var choice := Stock(story.run, j)[0];
    assert PanelSized(c, choice.panel);
    assert |multiset(j.order.value)| == |j.order.value|
        && |multiset(c.panels[choice.panel])| == |c.panels[choice.panel]|;
  }

  lemma {:induction false} EnrolledSums(sessions: seq<Session>, s: Session)
    ensures SumEvents(sessions + [s]) == SumEvents(sessions) + s.eventBytes
    ensures SumData(sessions + [s]) == SumData(sessions) + s.storageBytes + s.eventBytes
    ensures PairsEnrolled(sessions + [s]) == PairsEnrolled(sessions) + [Pair(s.variant, s.panel)]
  {
    assert (sessions + [s])[..|sessions|] == sessions;
  }

  /** The run after a join that enrols. */
  ghost predicate Enrols(run: Run, j: Joining)
  {
    && !run.suspended
    && SessionOf(run.sessions, j.identity) == |run.sessions|
    && JoinProblem(run, j) == None
    && Stock(run, j) != []
  }

  lemma {:induction false} EnrolKeepsSessions(frozen: Frozen, c: Config, story: Story, j: Joining)
    requires Design(c) && StoryOk(frozen, c, story) && JoiningOk(frozen, c, story.run, j) && Enrols(story.run, j)
    ensures SessionsOk(frozen, c, JoinRun(story.run, j).value) && BytesOk(JoinRun(story.run, j).value)
  {
    var run, s := story.run, NewSession(j, Stock(story.run, j)[0]);
    var t := JoinRun(run, j).value;
    NewSessionFits(frozen, c, story, j);
    EnrolledSums(run.sessions, s);
    OneMoreSession(frozen, c, run, s, t);
  }

  lemma {:induction false} OneMoreSession(frozen: Frozen, c: Config, run: Run, s: Session, t: Run)
    requires
      && SessionsOk(frozen, c, run)
      && SessionFits(frozen, c, s)
      && |run.sessions| < run.cap == t.cap
      && t.sessions == run.sessions + [s]
    requires forall i :: 0 <= i < |run.sessions| ==> run.sessions[i].identity != s.identity
    ensures SessionsOk(frozen, c, t)
  {
    forall k | 0 <= k < |t.sessions| ensures SessionFits(frozen, c, t.sessions[k]) {
      assert k < |run.sessions| ==> SessionFits(frozen, c, run.sessions[k]);
    }
  }

  lemma {:induction false} FirstTaken(stock: seq<Pair>, pair: Pair)
    requires stock != []
    ensures multiset(stock)[pair] == multiset(stock[1..])[pair] + if stock[0] == pair then 1 else 0
  {
    assert stock == [stock[0]] + stock[1..];
  }

  lemma {:induction false} PairEnrolled(sessions: seq<Session>, s: Session, pair: Pair)
    ensures multiset(PairsEnrolled(sessions + [s]))[pair] == multiset(PairsEnrolled(sessions))[pair] + if pair ==
            Pair(s.variant, s.panel) then 1 else 0
  {
    EnrolledSums(sessions, s);
  }

  lemma {:induction false} EnrolTells(frozen: Frozen, story: Story, j: Joining)
    requires Enrols(story.run, j)
    ensures var stock, after := Stock(story.run, j), Tell(frozen, story, Enrol(j));
            && after.run.sessions == story.run.sessions + [NewSession(j, stock[0])]
            && after.run.allocation == stock[1..]
            && after.blocks == story.blocks + if story.run.allocation == [] then 1 else 0
  {
    assert JoinRun(story.run, j).value.sessions != story.run.sessions;
  }

  lemma {:induction false} EnrolKeepsPair(frozen: Frozen, c: Config, story: Story, j: Joining, pair: Pair)
    requires Design(c) && PairOk(c, story, pair) && JoiningOk(frozen, c, story.run, j) && Enrols(story.run, j)
    ensures PairOk(c, Tell(frozen, story, Enrol(j)), pair)
  {
    var run, stock := story.run, Stock(story.run, j);
    StockShares(frozen, c, story, j, pair);
    PairEnrolled(run.sessions, NewSession(j, stock[0]), pair);
    FirstTaken(stock, pair);
    EnrolTells(frozen, story, j);
  }

  lemma {:induction false} EnrolKeepsAllocation(frozen: Frozen, c: Config, story: Story, j: Joining)
    requires Design(c) && AllocationOk(c, story) && JoiningOk(frozen, c, story.run, j) && Enrols(story.run, j)
    ensures AllocationOk(c, Tell(frozen, story, Enrol(j)))
  {
    var t := Tell(frozen, story, Enrol(j));
    StockInDesign(frozen, c, story, j);
    forall pair | !Purged(t.run) ensures PairOk(c, t, pair) {
      assert PairOk(c, story, pair);
      EnrolKeepsPair(frozen, c, story, j, pair);
    }
  }

  lemma {:induction false} EnrolKeeps(frozen: Frozen, c: Config, story: Story, j: Joining)
    requires Design(c) && StoryOk(frozen, c, story) && JoiningOk(frozen, c, story.run, j)
    ensures StoryOk(frozen, c, Tell(frozen, story, Enrol(j)))
  {
    if Enrols(story.run, j) {
      EnrolKeepsSessions(frozen, c, story, j);
      EnrolKeepsAllocation(frozen, c, story, j);
      assert JoinRun(story.run, j).Ok?;
    } else if JoinRun(story.run, j).Ok? {
      assert JoinRun(story.run, j).value == story.run && Drawn(story.run, j) == 0;
    }
  }

  // -------------------------------------------------------------------- requests

  /** What a request may do to the bytes of its session. */
  lemma {:induction false} StepBytes(frozen: Frozen, s: Session, step: Step)
    requires Invariant(frozen, s) && Enabled(s, step)
    ensures var t := Apply(frozen, s, step).0;
            && Invariant(frozen, t) && Continues(s, t) && t.eventBytes >= s.eventBytes
            && (step.Start? ==> t.eventBytes == s.eventBytes)
            && (!step.Start? && t != s ==> step.runBytes + t.eventBytes - s.eventBytes <= MAX_RUN_BYTES)
  {
    StepKeeps(frozen, s, step, Clock(step, 0) + 1);
    match step
    case Start(commandId, taskId, now, attemptId) =>
      var r := StartTask(frozen, s, commandId, taskId, now, attemptId);
    case Send(_, _, _) =>
      if SendEvents(frozen, s, step.runBytes, step.attemptId, step.events).Ok? {
        NewEvents(frozen, s, step);
      }
    case Finish(commandId, _, _, _, _, now, runBytes) =>
      var r := FinishTask(frozen, s, runBytes, commandId, RequestOf(step), now);
      if r.Ok? && FindReceipt(s, commandId, RequestOf(step), now).value.Fresh? {
        NewFinish(frozen, s, step);
      }
  }

  lemma {:induction false} SumsReplace(sessions: seq<Session>, k: nat, t: Session)
    requires
      && k < |sessions|
      && t.storageBytes == sessions[k].storageBytes
      && t.variant == sessions[k].variant
      && t.panel == sessions[k].panel
    ensures SumEvents(sessions[k := t]) == SumEvents(sessions) - sessions[k].eventBytes + t.eventBytes
    ensures SumData(sessions[k := t]) == SumData(sessions) - sessions[k].eventBytes + t.eventBytes
    ensures PairsEnrolled(sessions[k := t]) == PairsEnrolled(sessions)
  {
    var n := |sessions| - 1;
    if k == n {
      assert sessions[k := t][..n] == sessions[..n];
    } else {
      assert sessions[k := t][..n] == sessions[..n][k := t];
      SumsReplace(sessions[..n], k, t);
    }
  }

  ghost function Replaced(story: Story, k: nat, t: Session): Story
    requires k < |story.run.sessions|
  {
    var run, added := story.run, t.eventBytes - story.run.sessions[k].eventBytes;
    story.(run := run.(sessions := run.sessions[k := t], eventBytes := run.eventBytes + added,
                       dataBytes := run.dataBytes + added))
  }

  lemma {:induction false} ReplaceKeepsSessions(frozen: Frozen, c: Config, run: Run, k: nat, t: Session, after: Run)
    requires SessionsOk(frozen, c, run) && k < |run.sessions| && Invariant(frozen, t) && Continues(run.sessions[k], t)
    requires after.cap == run.cap && after.sessions == run.sessions[k := t]
    ensures SessionsOk(frozen, c, after)
  {
    assert SessionFits(frozen, c, run.sessions[k]);
    forall i | 0 <= i < |after.sessions| ensures SessionFits(frozen, c, after.sessions[i]) {
      assert SessionFits(frozen, c, run.sessions[i]);
    }
  }

  /** A session goes on in its place. */
  lemma {:induction false} ReplaceKeeps(frozen: Frozen, c: Config, story: Story, k: nat, t: Session)
    requires
      && StoryOk(frozen, c, story)
      && k < |story.run.sessions|
      && Invariant(frozen, t)
      && Continues(story.run.sessions[k], t)
    requires
      && t.eventBytes >= story.run.sessions[k].eventBytes
      && story.run.dataBytes + t.eventBytes - story.run.sessions[k].eventBytes <= MAX_RUN_BYTES
    ensures StoryOk(frozen, c, Replaced(story, k, t))
  {
    var after := Replaced(story, k, t);
    SumsReplace(story.run.sessions, k, t);
    ReplaceKeepsSessions(frozen, c, story.run, k, t, after.run);
    AllocationStays(c, story, after);
  }

  lemma {:induction false} RequestKeeps(frozen: Frozen, c: Config, story: Story, identity: Id, step: Step)
    requires StoryOk(frozen, c, story) && CanHappen(frozen, c, story, Request(identity, step))
    ensures StoryOk(frozen, c, Tell(frozen, story, Request(identity, step)))
  {
    var run := story.run;
    var k := SessionOf(run.sessions, identity);
    if k < |run.sessions| && !run.suspended {
      assert SessionFits(frozen, c, run.sessions[k]);
      var made := WithRunBytes(step, run.dataBytes);
      StepBytes(frozen, run.sessions[k], made);
      ReplaceKeeps(frozen, c, story, k, Apply(frozen, run.sessions[k], made).0);
    }
  }

  // ---------------------------------------------------------- status and purging

  /** Changing the status keeps everything else, and the dates in step with it. */
  lemma {:induction false} UpdateStays(story: Story, wish: Wish, days: int, now: int)
    requires LifecycleOk(story) && UpdateRun(story.run, wish, days, now).Ok?
    ensures var t := UpdateRun(story.run, wish, days, now).value;
            && LifecycleOk(story.(run := t))
            && t.cap == story.run.cap
            && t.sessions == story.run.sessions
            && t.allocation == story.run.allocation
            && t.eventBytes == story.run.eventBytes
            && t.dataBytes == story.run.dataBytes
            && Purged(t) == Purged(story.run)
  {}

  lemma {:induction false} UpdateKeeps(frozen: Frozen, c: Config, story: Story, wish: Wish, days: int, now: int)
    requires StoryOk(frozen, c, story)
    ensures StoryOk(frozen, c, Tell(frozen, story, Update(wish, days, now)))
  {
    if UpdateRun(story.run, wish, days, now).Ok? {
      UpdateStays(story, wish, days, now);
      AllocationStays(c, story, story.(run := UpdateRun(story.run, wish, days, now).value));
    }
  }

  lemma {:induction false} PurgeKeeps(frozen: Frozen, c: Config, story: Story, step: RunStep)
    requires StoryOk(frozen, c, story) && CanHappen(frozen, c, story, step) && (step.DeleteRows? || step.MarkPurged?)
    ensures StoryOk(frozen, c, Tell(frozen, story, step))
  {}

  lemma {:induction false} TellKeeps(frozen: Frozen, c: Config, story: Story, step: RunStep)
    requires Design(c) && StoryOk(frozen, c, story) && CanHappen(frozen, c, story, step)
    ensures StoryOk(frozen, c, Tell(frozen, story, step))
  {
    match step
    case Enrol(j) => EnrolKeeps(frozen, c, story, j);
    case Request(identity, s) => RequestKeeps(frozen, c, story, identity, s);
    case Update(wish, days, now) => UpdateKeeps(frozen, c, story, wish, days, now);
    case DeleteRows => PurgeKeeps(frozen, c, story, step);
    case MarkPurged(_) => PurgeKeeps(frozen, c, story, step);
  }
}
