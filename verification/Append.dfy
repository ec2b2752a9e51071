/** appendEvents: an idempotent, gap-free append that is all or nothing. */
module Append {
  import opened Common
  import opened Trees
  import opened Events

  /** The stored numbers an append reads and moves: one attempt's log and bytes,
      the bytes of its session (storage and events) and of its run, and whether the
      attempt is still the session's unfinished current one. */
  datatype Ledger = Ledger(log: seq<Event>, attemptBytes: nat, sessionBytes: nat, runBytes: nat, open: bool)

  function Bytes(size: Event -> nat, log: seq<Event>): nat
  {
    if log == [] then 0 else Bytes(size, log[..|log| - 1]) + size(Last(log))
  }

  predicate IdUsed(log: seq<Event>, id: Id)
  {
    exists i :: 0 <= i < |log| && log[i].id == id
  }

  // ------------------------------------------------- the first loop of the append

  /** One incoming event: a resend is compared and dropped, the next one is taken. */
  function Take(places: Places, open: bool, saved: seq<Event>, e: Event, mayEnd: bool): Result<seq<Event>>
  {
    if e.kind.Submit? && !mayEnd then Err(MisplacedSubmit)
    else if !e.kind.Submit? && !e.outcome.NoOutcome? then Err(StrayOutcome)
    else if e.seqNo < 1 then Err(SequenceBelowOne)
    else if e.seqNo <= |saved| then (if saved[e.seqNo - 1] != e then Err(SequenceConflict) else Ok(saved))
    else if !open then Err(AttemptFinished)
    else if e.seqNo != |saved| + 1 then Err(SequenceGap)
    else if IdUsed(saved, e.id) then Err(ReusedEventId)
    else if ShapeProblem(places, e).Some? then Err(ShapeProblem(places, e).value)
    else if |saved| >= MAX_EVENTS_PER_ATTEMPT then Err(EventLimit)
    else Ok(saved + [e])
  }

  function Collect(places: Places, open: bool, saved: seq<Event>, incoming: seq<Event>,
                   terminal: bool): Result<seq<Event>>
    decreases |incoming|
  {
    if incoming == [] then Ok(saved)
    else
      var taken := Take(places, open, saved, incoming[0], terminal && |incoming| == 1);
      if taken.Err? then taken else Collect(places, open, taken.value, incoming[1..], terminal)
  }

  lemma {:induction false} CollectExtends(places: Places, open: bool, saved: seq<Event>, incoming: seq<Event>,
                                          terminal: bool)
    ensures var log := Collect(places, open, saved, incoming, terminal); log.Ok? ==> saved <= log.value
    decreases |incoming|
  {
    if incoming != [] {
      var taken := Take(places, open, saved, incoming[0], terminal && |incoming| == 1);
      if taken.Ok? {
        CollectExtends(places, open, taken.value, incoming[1..], terminal);
      }
    }
  }

  // ----------------------------------------------------------- the whole append

  function BudgetProblem(l: Ledger, added: nat): Option<Problem>
  {
    if l.attemptBytes + added > MAX_ATTEMPT_BYTES then Some(AttemptBytesLimit)
    else if l.sessionBytes + added > MAX_SESSION_BYTES then Some(SessionBytesLimit)
    else if l.runBytes + added > MAX_RUN_BYTES then Some(RunBytesLimit)
    else None
  }

  function Grown(l: Ledger, log: seq<Event>, added: nat): Ledger
  {
    Ledger(log, l.attemptBytes + added, l.sessionBytes + added, l.runBytes + added, l.open)
  }

  /** The budgets and the second loop, over the log the first loop built. */
  function Settle(env: Env, l: Ledger, log: seq<Event>): Result<Ledger>
    requires |l.log| <= |log|
  {
    var added := Bytes(env.size, log[|l.log|..]);
    if BudgetProblem(l, added).Some? then Err(BudgetProblem(l, added).value)
    else if Scan(env.places, log).Err? then Err(Scan(env.places, log).problem)
    else Ok(Grown(l, log, added))
  }

  /** Both loops and the budgets between them, for a batch of any length. */
  function Commit(env: Env, l: Ledger, incoming: seq<Event>, terminal: bool): Result<Ledger>
  {
    var collected := Collect(env.places, l.open, l.log, incoming, terminal);
    if collected.Err? then Err(collected.problem)
    else
      CollectExtends(env.places, l.open, l.log, incoming, terminal);
      Settle(env, l, collected.value)
  }

  function RequestProblem(incoming: seq<Event>, choice: Option<Choice>): Option<Problem>
  {
    if |incoming| > MAX_EVENTS_PER_REQUEST then Some(TooManyEvents)
    else if choice.Some? && (incoming == [] || !Last(incoming).kind.Submit?) then Some(FinishNeedsSubmit)
    else if choice.Some?
        && (Last(incoming).outcome != choice.value.outcome || Last(incoming).nodeId != choice.value.nodeId)
        then Some(SubmitMismatch)
    else None
  }

  function AppendBatch(env: Env, l: Ledger, incoming: seq<Event>, choice: Option<Choice>): Result<Ledger>
  {
    var refused := RequestProblem(incoming, choice);
    if refused.Some? then Err(refused.value) else Commit(env, l, incoming, choice.Some?)
  }

  // ------------------------------------------------ what the first loop decides

  /** The highest sequence number met so far. */
  function Reach(start: nat, incoming: seq<Event>): int
  {
    if incoming == [] then start
    else
      var before := Reach(start, incoming[..|incoming| - 1]);
      if Last(incoming).seqNo > before then Last(incoming).seqNo else before
  }

  /** The event is the one the log holds at its sequence number. */
  ghost predicate Holds(log: seq<Event>, e: Event)
  {
    1 <= e.seqNo <= |log| && log[e.seqNo - 1] == e
  }

  /** One sent event: it sits at its own number, which is at most one past what was
      reached before it, and it has its place as a submit or carries no outcome. */
  ghost predicate Fits(saved: nat, incoming: seq<Event>, terminal: bool, log: seq<Event>, i: nat)
    requires i < |incoming|
  {
    && Holds(log, incoming[i])
    && incoming[i].seqNo <= Reach(saved, incoming[..i]) + 1
    && (if incoming[i].kind.Submit? then terminal && i == |incoming| - 1 else incoming[i].outcome.NoOutcome?)
  }

  /** `log` is the stored log together with a batch: nothing stored changes, every
      sent event sits at its own number, numbers are first met in order without a
      gap, and what is new is well shaped, fresh and within the attempt's limit. */
  ghost predicate Merges(places: Places, open: bool, saved: seq<Event>, incoming: seq<Event>, terminal: bool,
                         log: seq<Event>)
  {
    && saved <= log
    && (forall i {:trigger Fits(|saved|, incoming, terminal, log, i)} :: 0 <= i < |incoming| ==>
        Fits(|saved|, incoming, terminal, log, i))
    && |log| == Reach(|saved|, incoming)
    && (|saved| < |log| ==> open && |log| <= MAX_EVENTS_PER_ATTEMPT)
    && (forall k {:trigger NewAt(places, log, k)} :: |saved| <= k < |log| ==> NewAt(places, log, k))
  }

  ghost predicate NewAt(places: Places, log: seq<Event>, k: nat)
    requires k < |log|
  {
    WellShaped(places, log[k]) && !IdUsed(log[..k], log[k].id)
  }

  lemma {:induction false} ReachFromFirst(start: nat, incoming: seq<Event>)
    requires incoming != []
    ensures Reach(start, incoming) ==
            Reach(if incoming[0].seqNo > start then incoming[0].seqNo else start, incoming[1..])
    decreases |incoming|
  {
    var init := incoming[..|incoming| - 1];
    if |incoming| == 1 {
      assert incoming[1..] == [] && init == [];
    } else {
      ReachFromFirst(start, init);
      assert init[1..] == incoming[1..][..|incoming| - 2];
      assert Last(incoming[1..]) == Last(incoming);
    }
  }

  lemma {:induction false} ReachGrows(start: nat, incoming: seq<Event>)
    ensures Reach(start, incoming) >= start
    ensures forall i :: 0 <= i < |incoming| ==> incoming[i].seqNo <= Reach(start, incoming)
  {
    if incoming != [] {
      ReachGrows(start, incoming[..|incoming| - 1]);
    }
  }

  /** The first loop returns a log exactly when the batch merges into that log. */
  lemma {:induction false} CollectDecides(places: Places, open: bool, saved: seq<Event>, incoming: seq<Event>,
                                          terminal: bool, log: seq<Event>)
    ensures Collect(places, open, saved, incoming, terminal) == Ok(log) <==>
              Merges(places, open, saved, incoming, terminal, log)
    decreases |incoming|
  {
    if incoming == [] {
      assert saved <= log && |log| == |saved| ==> log == saved;
    } else {
      var e, rest := incoming[0], incoming[1..];
      var taken := Take(places, open, saved, e, terminal && |incoming| == 1);
      ReachFromFirst(|saved|, incoming);
      assert incoming[..0] == [];
      if taken.Ok? {
        CollectDecides(places, open, taken.value, rest, terminal, log);
        if Merges(places, open, taken.value, rest, terminal, log) {
          MergesAddFirst(places, open, saved, incoming, terminal, log);
        }
        if Merges(places, open, saved, incoming, terminal, log) {
          MergesDropFirst(places, open, saved, incoming, terminal, log);
        }
      } else if Merges(places, open, saved, incoming, terminal, log) {
        MergesTakesFirst(places, open, saved, incoming, terminal, log);
      }
    }
  }

  lemma {:induction false} MergesTakesFirst(places: Places, open: bool, saved: seq<Event>, incoming: seq<Event>,
                                            terminal: bool, log: seq<Event>)
    requires incoming != [] && Merges(places, open, saved, incoming, terminal, log)
    ensures Take(places, open, saved, incoming[0], terminal && |incoming| == 1).Ok?
    ensures Take(places, open, saved, incoming[0], terminal && |incoming| == 1).value <= log
  {
    var e := incoming[0];
    assert Fits(|saved|, incoming, terminal, log, 0);
    assert incoming[..0] == [];
    if e.seqNo > |saved| {
      assert e.seqNo == |saved| + 1;
      ReachGrows(|saved|, incoming);
      assert NewAt(places, log, |saved|);
      assert log[..|saved|] == saved && log[|saved|] == e;
    }
  }

  lemma {:induction false} TailReach(saved: nat, incoming: seq<Event>, next: nat)
    requires incoming != [] && next == if incoming[0].seqNo > saved then incoming[0].seqNo else saved
    ensures forall i :: 0 <= i < |incoming| - 1 ==> Reach(next, incoming[1..][..i]) == Reach(saved, incoming[..i + 1])
  {
    forall i | 0 <= i < |incoming| - 1 ensures Reach(next, incoming[1..][..i]) == Reach(saved, incoming[..i + 1]) {
      ReachFromFirst(saved, incoming[..i + 1]);
      assert incoming[..i + 1][1..] == incoming[1..][..i];
    }
  }

  lemma {:induction false} MergesDropFirst(places: Places, open: bool, saved: seq<Event>, incoming: seq<Event>,
                                           terminal: bool, log: seq<Event>)
    requires incoming != [] && Merges(places, open, saved, incoming, terminal, log)
    requires Take(places, open, saved, incoming[0], terminal && |incoming| == 1).Ok?
    ensures Merges(places, open, Take(places, open, saved, incoming[0], terminal && |incoming| == 1).value,
                   incoming[1..], terminal, log)
  {
    MergesTakesFirst(places, open, saved, incoming, terminal, log);
    var e, rest := incoming[0], incoming[1..];
    var next := Take(places, open, saved, e, terminal && |incoming| == 1).value;
    ReachFromFirst(|saved|, incoming);
    TailReach(|saved|, incoming, |next|);
    TakeMeans(places, open, saved, e, terminal && |incoming| == 1);
    forall i | 0 <= i < |rest| ensures Fits(|next|, rest, terminal, log, i) {
      assert Fits(|saved|, incoming, terminal, log, i + 1);
      assert Reach(|next|, rest[..i]) == Reach(|saved|, incoming[..i + 1]);
    }
  }

  lemma {:induction false} TakeMeans(places: Places, open: bool, saved: seq<Event>, e: Event, mayEnd: bool)
    requires Take(places, open, saved, e, mayEnd).Ok?
    ensures var next := Take(places, open, saved, e, mayEnd).value;
            && Holds(next, e)
            && (if e.kind.Submit? then mayEnd else e.outcome.NoOutcome?)
            && |next| == (if e.seqNo > |saved| then e.seqNo else |saved|)
            && (next == saved || (next == saved + [e] && open && |saved| < MAX_EVENTS_PER_ATTEMPT
                                  && NewAt(places, next, |saved|)))
  {
    assert (saved + [e])[..|saved|] == saved;
  }

  lemma {:induction false} MergesAddFirst(places: Places, open: bool, saved: seq<Event>, incoming: seq<Event>,
                                          terminal: bool, log: seq<Event>)
    requires incoming != [] && Take(places, open, saved, incoming[0], terminal && |incoming| == 1).Ok?
    requires Merges(places, open, Take(places, open, saved, incoming[0], terminal && |incoming| == 1).value,
                    incoming[1..], terminal, log)
    ensures Merges(places, open, saved, incoming, terminal, log)
  {
    var e, rest := incoming[0], incoming[1..];
    var next := Take(places, open, saved, e, terminal && |incoming| == 1).value;
    TakeMeans(places, open, saved, e, terminal && |incoming| == 1);
    AddFirst(places, open, saved, next, incoming, terminal, log);
  }

  lemma {:induction false} AddFirst(places: Places, open: bool, saved: seq<Event>, next: seq<Event>,
                                    incoming: seq<Event>, terminal: bool, log: seq<Event>)
    requires incoming != [] && Merges(places, open, next, incoming[1..], terminal, log)
    requires Holds(next, incoming[0]) && |next| == (if incoming[0].seqNo > |saved| then incoming[0].seqNo else |saved|)
    requires if incoming[0].kind.Submit? then terminal && |incoming| == 1 else incoming[0].outcome.NoOutcome?
    requires next == saved
             || (next == saved + [incoming[0]] && open && |saved| < MAX_EVENTS_PER_ATTEMPT
                 && NewAt(places, next, |saved|))
    ensures Merges(places, open, saved, incoming, terminal, log)
  {
    ReachFromFirst(|saved|, incoming);
    if next != saved {
      assert log[..|saved|] == next[..|saved|] && log[|saved|] == next[|saved|];
      assert NewAt(places, log, |saved|);
      ReachGrows(|next|, incoming[1..]);
    }
    forall i | 0 <= i < |incoming| ensures Fits(|saved|, incoming, terminal, log, i) {
      if i > 0 {
        TailReach(|saved|, incoming, |next|);
        assert Fits(|next|, incoming[1..], terminal, log, i - 1);
        assert Reach(|next|, incoming[1..][..i - 1]) == Reach(|saved|, incoming[..i - 1 + 1]);
      } else {
        assert incoming[..0] == [];
        assert Holds(log, incoming[0]);
      }
    }
  }

  // --------------------------------------------------- what an append promises

  /** What holds of every stored attempt between requests. */
  ghost predicate Committed(env: Env, l: Ledger)
  {
    && Sequenced(l.log) && DistinctIds(l.log)
    && Shaped(env.places, l.log) && ValidLog(env.places, l.log)
    && |l.log| <= MAX_EVENTS_PER_ATTEMPT
    && l.attemptBytes == Bytes(env.size, l.log)
    && l.attemptBytes <= MAX_ATTEMPT_BYTES && l.sessionBytes <= MAX_SESSION_BYTES && l.runBytes <= MAX_RUN_BYTES
  }

  /** Everything a client can know to predict acceptance of a batch. */
  ghost predicate LegalAppend(env: Env, l: Ledger, incoming: seq<Event>, terminal: bool, log: seq<Event>)
  {
    && Merges(env.places, l.open, l.log, incoming, terminal, log)
    && ValidLog(env.places, log)
    && var added := Bytes(env.size, log[|l.log|..]);
    && l.attemptBytes + added <= 1_048_576
    && l.sessionBytes + added <= 4_194_304
    && l.runBytes + added <= 134_217_728
  }

  lemma {:induction false} MergedIsStorable(places: Places, open: bool, saved: seq<Event>, incoming: seq<Event>,
                                            terminal: bool, log: seq<Event>)
    requires Merges(places, open, saved, incoming, terminal, log)
    requires Sequenced(saved) && DistinctIds(saved) && Shaped(places, saved)
    ensures Sequenced(log) && DistinctIds(log) && Shaped(places, log)
  {
    forall i | 0 <= i < |log| ensures WellShaped(places, log[i]) {
      if i >= |saved| { assert NewAt(places, log, i); } else { assert log[i] == saved[i]; }
    }
    MergedSequence(places, open, saved, incoming, terminal, log);
    forall i, j | 0 <= i < j < |log| ensures log[i].id != log[j].id {
      if j >= |saved| {
        assert NewAt(places, log, j);
        assert log[..j][i] == log[i];
      } else {
        assert log[i] == saved[i] && log[j] == saved[j];
      }
    }
  }

  /** Sequence numbers of a merged log are positions: the batch reaches every new one. */
  lemma {:induction false} MergedSequence(places: Places, open: bool, saved: seq<Event>, incoming: seq<Event>,
                                          terminal: bool, log: seq<Event>)
    requires Merges(places, open, saved, incoming, terminal, log) && Sequenced(saved)
    ensures Sequenced(log)
    ensures forall k :: |saved| <= k < |log| ==> log[k] in incoming
    decreases |incoming|
  {
    if incoming == [] {
      assert log == saved;
    } else {
      var mayEnd := terminal && |incoming| == 1;
      MergesTakesFirst(places, open, saved, incoming, terminal, log);
      MergesDropFirst(places, open, saved, incoming, terminal, log);
      TakeMeans(places, open, saved, incoming[0], mayEnd);
      MergedSequence(places, open, Take(places, open, saved, incoming[0], mayEnd).value, incoming[1..], terminal, log);
    }
  }

  lemma {:induction false} SettleDecides(env: Env, l: Ledger, log: seq<Event>)
    requires Sound(env.places) && Shaped(env.places, log) && l.log <= log
    ensures var added := Bytes(env.size, log[|l.log|..]);
            && (Settle(env, l, log).Ok? <==> ValidLog(env.places, log) && BudgetProblem(l, added) == None)
            && (Settle(env, l, log).Ok? ==> Settle(env, l, log) == Ok(Grown(l, log, added)))
  {
    ScanDecides(env.places, log);
  }

  /** The server accepts a batch exactly when some legal log comes of it, and that
      log, with the bytes of its new events, is what it stores. */
  lemma {:induction false} CommitDecides(env: Env, l: Ledger, incoming: seq<Event>, terminal: bool, log: seq<Event>)
    requires Sound(env.places) && Committed(env, l) && |l.log| <= |log|
    ensures LegalAppend(env, l, incoming, terminal, log) <==>
            Commit(env, l, incoming, terminal) == Ok(Grown(l, log, Bytes(env.size, log[|l.log|..])))
    ensures Commit(env, l, incoming, terminal).Ok? ==>
              && l.log <= Commit(env, l, incoming, terminal).value.log
              && LegalAppend(env, l, incoming, terminal, Commit(env, l, incoming, terminal).value.log)
  {
    var collected := Collect(env.places, l.open, l.log, incoming, terminal);
    CollectDecides(env.places, l.open, l.log, incoming, terminal, log);
    if collected.Ok? {
      CollectDecides(env.places, l.open, l.log, incoming, terminal, collected.value);
      MergedIsStorable(env.places, l.open, l.log, incoming, terminal, collected.value);
      SettleDecides(env, l, collected.value);
    }
  }

  /** So is a request, which moreover holds at most 200 events, and for a finish ends with
      the submit of what it says was chosen. */
  lemma {:induction false} RequestDecides(env: Env, l: Ledger, incoming: seq<Event>, choice: Option<Choice>,
                                          log: seq<Event>)
    requires Sound(env.places) && Committed(env, l) && |l.log| <= |log|
    ensures AppendBatch(env, l, incoming, choice) == Ok(Grown(l, log, Bytes(env.size, log[|l.log|..]))) <==>
              && LegalAppend(env, l, incoming, choice.Some?, log)
              && |incoming| <= 200
              && (choice.Some? ==>
                    && incoming != [] && Last(incoming).kind == Submit
                    && Last(incoming).outcome == choice.value.outcome && Last(incoming).nodeId == choice.value.nodeId)
  {
    CommitDecides(env, l, incoming, choice.Some?, log);
  }

  lemma {:induction false} BytesAdd(size: Event -> nat, a: seq<Event>, b: seq<Event>)
    ensures Bytes(size, a + b) == Bytes(size, a) + Bytes(size, b)
  {
    if b == [] {
      assert a + b == a;
    } else {
      assert (a + b)[..|a + b| - 1] == a + b[..|b| - 1];
      BytesAdd(size, a, b[..|b| - 1]);
    }
  }

  lemma {:induction false} BytesOfGrowth(size: Event -> nat, old_: seq<Event>, log: seq<Event>)
    requires old_ <= log
    ensures Bytes(size, log) == Bytes(size, old_) + Bytes(size, log[|old_|..])
  {
    assert log == old_ + log[|old_|..];
    BytesAdd(size, old_, log[|old_|..]);
  }

  /** Every accepted batch leaves a committed ledger, never changes what was stored,
      and charges exactly the bytes of the new events to attempt, session and run. */
  lemma {:induction false} CommitKeeps(env: Env, l: Ledger, incoming: seq<Event>, terminal: bool)
    requires Sound(env.places) && Committed(env, l)
    requires Commit(env, l, incoming, terminal).Ok?
    ensures var next := Commit(env, l, incoming, terminal).value;
            && Committed(env, next)
            && l.log <= next.log && next.open == l.open
            && (forall i :: 0 <= i < |incoming| ==> Holds(next.log, incoming[i]))
            && next.attemptBytes - l.attemptBytes == Bytes(env.size, next.log) - Bytes(env.size, l.log)
            && next.sessionBytes - l.sessionBytes == next.attemptBytes - l.attemptBytes
            && next.runBytes - l.runBytes == next.attemptBytes - l.attemptBytes
  {
    CommitDecides(env, l, incoming, terminal, l.log);
    var log := Commit(env, l, incoming, terminal).value.log;
    CommitDecides(env, l, incoming, terminal, log);
    MergedIsStorable(env.places, l.open, l.log, incoming, terminal, log);
    GrownIsCommitted(env, l, log);
    forall i | 0 <= i < |incoming| ensures Holds(log, incoming[i]) {
      assert Fits(|l.log|, incoming, terminal, log, i);
    }
  }

  lemma {:induction false} GrownIsCommitted(env: Env, l: Ledger, log: seq<Event>)
    requires Committed(env, l) && l.log <= log && ValidLog(env.places, log)
    requires Sequenced(log) && DistinctIds(log) && Shaped(env.places, log) && |log| <= MAX_EVENTS_PER_ATTEMPT
    requires BudgetProblem(l, Bytes(env.size, log[|l.log|..])) == None
    ensures Committed(env, Grown(l, log, Bytes(env.size, log[|l.log|..])))
    ensures Bytes(env.size, log[|l.log|..]) == Bytes(env.size, log) - Bytes(env.size, l.log)
  {
    BytesOfGrowth(env.size, l.log, log);
  }

  /** What an accepted request did to a log: it only grew, a closed attempt did not,
      a checkpoint brought no submit, and a finish ended it with the chosen submit. */
  ghost predicate BatchEffect(l: Ledger, log: seq<Event>, choice: Option<Choice>)
  {
    LogEffect(l.log, l.open, log, choice)
  }

  ghost predicate LogEffect(saved: seq<Event>, open: bool, log: seq<Event>, choice: Option<Choice>)
  {
    && saved <= log
    && (!open ==> log == saved)
    && (choice.None? ==> forall j :: |saved| <= j < |log| ==> !log[j].kind.Submit?)
    && (choice.Some? ==>
          && log != []
          && Last(log).kind.Submit?
          && Last(log).outcome == choice.value.outcome
          && Last(log).nodeId == choice.value.nodeId)
  }

  lemma {:induction false} MergeEffect(places: Places, open: bool, saved: seq<Event>, incoming: seq<Event>,
                                       log: seq<Event>, choice: Option<Choice>)
    requires Merges(places, open, saved, incoming, choice.Some?, log) && Sequenced(saved) && SubmitOnlyLast(log)
    requires RequestProblem(incoming, choice) == None
    ensures LogEffect(saved, open, log, choice)
  {
    MergedSequence(places, open, saved, incoming, choice.Some?, log);
    assert !open ==> |log| <= |saved|;
    if choice.Some? {
      var last := |incoming| - 1;
      assert Fits(|saved|, incoming, true, log, last);
      assert Holds(log, incoming[last]);
    } else {
      forall j | |saved| <= j < |log| ensures !log[j].kind.Submit? {
        var i :| 0 <= i < |incoming| && incoming[i] == log[j];
        assert Fits(|saved|, incoming, false, log, i);
      }
    }
  }

  lemma {:induction false} BatchHasEffect(env: Env, l: Ledger, incoming: seq<Event>, choice: Option<Choice>)
    requires Sound(env.places) && Committed(env, l)
    requires AppendBatch(env, l, incoming, choice).Ok?
    ensures BatchEffect(l, AppendBatch(env, l, incoming, choice).value.log, choice)
  {
    CommitDecides(env, l, incoming, choice.Some?, l.log);
    MergeEffect(env.places, l.open, l.log, incoming, Commit(env, l, incoming, choice.Some?).value.log, choice);
  }

  // ----------------------------------------------------- batching is confluent

  lemma {:induction false} CollectSplits(places: Places, open: bool, saved: seq<Event>, a: seq<Event>, b: seq<Event>,
                                         terminal: bool)
    requires terminal ==> b != []
    ensures var first := Collect(places, open, saved, a, false);
            Collect(places, open, saved, a + b, terminal) == if first.Err? then first
                else Collect(places, open, first.value, b, terminal)
    decreases |a|
  {
    if a == [] {
      assert a + b == b;
    } else {
      assert (a + b)[0] == a[0] && (a + b)[1..] == a[1..] + b;
      var taken := Take(places, open, saved, a[0], false);
      if taken.Ok? {
        CollectSplits(places, open, taken.value, a[1..], b, terminal);
      }
    }
  }

  lemma {:induction false} SettleSplits(env: Env, l: Ledger, mid: seq<Event>, log: seq<Event>)
    requires l.log <= mid <= log
    ensures var whole, first := Settle(env, l, log), Settle(env, l, mid);
            && (whole.Ok? ==> first.Ok?)
            && (first.Ok? ==> first.value.log == mid)
            && (first.Ok? ==> (whole.Ok? <==> Settle(env, first.value, log).Ok?))
            && (whole.Ok? ==> whole == Settle(env, first.value, log))
  {
    BytesOfGrowth(env.size, mid[|l.log|..], log[|l.log|..]);
    assert log[|l.log|..][|mid[|l.log|..]|..] == log[|mid|..];
    assert log[..|mid|] == mid;
    if Scan(env.places, mid).Err? {
      ScanErrSticks(env.places, log, |mid|);
    }
  }

  /** A stream is accepted in one batch if and only if it is accepted in two, and
      then the log, the next sequence number and all byte counts are the same. */
  lemma {:induction false} CommitSplits(env: Env, l: Ledger, a: seq<Event>, b: seq<Event>, terminal: bool)
    requires terminal ==> b != []
    ensures var whole, first := Commit(env, l, a + b, terminal), Commit(env, l, a, false);
            && (whole.Ok? <==> first.Ok? && Commit(env, first.value, b, terminal).Ok?)
            && (whole.Ok? ==> whole == Commit(env, first.value, b, terminal))
  {
    CollectSplits(env.places, l.open, l.log, a, b, terminal);
    var c1 := Collect(env.places, l.open, l.log, a, false);
    if c1.Ok? {
      CollectExtends(env.places, l.open, l.log, a, false);
      var c2 := Collect(env.places, l.open, c1.value, b, terminal);
      if c2.Ok? {
        CollectExtends(env.places, l.open, c1.value, b, terminal);
        SettleSplits(env, l, c1.value, c2.value);
      }
    }
  }

  /** Sending pieces one after the other; only the last may carry the submit. */
  function AppendPieces(env: Env, l: Ledger, pieces: seq<seq<Event>>, choice: Option<Choice>): Result<Ledger>
    requires pieces != []
    decreases |pieces|
  {
    if |pieces| == 1 then AppendBatch(env, l, pieces[0], choice)
    else
      var first := AppendBatch(env, l, pieces[0], None);
      if first.Err? then first else AppendPieces(env, first.value, pieces[1..], choice)
  }

  function Concat(pieces: seq<seq<Event>>): seq<Event>
  {
    if pieces == [] then [] else pieces[0] + Concat(pieces[1..])
  }

  /** However a stream is cut into requests within the size limit, the outcome is
      that of the stream: two cuttings can never disagree about acceptance, log,
      next sequence number or bytes. */
  lemma {:induction false} BatchingIsConfluent(env: Env, l: Ledger, pieces: seq<seq<Event>>, choice: Option<Choice>)
    requires pieces != [] && forall i :: 0 <= i < |pieces| ==> |pieces[i]| <= MAX_EVENTS_PER_REQUEST
    requires RequestProblem(Last(pieces), choice) == None
    ensures var sent, whole := AppendPieces(env, l, pieces, choice), Commit(env, l, Concat(pieces), choice.Some?);
            (sent.Ok? <==> whole.Ok?) && (sent.Ok? ==> sent == whole)
    decreases |pieces|
  {
    if |pieces| == 1 {
      assert pieces[1..] == [] && Concat(pieces) == pieces[0];
    } else {
      var rest := pieces[1..];
      LastPieceShows(rest);
      CommitSplits(env, l, pieces[0], Concat(rest), choice.Some?);
      var first := AppendBatch(env, l, pieces[0], None);
      if first.Ok? {
        BatchingIsConfluent(env, first.value, rest, choice);
      }
    }
  }

  lemma {:induction false} LastPieceShows(pieces: seq<seq<Event>>)
    requires pieces != []
    ensures Last(pieces) != [] ==> Concat(pieces) != []
    decreases |pieces|
  {
    if |pieces| > 1 {
      LastPieceShows(pieces[1..]);
    }
  }

  /** Sending again anything a committed log already holds, in any order and any
      number of times, is accepted and changes nothing, even after the finish. */
  lemma {:induction false} ResendChangesNothing(env: Env, l: Ledger, again: seq<Event>)
    requires Sound(env.places) && Committed(env, l)
    requires forall i :: 0 <= i < |again| ==> Holds(l.log, again[i]) && !again[i].kind.Submit?
    ensures Commit(env, l, again, false) == Ok(l)
  {
    ResendCollects(env.places, l.open, l.log, again);
    SettleNothing(env, l);
  }

  lemma {:induction false} SettleNothing(env: Env, l: Ledger)
    requires Sound(env.places) && Committed(env, l)
    ensures Settle(env, l, l.log) == Ok(l)
  {
    NothingAdded(env, l.log);
    SettleDecides(env, l, l.log);
  }

  lemma {:induction false} NothingAdded(env: Env, log: seq<Event>)
    ensures Bytes(env.size, log[|log|..]) == 0
  {
    assert log[|log|..] == [];
  }

  lemma {:induction false} ResendCollects(places: Places, open: bool, log: seq<Event>, again: seq<Event>)
    requires Shaped(places, log)
    requires forall i :: 0 <= i < |again| ==> Holds(log, again[i]) && !again[i].kind.Submit?
    ensures Collect(places, open, log, again, false) == Ok(log)
    decreases |again|
  {
    if again != [] {
      var e := again[0];
      assert Holds(log, e);
      assert WellShaped(places, log[e.seqNo - 1]);
      forall i | 0 <= i < |again| - 1 ensures Holds(log, again[1..][i]) && !again[1..][i].kind.Submit? {
        assert again[1..][i] == again[i + 1];
      }
      ResendCollects(places, open, log, again[1..]);
    }
  }
}
