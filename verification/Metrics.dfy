/** Timing and directness of an attempt, computed by one pass over its log
    (eventMetricsV1), and what the numbers mean on logs the server accepts. */
module Metrics {
  import opened Common
  import opened Trees
  import opened Events
  import opened EventStore

  datatype Timing = NotStarted | Interrupted | Complete

  datatype AttemptMetrics = AttemptMetrics(navigation: Option<int>, observed: int, quality: Timing, clockEpochs: nat,
                                           direct: bool, backtracks: nat)

  // --------------------------------------------------------- reference meaning

  /** Foreground knowledge after one event: a new clock starts from its own flag,
      a visibility event decides, otherwise a flag does, otherwise nothing changes. */
  predicate NextVisible(opens: bool, before: bool, e: Event)
  {
    if opens then e.visible == Some(true)
    else if e.kind.Hidden? then false
    else if e.kind.Visible? then true
    else if e.visible.Some? then e.visible.value
    else before
  }

  /** Is the page known to be in the foreground after the log? */
  predicate VisibleAfter(log: seq<Event>)
  {
    log != [] && NextVisible(Opens(log, |log| - 1), VisibleAfter(log[..|log| - 1]), Last(log))
  }

  /** The time between event i - 1 and event i counts as foreground navigation. */
  predicate Counts(log: seq<Event>, i: nat)
    requires i < |log|
  {
    && !Opens(log, i)
    && VisibleAfter(log[..i])
    && (NextVisible(false, true, log[i]) || log[i].kind.Hidden?)
    && !log[i].kind.Resume?
  }

  function Observed(log: seq<Event>): int
  {
    if log == [] then 0
    else
      var i := |log| - 1;
      Observed(log[..i]) + if Counts(log, i) then log[i].elapsed - log[i - 1].elapsed else 0
  }

  function EpochCount(log: seq<Event>): nat
  {
    if log == [] then 0 else EpochCount(log[..|log| - 1]) + if Opens(log, |log| - 1) then 1 else 0
  }

  function Backtracks(log: seq<Event>): nat
  {
    if log == [] then 0 else Backtracks(log[..|log| - 1]) + if Last(log).kind.Back? || Last(log).kind.Root? then 1
        else 0
  }

  predicate Interrupts(log: seq<Event>, i: nat)
    requires i < |log|
  {
    InterruptsFrom(i == 0, Opens(log, i), VisibleAfter(log[..i]), log[i])
  }

  /** A later clock, an unseen page, a resume or hiding, or an unexplained flag change. */
  predicate InterruptsFrom(first: bool, opens: bool, before: bool, e: Event)
  {
    var after := NextVisible(opens, before, e);
    (!first && opens) || !after || e.kind.Resume? || e.kind.Hidden? || (!opens && before != after && !e.kind.Visible?)
  }

  predicate Uninterrupted(log: seq<Event>)
  {
    forall i {:trigger Interrupts(log, i)} :: 0 <= i < |log| ==> !Interrupts(log, i)
  }

  predicate TreeWasShown(log: seq<Event>)
  {
    exists i :: 0 <= i < |log| && log[i].kind.TreeShown?
  }

  /** The event keeps to the way to the selected node. */
  predicate OnTheWay(places: Places, selected: Id, e: Event)
  {
    && !e.kind.Back? && !e.kind.Root?
    && (e.kind.Enter? ==>
          && selected != ""
          && (e.nodeId == selected || (selected in places && e.nodeId in places[selected].parents)))
    && (e.kind.Select? ==> e.nodeId == selected)
  }

  predicate Direct(places: Places, selected: Id, log: seq<Event>)
  {
    forall i {:trigger OnTheWay(places, selected, log[i])} :: 0 <= i < |log| ==> OnTheWay(places, selected, log[i])
  }

  predicate IsComplete(log: seq<Event>, finalized: bool)
  {
    finalized && TreeWasShown(log) && Uninterrupted(log) && |log| > 1 && Last(log).kind.Submit?
  }

  /** The metrics of a log, in terms of the meanings above. */
  function Measure(places: Places, log: seq<Event>, selected: Id, outcome: Outcome, finalized: bool): AttemptMetrics
  {
    AttemptMetrics(
      if IsComplete(log, finalized) && (outcome.Selected? || outcome.GaveUp?) then Some(Observed(log)) else None,
      Observed(log),
      if !TreeWasShown(log) then NotStarted else if IsComplete(log, finalized) then Complete else Interrupted,
      EpochCount(log), Direct(places, selected, log), Backtracks(log))
  }

  // -------------------------------------------------------------- the one pass

  /** The selected node and its ancestors; none without a selection. */
  ghost predicate Above(places: Places, selected: Id, ancestors: set<Id>)
  {
    forall id :: id in ancestors <==>
      selected != "" && (id == selected || (selected in places && id in places[selected].parents))
  }

  /** The selected node and everything above it. */
  method AncestorsOf(index: map<Id, Indexed>, ghost places: Places, selected: Id) returns (ancestors: set<Id>)
    requires Sound(places) && Agree(index, places)
    ensures Above(places, selected, ancestors)
  {
    if selected == "" { return {}; }
    ancestors := {selected};
    var id := ParentIn(index, selected);
    if selected !in index { return; }
    assert AgreeAt(index[selected], places[selected]);
    ghost var path := places[selected].parents;
    ghost var k := |path|;
    assert path[..k] == path;
    while id != ""
      invariant 0 <= k <= |path| && id == LastOr(path[..k])
      invariant forall x :: x in ancestors <==> x == selected || x in path[k..]
      decreases k
    {
      assert id == path[k - 1] && path[k - 1..] == [path[k - 1]] + path[k..];
      ClimbStep(index, places, selected, k);
      ancestors := ancestors + {id};
      id := ParentIn(index, id);
      k := k - 1;
    }
    if k > 0 { ClimbStep(index, places, selected, k); }
    assert path[0..] == path;
  }

  /** The clock and visibility part of one iteration. */
  method Watch(log: seq<Event>, i: nat, visible: bool)
    returns (opens: bool, nextVisible: bool, added: int, interrupts: bool)
    requires i < |log| && visible == VisibleAfter(log[..i])
    ensures opens == Opens(log, i)
    ensures nextVisible == NextVisible(opens, visible, log[i])
    ensures added == if Counts(log, i) then log[i].elapsed - log[i - 1].elapsed else 0
    ensures interrupts == Interrupts(log, i)
  {
    var e := log[i];
    opens, nextVisible, added, interrupts := i == 0 || e.epoch != log[i - 1].epoch, visible, 0, false;
    if e.visible.Some? { nextVisible := e.visible.value; }
    if e.kind.Hidden? { nextVisible := false; }
    if e.kind.Visible? { nextVisible := true; }
    if opens {
      if i > 0 { interrupts := true; }
      nextVisible := e.visible.Some? && e.visible.value;
    } else {
      var knownEnd := nextVisible || e.kind.Hidden?;
      if visible && knownEnd && !e.kind.Resume? {
        added := e.elapsed - log[i - 1].elapsed;
      }
      if nextVisible != visible && !e.kind.Hidden? && !e.kind.Visible? { interrupts := true; }
    }
    if !nextVisible { interrupts := true; }
    if e.kind.Resume? || e.kind.Hidden? { interrupts := true; }
  }

  ghost predicate Counters(log: seq<Event>, visible: bool, observed: int, clockEpochs: nat, backtracks: nat)
  {
    && visible == VisibleAfter(log)
    && observed == Observed(log)
    && clockEpochs == EpochCount(log)
    && backtracks == Backtracks(log)
  }

  lemma {:induction false} CountersStep(log: seq<Event>, i: nat, visible: bool, observed: int, clockEpochs: nat,
                                        backtracks: nat)
    requires i < |log| && Counters(log[..i], visible, observed, clockEpochs, backtracks)
    ensures visible == VisibleAfter(log[..i])
    ensures Counters(log[..i + 1], NextVisible(Opens(log, i), visible, log[i]),
              observed + (if Counts(log, i) then log[i].elapsed - log[i - 1].elapsed else 0),
              clockEpochs + (if Opens(log, i) then 1 else 0),
              backtracks + (if log[i].kind.Back? || log[i].kind.Root? then 1 else 0))
  {
    PrefixStep(log, i);
  }

  /** The three flags over the first n events. */
  ghost predicate Flags(places: Places, selected: Id, log: seq<Event>, n: nat, browsing: bool, interrupted: bool,
                        direct: bool)
    requires n <= |log|
  {
    && (browsing <==> exists j :: 0 <= j < n && log[j].kind.TreeShown?)
    && (interrupted <==> exists j :: 0 <= j < n && Interrupts(log, j))
    && (direct <==> forall j {:trigger OnTheWay(places, selected, log[j])} :: 0 <= j < n ==>
        OnTheWay(places, selected, log[j]))
  }

  lemma {:induction false} FlagsStep(places: Places, selected: Id, log: seq<Event>, i: nat, browsing: bool,
                                     interrupted: bool, direct: bool)
    requires i < |log| && Flags(places, selected, log, i, browsing, interrupted, direct)
    ensures Flags(places, selected, log, i + 1, browsing || log[i].kind.TreeShown?,
                  interrupted || Interrupts(log, i), direct && OnTheWay(places, selected, log[i]))
  {}

  /** The navigation part of one iteration: a step back, or any step off the way. */
  method Judge(ghost places: Places, ancestors: set<Id>, selected: Id, e: Event) returns (back: bool, astray: bool)
    requires Above(places, selected, ancestors)
    ensures back == (e.kind.Back? || e.kind.Root?)
    ensures astray == !OnTheWay(places, selected, e)
  {
    back, astray := false, false;
    match e.kind {
      case Back => back, astray := true, true;
      case Root => back, astray := true, true;
      case Enter => if e.nodeId !in ancestors { astray := true; }
      case Select => if e.nodeId != selected { astray := true; }
      case _ =>
    }
  }

  /** The pass over the log: one iteration per event. */
  method Tally(log: seq<Event>, ghost places: Places, ancestors: set<Id>, selected: Id)
    returns (visible: bool, observed: int, clockEpochs: nat, backtracks: nat, browsing: bool, interrupted: bool,
             direct: bool)
    requires Above(places, selected, ancestors)
    ensures Counters(log, visible, observed, clockEpochs, backtracks)
    ensures Flags(places, selected, log, |log|, browsing, interrupted, direct)
  {
    observed, clockEpochs, backtracks, direct := 0, 0, 0, true;
    visible, browsing, interrupted := false, false, false;
    for i := 0 to |log|
      invariant Counters(log[..i], visible, observed, clockEpochs, backtracks)
      invariant Flags(places, selected, log, i, browsing, interrupted, direct)
    {
      var e := log[i];
      CountersStep(log, i, visible, observed, clockEpochs, backtracks);
      FlagsStep(places, selected, log, i, browsing, interrupted, direct);
      var opens, nextVisible, added, interrupts := Watch(log, i, visible);
      observed := observed + added;
      clockEpochs := clockEpochs + if opens then 1 else 0;
      interrupted := interrupted || interrupts;
      browsing := browsing || e.kind.TreeShown?;
      var back, astray := Judge(places, ancestors, selected, e);
      backtracks := backtracks + if back then 1 else 0;
      direct := direct && !astray;
      visible := nextVisible;
    }
    assert log[..|log|] == log;
  }

  /** The metrics of an attempt. */
  method EventMetrics(log: seq<Event>, index: map<Id, Indexed>, ghost places: Places, selected: Id, outcome: Outcome,
                      finalized: bool)
    returns (m: AttemptMetrics)
    requires Sound(places) && Agree(index, places)
    ensures m == Measure(places, log, selected, outcome, finalized)
  {
    var ancestors := AncestorsOf(index, places, selected);
    var _, observed, clockEpochs, backtracks, browsing, interrupted, direct := Tally(log, places, ancestors, selected);
    if !browsing {
      return AttemptMetrics(None, observed, NotStarted, clockEpochs, direct, backtracks);
    }
    if finalized && !interrupted && |log| > 1 && log[|log| - 1].kind.Submit? {
      return AttemptMetrics(if outcome.Selected? || outcome.GaveUp? then Some(observed)
                            else None, observed, Complete, clockEpochs, direct, backtracks);
    }
    return AttemptMetrics(None, observed, Interrupted, clockEpochs, direct, backtracks);
  }

  /** The reference functions one event further. */
  lemma {:induction false} PrefixStep(log: seq<Event>, i: nat)
    requires i < |log|
    ensures Observed(log[..i + 1]) ==
            Observed(log[..i]) + (if Counts(log, i) then log[i].elapsed - log[i - 1].elapsed else 0)
    ensures EpochCount(log[..i + 1]) == EpochCount(log[..i]) + (if Opens(log, i) then 1 else 0)
    ensures Backtracks(log[..i + 1]) == Backtracks(log[..i]) + (if log[i].kind.Back? || log[i].kind.Root? then 1 else 0)
    ensures VisibleAfter(log[..i + 1]) == NextVisible(Opens(log, i), VisibleAfter(log[..i]), log[i])
  {
    var p := log[..i + 1];
    assert p[..i] == log[..i] && Last(p) == log[i] && |p| - 1 == i;
    assert Opens(p, i) == Opens(log, i);
    assert Counts(p, i) == Counts(log, i);
  }

  // --------------------------------------------- what it means on accepted logs

  /** Sum over the epochs of the first clock reading. */
  function FirstReadings(log: seq<Event>): int
  {
    if log == [] then 0
    else FirstReadings(log[..|log| - 1]) + if Opens(log, |log| - 1) then Last(log).elapsed else 0
  }

  /** Sum over the epochs of the last clock reading: a reading replaces the one
      before it on the same clock. */
  function LastReadings(log: seq<Event>): int
  {
    if log == [] then 0
    else
      var i := |log| - 1;
      LastReadings(log[..i]) + log[i].elapsed - if Opens(log, i) then 0 else log[i - 1].elapsed
  }

  function EpochSpans(log: seq<Event>): int
  {
    LastReadings(log) - FirstReadings(log)
  }

  lemma {:induction false} ClockPrefix(log: seq<Event>, k: nat)
    requires k <= |log| && ClockMonotone(log)
    ensures ClockMonotone(log[..k])
  {
    forall i | 0 < i < k && !Opens(log[..k], i) ensures log[..k][i - 1].elapsed <= log[..k][i].elapsed {
      assert !Opens(log, i);
    }
  }

  lemma {:induction false} ObservedWithinSpans(log: seq<Event>)
    requires ClockMonotone(log)
    ensures 0 <= Observed(log) <= EpochSpans(log)
  {
    if log != [] {
      var i := |log| - 1;
      ClockPrefix(log, i);
      ObservedWithinSpans(log[..i]);
      assert !Opens(log, i) ==> log[i - 1].elapsed <= log[i].elapsed;
    }
  }

  /** Observed time is never negative and never exceeds the time the page clocks
      ran; with the limits on readings and events it stays far inside 64 bits. */
  lemma {:induction false} ObservedIsBounded(log: seq<Event>)
    requires ClockMonotone(log)
    requires forall i :: 0 <= i < |log| ==> 0 <= log[i].elapsed <= MAX_ELAPSED
    ensures 0 <= Observed(log) <= EpochSpans(log) <= MAX_ELAPSED * EpochCount(log) <= MAX_ELAPSED * |log|
    ensures |log| <= MAX_EVENTS_PER_ATTEMPT ==> Observed(log) < 0x8000_0000_0000_0000
  {
    ObservedWithinSpans(log);
    SpansWithinRange(log);
    EpochsAtMostEvents(log);
    Product(MAX_ELAPSED, EpochCount(log), |log|);
    if |log| <= MAX_EVENTS_PER_ATTEMPT {
      Product(MAX_ELAPSED, |log|, MAX_EVENTS_PER_ATTEMPT);
    }
  }

  lemma {:induction false} Product(m: nat, a: nat, b: nat)
    requires a <= b
    ensures m * a <= m * b
  {}

  lemma {:induction false} EpochsAtMostEvents(log: seq<Event>)
    ensures EpochCount(log) <= |log|
  {
    if log != [] {
      EpochsAtMostEvents(log[..|log| - 1]);
    }
  }

  /** Each epoch's span fits one clock range. */
  lemma {:induction false} SpansWithinRange(log: seq<Event>)
    requires forall i :: 0 <= i < |log| ==> 0 <= log[i].elapsed <= MAX_ELAPSED
    ensures FirstReadings(log) >= 0
    ensures log != [] ==> 0 <= LastReadings(log) - Last(log).elapsed <= MAX_ELAPSED * (EpochCount(log) - 1)
    ensures EpochSpans(log) <= MAX_ELAPSED * EpochCount(log)
  {
    if log != [] {
      SpansWithinRange(log[..|log| - 1]);
    }
  }

  /** A complete timing is one page, in the foreground throughout, and its time is
      the whole stretch from the tree being shown to the submit. */
  lemma {:induction false} CompleteIsOneVisiblePage(places: Places, log: seq<Event>, finalized: bool)
    requires Shaped(places, log) && TreeShownOnlyFirst(log) && Sequenced(log) && IsComplete(log, finalized)
    ensures log[0].kind.TreeShown? && log[0].visible == Some(true) && Last(log).kind.Submit?
    ensures forall i :: 0 <= i < |log| ==> Foreground(log[0].epoch, log[i])
    ensures EpochCount(log) == 1
    ensures Observed(log) == Last(log).elapsed - log[0].elapsed
  {
    OneVisiblePage(places, log, |log|);
    assert log[..|log|] == log;
    ShownFirst(log);
    FirstIsVisible(log);
  }

  lemma {:induction false} FirstIsVisible(log: seq<Event>)
    requires log != [] && Uninterrupted(log)
    ensures log[0].visible == Some(true)
  {
    assert !Interrupts(log, 0) && Opens(log, 0);
  }

  lemma {:induction false} ShownFirst(log: seq<Event>)
    requires TreeShownOnlyFirst(log) && Sequenced(log) && TreeWasShown(log)
    ensures log[0].kind.TreeShown?
  {
    var shown :| 0 <= shown < |log| && log[shown].kind.TreeShown?;
    assert log[shown].seqNo == 1 && log[shown].seqNo == shown + 1;
  }

  /** The event is on this page's clock and does not speak of a hidden page. */
  ghost predicate Foreground(epoch: Epoch, e: Event)
  {
    e.epoch == epoch && e.visible != Some(false) && !e.kind.Hidden? && !e.kind.Resume?
  }

  lemma {:induction false} OneVisiblePage(places: Places, log: seq<Event>, n: nat)
    requires 0 < n <= |log| && Uninterrupted(log) && Shaped(places, log)
    ensures forall i :: 0 <= i < n ==> Foreground(log[0].epoch, log[i])
    ensures VisibleAfter(log[..n])
    ensures EpochCount(log[..n]) == 1 && Observed(log[..n]) == log[n - 1].elapsed - log[0].elapsed
  {
    var i := n - 1;
    PrefixStep(log, i);
    assert !Interrupts(log, i) && WellShaped(places, log[i]);
    ShapedVisibility(places, log[i]);
    if i > 0 {
      OneVisiblePage(places, log, i);
    } else {
      assert log[..0] == [];
    }
  }

  lemma {:induction false} ShapedVisibility(places: Places, e: Event)
    requires WellShaped(places, e)
    ensures e.kind.Visible? ==> e.visible != Some(false)
    ensures e.kind.Hidden? ==> e.visible != Some(true)
  {}
}
