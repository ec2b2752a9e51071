/** What the times of an attempt mean, in the fields of its events: where the page was in
    view, what a hidden page costs, and when a timing is complete. */
module Timing {
  import opened Common
  import opened Trees
  import opened Events
  import opened Metrics

  // ------------------------------------------------------------ a page in view

  /** The event tells that the page is in view: a new clock by its flag alone, otherwise
      a visibility event, and a flag on any other event. */
  predicate Shows(log: seq<Event>, i: nat)
    requires i < |log|
  {
    if Opens(log, i) then log[i].visible == Some(true)
    else log[i].kind == Visible || (log[i].kind != Hidden && log[i].visible == Some(true))
  }

  predicate Hides(log: seq<Event>, i: nat)
    requires i < |log|
  {
    if Opens(log, i) then log[i].visible != Some(true)
    else log[i].kind == Hidden || (log[i].kind != Visible && log[i].visible == Some(false))
  }

  /** After n events: some event told so, and none since has told otherwise. */
  ghost predicate InView(log: seq<Event>, n: nat)
    requires n <= |log|
  {
    exists j: nat {:trigger Shows(log, j)} :: j < n && Shows(log, j) && forall k: nat :: j < k < n ==> !Hides(log, k)
  }

  lemma {:induction false} InViewStep(log: seq<Event>, i: nat)
    requires i < |log|
    ensures InView(log, i + 1) <==> Shows(log, i) || (InView(log, i) && !Hides(log, i))
  {
    if InView(log, i) && !Hides(log, i) {
      var j: nat :| j < i && Shows(log, j) && forall k: nat :: j < k < i ==> !Hides(log, k);
      assert Shows(log, j) && forall k: nat :: j < k < i + 1 ==> !Hides(log, k);
    }
  }

  lemma {:induction false} VisibleStep(log: seq<Event>, i: nat)
    requires i < |log|
    ensures VisibleAfter(log[..i + 1]) <==> Shows(log, i) || (VisibleAfter(log[..i]) && !Hides(log, i))
  {
    PrefixStep(log, i);
  }

  lemma {:induction false} InViewIsVisible(log: seq<Event>, n: nat)
    requires n <= |log|
    ensures VisibleAfter(log[..n]) <==> InView(log, n)
  {
    if n > 0 {
      InViewIsVisible(log, n - 1);
      InViewStep(log, n - 1);
      VisibleStep(log, n - 1);
    }
  }

  // --------------------------------------------------------------- observed time

  /** From the event before to this one on the same clock: the page was in view, and
      still is or has just been hidden. */
  ghost predicate Watched(log: seq<Event>, i: nat)
    requires i < |log|
  {
    !Opens(log, i) && InView(log, i) && (InView(log, i + 1) || log[i].kind == Hidden) && log[i].kind != Resume
  }

  /** The readings between the watched events, added up. */
  ghost function WatchedTime(log: seq<Event>, n: nat): int
    requires n <= |log|
  {
    if n == 0 then 0
    else WatchedTime(log, n - 1) + if Watched(log, n - 1) then log[n - 1].elapsed - log[n - 2].elapsed else 0
  }

  lemma {:induction false} ObservedToHere(log: seq<Event>, n: nat)
    requires n <= |log|
    ensures Observed(log[..n]) == WatchedTime(log, n)
  {
    if n > 0 {
      ObservedToHere(log, n - 1);
      PrefixStep(log, n - 1);
      InViewIsVisible(log, n - 1);
      InViewIsVisible(log, n);
    }
  }

  /** Observed time is the time watched, on any log whatever. */
  lemma {:induction false} ObservedIsWatched(log: seq<Event>)
    ensures Observed(log) == WatchedTime(log, |log|)
  {
    ObservedToHere(log, |log|);
    assert log[..|log|] == log;
  }

  /** Hiding a page in view counts the whole time since the event before. */
  lemma {:induction false} HidingCounts(log: seq<Event>, i: nat)
    requires 0 < i < |log| && log[i].epoch == log[i - 1].epoch && log[i].kind == Hidden && InView(log, i)
    ensures Observed(log[..i + 1]) == Observed(log[..i]) + log[i].elapsed - log[i - 1].elapsed
  {
    ObservedToHere(log, i);
    ObservedToHere(log, i + 1);
  }

  // -------------------------------------------------------------- clock by clock

  lemma {:induction false} NextClockStartsAnew(a: seq<Event>, b: seq<Event>, n: nat)
    requires a != [] && b != [] && b[0].epoch != Last(a).epoch && n <= |b|
    ensures n > 0 ==> (InView(a + b, |a| + n) <==> InView(b, n))
    ensures WatchedTime(a + b, |a| + n) == WatchedTime(a + b, |a|) + WatchedTime(b, n)
  {
    if n > 0 {
      var i := n - 1;
      NextClockStartsAnew(a, b, i);
      SameEvent(a, b, i);
      InViewStep(a + b, |a| + i);
      InViewStep(b, i);
    }
  }

  lemma {:induction false} SameEvent(a: seq<Event>, b: seq<Event>, i: nat)
    requires a != [] && i < |b| && b[0].epoch != Last(a).epoch
    ensures (a + b)[|a| + i] == b[i] && Opens(a + b, |a| + i) == Opens(b, i)
    ensures Shows(a + b, |a| + i) == Shows(b, i) && Hides(a + b, |a| + i) == Hides(b, i)
    ensures i > 0 ==> (a + b)[|a| + i - 1] == b[i - 1]
  {}

  lemma {:induction false} FirstClockStays(a: seq<Event>, b: seq<Event>, n: nat)
    requires n <= |a|
    ensures WatchedTime(a + b, n) == WatchedTime(a, n)
  {
    ObservedToHere(a + b, n);
    ObservedToHere(a, n);
    assert (a + b)[..n] == a[..n];
  }

  /** Every clock is timed for itself: nothing is counted between two of them. */
  lemma {:induction false} ObservedAddsOverClocks(a: seq<Event>, b: seq<Event>)
    requires a != [] && b != [] && b[0].epoch != Last(a).epoch
    ensures Observed(a + b) == Observed(a) + Observed(b)
  {
    ObservedIsWatched(a + b);
    ObservedIsWatched(a);
    ObservedIsWatched(b);
    NextClockStartsAnew(a, b, |b|);
    FirstClockStays(a, b, |a|);
  }

  // ----------------------------------------------------------------- time away

  /** The page goes out of view: it is hidden, or a new clock starts without it. */
  predicate Leaves(log: seq<Event>, j: nat)
    requires j < |log|
  {
    log[j].kind == Hidden || (Opens(log, j) && log[j].visible != Some(true))
  }

  /** After n events the page has left and no visibility event or clock has come since. */
  ghost predicate Away(log: seq<Event>, n: nat)
    requires n <= |log|
  {
    exists j: nat :: AwaySince(log, j, n)
  }

  ghost predicate AwaySince(log: seq<Event>, j: nat, n: nat)
    requires n <= |log|
  {
    j < n && Leaves(log, j) && forall k: nat :: j < k < n ==> log[k].kind != Visible && !Opens(log, k)
  }

  /** Flags say what the visibility events say. */
  ghost predicate Truthful(log: seq<Event>)
  {
    forall i: nat {:trigger Opens(log, i)} :: i < |log| ==>
      if Opens(log, i) then log[i].kind != Hidden
      else
        log[i].kind != Hidden && log[i].kind != Visible && log[i].visible.Some? ==>
            log[i].visible == Some(!Away(log, i))
  }

  lemma {:induction false} AwayStep(log: seq<Event>, i: nat)
    requires i < |log|
    ensures Away(log, i + 1) <==> Leaves(log, i) || (Away(log, i) && log[i].kind != Visible && !Opens(log, i))
  {
    if Leaves(log, i) { assert AwaySince(log, i, i + 1); }
    if Away(log, i + 1) && !Leaves(log, i) {
      var j: nat :| AwaySince(log, j, i + 1);
      assert AwaySince(log, j, i);
    }
    if Away(log, i) && log[i].kind != Visible && !Opens(log, i) {
      var j: nat :| AwaySince(log, j, i);
      assert AwaySince(log, j, i + 1);
    }
  }

  lemma {:induction false} AwayIsOutOfView(log: seq<Event>, n: nat)
    requires 0 < n <= |log| && Truthful(log)
    ensures InView(log, n) <==> !Away(log, n)
  {
    assert Opens(log, n - 1) || n > 1;
    if n > 1 { AwayIsOutOfView(log, n - 1); }
    InViewStep(log, n - 1);
    AwayStep(log, n - 1);
  }

  /** The readings between events on the same clock, added up; and those with the page
      away, or before a resume. */
  ghost function ClockTime(log: seq<Event>, n: nat): int
    requires n <= |log|
  {
    if n == 0 then 0
    else ClockTime(log, n - 1) + if Opens(log, n - 1) then 0 else log[n - 1].elapsed - log[n - 2].elapsed
  }

  ghost function AwayTime(log: seq<Event>, n: nat): int
    requires n <= |log|
  {
    if n == 0 then 0
    else
      AwayTime(log, n - 1)
      + if !Opens(log, n - 1) && (Away(log, n - 1) || log[n - 1].kind == Resume)
        then log[n - 1].elapsed - log[n - 2].elapsed else 0
  }

  lemma {:induction false} WatchedOrAway(log: seq<Event>, n: nat)
    requires n <= |log| && Truthful(log)
    ensures WatchedTime(log, n) == ClockTime(log, n) - AwayTime(log, n)
  {
    if n > 0 {
      var i := n - 1;
      WatchedOrAway(log, i);
      AwayIsOutOfView(log, n);
      if !Opens(log, i) {
        AwayIsOutOfView(log, i);
        AwayStep(log, i);
      }
    }
  }

  /** The clocks of a log run from their first reading to their last. */
  lemma {:induction false} OneClockRuns(log: seq<Event>, n: nat)
    requires 0 < n <= |log| && forall i :: 0 <= i < n ==> log[i].epoch == log[0].epoch
    ensures ClockTime(log, n) == log[n - 1].elapsed - log[0].elapsed
  {
    if n > 1 { OneClockRuns(log, n - 1); }
  }

  /** Event j is on the same clock as event k, and none strictly between shows the page. */
  ghost predicate Unbroken(log: seq<Event>, j: nat, k: nat)
    requires j <= k < |log|
  {
    forall i: nat {:trigger Opens(log, i)} :: j < i <= k ==> !Opens(log, i) && (i < k ==> log[i].kind != Visible)
  }

  lemma {:induction false} StillAway(log: seq<Event>, j: nat, k: nat)
    requires j < k < |log| && Leaves(log, j) && Unbroken(log, j, k)
    ensures Away(log, k) && !Opens(log, k) && Unbroken(log, j, k - 1)
  {
    forall i: nat | j < i < k ensures log[i].kind != Visible && !Opens(log, i) {
      assert !Opens(log, i);
    }
    assert AwaySince(log, j, k);
  }

  lemma {:induction false} AwayTimeStep(log: seq<Event>, k: nat)
    requires 0 < k < |log| && Away(log, k) && !Opens(log, k)
    ensures AwayTime(log, k + 1) == AwayTime(log, k) + log[k].elapsed - log[k - 1].elapsed
  {}

  /** A hidden page costs exactly the time until the event that shows it again, or until
      any event before that. */
  lemma {:induction false} AwayUntilShown(log: seq<Event>, j: nat, k: nat)
    requires j <= k < |log| && Leaves(log, j) && Unbroken(log, j, k)
    ensures AwayTime(log, k + 1) == AwayTime(log, j + 1) + log[k].elapsed - log[j].elapsed
  {
    if k > j {
      assert AwayTime(log, k) == AwayTime(log, j + 1) + log[k - 1].elapsed - log[j].elapsed by {
        StillAway(log, j, k);
        AwayUntilShown(log, j, k - 1);
      }
      assert AwayTime(log, k + 1) == AwayTime(log, k) + log[k].elapsed - log[k - 1].elapsed by {
        StillAway(log, j, k);
        AwayTimeStep(log, k);
      }
    }
  }

  /** While the page is in view nothing is lost, unless a resume comes on the same clock. */
  lemma {:induction false} NothingLostInView(log: seq<Event>, i: nat)
    requires i < |log| && !Away(log, i) && log[i].kind != Resume
    ensures AwayTime(log, i + 1) == AwayTime(log, i)
  {}

  /** On one clock, observed time runs from the first event to the last, less the time the
      page was away or about to resume. */
  lemma {:induction false} ObservedOnOneClock(log: seq<Event>)
    requires log != [] && Truthful(log) && forall i :: 0 <= i < |log| ==> log[i].epoch == log[0].epoch
    ensures Observed(log) == Last(log).elapsed - log[0].elapsed - AwayTime(log, |log|)
  {
    ObservedIsWatched(log);
    WatchedOrAway(log, |log|);
    OneClockRuns(log, |log|);
  }

  // ------------------------------------------------------------ the other numbers

  lemma {:induction false} ForegroundIsSeen(places: Places, log: seq<Event>, n: nat)
    requires 0 < n <= |log| && Shaped(places, log) && log[0].visible == Some(true)
    requires forall i :: 0 <= i < n ==> Foreground(log[0].epoch, log[i])
    ensures VisibleAfter(log[..n]) && forall i :: 0 <= i < n ==> !Interrupts(log, i)
  {
    var i := n - 1;
    PrefixStep(log, i);
    if i > 0 { ForegroundIsSeen(places, log, i); }
  }

  lemma {:induction false} UninterruptedExactlyWhen(places: Places, log: seq<Event>)
    requires log != [] && Shaped(places, log)
    ensures Uninterrupted(log) <==>
              log[0].visible == Some(true) && forall i :: 0 <= i < |log| ==> Foreground(log[0].epoch, log[i])
  {
    if Uninterrupted(log) {
      FirstIsVisible(log);
      OneVisiblePage(places, log, |log|);
    } else if log[0].visible == Some(true) && forall i :: 0 <= i < |log| ==> Foreground(log[0].epoch, log[i]) {
      ForegroundIsSeen(places, log, |log|);
    }
  }

  /** Positions of the steps back. */
  function StepsBackIn(log: seq<Event>): set<nat>
  {
    set i: nat | i < |log| && (log[i].kind == Back || log[i].kind == Root)
  }

  function Clocks(log: seq<Event>): set<Epoch>
  {
    set i: nat | i < |log| :: log[i].epoch
  }

  lemma {:induction false} BacktracksAreCounted(log: seq<Event>)
    ensures Backtracks(log) == |StepsBackIn(log)|
  {
    if log == [] {
      assert StepsBackIn(log) == {};
    } else {
      var init, n := log[..|log| - 1], |log| - 1;
      BacktracksAreCounted(init);
      var a, b := StepsBackIn(init), StepsBackIn(log);
      forall i: nat ensures i in b <==> i in a || ((log[n].kind == Back || log[n].kind == Root) && i == n) {
        if i < n { assert init[i] == log[i]; }
      }
      OneMorePosition(a, b, n, log[n].kind == Back || log[n].kind == Root);
    }
  }

  /** With one stretch of the log to each clock, clocks are counted once each. */
  lemma {:induction false} EpochsAreClocks(log: seq<Event>)
    requires OneBlockPerEpoch(log)
    ensures EpochCount(log) == |Clocks(log)|
  {
    if log == [] {
      assert Clocks(log) == {};
    } else {
      var init, n := log[..|log| - 1], |log| - 1;
      assert forall i :: 0 <= i < n ==> init[i] == log[i];
      EpochsAreClocks(init);
      ClocksGrow(log);
      NewClockIsNew(log);
    }
  }

  lemma {:induction false} NewClockIsNew(log: seq<Event>)
    requires log != [] && OneBlockPerEpoch(log)
    ensures Last(log).epoch in Clocks(log[..|log| - 1]) <==> !Opens(log, |log| - 1)
  {
    var init, n := log[..|log| - 1], |log| - 1;
    if Opens(log, n) {
      forall i: nat | i < n ensures init[i].epoch != log[n].epoch {
        assert n > 0 && log[n - 1].epoch != log[n].epoch && init[i] == log[i];
      }
    } else {
      assert init[n - 1].epoch == log[n].epoch;
    }
  }

  lemma {:induction false} ClocksGrow(log: seq<Event>)
    requires log != []
    ensures Clocks(log) == Clocks(log[..|log| - 1]) + {Last(log).epoch}
  {
    var init, n := log[..|log| - 1], |log| - 1;
    assert forall i :: 0 <= i < n ==> init[i] == log[i];
    forall epoch | epoch in Clocks(init) ensures epoch in Clocks(log) {
      var i: nat :| i < n && init[i].epoch == epoch;
      assert log[i].epoch == epoch;
    }
    forall epoch | epoch in Clocks(log) ensures epoch in Clocks(init) || epoch == log[n].epoch {
      var i: nat :| i < |log| && log[i].epoch == epoch;
      if i < n { assert init[i].epoch == epoch; }
    }
  }

  /** A log as the server stores it: a timing is complete exactly when the attempt was
      finished on the one page that showed the tree, in view from the first event to the
      submit; then its time is the whole stretch. Clocks and steps back are counted. */
  ghost predicate SaysSo(m: AttemptMetrics, log: seq<Event>, outcome: Outcome, finalized: bool)
  {
    && (m.quality == NotStarted <==> log == [] || log[0].kind != TreeShown)
    && (m.quality == Complete <==>
          && finalized && |log| > 1 && log[0].kind == TreeShown && log[0].visible == Some(true)
          && Last(log).kind == Submit
          && forall i :: 0 <= i < |log| ==> Foreground(log[0].epoch, log[i]))
    && (m.navigation.Some? <==> m.quality == Complete && (outcome == Selected || outcome == GaveUp))
    && (m.navigation.Some? ==> m.navigation.value == Last(log).elapsed - log[0].elapsed)
    && m.observed == WatchedTime(log, |log|)
    && m.clockEpochs == |Clocks(log)|
    && m.backtracks == |StepsBackIn(log)|
  }

  lemma {:induction false} MetricsSaySo(places: Places, log: seq<Event>, selected: Id, outcome: Outcome,
                                        finalized: bool)
    requires Shaped(places, log) && Sequenced(log) && TreeShownOnlyFirst(log) && OneBlockPerEpoch(log)
    ensures SaysSo(Measure(places, log, selected, outcome, finalized), log, outcome, finalized)
  {
    ObservedIsWatched(log);
    BacktracksAreCounted(log);
    EpochsAreClocks(log);
    if log != [] {
      UninterruptedExactlyWhen(places, log);
      if TreeWasShown(log) { ShownFirst(log); }
      if IsComplete(log, finalized) { CompleteIsOneVisiblePage(places, log, finalized); }
    }
  }
}
