/** When a log may be committed, event by event, in the fields of the events. */
module LogRules {
  import opened Common
  import opened Trees
  import opened Events

  predicate Moves(e: Event)
  {
    e.kind == Enter || e.kind == Back || e.kind == Root
  }

  /** Before event i the participant is at this place: where the last move led. */
  ghost predicate Stands(log: seq<Event>, i: nat, place: Id)
    requires i <= |log|
  {
    || (place == "" && forall j: nat :: j < i ==> !Moves(log[j]))
    || exists j: nat :: LastMove(log, i, j) && place == if log[j].kind == Root then "" else log[j].nodeId
  }

  ghost predicate LastMove(log: seq<Event>, i: nat, j: nat)
    requires i <= |log|
  {
    j < i && Moves(log[j]) && forall k: nat :: j < k < i ==> !Moves(log[k])
  }

  predicate Under(places: Places, id: Id, place: Id)
  {
    && id in places
    && if |places[id].parents| == 0 then place == "" else places[id].parents[|places[id].parents| - 1] == place
  }

  /** What each kind of event demands of the place. */
  predicate Allowed(places: Places, place: Id, e: Event)
  {
    && (e.kind == Enter ==> Under(places, e.nodeId, place))
    && (e.kind == Select ==> e.nodeId == place || Under(places, e.nodeId, place))
    && (e.kind == Back ==>
          place != "" && (e.nodeId == "" || (place in places && e.nodeId in places[place].parents)))
    && (e.kind == Root ==> e.nodeId == "")
    && (e.kind == Resume || e.kind == Hidden || e.kind == Visible ==> e.nodeId == "" || e.nodeId == place)
    && (e.kind == TreeShown ==> e.seqNo == 1)
  }

  /** A clock goes on, or a new one begins, with a resume that tells the visibility. */
  ghost predicate OnTime(log: seq<Event>, i: nat)
    requires i < |log|
  {
    if i == 0 then log[i].visible.Some?
    else if log[i].epoch == log[i - 1].epoch then log[i - 1].elapsed <= log[i].elapsed
    else
      && log[i].visible.Some? && log[i].kind == Resume
      && forall j: nat :: j < i ==> log[j].epoch != log[i].epoch
  }

  ghost predicate Legal(places: Places, log: seq<Event>)
  {
    && AllOnTime(log) && AllAllowed(places, log)
    && forall i: nat :: i < |log| && log[i].kind == Submit ==> i == |log| - 1
  }

  ghost predicate AllOnTime(log: seq<Event>)
  {
    forall i: nat {:trigger OnTime(log, i)} :: i < |log| ==> OnTime(log, i)
  }

  ghost predicate AllAllowed(places: Places, log: seq<Event>)
  {
    forall i: nat, place {:trigger Stands(log, i, place)} :: i < |log| && Stands(log, i, place) ==>
        Allowed(places, place, log[i])
  }

  // ---------------------------------------------------------------------- places

  lemma {:induction false} StandsAtLocation(log: seq<Event>, i: nat)
    requires i <= |log|
    ensures Stands(log, i, Location(log[..i]))
  {
    if i > 0 {
      StandsAtLocation(log, i - 1);
      assert log[..i][..i - 1] == log[..i - 1] && Last(log[..i]) == log[i - 1];
      if Moves(log[i - 1]) {
        assert LastMove(log, i, i - 1);
      } else {
        StandsStill(log, i - 1, Location(log[..i - 1]));
      }
    }
  }

  lemma {:induction false} StandsStill(log: seq<Event>, i: nat, place: Id)
    requires i < |log| && Stands(log, i, place) && !Moves(log[i])
    ensures Stands(log, i + 1, place)
  {
    if !(place == "" && forall j: nat :: j < i ==> !Moves(log[j])) {
      var j: nat :| LastMove(log, i, j) && place == if log[j].kind == Root then "" else log[j].nodeId;
      assert LastMove(log, i + 1, j);
    }
  }

  lemma {:induction false} OnePlace(log: seq<Event>, i: nat, a: Id, b: Id)
    requires i <= |log| && Stands(log, i, a) && Stands(log, i, b)
    ensures a == b
  {
    if j: nat :| LastMove(log, i, j) {
      forall k: nat | LastMove(log, i, k) ensures k == j { OneLastMove(log, i, j, k); }
    }
  }

  lemma {:induction false} OneLastMove(log: seq<Event>, i: nat, j: nat, k: nat)
    requires i <= |log| && LastMove(log, i, j) && LastMove(log, i, k)
    ensures j == k
  {}

  lemma {:induction false} AllowedAgrees(places: Places, place: Id, e: Event)
    requires Sound(places) && NamesKnownNode(places, e) && (place == "" || place in places)
    ensures Allowed(places, place, e) <==> NavOk(places, place, e) && (e.kind.TreeShown? ==> e.seqNo == 1)
  {
    NavAgrees(places, place, e);
  }

  lemma {:induction false} AllowedHere(places: Places, log: seq<Event>, i: nat)
    requires Sound(places) && Shaped(places, log) && i < |log|
    ensures Allowed(places, Location(log[..i]), log[i]) <==>
              NavOk(places, Location(log[..i]), log[i]) && (log[i].kind.TreeShown? ==> log[i].seqNo == 1)
  {
    assert WellShaped(places, log[i]);
    ShapedNamesKnownNode(places, log[i]);
    assert Shaped(places, log[..i]) by {
      forall k | 0 <= k < i ensures WellShaped(places, log[..i][k]) { assert WellShaped(places, log[k]); }
    }
    LocationKnown(places, log[..i]);
    AllowedAgrees(places, Location(log[..i]), log[i]);
  }

  lemma {:induction false} AllowedIsNavigation(places: Places, log: seq<Event>)
    requires Sound(places) && Shaped(places, log)
    ensures AllAllowed(places, log) <==> Navigates(places, log) && TreeShownOnlyFirst(log)
  {
    forall i: nat | i < |log|
      ensures Stands(log, i, Location(log[..i]))
      ensures Allowed(places, Location(log[..i]), log[i]) <==>
                NavOk(places, Location(log[..i]), log[i]) && (log[i].kind.TreeShown? ==> log[i].seqNo == 1) {
      StandsAtLocation(log, i);
      AllowedHere(places, log, i);
    }
    if Navigates(places, log) && TreeShownOnlyFirst(log) {
      forall i: nat, place | i < |log| && Stands(log, i, place) ensures Allowed(places, place, log[i]) {
        OnePlace(log, i, place, Location(log[..i]));
        assert NavOk(places, Location(log[..i]), log[i]);
      }
    }
    if AllAllowed(places, log) {
      forall i | 0 <= i < |log| ensures NavOk(places, Location(log[..i]), log[i]) {
        assert Stands(log, i, Location(log[..i]));
      }
    }
  }

  // ---------------------------------------------------------------------- clocks

  /** A clock that has been left does not come back. */
  ghost predicate NeverBack(log: seq<Event>)
  {
    forall i: nat, j: nat :: j < i < |log| && Opens(log, i) ==> log[j].epoch != log[i].epoch
  }

  lemma {:induction false} BlocksStand(log: seq<Event>)
    ensures OneBlockPerEpoch(log) <==> NeverBack(log)
  {
    if NeverBack(log) {
      forall i, j, k | 0 <= i < j < k < |log| && log[i].epoch == log[k].epoch ensures log[j].epoch == log[i].epoch {
        SameClock(log, i, j, k);
      }
    }
    if OneBlockPerEpoch(log) {
      forall i: nat, j: nat | j < i < |log| && Opens(log, i) ensures log[j].epoch != log[i].epoch {
        assert j < i - 1 || j == i - 1;
      }
    }
  }

  lemma {:induction false} SameClock(log: seq<Event>, i: nat, j: nat, k: nat)
    requires NeverBack(log) && i < j < k < |log| && log[i].epoch == log[k].epoch
    ensures log[j].epoch == log[k].epoch
    decreases k - j
  {
    assert !Opens(log, k);
    if j < k - 1 { SameClock(log, i, j, k - 1); }
  }

  lemma {:induction false} TimesMean(log: seq<Event>)
    ensures AllOnTime(log) ==> NeverBack(log) && EpochsOpenProperly(log) && ClockMonotone(log)
  {
    if AllOnTime(log) {
      forall i: nat, j: nat | j < i < |log| && Opens(log, i) ensures log[j].epoch != log[i].epoch {
        assert OnTime(log, i);
      }
      forall i | 0 <= i < |log| && Opens(log, i) ensures log[i].visible.Some? && (i > 0 ==> log[i].kind.Resume?) {
        assert OnTime(log, i);
      }
      forall i | 0 < i < |log| && !Opens(log, i) ensures log[i - 1].elapsed <= log[i].elapsed {
        assert OnTime(log, i);
      }
    }
  }

  lemma {:induction false} MeaningTimes(log: seq<Event>)
    requires NeverBack(log) && EpochsOpenProperly(log) && ClockMonotone(log)
    ensures AllOnTime(log)
  {
    forall i: nat | i < |log| ensures OnTime(log, i) {
      if Opens(log, i) && i > 0 {
        forall j: nat | j < i ensures log[j].epoch != log[i].epoch {}
      }
    }
  }

  /** The second loop accepts exactly the legal logs. */
  lemma {:induction false} LegalExactlyWhen(places: Places, log: seq<Event>)
    requires Sound(places) && Shaped(places, log)
    ensures Scan(places, log).Ok? <==> Legal(places, log)
  {
    ScanDecides(places, log);
    BlocksStand(log);
    TimesMean(log);
    if ValidLog(places, log) { MeaningTimes(log); }
    AllowedIsNavigation(places, log);
  }
}
