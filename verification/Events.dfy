/** The sequenced event log: what one event must look like, what a valid log is,
    and the append that accepts a batch as a whole or refuses it. */
module Events {
  import opened Common
  import opened Trees

  const MAX_EVENTS_PER_REQUEST: nat := 200
  const MAX_EVENTS_PER_ATTEMPT: nat := 5000
  const MAX_ATTEMPT_BYTES: nat := 0x10_0000
  const MAX_SESSION_BYTES: nat := 0x40_0000
  const MAX_RUN_BYTES: nat := 0x800_0000
  const MAX_ELAPSED: int := 365 * 24 * 60 * 60 * 1000

  datatype Kind =
    | TreeShown
    | Enter
    | Back
    | Root
    | Select
    | Hidden
    | Visible
    | Resume
    | Submit
    | UnlistedKind(name: string)

  datatype Outcome = NoOutcome | Selected | GaveUp | Skipped | UnlistedOutcome(name: string)

  /** A page's performance clock. Any other JSON value is never valid. */
  datatype Epoch = TextEpoch(text: string) | NumberEpoch(number: int) | OtherEpoch(raw: string)

  datatype Event = Event(id: Id, seqNo: int, kind: Kind, nodeId: Id, elapsed: int, epoch: Epoch,
                         visible: Option<bool>, outcome: Outcome)

  /** The session's tree and the length of an event's canonical encoding. */
  datatype Env = Env(places: Places, size: Event -> nat)

  /** What the finish request says was chosen. */
  datatype Choice = Choice(outcome: Outcome, nodeId: Id)

  // ---------------------------------------------------------------- one event

  predicate ValidEpoch(epoch: Epoch)
  {
    match epoch
    case TextEpoch(text) => 0 < |text| <= 128
    case NumberEpoch(number) => 0 <= number < 0x8000_0000_0000_0000
    case OtherEpoch(_) => false
  }

  /** The checks on a new event that look at nothing but the event and the tree. */
  function ShapeProblem(places: Places, e: Event): Option<Problem>
  {
    if |e.id| == 0 || |e.id| > 128 || !Trimmed(e.id) then Some(InvalidEventId)
    else if e.elapsed < 0 || e.elapsed > MAX_ELAPSED then Some(InvalidElapsed)
    else if !ValidEpoch(e.epoch) then Some(InvalidEpoch)
    else if e.kind.UnlistedKind? then Some(InvalidType)
    else if e.seqNo == 1 && !e.kind.TreeShown? && !(e.kind.Submit? && e.outcome.Skipped?) then Some(InvalidFirstEvent)
    else if e.kind.Submit? && e.visible.None? then Some(SubmitNeedsVisible)
    else if e.kind.Hidden? && e.visible == Some(true) then Some(HiddenWithVisible)
    else if e.kind.Visible? && e.visible == Some(false) then Some(VisibleWithHidden)
    else if e.kind.Submit? && !e.outcome.Selected? && !e.outcome.GaveUp? && !e.outcome.Skipped?
        then Some(InvalidOutcome)
    else if e.nodeId != "" && e.nodeId !in places then Some(UnknownNode)
    else if (e.kind.Enter? || e.kind.Select?) && e.nodeId == "" then Some(NodeRequired)
    else if e.kind.Select? && !(e.nodeId in places && places[e.nodeId].node.selectable) then Some(NotSelectable)
    else None
  }

  /** A stored event passed every shape check, and only a submit has an outcome. */
  ghost predicate WellShaped(places: Places, e: Event)
  {
    ShapeProblem(places, e) == None && (!e.kind.Submit? ==> e.outcome.NoOutcome?)
  }

  // --------------------------------------------------------------- whole logs

  /** The navigation location after a log. */
  function Location(log: seq<Event>): Id
  {
    if log == [] then ""
    else
      var e := Last(log);
      match e.kind
      case Enter => e.nodeId
      case Back => e.nodeId
      case Root => ""
      case _ => Location(log[..|log| - 1])
  }

  /** Navigation as a path: enter pushes one node, back cuts the path, root empties
      it, a selection is the open page or one item below it, and a page-clock or
      visibility marker that names a node names the current one. */
  ghost predicate NavOk(places: Places, current: Id, e: Event)
  {
    match e.kind
    case Enter => Path(places, e.nodeId) == Path(places, current) + [e.nodeId]
    case Back => current != "" && Path(places, e.nodeId) < Path(places, current)
    case Root => e.nodeId == ""
    case Select => e.nodeId == current || Path(places, e.nodeId) == Path(places, current) + [e.nodeId]
    case Resume => e.nodeId == "" || e.nodeId == current
    case Hidden => e.nodeId == "" || e.nodeId == current
    case Visible => e.nodeId == "" || e.nodeId == current
    case _ => true
  }

  predicate Opens(log: seq<Event>, i: nat)
    requires i < |log|
  {
    i == 0 || log[i].epoch != log[i - 1].epoch
  }

  /** Each page epoch is one contiguous block of the log. */
  ghost predicate OneBlockPerEpoch(log: seq<Event>)
  {
    forall i, j, k :: 0 <= i < j < k < |log| && log[i].epoch == log[k].epoch ==> log[j].epoch == log[i].epoch
  }

  ghost predicate EpochsOpenProperly(log: seq<Event>)
  {
    forall i :: 0 <= i < |log| && Opens(log, i) ==> log[i].visible.Some? && (i > 0 ==> log[i].kind.Resume?)
  }

  ghost predicate ClockMonotone(log: seq<Event>)
  {
    forall i :: 0 < i < |log| && !Opens(log, i) ==> log[i - 1].elapsed <= log[i].elapsed
  }

  ghost predicate SubmitOnlyLast(log: seq<Event>)
  {
    forall i :: 0 <= i < |log| - 1 ==> !log[i].kind.Submit?
  }

  ghost predicate TreeShownOnlyFirst(log: seq<Event>)
  {
    forall i :: 0 <= i < |log| && log[i].kind.TreeShown? ==> log[i].seqNo == 1
  }

  ghost predicate Navigates(places: Places, log: seq<Event>)
  {
    forall i {:trigger NavOk(places, Location(log[..i]), log[i])} :: 0 <= i < |log| ==>
        NavOk(places, Location(log[..i]), log[i])
  }

  /** The declarative meaning of "this log may be committed". */
  ghost predicate ValidLog(places: Places, log: seq<Event>)
  {
    && OneBlockPerEpoch(log)
    && EpochsOpenProperly(log)
    && ClockMonotone(log)
    && SubmitOnlyLast(log)
    && TreeShownOnlyFirst(log)
    && Navigates(places, log)
  }

  ghost predicate Shaped(places: Places, log: seq<Event>)
  {
    forall i {:trigger WellShaped(places, log[i])} :: 0 <= i < |log| ==> WellShaped(places, log[i])
  }

  ghost predicate Sequenced(log: seq<Event>)
  {
    forall i :: 0 <= i < |log| ==> log[i].seqNo == i + 1
  }

  ghost predicate DistinctIds(log: seq<Event>)
  {
    forall i, j :: 0 <= i < j < |log| ==> log[i].id != log[j].id
  }

  // ------------------------------------------------------- the validating scan

  /** The variables of the server's second loop. */
  datatype ScanState = ScanState(epoch: Option<Epoch>, elapsed: int, seen: set<Epoch>, current: Id, ended: bool)

  const SCAN_START := ScanState(None, 0, {}, "", false)

  function EpochProblem(st: ScanState, e: Event): Option<Problem>
  {
    if st.epoch != Some(e.epoch) then
      if e.epoch in st.seen then Some(EpochConflict)
      else if e.visible.None? then Some(EpochNeedsVisible)
      else if st.epoch.Some? && !e.kind.Resume? then Some(EpochNeedsResume)
      else None
    else if e.elapsed < st.elapsed then Some(ElapsedNotMonotone)
    else None
  }

  function NavProblem(places: Places, current: Id, e: Event): Option<Problem>
  {
    match e.kind
    case TreeShown => if e.seqNo != 1 then Some(LateTreeShown) else None
    case Enter => if Parent(places, e.nodeId) != current then Some(EnterNotChild) else None
    case Select => if e.nodeId != current && Parent(places, e.nodeId) != current then Some(SelectNotVisible) else None
    case Back =>
      if current == "" || !(e.nodeId == "" || (current in places && e.nodeId in places[current].parents))
      then Some(BackNotAncestor) else None
    case Root => if e.nodeId != "" then Some(RootWithNode) else None
    case Resume => if e.nodeId != "" && e.nodeId != current then Some(LocationConflict) else None
    case Hidden => if e.nodeId != "" && e.nodeId != current then Some(LocationConflict) else None
    case Visible => if e.nodeId != "" && e.nodeId != current then Some(LocationConflict) else None
    case _ => None
  }

  function Moved(current: Id, e: Event): Id
  {
    match e.kind
    case Enter => e.nodeId
    case Back => e.nodeId
    case Root => ""
    case _ => current
  }

  function ScanStep(places: Places, st: ScanState, e: Event): Result<ScanState>
  {
    if st.ended then Err(SubmitNotTerminal)
    else if EpochProblem(st, e).Some? then Err(EpochProblem(st, e).value)
    else if NavProblem(places, st.current, e).Some? then Err(NavProblem(places, st.current, e).value)
    else Ok(ScanState(Some(e.epoch), e.elapsed, st.seen + {e.epoch}, Moved(st.current, e), e.kind.Submit?))
  }

  function Scan(places: Places, log: seq<Event>): Result<ScanState>
  {
    if log == [] then Ok(SCAN_START)
    else
      var before := Scan(places, log[..|log| - 1]);
      if before.Err? then before else ScanStep(places, before.value, Last(log))
  }

  lemma {:induction false} ScanErrSticks(places: Places, log: seq<Event>, k: nat)
    requires k <= |log| && Scan(places, log[..k]).Err?
    ensures Scan(places, log) == Scan(places, log[..k])
    decreases |log| - k
  {
    if k < |log| {
      assert log[..k + 1][..k] == log[..k];
      ScanErrSticks(places, log, k + 1);
    } else {
      assert log[..k] == log;
    }
  }

  ghost predicate Epochs(log: seq<Event>, seen: set<Epoch>)
  {
    && (forall i :: 0 <= i < |log| ==> log[i].epoch in seen)
    && (forall epoch :: epoch in seen ==> exists i :: 0 <= i < |log| && log[i].epoch == epoch)
  }

  /** What the loop variables mean after a valid log. */
  ghost predicate ScanMeans(log: seq<Event>, st: ScanState)
  {
    && (log == [] ==> st == SCAN_START)
    && (log != [] ==>
          && st.epoch == Some(Last(log).epoch)
          && st.elapsed == Last(log).elapsed
          && st.ended == Last(log).kind.Submit?)
    && Epochs(log, st.seen)
    && st.current == Location(log)
  }

  /** The node an event names exists; enter and select always name one. */
  ghost predicate NamesKnownNode(places: Places, e: Event)
  {
    && (e.nodeId == "" || e.nodeId in places)
    && (e.kind.Enter? || e.kind.Select? ==> e.nodeId in places)
    && (e.kind.Select? ==> e.nodeId in places && places[e.nodeId].node.selectable)
  }

  lemma {:induction false} ShapedNamesKnownNode(places: Places, e: Event)
    requires WellShaped(places, e)
    ensures NamesKnownNode(places, e)
  {}

  /** A committed location is the top level or a node of the tree. */
  lemma {:induction false} LocationKnown(places: Places, log: seq<Event>)
    requires Shaped(places, log)
    ensures Location(log) == "" || Location(log) in places
  {
    if log != [] {
      LocationKnown(places, log[..|log| - 1]);
      assert WellShaped(places, log[|log| - 1]);
      ShapedNamesKnownNode(places, Last(log));
    }
  }

  /** On well-shaped events the server's parent comparisons say the same as paths. */
  lemma {:induction false} NavAgrees(places: Places, current: Id, e: Event)
    requires Sound(places) && NamesKnownNode(places, e)
    requires current == "" || current in places
    ensures NavProblem(places, current, e) == None <==>
              NavOk(places, current, e) && (e.kind.TreeShown? ==> e.seqNo == 1)
  {
    match e.kind
    case Enter => ChildIffPathExtends(places, current, e.nodeId);
    case Select => ChildIffPathExtends(places, current, e.nodeId);
    case Back =>
      if current != "" && e.nodeId != "" {
        AncestorIffPrefix(places, current, e.nodeId);
      }
    case _ =>
  }

  lemma {:induction false} ChildIffPathExtends(places: Places, current: Id, child: Id)
    requires Sound(places) && child in places
    requires current == "" || current in places
    ensures Parent(places, child) == current <==> Path(places, child) == Path(places, current) + [child]
  {
    var path, up := Path(places, child), places[child].parents;
    assert SoundAt(places, child);
    assert path[..|path| - 1] == up;
    if path == Path(places, current) + [child] {
      assert up == Path(places, current);
    }
  }

  lemma {:induction false} BlocksExtend(log: seq<Event>, e: Event, seen: set<Epoch>)
    requires OneBlockPerEpoch(log) && Epochs(log, seen)
    ensures OneBlockPerEpoch(log + [e]) <==> (e.epoch !in seen || (log != [] && Last(log).epoch == e.epoch))
  {
    var all := log + [e];
    if e.epoch in seen && Last(log).epoch != e.epoch {
      var i :| 0 <= i < |log| && log[i].epoch == e.epoch;
      assert all[i].epoch == all[|log|].epoch && all[|log| - 1].epoch != all[i].epoch;
      assert !OneBlockPerEpoch(all);
    } else {
      forall i, j, k | 0 <= i < j < k < |all| && all[i].epoch == all[k].epoch ensures all[j].epoch == all[i].epoch {
        if k == |log| && j < |log| - 1 {
          assert all[j].epoch == log[j].epoch && log[i].epoch == log[|log| - 1].epoch;
        }
      }
    }
  }

  /** What one more event must satisfy after a valid log. */
  ghost predicate MayFollow(places: Places, log: seq<Event>, e: Event)
  {
    && OneBlockPerEpoch(log + [e])
    && (if log == [] || Last(log).epoch != e.epoch
        then e.visible.Some? && (log != [] ==> e.kind.Resume?)
        else Last(log).elapsed <= e.elapsed)
    && (log != [] ==> !Last(log).kind.Submit?)
    && (e.kind.TreeShown? ==> e.seqNo == 1)
    && NavOk(places, Location(log), e)
  }

  lemma {:induction false} ClocksExtend(log: seq<Event>, e: Event)
    ensures EpochsOpenProperly(log + [e]) && ClockMonotone(log + [e]) <==>
            && EpochsOpenProperly(log) && ClockMonotone(log)
            && if log == [] || Last(log).epoch != e.epoch
               then e.visible.Some? && (log != [] ==> e.kind.Resume?)
               else Last(log).elapsed <= e.elapsed
  {
    var all := log + [e];
    assert all[|log|] == e;
    assert forall i :: 0 <= i < |log| ==> all[i] == log[i];
    assert forall i :: 0 <= i < |log| ==> Opens(all, i) == Opens(log, i);
    assert Opens(all, |log|) <==> log == [] || Last(log).epoch != e.epoch;
  }

  lemma {:induction false} NavigatesExtend(places: Places, log: seq<Event>, e: Event)
    ensures Navigates(places, log + [e]) <==> Navigates(places, log) && NavOk(places, Location(log), e)
  {
    var all := log + [e];
    assert all[|log|] == e && all[..|log|] == log;
    assert forall i :: 0 <= i < |log| ==> all[i] == log[i] && all[..i] == log[..i];
    if Navigates(places, all) {
      assert NavOk(places, Location(all[..|log|]), all[|log|]);
      forall i | 0 <= i < |log| ensures NavOk(places, Location(log[..i]), log[i]) {
        assert NavOk(places, Location(all[..i]), all[i]);
      }
    }
  }

  lemma {:induction false} SubmitExtend(log: seq<Event>, e: Event)
    ensures SubmitOnlyLast(log + [e]) <==> SubmitOnlyLast(log) && (log != [] ==> !Last(log).kind.Submit?)
    ensures TreeShownOnlyFirst(log + [e]) <==> TreeShownOnlyFirst(log) && (e.kind.TreeShown? ==> e.seqNo == 1)
  {
    var all := log + [e];
    assert all[|log|] == e;
    assert forall i :: 0 <= i < |log| ==> all[i] == log[i];
  }

  lemma {:induction false} BlocksPrefix(log: seq<Event>, e: Event)
    requires OneBlockPerEpoch(log + [e])
    ensures OneBlockPerEpoch(log)
  {
    var all := log + [e];
    forall i, j, k | 0 <= i < j < k < |log| && log[i].epoch == log[k].epoch ensures log[j].epoch == log[i].epoch {
      assert all[i] == log[i] && all[j] == log[j] && all[k] == log[k];
    }
  }

  lemma {:induction false} ValidExtend(places: Places, log: seq<Event>, e: Event)
    ensures ValidLog(places, log + [e]) <==> ValidLog(places, log) && MayFollow(places, log, e)
  {
    ClocksExtend(log, e);
    NavigatesExtend(places, log, e);
    SubmitExtend(log, e);
    if OneBlockPerEpoch(log + [e]) {
      BlocksPrefix(log, e);
    }
  }

  lemma {:induction false} EpochDecides(log: seq<Event>, st: ScanState, e: Event)
    requires OneBlockPerEpoch(log) && ScanMeans(log, st)
    ensures EpochProblem(st, e) == None <==>
            && OneBlockPerEpoch(log + [e])
            && if log == [] || Last(log).epoch != e.epoch
               then e.visible.Some? && (log != [] ==> e.kind.Resume?)
               else Last(log).elapsed <= e.elapsed
  {
    BlocksExtend(log, e, st.seen);
    if log != [] {
      assert log[|log| - 1].epoch in st.seen;
    }
  }

  lemma {:induction false} StepMeans(log: seq<Event>, st: ScanState, e: Event)
    requires ScanMeans(log, st)
    ensures ScanMeans(log + [e],
                      ScanState(Some(e.epoch), e.elapsed, st.seen + {e.epoch}, Moved(st.current, e), e.kind.Submit?))
  {
    EpochsExtend(log, e, st.seen);
    assert (log + [e])[..|log|] == log;
  }

  lemma {:induction false} StepDecides(places: Places, log: seq<Event>, st: ScanState, e: Event)
    requires Sound(places) && NamesKnownNode(places, e)
    requires Location(log) == "" || Location(log) in places
    requires OneBlockPerEpoch(log) && ScanMeans(log, st)
    ensures ScanStep(places, st, e).Ok? <==> MayFollow(places, log, e)
    ensures ScanStep(places, st, e).Ok? ==> ScanMeans(log + [e], ScanStep(places, st, e).value)
  {
    NavAgrees(places, st.current, e);
    EpochDecides(log, st, e);
    StepMeans(log, st, e);
  }

  /** The server's second loop accepts a log exactly when it is valid, and its
      variables then hold the last clock reading, the epochs met and the location. */
  lemma {:induction false} ScanDecides(places: Places, log: seq<Event>)
    requires Sound(places) && Shaped(places, log)
    ensures Scan(places, log).Ok? <==> ValidLog(places, log)
    ensures Scan(places, log).Ok? ==> ScanMeans(log, Scan(places, log).value)
  {
    if log != [] {
      var init, e := log[..|log| - 1], Last(log);
      assert log == init + [e];
      ScanDecides(places, init);
      ValidExtend(places, init, e);
      if ValidLog(places, init) {
        LocationKnown(places, init);
        assert WellShaped(places, log[|log| - 1]);
        ShapedNamesKnownNode(places, e);
        StepDecides(places, init, Scan(places, init).value, e);
      }
    }
  }

  lemma {:induction false} EpochsExtend(log: seq<Event>, e: Event, seen: set<Epoch>)
    requires Epochs(log, seen)
    ensures Epochs(log + [e], seen + {e.epoch})
  {
    var all := log + [e];
    assert all[|log|].epoch == e.epoch;
    forall epoch | epoch in seen + {e.epoch} ensures exists i :: 0 <= i < |all| && all[i].epoch == epoch {
      if epoch != e.epoch {
        var i :| 0 <= i < |log| && log[i].epoch == epoch;
        assert all[i].epoch == epoch;
      }
    }
  }

  /** Any beginning of a valid log is valid: what a shorter batch commits is legal. */
  lemma {:induction false} ValidPrefix(places: Places, log: seq<Event>, k: nat)
    requires k <= |log| && ValidLog(places, log)
    ensures ValidLog(places, log[..k])
    decreases |log|
  {
    if k == |log| {
      assert log[..k] == log;
    } else {
      assert log == log[..|log| - 1] + [Last(log)];
      ValidExtend(places, log[..|log| - 1], Last(log));
      assert log[..|log| - 1][..k] == log[..k];
      ValidPrefix(places, log[..|log| - 1], k);
    }
  }

  /** Once another page's epoch has written, the earlier page can never write again,
      however the log has grown in between. */
  lemma {:induction false} OlderTabIsShutOut(places: Places, log: seq<Event>, i: nat, j: nat, more: seq<Event>)
    requires i < j < |log| && log[i].epoch != log[j].epoch
    requires ValidLog(places, log + more)
    ensures forall e :: e in more ==> e.epoch != log[i].epoch
  {
    var all := log + more;
    forall e | e in more ensures e.epoch != log[i].epoch {
      var k :| 0 <= k < |more| && more[k] == e;
      assert all[i] == log[i] && all[j] == log[j] && all[|log| + k] == e;
    }
  }
}
