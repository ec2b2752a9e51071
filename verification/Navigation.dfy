/** Where a participant is and what they have selected: the browser's replay of a
    log, the server's own bookkeeping, and the meaning of a direct success. */
module Navigation {
  import opened Common
  import opened Trees
  import opened Events
  import opened Metrics

  /** The selection that finish demands: the last select, unless navigation moved. */
  function LiveSelection(log: seq<Event>): Id
  {
    if log == [] then ""
    else
      var e := Last(log);
      match e.kind
      case Select => e.nodeId
      case Enter => ""
      case Back => ""
      case Root => ""
      case _ => LiveSelection(log[..|log| - 1])
  }

  /** The loop in finish that looks for it. */
  method FindSelection(log: seq<Event>) returns (last: Id)
    ensures last == LiveSelection(log)
  {
    last := "";
    for i := 0 to |log|
      invariant last == LiveSelection(log[..i])
    {
      assert log[..i + 1][..i] == log[..i] && Last(log[..i + 1]) == log[i];
      if log[i].kind.Select? { last := log[i].nodeId; }
      if log[i].kind.Enter? || log[i].kind.Back? || log[i].kind.Root? { last := ""; }
    }
    assert log[..|log|] == log;
  }

  /** Stable insertion by sequence number: the order Array.sort gives. */
  function InsertBySeq(sorted: seq<Event>, e: Event): seq<Event>
  {
    if sorted == [] || Last(sorted).seqNo <= e.seqNo then sorted + [e]
    else InsertBySeq(sorted[..|sorted| - 1], e) + [Last(sorted)]
  }

  function SortBySeq(events: seq<Event>): seq<Event>
  {
    if events == [] then [] else InsertBySeq(SortBySeq(events[..|events| - 1]), Last(events))
  }

  lemma {:induction false} SortedStays(events: seq<Event>)
    requires forall i :: 0 < i < |events| ==> events[i - 1].seqNo <= events[i].seqNo
    ensures SortBySeq(events) == events
  {
    if events != [] {
      SortedStays(events[..|events| - 1]);
    }
  }

  /** One event of the browser's replay; "" stands for null. */
  function ReplayEvent(places: Places, at: (Id, Id), e: Event): (Id, Id)
  {
    match e.kind
    case TreeShown => ("", "")
    case Root => ("", "")
    case Enter => (if e.nodeId in places then e.nodeId else "", "")
    case Back => (if e.nodeId in places then e.nodeId else "", "")
    case Select => (at.0, if e.nodeId in places && places[e.nodeId].node.selectable then e.nodeId else "")
    case _ => at
  }

  function Replay(places: Places, log: seq<Event>): (Id, Id)
  {
    if log == [] then ("", "") else ReplayEvent(places, Replay(places, log[..|log| - 1]), Last(log))
  }

  /** The browser's replay after a reload: sort, then one pass. */
  method ReplayNavigation(events: seq<Event>, places: Places) returns (currentNodeId: Id, selectedId: Id)
    ensures (currentNodeId, selectedId) == Replay(places, SortBySeq(events))
  {
    currentNodeId, selectedId := "", "";
    var sorted := SortBySeq(events);
    for i := 0 to |sorted|
      invariant (currentNodeId, selectedId) == Replay(places, sorted[..i])
    {
      var e := sorted[i];
      assert sorted[..i + 1][..i] == sorted[..i] && Last(sorted[..i + 1]) == e;
      if e.kind.TreeShown? || e.kind.Root? { currentNodeId, selectedId := "", ""; }
      if e.kind.Enter? || e.kind.Back? {
        currentNodeId := if e.nodeId in places then e.nodeId else "";
        selectedId := "";
      }
      if e.kind.Select? {
        selectedId := if e.nodeId in places && places[e.nodeId].node.selectable then e.nodeId else "";
      }
    }
    assert sorted[..|sorted|] == sorted;
  }

  /** On every log the server accepts, browser and server agree on the current
      location and on the selection that finish will demand. */
  lemma {:induction false} ReplayAgrees(places: Places, log: seq<Event>)
    requires "" !in places && Shaped(places, log) && Sequenced(log) && TreeShownOnlyFirst(log)
    ensures Replay(places, SortBySeq(log)) == (Location(log), LiveSelection(log))
  {
    SortedStays(log);
    ReplayPrefix(places, log);
  }

  lemma {:induction false} ReplayPrefix(places: Places, log: seq<Event>)
    requires "" !in places && Shaped(places, log) && Sequenced(log) && TreeShownOnlyFirst(log)
    ensures Replay(places, log) == (Location(log), LiveSelection(log))
  {
    if log != [] {
      var init, e := log[..|log| - 1], Last(log);
      ShapedPrefix(places, log, |log| - 1);
      ReplayPrefix(places, init);
      assert WellShaped(places, log[|log| - 1]);
      ShapedNamesKnownNode(places, e);
      assert e.kind.TreeShown? ==> log[|log| - 1].seqNo == 1 && init == [];
    }
  }

  lemma {:induction false} ShapedPrefix(places: Places, log: seq<Event>, k: nat)
    requires k <= |log| && Shaped(places, log)
    ensures Shaped(places, log[..k])
  {
    forall i | 0 <= i < k ensures WellShaped(places, log[..k][i]) { assert WellShaped(places, log[i]); }
  }

  // ------------------------------------------------------------- direct success

  /** The nodes entered, in order. */
  function Enters(log: seq<Event>): seq<Id>
  {
    if log == [] then []
    else Enters(log[..|log| - 1]) + if Last(log).kind.Enter? then [Last(log).nodeId] else []
  }

  ghost predicate NoBacktrack(log: seq<Event>)
  {
    forall i :: 0 <= i < |log| ==> !log[i].kind.Back? && !log[i].kind.Root?
  }

  ghost predicate SelectsOnly(log: seq<Event>, node: Id)
  {
    forall i :: 0 <= i < |log| && log[i].kind.Select? ==> log[i].nodeId == node
  }

  /** Without backtracking, the nodes entered spell the path to the location. */
  lemma {:induction false} EntersSpellPath(places: Places, log: seq<Event>)
    requires Sound(places) && Navigates(places, log) && NoBacktrack(log)
    ensures Enters(log) == Path(places, Location(log))
  {
    if log != [] {
      var init := log[..|log| - 1];
      assert log == init + [Last(log)];
      NavigatesExtend(places, init, Last(log));
      EntersSpellPath(places, init);
    }
  }

  /** A live selection is the open page or one item below it. */
  lemma {:induction false} SelectionIsVisible(places: Places, log: seq<Event>)
    requires Sound(places) && Navigates(places, log) && LiveSelection(log) != ""
    ensures var n, at := LiveSelection(log), Location(log); n == at || Path(places, n) == Path(places, at) + [n]
  {
    var init := log[..|log| - 1];
    assert log == init + [Last(log)];
    NavigatesExtend(places, init, Last(log));
    if !Last(log).kind.Select? {
      SelectionIsVisible(places, init);
    }
  }

  /** For an accepted selected finish, the ancestor test on entered nodes is implied:
      directness is the absence of back, root and other selections, and a direct
      attempt entered exactly the way to the chosen page, or that and the page. */
  lemma {:induction false} DirectMeans(places: Places, log: seq<Event>, chosen: Id)
    requires Sound(places) && Navigates(places, log)
    requires chosen in places && LiveSelection(log) == chosen
    ensures Direct(places, chosen, log) <==> NoBacktrack(log) && SelectsOnly(log, chosen)
    ensures Direct(places, chosen, log) ==> Enters(log) == places[chosen].parents || Enters(log) == Path(places, chosen)
  {
    if Direct(places, chosen, log) {
      forall i | 0 <= i < |log|
          ensures !log[i].kind.Back? && !log[i].kind.Root? && (log[i].kind.Select? ==> log[i].nodeId == chosen) {
        assert OnTheWay(places, chosen, log[i]);
      }
    }
    if NoBacktrack(log) {
      EntersSpellPath(places, log);
      SelectionIsVisible(places, log);
      var at := Location(log);
      if chosen != at {
        assert Path(places, chosen)[..|Path(places, chosen)| - 1] == places[chosen].parents;
      }
      forall i | 0 <= i < |log| && log[i].kind.Enter? ensures log[i].nodeId in Path(places, chosen) {
        EnteredIsListed(log, i);
      }
    }
  }

  lemma {:induction false} EnteredIsListed(log: seq<Event>, i: nat)
    requires i < |log| && log[i].kind.Enter?
    ensures log[i].nodeId in Enters(log)
  {
    if i < |log| - 1 {
      EnteredIsListed(log[..|log| - 1], i);
    }
  }
}
