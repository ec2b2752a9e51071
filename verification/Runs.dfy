/** A run: enrolment with balanced allocation, the sessions' requests, opening, pausing,
    closing and suspending, and the two phases of a purge. */
module Runs {
  import opened Common
  import opened Trees
  import opened Events
  import opened Append
  import opened EventStore
  import opened Sessions
  import opened SessionRuns
  import opened Studies
  import opened Allocation

  const DAY: int := 24 * 60 * 60 * 1000
  const MAX_RETENTION_DAYS: nat := 3650

  datatype Status = Open | Paused | Closed

  datatype Run = Run(status: Status, suspended: bool, cap: nat, byInvitation: bool, retentionDays: int,
                     closedAt: Option<int>, retentionTarget: Option<int>, purgedAt: Option<int>, purgePending: bool,
                     allocation: seq<Pair>, eventBytes: int, dataBytes: int, sessions: seq<Session>)

  /** What a join brings and what is drawn for it: a block of allocations should one be
      needed, an order of the panel's tasks, and opaque IDs. None is a failing source. */
  datatype Joining = Joining(identity: Id, sessionId: Id, block: Option<seq<Pair>>, order: Option<seq<Id>>,
                             nodes: map<Id, Id>, publicTasks: map<Id, Id>,
                             storage: nat, invited: bool)

  datatype Wish = NoStatus | OpenIt | PauseIt | CloseIt | SuspendIt | UnlistedStatus(text: string)

  // ------------------------------------------------------------------ operations

  /** Row of the session with an identity; the number of rows when there is none. */
  function SessionOf(sessions: seq<Session>, identity: Id): (k: nat)
    ensures k <= |sessions|
    ensures k < |sessions| ==> sessions[k].identity == identity
    ensures k == |sessions| ==> forall i :: 0 <= i < |sessions| ==> sessions[i].identity != identity
  {
    if sessions == [] then 0 else if sessions[0].identity == identity then 0 else 1 + SessionOf(sessions[1..], identity)
  }

  /** What is left to allocate, with a new block when nothing is. */
  function Stock(run: Run, j: Joining): seq<Pair>
  {
    if run.allocation == [] && j.block.Some? then j.block.value else run.allocation
  }

  function NewSession(j: Joining, choice: Pair): Session
  {
    Session(j.sessionId, j.identity, choice.variant, choice.panel, if j.order.Some? then j.order.value
            else [], j.publicTasks, j.nodes, 0, j.storage, 0, None, [], [])
  }

  function JoinProblem(run: Run, j: Joining): Option<Problem>
  {
    if run.status != Open then Some(EnrollmentClosed)
    else if |run.sessions| >= run.cap then Some(EnrollmentFull)
    else if run.allocation == [] && j.block.None? then Some(RandomSourceFailed)
    else if j.order.None? then Some(RandomSourceFailed)
    else if j.storage > MAX_SESSION_BYTES then Some(SessionBytesLimit)
    else if run.dataBytes + j.storage > MAX_RUN_BYTES then Some(RunBytesLimit)
    else if run.byInvitation && !j.invited then Some(InvitationRequired)
    else None
  }

  function JoinRun(run: Run, j: Joining): Result<Run>
  {
    if run.suspended then Err(WritesSuspended)
    else if SessionOf(run.sessions, j.identity) < |run.sessions| then Ok(run)
    else if JoinProblem(run, j).Some? then Err(JoinProblem(run, j).value)
    else if Stock(run, j) == [] then Err(RandomSourceFailed)
    else
      var stock := Stock(run, j);
      Ok(run.(sessions := run.sessions + [NewSession(j, stock[0])], allocation := stock[1..],
              dataBytes := run.dataBytes + j.storage))
  }

  /** The byte budget that a request sees is the run's at that moment. */
  function WithRunBytes(step: Step, bytes: nat): Step
  {
    match step
    case Start(_, _, _, _) => step
    case Send(attemptId, events, _) => Send(attemptId, events, bytes)
    case Finish(commandId, attemptId, outcome, nodeId, events, now, _) =>
        Finish(commandId, attemptId, outcome, nodeId, events, now, bytes)
  }

  /** A start, events or finish request of one participant. */
  function ActIn(frozen: Frozen, run: Run, identity: Id, step: Step): (Run, Answer)
  {
    var k := SessionOf(run.sessions, identity);
    if k == |run.sessions| then (run, Answer.Refused(NotEnrolled))
    else if run.suspended then (run, Answer.Refused(WritesSuspended))
    else
      var s := run.sessions[k];
      var (t, answer) := Apply(frozen, s, WithRunBytes(step, if run.dataBytes >= 0 then run.dataBytes else 0));
      var added := t.eventBytes - s.eventBytes;
      (run.(sessions := run.sessions[k := t], eventBytes := run.eventBytes + added,
            dataBytes := run.dataBytes + added), answer)
  }

  function UpdateProblem(run: Run, wish: Wish, days: int): Option<Problem>
  {
    if wish.NoStatus? && days == 0 then Some(NothingToUpdate)
    else if wish.UnlistedStatus? then Some(InvalidStatus)
    else if days != 0 && (days < 1 || days > MAX_RETENTION_DAYS) then Some(InvalidRetention)
    else if run.purgedAt.Some? && wish.OpenIt? then Some(PurgedRunCannotReopen)
    else if run.purgePending && !wish.NoStatus? && !wish.CloseIt? && !wish.SuspendIt?
        then Some(PendingPurgeMustStayClosed)
    else None
  }

  function NewStatus(run: Run, wish: Wish): (Status, bool)
  {
    match wish
    case OpenIt => (Open, false)
    case PauseIt => (Paused, false)
    case CloseIt => (Closed, false)
    case SuspendIt => (run.status, true)
    case _ => (run.status, run.suspended)
  }

  function UpdateRun(run: Run, wish: Wish, days: int, now: int): Result<Run>
  {
    if UpdateProblem(run, wish, days).Some? then Err(UpdateProblem(run, wish, days).value)
    else
      var retention := if days != 0 then days else run.retentionDays;
      var (status, suspended) := NewStatus(run, wish);
      if status != Closed then
        Ok(run.(status := status, suspended := suspended, retentionDays := retention,
                closedAt := None, retentionTarget := None))
      else
        var reopened := run.status != Closed || run.closedAt.None?;
        var closedAt := if reopened then now else run.closedAt.value;
        var target :=
          if days != 0 || reopened || run.retentionTarget.None? then Some(closedAt + retention * DAY)
          else run.retentionTarget;
        Ok(run.(status := status, suspended := suspended, retentionDays := retention,
                closedAt := Some(closedAt), retentionTarget := target))
  }

  /** First phase: participant rows are deleted and the run waits for cleanup. */
  function PurgeRows(run: Run): Result<Run>
  {
    if run.status != Closed then Err(RunNotClosed)
    else Ok(run.(sessions := [], eventBytes := 0, dataBytes := 0, purgedAt := None, purgePending := true))
  }

  /** Second phase, after the cleanup of the files. */
  function PurgeDone(run: Run, now: int): Run
  {
    run.(purgedAt := Some(now), purgePending := false)
  }

  // -------------------------------------------------------------- the run's row

  /** The stored run; every method is one transaction. */
  class RunStore {
    var status: Status
    var suspended: bool
    const cap: nat
    const byInvitation: bool
    var retentionDays: int
    var closedAt: Option<int>
    var retentionTarget: Option<int>
    var purgedAt: Option<int>
    var purgePending: bool
    var allocation: seq<Pair>
    var eventBytes: int
    var dataBytes: int
    var sessions: seq<Session>

    constructor (cap: nat, byInvitation: bool, retentionDays: int)
      ensures State() == Run(Paused, false, cap, byInvitation, retentionDays, None, None, None, false, [], 0, 0, [])
    {
      status, suspended, this.cap, this.byInvitation, this.retentionDays :=
          Paused, false, cap, byInvitation, retentionDays;
      closedAt, retentionTarget, purgedAt, purgePending := None, None, None, false;
      allocation, eventBytes, dataBytes, sessions := [], 0, 0, [];
    }

    function State(): Run
      reads this
    {
      Run(status, suspended, cap, byInvitation, retentionDays, closedAt, retentionTarget, purgedAt, purgePending,
          allocation, eventBytes, dataBytes, sessions)
    }

    method Join(j: Joining) returns (problem: Option<Problem>)
      requires j.block.Some? ==> j.block.value != []
      modifies this
      ensures problem.None? ==> JoinRun(old(State()), j) == Ok(State())
      ensures problem.Some? ==> JoinRun(old(State()), j) == Err(problem.value) && State() == old(State())
    {
      if suspended { return Some(WritesSuspended); }
      if SessionOf(sessions, j.identity) < |sessions| { return None; }
      if status != Open { return Some(EnrollmentClosed); }
      if |sessions| >= cap { return Some(EnrollmentFull); }
      var stock := allocation;
      if stock == [] {
        if j.block.None? { return Some(RandomSourceFailed); }
        stock := j.block.value;
      }
      var choice := stock[0];
      if j.order.None? { return Some(RandomSourceFailed); }
      var session := NewSession(j, choice);
      if session.storageBytes > MAX_SESSION_BYTES { return Some(SessionBytesLimit); }
      if dataBytes + session.storageBytes > MAX_RUN_BYTES { return Some(RunBytesLimit); }
      if byInvitation && !j.invited { return Some(InvitationRequired); }
      sessions := sessions + [session];
      allocation := stock[1..];
      dataBytes := dataBytes + session.storageBytes;
      return None;
    }

    method Update(wish: Wish, days: int, now: int) returns (problem: Option<Problem>)
      modifies this
      ensures problem.None? ==> UpdateRun(old(State()), wish, days, now) == Ok(State())
      ensures problem.Some? ==>
                UpdateRun(old(State()), wish, days, now) == Err(problem.value) && State() == old(State())
    {
      if wish.NoStatus? && days == 0 { return Some(NothingToUpdate); }
      if wish.UnlistedStatus? { return Some(InvalidStatus); }
      if days != 0 && (days < 1 || days > MAX_RETENTION_DAYS) { return Some(InvalidRetention); }
      if purgedAt.Some? && wish.OpenIt? { return Some(PurgedRunCannotReopen); }
      if purgePending && !wish.NoStatus? && !wish.CloseIt?
          && !wish.SuspendIt? { return Some(PendingPurgeMustStayClosed); }
      if days != 0 { retentionDays := days; }
      var was := status;
      if wish.SuspendIt? {
        suspended := true;
      } else if !wish.NoStatus? {
        status := if wish.OpenIt? then Open else if wish.PauseIt? then Paused else Closed;
        suspended := false;
      }
      if status != Closed {
        closedAt, retentionTarget := None, None;
      } else {
        if was != Closed || closedAt.None? {
          closedAt := Some(now);
          retentionTarget := None;
        }
        if days != 0 || retentionTarget.None? {
          retentionTarget := Some(closedAt.value + retentionDays * DAY);
        }
      }
      return None;
    }

    /** Deletes the participant rows; the caller cleans up and then calls MarkPurged. */
    method DeleteRows() returns (problem: Option<Problem>)
      modifies this
      ensures problem.None? ==> PurgeRows(old(State())) == Ok(State())
      ensures problem.Some? ==> PurgeRows(old(State())) == Err(problem.value) && State() == old(State())
    {
      if status != Closed { return Some(RunNotClosed); }
      sessions := [];
      eventBytes, dataBytes := 0, 0;
      purgedAt, purgePending := None, true;
      return None;
    }

    method MarkPurged(now: int)
      modifies this
      ensures State() == PurgeDone(old(State()), now)
    {
      purgedAt, purgePending := Some(now), false;
    }
  }
}
