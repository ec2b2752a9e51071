/** One participant in one tab, the server, and a network between them that loses,
    delays and repeats requests and loses replies, with reloads at any point. */
module Network {
  import opened Common
  import opened Trees
  import opened Events
  import opened Append
  import opened Navigation
  import opened Outbox
  import opened Sessions
  import opened SessionRuns
  import opened Client

  datatype Message =
    | GetSession
    | PostStart(commandId: Id, taskId: Id)
    | PostEvents(attemptId: Id, events: seq<Event>)
    | PostFinish(command: FinishCommand)

  datatype Reply = SessionReply(view: PublicSession) | EventsReply(nextSeq: int)

  /** The one request whose reply the page is waiting for. */
  datatype Waiting =
    | Idle
    | ForSession(n: nat)
    | ForStart(n: nat)
    | ForCheckpoint(n: nat, attemptId: Id, batch: seq<Event>)
    | ForFinish(n: nat)

  /** Every request ever sent may still reach the server, any number of times; a reply
      belongs to its request. `histories` remembers, per attempt, every event that ever
      entered the outbox; nothing in the system reads it. */
  datatype World = World(tab: Tab, waiting: Waiting, server: Session, requests: seq<Message>,
                         replies: set<(nat, Reply)>, histories: map<Id, seq<Event>>)

  datatype Move =
    | Reload(epoch: Epoch)
    | Act(kind: Kind, nodeId: Id, stamp: Stamp)
    | BeginStart(commandId: Id, skip: bool, stamp: Stamp)
    | PressStart
    | SendBatch
    | Confirm(commandId: Id, outcome: Outcome, stamp: Stamp)
    | PressFinish
    | Serve(n: nat, now: int, runBytes: nat, attemptId: Id)
    | Deliver(reply: Reply, stamp: Stamp)
    | Fail(block: bool)

  function Hist(histories: map<Id, seq<Event>>, id: Id): seq<Event>
  {
    if id in histories then histories[id] else []
  }

  /** An event whose number is new for its attempt is remembered. */
  function Remembered(histories: map<Id, seq<Event>>, saved: Saved): map<Id, seq<Event>>
  {
    var h := Hist(histories, saved.attemptId);
    if saved.attemptId != "" && saved.events != [] && Last(saved.events).seqNo == |h| + 1
    then histories[saved.attemptId := h + [Last(saved.events)]] else histories
  }

  // ------------------------------------------------------------ what can happen

  ghost predicate IdNeverUsed(histories: map<Id, seq<Event>>, id: Id)
  {
    forall a :: a in histories ==> !IdUsed(histories[a], id)
  }

  ghost predicate EpochNeverUsed(histories: map<Id, seq<Event>>, epoch: Epoch)
  {
    forall a, i :: a in histories && 0 <= i < |histories[a]| ==> histories[a][i].epoch != epoch
  }

  ghost predicate ProperStamp(stamp: Stamp)
  {
    && 0 < |stamp.id| <= 128 && Trimmed(stamp.id)
    && 0 <= stamp.elapsed <= MAX_ELAPSED && ValidEpoch(stamp.epoch)
  }

  /** A stamp taken by this page now: fresh identity, this page's clock, not going back. */
  ghost predicate StampedHere(w: World, stamp: Stamp)
  {
    && ProperStamp(stamp) && stamp.epoch == w.tab.page.epoch && w.tab.page.lastElapsed <= stamp.elapsed
    && IdNeverUsed(w.histories, stamp.id)
  }

  ghost predicate FreshCommand(w: World, commandId: Id)
  {
    ValidCommandId(commandId) && forall r :: r in w.server.receipts ==> r.commandId != commandId
  }

  /** What the interface offers: only moves along the tree from where the page is. */
  ghost predicate Offered(places: Places, page: Page, kind: Kind, nodeId: Id, stamp: Stamp)
  {
    var e := MakeEvent(0, kind, nodeId, NoOutcome, stamp);
    && (kind.Enter? || kind.Back? || kind.Root? || kind.Select? || kind.Hidden? || kind.Visible?)
    && NavOk(places, page.current, e) && NamesKnownNode(places, e)
    && (kind.Hidden? ==> !stamp.visible) && (kind.Visible? ==> stamp.visible)
  }

  /** The request that message n makes of the session. */
  function StepFor(message: Message, now: int, runBytes: nat, attemptId: Id): Step
    requires !message.GetSession?
  {
    match message
    case PostStart(commandId, taskId) => Start(commandId, taskId, now, attemptId)
    case PostEvents(a, events) => Send(a, events, runBytes)
    case PostFinish(c) => Finish(c.commandId, c.attemptId, c.outcome, c.nodeId, c.events, now, runBytes)
  }

  ghost predicate Possible(w: World, m: Move)
  {
    var saved, page := w.tab.saved, w.tab.page;
    match m
    case Reload(epoch) => ValidEpoch(epoch) && EpochNeverUsed(w.histories, epoch)
    case Act(kind, nodeId, stamp) =>
      && page.active && !page.blocked && saved.finishCommand.None? && page.view.Some?
      && StampedHere(w, stamp) && Offered(PlacesOf(page.view.value), page, kind, nodeId, stamp)
    case BeginStart(commandId, _, stamp) =>
      && !page.blocked
      && w.waiting.Idle?
      && page.view.Some?
      && page.view.value.attempt.None?
      && page.view.value.task.Some?
      && saved.startCommand.None? && saved.finishCommand.None?
      && StampedHere(w, stamp) && FreshCommand(w, commandId)
    case PressStart =>
        !page.blocked && w.waiting.Idle? && page.view.Some? && saved.startCommand.Some? && saved.finishCommand.None?
    case SendBatch =>
      && !page.blocked && w.waiting.Idle? && page.view.Some? && saved.attemptId != "" && Batch(saved.events) != []
      && (if saved.finishCommand.Some? then PrefixLeft(saved) else page.active)
    case Confirm(commandId, outcome, stamp) =>
      && !page.blocked && (w.waiting.Idle? || w.waiting.ForCheckpoint?) && saved.finishCommand.None?
      && saved.attemptId != ""
      && page.view.Some?
      && page.view.value.attempt.Some?
      && page.view.value.attempt.value.id == saved.attemptId
      && (outcome.Selected? || outcome.GaveUp? || outcome.Skipped?) && FreshCommand(w, commandId)
      && (if page.active
          then StampedHere(w, stamp) && (outcome.Selected? ==> page.selected != "")
          else
            && saved.startCommand.Some?
            && saved.startCommand.value.skip
            && outcome.Skipped?
            && stamp == saved.startCommand.value.submission)
    case PressFinish =>
        !page.blocked && w.waiting.Idle? && page.view.Some? && saved.finishCommand.Some? && !PrefixLeft(saved)
    case Serve(n, now, runBytes, attemptId) =>
        n < |w.requests|
        && (w.requests[n].GetSession? || Enabled(w.server, StepFor(w.requests[n], now, runBytes, attemptId)))
    case Deliver(reply, stamp) =>
      && !w.waiting.Idle? && (w.waiting.n, reply) in w.replies && (w.waiting.ForCheckpoint? <==> reply.EventsReply?)
      && StampedHere(w, stamp)
    case Fail(_) => !w.waiting.Idle?
  }

  // ------------------------------------------------------------- what it does

  function WithTab(w: World, tab: Tab): World
  {
    w.(tab := tab, histories := Remembered(w.histories, tab.saved))
  }

  function Sent(w: World, message: Message, waiting: Waiting): World
  {
    w.(requests := w.requests + [message], waiting := waiting)
  }

  /** The page after an action of the participant. */
  function Acted(tab: Tab, kind: Kind, nodeId: Id, stamp: Stamp): Tab
  {
    var e := MakeEvent(tab.saved.nextSeq, kind, nodeId, NoOutcome, stamp);
    var recorded := RecordIn(tab, kind, nodeId, stamp);
    recorded.(page := recorded.page.(current := Moved(tab.page.current, e),
                                     selected := match kind
                                                 case Select => nodeId
                                                 case Enter => ""
                                                 case Back => ""
                                                 case Root => ""
                                                 case _ => tab.page.selected))
  }

  /** The page after the reply it waited for. */
  function Received(w: World, reply: Reply, stamp: Stamp): Option<Tab>
    requires !w.waiting.Idle? && (w.waiting.ForCheckpoint? <==> reply.EventsReply?)
  {
    match w.waiting
    case ForSession(_) => Recover(w.tab, reply.view, stamp)
    case ForStart(_) =>
        var skip := w.tab.saved.startCommand.Some? && w.tab.saved.startCommand.value.skip;
        AcceptSession(w.tab, reply.view, true, skip, stamp)
    case ForCheckpoint(_, attemptId, batch) =>
      (var saved := Checkpointed(w.tab.saved, attemptId, batch, reply.nextSeq);
       if saved.None? then None else Some(w.tab.(saved := saved.value)))
    case ForFinish(_) =>
        AcceptSession(w.tab.(saved := Saved(reply.view.id, "", 0, [], None, None)), reply.view, false, false, stamp)
  }

  function Answered(frozen: Frozen, w: World, n: nat, now: int, runBytes: nat, attemptId: Id): World
    requires n < |w.requests|
  {
    if w.requests[n].GetSession? then w.(replies := w.replies + {(n, SessionReply(MakeSession(frozen, w.server)))})
    else
      var (server, answer) := Apply(frozen, w.server, StepFor(w.requests[n], now, runBytes, attemptId));
      w.(server := server,
         replies := match answer
                    case Refused(_) => w.replies
                    case Shown(view) => w.replies + {(n, SessionReply(view))}
                    case Acknowledged(next) => w.replies + {(n, EventsReply(next))})
  }

  ghost function Next(frozen: Frozen, w: World, m: Move): World
    requires Possible(w, m)
  {
    var saved, page, n := w.tab.saved, w.tab.page, |w.requests|;
    match m
    case Reload(epoch) =>
      Sent(w, GetSession, ForSession(n)).(tab := Tab(saved, Page(None, "", "", false, false, page.conflict, epoch, 0)))
    case Act(kind, nodeId, stamp) => WithTab(w, Acted(w.tab, kind, nodeId, stamp))
    case BeginStart(commandId, skip, stamp) =>
      w.(tab := Tab(saved.(startCommand := Some(StartCommand(commandId, page.view.value.task.value.id, skip, stamp))),
                    page.(lastElapsed := stamp.elapsed)))
    case PressStart =>
        Sent(w, PostStart(saved.startCommand.value.commandId, saved.startCommand.value.taskId), ForStart(n))
    case SendBatch =>
        Sent(w, PostEvents(saved.attemptId, Batch(saved.events)),
             ForCheckpoint(n, saved.attemptId, Batch(saved.events)))
    case Confirm(commandId, outcome, stamp) =>
        WithTab(w, ConfirmFinish(w.tab, saved.attemptId, commandId, outcome, page.selected, stamp))
    case PressFinish => Sent(w, PostFinish(saved.finishCommand.value), ForFinish(n))
    case Serve(k, now, runBytes, attemptId) => Answered(frozen, w, k, now, runBytes, attemptId)
    case Deliver(reply, stamp) =>
      (var tab := Received(w, reply, stamp);
       if tab.None? then w.(tab := Conflicted(w.tab), waiting := Idle) else WithTab(w, tab.value).(waiting := Idle))
    case Fail(block) => w.(waiting := Idle, tab := w.tab.(page := page.(blocked := page.blocked || block)))
  }

  /** A page just opened, with nothing saved. */
  function Landing(epoch: Epoch): Tab
  {
    Tab(NOTHING_SAVED, Page(None, "", "", false, false, false, epoch, 0))
  }

  /** The same page once the reply to its join is in. */
  function Joined(frozen: Frozen, s: Session, epoch: Epoch): Tab
  {
    Tab(Saved(s.id, "", 0, [], None, None), Landing(epoch).page.(view := Some(MakeSession(frozen, s))))
  }

  /** A participant has just enrolled, and has had the reply or lost it. */
  ghost predicate Begins(frozen: Frozen, w: World)
  {
    && Enrolled(frozen, w.server) && w.server.index == 0 && w.server.attempts == [] && w.server.receipts == []
    && w.server.eventBytes == 0 && w.server.storageBytes <= MAX_SESSION_BYTES && w.server.completedAt == None
    && ValidEpoch(w.tab.page.epoch)
    && (w.tab == Landing(w.tab.page.epoch) || w.tab == Joined(frozen, w.server, w.tab.page.epoch))
    && w.waiting == Idle && w.requests == [] && w.replies == {} && w.histories == map[]
  }

  ghost predicate Happens(frozen: Frozen, w: World, moves: seq<Move>)
    decreases |moves|
  {
    moves == [] || (Possible(w, moves[0]) && Happens(frozen, Next(frozen, w, moves[0]), moves[1..]))
  }

  ghost function WorldAfter(frozen: Frozen, w: World, moves: seq<Move>): World
    requires Happens(frozen, w, moves)
    decreases |moves|
  {
    if moves == [] then w else WorldAfter(frozen, Next(frozen, w, moves[0]), moves[1..])
  }
}
