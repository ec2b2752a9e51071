/** A participant who joins a run of an accepted study begins as the network's runs do,
    so their guarantees hold from the join on. */
module NetworkEnrolment {
  import opened Common
  import opened Trees
  import opened Events
  import opened Append
  import opened Outbox
  import opened Sessions
  import opened SessionRuns
  import opened Studies
  import opened Solvable
  import opened Runs
  import opened RunSafety
  import opened RunStories
  import opened Client
  import opened Network
  import opened NetworkSafety
  import opened NetworkRuns
  import opened NetworkMemory

  /** A join that enrols a participant in a run of the study. */
  ghost predicate JoinsStudy(b: Bundle, frozen: Frozen, story: Story, j: Joining)
  {
    && ValidStudy(b) && Publishes(b, frozen) && StoryOk(frozen, b.config, story)
    && JoiningOk(frozen, b.config, story.run, j) && Enrols(story.run, j)
  }

  /** The session that the join adds to the run. */
  ghost function JoinedSession(run: Run, j: Joining): Session
    requires Enrols(run, j)
  {
    NewSession(j, Stock(run, j)[0])
  }

  /** The participant's page and the new session, with nothing sent yet. */
  function FirstWorld(tab: Tab, s: Session): World
  {
    World(tab, Idle, s, [], {}, map[])
  }

  /** What acceptSession makes of the reply to the join. */
  lemma {:induction false} JoinReplyAccepted(frozen: Frozen, s: Session, epoch: Epoch, stamp: Stamp)
    requires s.attempts == []
    ensures AcceptSession(Landing(epoch), MakeSession(frozen, s), true, false, stamp) == Some(Joined(frozen, s, epoch))
  {}

  lemma {:induction false} KnownIsFound(b: Bundle, frozen: Frozen, task: Id)
    requires ValidStudy(b) && Publishes(b, frozen) && Studies.Known(b.config.tasks, task)
    ensures FindTask(frozen, task).id == task
  {
    var i :| 0 <= i < |b.config.tasks| && b.config.tasks[i].id == task;
    TasksDiffer(b);
    FirstTaskIs(b.config.tasks, i);
  }

  /** Another order of a list without duplicates has none either. */
  lemma {:induction false} OrderKeeps(order: seq<Id>, panel: seq<Id>)
    requires multiset(order) == multiset(panel) && NoDuplicates(panel)
    ensures NoDuplicates(order) && forall t :: t in order ==> t in panel
  {
    forall t | t in order ensures t in panel { assert t in multiset(order); }
    forall i, j | 0 <= i < j < |order| ensures order[i] != order[j] {
      if order[i] == order[j] {
        TwiceCounts(order, i, j);
        assert order[i] in multiset(panel);
        OnceCounts(panel, order[i]);
      }
    }
  }

  lemma {:induction false} TwiceCounts(s: seq<Id>, i: nat, j: nat)
    requires i < j < |s| && s[i] == s[j]
    ensures multiset(s)[s[i]] >= 2
  {
    assert s == s[..i] + [s[i]] + s[i + 1..j] + [s[j]] + s[j + 1..];
  }

  lemma {:induction false} OnceCounts(s: seq<Id>, t: Id)
    requires NoDuplicates(s)
    ensures multiset(s)[t] <= 1
  {
    if s != [] {
      OnceCounts(s[1..], t);
      assert s == [s[0]] + s[1..];
      if t == s[0] { assert t !in multiset(s[1..]); }
    }
  }

  lemma {:induction false} JoinedStudies(b: Bundle, frozen: Frozen, story: Story, j: Joining)
    requires JoinsStudy(b, frozen, story, j)
    ensures Study(frozen, JoinedSession(story.run, j)) && Enrolled(frozen, JoinedSession(story.run, j))
  {
    var c, s := b.config, JoinedSession(story.run, j);
    StudyIsDesign(b);
    NewSessionFits(frozen, c, story, j);
    assert PanelOk(c, c.panels[s.panel]);
    OrderKeeps(s.tasks, c.panels[s.panel]);
    forall i | 0 <= i < |s.tasks|
        ensures FindTask(frozen, s.tasks[i]).id == s.tasks[i] && Opaque(s.publicTasks, s.tasks[i]) != "" {
      assert s.tasks[i] in s.tasks;
      KnownIsFound(b, frozen, s.tasks[i]);
    }
    forall i, k | 0 <= i < k < |s.tasks|
        ensures Opaque(s.publicTasks, s.tasks[i]) != Opaque(s.publicTasks, s.tasks[k]) {
      assert s.tasks[i] in s.tasks && s.tasks[k] in s.tasks;
    }
  }

  /** Whether or not the reply to the join arrives, what follows is a run of the network. */
  lemma {:induction false} JoinedBegins(b: Bundle, frozen: Frozen, story: Story, j: Joining, tab: Tab, epoch: Epoch)
    requires JoinsStudy(b, frozen, story, j) && ValidEpoch(epoch)
    requires tab == Landing(epoch) || tab == Joined(frozen, JoinedSession(story.run, j), epoch)
    ensures var w := FirstWorld(tab, JoinedSession(story.run, j));
            Begins(frozen, w) && Study(frozen, w.server)
    ensures JoinRun(story.run, j).Ok? && Last(JoinRun(story.run, j).value.sessions) == JoinedSession(story.run, j)
  {
    JoinedStudies(b, frozen, story, j);
  }

  /** From the join on, whatever the network does: every event that the participant's
      browser records is on the server or waits in its outbox. */
  lemma {:induction false} NothingIsLostAfterJoining(b: Bundle, frozen: Frozen, story: Story, j: Joining, tab: Tab,
                                                     epoch: Epoch, moves: seq<Move>, a: Id)
    requires JoinsStudy(b, frozen, story, j) && ValidEpoch(epoch)
    requires tab == Landing(epoch) || tab == Joined(frozen, JoinedSession(story.run, j), epoch)
    requires Happens(frozen, FirstWorld(tab, JoinedSession(story.run, j)), moves)
    ensures var w := FirstWorld(tab, JoinedSession(story.run, j));
            var u, recorded := WorldAfter(frozen, w, moves), Recordings(frozen, w, moves, a);
            && !u.tab.page.conflict
            && (forall i :: 0 <= i < |u.server.attempts| && u.server.attempts[i].id == a ==>
                u.server.attempts[i].log <= recorded)
            && (forall e :: e in recorded ==> Recovered(u, a, e))
  {
    var w := FirstWorld(tab, JoinedSession(story.run, j));
    JoinedBegins(b, frozen, story, j, tab, epoch);
    NothingIsLost(frozen, w, moves);
    EveryRecordingSurvives(frozen, w, moves, a);
  }
}
