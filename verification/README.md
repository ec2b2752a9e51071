# Tree study: a verified model

A tree study shows participants a menu, asks them to find pages in it, and records how
they moved. This project models its parts that have to agree with each other: the log of
events that the server stores for each attempt, the outbox with which a browser survives
lost replies and reloads, the commands that start and finish tasks, enrolment and the life
of a run, the menu language with its parser, preview and printer, the validation of a
study, the rate limiter, and the counts of the report.

The server's handlers, its parser, its limiter, the page and the printer change state step
by step and are classes and methods here, each proved against a function of the state before
it; the properties are proved of those functions. The whole system, one browser tab, the
server and the network between them, is a state machine in `Network`, and its guarantees
hold of every run.

- `Common`, `Trees`: shared types; the menu as the server indexes it and as the page does.
- `Events`, `LogRules`, `Append`, `EventStore`, `Segments`: legal logs, the append, its rows,
  and what it does with stretches of one history.
- `Navigation`, `Metrics`, `Timing`: location, selection, directness and timing of a log.
- `Sessions`, `SessionRuns`, `SessionStore`, `Scoring`, `Commands`, `StoredLogs`: the handlers
  of a participant, any run of them, and their rows; how a finish is scored, when each request
  takes effect, and what holds of every stored log.
- `Outbox`, `Conflicts`, `Client`: the browser's side.
- `Network`, `NetworkSafety`, `NetworkRecording`, `NetworkSending`, `NetworkServing`,
  `NetworkCommands`, `NetworkReceiving`, `NetworkAccepting`, `NetworkRuns`,
  `NetworkAcceptance`, `NetworkMemory`, `NetworkTelling`, `NetworkEnrolment`: both sides and
  the network; the invariants, one module for each kind of move; the theorems.
- `Allocation`, `Runs`, `RunSafety`, `RunStories`, `RunRules`: enrolment, the life of a run,
  its books, and what each step leads to.
- `MenuGrammar`, `Menus`, `MenuLanguage`, `MenuPreview`, `MenuWarnings`, `MenuNesting`,
  `MenuLabels`, `MenuRender`, `MenuRoundTrip`: the menu language.
- `Studies`, `Solvable`, `Limiter`, `ReportRows`, `Reports`.

`dafny verify dfyconfig.toml` checks everything.

## Model

| member | source | states |
|---|---|---|
| `NetworkRuns.NothingIsLost` | `web/assets/participant.js:91-133` | In every run of one tab, the server and a network that loses, delays and repeats requests and loses replies, with reloads anywhere: no `SequenceConflict` is ever raised, every stored log is a beginning of what the browser recorded for that attempt and all of it once the browser has moved on, and every recorded event is stored or still in the outbox |
| `NetworkRuns.RunIsSafe` | `web/assets/participant.js:415-452` | The invariant behind it (logs against histories, outbox as the tail of a history, frozen finish, batches under way, page state, awaited replies) holds in every reachable state |
| `NetworkMemory.MoveRemembers` | `web/assets/participant.js:80-89` | From every safe state a move puts the one event it records in the outbox and no other, that event was not there before, and the history of its attempt grows by exactly that event; every other move leaves the histories alone |
| `NetworkMemory.EveryRecordingSurvives` | `web/assets/participant.js:68-133` | The same guarantee without histories: what the server stores for an attempt is a beginning of the events that the run recorded for it, and each recorded event is stored or in the outbox |
| `NetworkTelling.RecordedTells` | `web/assets/participant.js:68-89` | From every safe state a recorded event has the next number of its history, the identity, reading, clock and visibility of its stamp, and says what was done: the action and its node, the response and the page selected, or that the tree is shown first or again, and where |
| `NetworkEnrolment.JoinedBegins` | `internal/server/participant.go:207-283` | A session made by a join to a run of an accepted study, with its reply received or lost, is a state that the network runs start from |
| `NetworkEnrolment.JoinReplyAccepted` | `web/assets/participant.js:140-187` | acceptSession on the reply to a join yields the page those runs start from |
| `NetworkEnrolment.NothingIsLostAfterJoining` | `web/assets/participant.js:167-187` | From the join on: no conflict, stored logs are beginnings of what was recorded, nothing recorded is lost |
| `NetworkAcceptance.CheckpointIsAccepted` | `internal/server/participant.go:496-539` | A checkpoint that a single-tab client sent is accepted whenever it arrives, however late or often, unless a size limit is in the way: numbers, identities, clocks and navigation never refuse it |
| `NetworkAcceptance.FinishIsAccepted` | `internal/server/participant.go:541-663` | A frozen finish whose attempt is still open is carried out whenever it arrives, unless a size limit is in the way |
| `NetworkReceiving.CheckpointNoConflict` | `web/assets/participant.js:113-120` | The reply to a batch acknowledges exactly that batch: the outbox is pruned to the rest of the history and no conflict arises |
| `NetworkAccepting.ResumeRecovers` | `web/assets/participant.js:140-165` | After a reload, server snapshot and outbox restore the whole history; location and selection are those of the history, and the first event of the new page is its resume or the showing of the tree |
| `NetworkSending.BatchIsSegment` | `web/assets/participant.js:91-111` | A batch is the next stretch of the history past what has left the outbox, at most one batch length |
| `Client.ParticipantPage.Record` | `web/assets/participant.js:80-89` | An event with the next number joins the outbox, unless the page is inactive, blocked or has a frozen finish |
| `Client.ParticipantPage.MoveTo` | `web/assets/participant.js:326-344` | From any location to any other: at most one step back, to the common ancestor, then one enter a level; every recorded move is legal for the server and the page ends at the target with its selection untouched |
| `Client.ParticipantPage.Checkpoint` | `web/assets/participant.js:113-120` | Succeeds exactly when the whole batch and nothing past it is acknowledged; then the live outbox is pruned, else nothing changes |
| `Client.ParticipantPage.SendPrefix` | `web/assets/participant.js:122-133` | The loop before a finish ends for any replies whatever, within one request more than there are events; when it reports ready no event before the frozen command is left, and the command is untouched |
| `Outbox.ReconcileEvents` | `web/assets/core.mjs:19-39` | The two maps, the pass over the outbox, the sort and the check compute the specified reconciliation |
| `Outbox.ReconcileRestores` | `web/assets/core.mjs:19-39` | Two stretches of one history that cover it: no conflict, the outbox keeps exactly what the server lacks, the whole history is restored |
| `Outbox.ReconcileIsSound` | `web/assets/core.mjs:19-39` | Whatever the two sides hold, success means one gap-free history that begins with the server log, repeats no identity and holds every pending event |
| `Outbox.AckStretch` | `web/assets/core.mjs:67-70` | On a stretch of a history an acknowledgment conflicts exactly when it lies past the stretch, and otherwise cuts it at that number |
| `Conflicts.ReconcilesExactlyWhen` | `web/assets/core.mjs:19-39` | There is no conflict exactly when some one history without repetition continues the server log and holds all that is pending, the later events once each; then those stay pending, in order, and that is the history restored |
| `EventStore.AppendEvents` | `internal/server/events.go:110-304` | Either the problem is reported and no row changes, or the rows hold the appended log, its next number and the added bytes at attempt, session and run |
| `EventStore.CollectEvents` | `internal/server/events.go:134-205` | The first loop, against the index the server builds |
| `EventStore.CheckShape` | `internal/server/events.go:159-198` | Field checks of one new event: the first problem in the order of the code, or none |
| `EventStore.CheckNavigation` | `internal/server/events.go:244-283` | The navigation switch, with its climb over parents |
| `EventStore.ValidateLog` | `internal/server/events.go:221-285` | The second loop over the whole log |
| `Append.CollectDecides` | `internal/server/events.go:134-205` | The first loop returns a log exactly when the batch merges into it: resends are equal to what is stored, new events continue the numbering |
| `Append.CommitDecides` | `internal/server/events.go:110-304` | A batch is accepted exactly when a legal log comes of it, and that log with the bytes of its new events is what is stored |
| `Append.CommitKeeps` | `internal/server/events.go:110-304` | Accepted batches keep stored events, store every event sent, leave a valid log, and charge exactly the new bytes to attempt, session and run |
| `Append.CommitSplits` | `internal/server/events.go:110-304` | Accepted in one batch if and only if in two, with the same log, next number and bytes |
| `Append.BatchingIsConfluent` | `internal/server/events.go:110-304` | However a stream is cut into requests, acceptance, log, next number and bytes are those of the stream |
| `Append.ResendChangesNothing` | `internal/server/events.go:144-149` | Sending again anything stored, in any order and number, even after the finish, is accepted and changes nothing |
| `Append.RequestDecides` | `internal/server/events.go:110-133` | A request is accepted exactly when it holds at most 200 events, for a finish ends in the submit announced, and a legal log comes of it |
| `Events.ScanDecides` | `internal/server/events.go:221-285` | The second loop accepts a log exactly when it is valid: epochs in blocks that begin with a resume, clocks that do not go back, submit only last, legal navigation |
| `LogRules.LegalExactlyWhen` | `internal/server/events.go:221-285` | The same event by event, in the fields of the events: the place is where the last move led, and each event is accepted exactly when its kind allows it there, its clock goes on or is new, and no submit is behind it |
| `Events.ValidPrefix` | `internal/server/events.go:221-285` | Every beginning of a valid log is valid |
| `Events.NavAgrees` | `internal/server/events.go:249-282` | The parent comparisons of the server say the same as paths in the tree of the page |
| `Events.OlderTabIsShutOut` | `internal/server/events.go:226-243` | Once the clock of another page has written, the earlier page can never write again |
| `Segments.SegmentAccepted` | `internal/server/events.go:110-304` | A stretch of a storable history that starts within the stored log is accepted if the limits leave room, and stores the history up to its end |
| `Trees.IndexesAreSound` | `internal/server/events.go:58-70` | The index of the server and that of the page describe the same rooted tree |
| `Trees.BothIndexesAgree` | `web/assets/core.mjs:41-51` | Node by node, the parents kept by the one are the last of the paths kept by the other |
| `Trees.AncestorIffPrefix` | `internal/server/events.go:262-273` | A node is among the ancestors met by climbing exactly when its path is a proper prefix |
| `Navigation.ReplayNavigation` | `web/assets/core.mjs:53-65` | The replay after a reload computes the specified location and selection |
| `Navigation.FindSelection` | `internal/server/participant.go:619-627` | The loop in finish finds the live selection |
| `Navigation.ReplayAgrees` | `web/assets/core.mjs:53-65` | On every log the server accepts, the replay of the browser gives the location and the selection that finish demands |
| `Navigation.EntersSpellPath` | `internal/server/events.go:253-257` | Without backtracking the nodes entered spell the path to the location |
| `Navigation.SelectionIsVisible` | `internal/server/events.go:258-261` | A live selection is the open item or one directly below it |
| `Navigation.DirectMeans` | `internal/server/events.go:350-366` | Directness is the absence of back, root and other selections; such an attempt entered exactly the way to the chosen page, or that and the page |
| `Metrics.EventMetrics` | `internal/server/events.go:308-381` | The pass over the log computes the specified time, timing quality, epochs, backtracks and directness |
| `Metrics.ObservedIsBounded` | `internal/server/events.go:308-381` | Observed time is never negative, within the time the page clocks ran, and far inside 64 bits |
| `Metrics.CompleteIsOneVisiblePage` | `internal/server/events.go:308-381` | A complete timing is one page, in the foreground throughout, from the showing of the tree to the submit |
| `Timing.ObservedIsWatched` | `internal/server/events.go:308-381` | On any log, observed time is exactly the sum of the stretches, within one clock, before which the page was in view and after which it still was or had just been hidden |
| `Timing.HidingCounts` | `internal/server/events.go:339-342` | A hiding of a page in view adds exactly the difference of the two readings |
| `Timing.ObservedAddsOverClocks` | `internal/server/events.go:329-343` | Where a new clock begins the log can be cut: observed time is the sum of that of the two parts |
| `Timing.ObservedOnOneClock` | `internal/server/events.go:308-381` | On one clock, with flags that agree with the visibility events: last reading minus first, less the time away and what lies before a resume on that clock |
| `Timing.AwayUntilShown` | `internal/server/events.go:308-381` | A hidden page is away exactly from that event to the one that shows it again |
| `Timing.MetricsSaySo` | `internal/server/events.go:308-381` | All metrics at once, in terms of the events: observed time, quality, navigation time, the number of clocks and of steps back |
| `StoredLogs.ShapedExactlyWhen` | `internal/server/events.go:159-198` | The checks of one event let through exactly the proper events, every field within its bounds |
| `StoredLogs.EveryLogIsReliable` | `internal/server/events.go:110-304` | In every run of requests every stored log has at most 5000 proper events, numbered, with readings between 0 and 31 536 000 000, within the byte limits, and the observed time of each attempt is between 0 and 157 680 000 000 000 |
| `SessionStore.StoredSession.Start` | `internal/server/participant.go:403-480` | The start handler: the new rows and the response, or the problem and no change |
| `SessionStore.StoredSession.Send` | `internal/server/participant.go:496-539` | The events handler: rows, next number and counters of the run follow the append, or nothing changes |
| `SessionStore.StoredSession.Finish` | `internal/server/participant.go:541-663` | The finish handler, with its receipt, append, selection check, score and closing: the new rows, response and counters of the run, or the problem and no change |
| `SessionStore.StoredSession.ReadReceipt` | `internal/server/participant.go:336-359` | A receipt with another request conflicts, an expired one is deleted, a live one is returned |
| `SessionStore.StoredSession.WriteReceipt` | `internal/server/participant.go:361-374` | Expired receipts go, and the new one joins if there is room |
| `SessionRuns.StepKeeps` | `internal/server/participant.go:403-663` | Every request keeps the invariant of the session, its history and its unexpired receipts |
| `SessionRuns.RunKeeps` | `internal/server/participant.go:403-663` | So does every run of requests |
| `SessionRuns.OncePerTask` | `internal/server/participant.go:403-663` | However requests are lost, repeated or mixed, starts take effect for tasks 0, 1, 2, ... once each, and so do finishes |
| `SessionRuns.RetryGetsTheOriginal` | `internal/server/participant.go:383-401` | A retry while its receipt lives gets a response equal to the original and changes nothing, whatever came in between |
| `SessionRuns.ReceiptLimitIsUnreachable` | `internal/server/participant.go:361-374` | The limit of receipts never refuses a command: two a task at most leave room |
| `Scoring.FinishIsScored` | `internal/server/participant.go:612-656` | Every finish that takes effect closes the current attempt with the outcome, page and time of the request and moves the session on; it is correct exactly when the page selected holds an accepted answer of the task in the variant, and direct when moreover nothing led back or astray |
| `Scoring.WrongPageIsWrong` | `internal/server/policy.go:50-57` | A selected page whose content is no accepted answer ends with correct and direct false |
| `Scoring.EveryScoreStands` | `internal/server/participant.go:612-656` | In every run of requests every finished attempt is scored so, by the answer key and on the log it has |
| `Commands.StartsExactlyWhen` | `internal/server/participant.go:403-480` | A start takes effect exactly when it is proper, unused, and names the current task with no attempt open; it adds that attempt, and otherwise nothing changes |
| `Commands.SendsExactlyWhen` | `internal/server/participant.go:496-539` | A checkpoint is acknowledged exactly when its attempt exists, it holds at most 200 events, and a legal log within the limits comes of it; otherwise nothing changes |
| `Commands.FinishesExactlyWhen` | `internal/server/participant.go:541-663` | A finish takes effect exactly when it is proper, unused and of the current attempt, its events end in the submit it announces and make a legal log, and a selection is live and of a page with content; otherwise nothing changes |
| `Commands.ReceiptsExactlyKept` | `internal/server/participant.go:336-374` | A command that takes effect leaves its receipt, for a day, and of the others exactly the unexpired ones; no other request touches the receipts |
| `Commands.SessionIsShown` | `internal/server/participant.go:119-149` | The response shows the session as it is: index, completion, the prompt of the current task under its opaque identifier, the menu, and the open attempt with its log and next number |
| `Commands.NodesMirror` | `internal/server/participant.go:111-117` | The menu shown has the shape and labels of the real one under opaque identifiers, marks the pages, and has no content in it |
| `Allocation.Shuffle` | `internal/server/admin.go:75-85` | The in-place shuffle gives the order that its draws denote, and fails exactly when the random source does |
| `Allocation.EveryOrderIsDrawn` | `internal/server/admin.go:75-85` | Every order of the items can be drawn |
| `Allocation.AllocateV1` | `internal/server/policy.go:87-95` | A block is a shuffle of all pairs of a variant and a panel |
| `Allocation.AllPairsOnce` | `internal/server/policy.go:87-95` | Each pair of the design occurs in it once, and no other |
| `Runs.RunStore.Join` | `internal/server/participant.go:166-295` | Enrolment: the checks in their order, the allocation taken, the new session and the bytes; or the problem and no change |
| `Runs.RunStore.Update` | `internal/server/admin.go:400-473` | Status, suspension, retention and closing dates; or the problem and no change |
| `Runs.RunStore.DeleteRows` | `internal/server/purge.go:50-81` | The first phase of a purge |
| `Runs.RunStore.MarkPurged` | `internal/server/purge.go:82-91` | The second phase |
| `RunSafety.TellKeeps` | `internal/server/participant.go:166-295` | Enrolments, requests, updates and purges keep the invariants of the run: sessions, bytes, allocation and lifecycle |
| `RunStories.EnrolmentIsBalanced` | `internal/server/participant.go:222-233` | Until a purge, with k blocks drawn every pair has been enrolled k or k - 1 times, within the cap |
| `RunStories.BlocksAssignEvenly` | `internal/server/participant.go:222-233` | When a block is used up every task has been assigned equally often in every variant |
| `RunStories.EveryByteIsCounted` | `internal/server/events.go:286-303` | The counters of a run are exactly the encoded events it stores and what its sessions took to enrol; no limit is passed |
| `RunStories.ClosureIsDated` | `internal/server/admin.go:400-473` | A run is closed exactly while it has a closing time, which with the retention days gives its target; one waiting for a purge is closed |
| `RunStories.PurgedForGood` | `internal/server/purge.go:50-92` | Once its rows are deleted a run has no session ever again and is never open |
| `RunRules.EnrolsExactlyWhen` | `internal/server/participant.go:207-283` | A join adds one fresh session with the next allocation and charges its bytes exactly when the run is open and not suspended, has room, draws, storage and, if asked for, an invitation, and the participant has no session; otherwise nothing changes |
| `RunRules.UpdatesExactlyWhen` | `internal/server/admin.go:400-473` | When a change of status or retention is carried out, and field by field what it leads to: status, suspension, retention, closing time and target |
| `RunRules.SuspensionHolds` | `internal/server/admin.go:443-449` | From an accepted suspension until an accepted opening, pausing or closing, whatever happens: the status stays, every join leaves the run as it is, and every request of an enrolled participant is refused as suspended and changes nothing |
| `RunRules.PurgesExactlyWhen` | `internal/server/purge.go:50-91` | The first phase empties the run and its counters and marks it pending exactly when it is closed; the second dates the purge and clears the mark |
| `RunRules.RequestMovesOwnSession` | `internal/server/participant.go:403-663` | A request moves the session of its participant as the rules of the session say, with the bytes of the run, and no other; in a suspended run none |
| `Studies.Validate` | `internal/study/validate.go:16-157` | A bundle is accepted exactly when it is a valid study, the stage at which another fails is the first failing one, and the trees returned are those of its texts |
| `Studies.CheckPanel` | `internal/study/validate.go:117-137` | One panel: size, membership, repetition, equal bands, with exposures counted on the way |
| `Studies.StudyIsBalanced` | `internal/study/validate.go:117-143` | In an accepted study exposure counted by task and by panel is the same, so the three banks are equal in size, which the validation never looks at |
| `Solvable.EveryTaskIsSolvable` | `internal/study/validate.go:82-116` | For every task and variant of an accepted study there are a page and a log of at most fifteen events that the server stores, unless a size limit is in the way, and that finish scores as a correct and direct success |
| `MenuGrammar.MatchReadsSpelling` | `internal/study/parse.go:13-14` | The regular expression matches exactly the well-formed lines and reads off what was written |
| `Menus.ParseTree` | `internal/study/parse.go:18-108` | Accepts exactly the texts that scan without an empty group, returns a forest with that listing, and names the first problem otherwise |
| `Menus.Builder.Build` | `internal/study/parse.go:87-108` | The recursive build consumes a stretch of the entries and returns the forest that lists as it |
| `Menus.ListingDetermines` | `internal/study/parse.go:87-108` | At most one forest has a given listing |
| `Menus.ScanKeeps` | `internal/study/parse.go:32-80` | What scans has depths that go down a level at a time, distinct identifiers, proper labels, and is within the limits |
| `MenuLanguage.ScansExactlyWhen` | `internal/study/parse.go:32-80` | A text scans to some entries exactly when it is their spelling: a heading perhaps, then one line an entry, with blank lines and trailing spaces anywhere, and the entries can be written and make up a menu |
| `MenuLanguage.AcceptsExactlyWhen` | `internal/study/parse.go:18-108` | A text is accepted exactly when, within its size, it spells a menu in which every entry without content has a child |
| `MenuPreview.PreviewTree` | `web/assets/core.mjs:76-108` | The single pass with its stack computes the specified forest and warnings |
| `MenuPreview.PreviewMatchesParser` | `web/assets/core.mjs:76-108` | On a text of readable lines within the limits whose labels both sides judge alike: no warning exactly when the server accepts, and the forest shown is the one parsed |
| `MenuWarnings.WarnsExactlyWhen` | `web/assets/core.mjs:76-108` | For any text, a warning is given exactly when it is deserved: which line is no item, indented beyond the item above, badly labelled, of the wrong identifiers, or repeats one above; a group without children; no items |
| `MenuNesting.ItemsAreNested` | `web/assets/core.mjs:76-108` | For any text, the forest shown has every item once, in order, each under the nearest item above it that is indented less |
| `MenuLabels.LabelsDecide` | `web/assets/core.mjs:90-90` | For a text of readable lines and any labels: each side accepts exactly when the menu under plain labels is fine and it takes every label; they agree exactly when, if it is fine, both take all the labels or neither does |
| `MenuLabels.OnePageAgrees` | `web/assets/core.mjs:90-90` | On a menu of one page they agree exactly when its label is plain |
| `MenuLabels.ByteOrderMarkIsTaken` | `internal/study/parse.go:63-65` | A label that begins with U+FEFF: the server accepts the menu and the preview warns |
| `MenuLabels.TabIsShown` | `internal/study/parse.go:36-38` | A label with a tab inside: the preview is silent and the server refuses the menu |
| `MenuRender.Render` | `studies/example/extract.py:192-209` | The walk over shared rows and inventory prints the specified text, with the inventory of its entries |
| `MenuRender.OccurrencesDiffer` | `studies/example/extract.py:198-198` | Occurrence IDs never repeat |
| `MenuRoundTrip.ParseUndoesRender` | `studies/example/extract.py:192-209` | The server takes a printed menu exactly when no shown group has only hidden children, and the parser can return only the forest that was printed |
| `MenuRoundTrip.RoundTrip` | `studies/example/extract.py:192-209` | Without hidden nodes the same documents come back |
| `MenuRoundTrip.InventoryIsOfTheText` | `studies/example/extract.py:192-209` | The inventory lists what the server reads from the printed text: the same occurrences at the same depths, and as selectable those with content |
| `Limiter.RateLimiter.Allow` | `internal/server/limits.go:41-67` | The decision and the new table: refused exactly when the running quota of the key is used up, the limit is not positive, or the key is absent and the table full of unexpired quotas, each with its wait; and which quotas the table keeps |
| `Limiter.PresentKeyIsJudgedAlone` | `internal/server/limits.go:41-67` | A key in the table is judged by its own quota alone |
| `Limiter.OthersKeepTheirQuota` | `internal/server/limits.go:41-67` | A request on one key leaves the running quota and the later decisions of another as they were |
| `Limiter.AtMostTwiceTheLimit` | `internal/server/limits.go:41-67` | Any closed interval as long as the window lets at most twice the limit through |
| `Limiter.TableStaysBounded` | `internal/server/limits.go:15-67` | The table never holds more than its capacity |
| `Limiter.DecisionIsJudged` | `internal/server/limits.go:41-67` | The same of the decision, in terms of the quotas that have not expired |
| `Limiter.AdmittedExactlyWhen` | `internal/server/limits.go:41-67` | After any series of calls, a request is admitted exactly when its limit is positive, it has no running quota that is used up, and it has a quota or fewer than 10000 are unexpired |
| `ReportRows.ReportRows` | `internal/server/reports.go:155-246` | One row a session and assigned task, each at its place and telling of its session, task and attempt, and the health counts as numbers of sessions |
| `Reports.Summarize` | `internal/server/reports.go:248-307` | The summary of an arm or of one of its tasks: each field is the number of its rows of that kind, backtracks their sum, participants and completed the numbers of their sessions; and the times it is taken over |
| `ReportRows.SessionRowStands` | `internal/server/reports.go:208-237` | A row has ended exactly for the tasks passed and is unreached exactly for those never started |
| `Reports.NothingIsMiscounted` | `internal/server/reports.go:248-307` | Every assigned task has exactly one standing, shown is what was reached, direct successes are among the correct |
| `Reports.ArmIsSumOfTasks` | `internal/server/reports.go:318-343` | In totals by kind of row, the counts of an arm are the sums of its counts by task |
| `Reports.ReportAddsUp` | `internal/server/reports.go:318-343` | Over the rows of reachable sessions: the fields of a summary count the rows of their kind, those of an arm are the sums of those of its tasks, and every assigned task is in exactly one standing |
| `Reports.CodesAreDistinct` | `internal/server/admin.go:339-349` | The task codes given out when a run is created are distinct and not empty |
| `ReportRows.AllRowsTell` | `internal/server/reports.go:208-237` | The row of task i of session k says which session, arm and task it is, whether it was shown, how it ended, and, of a selection, whether it was correct |
| `Reports.SummaryCountsRows` | `internal/server/reports.go:248-307` | Field by field, as sizes of sets of row positions: given up, skipped, correct, incorrect, unfinished, not started, shown, direct, interrupted, and the steps back added up |
| `Reports.TimesAreTaken` | `internal/server/reports.go:280-298` | Each time occurs among the times exactly as often as there are uninterrupted attempts that took it and ended in a selection or in giving up |
| `Reports.ArmSummaryAddsUp` | `internal/server/reports.go:318-343` | Every field of the summary of an arm except the numbers of people is the sum of that field over the tasks |

## Findings

- The preview and the parser do not accept the same labels. `previewTree`
  (`web/assets/core.mjs:76-108`) trims as ECMAScript does and objects to a label edged with
  U+FEFF; `ParseTree` (`internal/study/parse.go:16-108`) trims as Unicode does and refuses
  one edged with U+0085, and it alone refuses a label that holds NUL, a tab or a carriage
  return. So a menu whose only label begins with U+FEFF is accepted with a warning
  (`MenuLabels.ByteOrderMarkIsTaken`), and one whose label holds a tab is shown without one
  and refused on publication (`MenuLabels.TabIsShown`). For whole menus
  `MenuLabels.LabelsDecide` gives the exact condition, label by label; a caller can check it
  on the labels before either side sees the menu.
- A first line that is `#` and a space with nothing behind them is a heading for the preview and a bad
  item for the parser, which trims the line first. Such a line, and a heading with a tab in
  it, is not a readable line in `MenuPreview`.
- The preview knows neither the limit of 2000 items nor that of one MiB
  (`MenuPreview.WithinLimits`).
- A run whose rows have been purged may be set to paused; it can never be opened again
  (`RunStories.PurgedForGood`).
- Validation never compares the sizes of the three difficulty banks, yet they are always
  equal (`Studies.StudyIsBalanced`).

## Left out

- Transport: HTTP, cookies, JSON decoding, body and rate limits inside the handlers, SQL and
  its errors. A handler is one atomic step on its rows; a refused one leaves no trace.
- The bytes of a canonical event are a function `size` of the event; the size of an encoded
  bundle, and of what a session takes to enrol, are inputs.
- Command digests: a receipt holds the request itself, so equal digests mean equal requests.
- Policy versions: there is one, and the comparison of versions in the handlers is not modelled.
- Invitations: whether a token is good is an input of a join. Demographics are not stored.
- Random draws, identifiers, clock readings and event IDs are inputs; they are assumed fresh
  and, where IDs are drawn for a session, nonempty and distinct.
- Instants are integers, and the elapsed time kept by the server is not modelled.
- Cross-session deletion of expired receipts: only the session's own are modelled, which is
  all a session can observe.
- Epochs written as -0 or as a string with white space around a number.
- Identifiers and commands are trimmed as bytes; white space beyond ASCII at their ends is
  not modelled.
- Network: one tab for each participant. A second tab is covered only by
  `Events.OlderTabIsShutOut`.
- Network: the discard of local progress that the page offers after a 409
  (`web/assets/participant.js:47-52`) is not a move, nor is a failure of local storage.
- Network: a join is not a message. Runs begin when it has been carried out, with its reply
  received or lost; a repeated join finds the session and changes nothing.
- Network: `flush` on page hide and timers are covered by batches that may be sent at any time.
- NetworkAcceptance.CheckpointIsAccepted: size limits of attempt, session and run are a
  condition, because the code refuses past them.
- MenuPreview.PreviewTree: the stack holds values, so the sharing of a node between the stack
  and its parent's children is not captured; one warning stands for all groups without children.
- Menus.ParseTree: texts are code points, so invalid UTF-8 does not occur; line numbers of
  problems are not kept.
- Metrics and reports: the median and the rates are floating point over the modelled times
  and counts and are left out, as is the export of cells.
- Limiter.AtMostTwiceTheLimit: readings of the clock do not go back; concurrent calls are
  serialised by the mutex, and readings taken before the lock are not modelled.
- Purge: the two phases are steps; files and the vacuum of the database are not modelled.
- The administrator's pages, drafts, branding, practice and rendering.
