/** Shared result types, request failures and byte-sequence helpers. */
module Common {

  /** Identifiers are byte strings; the empty string stands for "no node". */
  type Id = string

  datatype Option<+T> = None | Some(value: T)

  /** Every way in which a participant request or an event log can be refused. */
  datatype Problem =
    | TooManyEvents
    | FinishNeedsSubmit
    | SubmitMismatch
    | MisplacedSubmit
    | StrayOutcome
    | SequenceBelowOne
    | SequenceConflict
    | AttemptFinished
    | SequenceGap
    | ReusedEventId
    | InvalidEventId
    | InvalidElapsed
    | InvalidEpoch
    | InvalidType
    | InvalidFirstEvent
    | SubmitNeedsVisible
    | HiddenWithVisible
    | VisibleWithHidden
    | InvalidOutcome
    | UnknownNode
    | NodeRequired
    | NotSelectable
    | EventLimit
    | AttemptBytesLimit
    | SessionBytesLimit
    | RunBytesLimit
    | EpochConflict
    | EpochNeedsVisible
    | EpochNeedsResume
    | ElapsedNotMonotone
    | SubmitNotTerminal
    | LateTreeShown
    | EnterNotChild
    | SelectNotVisible
    | BackNotAncestor
    | RootWithNode
    | LocationConflict
    | InvalidCommandId
    | TaskRequired
    | CommandReused
    | SessionComplete
    | TaskChanged
    | TaskAlreadyStarted
    | AttemptNotFound
    | NodeWithoutSelection
    | SelectANode
    | SelectEventRequired
    | TooManyReceipts
    | ReceiptNotRebuildable
    | WritesSuspended
    | NotEnrolled
    | EnrollmentClosed
    | EnrollmentFull
    | RunNotFound
    | RunNotClosed
    | InvalidStatus
    | InvalidRetention
    | NothingToUpdate
    | PurgedRunCannotReopen
    | PendingPurgeMustStayClosed
    | InvitationRequired
    | RandomSourceFailed

  datatype Result<+T> = Ok(value: T) | Err(problem: Problem)

  /** No value occurs at two positions. */
  ghost predicate NoDuplicates<T>(s: seq<T>)
  {
    forall i, j :: 0 <= i < j < |s| ==> s[i] != s[j]
  }

  function Max(a: int, b: int): int
  {
    if a > b then a else b
  }

  function Last<T>(s: seq<T>): T
    requires s != []
  {
    s[|s| - 1]
  }

  lemma {:induction false} Associates<T>(a: seq<T>, b: seq<T>, c: seq<T>)
    ensures a + (b + c) == (a + b) + c
  {}

  lemma {:induction false} OneMorePosition(a: set<nat>, b: set<nat>, n: nat, joins: bool)
    requires n !in a && forall i: nat :: i in b <==> i in a || (joins && i == n)
    ensures |b| == |a| + if joins then 1 else 0
  {
    if joins { assert b == a + {n}; } else { assert b == a; }
  }

  predicate IsSpace(c: char)
  {
    c == ' ' || '\t' <= c <= '\r'
  }

  /** The value is its own trimmed form: no space at either end. */
  predicate Trimmed(s: string)
  {
    s == "" || (!IsSpace(s[0]) && !IsSpace(Last(s)))
  }
}
