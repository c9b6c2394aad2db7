/*
 * The task lifecycle as a transition table over eight statuses.
 */
module TaskStatuses {
  import opened Wrappers

  datatype TaskStatus =
    | Pending | Queued | Assigned | Accepted | InProgress | Completed | Cancelled | Failed

  /** Every status, in declaration order (TaskStatus.values()). */
  const AllStatuses: seq<TaskStatus> :=
    [Pending, Queued, Assigned, Accepted, InProgress, Completed, Cancelled, Failed]

  /** The enum constant's name, as `toString` and `String.format("%s")` print it. */
  function Name(s: TaskStatus): string {
    match s
    case Pending => "PENDING"
    case Queued => "QUEUED"
    case Assigned => "ASSIGNED"
    case Accepted => "ACCEPTED"
    case InProgress => "IN_PROGRESS"
    case Completed => "COMPLETED"
    case Cancelled => "CANCELLED"
    case Failed => "FAILED"
  }

  /** The allowed edges of the lifecycle. */
  predicate CanTransitionTo(from: TaskStatus, to: TaskStatus) {
    match from
    case Pending => to == Queued || to == Cancelled
    case Queued => to == Assigned || to == Cancelled
    case Assigned => to == Accepted || to == Queued || to == Cancelled
    case Accepted => to == InProgress || to == Cancelled
    case InProgress => to == Completed || to == Failed || to == Cancelled
    case Completed | Cancelled | Failed => false
  }

  predicate IsTerminal(s: TaskStatus) {
    s == Completed || s == Cancelled || s == Failed
  }

  /** A worker holds the task. */
  predicate IsActive(s: TaskStatus) {
    s == Assigned || s == Accepted || s == InProgress
  }

  /** getValidTransitions: the statuses reachable in one step. */
  function ValidTransitions(s: TaskStatus): (r: set<TaskStatus>)
    ensures forall t :: t in r <==> CanTransitionTo(s, t)
  {
    set t | t in AllStatuses && CanTransitionTo(s, t)
  }

  /** ensureCanTransitionTo: passes exactly on an allowed edge, otherwise
    * fails with a message that names both statuses. */
  function EnsureCanTransitionTo(from: TaskStatus, to: TaskStatus): (r: Outcome<string>)
    ensures r.Pass? <==> CanTransitionTo(from, to)
    ensures r.Fail? ==> r.error == "Cannot transition from " + Name(from) + " to " + Name(to)
  {
    if CanTransitionTo(from, to) then Pass
    else Fail("Cannot transition from " + Name(from) + " to " + Name(to))
  }

  // ------------------------------------------------------------ properties

  /** The terminal statuses are exactly those without an outgoing edge. */
  lemma TerminalIffNoSuccessor(s: TaskStatus)
    ensures IsTerminal(s) <==> ValidTransitions(s) == {}
  {
    if !IsTerminal(s) {
      assert CanTransitionTo(s, Cancelled);
      assert Cancelled in ValidTransitions(s);
    }
  }

  /** Every status that is not terminal may be cancelled; nothing returns to
    * PENDING and no status loops to itself. */
  lemma CancelAlwaysAllowed(s: TaskStatus, t: TaskStatus)
    ensures !IsTerminal(s) <==> CanTransitionTo(s, Cancelled)
    ensures !CanTransitionTo(t, Pending)
    ensures !CanTransitionTo(s, s)
  {
  }

  /** A task held by a worker is still open. */
  lemma ActiveIsNotTerminal(s: TaskStatus)
    ensures IsActive(s) ==> !IsTerminal(s)
    ensures IsActive(s) <==> s in {Assigned, Accepted, InProgress}
  {
  }

  /** The table as sets, e.g. ASSIGNED goes to ACCEPTED, QUEUED or CANCELLED. */
  lemma TransitionTable()
    ensures ValidTransitions(Pending) == {Queued, Cancelled}
    ensures ValidTransitions(Queued) == {Assigned, Cancelled}
    ensures ValidTransitions(Assigned) == {Accepted, Queued, Cancelled}
    ensures ValidTransitions(Accepted) == {InProgress, Cancelled}
    ensures ValidTransitions(InProgress) == {Completed, Failed, Cancelled}
    ensures ValidTransitions(Completed) == {}
    ensures ValidTransitions(Cancelled) == {}
    ensures ValidTransitions(Failed) == {}
  {
  }
}
