/** The lifecycle tables of work items and attempts. */
module WorkItems {
  datatype Lifecycle =
    | Draft | Ready | Queued | Assigned | Running | Waiting | Blocked | ReviewRequired | VerificationRequired
    | RepairRequired | RecoveryRequired | Completed | Cancelled | Superseded

  datatype AttemptState =
    | NotStarted | Starting | Running | Succeeded | Failed | TimedOut | Interrupted | Cancelled | Unknown

  function NextLifecycles(from: Lifecycle): set<Lifecycle> {
    match from
    case Draft => {Ready, Lifecycle.Cancelled, Superseded}
    case Ready => {Queued, Assigned, Blocked, Waiting, Lifecycle.Cancelled, Superseded}
    case Queued => {Assigned, Ready, Blocked, Waiting, Lifecycle.Cancelled, Superseded}
    case Assigned => {Lifecycle.Running, Ready, RecoveryRequired, Blocked, Waiting, Lifecycle.Cancelled, Superseded}
    case Running =>
      {ReviewRequired, VerificationRequired, RepairRequired, RecoveryRequired, Waiting, Blocked, Completed,
        Lifecycle.Cancelled, Superseded}
    case Waiting => {Ready, Blocked, Lifecycle.Cancelled, Superseded}
    case Blocked => {Ready, Waiting, Lifecycle.Cancelled, Superseded}
    case ReviewRequired =>
      {VerificationRequired, RepairRequired, Blocked, Waiting, Completed, Lifecycle.Cancelled, Superseded}
    case VerificationRequired =>
      {Completed, RepairRequired, RecoveryRequired, Blocked, Waiting, Lifecycle.Cancelled, Superseded}
    case RepairRequired => {Ready, Blocked, Waiting, Lifecycle.Cancelled, Superseded}
    case RecoveryRequired => {Ready, Waiting, Blocked, Lifecycle.Cancelled, Superseded}
    case Completed => {VerificationRequired, Ready, Superseded}
    case Cancelled => {}
    case Superseded => {}
  }

  function NextAttemptStates(from: AttemptState): set<AttemptState> {
    match from
    case NotStarted => {Starting, AttemptState.Cancelled}
    case Starting => {AttemptState.Running, Failed, TimedOut, Interrupted, AttemptState.Cancelled, Unknown}
    case Running => {Succeeded, Failed, TimedOut, Interrupted, AttemptState.Cancelled, Unknown}
    case Unknown => {AttemptState.Running, Succeeded, Failed, TimedOut, Interrupted, AttemptState.Cancelled}
    case _ => {}
  }

  predicate WorkItemMay(from: Lifecycle, to: Lifecycle) { to in NextLifecycles(from) }

  predicate AttemptMay(from: AttemptState, to: AttemptState) { to in NextAttemptStates(from) }

  predicate IsActive(s: AttemptState) { s in {NotStarted, Starting, AttemptState.Running, Unknown} }

  /** An attempt that has ended can never be moved again, and moving is only ever from an active state. */
  lemma TerminalAttemptsAreFinal(from: AttemptState, to: AttemptState)
    ensures AttemptMay(from, to) ==> IsActive(from) && from != to
    ensures !IsActive(from) <==> NextAttemptStates(from) == {}
  {
    if IsActive(from) { assert AttemptState.Cancelled in NextAttemptStates(from); }
  }

  /** The tables read the other way: from where a lifecycle or a state can be entered. */
  function LifecyclesBefore(to: Lifecycle): set<Lifecycle> {
    match to
    case Draft => {}
    case Ready => {Draft, Queued, Assigned, Waiting, Blocked, RepairRequired, RecoveryRequired, Completed}
    case Queued => {Ready}
    case Assigned => {Ready, Queued}
    case Running => {Assigned}
    case Waiting =>
      {Ready, Queued, Assigned, Lifecycle.Running, Blocked, ReviewRequired, VerificationRequired, RepairRequired,
        RecoveryRequired}
    case Blocked =>
      {Ready, Queued, Assigned, Lifecycle.Running, Waiting, ReviewRequired, VerificationRequired, RepairRequired,
        RecoveryRequired}
    case ReviewRequired => {Lifecycle.Running}
    case VerificationRequired => {Lifecycle.Running, ReviewRequired, Completed}
    case RepairRequired => {Lifecycle.Running, ReviewRequired, VerificationRequired}
    case RecoveryRequired => {Assigned, Lifecycle.Running, VerificationRequired}
    case Completed => {Lifecycle.Running, ReviewRequired, VerificationRequired}
    case Cancelled =>
      {Draft, Ready, Queued, Assigned, Lifecycle.Running, Waiting, Blocked, ReviewRequired, VerificationRequired,
        RepairRequired, RecoveryRequired}
    case Superseded =>
      {Draft, Ready, Queued, Assigned, Lifecycle.Running, Waiting, Blocked, ReviewRequired, VerificationRequired,
        RepairRequired, RecoveryRequired, Completed}
  }

  function AttemptStatesBefore(to: AttemptState): set<AttemptState> {
    match to
    case NotStarted => {}
    case Starting => {NotStarted}
    case Running => {Starting, Unknown}
    case Unknown => {Starting, AttemptState.Running}
    case Succeeded => {AttemptState.Running, Unknown}
    case Cancelled => {NotStarted, Starting, AttemptState.Running, Unknown}
    case Failed | TimedOut | Interrupted => {Starting, AttemptState.Running, Unknown}
  }

  lemma LifecyclesAreTransposed(from: Lifecycle, to: Lifecycle)
    ensures WorkItemMay(from, to) <==> from in LifecyclesBefore(to)
  {
    match from { case _ => match to { case _ => } }
  }

  lemma AttemptStatesAreTransposed(from: AttemptState, to: AttemptState)
    ensures AttemptMay(from, to) <==> from in AttemptStatesBefore(to)
  {
    match from { case _ => match to { case _ => } }
  }
}
