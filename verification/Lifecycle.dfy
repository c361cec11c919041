/** The invocation lifecycle tables of axon/invocation/handle.go: states, event
    kinds, terminal owners, and the gate every event has to pass. */
module Lifecycle {
  import opened Wrappers

  /** Invocation identifiers are opaque; only equality is ever used. */
  type Id = nat

  const PENDING_CAPACITY := 256
  const STREAM_CAPACITY := 64

  datatype State =
    | Unspecified | Accepted | Admitted | Dispatched | Running
    | Completed | Failed | TimedOut | Cancelled
  {
    predicate IsTerminal() {
      Completed? || Failed? || TimedOut? || Cancelled?
    }
  }

  datatype Kind =
    | AcceptedEvent | AdmittedEvent | DispatchedEvent | RunningEvent
    | Progress | MessageReceived | MessageConsumed | ChildSpawned | ChildTerminal
    | CompletedEvent | FailedEvent | TimedOutEvent | CancelledEvent
    | UnknownEvent

  /** Who holds the terminal claim. */
  datatype Owner =
    | NoOwner | Completion | Failure | CallerCancel | ParentCancel | Deadline | Recovery

  predicate ExpectedTransition(current: State, kind: Kind, target: State) {
    match kind
    case AcceptedEvent => current == Unspecified && target == Accepted
    case AdmittedEvent => current == Accepted && target == Admitted
    case DispatchedEvent => current == Admitted && target == Dispatched
    case RunningEvent => current == Dispatched && target == Running
    case Progress | MessageReceived | MessageConsumed | ChildSpawned | ChildTerminal =>
      current == Running && target == Running
    case CompletedEvent => !current.IsTerminal() && current != Unspecified && target == Completed
    case FailedEvent => !current.IsTerminal() && current != Unspecified && target == Failed
    case TimedOutEvent => !current.IsTerminal() && current != Unspecified && target == TimedOut
    case CancelledEvent => !current.IsTerminal() && current != Unspecified && target == Cancelled
    case UnknownEvent => false
  }

  /** The part of an InvocationCore that decides claims and emissions. */
  datatype Gate = Gate(state: State, claim: Owner, finErr: bool)

  /** claimTerminal succeeds once, and never after a terminal state. */
  predicate Claimable(g: Gate) {
    !g.state.IsTerminal() && g.claim == NoOwner
  }

  datatype Refusal =
    | TerminalReached | FinalizationFailed | InvalidTransition
    | TerminalPending | NoTerminalOwner

  /** The ordered checks of emitContext before the backpressure test. */
  function EmitRefusal(g: Gate, kind: Kind, target: State, restoring: bool): Option<Refusal> {
    if g.state.IsTerminal() then Some(TerminalReached)
    else if g.finErr then Some(FinalizationFailed)
    else if !ExpectedTransition(g.state, kind, target) then Some(InvalidTransition)
    else if !restoring && g.claim != NoOwner && kind != ChildTerminal && !target.IsTerminal() then
      Some(TerminalPending)
    else if target.IsTerminal() && !restoring && g.claim == NoOwner then Some(NoTerminalOwner)
    else None
  }

  predicate Admits(g: Gate, kind: Kind, target: State) {
    EmitRefusal(g, kind, target, false).None?
  }

  /** Live emission needs an open chain and a legal transition; then a terminal event
      needs a claim, and once claimed only child_terminal may come before it. */
  lemma AdmitsExactly(g: Gate, kind: Kind, target: State)
    ensures Admits(g, kind, target) <==>
      && !g.state.IsTerminal() && !g.finErr && ExpectedTransition(g.state, kind, target)
      && (if target.IsTerminal() then g.claim != NoOwner else g.claim == NoOwner || kind == ChildTerminal)
  {
  }

  /** The terminal state each claim owner is entitled to commit. */
  function TargetOf(owner: Owner): State
    requires owner != NoOwner
  {
    match owner
    case Completion | Recovery => Completed
    case Failure => Failed
    case CallerCancel | ParentCancel => Cancelled
    case Deadline => TimedOut
  }

  function TerminalKind(target: State): Kind
    requires target.IsTerminal()
  {
    match target
    case Completed => CompletedEvent
    case Failed => FailedEvent
    case TimedOut => TimedOutEvent
    case Cancelled => CancelledEvent
  }

  /** Owners whose flow waits for every registered child before the receipt. */
  predicate StopsChildren(owner: Owner) {
    owner == CallerCancel || owner == ParentCancel || owner == Deadline
  }
}
