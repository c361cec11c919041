/** The bidirectional session of axon/bidi_session.go. The three locks sendMu,
    recvMu and closeMu each admit one call, and a call is in flight while its
    transport operation runs; each critical section of stateMu is one step. */
module Bidi {
  import opened Wrappers

  datatype State =
    | Opening | Open | HalfClosedLocal | HalfClosedRemote | Draining
    | CancelRequested | Terminal | Cancelled | Failed | Closed

  datatype Event =
    | LocalClose | RemoteClose | CancelEvent | Complete | CancelledEvent | FailEvent | TransportFail | CloseEvent

  /** nextBidiState; None is an event the state does not admit. */
  function NextState(current: State, event: Event): Option<State> {
    match event
    case LocalClose =>
      if current == Open then Some(HalfClosedLocal)
      else if current == HalfClosedRemote then Some(Draining) else None
    case RemoteClose =>
      if current == Opening || current == Open then Some(HalfClosedRemote)
      else if current == HalfClosedLocal then Some(Draining) else None
    case CancelEvent => if Live(current) && current != CancelRequested then Some(CancelRequested) else None
    case Complete => if Live(current) then Some(Terminal) else None
    case CancelledEvent => if Live(current) then Some(Cancelled) else None
    case FailEvent => if Live(current) then Some(Failed) else None
    case TransportFail => if Live(current) then Some(Failed) else None
    case CloseEvent => if !Live(current) then Some(Closed) else None
  }

  predicate Live(s: State) {
    s == Opening || s == Open || s == CancelRequested || s == HalfClosedLocal || s == HalfClosedRemote || s == Draining
  }

  /** How far along a state is. */
  function Rank(s: State): nat {
    match s
    case Opening => 0
    case Open => 1
    case HalfClosedLocal | HalfClosedRemote => 2
    case Draining => 3
    case CancelRequested => 4
    case Terminal | Cancelled | Failed => 5
    case Closed => 6
  }

  lemma TransitionsClimb(s: State, e: Event)
    requires NextState(s, e).Some?
    ensures Rank(NextState(s, e).value) > Rank(s) || NextState(s, e).value == s == Closed
  {
  }

  // ---- Frames ----

  datatype Verdict = CompletedVerdict | CancelledVerdict | FailedVerdict | NoVerdict

  datatype FrameKind =
    | Missing | Content | EofControl | OtherControl | Receipt(verdict: Verdict) | Timeout | Done

  datatype Frame = Frame(kind: FrameKind, sequence: nat, data: seq<int>)

  predicate Ordered(f: Frame, last: nat) {
    f.kind != Missing && f.sequence != 0 && f.sequence > last
  }

  /** appendBoundedBidiFrame: the oldest frame makes way. */
  function Bounded(frames: seq<Frame>, f: Frame, limit: nat): seq<Frame> {
    if limit == 0 then frames
    else if |frames| == limit then frames[1..] + [f]
    else frames + [f]
  }

  function Last(log: seq<Frame>, n: nat): seq<Frame> {
    if |log| <= n then log else log[|log| - n..]
  }

  lemma BoundedIsLast(log: seq<Frame>, f: Frame, n: nat)
    requires n > 0
    ensures Bounded(Last(log, n), f, n) == Last(log + [f], n)
  {
  }

  // ---- The session ----

  datatype Session = Session(
    limit: nat, state: State, lastSend: nat, lastRecv: nat,
    sent: seq<Frame>, received: seq<Frame>, terminal: Option<Frame>, remoteDone: bool)

  predicate SendPathOpen(s: Session) {
    s.state == Open || s.state == HalfClosedRemote
  }

  predicate ReceivePathOpen(s: Session) {
    s.state != Closed && !s.remoteDone && !(s.state == Failed && s.terminal.None?)
  }

  function Fired(s: Session, e: Event): Session {
    match NextState(s.state, e)
    case Some(next) => s.(state := next)
    case None => s
  }

  function Opened(s: Session): Session {
    if s.state == Opening then s.(state := Open) else s
  }

  function EventOf(v: Verdict): Event
    requires v != NoVerdict
  {
    match v
    case CompletedVerdict => Complete
    case CancelledVerdict => CancelledEvent
    case FailedVerdict => FailEvent
  }

  /** applyFrameLocked; None is its error. */
  function Applied(s: Session, f: Frame): Option<Session> {
    match f.kind
    case EofControl =>
      (match NextState(s.state, RemoteClose)
       case Some(next) => Some(s.(state := next))
       case None => None)
    case Receipt(verdict) =>
      if s.terminal.Some? then None
      else if verdict == NoVerdict then Some(Opened(s))
      else
        (match NextState(s.state, EventOf(verdict))
         case Some(next) => Some(s.(state := next, terminal := Some(f)))
         case None => None)
    case _ => Some(Opened(s))
  }

  datatype Outcome = Delivered | Ended | TimedOut | EarlyEnd | AfterTerminal | OutOfOrder | Unexpected

  function ReceiveOutcome(s: Session, f: Frame): Outcome {
    if f.kind == Timeout then TimedOut
    else if f.kind == Done then (if s.terminal.None? then EarlyEnd else Ended)
    else if s.terminal.Some? then AfterTerminal
    else if !Ordered(f, s.lastRecv) then OutOfOrder
    else if Applied(s, f).None? then Unexpected
    else Delivered
  }

  /** The second half of Receive, on a frame from the transport. */
  function Received(s: Session, f: Frame): Session {
    match ReceiveOutcome(s, f)
    case TimedOut | AfterTerminal => s
    case Ended => s.(remoteDone := true)
    case EarlyEnd | OutOfOrder => s.(state := Failed)
    case Unexpected => Stored(s, f).(state := Failed)
    case Delivered => Applied(Stored(s, f), f).value
  }

  function Stored(s: Session, f: Frame): Session {
    s.(lastRecv := f.sequence, received := Bounded(s.received, f, s.limit))
  }
}
