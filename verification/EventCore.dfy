/** One invocation's event log: axon/invocation/handle.go (claimTerminal,
    failFinalization, emitContext, acknowledge, fetchEvents, EventStream.Next).
    Each function is one critical section of the core's mutex. */
module EventCore {
  import opened Wrappers
  import opened ByteStrings
  import opened Canonical
  import opened Lifecycle
  import ReceiptChain
  import RecoveryLog

  type Event = RecoveryLog.LoggedEvent

  type Chain = ReceiptChain.Chain

  /** `closes` counts close(c.terminal); `acked` is acknowledgedProgress. */
  datatype Core = Core(
    gate: Gate, events: seq<Event>, chain: Chain, buffered: nat, acked: set<nat>, closes: nat)

  const NEW_CORE := Core(Gate(Unspecified, NoOwner, false), [], ReceiptChain.EMPTY, 0, {}, 0)

  function Ascii(s: string): Bytes {
    seq(|s|, i requires 0 <= i < |s| => (s[i] as int % 256) as byte)
  }

  function KindName(kind: Kind): Bytes {
    match kind
    case AcceptedEvent => Ascii("accepted")
    case AdmittedEvent => Ascii("admitted")
    case DispatchedEvent => Ascii("dispatched")
    case RunningEvent => Ascii("running")
    case Progress => Ascii("progress")
    case MessageReceived => Ascii("message_received")
    case MessageConsumed => Ascii("message_consumed")
    case ChildSpawned => Ascii("child_spawned")
    case ChildTerminal => Ascii("child_terminal")
    case CompletedEvent => Ascii("completed")
    case FailedEvent => Ascii("failed")
    case TimedOutEvent => Ascii("timed_out")
    case CancelledEvent => Ascii("cancelled")
    case UnknownEvent => Ascii("unknown")
  }

  function StateName(state: State): Bytes {
    match state
    case Unspecified => Ascii("UNSPECIFIED")
    case Accepted => Ascii("ACCEPTED")
    case Admitted => Ascii("ADMITTED")
    case Dispatched => Ascii("DISPATCHED")
    case Running => Ascii("RUNNING")
    case Completed => Ascii("COMPLETED")
    case Failed => Ascii("FAILED")
    case TimedOut => Ascii("TIMED_OUT")
    case Cancelled => Ascii("CANCELLED")
  }

  /** What a caller asks to emit. `draft` is the receipt the provider would sign,
      None when resolving, validating or signing fails. */
  datatype Input = Input(kind: Kind, target: State, body: seq<int>, draft: Option<ReceiptBody>, restoring: bool)

  datatype EmitError = Refused(refusal: Refusal) | Backpressure | AppendFailed

  function Stamped(draft: ReceiptBody, kind: Kind, target: State): ReceiptBody {
    draft.(receiptType := KindName(kind), state := StateName(target))
  }

  /** AppendSignedReceipt on this invocation's chain. */
  function AppendReceipt(sha: Bytes -> Hash, c: Chain, input: Input): Option<Chain> {
    if input.draft.None? || (input.target.IsTerminal() && !input.draft.value.cleanupComplete) then None
    else if c.terminal || |c.receipts| >= TWO_64 then None
    else
      Some(ReceiptChain.Chain(false, input.target.IsTerminal(), c.receipts
        + [ReceiptChain.Drafted(sha, Stamped(input.draft.value, input.kind, input.target),
             ReceiptChain.Reservation(|c.receipts|, ReceiptChain.Tip(c.receipts)))]))
  }

  function Grown(c: Core, input: Input, chain: Chain): Core {
    Core(
      c.gate.(state := input.target),
      c.events + [RecoveryLog.LoggedEvent(|c.events|, input.kind, input.target, input.body)],
      chain,
      if input.kind == Progress && !input.restoring then c.buffered + 1 else c.buffered,
      c.acked,
      if input.target.IsTerminal() then c.closes + 1 else c.closes)
  }

  /** emitContext; Backpressure is where it waits for a reader or its context. */
  function Emit(sha: Bytes -> Hash, c: Core, input: Input): Result<Core, EmitError> {
    match EmitRefusal(c.gate, input.kind, input.target, input.restoring)
    case Some(refusal) => Err(Refused(refusal))
    case None =>
      if !input.restoring && input.kind == Progress && c.buffered >= STREAM_CAPACITY then Err(Backpressure)
      else
        match AppendReceipt(sha, c.chain, input)
        case None => Err(AppendFailed)
        case Some(chain) => Ok(Grown(c, input, chain))
  }

  function ClaimTerminal(c: Core, owner: Owner): Core {
    if Claimable(c.gate) then c.(gate := c.gate.(claim := owner)) else c
  }

  function FailFinalization(c: Core): Core {
    if c.gate.state.IsTerminal() || c.gate.finErr then c
    else c.(gate := c.gate.(finErr := true), closes := c.closes + 1)
  }

  function Acknowledge(c: Core, e: Event): Core {
    if e.kind != Progress || e.sequence in c.acked then c
    else c.(acked := c.acked + {e.sequence}, buffered := if c.buffered > 0 then c.buffered - 1 else 0)
  }

  // ---- Readers ----

  /** An EventStream; `start` and `yielded` record where it was opened and what
      Next has returned. */
  datatype Stream = Stream(start: nat, offset: nat, buffer: seq<Event>, closed: bool, yielded: seq<Event>)

  function Opened(from: nat): Stream {
    Stream(from, from, [], false, [])
  }

  function FromOffset(batch: seq<Event>, offset: nat): seq<Event> {
    if batch == [] then []
    else (if batch[0].sequence >= offset then [batch[0]] else []) + FromOffset(batch[1..], offset)
  }

  /** The fetch half of Next: refill an empty buffer with what is there. */
  function Fetched(c: Core, s: Stream): Stream {
    if s.closed || s.buffer != [] || |c.events| <= s.offset then s
    else s.(buffer := FromOffset(c.events[s.offset..], s.offset))
  }

  /** The other half: hand out one event. */
  function Taken(s: Stream): Stream
    requires s.buffer != []
  {
    s.(buffer := s.buffer[1..], offset := s.buffer[0].sequence + 1, yielded := s.yielded + [s.buffer[0]])
  }

  // ---- Invariants, part by part ----

  function StateBefore(events: seq<Event>, i: nat): State
    requires i <= |events|
  {
    if i == 0 then Unspecified else events[i - 1].state
  }

  /** The log is a path of the transition table ending in `state`. */
  ghost predicate IsPath(events: seq<Event>, state: State) {
    && (forall i :: 0 <= i < |events| ==> ExpectedTransition(StateBefore(events, i), events[i].kind, events[i].state))
    && state == StateBefore(events, |events|)
  }

  /** Event i and receipt i tell the same story. */
  ghost predicate Lockstep(events: seq<Event>, receipts: seq<ReceiptChain.SignedReceipt>) {
    && |events| == |receipts|
    && (forall i :: 0 <= i < |events| ==>
          && receipts[i].body.index == i
          && receipts[i].body.receiptType == KindName(events[i].kind)
          && receipts[i].body.state == StateName(events[i].state)
          && (events[i].state.IsTerminal() ==> receipts[i].body.cleanupComplete))
  }

  ghost predicate ChainSound(sha: Bytes -> Hash, c: Core) {
    && ReceiptChain.ChainValid(sha, c.chain.receipts)
    && !c.chain.appending
    && c.chain.terminal == c.gate.state.IsTerminal()
  }

  /** The terminal channel closes once, for a terminal state or a failed
      finalization but never both. */
  ghost predicate ClosedOnce(c: Core) {
    && !(c.gate.state.IsTerminal() && c.gate.finErr)
    && c.closes == (if c.gate.state.IsTerminal() || c.gate.finErr then 1 else 0)
  }

  ghost predicate Sound(sha: Bytes -> Hash, c: Core) {
    && RecoveryLog.Numbered(c.events) && IsPath(c.events, c.gate.state)
    && Lockstep(c.events, c.chain.receipts) && ChainSound(sha, c) && ClosedOnce(c)
  }

  function ProgressSet(events: seq<Event>): set<nat> {
    set i: nat | i < |events| && events[i].kind == Progress
  }

  /** outputBuffered counts the progress events no reader has acknowledged. */
  ghost predicate BufferExact(c: Core) {
    && c.acked <= ProgressSet(c.events)
    && c.buffered == |ProgressSet(c.events)| - |c.acked|
    && c.buffered <= STREAM_CAPACITY
  }

  /** A stream hands out its segment of the log, nothing missing, nothing twice. */
  ghost predicate InOrder(events: seq<Event>, s: Stream) {
    && s.offset == s.start + |s.yielded|
    && ((s.yielded == [] && s.buffer == [])
        || (s.offset + |s.buffer| <= |events| && s.yielded + s.buffer == events[s.start..s.offset + |s.buffer|]))
  }
}
