/** The durable recovery record of axon/invocation/persistence.go. A record is
    what one `<id>.recovery.json` file holds; every operation reads it, decides,
    and writes it back as a whole. */
module RecoveryLog {
  import opened Wrappers
  import opened Lifecycle

  type RuntimeId = nat

  datatype Phase = PhaseRunning | PhaseSuspended | PhaseRecovering | PhaseFinalizing | PhaseClosed

  datatype LoggedEvent = LoggedEvent(sequence: nat, kind: Kind, state: State, body: seq<int>)

  /** `lease` is None for the empty lease owner. */
  datatype Snapshot = Snapshot(
    events: seq<LoggedEvent>,
    checkpoint: seq<int>,
    phase: Phase,
    lease: Option<RuntimeId>,
    leaseUntil: int)

  /** Stored events carry their own position. */
  ghost predicate Numbered(events: seq<LoggedEvent>) {
    forall i :: 0 <= i < |events| ==> events[i].sequence == i
  }

  const BLANK := Snapshot([], [], PhaseRunning, None, 0)

  /** `owner` None is the un-leased writer of a first execution. */
  datatype Op =
    | Append(owner: Option<RuntimeId>, event: LoggedEvent)
    | Checkpoint(owner: Option<RuntimeId>, data: seq<int>)
    | Begin(finalizer: RuntimeId)
    | Mark(phase: Phase)
    | Claim(claimant: RuntimeId, until: int)
    | Renew(holder: RuntimeId, until: int)

  datatype LogError =
    | SnapshotMissing | OwnershipLost | LeaseLost | SequenceMismatch
    | SnapshotClosed | InvalidPhase | FinalizationRequired | NotClaimable | LeaseDurationRequired
    | WriteFailed

  /** A leased operation runs only for the exact holder of an unexpired lease. */
  predicate HoldsLease(s: Snapshot, owner: RuntimeId, now: int) {
    s.lease == Some(owner) && s.leaseUntil >= now
  }

  function ApplyAppend(s: Snapshot, owner: Option<RuntimeId>, event: LoggedEvent, now: int)
    : Result<Snapshot, LogError>
  {
    if owner.None? && ((s.phase != PhaseRunning && s.phase != PhaseFinalizing) || s.lease.Some?) then
      Err(OwnershipLost)
    else if owner.Some? && ((s.phase != PhaseRecovering && s.phase != PhaseFinalizing)
                            || !HoldsLease(s, owner.value, now)) then
      Err(LeaseLost)
    else if |s.events| != event.sequence then Err(SequenceMismatch)
    else
      var grown := s.(events := s.events + [event]);
      Ok(if event.state.IsTerminal()
         then grown.(phase := PhaseClosed, lease := None, leaseUntil := 0)
         else grown)
  }

  function ApplyCheckpoint(s: Snapshot, owner: Option<RuntimeId>, data: seq<int>, now: int)
    : Result<Snapshot, LogError>
  {
    if s.phase == PhaseClosed then Err(SnapshotClosed)
    else if owner.None? && (s.phase != PhaseRunning || s.lease.Some?) then Err(OwnershipLost)
    else if owner.Some? && (s.phase != PhaseRecovering || !HoldsLease(s, owner.value, now)) then
      Err(LeaseLost)
    else Ok(s.(checkpoint := data))
  }

  function ApplyBegin(s: Snapshot, owner: RuntimeId, now: int): Result<Snapshot, LogError> {
    match s.phase
    case PhaseRunning =>
      if s.lease.Some? then Err(OwnershipLost) else Ok(s.(phase := PhaseFinalizing))
    case PhaseRecovering | PhaseFinalizing =>
      if s.lease.Some? && !HoldsLease(s, owner, now) then Err(LeaseLost)
      else Ok(s.(phase := PhaseFinalizing))
    case PhaseSuspended | PhaseClosed => Err(InvalidPhase)
  }

  function ApplyMark(s: Snapshot, phase: Phase): Result<Snapshot, LogError> {
    if phase == PhaseFinalizing then Err(InvalidPhase)
    else if s.phase == PhaseFinalizing && phase != PhaseClosed then Err(FinalizationRequired)
    else if phase == PhaseRecovering then Ok(s.(phase := phase))
    else Ok(s.(phase := phase, lease := None, leaseUntil := 0))
  }

  predicate ClaimableRecord(s: Snapshot, now: int) {
    s.phase == PhaseSuspended || (s.phase == PhaseRecovering && s.leaseUntil <= now)
  }

  function ApplyClaim(s: Snapshot, owner: RuntimeId, until: int, now: int): Result<Snapshot, LogError> {
    if s.phase == PhaseFinalizing then Err(FinalizationRequired)
    else if !ClaimableRecord(s, now) then Err(NotClaimable)
    else Ok(s.(phase := PhaseRecovering, lease := Some(owner), leaseUntil := until))
  }

  /** Renewal checks the holder but not the expiry, as the source does. */
  function ApplyRenew(s: Snapshot, owner: RuntimeId, until: int): Result<Snapshot, LogError> {
    if (s.phase != PhaseRecovering && s.phase != PhaseFinalizing) || s.lease != Some(owner) then
      Err(LeaseLost)
    else Ok(s.(leaseUntil := until))
  }

  function Apply(s: Snapshot, op: Op, now: int): Result<Snapshot, LogError> {
    match op
    case Append(owner, event) => ApplyAppend(s, owner, event, now)
    case Checkpoint(owner, data) => ApplyCheckpoint(s, owner, data, now)
    case Begin(owner) => ApplyBegin(s, owner, now)
    case Mark(phase) => ApplyMark(s, phase)
    case Claim(owner, until) => ApplyClaim(s, owner, until, now)
    case Renew(owner, until) => ApplyRenew(s, owner, until)
  }
}
