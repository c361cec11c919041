/** What any sequence of operations on one recovery record can and cannot do
    (axon/invocation/persistence.go). */
module RecoveryRuns {
  import opened Wrappers
  import opened RecoveryLog

  /** An operation, when it runs, and whether its write reaches the disk. */
  datatype Call = Call(op: Op, now: int, writeOk: bool)

  predicate Succeeds(s: Snapshot, c: Call) {
    c.writeOk && Apply(s, c.op, c.now).Ok?
  }

  function After(s: Snapshot, c: Call): Snapshot {
    if Succeeds(s, c) then Apply(s, c.op, c.now).value else s
  }

  /** The record before call k of a run. */
  function Before(s: Snapshot, calls: seq<Call>, k: nat): Snapshot
    requires k <= |calls|
  {
    if k == 0 then s else After(Before(s, calls, k - 1), calls[k - 1])
  }

  /** The lease owner on whose behalf an operation acts; None is the un-leased
      writer. Claims and phase marks act for nobody. */
  function ActsFor(op: Op): Option<Option<RuntimeId>> {
    match op
    case Append(owner, _) => Some(owner)
    case Checkpoint(owner, _) => Some(owner)
    case Begin(owner) => Some(Some(owner))
    case Renew(owner, _) => Some(Some(owner))
    case Mark(_) => None
    case Claim(_, _) => None
  }

  /** No claim and no phase mark takes effect in the first k calls. */
  ghost predicate NoHandover(s: Snapshot, calls: seq<Call>, k: nat)
    requires k <= |calls|
  {
    forall j :: 0 <= j < k && Succeeds(Before(s, calls, j), calls[j]) ==> ActsFor(calls[j].op).Some?
  }

  // ---- Fencing ----

  /** `owner` is the only writer the record will still listen to. */
  predicate Fenced(s: Snapshot, owner: RuntimeId) {
    s.phase == PhaseClosed
    || ((s.phase == PhaseRecovering || s.phase == PhaseFinalizing) && s.lease == Some(owner))
  }

  lemma ClaimFences(s: Snapshot, owner: RuntimeId, until: int, now: int)
    requires ApplyClaim(s, owner, until, now).Ok?
    ensures Fenced(ApplyClaim(s, owner, until, now).value, owner)
  {
  }

  lemma FencedStep(s: Snapshot, owner: RuntimeId, c: Call)
    requires Fenced(s, owner) && Succeeds(s, c) && ActsFor(c.op).Some?
    ensures Fenced(After(s, c), owner) && ActsFor(c.op) == Some(Some(owner))
    ensures s.phase != PhaseClosed
  {
  }

  lemma {:induction false} FencedRun(s: Snapshot, owner: RuntimeId, calls: seq<Call>, k: nat)
    requires Fenced(s, owner) && k <= |calls| && NoHandover(s, calls, k)
    ensures Fenced(Before(s, calls, k), owner)
  {
    if k > 0 {
      FencedRun(s, owner, calls, k - 1);
      hide Fenced, Apply, ActsFor;
      var t := Before(s, calls, k - 1);
      if Succeeds(t, calls[k - 1]) {
        FencedStep(t, owner, calls[k - 1]);
      }
    }
  }

  /** After a claim by `owner`, nobody else's append, checkpoint, renewal or
      finalization takes effect before the next claim or phase mark. */
  lemma LeaseFencesOthers(
    s: Snapshot, owner: RuntimeId, until: int, now: int, calls: seq<Call>, k: nat)
    requires ApplyClaim(s, owner, until, now).Ok? && k < |calls|
    requires NoHandover(ApplyClaim(s, owner, until, now).value, calls, k)
    requires ActsFor(calls[k].op).Some? && ActsFor(calls[k].op) != Some(Some(owner))
    ensures !Succeeds(Before(ApplyClaim(s, owner, until, now).value, calls, k), calls[k])
  {
    var claimed := ApplyClaim(s, owner, until, now).value;
    ClaimFences(s, owner, until, now);
    FencedRun(claimed, owner, calls, k);
    hide Fenced, Apply, ActsFor, ApplyClaim;
    if Succeeds(Before(claimed, calls, k), calls[k]) {
      FencedStep(Before(claimed, calls, k), owner, calls[k]);
    }
  }

  /** The lease cannot be taken over early: until its expiry a claim finds the
      record unclaimable, and only the holder can move the expiry. */
  lemma NoEarlyTakeover(s: Snapshot, owner: RuntimeId, c: Call)
    requires s.phase == PhaseRecovering && s.lease == Some(owner) && c.now < s.leaseUntil
    ensures c.op.Claim? ==> !Succeeds(s, c)
    ensures Succeeds(s, c) && !c.op.Mark? ==> ActsFor(c.op) == Some(Some(owner))
    ensures After(s, c).leaseUntil != s.leaseUntil ==>
      c.op.Mark? || (ActsFor(c.op) == Some(Some(owner)) && (c.op.Renew? || After(s, c).phase == PhaseClosed))
  {
  }

  /** The fence is not a wall: the holder of a live lease can log and checkpoint. */
  lemma HolderProceeds(s: Snapshot, owner: RuntimeId, now: int, e: LoggedEvent, data: seq<int>)
    requires s.phase == PhaseRecovering && HoldsLease(s, owner, now) && e.sequence == |s.events|
    ensures ApplyAppend(s, Some(owner), e, now).Ok? && ApplyCheckpoint(s, Some(owner), data, now).Ok?
    ensures ApplyBegin(s, owner, now).Ok?
  {
  }

  // ---- Finalization ----

  lemma FinalizingStep(s: Snapshot, c: Call)
    requires s.phase == PhaseFinalizing
    ensures After(s, c).phase == PhaseFinalizing || After(s, c).phase == PhaseClosed
    ensures After(s, c).checkpoint == s.checkpoint
  {
  }

  /** Once finalizing, a record stays finalizing, its checkpoint frozen and no
      claim possible, until the call that closes it. */
  lemma {:induction false} FinalizingOnlyCloses(s: Snapshot, calls: seq<Call>, k: nat)
    requires s.phase == PhaseFinalizing && k <= |calls|
    requires forall j :: 0 <= j < k ==> Before(s, calls, j).phase != PhaseClosed
    ensures Before(s, calls, k).phase == PhaseFinalizing || Before(s, calls, k).phase == PhaseClosed
    ensures Before(s, calls, k).checkpoint == s.checkpoint
    ensures k < |calls| && Before(s, calls, k).phase == PhaseFinalizing && calls[k].op.Claim? ==>
      !Succeeds(Before(s, calls, k), calls[k])
  {
    if k > 0 {
      FinalizingOnlyCloses(s, calls, k - 1);
      FinalizingStep(Before(s, calls, k - 1), calls[k - 1]);
    }
  }

  /** A closed record stays exactly as it is until someone marks its phase. */
  lemma {:induction false} ClosedIsFrozen(s: Snapshot, calls: seq<Call>, k: nat)
    requires s.phase == PhaseClosed && k <= |calls|
    requires forall j :: 0 <= j < k ==> !calls[j].op.Mark?
    ensures Before(s, calls, k) == s
  {
    if k > 0 {
      ClosedIsFrozen(s, calls, k - 1);
    }
  }

  // ---- The log ----

  lemma LogStep(s: Snapshot, c: Call)
    requires Numbered(s.events)
    ensures Numbered(After(s, c).events) && s.events <= After(s, c).events
  {
  }

  /** Whoever writes, the stored events are numbered 0..n-1 and only grow. */
  lemma {:induction false} LogOnlyGrows(s: Snapshot, calls: seq<Call>, j: nat, k: nat)
    requires Numbered(s.events) && j <= k <= |calls|
    ensures Numbered(Before(s, calls, j).events)
    ensures Numbered(Before(s, calls, k).events) && Before(s, calls, j).events <= Before(s, calls, k).events
    decreases k
  {
    hide After;
    if k > 0 {
      LogOnlyGrows(s, calls, if j < k then j else k - 1, k - 1);
      LogStep(Before(s, calls, k - 1), calls[k - 1]);
    }
  }

  // ---- Who may do what, and what it does ----

  predicate LeasedTo(s: Snapshot, owner: RuntimeId, now: int) {
    s.lease == Some(owner) && now <= s.leaseUntil
  }

  /** An operation succeeds if and only if phase, lease, clock and sequence allow it. */
  lemma SucceedsExactly(s: Snapshot, op: Op, now: int)
    ensures op.Append? && op.owner.None? ==>
      (Apply(s, op, now).Ok? <==>
        s.phase in {PhaseRunning, PhaseFinalizing} && s.lease.None? && op.event.sequence == |s.events|)
    ensures op.Append? && op.owner.Some? ==>
      (Apply(s, op, now).Ok? <==>
        s.phase in {PhaseRecovering, PhaseFinalizing} && LeasedTo(s, op.owner.value, now) && op.event.sequence == |s.events|)
    ensures op.Checkpoint? && op.owner.None? ==> (Apply(s, op, now).Ok? <==> s.phase == PhaseRunning && s.lease.None?)
    ensures op.Checkpoint? && op.owner.Some? ==>
      (Apply(s, op, now).Ok? <==> s.phase == PhaseRecovering && LeasedTo(s, op.owner.value, now))
    ensures op.Begin? ==>
      (Apply(s, op, now).Ok? <==>
        (s.phase == PhaseRunning && s.lease.None?)
        || (s.phase in {PhaseRecovering, PhaseFinalizing} && (s.lease.None? || LeasedTo(s, op.finalizer, now))))
    ensures op.Mark? ==>
      (Apply(s, op, now).Ok? <==> op.phase != PhaseFinalizing && (s.phase == PhaseFinalizing ==> op.phase == PhaseClosed))
    ensures op.Claim? ==>
      (Apply(s, op, now).Ok? <==> s.phase == PhaseSuspended || (s.phase == PhaseRecovering && s.leaseUntil <= now))
    ensures op.Renew? ==>
      (Apply(s, op, now).Ok? <==> s.phase in {PhaseRecovering, PhaseFinalizing} && s.lease == Some(op.holder))
  {
  }

  /** Otherwise it names the first thing that is wrong. */
  lemma RefusalsExactly(s: Snapshot, op: Op, now: int)
    requires Apply(s, op, now).Err?
    ensures
      var e := Apply(s, op, now).error;
      && (op.Append? ==>
            e == if op.owner.None? && !(s.phase in {PhaseRunning, PhaseFinalizing} && s.lease.None?) then OwnershipLost
                 else if op.owner.Some? && !(s.phase in {PhaseRecovering, PhaseFinalizing} && LeasedTo(s, op.owner.value, now)) then LeaseLost
                 else SequenceMismatch)
      && (op.Checkpoint? ==>
            e == if s.phase == PhaseClosed then SnapshotClosed else if op.owner.None? then OwnershipLost else LeaseLost)
      && (op.Begin? ==>
            e == if s.phase == PhaseRunning then OwnershipLost
                 else if s.phase in {PhaseSuspended, PhaseClosed} then InvalidPhase else LeaseLost)
      && (op.Mark? ==> e == if op.phase == PhaseFinalizing then InvalidPhase else FinalizationRequired)
      && (op.Claim? ==> e == if s.phase == PhaseFinalizing then FinalizationRequired else NotClaimable)
      && (op.Renew? ==> e == LeaseLost)
  {
  }

  /** And a successful one changes this and nothing else. */
  lemma EffectExactly(s: Snapshot, op: Op, now: int)
    requires Apply(s, op, now).Ok?
    ensures
      var t := Apply(s, op, now).value;
      && (op.Append? ==> t.events == s.events + [op.event] && t.checkpoint == s.checkpoint)
      && (op.Append? && op.event.state.IsTerminal() ==> t.phase == PhaseClosed && t.lease.None? && t.leaseUntil == 0)
      && (op.Append? && !op.event.state.IsTerminal() ==> t.phase == s.phase && t.lease == s.lease && t.leaseUntil == s.leaseUntil)
      && (!op.Append? ==> t.events == s.events)
      && (op.Checkpoint? ==> t == s.(checkpoint := op.data))
      && (op.Begin? ==> t == s.(phase := PhaseFinalizing))
      && (op.Mark? && op.phase == PhaseRecovering ==> t == s.(phase := PhaseRecovering))
      && (op.Mark? && op.phase != PhaseRecovering ==> t == s.(phase := op.phase, lease := None, leaseUntil := 0))
      && (op.Claim? ==> t == s.(phase := PhaseRecovering, lease := Some(op.claimant), leaseUntil := op.until))
      && (op.Renew? ==> t == s.(leaseUntil := op.until))
  {
  }

  /** No checkpoint succeeds from call j to call k. */
  ghost predicate NoCheckpoint(s: Snapshot, calls: seq<Call>, j: nat, k: nat)
    requires k <= |calls|
  {
    forall m :: j <= m < k && calls[m].op.Checkpoint? ==> !Succeeds(Before(s, calls, m), calls[m])
  }

  lemma {:induction false} CheckpointStays(s: Snapshot, calls: seq<Call>, j: nat, k: nat)
    requires j <= k <= |calls| && NoCheckpoint(s, calls, j, k)
    ensures Before(s, calls, k).checkpoint == Before(s, calls, j).checkpoint
    decreases k - j
  {
    if j < k {
      CheckpointStays(s, calls, j, k - 1);
      var t, c := Before(s, calls, k - 1), calls[k - 1];
      hide Apply;
      if Succeeds(t, c) {
        assert !c.op.Checkpoint?;
        EffectExactly(t, c.op, c.now);
        OthersKeepCheckpoint(t, c.op, c.now);
      }
    }
  }

  lemma OthersKeepCheckpoint(s: Snapshot, op: Op, now: int)
    requires Apply(s, op, now).Ok? && !op.Checkpoint?
    ensures Apply(s, op, now).value.checkpoint == s.checkpoint
  {
  }

  /** The stored checkpoint is the data of the last successful checkpoint call. */
  lemma LastCheckpointWins(s: Snapshot, calls: seq<Call>, j: nat, k: nat)
    requires j < k <= |calls| && calls[j].op.Checkpoint? && Succeeds(Before(s, calls, j), calls[j])
    requires NoCheckpoint(s, calls, j + 1, k)
    ensures Before(s, calls, k).checkpoint == calls[j].op.data
  {
    hide Apply;
    EffectExactly(Before(s, calls, j), calls[j].op, calls[j].now);
    CheckpointStays(s, calls, j + 1, k);
  }

  /** The events of the successful appends, in order. */
  function Appended(s: Snapshot, calls: seq<Call>, k: nat): seq<LoggedEvent>
    requires k <= |calls|
  {
    if k == 0 then []
    else if calls[k - 1].op.Append? && Succeeds(Before(s, calls, k - 1), calls[k - 1])
    then Appended(s, calls, k - 1) + [calls[k - 1].op.event]
    else Appended(s, calls, k - 1)
  }

  /** The stored events are the initial ones and exactly those. */
  lemma {:induction false} EventsAreAppended(s: Snapshot, calls: seq<Call>, k: nat)
    requires k <= |calls|
    ensures Before(s, calls, k).events == s.events + Appended(s, calls, k)
  {
    if k > 0 {
      EventsAreAppended(s, calls, k - 1);
      var t, c := Before(s, calls, k - 1), calls[k - 1];
      hide Apply;
      if Succeeds(t, c) {
        EffectExactly(t, c.op, c.now);
      }
    }
  }
}
