/** PersistentLog of axon/invocation/persistence.go as an object over a directory
    of recovery records. Time, directory listings and the fate of each write are
    arguments; a failed write changes nothing. */
module PersistentLogs {
  import opened Wrappers
  import opened Lifecycle
  import opened RecoveryLog

  type Files = map<Id, Snapshot>

  const NANOS_PER_MILLI := 1_000_000

  /** One operation on one record: read, decide, write back. */
  function Outcome(files: Files, id: Id, op: Op, now: int, writeOk: bool): (Files, Option<LogError>) {
    if id !in files then (files, Some(SnapshotMissing))
    else
      match Apply(files[id], op, now)
      case Err(e) => (files, Some(e))
      case Ok(s) => if writeOk then (files[id := s], None) else (files, Some(WriteFailed))
  }

  // ---- Claiming ----

  predicate Sealed(files: Files, id: Id) {
    id !in files || files[id].phase == PhaseFinalizing
  }

  /** The error of the preflight pass: the first missing or finalizing record. */
  function Preflight(files: Files, ids: seq<Id>): Option<LogError> {
    if ids == [] then None
    else if ids[0] !in files then Some(SnapshotMissing)
    else if files[ids[0]].phase == PhaseFinalizing then Some(FinalizationRequired)
    else Preflight(files, ids[1..])
  }

  function Leased(s: Snapshot, owner: RuntimeId, until: int): Snapshot {
    s.(phase := PhaseRecovering, lease := Some(owner), leaseUntil := until)
  }

  /** The claimable records of a listing, in its order. */
  function ClaimableIds(files: Files, ids: seq<Id>, now: int): seq<Id> {
    if ids == [] then []
    else (if ids[0] in files && ClaimableRecord(files[ids[0]], now) then [ids[0]] else [])
         + ClaimableIds(files, ids[1..], now)
  }

  function LeaseAll(files: Files, claimed: seq<Id>, owner: RuntimeId, until: int): Files {
    map id | id in files :: if id in claimed then Leased(files[id], owner, until) else files[id]
  }

  /** The limit a caller really gets: none given means all. */
  function Effective(limit: int, n: nat): nat {
    if limit <= 0 || limit > n then n else limit
  }

  ghost predicate Distinct(ids: seq<Id>) {
    forall i, j :: 0 <= i < j < |ids| ==> ids[i] != ids[j]
  }

  /** The locked pass: each record is read again, and the walk ends at the limit, at
      a record gone or finalizing by now, or at a failed write. */
  function Walk(files: Files, ids: seq<Id>, room: nat, now: int, unwritable: set<Id>): (seq<Id>, Option<LogError>) {
    if ids == [] || room == 0 then ([], None)
    else if ids[0] !in files then ([], Some(SnapshotMissing))
    else if files[ids[0]].phase == PhaseFinalizing then ([], Some(FinalizationRequired))
    else if !ClaimableRecord(files[ids[0]], now) then Walk(files, ids[1..], room, now, unwritable)
    else if ids[0] in unwritable then ([], Some(WriteFailed))
    else
      var rest := Walk(files, ids[1..], room - 1, now, unwritable);
      ([ids[0]] + rest.0, rest.1)
  }

  /** The records a claim asks for: the first `limit` claimable ones. */
  function Wanted(files: Files, ids: seq<Id>, limit: nat, now: int): seq<Id> {
    var all := ClaimableIds(files, ids, now);
    all[..Min(limit, |all|)]
  }

  lemma {:induction false} PreflightSnoc(files: Files, ids: seq<Id>, i: nat)
    requires i < |ids| && Preflight(files, ids[..i]).None?
    ensures !Sealed(files, ids[i]) ==> Preflight(files, ids[..i + 1]).None?
    ensures Sealed(files, ids[i]) ==>
      Preflight(files, ids) == Some(if ids[i] !in files then SnapshotMissing else FinalizationRequired)
  {
    if i > 0 {
      assert ids[..i][0] == ids[0] && ids[..i][1..] == ids[1..][..i - 1];
      assert ids[..i + 1][0] == ids[0] && ids[..i + 1][1..] == ids[1..][..i];
      PreflightSnoc(files, ids[1..], i - 1);
    }
  }

  lemma {:induction false} ClaimableAmong(files: Files, ids: seq<Id>, now: int, id: Id)
    requires id in ClaimableIds(files, ids, now)
    ensures id in ids && id in files && ClaimableRecord(files[id], now)
  {
    if id != ids[0] || !(ids[0] in files && ClaimableRecord(files[ids[0]], now)) {
      ClaimableAmong(files, ids[1..], now, id);
    }
  }

  /** Whatever ends it, a walk leases the first claimable records in order, and all
      it asks for unless an error stops it. */
  lemma {:induction false} WalkIsWanted(files: Files, ids: seq<Id>, room: nat, now: int, unwritable: set<Id>)
    ensures
      var w := Walk(files, ids, room, now, unwritable);
      w.0 <= Wanted(files, ids, room, now) && (w.1.None? ==> w.0 == Wanted(files, ids, room, now))
  {
    if ids != [] && room > 0 && !Sealed(files, ids[0]) {
      var claimable := ClaimableRecord(files[ids[0]], now);
      WalkIsWanted(files, ids[1..], if claimable then room - 1 else room, now, unwritable);
      var rest := ClaimableIds(files, ids[1..], now);
      if claimable {
        assert ClaimableIds(files, ids, now) == [ids[0]] + rest;
        assert ([ids[0]] + rest)[..Min(room, |rest| + 1)] == [ids[0]] + rest[..Min(room - 1, |rest|)];
      } else {
        assert ClaimableIds(files, ids, now) == rest;
      }
    }
  }

  lemma {:induction false} ClaimableAtMost(files: Files, ids: seq<Id>, now: int)
    ensures |ClaimableIds(files, ids, now)| <= |ids|
  {
    if ids != [] {
      ClaimableAtMost(files, ids[1..], now);
    }
  }

  /** A record in recovery under this owner until this time. */
  predicate HeldBy(s: Snapshot, owner: RuntimeId, until: int) {
    s.phase == PhaseRecovering && s.lease == Some(owner) && s.leaseUntil == until
  }

  lemma LeasedIsHeld(files: Files, claimed: seq<Id>, id: Id, owner: RuntimeId, until: int)
    requires id in claimed && id in files
    ensures id in LeaseAll(files, claimed, owner, until) && HeldBy(LeaseAll(files, claimed, owner, until)[id], owner, until)
  {
  }

  /** Listing order, and exactly the suspended records and those whose recovery
      lease has run out. */
  lemma {:induction false} ClaimableExactly(files: Files, ids: seq<Id>, now: int, id: Id)
    ensures id in ClaimableIds(files, ids, now) <==>
      id in ids && id in files
      && (files[id].phase == PhaseSuspended || (files[id].phase == PhaseRecovering && files[id].leaseUntil <= now))
  {
    if ids != [] {
      ClaimableExactly(files, ids[1..], now, id);
    }
  }

  class PersistentLog {
    var files: Files

    constructor (files: Files)
      ensures this.files == files
    {
      this.files := files;
    }

    method AppendLifecycleEvent(id: Id, owner: Option<RuntimeId>, event: LoggedEvent, now: int, writeOk: bool)
      returns (e: Option<LogError>)
      modifies this
      ensures (files, e) == Outcome(old(files), id, Append(owner, event), now, writeOk)
      ensures e.None? ==> id in old(files) && id in files && files == old(files)[id := files[id]]
      ensures e.None? ==> files[id].events == old(files)[id].events + [event] && |old(files)[id].events| == event.sequence
      ensures e.Some? ==> files == old(files)
    {
      if id !in files {
        return Some(SnapshotMissing);
      }
      var snapshot := files[id];
      if owner.None? {
        if (snapshot.phase != PhaseRunning && snapshot.phase != PhaseFinalizing) || snapshot.lease.Some? {
          return Some(OwnershipLost);
        }
      } else if (snapshot.phase != PhaseRecovering && snapshot.phase != PhaseFinalizing)
                || snapshot.lease != owner || snapshot.leaseUntil < now {
        return Some(LeaseLost);
      }
      if |snapshot.events| != event.sequence {
        return Some(SequenceMismatch);
      }
      snapshot := snapshot.(events := snapshot.events + [event]);
      if event.state.IsTerminal() {
        snapshot := snapshot.(phase := PhaseClosed, lease := None, leaseUntil := 0);
      }
      if !writeOk {
        return Some(WriteFailed);
      }
      files := files[id := snapshot];
      return None;
    }

    method CheckpointRecovery(id: Id, owner: Option<RuntimeId>, data: seq<int>, now: int, writeOk: bool)
      returns (e: Option<LogError>)
      modifies this
      ensures (files, e) == Outcome(old(files), id, Checkpoint(owner, data), now, writeOk)
      ensures e.None? ==> id in old(files) && files == old(files)[id := old(files)[id].(checkpoint := data)]
      ensures e.Some? ==> files == old(files)
    {
      if id !in files {
        return Some(SnapshotMissing);
      }
      var snapshot := files[id];
      if snapshot.phase == PhaseClosed {
        return Some(SnapshotClosed);
      }
      if owner.None? {
        if snapshot.phase != PhaseRunning || snapshot.lease.Some? {
          return Some(OwnershipLost);
        }
      } else if snapshot.phase != PhaseRecovering || snapshot.lease != owner || snapshot.leaseUntil < now {
        return Some(LeaseLost);
      }
      if !writeOk {
        return Some(WriteFailed);
      }
      files := files[id := snapshot.(checkpoint := data)];
      return None;
    }

    method BeginFinalization(id: Id, owner: RuntimeId, now: int, writeOk: bool) returns (e: Option<LogError>)
      modifies this
      ensures (files, e) == Outcome(old(files), id, Begin(owner), now, writeOk)
      ensures e.None? ==> id in old(files) && files == old(files)[id := old(files)[id].(phase := PhaseFinalizing)]
      ensures e.Some? ==> files == old(files)
    {
      if id !in files {
        return Some(SnapshotMissing);
      }
      var snapshot := files[id];
      match snapshot.phase {
        case PhaseRunning =>
          if snapshot.lease.Some? {
            return Some(OwnershipLost);
          }
        case PhaseRecovering | PhaseFinalizing =>
          if snapshot.lease.Some? && (snapshot.lease != Some(owner) || snapshot.leaseUntil < now) {
            return Some(LeaseLost);
          }
        case _ => return Some(InvalidPhase);
      }
      if !writeOk {
        return Some(WriteFailed);
      }
      files := files[id := snapshot.(phase := PhaseFinalizing)];
      return None;
    }

    method MarkRecoveryPhase(id: Id, phase: Phase, now: int, writeOk: bool) returns (e: Option<LogError>)
      modifies this
      ensures phase != PhaseFinalizing ==> (files, e) == Outcome(old(files), id, Mark(phase), now, writeOk)
      ensures phase == PhaseFinalizing ==> files == old(files) && e == Some(InvalidPhase)
      ensures e.None? ==> id in files && files[id].phase == phase && (phase != PhaseRecovering ==> files[id].lease.None?)
    {
      if phase == PhaseFinalizing {
        return Some(InvalidPhase);
      }
      if id !in files {
        return Some(SnapshotMissing);
      }
      var snapshot := files[id];
      if snapshot.phase == PhaseFinalizing && phase != PhaseClosed {
        return Some(FinalizationRequired);
      }
      snapshot := snapshot.(phase := phase);
      if phase != PhaseRecovering {
        snapshot := snapshot.(lease := None, leaseUntil := 0);
      }
      if !writeOk {
        return Some(WriteFailed);
      }
      files := files[id := snapshot];
      return None;
    }

    /** The new expiry is the lease after the time of the call, in milliseconds. */
    method RenewRecoveryLease(id: Id, owner: RuntimeId, leaseNs: int, nowNs: int, writeOk: bool) returns (e: Option<LogError>)
      modifies this
      ensures leaseNs <= 0 ==> files == old(files) && e == Some(LeaseDurationRequired)
      ensures leaseNs > 0 ==>
        (files, e) == Outcome(old(files), id, Renew(owner, (nowNs + leaseNs) / NANOS_PER_MILLI), nowNs / NANOS_PER_MILLI, writeOk)
      ensures e.None? ==>
        id in old(files) && files == old(files)[id := old(files)[id].(leaseUntil := (nowNs + leaseNs) / 1_000_000)]
    {
      if leaseNs <= 0 {
        return Some(LeaseDurationRequired);
      }
      if id !in files {
        return Some(SnapshotMissing);
      }
      var snapshot := files[id];
      if (snapshot.phase != PhaseRecovering && snapshot.phase != PhaseFinalizing) || snapshot.lease != Some(owner) {
        return Some(LeaseLost);
      }
      if !writeOk {
        return Some(WriteFailed);
      }
      files := files[id := snapshot.(leaseUntil := (nowNs + leaseNs) / NANOS_PER_MILLI)];
      return None;
    }

    /** The preflight pass over every listed record. */
    method CheckCandidates(ids: seq<Id>) returns (e: Option<LogError>)
      ensures e == Preflight(files, ids)
      ensures e.None? <==> forall i :: 0 <= i < |ids| ==> ids[i] in files && files[ids[i]].phase != PhaseFinalizing
    {
      for i := 0 to |ids|
        invariant Preflight(files, ids[..i]).None?
        invariant forall j :: 0 <= j < i ==> ids[j] in files && files[ids[j]].phase != PhaseFinalizing
      {
        PreflightSnoc(files, ids, i);
        if ids[i] !in files {
          return Some(SnapshotMissing);
        }
        if files[ids[i]].phase == PhaseFinalizing {
          return Some(FinalizationRequired);
        }
      }
      assert ids[..|ids|] == ids;
      return None;
    }

    /** ClaimRecovery over a listing of the directory. Nothing changes unless every
        listed record passes the preflight. Other writers may then act: `meanwhile`
        is what the locked pass finds in the directory, record by record. It leases
        what the walk grants and touches no other record; what was leased before an
        error stays leased. */
    method ClaimRecovery(
      owner: RuntimeId, leaseNs: int, limit: int, ids: seq<Id>, now: int, meanwhile: Files, unwritable: set<Id>)
      returns (r: Result<seq<Id>, LogError>)
      requires Distinct(ids)
      modifies this
      ensures leaseNs <= 0 ==> files == old(files) && r == Err(LeaseDurationRequired)
      ensures leaseNs > 0 && Preflight(old(files), ids).Some? ==>
        files == old(files) && r == Err(Preflight(old(files), ids).value)
      ensures leaseNs > 0 && Preflight(old(files), ids).None? ==>
        var walk := Walk(meanwhile, ids, Effective(limit, |ids|), now, unwritable);
        && files == LeaseAll(meanwhile, walk.0, owner, now + leaseNs / NANOS_PER_MILLI)
        && r == if walk.1.None? then Ok(walk.0) else Err(walk.1.value)
      ensures r.Ok? && limit > 0 ==> |r.value| <= limit
      ensures r.Ok? && (limit <= 0 || |r.value| < limit) ==> r.value == ClaimableIds(meanwhile, ids, now)
      ensures r.Ok? ==> forall id :: id in r.value ==> id in files && HeldBy(files[id], owner, now + leaseNs / 1_000_000)
    {
      if leaseNs <= 0 {
        return Err(LeaseDurationRequired);
      }
      var problem := CheckCandidates(ids);
      if problem.Some? {
        return Err(problem.value);
      }
      files := meanwhile;
      r := ClaimLocked(owner, now + leaseNs / NANOS_PER_MILLI, Effective(limit, |ids|), ids, now, unwritable);
      WalkIsWanted(meanwhile, ids, Effective(limit, |ids|), now, unwritable);
      ClaimableAtMost(meanwhile, ids, now);
      hide Walk, LeaseAll;
      if r.Ok? {
        forall id | id in r.value ensures id in files && HeldBy(files[id], owner, now + leaseNs / 1_000_000) {
          assert id in ClaimableIds(meanwhile, ids, now);
          ClaimableAmong(meanwhile, ids, now, id);
          LeasedIsHeld(meanwhile, r.value, id, owner, now + leaseNs / NANOS_PER_MILLI);
        }
      }
    }

    /** The loop that takes each record's lock in turn. */
    method ClaimLocked(owner: RuntimeId, until: int, bound: nat, ids: seq<Id>, now: int, unwritable: set<Id>)
      returns (r: Result<seq<Id>, LogError>)
      requires Distinct(ids)
      modifies this
      ensures
        var walk := Walk(old(files), ids, bound, now, unwritable);
        && files == LeaseAll(old(files), walk.0, owner, until)
        && r == if walk.1.None? then Ok(walk.0) else Err(walk.1.value)
    {
      hide LeaseAll;
      ghost var before, whole := files, Walk(files, ids, bound, now, unwritable);
      var claimed := [];
      NothingLeased(files, owner, until);
      assert ids[0..] == ids && [] + whole.0 == whole.0;
      var i := 0;
      while i < |ids| && |claimed| < bound
        invariant 0 <= i <= |ids| && |claimed| <= bound
        invariant forall c :: c in claimed ==> c in ids[..i]
        invariant claimed + Walk(before, ids[i..], bound - |claimed|, now, unwritable).0 == whole.0
        invariant Walk(before, ids[i..], bound - |claimed|, now, unwritable).1 == whole.1
        invariant files == LeaseAll(before, claimed, owner, until)
      {
        var id := ids[i];
        assert ids[i..][0] == id && ids[i..][1..] == ids[i + 1..] && ids[..i + 1] == ids[..i] + [id];
        assert id !in claimed;
        UnclaimedUnchanged(before, claimed, id, owner, until);
        if id !in files {
          assert claimed + [] == claimed;
          return Err(SnapshotMissing);
        }
        var snapshot := files[id];
        if snapshot.phase == PhaseFinalizing {
          assert claimed + [] == claimed;
          return Err(FinalizationRequired);
        }
        if snapshot.phase == PhaseSuspended || (snapshot.phase == PhaseRecovering && snapshot.leaseUntil <= now) {
          if id in unwritable {
            assert claimed + [] == claimed;
            return Err(WriteFailed);
          }
          LeaseOne(before, claimed, id, owner, until);
          files := files[id := snapshot.(phase := PhaseRecovering, lease := Some(owner), leaseUntil := until)];
          ghost var rest := Walk(before, ids[i + 1..], bound - |claimed| - 1, now, unwritable).0;
          assert claimed + ([id] + rest) == (claimed + [id]) + rest;
          claimed := claimed + [id];
        }
        i := i + 1;
      }
      assert claimed + [] == claimed;
      return Ok(claimed);
    }
  }

  lemma UnclaimedUnchanged(files: Files, claimed: seq<Id>, id: Id, owner: RuntimeId, until: int)
    requires id !in claimed
    ensures id in LeaseAll(files, claimed, owner, until) <==> id in files
    ensures id in files ==> LeaseAll(files, claimed, owner, until)[id] == files[id]
  {
  }

  lemma NothingLeased(files: Files, owner: RuntimeId, until: int)
    ensures files == LeaseAll(files, [], owner, until)
  {
  }

  lemma LeaseOne(files: Files, claimed: seq<Id>, id: Id, owner: RuntimeId, until: int)
    requires id in files && id !in claimed
    ensures LeaseAll(files, claimed, owner, until)[id := Leased(files[id], owner, until)]
         == LeaseAll(files, claimed + [id], owner, until)
  {
  }

  /** What a successful claim hands out: `limit` records or all claimable ones,
      each claimable before and leased to the caller now. */
  lemma ClaimGrants(files: Files, ids: seq<Id>, limit: nat, now: int, owner: RuntimeId, until: int, id: Id)
    requires id in files
    ensures
      var wanted := Wanted(files, ids, limit, now);
      var after := LeaseAll(files, wanted, owner, until);
      && |wanted| <= limit
      && (|wanted| < limit ==> wanted == ClaimableIds(files, ids, now))
      && (id in wanted ==> id in ids && ClaimableRecord(files[id], now) && after[id] == Leased(files[id], owner, until))
      && (id !in wanted ==> after[id] == files[id])
  {
    hide ClaimableIds;
    var wanted := Wanted(files, ids, limit, now);
    if id in wanted {
      assert id in ClaimableIds(files, ids, now);
      ClaimableAmong(files, ids, now, id);
    }
  }
}
