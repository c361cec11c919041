/** Runs of LocalRuntime that show where the theorems' conditions come from. */
module RuntimeWitnesses {
  import opened Wrappers
  import opened Lifecycle
  import opened RuntimeMachine
  import Reg = Registry
  import Log = RecoveryLog

  /** A core past its cleanup barrier, its terminal event still to come. */
  function AboutToEmit(c: Core): Core {
    c.(supervisor := IDLE_SUPERVISOR.(phase := SupClosed), flow := Ready)
  }

  lemma CleanUp(s: Runtime, i: Id) returns (s1: Runtime, s2: Runtime)
    requires i in s.cores && s.cores[i].flow.Cleaning? && s.cores[i].supervisor == IDLE_SUPERVISOR
    ensures Step(s, CleanupStart(i), s1) && Step(s1, CleanupPublish(i, true), s2)
    ensures s2 == Put(s, i, AboutToEmit(s.cores[i]))
  {
    var c := s.cores[i];
    s1 := Put(s, i, c.(supervisor := IDLE_SUPERVISOR.(phase := SupClosing)));
    s2 := Put(s, i, AboutToEmit(c));
    assert Cleanup(s, CleanupStart(i), s1);
    assert Cleanup(s1, CleanupPublish(i, true), s2);
  }

  lemma EmitEvent(s: Runtime, i: Id, durable: bool) returns (s': Runtime)
    requires i in s.cores && s.cores[i].flow.Ready? && s.cores[i].gate.claim != NoOwner
    requires s.cores[i].gate.state == Running && !s.cores[i].gate.finErr && !(s.cores[i].persisted && durable)
    ensures Step(s, EmitTerminal(i, durable, 0), s') && s' == Put(s, i, Concluded(s.cores[i], durable))
  {
    s' := Put(s, i, Concluded(s.cores[i], durable));
    assert Finalize(s, EmitTerminal(i, durable, 0), s');
  }

  // ---- Suspended and terminal: abandoned after the claim ----

  /** A run that leases a suspended record, resumes it, and takes its claim to
      the edge of its terminal receipt. */
  function ResumeActions(): seq<Action> {
    [ DiskStep(1, Log.Claim(0, 100), 0),
      ReserveResume(0, None, 1),
      Bind(0, 1),
      Register(0, START_JOURNAL),
      HandlerClaim(1, false),
      Seal(1, 0),
      CleanupStart(1),
      CleanupPublish(1, true),
      Abandon(1),
      EmitTerminal(1, false, 0) ]
  }

  /** Losing the lease between the claim and the receipt abandons the execution,
      but the claim goroutine still commits its terminal event. */
  lemma AbandonedMayStillFinish() returns (states: seq<Runtime>)
    ensures Run(states, ResumeActions())
    ensures 1 in states[10].cores
    ensures states[10].cores[1].suspended && states[10].cores[1].gate.state.IsTerminal()
  {
    var r0 := Log.Snapshot([], [], Log.PhaseSuspended, None, 0);
    var r1 := Log.Snapshot([], [], Log.PhaseRecovering, Some(0), 100);
    var s0 := Runtime(0, Reg.EMPTY, map[], {}, map[], map[], map[1 := r0]);
    var s1 := s0.(disk := s0.disk[1 := r1]);
    var s2 := s1.(registry := Reg.Reserved(s1.registry, 0, None),
                  attempts := s1.attempts[0 := Attempt(Resume(1), None)]);
    var s3 := s2.(bound := s2.bound + {1}, attempts := s2.attempts[0 := s2.attempts[0].(bound := Some(1))]);
    assert Step(s0, DiskStep(1, Log.Claim(0, 100), 0), s1);
    assert Step(s1, ReserveResume(0, None, 1), s2);
    assert Step(s2, Bind(0, 1), s3);
    var tail := ResumedMayStillFinish(s3);
    states := [s0, s1, s2] + tail;
  }

  lemma ClaimAndSeal(s: Runtime, c: Core) returns (s5: Runtime, s6: Runtime)
    requires 1 in s.cores && s.cores[1] == c && c == NewCore(None, Resume(1), START_JOURNAL)
    requires s.me == 0 && 1 in s.disk && s.disk[1] == Log.Snapshot([], [], Log.PhaseRecovering, Some(0), 100)
    ensures Step(s, HandlerClaim(1, false), s5) && Step(s5, Seal(1, 0), s6)
    ensures s6.cores == s.cores[1 := Claimed(c, Recovery, Cleaning)]
  {
    s5 := Put(s, 1, Claimed(c, Recovery, Sealing));
    s6 := Put(s5, 1, Claimed(c, Recovery, Cleaning))
    .(disk := s5.disk[1 := s5.disk[1].(phase := Log.PhaseFinalizing)]);
    assert Contend(s, HandlerClaim(1, false), s5);
    assert Finalize(s5, Seal(1, 0), s6);
  }

  lemma AbandonReady(s: Runtime, c: Core) returns (s9: Runtime)
    requires 1 in s.cores && s.cores[1] == AboutToEmit(c) && c.recovered && !c.suspended && !c.gate.state.IsTerminal()
    ensures Step(s, Abandon(1), s9) && s9.cores == s.cores[1 := AboutToEmit(c).(suspended := true, abandoned := true)]
  {
    s9 := Put(s, 1, AboutToEmit(c).(suspended := true, abandoned := true))
    .(registry := Reg.Deactivated(s.registry, 1));
    assert Relinquish(s, Abandon(1), s9);
  }

  lemma PublishResumed(s3: Runtime) returns (s4: Runtime)
    requires s3.attempts.Keys == {0} && s3.attempts[0] == Attempt(Resume(1), Some(1))
    requires 0 in s3.registry.unbound && s3.registry.unbound[0].None? && 1 in s3.disk
    ensures Step(s3, Register(0, START_JOURNAL), s4)
    ensures s4.me == s3.me && s4.disk == s3.disk
    ensures 1 in s4.cores && s4.cores[1] == NewCore(None, Resume(1), START_JOURNAL)
    ensures s4.cores[1].supervisor == IDLE_SUPERVISOR
  {
    s4 := AfterRegister(s3, 0, START_JOURNAL);
    assert Dispatch(s3, Register(0, START_JOURNAL), s4);
  }

  lemma ResumedMayStillFinish(s3: Runtime) returns (states: seq<Runtime>)
    requires s3.attempts.Keys == {0} && s3.attempts[0] == Attempt(Resume(1), Some(1))
    requires 0 in s3.registry.unbound && s3.registry.unbound[0].None? && s3.me == 0
    requires 1 in s3.disk && s3.disk[1] == Log.Snapshot([], [], Log.PhaseRecovering, Some(0), 100)
    ensures |states| == 8 && states[0] == s3
    ensures forall k :: 0 <= k < 7 ==> Step(states[k], ResumeActions()[k + 3], states[k + 1])
    ensures 1 in states[7].cores
    ensures states[7].cores[1].suspended && states[7].cores[1].gate.state.IsTerminal()
  {
    hide Step;
    var c := NewCore(None, Resume(1), START_JOURNAL);
    var s4 := PublishResumed(s3);
    var s5, s6 := ClaimAndSeal(s4, c);
    var s7, s8 := CleanUp(s6, 1);
    var s9 := AbandonReady(s8, Claimed(c, Recovery, Cleaning));
    var s10 := EmitEvent(s9, 1, false);
    states := [s3, s4, s5, s6, s7, s8, s9, s10];
  }

  // ---- Suspended and terminal: abandoned before any claim ----

  /** The lease is lost while nobody holds the claim; then the deadline fires. */
  function AbandonFirstActions(): seq<Action> {
    [ DiskStep(1, Log.Claim(0, 100), 0),
      ReserveResume(0, None, 1),
      Bind(0, 1),
      Register(0, START_JOURNAL),
      Abandon(1),
      DeadlineClaim(1),
      ChildrenDone(1),
      Seal(1, 0),
      CleanupStart(1),
      CleanupPublish(1, true),
      EmitTerminal(1, false, 0) ]
  }

  /** Leased, reserved, bound and registered: invocation 1 is resumed. */
  lemma ResumeFour() returns (states: seq<Runtime>)
    ensures |states| == 5 && Init(states[0])
    ensures forall k :: 0 <= k < 4 ==> Step(states[k], AbandonFirstActions()[k], states[k + 1])
    ensures var s := states[4];
            && 1 in s.cores && s.cores[1] == NewCore(None, Resume(1), START_JOURNAL) && s.children == map[] && s.me == 0
            && 1 in s.disk && s.disk[1] == Log.Snapshot([], [], Log.PhaseRecovering, Some(0), 100)
  {
    var r0 := Log.Snapshot([], [], Log.PhaseSuspended, None, 0);
    var r1 := Log.Snapshot([], [], Log.PhaseRecovering, Some(0), 100);
    var s0 := Runtime(0, Reg.EMPTY, map[], {}, map[], map[], map[1 := r0]);
    var s1 := s0.(disk := s0.disk[1 := r1]);
    var s2 := s1.(registry := Reg.Reserved(s1.registry, 0, None),
                  attempts := s1.attempts[0 := Attempt(Resume(1), None)]);
    var s3 := s2.(bound := s2.bound + {1}, attempts := s2.attempts[0 := s2.attempts[0].(bound := Some(1))]);
    assert Step(s0, DiskStep(1, Log.Claim(0, 100), 0), s1);
    assert Step(s1, ReserveResume(0, None, 1), s2);
    assert Step(s2, Bind(0, 1), s3);
    var s4 := AfterRegister(s3, 0, START_JOURNAL);
    assert Step(s3, Register(0, START_JOURNAL), s4);
    states := [s0, s1, s2, s3, s4];
  }

  function AbandonedCore(): Core {
    NewCore(None, Resume(1), START_JOURNAL).(suspended := true, abandoned := true)
  }

  lemma AbandonAndTimeOut(s: Runtime) returns (s5: Runtime, s6: Runtime, s7: Runtime)
    requires 1 in s.cores && s.cores[1] == NewCore(None, Resume(1), START_JOURNAL) && s.children == map[]
    ensures Step(s, Abandon(1), s5) && Step(s5, DeadlineClaim(1), s6) && Step(s6, ChildrenDone(1), s7)
    ensures 1 in s5.cores && s5.cores[1].suspended && s5.cores[1].gate.claim == NoOwner
    ensures s7.cores == s.cores[1 := Claimed(AbandonedCore(), Deadline, Sealing)] && s7.disk == s.disk && s7.me == s.me
  {
    s5 := Put(s, 1, AbandonedCore()).(registry := Reg.Deactivated(s.registry, 1));
    s6 := Put(s5, 1, Claimed(AbandonedCore(), Deadline, AwaitChildren({})));
    s7 := Put(s6, 1, Claimed(AbandonedCore(), Deadline, Sealing));
    assert Relinquish(s, Abandon(1), s5);
    assert Contend(s5, DeadlineClaim(1), s6);
    assert Progressed(s6, ChildrenDone(1), s7);
  }

  lemma SealAbandoned(s: Runtime) returns (s8: Runtime)
    requires 1 in s.cores && s.cores[1] == Claimed(AbandonedCore(), Deadline, Sealing) && s.me == 0
    requires 1 in s.disk && s.disk[1] == Log.Snapshot([], [], Log.PhaseRecovering, Some(0), 100)
    ensures Step(s, Seal(1, 0), s8) && s8.cores == s.cores[1 := Claimed(AbandonedCore(), Deadline, Cleaning)]
  {
    s8 := Put(s, 1, Claimed(AbandonedCore(), Deadline, Cleaning))
    .(disk := s.disk[1 := s.disk[1].(phase := Log.PhaseFinalizing)]);
    assert Finalize(s, Seal(1, 0), s8);
  }

  /** Abandoned while unclaimed, and terminal all the same. */
  lemma AbandonedFirstMayStillFinish() returns (states: seq<Runtime>)
    ensures Run(states, AbandonFirstActions())
    ensures 1 in states[5].cores && states[5].cores[1].suspended && states[5].cores[1].gate.claim == NoOwner
    ensures 1 in states[11].cores && states[11].cores[1].suspended && states[11].cores[1].gate.state.IsTerminal()
  {
    hide Step, Init;
    var first := ResumeFour();
    var s5, s6, s7 := AbandonAndTimeOut(first[4]);
    var s8 := SealAbandoned(s7);
    var s9, s10 := CleanUp(s8, 1);
    var s11 := EmitEvent(s10, 1, false);
    states := first + [s5, s6, s7, s8, s9, s10, s11];
    assert states[4] == first[4] && forall k :: 0 <= k < 4 ==> states[k] == first[k];
  }

  // ---- A parent that does not wait ----

  /** A parent whose handler returns or fails while its child is running. */
  function OutlivedActions(failed: bool): seq<Action> {
    [ Reserve(0, None, false), Bind(0, 1), Register(0, []),
      Reserve(1, Some(1), false), Bind(1, 2), Register(1, []), SpawnCommit(2, true),
      HandlerClaim(1, failed), Seal(1, 0), CleanupStart(1), CleanupPublish(1, true), EmitTerminal(1, true, 0) ]
  }

  function Parent(): Core {
    NewCore(None, Fresh(false), [])
  }

  function Child(): Core {
    NewCore(Some(1), Fresh(false), [])
  }

  lemma RegisterParent() returns (states: seq<Runtime>)
    ensures |states| == 4 && Init(states[0])
    ensures forall k :: 0 <= k < 3 ==> Step(states[k], OutlivedActions(false)[k], states[k + 1])
    ensures var s := states[3];
            && s.cores == map[1 := Parent()] && s.bound == {1} && s.attempts == map[] && s.disk == map[]
            && s.registry.activeCount == 1 && s.registry.unbound == map[] && s.registry.activeChildren == map[]
  {
    var s0 := Runtime(0, Reg.EMPTY, map[], {}, map[], map[], map[]);
    var s1 := s0.(registry := Reg.Reserved(s0.registry, 0, None), attempts := map[0 := Attempt(Fresh(false), None)]);
    var s2 := s1.(bound := {1}, attempts := map[0 := Attempt(Fresh(false), Some(1))]);
    assert Step(s0, Reserve(0, None, false), s1);
    assert Step(s1, Bind(0, 1), s2);
    var s3 := AfterRegister(s2, 0, []);
    assert Step(s2, Register(0, []), s3);
    assert s3.attempts == map[] && s3.registry.unbound == map[];
    states := [s0, s1, s2, s3];
  }

  lemma RegisterChild(s: Runtime) returns (s4: Runtime, s5: Runtime, s6: Runtime)
    requires s.cores == map[1 := Parent()] && s.bound == {1} && s.attempts == map[] && s.disk == map[]
    requires s.registry.activeCount == 1 && s.registry.unbound == map[] && s.registry.activeChildren == map[]
    ensures Step(s, Reserve(1, Some(1), false), s4) && Step(s4, Bind(1, 2), s5) && Step(s5, Register(1, []), s6)
    ensures s6.cores == map[1 := Parent(), 2 := Child()] && s6.disk == map[]
  {
    s4 := s.(registry := Reg.Reserved(s.registry, 1, Some(1)), attempts := map[1 := Attempt(Fresh(false), None)]);
    s5 := s4.(bound := {1, 2}, attempts := map[1 := Attempt(Fresh(false), Some(2))]);
    assert Step(s, Reserve(1, Some(1), false), s4);
    assert Step(s4, Bind(1, 2), s5);
    s6 := AfterRegister(s5, 1, []);
    assert Step(s5, Register(1, []), s6);
  }

  function SpawnedParent(): Core {
    Write(Parent(), ChildSpawned, Some(2))
  }

  function Ending(failed: bool, flow: Flow): Core {
    Claimed(SpawnedParent(), if failed then Failure else Completion, flow)
  }

  lemma SpawnChild(s: Runtime) returns (s7: Runtime)
    requires s.cores == map[1 := Parent(), 2 := Child()]
    ensures Step(s, SpawnCommit(2, true), s7) && s7.disk == s.disk && 1 in s7.cores && s7.cores[1] == SpawnedParent()
  {
    s7 := s.(cores := AfterSpawn(s.cores, 2, true));
    assert Spawn(s, SpawnCommit(2, true), s7);
  }

  lemma ReturnFromHandler(s: Runtime, failed: bool) returns (s8: Runtime, s9: Runtime)
    requires 1 in s.cores && s.cores[1] == SpawnedParent()
    ensures Step(s, HandlerClaim(1, failed), s8) && Step(s8, Seal(1, 0), s9)
    ensures 1 in s9.cores && s9.cores[1] == Ending(failed, Cleaning)
  {
    s8 := Put(s, 1, Ending(failed, Sealing));
    s9 := Put(s8, 1, Ending(failed, Cleaning));
    assert Contend(s, HandlerClaim(1, failed), s8);
    assert Finalize(s8, Seal(1, 0), s9);
  }

  lemma ChildNeverMentionedAgain(last: Kind)
    requires last == CompletedEvent || last == FailedEvent
    ensures
      var journal := SpawnedParent().journal + [Entry(last, None)];
      Entry(ChildSpawned, Some(2)) in journal && Entry(ChildTerminal, Some(2)) !in journal
  {
    var journal := SpawnedParent().journal + [Entry(last, None)];
    assert journal[4] == Entry(ChildSpawned, Some(2));
  }

  lemma ConcludeParent(s: Runtime, failed: bool) returns (s10: Runtime, s11: Runtime, s12: Runtime)
    requires 1 in s.cores && s.cores[1] == Ending(failed, Cleaning)
    ensures Step(s, CleanupStart(1), s10) && Step(s10, CleanupPublish(1, true), s11) && Step(s11, EmitTerminal(1, true, 0), s12)
    ensures 1 in s12.cores && s12.cores[1].gate.state == (if failed then Failed else Completed)
    ensures s12.cores[1].journal == SpawnedParent().journal + [Entry(if failed then FailedEvent else CompletedEvent, None)]
  {
    s10, s11 := CleanUp(s, 1);
    s12 := EmitEvent(s11, 1, true);
    hide Step;
  }

  /** Completed and failed parents do not wait: their chains can end with a
      child_spawned that no child_terminal answers. */
  lemma ParentMayOutliveChild(failed: bool) returns (states: seq<Runtime>)
    ensures Run(states, OutlivedActions(failed))
    ensures 1 in states[12].cores && states[12].cores[1].gate.state == (if failed then Failed else Completed)
    ensures Entry(ChildSpawned, Some(2)) in states[12].cores[1].journal
    ensures Entry(ChildTerminal, Some(2)) !in states[12].cores[1].journal
  {
    hide Step, Init, NewCore, Claimed, Ending, SpawnedParent, Parent, Child;
    var first := RegisterParent();
    var s4, s5, s6 := RegisterChild(first[3]);
    var s7 := SpawnChild(s6);
    var s8, s9 := ReturnFromHandler(s7, failed);
    var s10, s11, s12 := ConcludeParent(s9, failed);
    states := first + [s4, s5, s6, s7, s8, s9, s10, s11, s12];
    assert states[3] == first[3] && forall k :: 0 <= k < 3 ==> states[k] == first[k];
    assert forall k :: 0 <= k < 3 ==> OutlivedActions(failed)[k] == OutlivedActions(false)[k];
    ChildNeverMentionedAgain(if failed then FailedEvent else CompletedEvent);
  }
}
