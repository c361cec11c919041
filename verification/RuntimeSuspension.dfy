/** When an invocation can still become terminal in the same runtime
    (axon/invocation/local_runtime.go). The hard case are suspended ones:
    abandonRecoveredExecution sets the flag without looking at the claim, and
    neither the deadline nor a cancel looks at the flag. */
module RuntimeSuspension {
  import opened Lifecycle
  import opened RuntimeMachine
  import opened RuntimeInvariant
  import opened RuntimeProofs
  import opened RuntimeWaiting
  import Reg = Registry
  import Log = RecoveryLog

  // ---- Continuations ----

  /** Steps from any state, none of them before time `now`. */
  ghost predicate Path(states: seq<Runtime>, actions: seq<Action>, now: int) {
    && |states| == |actions| + 1
    && forall k :: 0 <= k < |actions| ==> Step(states[k], actions[k], states[k + 1]) && Timely(states[k], actions[k], now)
  }

  ghost predicate Reaches(s: Runtime, end: Runtime, now: int) {
    exists states, actions :: Path(states, actions, now) && states[0] == s && states[|states| - 1] == end
  }

  predicate TerminalIn(s: Runtime, i: Id) {
    i in s.cores && s.cores[i].gate.state.IsTerminal()
  }

  /** Some continuation from time `now` on makes invocation i terminal. */
  ghost predicate CanFinish(s: Runtime, i: Id, now: int) {
    exists end :: Reaches(s, end, now) && TerminalIn(end, i)
  }

  lemma ReachesSelf(s: Runtime, now: int)
    ensures Reaches(s, s, now)
  {
    assert Path([s], [], now);
  }

  lemma ReachesBack(s: Runtime, a: Action, s': Runtime, end: Runtime, now: int)
    requires Step(s, a, s') && Timely(s, a, now) && Reaches(s', end, now)
    ensures Reaches(s, end, now)
  {
    hide Step, Timely;
    var states, actions :| Path(states, actions, now) && states[0] == s' && states[|states| - 1] == end;
    var longer, steps := [s] + states, [a] + actions;
    forall k | 0 <= k < |steps| ensures Step(longer[k], steps[k], longer[k + 1]) && Timely(longer[k], steps[k], now) {
      if k > 0 {
        assert steps[k] == actions[k - 1] && longer[k] == states[k - 1] && longer[k + 1] == states[k];
      }
    }
    assert Path(longer, steps, now) && longer[|longer| - 1] == end;
  }

  lemma {:induction false} PathReaches(states: seq<Runtime>, actions: seq<Action>, k: nat, end: Runtime, now: int)
    requires Path(states, actions, now) && k < |states| && Reaches(states[k], end, now)
    ensures Reaches(states[0], end, now)
  {
    hide Step, Timely, Reaches;
    if k > 0 {
      ReachesBack(states[k - 1], actions[k - 1], states[k], end, now);
      PathReaches(states, actions, k - 1, end, now);
    }
  }

  lemma ReachesOn(s: Runtime, middle: Runtime, end: Runtime, now: int)
    requires Reaches(s, middle, now) && Reaches(middle, end, now)
    ensures Reaches(s, end, now)
  {
    var states, actions :| Path(states, actions, now) && states[0] == s && states[|states| - 1] == middle;
    hide Path, Reaches;
    PathShape(states, actions, now);
    PathReaches(states, actions, |states| - 1, end, now);
  }

  lemma PathShape(states: seq<Runtime>, actions: seq<Action>, now: int)
    requires Path(states, actions, now)
    ensures |states| > 0
  {
  }

  ghost predicate Sound(s: Runtime) {
    Inv(s) && Tree(s)
  }

  lemma SoundStep(s: Runtime, a: Action, s': Runtime)
    requires Sound(s) && Step(s, a, s')
    ensures Sound(s')
  {
    hide Inv, Tree, Step;
    StepPreserves(s, a, s');
    StepKeepsTree(s, a, s');
  }

  lemma {:induction false} PathKeeps(states: seq<Runtime>, actions: seq<Action>, k: nat, i: Id, now: int)
    requires Path(states, actions, now) && k < |states| && Sound(states[0])
    ensures Sound(states[k]) && (Obstructed(states[0], i, now) ==> Obstructed(states[k], i, now))
  {
    hide Step, Timely, Sound, Obstructed;
    if k > 0 {
      PathKeeps(states, actions, k - 1, i, now);
      SoundStep(states[k - 1], actions[k - 1], states[k]);
      SoundIsInv(states[k - 1]);
      if Obstructed(states[0], i, now) {
        StepKeepsObstructed(states[k - 1], actions[k - 1], states[k], i, now);
      }
    }
  }

  lemma SoundIsInv(s: Runtime)
    requires Sound(s)
    ensures Inv(s)
  {
  }

  lemma SoundCore(s: Runtime, i: Id)
    requires Sound(s) && i in s.cores
    ensures CoreOk(s.cores[i])
  {
    hide CoreOk, Tree, AttemptsOk, SlotsOk, DiskOk, FamilyInv, Reg.Conserved;
  }

  lemma ReachedIsSound(s: Runtime, end: Runtime, i: Id, now: int)
    requires Sound(s) && Reaches(s, end, now)
    ensures Sound(end) && (Obstructed(s, i, now) ==> Obstructed(end, i, now))
  {
    var states, actions :| Path(states, actions, now) && states[0] == s && states[|states| - 1] == end;
    hide Step, Sound, Obstructed;
    PathKeeps(states, actions, |states| - 1, i, now);
  }

  // ---- Necessity ----

  lemma TerminalIsFree(s: Runtime, i: Id, now: int)
    requires Sound(s) && TerminalIn(s, i)
    ensures !Obstructed(s, i, now)
  {
    SoundCore(s, i);
    hide Sound;
    ObstructedCases(s, i, now);
  }

  lemma FinishingIsUnobstructed(s: Runtime, i: Id, now: int)
    requires Sound(s) && CanFinish(s, i, now)
    ensures !Obstructed(s, i, now)
  {
    hide Sound, Obstructed, Reaches, TerminalIn;
    var end :| Reaches(s, end, now) && TerminalIn(end, i);
    ReachedIsSound(s, end, i, now);
    TerminalIsFree(end, i, now);
  }

  // ---- One invocation runs to its end ----

  /** Nothing happened to other invocations but entries in their chains. */
  ghost predicate Elsewhere(s: Runtime, s': Runtime, i: Id) {
    && s'.me == s.me && SameIds(s, s')
    && (forall k :: k in s.cores && k != i ==> s'.cores[k] == s.cores[k].(journal := s'.cores[k].journal))
    && (forall k :: k in s.disk && k != i ==> k in s'.disk && s'.disk[k] == s.disk[k])
    && s'.disk.Keys == s.disk.Keys
  }

  /** Invocation i, and only it, has run to the end. */
  ghost predicate Ends(s: Runtime, i: Id, end: Runtime, now: int) {
    Reaches(s, end, now) && Elsewhere(s, end, i) && i in end.cores && end.cores[i].flow.Finished?
  }

  lemma ElsewhereOn(s: Runtime, middle: Runtime, end: Runtime, i: Id)
    requires Elsewhere(s, middle, i) && Elsewhere(middle, end, i)
    ensures Elsewhere(s, end, i)
  {
    forall k | k in s.cores && k != i ensures end.cores[k] == s.cores[k].(journal := end.cores[k].journal) {
      assert middle.cores[k] == s.cores[k].(journal := middle.cores[k].journal);
    }
  }

  lemma EndsBack(s: Runtime, a: Action, s': Runtime, i: Id, end: Runtime, now: int)
    requires Step(s, a, s') && Timely(s, a, now) && Elsewhere(s, s', i) && Ends(s', i, end, now)
    ensures Ends(s, i, end, now)
  {
    hide Step, Timely, Elsewhere, Reaches;
    ReachesBack(s, a, s', end, now);
    ElsewhereOn(s, s', end, i);
  }

  lemma PutElsewhere(s: Runtime, i: Id, c': Core)
    requires i in s.cores
    ensures Elsewhere(s, Put(s, i, c'), i)
  {
  }

  lemma NotifiedEnds(s: Runtime, i: Id, now: int) returns (end: Runtime)
    requires i in s.cores && s.cores[i].flow.Notified?
    ensures Ends(s, i, end, now)
  {
    var c := s.cores[i];
    end := Put(s, i, c.(flow := Finished(c.flow.durable), closes := c.closes + 1));
    assert Progressed(s, CloseTerminal(i), end);
    PutElsewhere(s, i, end.cores[i]);
    hide Elsewhere;
    ReachesSelf(end, now);
    ReachesBack(s, CloseTerminal(i), end, end, now);
  }

  lemma NotifyElsewhere(cores: Cores, i: Id, k: Id)
    requires i in cores && cores[i].flow.Released? && k in cores
    ensures AfterNotify(cores, i).Keys == cores.Keys && AfterNotify(cores, i)[i].flow.Notified?
    ensures k != i ==> AfterNotify(cores, i)[k] == cores[k].(journal := AfterNotify(cores, i)[k].journal)
  {
  }

  lemma NotifySteps(s: Runtime, i: Id, s': Runtime)
    requires i in s.cores && s.cores[i].flow.Released? && s' == s.(cores := AfterNotify(s.cores, i))
    ensures Step(s, Notify(i), s') && Elsewhere(s, s', i) && i in s'.cores && s'.cores[i].flow.Notified?
  {
    hide AfterNotify;
    assert Finalize(s, Notify(i), s');
    forall k | k in s.cores
      ensures s'.cores.Keys == s.cores.Keys && s'.cores[i].flow.Notified?
      ensures k != i ==> s'.cores[k] == s.cores[k].(journal := s'.cores[k].journal)
    {
      NotifyElsewhere(s.cores, i, k);
    }
  }

  lemma ReleasedEnds(s: Runtime, i: Id, now: int) returns (end: Runtime)
    requires i in s.cores && s.cores[i].flow.Released?
    ensures Ends(s, i, end, now)
  {
    var s' := s.(cores := AfterNotify(s.cores, i));
    NotifySteps(s, i, s');
    hide Elsewhere, Ends, Step, AfterNotify;
    end := NotifiedEnds(s', i, now);
    EndsBack(s, Notify(i), s', i, end, now);
  }

  lemma EmittedEnds(s: Runtime, i: Id, now: int) returns (end: Runtime)
    requires i in s.cores && s.cores[i].flow.Emitted?
    ensures Ends(s, i, end, now)
  {
    var s' := Put(s, i, s.cores[i].(flow := Released(s.cores[i].flow.durable)))
    .(registry := Reg.Deactivated(s.registry, i));
    assert Finalize(s, Release(i), s');
    assert Elsewhere(s, s', i);
    hide Elsewhere, Ends;
    end := ReleasedEnds(s', i, now);
    EndsBack(s, Release(i), s', i, end, now);
  }

  /** The claim is taken and the chain still open. */
  predicate Claiming(c: Core) {
    c.gate.state == Running && !c.gate.finErr && c.gate.claim != NoOwner
  }

  lemma ReadyEnds(s: Runtime, i: Id, now: int) returns (end: Runtime)
    requires i in s.cores && s.cores[i].flow.Ready? && Claiming(s.cores[i])
    ensures Ends(s, i, end, now)
  {
    var s' := Put(s, i, Concluded(s.cores[i], false));
    assert Finalize(s, EmitTerminal(i, false, 0), s');
    PutElsewhere(s, i, s'.cores[i]);
    hide Elsewhere, Ends;
    end := EmittedEnds(s', i, now);
    EndsBack(s, EmitTerminal(i, false, 0), s', i, end, now);
  }

  /** Cleaning under a supervisor in the given phase. */
  predicate CleaningIn(s: Runtime, i: Id, phase: SupervisorPhase) {
    i in s.cores && s.cores[i].flow.Cleaning? && Claiming(s.cores[i]) && s.cores[i].supervisor.phase == phase
  }

  lemma DrainedEnds(s: Runtime, i: Id, now: int) returns (end: Runtime)
    requires CleaningIn(s, i, SupClosing) && s.cores[i].supervisor.queued == 0 && s.cores[i].supervisor.running == 0
    ensures Ends(s, i, end, now)
  {
    var c := s.cores[i];
    var s' := Put(s, i, c.(supervisor := c.supervisor.(phase := SupClosed), flow := Ready));
    assert Cleanup(s, CleanupPublish(i, true), s');
    PutElsewhere(s, i, s'.cores[i]);
    hide Elsewhere, Ends;
    end := ReadyEnds(s', i, now);
    EndsBack(s, CleanupPublish(i, true), s', i, end, now);
  }

  function Supervised(s: Runtime, i: Id, v: Supervisor): Runtime
    requires i in s.cores
  {
    Put(s, i, s.cores[i].(supervisor := v))
  }

  lemma LastBatchEnds(s: Runtime, i: Id, now: int) returns (end: Runtime)
    requires CleaningIn(s, i, SupClosing) && s.cores[i].supervisor.queued == 0
    ensures Ends(s, i, end, now)
  {
    var v := s.cores[i].supervisor;
    var s' := Supervised(s, i, v.(ran := v.ran + v.running, running := 0));
    assert Cleanup(s, CleanupRan(i), s');
    PutElsewhere(s, i, s'.cores[i]);
    hide Elsewhere, Ends;
    end := DrainedEnds(s', i, now);
    EndsBack(s, CleanupRan(i), s', i, end, now);
  }

  lemma QueueEnds(s: Runtime, i: Id, now: int) returns (end: Runtime)
    requires CleaningIn(s, i, SupClosing) && s.cores[i].supervisor.running == 0
    ensures Ends(s, i, end, now)
  {
    var v := s.cores[i].supervisor;
    var s' := Supervised(s, i, v.(running := v.queued, queued := 0));
    assert Cleanup(s, CleanupDrain(i), s');
    PutElsewhere(s, i, s'.cores[i]);
    hide Elsewhere, Ends;
    end := LastBatchEnds(s', i, now);
    EndsBack(s, CleanupDrain(i), s', i, end, now);
  }

  lemma ClosingEnds(s: Runtime, i: Id, now: int) returns (end: Runtime)
    requires CleaningIn(s, i, SupClosing)
    ensures Ends(s, i, end, now)
  {
    var v := s.cores[i].supervisor;
    var s' := Supervised(s, i, v.(ran := v.ran + v.running, running := 0));
    assert Cleanup(s, CleanupRan(i), s');
    PutElsewhere(s, i, s'.cores[i]);
    hide Elsewhere, Ends;
    end := QueueEnds(s', i, now);
    EndsBack(s, CleanupRan(i), s', i, end, now);
  }

  lemma CleaningEnds(s: Runtime, i: Id, now: int) returns (end: Runtime)
    requires CleaningIn(s, i, SupActive) || CleaningIn(s, i, SupClosing)
    ensures Ends(s, i, end, now)
  {
    if s.cores[i].supervisor.phase == SupClosing {
      end := ClosingEnds(s, i, now);
    } else {
      var s' := Supervised(s, i, s.cores[i].supervisor.(phase := SupClosing));
      assert Cleanup(s, CleanupStart(i), s');
      PutElsewhere(s, i, s'.cores[i]);
      hide Elsewhere, Ends;
      end := ClosingEnds(s', i, now);
      EndsBack(s, CleanupStart(i), s', i, end, now);
    }
  }

  /** Claimed, with the supervisor untouched and the record still to be sealed. */
  predicate BeforeSeal(s: Runtime, i: Id, now: int) {
    i in s.cores && Claiming(s.cores[i]) && s.cores[i].supervisor.phase == SupActive && CanSeal(s, i, now)
  }

  /** The lease, if there is one, is live. */
  predicate Live(s: Runtime, i: Id, now: int)
    requires i in s.cores
  {
    s.cores[i].persisted ==> i in s.disk && Sealable(s.disk[i], s.me, false, now)
  }

  lemma SealSteps(s: Runtime, i: Id, now: int) returns (s': Runtime)
    requires BeforeSeal(s, i, now) && s.cores[i].flow.Sealing? && Live(s, i, now)
    ensures Step(s, Seal(i, now), s') && s' == Put(s, i, s.cores[i].(flow := Cleaning)).(disk := s'.disk)
    ensures Elsewhere(s, s', i)
  {
    var disk := s.disk;
    if s.cores[i].persisted {
      SealableMeansBegin(s.disk[i], s.me, now, now);
      disk := s.disk[i := Log.ApplyBegin(s.disk[i], s.me, now).value];
    }
    hide Sealable, Log.ApplyBegin;
    s' := Put(s, i, s.cores[i].(flow := Cleaning)).(disk := disk);
    assert Finalize(s, Seal(i, now), s');
  }

  lemma LiveSealingEnds(s: Runtime, i: Id, now: int) returns (end: Runtime)
    requires BeforeSeal(s, i, now) && s.cores[i].flow.Sealing? && Live(s, i, now)
    ensures Ends(s, i, end, now)
  {
    hide Elsewhere, Ends, Step, Sealable;
    var s' := SealSteps(s, i, now);
    end := CleaningEnds(s', i, now);
    EndsBack(s, Seal(i, now), s', i, end, now);
  }

  /** The renewing goroutine revives a lapsed lease. */
  lemma RenewSteps(s: Runtime, i: Id, now: int) returns (s': Runtime)
    requires BeforeSeal(s, i, now) && s.cores[i].persisted && !Live(s, i, now)
    ensures Step(s, DiskStep(i, Log.Renew(s.me, now), now), s') && Elsewhere(s, s', i)
    ensures !s.cores[i].suspended && s' == s.(disk := s'.disk)
    ensures i in s'.disk && Sealable(s'.disk[i], s.me, false, now) && Sealable(s'.disk[i], s.me, true, now)
  {
    s' := s.(disk := s.disk[i := Log.ApplyRenew(s.disk[i], s.me, now).value]);
    assert Relinquish(s, DiskStep(i, Log.Renew(s.me, now), now), s');
  }

  lemma SealingEnds(s: Runtime, i: Id, now: int) returns (end: Runtime)
    requires BeforeSeal(s, i, now) && s.cores[i].flow.Sealing?
    ensures Ends(s, i, end, now)
  {
    hide Elsewhere, Ends, Step, Sealable;
    if Live(s, i, now) {
      end := LiveSealingEnds(s, i, now);
    } else {
      var s' := RenewSteps(s, i, now);
      end := LiveSealingEnds(s', i, now);
      EndsBack(s, DiskStep(i, Log.Renew(s.me, now), now), s', i, end, now);
    }
  }

  /** Every one of them has closed its terminal channel without an error. */
  ghost predicate AllFinished(s: Runtime, ids: set<Id>) {
    forall c :: c in ids ==> c in s.cores && CoreOk(s.cores[c]) && s.cores[c].flow.Finished?
  }

  lemma FinishedIsStopped(owner: Owner, c: Core)
    requires CoreOk(c) && c.flow.Finished?
    ensures ChildStopped(owner, c)
  {
  }

  lemma ConfirmSteps(s: Runtime, i: Id, child: Id, s': Runtime)
    requires i in s.cores && s.cores[i].flow.AwaitChildren? && child in s.cores[i].flow.todo && child in s.cores
    requires ChildStopped(s.cores[i].gate.claim, s.cores[child])
    requires s' == Put(s, i, s.cores[i].(flow := AwaitChildren(s.cores[i].flow.todo - {child})))
    ensures Step(s, ChildConfirmed(i, child), s')
  {
    assert Finalize(s, ChildConfirmed(i, child), s');
  }

  lemma ChildrenDoneSteps(s: Runtime, i: Id, s': Runtime)
    requires i in s.cores && s.cores[i].flow == AwaitChildren({}) && s' == Put(s, i, s.cores[i].(flow := Sealing))
    ensures Step(s, ChildrenDone(i), s')
  {
    assert Progressed(s, ChildrenDone(i), s');
  }

  lemma NobodyLeftEnds(s: Runtime, i: Id, now: int) returns (end: Runtime)
    requires BeforeSeal(s, i, now) && s.cores[i].flow == AwaitChildren({})
    ensures Ends(s, i, end, now)
  {
    hide Sealable, Step, Elsewhere, Ends;
    var s' := Put(s, i, s.cores[i].(flow := Sealing));
    end := SealingEnds(s', i, now);
    ChildrenDoneSteps(s, i, s');
    PutElsewhere(s, i, s'.cores[i]);
    EndsBack(s, ChildrenDone(i), s', i, end, now);
  }

  lemma {:induction false} AwaitingEnds(s: Runtime, i: Id, now: int) returns (end: Runtime)
    requires BeforeSeal(s, i, now) && s.cores[i].flow.AwaitChildren? && AllFinished(s, s.cores[i].flow.todo)
    ensures Ends(s, i, end, now)
    decreases s.cores[i].flow.todo
  {
    hide Sealable, Step, Elsewhere, Ends, CoreOk, ChildStopped;
    var c := s.cores[i];
    if c.flow.todo == {} {
      end := NobodyLeftEnds(s, i, now);
    } else {
      var child :| child in c.flow.todo;
      var s' := Put(s, i, c.(flow := AwaitChildren(c.flow.todo - {child})));
      assert AllFinished(s', c.flow.todo - {child});
      end := AwaitingEnds(s', i, now);
      FinishedIsStopped(c.gate.claim, s.cores[child]);
      ConfirmSteps(s, i, child, s');
      PutElsewhere(s, i, s'.cores[i]);
      EndsBack(s, ChildConfirmed(i, child), s', i, end, now);
    }
  }

  /** Nobody has claimed it yet. */
  predicate Unclaimed(s: Runtime, i: Id, now: int) {
    && i in s.cores && s.cores[i].flow.Idle? && s.cores[i].gate == Gate(Running, NoOwner, false)
    && s.cores[i].supervisor.phase == SupActive && CanSeal(s, i, now)
  }

  lemma SuspendedEnds(s: Runtime, i: Id, now: int) returns (end: Runtime)
    requires Unclaimed(s, i, now) && AllFinished(s, ChildrenOf(s.children, i))
    ensures Ends(s, i, end, now)
  {
    var s' := Put(s, i, Claimed(s.cores[i], Deadline, AwaitChildren(ChildrenOf(s.children, i))));
    assert Contend(s, DeadlineClaim(i), s');
    PutElsewhere(s, i, s'.cores[i]);
    hide Elsewhere, Ends, CoreOk, Sealable;
    assert AllFinished(s', ChildrenOf(s.children, i));
    end := AwaitingEnds(s', i, now);
    EndsBack(s, DeadlineClaim(i), s', i, end, now);
  }

  lemma StartedEnds(s: Runtime, i: Id, now: int) returns (end: Runtime)
    requires Unclaimed(s, i, now) && !s.cores[i].suspended && s.cores[i].launch.Started?
    ensures Ends(s, i, end, now)
  {
    var s' := Put(s, i, Claimed(s.cores[i], Failure, Sealing));
    assert Contend(s, HandlerClaim(i, true), s');
    PutElsewhere(s, i, s'.cores[i]);
    hide Elsewhere, Ends, Sealable;
    end := SealingEnds(s', i, now);
    EndsBack(s, HandlerClaim(i, true), s', i, end, now);
  }

  lemma RefusedEnds(s: Runtime, i: Id, now: int) returns (end: Runtime)
    requires Unclaimed(s, i, now) && !s.cores[i].suspended && s.cores[i].launch.Refused?
    ensures Ends(s, i, end, now)
  {
    var s' := Put(s, i, Claimed(s.cores[i], Failure, Sealing));
    assert Contend(s, UnstartedClaim(i), s');
    PutElsewhere(s, i, s'.cores[i]);
    hide Elsewhere, Ends, Sealable;
    end := SealingEnds(s', i, now);
    EndsBack(s, UnstartedClaim(i), s', i, end, now);
  }

  lemma UnlaunchedEnds(s: Runtime, i: Id, now: int) returns (end: Runtime)
    requires Unclaimed(s, i, now) && !s.cores[i].suspended && s.cores[i].launch.Unlaunched?
    ensures Ends(s, i, end, now)
  {
    var s' := Put(s, i, s.cores[i].(launch := Refused));
    assert Spawn(s, SpawnRefuse(i), s');
    PutElsewhere(s, i, s'.cores[i]);
    hide Elsewhere, Ends, Sealable;
    end := RefusedEnds(s', i, now);
    EndsBack(s, SpawnRefuse(i), s', i, end, now);
  }

  lemma IdleEnds(s: Runtime, i: Id, now: int) returns (end: Runtime)
    requires Unclaimed(s, i, now) && AllFinished(s, WaitsFor(s, i))
    ensures Ends(s, i, end, now)
  {
    hide Ends, CoreOk, Sealable;
    if s.cores[i].suspended {
      end := SuspendedEnds(s, i, now);
    } else if s.cores[i].launch.Started? {
      end := StartedEnds(s, i, now);
    } else if s.cores[i].launch.Refused? {
      end := RefusedEnds(s, i, now);
    } else {
      end := UnlaunchedEnds(s, i, now);
    }
  }

  /** An invocation that is not blocked and waits for finished ones only can be run
      to its end without touching any other. */
  lemma RunsToItsEnd(s: Runtime, i: Id, now: int) returns (end: Runtime)
    requires i in s.cores && CoreOk(s.cores[i]) && !Blocked(s, i, now) && !s.cores[i].flow.Finished?
    requires AllFinished(s, WaitsFor(s, i))
    ensures Ends(s, i, end, now)
  {
    hide Ends, Sealable;
    match s.cores[i].flow
    case Idle => end := IdleEnds(s, i, now);
    case AwaitChildren(_) => end := AwaitingEnds(s, i, now);
    case Sealing => end := SealingEnds(s, i, now);
    case Cleaning => end := CleaningEnds(s, i, now);
    case Ready => end := ReadyEnds(s, i, now);
    case Emitted(_) => end := EmittedEnds(s, i, now);
    case Released(_) => end := ReleasedEnds(s, i, now);
    case Notified(_) => end := NotifiedEnds(s, i, now);
  }

  // ---- Everybody in the way runs to the end ----

  /** Whoever was free of obstruction stays so when one invocation ends. */
  lemma {:induction false} OldChain(s: Runtime, i: Id, end: Runtime, chain: seq<Id>, now: int)
    requires Elsewhere(s, end, i) && i in end.cores && end.cores[i].flow.Finished? && EndsBlocked(end, chain, now)
    ensures EndsBlocked(s, chain, now)
    decreases |chain|
  {
    hide Sealable;
    assert chain[0] != i;
    if |chain| > 1 {
      OldChain(s, i, end, chain[1..], now);
    }
  }

  lemma StillUnobstructed(s: Runtime, j: Id, end: Runtime, i: Id, now: int)
    requires Ends(s, j, end, now) && !Obstructed(s, i, now)
    ensures !Obstructed(end, i, now)
  {
    if Obstructed(end, i, now) {
      var chain :| EndsBlocked(end, chain, now) && chain[0] == i;
      hide EndsBlocked, Elsewhere;
      OldChain(s, j, end, chain, now);
    }
  }

  function Unfinished(s: Runtime): set<Id> {
    set i | i in s.cores && !s.cores[i].flow.Finished?
  }

  lemma FewerUnfinished(s: Runtime, i: Id, end: Runtime, now: int)
    requires Ends(s, i, end, now) && i in Unfinished(s)
    ensures Unfinished(end) == Unfinished(s) - {i}
  {
    hide Reaches;
  }

  /** Those that are neither finished nor obstructed. */
  ghost function Open(s: Runtime, now: int): set<Id> {
    set i | i in s.cores && !s.cores[i].flow.Finished? && !Obstructed(s, i, now)
  }

  lemma WaitsAreChildren(s: Runtime, i: Id)
    requires Tree(s) && i in s.cores
    ensures WaitsFor(s, i) <= ChildrenOf(s.children, i) <= s.cores.Keys
  {
    hide Acyclic;
  }

  /** Some open invocation waits for finished ones only. */
  lemma NextToEnd(s: Runtime, now: int) returns (i: Id)
    requires Sound(s) && Open(s, now) != {}
    ensures i in Open(s, now) && !Blocked(s, i, now) && AllFinished(s, WaitsFor(s, i))
  {
    hide Inv, Obstructed, Blocked, WaitsFor, CoreOk;
    assert HasLeaf(s.children, Open(s, now));
    i :| Leaf(s.children, i, Open(s, now));
    ObstructedCases(s, i, now);
    WaitsAreChildren(s, i);
    forall c | c in WaitsFor(s, i) ensures c in s.cores && CoreOk(s.cores[c]) && s.cores[c].flow.Finished? {
      SoundCore(s, c);
    }
  }

  lemma {:induction false} UnobstructedFinishes(s: Runtime, i: Id, now: int)
    requires Sound(s) && i in s.cores && !Obstructed(s, i, now)
    ensures CanFinish(s, i, now)
    decreases |Unfinished(s)|
  {
    hide Sound, Obstructed, Reaches, Elsewhere, Blocked, AllFinished, BarrierOk;
    if s.cores[i].flow.Finished? {
      SoundCore(s, i);
      ReachesSelf(s, now);
      assert TerminalIn(s, i);
    } else {
      assert i in Open(s, now);
      var j := NextToEnd(s, now);
      SoundCore(s, j);
      var end := RunsToItsEnd(s, j, now);
      FewerUnfinished(s, j, end, now);
      ReachedIsSound(s, end, i, now);
      StillUnobstructed(s, j, end, i, now);
      SameIdsHere(s, end, j);
      UnobstructedFinishes(end, i, now);
      var last :| Reaches(end, last, now) && TerminalIn(last, i);
      ReachesOn(s, end, last, now);
    }
  }

  lemma SameIdsHere(s: Runtime, end: Runtime, j: Id)
    requires Elsewhere(s, end, j)
    ensures end.cores.Keys == s.cores.Keys
  {
  }

  // ---- The exact condition ----

  lemma InitSound(s: Runtime)
    requires Init(s)
    ensures Sound(s)
  {
    InitEstablishes(s);
    hide Inv;
    forall h: set<Id> | h != {} ensures HasLeaf(s.children, h) {
      var i :| i in h;
      assert Leaf(s.children, i, h);
    }
  }

  lemma {:induction false} RunSound(states: seq<Runtime>, actions: seq<Action>, k: nat)
    requires Run(states, actions) && k < |states|
    ensures Sound(states[k])
  {
    hide *;
    if k == 0 {
      RunShape(states, actions);
      InitSound(states[0]);
    } else {
      RunSound(states, actions, k - 1);
      RunStep(states, actions, k - 1);
      SoundStep(states[k - 1], actions[k - 1], states[k]);
    }
  }

  /** In every reachable state and at any time, any invocation, suspended or not, can
      still become terminal if and only if it is not obstructed. */
  lemma FinishesExactly(states: seq<Runtime>, actions: seq<Action>, k: nat, i: Id, now: int)
    requires Run(states, actions) && k < |states| && i in states[k].cores
    ensures CanFinish(states[k], i, now) <==> !Obstructed(states[k], i, now)
  {
    hide *;
    RunSound(states, actions, k);
    if CanFinish(states[k], i, now) {
      FinishingIsUnobstructed(states[k], i, now);
    } else if !Obstructed(states[k], i, now) {
      UnobstructedFinishes(states[k], i, now);
    }
  }

  /** A suspended invocation that is not terminal can become so if and only if its
      claim goroutine is past BeginFinalization or that call can succeed, and no
      child it has to wait for is obstructed. It then is an abandoned one. */
  lemma SuspendedCanFinishExactly(states: seq<Runtime>, actions: seq<Action>, k: nat, i: Id, now: int)
    requires Run(states, actions) && k < |states| && i in states[k].cores && states[k].cores[i].suspended
    requires !states[k].cores[i].gate.state.IsTerminal()
    ensures CanFinish(states[k], i, now) <==>
      (MayFinish(states[k].cores[i].flow, CanSeal(states[k], i, now))
       && forall c :: c in WaitsFor(states[k], i) ==> !Obstructed(states[k], c, now))
    ensures CanFinish(states[k], i, now) ==> states[k].cores[i].abandoned
  {
    hide Run, Sound, MayFinish, CanFinish, Obstructed, WaitsFor, CanSeal;
    FinishesExactly(states, actions, k, i, now);
    ObstructedCases(states[k], i, now);
    RunSound(states, actions, k);
    if !states[k].cores[i].abandoned {
      SuspensionGivesUp(states[k], i, now);
    }
  }

  /** SuspendForRestart leaves nothing to finish. */
  lemma SuspensionGivesUp(s: Runtime, i: Id, now: int)
    requires Sound(s) && i in s.cores && s.cores[i].suspended && !s.cores[i].abandoned
    requires !s.cores[i].gate.state.IsTerminal()
    ensures !MayFinish(s.cores[i].flow, CanSeal(s, i, now))
  {
    SoundCore(s, i);
    hide Tree, FamilyInv, Reg.Conserved, AttemptsOk, SlotsOk, CoresOk;
    assert RecordOk(s.cores[i], s.disk[i], s.me);
  }

  // ---- What abandonRecoveredExecution decides ----

  /** Whom an invocation would wait for once suspended. */
  function WouldWaitFor(s: Runtime, i: Id): set<Id>
    requires i in s.cores
  {
    if s.cores[i].flow.Idle? then ChildrenOf(s.children, i) else Todo(s.cores[i].flow)
  }

  lemma AbandonFrame(s: Runtime, s': Runtime, i: Id)
    requires i in s.cores && Step(s, Abandon(i), s')
    ensures s'.cores == s.cores[i := s.cores[i].(suspended := true, abandoned := true)]
    ensures s'.disk == s.disk && s'.me == s.me && s'.children == s.children
    ensures !s'.cores[i].gate.state.IsTerminal() && s.cores[i].recovered
  {
  }

  lemma {:induction false} Links(s: Runtime, chain: seq<Id>, k: nat, now: int)
    requires Tree(s) && EndsBlocked(s, chain, now) && k + 1 < |chain|
    ensures chain[k + 1] in ChildrenOf(s.children, chain[k])
  {
    hide Tree;
    if k == 0 {
      WaitsAreChildren(s, chain[0]);
    } else {
      Links(s, chain[1..], k - 1, now);
    }
  }

  /** A chain that starts at a child of i does not come back to i. */
  lemma NoWayBack(s: Runtime, chain: seq<Id>, i: Id, m: nat, now: int)
    requires Tree(s) && EndsBlocked(s, chain, now) && m < |chain| && chain[0] in ChildrenOf(s.children, i)
    ensures chain[m] != i
  {
    if chain[m] == i {
      var h := set k | 0 <= k <= m :: chain[k];
      assert chain[0] in h && HasLeaf(s.children, h);
      var j :| Leaf(s.children, j, h);
      var n :| 0 <= n <= m && chain[n] == j;
      if n < m {
        assert chain[n + 1] in h;
        Links(s, chain, n, now);
      }
    }
  }

  lemma {:induction false} ChainBefore(s: Runtime, s': Runtime, i: Id, chain: seq<Id>, now: int)
    requires i in s.cores && Step(s, Abandon(i), s') && EndsBlocked(s', chain, now)
    requires forall m :: 0 <= m < |chain| ==> chain[m] != i
    ensures EndsBlocked(s, chain, now)
    decreases |chain|
  {
    AbandonFrame(s, s', i);
    hide Step, Sealable;
    if |chain| > 1 {
      assert forall m :: 0 <= m < |chain| - 1 ==> chain[1..][m] == chain[m + 1];
      ChainBefore(s, s', i, chain[1..], now);
    }
  }

  /** Abandoning an execution does not change what stands in its children's way. */
  lemma ChildObstructedAlike(s: Runtime, s': Runtime, i: Id, c: Id, now: int)
    requires Sound(s) && i in s.cores && Step(s, Abandon(i), s') && c in ChildrenOf(s.children, i)
    ensures Obstructed(s, c, now) <==> Obstructed(s', c, now)
  {
    hide Step, Inv, Tree;
    SoundStep(s, Abandon(i), s');
    AbandonFrame(s, s', i);
    if Obstructed(s, c, now) {
      StepKeepsObstructed(s, Abandon(i), s', c, now);
    } else if Obstructed(s', c, now) {
      var chain :| EndsBlocked(s', chain, now) && chain[0] == c;
      forall m | 0 <= m < |chain| ensures chain[m] != i {
        NoWayBack(s', chain, i, m, now);
      }
      ChainBefore(s, s', i, chain, now);
    }
  }

  /** What the caller of abandonRecoveredExecution can look at: the flow, the record
      and the children before the call decide whether a terminal event can follow. */
  lemma AbandonDecides(states: seq<Runtime>, actions: seq<Action>, k: nat, i: Id, now: int)
    requires Run(states, actions) && k < |actions| && actions[k] == Abandon(i) && i in states[k].cores
    ensures k + 1 < |states| && i in states[k].disk
    ensures CanFinish(states[k + 1], i, now) <==>
      (MayFinish(states[k].cores[i].flow, Sealable(states[k].disk[i], states[k].me, false, now))
       && forall c :: c in WouldWaitFor(states[k], i) ==> !Obstructed(states[k], c, now))
  {
    hide Run, Step, Sound, CanFinish, Obstructed, Sealable, MayFinish;
    RunShape(states, actions);
    RunStep(states, actions, k);
    var s, s' := states[k], states[k + 1];
    AbandonFrame(s, s', i);
    SuspendedCanFinishExactly(states, actions, k + 1, i, now);
    RunSound(states, actions, k);
    RecoveredIsStored(s, i);
    WouldWaitForChildren(s, i);
    forall c | c in WouldWaitFor(s, i) ensures Obstructed(s, c, now) <==> Obstructed(s', c, now) {
      ChildObstructedAlike(s, s', i, c, now);
    }
    assert WaitsFor(s', i) == WouldWaitFor(s, i);
  }

  lemma RecoveredIsStored(s: Runtime, i: Id)
    requires Sound(s) && i in s.cores && s.cores[i].recovered
    ensures s.cores[i].persisted && i in s.disk
  {
    SoundCore(s, i);
    hide Tree, FamilyInv, Reg.Conserved, AttemptsOk, SlotsOk, CoresOk, RecordOk;
  }

  lemma WouldWaitForChildren(s: Runtime, i: Id)
    requires Sound(s) && i in s.cores
    ensures WouldWaitFor(s, i) <= ChildrenOf(s.children, i)
  {
    hide Inv, Acyclic;
  }
}
