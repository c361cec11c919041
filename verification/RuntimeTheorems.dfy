/** What the runtime invariant means for every run of LocalRuntime. */
module RuntimeTheorems {
  import opened Wrappers
  import opened Lifecycle
  import opened RuntimeMachine
  import opened RuntimeInvariant
  import opened RuntimeProofs
  import Reg = Registry
  import Log = RecoveryLog

  /** When a first-execution parent's chain ends in cancelled or timed_out, each
      child it spawned is terminal, and its chain holds exactly one
      child_spawned and one child_terminal for it. */
  lemma StoppedParentSettledItsChildren(
    states: seq<Runtime>, actions: seq<Action>, k: nat, p: Id, child: Id)
    requires Run(states, actions) && k < |states|
    requires p in states[k].cores && !states[k].cores[p].recovered
    requires states[k].cores[p].gate.state == Cancelled || states[k].cores[p].gate.state == TimedOut
    requires Entry(ChildSpawned, Some(child)) in states[k].cores[p].journal
    ensures child in states[k].cores && states[k].cores[child].gate.state.IsTerminal()
    ensures Spawns(states[k].cores[p], child) == 1 && Ends(states[k].cores[p], child) == 1
  {
    RunInvariant(states, actions, k);
    var s := states[k];
    SettledPair(s, p, child);
  }

  lemma SettledPair(s: Runtime, p: Id, child: Id)
    requires Inv(s) && p in s.cores && !s.cores[p].recovered
    requires s.cores[p].gate.state == Cancelled || s.cores[p].gate.state == TimedOut
    requires Entry(ChildSpawned, Some(child)) in s.cores[p].journal
    ensures child in s.cores && s.cores[child].gate.state.IsTerminal()
    ensures Spawns(s.cores[p], child) == 1 && Ends(s.cores[p], child) == 1
  {
    hide AttemptsOk, SlotsOk, DiskOk, RootedOk;
    assert CoreOk(s.cores[p]);
    assert PairOk(s.cores[p], child, s.cores[child]);
    assert Spawns(s.cores[p], child) > 0;
  }

  // ---- What one step may change about a core that exists ----

  /** A claim is taken once, a terminal state is final, the chain only grows,
      and a child starts only while its parent is unclaimed. */
  predicate Evolves(s: Runtime, i: Id, s': Runtime) {
    i in s.cores ==>
      && i in s'.cores
      && (var c, c' := s.cores[i], s'.cores[i];
          && c'.parent == c.parent && c'.recovered == c.recovered && c'.persisted == c.persisted
          && (c.gate.claim != NoOwner ==> c'.gate.claim == c.gate.claim)
          && (c.gate.state.IsTerminal() ==> c'.gate.state == c.gate.state)
          && (c.gate.finErr ==> c'.gate.finErr)
          && c.journal <= c'.journal
          && (c.gate.state.IsTerminal() ==> c'.journal == c.journal)
          && (c.launch.Started? ==> c'.launch.Started?)
          && (c.launch.Refused? ==> c'.launch.Refused?))
  }

  /** A first-execution child turns Started only under an unclaimed parent. */
  predicate StartsLegally(s: Runtime, i: Id, s': Runtime) {
    i in s'.cores && s'.cores[i].launch.Started? && !(i in s.cores && s.cores[i].launch.Started?)
    && !s'.cores[i].recovered && s'.cores[i].parent.Some? ==>
      var p := s'.cores[i].parent.value;
      p in s.cores && s.cores[p].gate.claim == NoOwner && i in s.cores
  }

  predicate CoreEvolves(c: Core, c': Core) {
    && c'.parent == c.parent && c'.recovered == c.recovered && c'.persisted == c.persisted
    && (c.gate.claim != NoOwner ==> c'.gate.claim == c.gate.claim)
    && (c.gate.state.IsTerminal() ==> c'.gate.state == c.gate.state && c'.journal == c.journal)
    && (c.gate.finErr ==> c'.gate.finErr)
    && c.journal <= c'.journal
    && (c.launch.Unlaunched? || c'.launch == c.launch)
  }

  lemma ContendEvolves(c: Core, children: set<Id>, a: Action, c': Core)
    requires ContendStep(c, children, a, c')
    ensures CoreEvolves(c, c') && c'.launch == c.launch
  {
  }

  lemma CleanupEvolves(c: Core, a: Action, c': Core)
    requires CleanupStep(c, a, c')
    ensures CoreEvolves(c, c') && c'.launch == c.launch
  {
  }

  lemma FlowEvolves(c: Core, a: Action, c': Core)
    requires FlowStep(c, a, c')
    ensures CoreEvolves(c, c') && c'.launch == c.launch
  {
  }

  lemma SpawnEvolves(s: Runtime, a: Action, s': Runtime, i: Id)
    requires Spawn(s, a, s')
    ensures Evolves(s, i, s') && StartsLegally(s, i, s')
  {
  }

  lemma NotifyEvolves(s: Runtime, j: Id, s': Runtime, i: Id)
    requires j in s.cores && s.cores[j].flow.Released? && s' == s.(cores := AfterNotify(s.cores, j))
    ensures Evolves(s, i, s') && StartsLegally(s, i, s')
  {
    NotifyTouches(s.cores, j, i);
    hide AfterNotify;
  }

  /** A notification writes one entry or moves one flow, never a launch. */
  lemma NotifyTouches(cores: map<Id, Core>, j: Id, i: Id)
    requires j in cores && cores[j].flow.Released?
    ensures i in AfterNotify(cores, j) <==> i in cores
    ensures i in cores ==>
      var c, c' := cores[i], AfterNotify(cores, j)[i];
      c' == c.(flow := c'.flow) || (c'.journal == c.journal + [Entry(ChildTerminal, Some(j))] && c' == c.(journal := c'.journal)
                                    && !c.gate.state.IsTerminal())
  {
  }

  lemma FinalizeEvolves(s: Runtime, a: Action, s': Runtime, i: Id)
    requires Finalize(s, a, s')
    ensures Evolves(s, i, s') && StartsLegally(s, i, s')
  {
    if a.Notify? {
      NotifyEvolves(s, a.i, s', i);
    } else {
      assert CoreEvolves(s.cores[a.i], s'.cores[a.i]);
      hide CoreEvolves, Evolves, StartsLegally;
      OneCoreEvolves(s, a.i, s'.cores[a.i], s', i);
    }
  }

  lemma RelinquishEvolves(s: Runtime, a: Action, s': Runtime, i: Id)
    requires Relinquish(s, a, s')
    ensures Evolves(s, i, s') && StartsLegally(s, i, s')
  {
  }

  lemma DispatchEvolves(s: Runtime, a: Action, s': Runtime, i: Id)
    requires Dispatch(s, a, s') && AttemptsOk(s.attempts, s.registry.unbound, s.bound, s.cores.Keys)
    ensures Evolves(s, i, s') && StartsLegally(s, i, s')
  {
  }

  lemma OneCoreEvolves(s: Runtime, j: Id, c': Core, s': Runtime, i: Id)
    requires j in s.cores && s'.cores == s.cores[j := c'] && CoreEvolves(s.cores[j], c')
    requires c'.launch == s.cores[j].launch
    ensures Evolves(s, i, s') && StartsLegally(s, i, s')
  {
  }

  /** Claims, claim-goroutine progress and cleanup each touch one core. */
  lemma LocalEvolves(s: Runtime, a: Action, s': Runtime, i: Id)
    requires Contend(s, a, s') || Progressed(s, a, s') || Cleanup(s, a, s')
    ensures Evolves(s, i, s') && StartsLegally(s, i, s')
  {
    hide ContendStep, CleanupStep, FlowStep, Evolves, StartsLegally, CoreEvolves;
    if Contend(s, a, s') {
      ContendEvolves(s.cores[a.i], ChildrenOf(s.children, a.i), a, s'.cores[a.i]);
    } else if Progressed(s, a, s') {
      FlowEvolves(s.cores[a.i], a, s'.cores[a.i]);
    } else {
      CleanupEvolves(s.cores[a.i], a, s'.cores[a.i]);
    }
    OneCoreEvolves(s, a.i, s'.cores[a.i], s', i);
  }

  lemma StepEvolves(s: Runtime, a: Action, s': Runtime, i: Id)
    requires Inv(s) && Step(s, a, s')
    ensures Evolves(s, i, s') && StartsLegally(s, i, s')
  {
    hide Dispatch, Spawn, Contend, Progressed, Finalize, Cleanup, Relinquish, AttemptsOk,
         Evolves, StartsLegally, CoresOk, SlotsOk, DiskOk, FamilyInv;
    if Dispatch(s, a, s') {
      DispatchEvolves(s, a, s', i);
    } else if Spawn(s, a, s') {
      SpawnEvolves(s, a, s', i);
    } else if Finalize(s, a, s') {
      FinalizeEvolves(s, a, s', i);
    } else if Relinquish(s, a, s') {
      RelinquishEvolves(s, a, s', i);
    } else {
      LocalEvolves(s, a, s', i);
    }
  }

  /** One winner over a whole run: the first claim, the first terminal state and
      the events already in the chain are never replaced. */
  lemma {:induction false} WinnerIsFinal(states: seq<Runtime>, actions: seq<Action>, k: nat, m: nat, i: Id)
    requires Run(states, actions) && k <= m < |states| && i in states[k].cores
    ensures Evolves(states[k], i, states[m]) && i in states[m].cores
    decreases m
  {
    hide Run, Step, Inv;
    if k < m {
      WinnerIsFinal(states, actions, k, m - 1, i);
      RunInvariant(states, actions, m - 1);
      RunStep(states, actions, m - 1);
      StepEvolves(states[m - 1], actions[m - 1], states[m], i);
    }
  }

  /** A child that has not started when its parent is claimed never starts,
      even if it is registered later. */
  lemma {:induction false} LateChildNeverStarts(
    states: seq<Runtime>, actions: seq<Action>, k: nat, m: nat, p: Id, child: Id)
    requires Run(states, actions) && k <= m < |states|
    requires p in states[k].cores && states[k].cores[p].gate.claim != NoOwner
    requires child in states[k].cores ==> !states[k].cores[child].launch.Started?
    requires child in states[m].cores && !states[m].cores[child].recovered
    requires states[m].cores[child].parent == Some(p)
    ensures !states[m].cores[child].launch.Started?
    decreases m
  {
    hide Run, Step, Inv;
    if k < m {
      RunInvariant(states, actions, m - 1);
      RunStep(states, actions, m - 1);
      StepEvolves(states[m - 1], actions[m - 1], states[m], child);
      WinnerIsFinal(states, actions, k, m - 1, p);
      if child in states[m - 1].cores {
        LateChildNeverStarts(states, actions, k, m - 1, p, child);
      }
    }
  }

  /** A committed terminal state is the one its claim owner is entitled to, the
      cleanup barrier is closed without failure and with every registered
      callback run, and the terminal channel closes at most once. */
  lemma TerminalBelongsToOwner(states: seq<Runtime>, actions: seq<Action>, k: nat, i: Id)
    requires Run(states, actions) && k < |states| && i in states[k].cores
    ensures var c := states[k].cores[i];
            && c.closes <= 1
            && !(c.gate.state.IsTerminal() && c.gate.finErr)
            && (c.gate.state.IsTerminal() ==>
                  && c.gate.claim != NoOwner && c.gate.state == TargetOf(c.gate.claim)
                  && c.supervisor.phase == SupClosed && !c.supervisor.failed
                  && c.supervisor.ran == c.supervisor.registered)
  {
    hide Run, Inv;
    RunInvariant(states, actions, k);
    InvCore(states[k], i);
  }

  lemma InvCore(s: Runtime, i: Id)
    requires Inv(s) && i in s.cores
    ensures CoreOk(s.cores[i])
    ensures s.cores[i].persisted ==> i in s.disk && RecordOk(s.cores[i], s.disk[i], s.me)
  {
    hide CoreOk, RecordOk, FamilyInv, Reg.Conserved, AttemptsOk, SlotsOk;
  }

  /** Once terminal in memory, no runtime can lease the record again. */
  lemma TerminalIsNeverReleased(
    states: seq<Runtime>, actions: seq<Action>, k: nat, i: Id, owner: Log.RuntimeId, until: int, now: int)
    requires Run(states, actions) && k < |states| && i in states[k].cores
    requires states[k].cores[i].persisted && states[k].cores[i].gate.state.IsTerminal()
    ensures i in states[k].disk
    ensures states[k].disk[i].phase == Log.PhaseFinalizing || states[k].disk[i].phase == Log.PhaseClosed
    ensures Log.ApplyClaim(states[k].disk[i], owner, until, now).Err?
  {
    hide Run, Inv;
    RunInvariant(states, actions, k);
    InvCore(states[k], i);
  }

  /** A terminal invocation is suspended if and only if it is a recovered execution
      that was abandoned; SuspendForRestart and a terminal state exclude each other. */
  lemma SuspendedAndTerminalExactly(states: seq<Runtime>, actions: seq<Action>, k: nat, i: Id)
    requires Run(states, actions) && k < |states| && i in states[k].cores
    requires states[k].cores[i].gate.state.IsTerminal()
    ensures states[k].cores[i].suspended <==> states[k].cores[i].abandoned
    ensures states[k].cores[i].suspended ==> states[k].cores[i].recovered
  {
    hide Run, Inv;
    RunInvariant(states, actions, k);
    InvCore(states[k], i);
  }

  /** Slots: attempts between reserve and register, plus invocations that have
      neither been given up nor run their terminal callback. */
  function SlotHolders(s: Runtime): set<Id> {
    set i | i in s.cores && !s.cores[i].suspended && !SlotReturned(s.cores[i].flow)
  }

  function AttemptsUnder(s: Runtime, p: Id): set<Reg.Ticket> {
    Reg.Under(s.registry.unbound, p)
  }

  /** Capacity is conserved in every reachable state. */
  lemma CapacityConserved(states: seq<Runtime>, actions: seq<Action>, k: nat, p: Id)
    requires Run(states, actions) && k < |states|
    ensures var s := states[k];
            && s.registry.activeCount == |s.attempts| + |SlotHolders(s)|
            && s.registry.Children(p)
               == |AttemptsUnder(s, p)| + |set i | i in SlotHolders(s) && s.cores[i].parent == Some(p)|
            && 0 <= s.registry.Children(p) <= s.registry.activeCount <= 256
  {
    RunInvariant(states, actions, k);
    var s := states[k];
    CapacityOf(s, p);
  }

  lemma CapacityOf(s: Runtime, p: Id)
    requires Inv(s)
    ensures s.registry.activeCount == |s.attempts| + |SlotHolders(s)|
    ensures s.registry.Children(p)
            == |AttemptsUnder(s, p)| + |set i | i in SlotHolders(s) && s.cores[i].parent == Some(p)|
    ensures 0 <= s.registry.Children(p) <= s.registry.activeCount <= 256
  {
    hide FamilyInv, CoresOk, DiskOk;
    Reg.CountersInRange(s.registry, p);
    assert SlotHolders(s) == s.registry.active.Keys;
    assert s.attempts.Keys == s.registry.unbound.Keys;
    assert (set i | i in SlotHolders(s) && s.cores[i].parent == Some(p)) == Reg.Under(s.registry.active, p);
    assert |s.attempts| == |s.attempts.Keys| == |s.registry.unbound|;
    assert |s.registry.active| == |s.registry.active.Keys|;
  }
}
