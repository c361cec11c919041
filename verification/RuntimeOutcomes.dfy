/** Which event ends an invocation, told by the action that took its claim
    (axon/invocation/local_runtime.go). */
module RuntimeOutcomes {
  import opened Wrappers
  import opened Lifecycle
  import opened RuntimeMachine
  import opened RuntimeInvariant
  import opened RuntimeProofs
  import opened RuntimeTheorems
  import opened RuntimeWaiting
  import Reg = Registry

  /** Step m takes the claim of invocation i. */
  ghost predicate Took(states: seq<Runtime>, m: nat, i: Id) {
    && m + 1 < |states| && i in states[m].cores && i in states[m + 1].cores
    && states[m].cores[i].gate.claim == NoOwner && states[m + 1].cores[i].gate.claim != NoOwner
  }

  /** Before state k, action `how` took the claim of invocation i. */
  ghost predicate ClaimedBy(states: seq<Runtime>, actions: seq<Action>, k: nat, i: Id, how: Action) {
    exists m :: 0 <= m < k && m < |actions| && Took(states, m, i) && actions[m] == how
  }

  /** The owner each claiming action records. */
  predicate Claims(a: Action, i: Id, owner: Owner) {
    || (a == CancelClaim(i) && (owner == CallerCancel || owner == ParentCancel))
    || (a == DeadlineClaim(i) && owner == Deadline)
    || (a == HandlerClaim(i, true) && owner == Failure)
    || (a == HandlerClaim(i, false) && (owner == Completion || owner == Recovery))
    || (a == UnstartedClaim(i) && owner == Failure)
  }

  lemma ContendClaims(c: Core, children: set<Id>, a: Action, c': Core)
    requires ContendStep(c, children, a, c') && WinnerOk(c) && c.gate.claim == NoOwner
    requires a.HandlerClaim? || a.UnstartedClaim? || a.CancelRequest? || a.CancelClaim? || a.SettleIntent? || a.DeadlineClaim?
    ensures c'.gate.claim == NoOwner || Claims(a, a.i, c'.gate.claim)
  {
  }

  lemma LocalClaims(s: Runtime, a: Action, s': Runtime, i: Id)
    requires CoresOk(s.cores) && i in s.cores && s.cores[i].gate.claim == NoOwner
    requires Contend(s, a, s') || Progressed(s, a, s') || Cleanup(s, a, s')
    ensures i in s'.cores && (s'.cores[i].gate.claim == NoOwner || Claims(a, i, s'.cores[i].gate.claim))
  {
    assert CoreOk(s.cores[a.i]);
    hide ContendStep, FlowStep, CleanupStep, Claims, BarrierOk;
    if a.i == i {
      if Contend(s, a, s') {
        ContendClaims(s.cores[i], ChildrenOf(s.children, i), a, s'.cores[i]);
      } else if Progressed(s, a, s') {
        FlowKeepsClaim(s.cores[i], a, s'.cores[i]);
      } else {
        CleanupKeepsClaim(s.cores[i], a, s'.cores[i]);
      }
    }
  }

  lemma FlowKeepsClaim(c: Core, a: Action, c': Core)
    requires FlowStep(c, a, c')
    ensures c'.gate.claim == c.gate.claim
  {
  }

  lemma CleanupKeepsClaim(c: Core, a: Action, c': Core)
    requires CleanupStep(c, a, c')
    ensures c'.gate.claim == c.gate.claim
  {
  }

  lemma OtherClaims(s: Runtime, a: Action, s': Runtime, i: Id)
    requires i in s.cores && s.cores[i].gate.claim == NoOwner
    requires AttemptsOk(s.attempts, s.registry.unbound, s.bound, s.cores.Keys)
    requires Dispatch(s, a, s') || Spawn(s, a, s') || Relinquish(s, a, s') || Finalize(s, a, s')
    ensures i in s'.cores && s'.cores[i].gate.claim == NoOwner
  {
    if Finalize(s, a, s') {
      FinalizeKeepsClaim(s, a, s', i);
    } else {
      hide Finalize;
    }
  }

  lemma FinalizeKeepsClaim(s: Runtime, a: Action, s': Runtime, i: Id)
    requires i in s.cores && Finalize(s, a, s')
    ensures i in s'.cores && s'.cores[i].gate.claim == s.cores[i].gate.claim
  {
  }

  lemma StepClaims(s: Runtime, a: Action, s': Runtime, i: Id)
    requires Inv(s) && Step(s, a, s') && i in s.cores && s.cores[i].gate.claim == NoOwner
    ensures i in s'.cores && (s'.cores[i].gate.claim == NoOwner || Claims(a, i, s'.cores[i].gate.claim))
  {
    hide Dispatch, Spawn, Contend, Progressed, Finalize, Cleanup, Relinquish, AttemptsOk,
         CoresOk, SlotsOk, DiskOk, FamilyInv, Claims;
    if Contend(s, a, s') || Progressed(s, a, s') || Cleanup(s, a, s') {
      LocalClaims(s, a, s', i);
    } else {
      OtherClaims(s, a, s', i);
    }
  }

  /** A core enters the registry unclaimed, with the four start-up events if this is
      its first execution and with the restored chain otherwise. */
  lemma NewcomerIsUnclaimed(s: Runtime, a: Action, s': Runtime, i: Id)
    requires Inv(s) && Step(s, a, s') && i !in s.cores && i in s'.cores
    ensures s'.cores[i].gate.claim == NoOwner && (s'.cores[i].recovered || Beginning() <= s'.cores[i].journal)
    ensures a.Register? && (s'.cores[i].recovered ==> s'.cores[i].journal == a.restored)
  {
    hide Step, Inv;
    if a.Register? {
      RegisterIs(s, a, s');
    } else {
      SameFamily(s, a, s');
    }
  }

  function Beginning(): seq<Entry> {
    [Entry(AcceptedEvent, None), Entry(AdmittedEvent, None), Entry(DispatchedEvent, None), Entry(RunningEvent, None)]
  }

  /** Whoever holds a claim took it by one of the five claiming actions. */
  lemma {:induction false} ClaimHasAnAction(states: seq<Runtime>, actions: seq<Action>, k: nat, i: Id) returns (m: nat)
    requires Run(states, actions) && k < |states| && i in states[k].cores && states[k].cores[i].gate.claim != NoOwner
    ensures m < k && m < |actions| && Took(states, m, i) && Claims(actions[m], i, states[k].cores[i].gate.claim)
  {
    hide Run, Step, Inv, Claims;
    RunShape(states, actions);
    EmptyAtFirst(states[0]);
    var s, s' := states[k - 1], states[k];
    RunInvariant(states, actions, k - 1);
    RunStep(states, actions, k - 1);
    if i !in s.cores {
      NewcomerIsUnclaimed(s, actions[k - 1], s', i);
    } else {
      StepEvolves(s, actions[k - 1], s', i);
      if s.cores[i].gate.claim != NoOwner {
        m := ClaimHasAnAction(states, actions, k - 1, i);
      } else {
        StepClaims(s, actions[k - 1], s', i);
        m := k - 1;
      }
    }
  }

  lemma EmptyAtFirst(s: Runtime)
    requires Init(s)
    ensures s.cores == map[]
  {
  }

  /** Only one step takes it. */
  lemma ClaimTakenOnce(states: seq<Runtime>, actions: seq<Action>, m: nat, n: nat, i: Id)
    requires Run(states, actions) && Took(states, m, i) && Took(states, n, i)
    ensures m == n
  {
    hide Run;
    if m < n {
      WinnerIsFinal(states, actions, m + 1, n, i);
    } else if n < m {
      WinnerIsFinal(states, actions, n + 1, m, i);
    }
  }

  /** The event a chain ends with. */
  predicate EndsWith(c: Core, kind: Kind) {
    |c.journal| > 0 && c.journal[|c.journal| - 1] == Entry(kind, None)
  }

  /** What a terminal core of this owner looks like, spelled out. */
  lemma OwnersEnding(c: Core)
    requires CoreOk(c) && c.gate.state.IsTerminal()
    ensures c.gate.claim != NoOwner
    ensures c.gate.claim == CallerCancel || c.gate.claim == ParentCancel ==> c.gate.state == Cancelled && EndsWith(c, CancelledEvent)
    ensures c.gate.claim == Deadline ==> c.gate.state == TimedOut && EndsWith(c, TimedOutEvent)
    ensures c.gate.claim == Failure ==> c.gate.state == Failed && EndsWith(c, FailedEvent)
    ensures c.gate.claim == Completion || c.gate.claim == Recovery ==> c.gate.state == Completed && EndsWith(c, CompletedEvent)
    ensures forall x, y :: EndsWith(c, x) && EndsWith(c, y) ==> x == y
  {
  }

  /** In every reachable state a terminal invocation is cancelled if and only if a
      cancel took its claim, timed out if and only if its deadline did, failed if
      and only if its handler failed or never started, completed if and only if its
      handler returned; and its chain ends with the event of that name. */
  lemma OutcomeFollowsClaim(states: seq<Runtime>, actions: seq<Action>, k: nat, i: Id)
    requires Run(states, actions) && k < |states| && i in states[k].cores && states[k].cores[i].gate.state.IsTerminal()
    ensures var c := states[k].cores[i];
            && (c.gate.state == Cancelled <==> ClaimedBy(states, actions, k, i, CancelClaim(i)))
            && (c.gate.state == TimedOut <==> ClaimedBy(states, actions, k, i, DeadlineClaim(i)))
            && (c.gate.state == Failed <==>
                ClaimedBy(states, actions, k, i, HandlerClaim(i, true)) || ClaimedBy(states, actions, k, i, UnstartedClaim(i)))
            && (c.gate.state == Completed <==> ClaimedBy(states, actions, k, i, HandlerClaim(i, false)))
            && (c.gate.state == Cancelled <==> EndsWith(c, CancelledEvent))
            && (c.gate.state == TimedOut <==> EndsWith(c, TimedOutEvent))
            && (c.gate.state == Failed <==> EndsWith(c, FailedEvent))
            && (c.gate.state == Completed <==> EndsWith(c, CompletedEvent))
  {
    hide Run, Inv, CoreOk, EndsWith, Took;
    RunInvariant(states, actions, k);
    InvCore(states[k], i);
    OwnersEnding(states[k].cores[i]);
    var m := ClaimHasAnAction(states, actions, k, i);
    assert ClaimedBy(states, actions, k, i, actions[m]);
    forall how | ClaimedBy(states, actions, k, i, how) ensures how == actions[m] {
      var n :| 0 <= n < k && n < |actions| && Took(states, n, i) && actions[n] == how;
      ClaimTakenOnce(states, actions, m, n, i);
    }
  }

  /** Every first execution's chain begins with the four start-up events. */
  lemma {:induction false} ChainBegins(states: seq<Runtime>, actions: seq<Action>, k: nat, i: Id)
    requires Run(states, actions) && k < |states| && i in states[k].cores && !states[k].cores[i].recovered
    ensures Beginning() <= states[k].cores[i].journal
  {
    hide Run, Step, Inv;
    RunShape(states, actions);
    EmptyAtFirst(states[0]);
    if k > 0 {
      RunInvariant(states, actions, k - 1);
      RunStep(states, actions, k - 1);
      if i in states[k - 1].cores {
        StepEvolves(states[k - 1], actions[k - 1], states[k], i);
        ChainBegins(states, actions, k - 1, i);
      } else {
        NewcomerIsUnclaimed(states[k - 1], actions[k - 1], states[k], i);
      }
    }
  }

  // ---- How children start ----

  lemma SpawnStarts(s: Runtime, a: Action, s': Runtime, i: Id)
    requires Spawn(s, a, s') && i in s.cores && s.cores[i].launch.Unlaunched?
    ensures i in s'.cores
    ensures s'.cores[i].launch.Started? <==> a == SpawnCommit(i, true)
    ensures s'.cores[i].launch.Refused? <==> a == SpawnCommit(i, false) || a == SpawnRefuse(i)
  {
  }

  lemma OthersDoNotStart(s: Runtime, a: Action, s': Runtime, i: Id)
    requires Inv(s) && Step(s, a, s') && !Spawn(s, a, s') && i in s.cores && s.cores[i].launch.Unlaunched?
    ensures i in s'.cores && s'.cores[i].launch.Unlaunched?
  {
    hide Dispatch, Spawn, Contend, Progressed, Finalize, Cleanup, Relinquish, AttemptsOk,
         CoresOk, SlotsOk, DiskOk, FamilyInv;
    if Dispatch(s, a, s') {
      DispatchKeepsLaunch(s, a, s', i);
    } else if Finalize(s, a, s') {
      FinalizeKeepsLaunch(s, a, s', i);
    } else if Relinquish(s, a, s') {
      RelinquishKeepsLaunch(s, a, s', i);
    } else {
      LocalKeepsLaunch(s, a, s', i);
    }
  }

  lemma DispatchKeepsLaunch(s: Runtime, a: Action, s': Runtime, i: Id)
    requires Dispatch(s, a, s') && i in s.cores && AttemptsOk(s.attempts, s.registry.unbound, s.bound, s.cores.Keys)
    ensures i in s'.cores && s'.cores[i].launch == s.cores[i].launch
  {
    hide AfterRegister, AttemptsOk, MayReserve;
    if a.Register? {
      RegisterKeepsOthers(s, a.t, a.restored, i);
    }
  }

  lemma RegisterKeepsOthers(s: Runtime, t: Reg.Ticket, restored: seq<Entry>, i: Id)
    requires MayRegister(s, t) && i in s.cores && AttemptsOk(s.attempts, s.registry.unbound, s.bound, s.cores.Keys)
    ensures i in AfterRegister(s, t, restored).cores && AfterRegister(s, t, restored).cores[i] == s.cores[i]
  {
    hide NewCore;
  }

  lemma FinalizeKeepsLaunch(s: Runtime, a: Action, s': Runtime, i: Id)
    requires Finalize(s, a, s') && i in s.cores
    ensures i in s'.cores && s'.cores[i].launch == s.cores[i].launch
  {
  }

  lemma RelinquishKeepsLaunch(s: Runtime, a: Action, s': Runtime, i: Id)
    requires Relinquish(s, a, s') && i in s.cores
    ensures i in s'.cores && s'.cores[i].launch == s.cores[i].launch
  {
  }

  lemma LocalKeepsLaunch(s: Runtime, a: Action, s': Runtime, i: Id)
    requires (Contend(s, a, s') || Progressed(s, a, s') || Cleanup(s, a, s')) && i in s.cores
    ensures i in s'.cores && s'.cores[i].launch == s.cores[i].launch
  {
    hide ContendStep, FlowStep, CleanupStep;
    if Contend(s, a, s') {
      ContendEvolves(s.cores[a.i], ChildrenOf(s.children, a.i), a, s'.cores[a.i]);
    } else if Progressed(s, a, s') {
      FlowEvolves(s.cores[a.i], a, s'.cores[a.i]);
    } else {
      CleanupEvolves(s.cores[a.i], a, s'.cores[a.i]);
    }
  }

  /** A child's handler has started if and only if its child_spawned was committed and
      stored; before that, and when it was refused or its write lost, it has not. */
  lemma {:induction false} StartsWithDurableSpawn(states: seq<Runtime>, actions: seq<Action>, k: nat, i: Id)
    requires Run(states, actions) && k < |states| && i in states[k].cores
    requires !states[k].cores[i].recovered && states[k].cores[i].parent.Some?
    ensures states[k].cores[i].launch.Started? <==>
      exists m :: 0 <= m < k && m < |actions| && i in states[m].cores && actions[m] == SpawnCommit(i, true)
    decreases k
  {
    hide Run, Step, Inv, Spawn;
    RunShape(states, actions);
    EmptyAtFirst(states[0]);
    if k > 0 {
      var s, a, s' := states[k - 1], actions[k - 1], states[k];
      RunInvariant(states, actions, k - 1);
      RunStep(states, actions, k - 1);
      if i in s.cores {
        StepEvolves(s, a, s', i);
        StartsWithDurableSpawn(states, actions, k - 1, i);
        if s.cores[i].launch.Unlaunched? {
          if Spawn(s, a, s') {
            SpawnStarts(s, a, s', i);
          } else {
            OthersDoNotStart(s, a, s', i);
            NotSpawn(s, a, s', i);
          }
        } else {
          SpawnedOnce(s, a, s', i);
        }
      } else {
        NewcomerWaits(s, a, s', i);
        NobodyBefore(states, actions, k - 1, i);
      }
    }
  }

  lemma NotSpawn(s: Runtime, a: Action, s': Runtime, i: Id)
    requires Step(s, a, s') && !Spawn(s, a, s')
    ensures a != SpawnCommit(i, true)
  {
  }

  lemma SpawnedOnce(s: Runtime, a: Action, s': Runtime, i: Id)
    requires Step(s, a, s') && i in s.cores && !s.cores[i].launch.Unlaunched?
    ensures a != SpawnCommit(i, true)
  {
  }

  lemma NewcomerWaits(s: Runtime, a: Action, s': Runtime, i: Id)
    requires Inv(s) && Step(s, a, s') && i !in s.cores && i in s'.cores
    ensures !s'.cores[i].recovered && s'.cores[i].parent.Some? ==> s'.cores[i].launch.Unlaunched?
  {
    hide Step, Inv;
    if a.Register? {
      RegisterIs(s, a, s');
    } else {
      SameFamily(s, a, s');
    }
  }

  lemma NobodyBefore(states: seq<Runtime>, actions: seq<Action>, k: nat, i: Id)
    requires Run(states, actions) && k < |states| && i !in states[k].cores
    ensures forall m :: 0 <= m <= k ==> i !in states[m].cores
  {
    hide Run;
    forall m | 0 <= m <= k ensures i !in states[m].cores {
      if i in states[m].cores {
        WinnerIsFinal(states, actions, m, k, i);
      }
    }
  }

  // ---- What is let in ----

  /** A new invocation gets a reservation if and only if there is room and its parent,
      if it has one, is running, unclaimed and has room for a child. */
  lemma ReservesExactly(s: Runtime, t: Reg.Ticket, parent: Option<Id>, persist: bool)
    requires t !in s.attempts && t !in s.registry.unbound
    ensures (exists s' :: Dispatch(s, Reserve(t, parent, persist), s')) <==>
      s.registry.activeCount < 256
      && (parent.Some? ==>
            parent.value in s.cores && s.cores[parent.value].gate.state == Running
            && s.cores[parent.value].gate.claim == NoOwner && s.registry.Children(parent.value) < 256)
  {
    var s' := s.(registry := Reg.Reserved(s.registry, t, parent), attempts := s.attempts[t := Attempt(Fresh(persist), None)]);
    if MayReserve(s, parent) {
      assert Dispatch(s, Reserve(t, parent, persist), s');
    }
  }

  /** Who can take an invocation's claim. A suspended execution's handler cannot; a
      cancel needs a pending intent; nobody can twice or after the end. */
  lemma ClaimsExactly(c: Core, children: set<Id>, i: Id, failed: bool)
    ensures
      var free := c.gate.claim == NoOwner && !c.gate.state.IsTerminal();
      && ((exists c' :: ContendStep(c, children, HandlerClaim(i, failed), c')) <==> free && c.launch.Started? && !c.suspended)
      && ((exists c' :: ContendStep(c, children, UnstartedClaim(i), c')) <==> free && c.launch.Refused? && !c.suspended)
      && ((exists c' :: ContendStep(c, children, CancelClaim(i), c')) <==> free && c.intent.Pending?)
      && ((exists c' :: ContendStep(c, children, DeadlineClaim(i), c')) <==> free)
  {
    if Claimable(c.gate) {
      var owner := if failed then Failure else if c.recovered then Recovery else Completion;
      assert ContendStep(c, children, DeadlineClaim(i), Claimed(c, Deadline, AwaitChildren(children)));
      if c.launch.Started? && !c.suspended {
        assert ContendStep(c, children, HandlerClaim(i, failed), Claimed(c, owner, Sealing));
      }
      if c.launch.Refused? && !c.suspended {
        assert ContendStep(c, children, UnstartedClaim(i), Claimed(c, Failure, Sealing));
      }
      if c.intent.Pending? {
        assert ContendStep(c, children, CancelClaim(i), Claimed(c, c.intent.owner, AwaitChildren(children)));
      }
    }
  }
}
