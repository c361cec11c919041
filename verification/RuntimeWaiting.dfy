/** Who waits for whom in LocalRuntime (axon/invocation/local_runtime.go), and what
    can stand in the way of a terminal event: a claim goroutine that gave up, or a
    record on which BeginFinalization can no longer succeed. */
module RuntimeWaiting {
  import opened Wrappers
  import opened Lifecycle
  import opened RuntimeMachine
  import opened RuntimeInvariant
  import Reg = Registry
  import Log = RecoveryLog

  /** BeginFinalization by this runtime can succeed at time `now` or later: nobody
      else holds the record, it is not suspended or closed, and a lease of its own
      is live or still being renewed. */
  predicate Sealable(r: Log.Snapshot, me: Log.RuntimeId, renewing: bool, now: int) {
    || (r.phase == Log.PhaseRunning && r.lease.None?)
    || ((r.phase == Log.PhaseRecovering || r.phase == Log.PhaseFinalizing)
        && (r.lease.None? || (r.lease == Some(me) && (renewing || r.leaseUntil >= now))))
  }

  lemma SealableMeansBegin(r: Log.Snapshot, me: Log.RuntimeId, now: int, clock: int)
    requires now <= clock
    ensures Log.ApplyBegin(r, me, clock).Ok? ==> Sealable(r, me, false, now)
    ensures Sealable(r, me, false, now) ==> Log.ApplyBegin(r, me, now).Ok?
  {
  }

  predicate CanSeal(s: Runtime, i: Id, now: int)
    requires i in s.cores
  {
    s.cores[i].persisted ==> i in s.disk && Sealable(s.disk[i], s.me, !s.cores[i].suspended, now)
  }

  /** A step at or after `now`. An execution that gives up stops renewing its lease. */
  predicate Timely(s: Runtime, a: Action, now: int) {
    && (a.Seal? ==> a.now >= now)
    && (a.DiskStep? && a.op.Renew? && a.op.holder == s.me && a.i in s.cores ==> !s.cores[a.i].suspended)
  }

  /** The claim goroutine is past BeginFinalization, or has that call to come and it
      can succeed. */
  predicate MayFinish(f: Flow, sealable: bool) {
    Committed(f) || f.Cleaning? || f.Ready? || ((f.Idle? || f.AwaitChildren? || f.Sealing?) && sealable)
  }

  predicate Blocked(s: Runtime, i: Id, now: int)
    requires i in s.cores
  {
    !MayFinish(s.cores[i].flow, CanSeal(s, i, now))
  }

  /** The children an invocation has to see stopped first. A suspended one can only
      be ended by a cancel or its deadline, and those wait for all its children. */
  function WaitsFor(s: Runtime, i: Id): set<Id>
    requires i in s.cores
  {
    match s.cores[i].flow
    case AwaitChildren(todo) => todo
    case Idle => if s.cores[i].suspended then ChildrenOf(s.children, i) else {}
    case _ => {}
  }

  /** Each invocation of the chain waits for the next, and the last is blocked. */
  ghost predicate EndsBlocked(s: Runtime, chain: seq<Id>, now: int)
    decreases |chain|
  {
    && chain != [] && chain[0] in s.cores
    && (if |chain| == 1 then Blocked(s, chain[0], now)
        else chain[1] in WaitsFor(s, chain[0]) && EndsBlocked(s, chain[1..], now))
  }

  /** The invocation is blocked, or waits for one that is, directly or not. */
  ghost predicate Obstructed(s: Runtime, i: Id, now: int) {
    exists chain :: EndsBlocked(s, chain, now) && chain[0] == i
  }

  lemma ObstructedHere(s: Runtime, i: Id, now: int)
    requires i in s.cores && Blocked(s, i, now)
    ensures Obstructed(s, i, now)
  {
    assert EndsBlocked(s, [i], now);
  }

  lemma ObstructedBeyond(s: Runtime, i: Id, next: Id, now: int)
    requires i in s.cores && next in WaitsFor(s, i) && Obstructed(s, next, now)
    ensures Obstructed(s, i, now)
  {
    var chain :| EndsBlocked(s, chain, now) && chain[0] == next;
    assert ([i] + chain)[1..] == chain;
    assert EndsBlocked(s, [i] + chain, now);
  }

  lemma ObstructedCases(s: Runtime, i: Id, now: int)
    requires i in s.cores
    ensures Obstructed(s, i, now) <==> Blocked(s, i, now) || exists next :: next in WaitsFor(s, i) && Obstructed(s, next, now)
  {
    if Obstructed(s, i, now) && !Blocked(s, i, now) {
      var chain :| EndsBlocked(s, chain, now) && chain[0] == i;
      assert EndsBlocked(s, chain[1..], now);
      assert chain[1] in WaitsFor(s, i) && Obstructed(s, chain[1], now);
    } else if Blocked(s, i, now) {
      ObstructedHere(s, i, now);
    } else if exists next :: next in WaitsFor(s, i) && Obstructed(s, next, now) {
      var next :| next in WaitsFor(s, i) && Obstructed(s, next, now);
      ObstructedBeyond(s, i, next, now);
    }
  }

  // ---- The family tree ----

  predicate Leaf(children: map<Id, set<Id>>, i: Id, h: set<Id>) {
    i in h && ChildrenOf(children, i) !! h
  }

  ghost predicate HasLeaf(children: map<Id, set<Id>>, h: set<Id>) {
    exists i :: Leaf(children, i, h)
  }

  /** Parents and listed children are registered, a claim goroutine waits for its
      own children only, and there is no cycle. */
  ghost predicate Tree(s: Runtime) {
    && s.children.Keys <= s.cores.Keys
    && (forall p :: p in s.children ==> s.children[p] <= s.cores.Keys)
    && (forall i :: i in s.cores ==> Todo(s.cores[i].flow) <= ChildrenOf(s.children, i))
    && Acyclic(s.children)
  }

  ghost predicate Acyclic(children: map<Id, set<Id>>) {
    forall h: set<Id> :: h != {} ==> HasLeaf(children, h)
  }

  // ---- What one step does to one invocation ----

  predicate FlowMoved(s: Runtime, i: Id, c: Core, f': Flow, now: int) {
    match c.flow
    case Idle => f' == Idle || (f' == Sealing && !c.suspended) || f' == AwaitChildren(ChildrenOf(s.children, i))
    case AwaitChildren(todo) =>
      || (f'.AwaitChildren? && f'.todo <= todo && AllCommitted(s, todo - f'.todo))
      || f' == Aborted || (f' == Sealing && todo == {})
    case Sealing => f' == Sealing || f' == Aborted || (f' == Cleaning && i in s.cores && CanSeal(s, i, now))
    case Cleaning => f' == Cleaning || f' == Ready || f' == Aborted
    case Ready => f' == Ready || f' == Stuck || f'.Emitted?
    case Aborted => f' == Aborted
    case Stuck => f' == Stuck
    case _ => Committed(f')
  }

  predicate AllCommitted(s: Runtime, ids: set<Id>) {
    forall i :: i in ids ==> i in s.cores && Committed(s.cores[i].flow)
  }

  predicate Moved(s: Runtime, i: Id, s': Runtime, now: int)
    requires i in s.cores
  {
    && i in s'.cores && s'.cores[i].persisted == s.cores[i].persisted
    && (s.cores[i].suspended ==> s'.cores[i].suspended)
    && (CanSeal(s', i, now) ==> CanSeal(s, i, now))
    && FlowMoved(s, i, s.cores[i], s'.cores[i].flow, now)
  }

  lemma FlowStays(s: Runtime, i: Id, c: Core, now: int)
    ensures FlowMoved(s, i, c, c.flow, now)
  {
  }

  /** Only core j changes, and the disk does not. */
  lemma PutMoves(s: Runtime, j: Id, c': Core, s': Runtime, i: Id, now: int)
    requires i in s.cores && j in s.cores && s' == Put(s, j, c')
    requires c'.persisted == s.cores[j].persisted && c'.suspended == s.cores[j].suspended
    requires FlowMoved(s, j, s.cores[j], c'.flow, now)
    ensures Moved(s, i, s', now)
  {
    hide FlowMoved, Sealable;
    FlowStays(s, i, s.cores[i], now);
  }

  lemma ContendMoves(s: Runtime, i: Id, c: Core, a: Action, c': Core, now: int)
    requires ContendStep(c, ChildrenOf(s.children, i), a, c') && WinnerOk(c)
    ensures FlowMoved(s, i, c, c'.flow, now) && c'.persisted == c.persisted && c'.suspended == c.suspended
  {
    hide CanSeal;
  }

  lemma ProgressMoves(s: Runtime, i: Id, c: Core, a: Action, c': Core, now: int)
    requires FlowStep(c, a, c')
    ensures FlowMoved(s, i, c, c'.flow, now) && c'.persisted == c.persisted && c'.suspended == c.suspended
  {
    hide CanSeal;
  }

  lemma CleanupMoves(s: Runtime, i: Id, c: Core, a: Action, c': Core, now: int)
    requires CleanupStep(c, a, c')
    ensures FlowMoved(s, i, c, c'.flow, now) && c'.persisted == c.persisted && c'.suspended == c.suspended
  {
    hide CanSeal;
  }

  lemma WinnersOk(cores: Cores, i: Id)
    requires CoresOk(cores) && i in cores
    ensures WinnerOk(cores[i])
  {
    assert CoreOk(cores[i]);
  }

  lemma LocalMoves(s: Runtime, a: Action, s': Runtime, i: Id, now: int)
    requires CoresOk(s.cores) && i in s.cores && (Contend(s, a, s') || Progressed(s, a, s') || Cleanup(s, a, s'))
    ensures Moved(s, i, s', now)
  {
    hide ContendStep, CleanupStep, FlowStep, FlowMoved, Moved, CoresOk, CoreOk, WinnerOk;
    WinnersOk(s.cores, a.i);
    if Contend(s, a, s') {
      ContendMoves(s, a.i, s.cores[a.i], a, s'.cores[a.i], now);
    } else if Progressed(s, a, s') {
      ProgressMoves(s, a.i, s.cores[a.i], a, s'.cores[a.i], now);
    } else {
      CleanupMoves(s, a.i, s.cores[a.i], a, s'.cores[a.i], now);
    }
    PutMoves(s, a.i, s'.cores[a.i], s', i, now);
  }

  lemma DispatchMoves(s: Runtime, a: Action, s': Runtime, i: Id, now: int)
    requires i in s.cores && Dispatch(s, a, s') && DiskOk(s.cores, s.disk, s.me)
    requires AttemptsOk(s.attempts, s.registry.unbound, s.bound, s.cores.Keys)
    ensures Moved(s, i, s', now)
  {
    hide FlowMoved, Sealable, RecordOk;
    FlowStays(s, i, s.cores[i], now);
  }

  lemma SpawnMoves(s: Runtime, a: Action, s': Runtime, i: Id, now: int)
    requires i in s.cores && Spawn(s, a, s')
    ensures Moved(s, i, s', now)
  {
    hide FlowMoved, Sealable;
    FlowStays(s, i, s.cores[i], now);
  }

  lemma ConfirmMoves(s: Runtime, j: Id, child: Id, s': Runtime, i: Id, now: int)
    requires i in s.cores && CoresOk(s.cores) && Finalize(s, ChildConfirmed(j, child), s')
    ensures Moved(s, i, s', now)
  {
    WinnersOk(s.cores, child);
    hide Moved, CoresOk;
    PutMoves(s, j, s'.cores[j], s', i, now);
  }

  lemma SealMoves(s: Runtime, j: Id, clock: int, s': Runtime, i: Id, now: int)
    requires i in s.cores && Finalize(s, Seal(j, clock), s') && clock >= now
    ensures Moved(s, i, s', now)
  {
    if s.cores[j].persisted {
      SealableMeansBegin(s.disk[j], s.me, now, clock);
    }
    hide Sealable, Log.ApplyBegin;
    FlowStays(s, i, s.cores[i], now);
  }

  lemma EmitMoves(s: Runtime, a: Action, s': Runtime, i: Id, now: int)
    requires i in s.cores && a.EmitTerminal? && Finalize(s, a, s')
    ensures Moved(s, i, s', now)
  {
    FlowStays(s, i, s.cores[i], now);
    hide TerminalEvent;
  }

  lemma CallbackMoves(s: Runtime, a: Action, s': Runtime, i: Id, now: int)
    requires i in s.cores && (a.Release? || a.Notify?) && Finalize(s, a, s')
    ensures Moved(s, i, s', now)
  {
    hide Sealable;
    FlowStays(s, i, s.cores[i], now);
  }

  lemma FinalizeMoves(s: Runtime, a: Action, s': Runtime, i: Id, now: int)
    requires i in s.cores && CoresOk(s.cores) && Finalize(s, a, s') && Timely(s, a, now)
    ensures Moved(s, i, s', now)
  {
    hide Moved, CoresOk;
    match a
    case ChildConfirmed(j, child) => ConfirmMoves(s, j, child, s', i, now);
    case Seal(j, clock) => SealMoves(s, j, clock, s', i, now);
    case EmitTerminal(_, _, _) => EmitMoves(s, a, s', i, now);
    case _ => CallbackMoves(s, a, s', i, now);
  }

  /** A record lost to this runtime stays lost, whatever anybody does to it. */
  lemma RecordStaysLost(r: Log.Snapshot, me: Log.RuntimeId, renewing: bool, now: int, op: Log.Op, clock: int)
    requires !Sealable(r, me, renewing, now) && Log.Apply(r, op, clock).Ok?
    requires op.Mark? ==> op.phase == Log.PhaseSuspended || op.phase == Log.PhaseClosed
    requires op.Claim? ==> op.claimant != me
    requires op.Renew? && op.holder == me ==> renewing
    ensures !Sealable(Log.Apply(r, op, clock).value, me, renewing, now)
  {
  }

  lemma RelinquishMoves(s: Runtime, a: Action, s': Runtime, i: Id, now: int)
    requires i in s.cores && i in s.bound && Relinquish(s, a, s') && Timely(s, a, now)
    ensures Moved(s, i, s', now)
  {
    if a.DiskStep? {
      var renewing := !s.cores[i].suspended;
      if a.i == i && !Sealable(s.disk[i], s.me, renewing, now) {
        RecordStaysLost(s.disk[i], s.me, renewing, now, a.op, a.now);
      }
      hide Sealable, Log.Apply;
    }
    hide FlowMoved;
    FlowStays(s, i, s.cores[i], now);
  }

  lemma StepMoves(s: Runtime, a: Action, s': Runtime, i: Id, now: int)
    requires Inv(s) && Step(s, a, s') && i in s.cores && Timely(s, a, now)
    ensures Moved(s, i, s', now)
  {
    assert i in s.bound;
    hide Dispatch, Spawn, Contend, Progressed, Finalize, Cleanup, Relinquish, AttemptsOk, Moved,
         CoresOk, SlotsOk, DiskOk, FamilyInv;
    if Dispatch(s, a, s') {
      DispatchMoves(s, a, s', i, now);
    } else if Spawn(s, a, s') {
      SpawnMoves(s, a, s', i, now);
    } else if Finalize(s, a, s') {
      FinalizeMoves(s, a, s', i, now);
    } else if Relinquish(s, a, s') {
      RelinquishMoves(s, a, s', i, now);
    } else {
      LocalMoves(s, a, s', i, now);
    }
  }

  // ---- The tree is kept ----

  predicate SameIds(s: Runtime, s': Runtime) {
    s'.cores.Keys == s.cores.Keys && s'.children == s.children
  }

  lemma DispatchFamily(s: Runtime, a: Action, s': Runtime)
    requires Dispatch(s, a, s') && !a.Register?
    ensures SameIds(s, s')
  {
  }

  lemma SpawnFamily(s: Runtime, a: Action, s': Runtime)
    requires Spawn(s, a, s')
    ensures SameIds(s, s')
  {
  }

  lemma FinalizeFamily(s: Runtime, a: Action, s': Runtime)
    requires Finalize(s, a, s')
    ensures SameIds(s, s')
  {
    hide ChildStopped, Log.ApplyBegin, Log.ApplyAppend, TerminalEvent, Concluded;
  }

  lemma RelinquishFamily(s: Runtime, a: Action, s': Runtime)
    requires Relinquish(s, a, s')
    ensures SameIds(s, s')
  {
    hide Log.Apply, Log.ApplyMark;
  }

  lemma LocalFamily(s: Runtime, a: Action, s': Runtime)
    requires Contend(s, a, s') || Progressed(s, a, s') || Cleanup(s, a, s')
    ensures SameIds(s, s')
  {
    hide ContendStep, CleanupStep, FlowStep;
  }

  /** Every step but a registration keeps the ids and the lists. */
  lemma SameFamily(s: Runtime, a: Action, s': Runtime)
    requires Step(s, a, s') && !a.Register?
    ensures SameIds(s, s')
  {
    hide Dispatch, Spawn, Contend, Progressed, Finalize, Cleanup, Relinquish, SameIds;
    if Dispatch(s, a, s') {
      DispatchFamily(s, a, s');
    } else if Spawn(s, a, s') {
      SpawnFamily(s, a, s');
    } else if Finalize(s, a, s') {
      FinalizeFamily(s, a, s');
    } else if Relinquish(s, a, s') {
      RelinquishFamily(s, a, s');
    } else {
      LocalFamily(s, a, s');
    }
  }

  /** A registration adds one id and lists it at most under a registered parent. */
  lemma OneMore(s: Runtime, t: Reg.Ticket, restored: seq<Entry>)
    requires AttemptsOk(s.attempts, s.registry.unbound, s.bound, s.cores.Keys) && MayRegister(s, t)
    ensures
      var i, s' := s.attempts[t].bound.value, AfterRegister(s, t, restored);
      && i !in s.cores && s'.cores.Keys == s.cores.Keys + {i} && Todo(s'.cores[i].flow) == {}
      && (s'.children == s.children
          || exists p :: p in s.cores && s'.children == s.children[p := ChildrenOf(s.children, p) + {i}])
  {
  }

  lemma NewbornKeepsAcyclic(children: map<Id, set<Id>>, p: Id, i: Id)
    requires Acyclic(children) && i !in children && i != p && forall q :: q in children ==> i !in children[q]
    ensures Acyclic(children[p := ChildrenOf(children, p) + {i}])
  {
    var children' := children[p := ChildrenOf(children, p) + {i}];
    forall h: set<Id> | h != {} ensures HasLeaf(children', h) {
      if i in h {
        assert Leaf(children', i, h);
      } else {
        assert HasLeaf(children, h);
        var j :| Leaf(children, j, h);
        assert Leaf(children', j, h);
      }
    }
  }

  lemma ListedKeepsTree(s: Runtime, i: Id, p: Id, s': Runtime)
    requires Tree(s) && p in s.cores && i !in s.cores && s'.cores.Keys == s.cores.Keys + {i}
    requires s'.children == s.children[p := ChildrenOf(s.children, p) + {i}]
    requires forall j :: j in s'.cores ==> Todo(s'.cores[j].flow) <= ChildrenOf(s.children, j)
    ensures Tree(s')
  {
    NewbornKeepsAcyclic(s.children, p, i);
    hide Acyclic;
  }

  lemma RegisterKeepsTree(s: Runtime, t: Reg.Ticket, restored: seq<Entry>)
    requires AttemptsOk(s.attempts, s.registry.unbound, s.bound, s.cores.Keys) && MayRegister(s, t) && Tree(s)
    requires forall i :: i in s.cores ==>
      i in AfterRegister(s, t, restored).cores && Todo(AfterRegister(s, t, restored).cores[i].flow) <= ChildrenOf(s.children, i)
    ensures Tree(AfterRegister(s, t, restored))
  {
    OneMore(s, t, restored);
    var i, s' := s.attempts[t].bound.value, AfterRegister(s, t, restored);
    hide AttemptsOk, AfterRegister, Acyclic;
    if s'.children != s.children {
      var p :| p in s.cores && s'.children == s.children[p := ChildrenOf(s.children, p) + {i}];
      hide Tree;
      ListedKeepsTree(s, i, p, s');
    }
  }

  lemma MovedTodo(s: Runtime, i: Id, s': Runtime, now: int)
    requires i in s.cores && Moved(s, i, s', now) && Todo(s.cores[i].flow) <= ChildrenOf(s.children, i)
    ensures Todo(s'.cores[i].flow) <= ChildrenOf(s.children, i)
  {
    hide CanSeal, AllCommitted;
  }

  lemma DiskStepIsAside(s: Runtime, a: Action, s': Runtime)
    requires Step(s, a, s') && a.DiskStep?
    ensures s'.cores == s.cores
  {
  }

  lemma StepKeepsTree(s: Runtime, a: Action, s': Runtime)
    requires Inv(s) && Tree(s) && Step(s, a, s')
    ensures Tree(s')
  {
    hide Inv, Step, Acyclic, Moved, AfterRegister;
    forall i | i in s.cores ensures i in s'.cores && Todo(s'.cores[i].flow) <= ChildrenOf(s.children, i) {
      if a.DiskStep? {
        DiskStepIsAside(s, a, s');
      } else {
        var now := if a.Seal? then a.now else 0;
        StepMoves(s, a, s', i, now);
        MovedKeepsId(s, i, s', now);
        MovedTodo(s, i, s', now);
      }
    }
    if a.Register? {
      RegisterIs(s, a, s');
      RegisterKeepsTree(s, a.t, a.restored);
    } else {
      SameFamily(s, a, s');
    }
  }

  lemma MovedKeepsId(s: Runtime, i: Id, s': Runtime, now: int)
    requires i in s.cores && Moved(s, i, s', now)
    ensures i in s'.cores
  {
  }

  lemma RegisterIs(s: Runtime, a: Action, s': Runtime)
    requires Inv(s) && Step(s, a, s') && a.Register?
    ensures MayRegister(s, a.t) && s' == AfterRegister(s, a.t, a.restored)
    ensures AttemptsOk(s.attempts, s.registry.unbound, s.bound, s.cores.Keys)
  {
  }

  // ---- Obstruction is for good ----

  lemma ChildrenGrow(s: Runtime, a: Action, s': Runtime, i: Id)
    requires Inv(s) && Step(s, a, s')
    ensures ChildrenOf(s.children, i) <= ChildrenOf(s'.children, i)
  {
    hide Inv, Step, MayRegister;
    if a.Register? {
      RegisterIs(s, a, s');
    } else {
      SameFamily(s, a, s');
    }
  }

  lemma BlockedStays(s: Runtime, i: Id, s': Runtime, now: int)
    requires i in s.cores && Blocked(s, i, now) && Moved(s, i, s', now)
    ensures Blocked(s', i, now)
  {
    hide CanSeal, AllCommitted;
  }

  lemma WaitStays(s: Runtime, i: Id, next: Id, s': Runtime, now: int)
    requires i in s.cores && next in s.cores && next in WaitsFor(s, i) && !Committed(s.cores[next].flow)
    requires Moved(s, i, s', now) && ChildrenOf(s.children, i) <= ChildrenOf(s'.children, i)
    ensures next in WaitsFor(s', i) || Blocked(s', i, now)
  {
    hide CanSeal;
  }

  lemma NotCommitted(s: Runtime, chain: seq<Id>, now: int)
    requires EndsBlocked(s, chain, now)
    ensures !Committed(s.cores[chain[0]].flow)
  {
  }

  lemma {:induction false} ChainStays(s: Runtime, a: Action, s': Runtime, chain: seq<Id>, now: int)
    requires Inv(s) && Step(s, a, s') && Timely(s, a, now) && EndsBlocked(s, chain, now)
    ensures Obstructed(s', chain[0], now)
    decreases |chain|
  {
    hide Inv, Step, Obstructed, Blocked, WaitsFor, Moved;
    var i := chain[0];
    StepMoves(s, a, s', i, now);
    MovedKeepsId(s, i, s', now);
    if |chain| == 1 {
      BlockedStays(s, i, s', now);
      ObstructedHere(s', i, now);
    } else {
      ChainStays(s, a, s', chain[1..], now);
      NotCommitted(s, chain[1..], now);
      ChildrenGrow(s, a, s', i);
      WaitStays(s, i, chain[1], s', now);
      if Blocked(s', i, now) {
        ObstructedHere(s', i, now);
      } else {
        ObstructedBeyond(s', i, chain[1], now);
      }
    }
  }

  /** No step of any goroutine or other runtime removes an obstruction. */
  lemma StepKeepsObstructed(s: Runtime, a: Action, s': Runtime, i: Id, now: int)
    requires Inv(s) && Step(s, a, s') && Timely(s, a, now) && Obstructed(s, i, now)
    ensures Obstructed(s', i, now)
  {
    var chain :| EndsBlocked(s, chain, now) && chain[0] == i;
    ChainStays(s, a, s', chain, now);
  }
}
