/** The inductive invariant of the runtime, clause by clause, and its
    preservation by every action. */
module RuntimeInvariant {
  import opened Wrappers
  import opened Lifecycle
  import opened RuntimeMachine
  import Reg = Registry
  import Log = RecoveryLog

  /** Every terminal receipt has crossed the barrier; every callback registered
      before it has run. */
  predicate BarrierOk(f: Flow, v: Supervisor) {
    && v.registered == v.ran + v.running + v.queued
    && (v.failed <==> v.phase == SupFailed)
    && (v.phase == SupClosed ==> v.queued == 0 && v.running == 0)
    && (f.Idle? || f.AwaitChildren? || f.Sealing? ==> v.phase == SupActive)
    && (f.Cleaning? ==> v.phase == SupActive || v.phase == SupClosing)
    && (f.Ready? || f.Stuck? || Committed(f) ==> v.phase == SupClosed)
  }

  /** One winner: the claim, the flow and the committed state agree. */
  predicate WinnerOk(c: Core) {
    && (c.gate.state == Running || c.gate.state.IsTerminal())
    && (c.flow.Idle? <==> c.gate.claim == NoOwner)
    && (c.flow.AwaitChildren? ==> StopsChildren(c.gate.claim))
    && (c.gate.state.IsTerminal() <==> Committed(c.flow))
    && (Committed(c.flow) ==>
          && c.gate.state == TargetOf(c.gate.claim)
          && |c.journal| > 0
          && c.journal[|c.journal| - 1] == Entry(TerminalKind(c.gate.state), None))
    && (c.gate.finErr <==> c.flow.Aborted?)
    && c.closes == (if c.flow.Aborted? || c.flow.Finished? then 1 else 0)
    && (c.intent.Pending? ==> c.intent.owner == CallerCancel || c.intent.owner == ParentCancel)
    && (c.gate.claim == CallerCancel || c.gate.claim == ParentCancel ==> !c.intent.NoIntent?)
    && (c.intent == Settled(true) ==> c.flow.Finished?)
    && (c.launch.Unlaunched? ==> c.parent.Some? && !c.recovered)
    && (c.abandoned ==> c.suspended && c.recovered)
    && (c.recovered || c.suspended ==> c.persisted)
  }

  predicate CoreOk(c: Core) {
    WinnerOk(c) && BarrierOk(c.flow, c.supervisor)
  }

  function Spawns(p: Core, child: Id): nat {
    multiset(p.journal)[Entry(ChildSpawned, Some(child))]
  }

  function Ends(p: Core, child: Id): nat {
    multiset(p.journal)[Entry(ChildTerminal, Some(child))]
  }

  /** What the chain of parent `p` says about its child `c`. */
  predicate PairOk(p: Core, id: Id, c: Core) {
    && Spawns(p, id) <= 1 && Ends(p, id) <= 1
    && (c.recovered || c.launch.Unlaunched? ==> Spawns(p, id) == 0)
    && (!c.recovered && c.launch.Started? ==> Spawns(p, id) == 1)
    && (!c.flow.Notified? && !c.flow.Finished? ==> Ends(p, id) == 0)
    && (!c.recovered && (c.flow.Notified? || c.flow.Finished?) ==>
          Ends(p, id) == 1 || p.gate.state.IsTerminal() || p.gate.finErr)
    && (Spawns(p, id) == 1 && StopsChildren(p.gate.claim) && !p.gate.finErr ==>
          id in Todo(p.flow) || (c.gate.state.IsTerminal() && Ends(p, id) == 1))
  }

  type Cores = map<Id, Core>

  ghost predicate CoresOk(cores: Cores) {
    forall i :: i in cores ==> CoreOk(cores[i])
  }

  ghost predicate PairsOk(cores: Cores) {
    forall p, c :: p in cores && c in cores && cores[c].parent == Some(p) && !cores[p].recovered
                   ==> PairOk(cores[p], c, cores[c])
  }

  /** A chain only speaks of children registered under it. */
  ghost predicate JournalsOk(cores: Cores) {
    forall p, e :: p in cores && !cores[p].recovered && e in cores[p].journal && e.child.Some?
                   ==> e.child.value in cores && cores[e.child.value].parent == Some(p)
  }

  ghost predicate RootedOk(cores: Cores, children: map<Id, set<Id>>) {
    forall c :: c in cores && !cores[c].recovered && cores[c].parent.Some?
                ==> && cores[c].parent.value in cores
                    && cores[c].parent.value != c
                    && c in ChildrenOf(children, cores[c].parent.value)
  }

  ghost predicate FamilyInv(cores: Cores, children: map<Id, set<Id>>) {
    PairsOk(cores) && JournalsOk(cores) && RootedOk(cores, children)
  }

  /** Bound ids are never reused; a fresh attempt's parent is registered. */
  ghost predicate AttemptsOk(
    attempts: map<Reg.Ticket, Attempt>, unbound: map<Reg.Ticket, Option<Id>>, bound: set<Id>, ids: set<Id>)
  {
    && attempts.Keys == unbound.Keys
    && ids <= bound
    && (forall t :: t in attempts && attempts[t].bound.Some? ==>
          attempts[t].bound.value in bound && attempts[t].bound.value !in ids)
    && (forall t, u :: t in attempts && u in attempts && t != u && attempts[t].bound.Some?
                       ==> attempts[t].bound != attempts[u].bound)
    && (forall t :: t in attempts && attempts[t].origin.Fresh? && unbound[t].Some?
                    ==> unbound[t].value in ids)
  }

  /** The slot of an invocation is held exactly until it is suspended,
      abandoned, or has run its terminal callback. */
  ghost predicate SlotsOk(active: map<Id, Option<Id>>, cores: Cores) {
    && active.Keys <= cores.Keys
    && (forall i :: i in cores ==>
          (i in active <==> !cores[i].suspended && !SlotReturned(cores[i].flow)))
    && (forall i :: i in active ==> active[i] == cores[i].parent)
  }

  /** A record this runtime has given up: no operation by `me` can seal it. */
  predicate GivenUp(r: Log.Snapshot, me: Log.RuntimeId) {
    && r.phase != Log.PhaseRunning
    && (r.phase == Log.PhaseRecovering || r.phase == Log.PhaseFinalizing ==>
          r.lease.Some? && r.lease.value != me)
  }

  predicate RecordOk(c: Core, r: Log.Snapshot, me: Log.RuntimeId) {
    && (Sealed(c.flow) ==> r.phase == Log.PhaseFinalizing || r.phase == Log.PhaseClosed)
    && (c.suspended && !c.abandoned ==> GivenUp(r, me) && !Sealed(c.flow))
  }

  ghost predicate DiskOk(cores: Cores, disk: map<Id, Log.Snapshot>, me: Log.RuntimeId) {
    forall i :: i in cores && cores[i].persisted ==> i in disk && RecordOk(cores[i], disk[i], me)
  }

  /** Per-core, accounting and durability clauses. */
  ghost predicate Books(s: Runtime) {
    && CoresOk(s.cores)
    && AttemptsOk(s.attempts, s.registry.unbound, s.bound, s.cores.Keys)
    && SlotsOk(s.registry.active, s.cores)
    && DiskOk(s.cores, s.disk, s.me)
  }

  ghost predicate Inv(s: Runtime) {
    Books(s) && FamilyInv(s.cores, s.children) && Reg.Conserved(s.registry)
  }

  // ---- How an update of one core looks from its parent and to its children ----

  predicate Told(f: Flow) {
    f.Notified? || f.Finished?
  }

  predicate QuietChild(c: Core, c': Core) {
    && c'.parent == c.parent && c'.persisted == c.persisted && c'.recovered == c.recovered
    && (c'.launch == c.launch || (c.launch.Unlaunched? && c'.launch.Refused?))
    && (Told(c'.flow) <==> Told(c.flow))
    && (c.gate.state.IsTerminal() ==> c'.gate.state.IsTerminal())
  }

  predicate QuietJournal(c: Core, c': Core) {
    || c'.journal == c.journal
    || (&& |c'.journal| == |c.journal| + 1
        && c'.journal == c.journal + [c'.journal[|c.journal|]]
        && c'.journal[|c.journal|].child.None?)
  }

  predicate QuietParent(c: Core, c': Core) {
    && QuietJournal(c, c')
    && (c.gate.state.IsTerminal() ==> c'.gate.state.IsTerminal())
    && (c.gate.finErr ==> c'.gate.finErr)
    && (StopsChildren(c'.gate.claim) && !c'.gate.finErr ==>
          StopsChildren(c.gate.claim) && !c.gate.finErr && Todo(c.flow) <= Todo(c'.flow))
  }

  lemma QuietCounts(c: Core, c': Core, child: Id)
    requires QuietJournal(c, c')
    ensures Spawns(c', child) == Spawns(c, child) && Ends(c', child) == Ends(c, child)
  {
  }

  lemma QuietAsParent(p: Core, p': Core, id: Id, c: Core)
    requires PairOk(p, id, c) && QuietParent(p, p')
    ensures PairOk(p', id, c)
  {
    QuietCounts(p, p', id);
  }

  /** One core changes, quietly for its parent; its own children are checked. */
  lemma OneUpdate(cores: Cores, children: map<Id, set<Id>>, i: Id, c': Core)
    requires FamilyInv(cores, children) && i in cores
    requires QuietChild(cores[i], c') && QuietJournal(cores[i], c')
    requires forall c :: c in cores && c != i && cores[c].parent == Some(i) && !cores[i].recovered
                         ==> PairOk(c', c, cores[c])
    ensures FamilyInv(cores[i := c'], children)
  {
    var cores' := cores[i := c'];
    forall p, c | p in cores' && c in cores' && cores'[c].parent == Some(p) && !cores'[p].recovered
      ensures PairOk(cores'[p], c, cores'[c])
    {
      if c == i && p != i {
        assert PairOk(cores[p], i, cores[i]);
      } else if c != i && p != i {
        assert PairOk(cores[p], c, cores[c]);
      }
    }
    forall p, e | p in cores' && !cores'[p].recovered && e in cores'[p].journal && e.child.Some?
      ensures e.child.value in cores' && cores'[e.child.value].parent == Some(p)
    {
      assert e in cores[p].journal;
    }
  }

  lemma QuietUpdate(cores: Cores, children: map<Id, set<Id>>, i: Id, c': Core)
    requires FamilyInv(cores, children) && i in cores
    requires QuietChild(cores[i], c') && QuietParent(cores[i], c')
    ensures FamilyInv(cores[i := c'], children)
  {
    forall c | c in cores && c != i && cores[c].parent == Some(i) && !cores[i].recovered
      ensures PairOk(c', c, cores[c])
    {
      QuietAsParent(cores[i], c', c, cores[c]);
    }
    OneUpdate(cores, children, i, c');
  }

  /** A stopping claim starts with every registered child on its list. */
  lemma StopClaimUpdate(cores: Cores, children: map<Id, set<Id>>, i: Id, c': Core)
    requires FamilyInv(cores, children) && i in cores
    requires QuietChild(cores[i], c') && c'.journal == cores[i].journal
    requires c'.flow == AwaitChildren(ChildrenOf(children, i))
    requires c'.gate.state == cores[i].gate.state && c'.gate.finErr == cores[i].gate.finErr
    ensures FamilyInv(cores[i := c'], children)
  {
    forall c | c in cores && c != i && cores[c].parent == Some(i) && !cores[i].recovered
      ensures PairOk(c', c, cores[c])
    {
      QuietCounts(cores[i], c', c);
      assert PairOk(cores[i], c, cores[c]);
    }
    OneUpdate(cores, children, i, c');
  }

  /** A child leaves the list only with its child_terminal in the chain. */
  lemma ConfirmUpdate(cores: Cores, children: map<Id, set<Id>>, i: Id, child: Id, c': Core)
    requires FamilyInv(cores, children) && i in cores && child in cores
    requires CoreOk(cores[i]) && CoreOk(cores[child])
    requires cores[i].flow.AwaitChildren? && ChildStopped(cores[i].gate.claim, cores[child])
    requires c' == cores[i].(flow := AwaitChildren(cores[i].flow.todo - {child}))
    ensures FamilyInv(cores[i := c'], children)
  {
    forall c | c in cores && c != i && cores[c].parent == Some(i) && !cores[i].recovered
      ensures PairOk(c', c, cores[c])
    {
      QuietCounts(cores[i], c', c);
      assert PairOk(cores[i], c, cores[c]);
    }
    OneUpdate(cores, children, i, c');
  }

  /** Parent `p` and child `i` change together: one entry about `i` is written. */
  predicate Written(cores: Cores, p: Id, i: Id, kind: Kind, c': Core, cores': Cores) {
    && p in cores && i in cores && p != i && cores[i].parent == Some(p)
    && cores' == cores[p := Write(cores[p], kind, Some(i))][i := c']
    && c' == cores[i].(launch := c'.launch, flow := c'.flow)
    && Todo(c'.flow) == Todo(cores[i].flow)
    && (!cores[p].recovered ==> PairOk(Write(cores[p], kind, Some(i)), i, c'))
  }

  lemma WrittenPair(cores: Cores, p: Id, i: Id, kind: Kind, c': Core, cores': Cores, q: Id, c: Id)
    requires PairsOk(cores) && Written(cores, p, i, kind, c', cores')
    requires q in cores && c in cores && cores[c].parent == Some(q) && !cores[q].recovered
    ensures PairOk(cores'[q], c, cores'[c])
  {
    assert PairOk(cores[q], c, cores[c]);
    if q == p && c != i {
      WriteCounts(cores[p], kind, i, c);
    }
  }

  lemma WrittenPairs(cores: Cores, p: Id, i: Id, kind: Kind, c': Core, cores': Cores)
    requires PairsOk(cores) && Written(cores, p, i, kind, c', cores')
    ensures PairsOk(cores')
  {
    forall q, c | q in cores' && c in cores' && cores'[c].parent == Some(q) && !cores'[q].recovered
      ensures PairOk(cores'[q], c, cores'[c])
    {
      assert q in cores && c in cores;
      assert cores[c].parent == cores'[c].parent && cores[q].recovered == cores'[q].recovered;
      WrittenPair(cores, p, i, kind, c', cores', q, c);
    }
  }

  lemma WrittenJournals(cores: Cores, p: Id, i: Id, kind: Kind, c': Core, cores': Cores)
    requires JournalsOk(cores) && Written(cores, p, i, kind, c', cores')
    ensures JournalsOk(cores')
  {
    forall q, e | q in cores' && !cores'[q].recovered && e in cores'[q].journal && e.child.Some?
      ensures e.child.value in cores' && cores'[e.child.value].parent == Some(q)
    {
      assert e in cores[q].journal || (q == p && e == Entry(kind, Some(i)));
    }
  }

  lemma TwoUpdates(
    cores: Cores, children: map<Id, set<Id>>, p: Id, i: Id, kind: Kind, c': Core, cores': Cores)
    requires FamilyInv(cores, children) && Written(cores, p, i, kind, c', cores')
    ensures FamilyInv(cores', children)
  {
    WrittenPairs(cores, p, i, kind, c', cores');
    WrittenJournals(cores, p, i, kind, c', cores');
    WrittenRooted(cores, children, p, i, kind, c', cores');
  }

  lemma WrittenRooted(
    cores: Cores, children: map<Id, set<Id>>, p: Id, i: Id, kind: Kind, c': Core, cores': Cores)
    requires RootedOk(cores, children) && Written(cores, p, i, kind, c', cores')
    ensures RootedOk(cores', children)
  {
  }

  lemma WriteCounts(p: Core, kind: Kind, i: Id, c: Id)
    ensures var p' := Write(p, kind, Some(i));
            && Spawns(p', c) == Spawns(p, c) + (if c == i && kind == ChildSpawned then 1 else 0)
            && Ends(p', c) == Ends(p, c) + (if c == i && kind == ChildTerminal then 1 else 0)
  {
  }

  // ---- Slots and disk around a core update ----

  lemma SameSlots(active: map<Id, Option<Id>>, cores: Cores, i: Id, c': Core)
    requires SlotsOk(active, cores) && i in cores
    requires c'.parent == cores[i].parent && c'.suspended == cores[i].suspended
    requires SlotReturned(c'.flow) == SlotReturned(cores[i].flow)
    ensures SlotsOk(active, cores[i := c'])
  {
  }

  lemma SlotGone(active: map<Id, Option<Id>>, cores: Cores, i: Id, c': Core)
    requires SlotsOk(active, cores) && i in cores
    requires c'.parent == cores[i].parent && (c'.suspended || SlotReturned(c'.flow))
    ensures SlotsOk(active - {i}, cores[i := c'])
  {
  }

  lemma DiskAfter(
    cores: Cores, disk: map<Id, Log.Snapshot>, me: Log.RuntimeId, i: Id, c': Core,
    disk': map<Id, Log.Snapshot>)
    requires DiskOk(cores, disk, me) && i in cores && c'.persisted == cores[i].persisted
    requires disk' == disk || (i in disk' && disk' == disk[i := disk'[i]])
    requires c'.persisted ==> i in disk' && RecordOk(c', disk'[i], me)
    ensures DiskOk(cores[i := c'], disk', me)
  {
  }
}
