/** Every action preserves the runtime invariant. */
module RuntimeProofs {
  import opened Wrappers
  import opened Lifecycle
  import opened RuntimeMachine
  import opened RuntimeInvariant
  import Reg = Registry
  import Log = RecoveryLog

  lemma InitEstablishes(s: Runtime)
    requires Init(s)
    ensures Inv(s)
  {
    forall p: Id
      ensures s.registry.Children(p)
              == |Reg.Under(s.registry.unbound, p)| + |Reg.Under(s.registry.active, p)|
    {
      assert Reg.Under(s.registry.unbound, p) == {};
      assert Reg.Under(s.registry.active, p) == {};
    }
  }

  // ---- Dispatch ----

  lemma AttemptAdded(
    attempts: map<Reg.Ticket, Attempt>, unbound: map<Reg.Ticket, Option<Id>>, bound: set<Id>, ids: set<Id>,
    t: Reg.Ticket, attempt: Attempt, parent: Option<Id>)
    requires AttemptsOk(attempts, unbound, bound, ids) && t !in attempts && attempt.bound.None?
    requires attempt.origin.Fresh? && parent.Some? ==> parent.value in ids
    ensures AttemptsOk(attempts[t := attempt], unbound[t := parent], bound, ids)
  {
  }

  lemma ReservePreserves(s: Runtime, t: Reg.Ticket, parent: Option<Id>, attempt: Attempt, s': Runtime)
    requires Inv(s) && t !in s.attempts && t !in s.registry.unbound
    requires s.registry.activeCount < PENDING_CAPACITY && attempt.bound.None?
    requires attempt.origin.Fresh? && parent.Some? ==> parent.value in s.cores
    requires s' == s.(registry := Reg.Reserved(s.registry, t, parent), attempts := s.attempts[t := attempt])
    ensures Inv(s')
  {
    hide CoresOk, SlotsOk, DiskOk, FamilyInv, AttemptsOk, Reg.Conserved;
    Reg.ReservedConserves(s.registry, t, parent);
    AttemptAdded(s.attempts, s.registry.unbound, s.bound, s.cores.Keys, t, attempt, parent);
  }

  lemma AttemptRemoved(
    attempts: map<Reg.Ticket, Attempt>, unbound: map<Reg.Ticket, Option<Id>>, bound: set<Id>, ids: set<Id>,
    t: Reg.Ticket)
    requires AttemptsOk(attempts, unbound, bound, ids)
    ensures AttemptsOk(attempts - {t}, unbound - {t}, bound, ids)
  {
  }

  lemma DropPreserves(s: Runtime, t: Reg.Ticket, s': Runtime)
    requires Inv(s) && Dispatch(s, Drop(t), s')
    ensures Inv(s')
  {
    hide CoresOk, SlotsOk, DiskOk, FamilyInv, AttemptsOk, Reg.Conserved;
    Reg.ReleasedConserves(s.registry, t);
    AttemptRemoved(s.attempts, s.registry.unbound, s.bound, s.cores.Keys, t);
  }

  lemma AttemptBound(
    attempts: map<Reg.Ticket, Attempt>, unbound: map<Reg.Ticket, Option<Id>>, bound: set<Id>, ids: set<Id>,
    t: Reg.Ticket, i: Id)
    requires AttemptsOk(attempts, unbound, bound, ids) && t in attempts && i !in bound
    ensures AttemptsOk(attempts[t := attempts[t].(bound := Some(i))], unbound, bound + {i}, ids)
  {
  }

  lemma StorePreserves(s: Runtime, t: Reg.Ticket, checkpoint: seq<int>, s': Runtime)
    requires Inv(s) && Dispatch(s, StoreInitial(t, checkpoint), s')
    ensures Inv(s')
  {
    hide CoresOk, SlotsOk, DiskOk, FamilyInv, AttemptsOk, Reg.Conserved;
    DiskGrows(s.cores, s.disk, s.me, s.attempts[t].bound.value, s'.disk);
  }

  lemma DiskGrows(
    cores: Cores, disk: map<Id, Log.Snapshot>, me: Log.RuntimeId, i: Id, disk': map<Id, Log.Snapshot>)
    requires DiskOk(cores, disk, me) && i !in disk && i in disk' && disk' == disk[i := disk'[i]]
    ensures DiskOk(cores, disk', me)
  {
  }

  /** What Register puts under a fresh id. */
  predicate Newborn(i: Id, c: Core) {
    && c.flow.Idle? && !c.suspended
    && (!c.recovered ==> c.parent != Some(i) && c.journal == START_JOURNAL && (c.launch.Unlaunched? || c.parent.None?))
  }

  lemma RegisterPair(cores: Cores, children: map<Id, set<Id>>, i: Id, c': Core, p: Id, c: Id)
    requires FamilyInv(cores, children) && i !in cores && Newborn(i, c')
    requires p in cores[i := c'] && c in cores[i := c']
    requires cores[i := c'][c].parent == Some(p) && !cores[i := c'][p].recovered
    ensures PairOk(cores[i := c'][p], c, cores[i := c'][c])
  {
    if p == i {
      assert c != i && cores[c].recovered;
      assert Spawns(c', c) == 0 && Ends(c', c) == 0;
    } else if c == i {
      assert Entry(ChildSpawned, Some(i)) !in cores[p].journal;
      assert Entry(ChildTerminal, Some(i)) !in cores[p].journal;
    } else {
      assert PairOk(cores[p], c, cores[c]);
    }
  }

  lemma RegisterPairs(cores: Cores, children: map<Id, set<Id>>, i: Id, c': Core)
    requires FamilyInv(cores, children) && i !in cores && Newborn(i, c')
    ensures PairsOk(cores[i := c'])
  {
    var cores' := cores[i := c'];
    forall p, c | p in cores' && c in cores' && cores'[c].parent == Some(p) && !cores'[p].recovered
      ensures PairOk(cores'[p], c, cores'[c])
    {
      RegisterPair(cores, children, i, c', p, c);
    }
  }

  lemma RegisterJournals(cores: Cores, i: Id, c': Core)
    requires JournalsOk(cores) && i !in cores && Newborn(i, c')
    ensures JournalsOk(cores[i := c'])
  {
    var cores' := cores[i := c'];
    forall p, e | p in cores' && !cores'[p].recovered && e in cores'[p].journal && e.child.Some?
      ensures e.child.value in cores' && cores'[e.child.value].parent == Some(p)
    {
      assert p != i && e in cores[p].journal;
    }
  }

  lemma RegisterRooted(cores: Cores, children: map<Id, set<Id>>, i: Id, c': Core, children': map<Id, set<Id>>)
    requires RootedOk(cores, children) && i !in cores && Newborn(i, c')
    requires !c'.recovered && c'.parent.Some? ==>
               c'.parent.value in cores && i in ChildrenOf(children', c'.parent.value)
    requires forall p :: ChildrenOf(children, p) <= ChildrenOf(children', p)
    ensures RootedOk(cores[i := c'], children')
  {
  }

  lemma AttemptRegistered(
    attempts: map<Reg.Ticket, Attempt>, unbound: map<Reg.Ticket, Option<Id>>, bound: set<Id>, ids: set<Id>,
    t: Reg.Ticket)
    requires AttemptsOk(attempts, unbound, bound, ids) && t in attempts && attempts[t].bound.Some?
    ensures AttemptsOk(attempts - {t}, unbound - {t}, bound, ids + {attempts[t].bound.value})
  {
  }

  lemma SlotTaken(active: map<Id, Option<Id>>, cores: Cores, i: Id, c': Core)
    requires SlotsOk(active, cores) && i !in cores && !c'.suspended && c'.flow.Idle?
    ensures SlotsOk(active[i := c'.parent], cores[i := c'])
  {
  }

  lemma RegisterFamily(
    cores: Cores, children: map<Id, set<Id>>, i: Id, parent: Option<Id>, origin: Origin, restored: seq<Entry>)
    requires FamilyInv(cores, children) && i !in cores
    requires origin.Fresh? && parent.Some? ==> parent.value in cores
    ensures FamilyInv(cores[i := NewCore(parent, origin, restored)], Adopt(children, origin, parent, i))
  {
    var c' := NewCore(parent, origin, restored);
    if c'.parent == Some(i) {
      assert c'.recovered;
    }
    RegisterPairs(cores, children, i, c');
    RegisterJournals(cores, i, c');
    RegisterRooted(cores, children, i, c', Adopt(children, origin, parent, i));
  }

  lemma CoreAdded(
    cores: Cores, disk: map<Id, Log.Snapshot>, me: Log.RuntimeId, i: Id, c': Core)
    requires CoresOk(cores) && DiskOk(cores, disk, me) && CoreOk(c') && c'.flow.Idle? && !c'.suspended
    requires c'.persisted ==> i in disk
    ensures CoresOk(cores[i := c']) && DiskOk(cores[i := c'], disk, me)
  {
  }

  lemma NewCoreOk(parent: Option<Id>, origin: Origin, restored: seq<Entry>)
    ensures var c' := NewCore(parent, origin, restored);
            CoreOk(c') && c'.flow.Idle? && !c'.suspended && c'.parent == parent
            && (c'.persisted <==> origin.Resume? || origin.persist)
  {
  }

  lemma RegisterAttempts(s: Runtime, t: Reg.Ticket, c': Core)
    requires AttemptsOk(s.attempts, s.registry.unbound, s.bound, s.cores.Keys)
    requires t in s.attempts && s.attempts[t].bound.Some?
    ensures s.attempts[t].bound.value !in s.cores
    ensures AttemptsOk(s.attempts - {t}, s.registry.unbound - {t}, s.bound,
                       s.cores[s.attempts[t].bound.value := c'].Keys)
  {
    var i := s.attempts[t].bound.value;
    assert s.cores[i := c'].Keys == s.cores.Keys + {i};
    AttemptRegistered(s.attempts, s.registry.unbound, s.bound, s.cores.Keys, t);
  }

  lemma RegisterBooks(s: Runtime, t: Reg.Ticket, c': Core, s': Runtime)
    requires Books(s) && MayRegister(s, t) && CoreOk(c') && c'.flow.Idle? && !c'.suspended
    requires c'.parent == s.registry.unbound[t]
    requires c'.persisted ==> s.attempts[t].bound.value in s.disk
    requires s' == s.(registry := Reg.Registered(s.registry, t, s.attempts[t].bound.value),
                      attempts := s.attempts - {t}, children := s'.children,
                      cores := s.cores[s.attempts[t].bound.value := c'])
    ensures Books(s') && s.attempts[t].bound.value !in s.cores
  {
    var i := s.attempts[t].bound.value;
    RegisterAttempts(s, t, c');
    CoreAdded(s.cores, s.disk, s.me, i, c');
    SlotTaken(s.registry.active, s.cores, i, c');
  }

  lemma RegisterConserves(s: Runtime, t: Reg.Ticket)
    requires Books(s) && Reg.Conserved(s.registry) && MayRegister(s, t)
    ensures Reg.Conserved(Reg.Registered(s.registry, t, s.attempts[t].bound.value))
  {
    Reg.RegisteredConserves(s.registry, t, s.attempts[t].bound.value);
  }

  lemma RegisterPreserves(s: Runtime, t: Reg.Ticket, restored: seq<Entry>)
    requires Inv(s) && MayRegister(s, t)
    ensures Inv(AfterRegister(s, t, restored))
  {
    RegisterBooksStep(s, t, restored);
    RegisterConserves(s, t);
    RegisterFamilyStep(s, t, restored);
  }

  lemma RegisterBooksStep(s: Runtime, t: Reg.Ticket, restored: seq<Entry>)
    requires Books(s) && MayRegister(s, t)
    ensures Books(AfterRegister(s, t, restored))
  {
    hide Books, CoreOk;
    var c' := NewCore(s.registry.unbound[t], s.attempts[t].origin, restored);
    NewCoreOk(s.registry.unbound[t], s.attempts[t].origin, restored);
    RegisterBooks(s, t, c', AfterRegister(s, t, restored));
  }

  lemma RegisterFamilyStep(s: Runtime, t: Reg.Ticket, restored: seq<Entry>)
    requires FamilyInv(s.cores, s.children) && MayRegister(s, t)
    requires AttemptsOk(s.attempts, s.registry.unbound, s.bound, s.cores.Keys)
    ensures FamilyInv(AfterRegister(s, t, restored).cores, AfterRegister(s, t, restored).children)
  {
    RegisterFamily(s.cores, s.children, s.attempts[t].bound.value, s.registry.unbound[t],
                   s.attempts[t].origin, restored);
  }

  lemma DispatchPreserves(s: Runtime, a: Action, s': Runtime)
    requires Inv(s) && Dispatch(s, a, s')
    ensures Inv(s')
  {
    hide CoresOk, SlotsOk, DiskOk, FamilyInv, AttemptsOk, Reg.Conserved, MayRegister, AfterRegister;
    match a {
      case Reserve(t, parent, persist) =>
        ReservePreserves(s, t, parent, Attempt(Fresh(persist), None), s');
      case ReserveResume(t, parent, i) =>
        ReservePreserves(s, t, parent, Attempt(Resume(i), None), s');
      case Bind(t, i) => AttemptBound(s.attempts, s.registry.unbound, s.bound, s.cores.Keys, t, i);
      case StoreInitial(t, checkpoint) => StorePreserves(s, t, checkpoint, s');
      case Drop(t) => DropPreserves(s, t, s');
      case Register(t, restored) => RegisterPreserves(s, t, restored);
    }
  }

  // ---- Updates of one core ----

  /** A core update that neither its relatives nor the books notice. */
  predicate Silent(c: Core, c': Core) {
    && QuietChild(c, c') && QuietParent(c, c') && CoreOk(c')
    && c'.suspended == c.suspended && c'.abandoned == c.abandoned
    && SlotReturned(c'.flow) == SlotReturned(c.flow)
    && (Sealed(c'.flow) ==> Sealed(c.flow))
  }

  /** The claims of cancellation and deadline collect the children to stop. */
  predicate StopClaim(a: Action) {
    a.CancelClaim? || a.DeadlineClaim?
  }

  /** Replacing one core keeps everything outside its family. */
  lemma CoreReplaced(s: Runtime, i: Id, c': Core, s': Runtime)
    requires Books(s) && i in s.cores && CoreOk(c')
    requires s' == s.(cores := s.cores[i := c'], disk := s'.disk)
    requires c'.parent == s.cores[i].parent && c'.suspended == s.cores[i].suspended
    requires SlotReturned(c'.flow) == SlotReturned(s.cores[i].flow) && c'.persisted == s.cores[i].persisted
    requires s'.disk == s.disk || (i in s'.disk && s'.disk == s.disk[i := s'.disk[i]])
    requires c'.persisted && i in s.disk && RecordOk(s.cores[i], s.disk[i], s.me) ==>
               i in s'.disk && RecordOk(c', s'.disk[i], s.me)
    ensures Books(s')
  {
    hide CoreOk;
    SameSlots(s.registry.active, s.cores, i, c');
    DiskAfter(s.cores, s.disk, s.me, i, c', s'.disk);
    assert s'.cores.Keys == s.cores.Keys;
  }

  lemma SilentPreserves(s: Runtime, i: Id, c': Core, s': Runtime)
    requires Inv(s) && i in s.cores && s' == Put(s, i, c') && Silent(s.cores[i], c')
    ensures Inv(s')
  {
    QuietUpdate(s.cores, s.children, i, c');
    CoreReplaced(s, i, c', s');
  }

  lemma ContendIsSilent(c: Core, children: set<Id>, a: Action, c': Core)
    requires ContendStep(c, children, a, c') && !StopClaim(a) && CoreOk(c)
    ensures Silent(c, c')
  {
  }

  lemma PublishKeepsWinner(c: Core, v: Supervisor)
    requires WinnerOk(c) && c.flow.Cleaning?
    ensures WinnerOk(c.(supervisor := v, flow := Ready))
    ensures WinnerOk(FailFinalization(c).(supervisor := v, flow := Aborted))
  {
  }

  lemma CleanupKeepsWinner(c: Core, a: Action, c': Core)
    requires CleanupStep(c, a, c') && WinnerOk(c)
    ensures WinnerOk(c') && c'.journal == c.journal
  {
    if a.CleanupPublish? {
      PublishKeepsWinner(c, c'.supervisor);
    } else {
      assert c' == c.(supervisor := c'.supervisor);
    }
  }

  lemma CleanupKeepsBarrier(c: Core, a: Action, c': Core)
    requires CleanupStep(c, a, c') && BarrierOk(c.flow, c.supervisor)
    ensures BarrierOk(c'.flow, c'.supervisor)
  {
  }

  lemma CleanupIsSilent(c: Core, a: Action, c': Core)
    requires CleanupStep(c, a, c') && CoreOk(c)
    ensures Silent(c, c')
  {
    CleanupKeepsWinner(c, a, c');
    CleanupKeepsBarrier(c, a, c');
    assert QuietParent(c, c') && QuietChild(c, c');
  }

  lemma StopClaimIsSound(c: Core, children: set<Id>, a: Action, c': Core)
    requires ContendStep(c, children, a, c') && StopClaim(a) && CoreOk(c)
    ensures CoreOk(c') && QuietChild(c, c') && c'.flow == AwaitChildren(children) && c.flow.Idle?
    ensures c' == c.(gate := c.gate.(claim := c'.gate.claim), flow := c'.flow)
  {
  }

  lemma StopClaimBooks(s: Runtime, a: Action, s': Runtime)
    requires Books(s) && Contend(s, a, s') && StopClaim(a)
    ensures Books(s')
  {
    assert CoreOk(s.cores[a.i]);
    StopClaimIsSound(s.cores[a.i], ChildrenOf(s.children, a.i), a, s'.cores[a.i]);
    hide CoreOk, ContendStep;
    CoreReplaced(s, a.i, s'.cores[a.i], s');
  }

  lemma StopClaimFamily(s: Runtime, a: Action, s': Runtime)
    requires CoresOk(s.cores) && FamilyInv(s.cores, s.children) && Contend(s, a, s') && StopClaim(a)
    ensures FamilyInv(s'.cores, s'.children)
  {
    assert CoreOk(s.cores[a.i]);
    StopClaimIsSound(s.cores[a.i], ChildrenOf(s.children, a.i), a, s'.cores[a.i]);
    hide CoreOk, ContendStep, FamilyInv;
    StopClaimUpdate(s.cores, s.children, a.i, s'.cores[a.i]);
  }

  lemma ContendPreserves(s: Runtime, a: Action, s': Runtime)
    requires Inv(s) && Contend(s, a, s')
    ensures Inv(s')
  {
    hide SlotsOk, DiskOk, AttemptsOk, FamilyInv, Reg.Conserved, CoreOk, ContendStep;
    assert CoreOk(s.cores[a.i]);
    if StopClaim(a) {
      StopClaimBooks(s, a, s');
      StopClaimFamily(s, a, s');
    } else {
      ContendIsSilent(s.cores[a.i], ChildrenOf(s.children, a.i), a, s'.cores[a.i]);
      SilentPreserves(s, a.i, s'.cores[a.i], s');
    }
  }

  lemma CleanupPreserves(s: Runtime, a: Action, s': Runtime)
    requires Inv(s) && Cleanup(s, a, s')
    ensures Inv(s')
  {
    hide SlotsOk, DiskOk, AttemptsOk, FamilyInv, Reg.Conserved, CoreOk, CleanupStep;
    assert CoreOk(s.cores[a.i]);
    CleanupIsSilent(s.cores[a.i], a, s'.cores[a.i]);
    SilentPreserves(s, a.i, s'.cores[a.i], s');
  }

  // ---- Spawning and notifying: parent and child change together ----

  lemma SpawnPreserves(s: Runtime, a: Action, s': Runtime)
    requires Inv(s) && Spawn(s, a, s')
    ensures Inv(s')
  {
    hide SlotsOk, DiskOk, AttemptsOk, FamilyInv, Reg.Conserved, CoreOk;
    assert CoreOk(s.cores[a.i]);
    match a {
      case SpawnCommit(i, durable) => SpawnCommitPreserves(s, i, durable, s');
      case SpawnRefuse(i) =>
        RefuseIsSilent(s.cores[i]);
        SilentPreserves(s, i, s'.cores[i], s');
      case HandlerEmit(i, kind) =>
        HandlerEmitIsSilent(s.cores[i], kind);
        SilentPreserves(s, i, s'.cores[i], s');
    }
  }

  lemma RefuseIsSilent(c: Core)
    requires CoreOk(c) && c.launch.Unlaunched?
    ensures Silent(c, c.(launch := Refused))
  {
  }

  lemma HandlerEmitIsSilent(c: Core, kind: Kind)
    requires CoreOk(c) && Admits(c.gate, kind, Running)
    ensures Silent(c, Write(c, kind, None))
  {
  }

  /** Two cores change, and nothing the books or the disk care about. */
  lemma PairReplaced(s: Runtime, p: Id, i: Id, p': Core, c': Core, s': Runtime)
    requires Books(s) && p in s.cores && i in s.cores && p != i
    requires s' == s.(cores := s.cores[p := p'][i := c'])
    requires CoreOk(p') && CoreOk(c')
    requires p' == s.cores[p].(journal := p'.journal)
    requires c' == s.cores[i].(launch := c'.launch, flow := c'.flow)
    requires SlotReturned(c'.flow) == SlotReturned(s.cores[i].flow)
    requires Sealed(c'.flow) == Sealed(s.cores[i].flow)
    ensures Books(s')
  {
    hide CoreOk;
    SameSlots(s.registry.active, s.cores, p, p');
    SameSlots(s.registry.active, s.cores[p := p'], i, c');
    DiskAfter(s.cores, s.disk, s.me, p, p', s.disk);
    DiskAfter(s.cores[p := p'], s.disk, s.me, i, c', s.disk);
    assert s'.cores.Keys == s.cores.Keys;
  }

  lemma SpawnPairOk(p: Core, i: Id, c: Core, durable: bool)
    requires CoreOk(p) && CoreOk(c) && c.launch.Unlaunched? && Admits(p.gate, ChildSpawned, Running)
    requires !p.recovered ==> PairOk(p, i, c)
    ensures var p', c' := Write(p, ChildSpawned, Some(i)), c.(launch := if durable then Started else Refused);
            CoreOk(p') && CoreOk(c') && (!p.recovered ==> PairOk(p', i, c'))
  {
    WriteCounts(p, ChildSpawned, i, i);
  }

  lemma SpawnCommitPreserves(s: Runtime, i: Id, durable: bool, s': Runtime)
    requires Inv(s) && Spawn(s, SpawnCommit(i, durable), s')
    ensures Inv(s')
  {
    var p := s.cores[i].parent.value;
    var p', c' := Write(s.cores[p], ChildSpawned, Some(i)), s'.cores[i];
    SpawnPairOk(s.cores[p], i, s.cores[i], durable);
    TwoUpdates(s.cores, s.children, p, i, ChildSpawned, c', s'.cores);
    PairReplaced(s, p, i, p', c', s');
  }

  lemma NotifyPairOk(p: Core, i: Id, c: Core)
    requires CoreOk(p) && CoreOk(c) && c.flow.Released?
    requires !p.recovered ==> PairOk(p, i, c)
    ensures var c' := c.(flow := Notified(c.flow.durable));
            && CoreOk(c')
            && (if Admits(p.gate, ChildTerminal, Running) then
                  var p' := Write(p, ChildTerminal, Some(i));
                  CoreOk(p') && (!p.recovered ==> PairOk(p', i, c'))
                else !p.recovered ==> PairOk(p, i, c'))
  {
    WriteCounts(p, ChildTerminal, i, i);
  }

  lemma UnheardPair(cores: Cores, i: Id, c': Core, p: Id, c: Id)
    requires PairsOk(cores) && CoresOk(cores) && i in cores && cores[i].flow.Released?
    requires c' == cores[i].(flow := Notified(cores[i].flow.durable)) && !ParentListens(cores, i)
    requires p in cores && c in cores && cores[c].parent == Some(p) && !cores[p].recovered
    requires p != c
    ensures PairOk(cores[i := c'][p], c, cores[i := c'][c])
  {
    assert PairOk(cores[p], c, cores[c]);
    if c == i {
      NotifyPairOk(cores[p], i, cores[i]);
    } else if p == i {
      QuietAsParent(cores[i], c', c, cores[c]);
    }
  }

  lemma UnheardPairs(cores: Cores, i: Id, c': Core)
    requires PairsOk(cores) && CoresOk(cores) && i in cores && cores[i].flow.Released?
    requires forall c :: c in cores && !cores[c].recovered && cores[c].parent.Some? ==> cores[c].parent.value != c
    requires c' == cores[i].(flow := Notified(cores[i].flow.durable)) && !ParentListens(cores, i)
    ensures PairsOk(cores[i := c'])
  {
    var cores' := cores[i := c'];
    forall p, c | p in cores' && c in cores' && cores'[c].parent == Some(p) && !cores'[p].recovered
      ensures PairOk(cores'[p], c, cores'[c])
    {
      hide CoresOk, PairsOk, PairOk;
      UnheardPair(cores, i, c', p, c);
    }
  }

  lemma UnheardUpdate(cores: Cores, children: map<Id, set<Id>>, i: Id, c': Core)
    requires FamilyInv(cores, children) && CoresOk(cores) && i in cores && cores[i].flow.Released?
    requires c' == cores[i].(flow := Notified(cores[i].flow.durable)) && !ParentListens(cores, i)
    ensures FamilyInv(cores[i := c'], children)
  {
    UnheardPairs(cores, i, c');
    UnheardJournals(cores, i, c');
    UnheardRooted(cores, children, i, c');
    hide CoresOk, PairsOk, JournalsOk, RootedOk;
  }

  lemma UnheardJournals(cores: Cores, i: Id, c': Core)
    requires JournalsOk(cores) && i in cores && c' == cores[i].(flow := c'.flow)
    ensures JournalsOk(cores[i := c'])
  {
    var cores' := cores[i := c'];
    forall p, e | p in cores' && !cores'[p].recovered && e in cores'[p].journal && e.child.Some?
      ensures e.child.value in cores' && cores'[e.child.value].parent == Some(p)
    {
      assert e in cores[p].journal;
    }
  }

  lemma UnheardRooted(cores: Cores, children: map<Id, set<Id>>, i: Id, c': Core)
    requires RootedOk(cores, children) && i in cores && c' == cores[i].(flow := c'.flow)
    ensures RootedOk(cores[i := c'], children)
  {
  }

  lemma NotifyFamily(cores: Cores, children: map<Id, set<Id>>, i: Id)
    requires FamilyInv(cores, children) && CoresOk(cores) && i in cores && cores[i].flow.Released?
    ensures FamilyInv(AfterNotify(cores, i), children)
  {
    var c' := cores[i].(flow := Notified(cores[i].flow.durable));
    if ParentListens(cores, i) {
      var p := cores[i].parent.value;
      NotifyPairOk(cores[p], i, cores[i]);
      TwoUpdates(cores, children, p, i, ChildTerminal, c', AfterNotify(cores, i));
    } else {
      UnheardUpdate(cores, children, i, c');
    }
  }

  lemma NotifyBooks(s: Runtime, i: Id, s': Runtime)
    requires Books(s) && Finalize(s, Notify(i), s')
    ensures Books(s')
  {
    var c' := s.cores[i].(flow := Notified(s.cores[i].flow.durable));
    NotifiedOk(s.cores[i]);
    if ParentListens(s.cores, i) {
      var p := s.cores[i].parent.value;
      HeardOk(s.cores[p], i);
      PairReplaced(s, p, i, Write(s.cores[p], ChildTerminal, Some(i)), c', s');
    } else {
      CoreReplaced(s, i, c', s');
    }
  }

  lemma NotifiedOk(c: Core)
    requires CoreOk(c) && c.flow.Released?
    ensures CoreOk(c.(flow := Notified(c.flow.durable)))
  {
  }

  lemma HeardOk(p: Core, i: Id)
    requires CoreOk(p) && Admits(p.gate, ChildTerminal, Running)
    ensures CoreOk(Write(p, ChildTerminal, Some(i)))
  {
  }

  // ---- The claim goroutine ----

  lemma FlowStepKeepsCore(c: Core, a: Action, c': Core)
    requires FlowStep(c, a, c') && CoreOk(c)
    ensures CoreOk(c')
  {
  }

  lemma FlowStepIsQuiet(c: Core, a: Action, c': Core)
    requires FlowStep(c, a, c') && CoreOk(c)
    ensures Silent(c, c')
  {
    FlowStepKeepsCore(c, a, c');
    assert QuietParent(c, c') && QuietChild(c, c');
  }

  lemma ProgressedPreserves(s: Runtime, a: Action, s': Runtime)
    requires Inv(s) && Progressed(s, a, s')
    ensures Inv(s')
  {
    hide SlotsOk, DiskOk, AttemptsOk, FamilyInv, Reg.Conserved, CoreOk, FlowStep;
    assert CoreOk(s.cores[a.i]);
    FlowStepIsQuiet(s.cores[a.i], a, s'.cores[a.i]);
    SilentPreserves(s, a.i, s'.cores[a.i], s');
  }

  lemma ConfirmBooks(s: Runtime, i: Id, child: Id, s': Runtime)
    requires Books(s) && Finalize(s, ChildConfirmed(i, child), s')
    ensures Books(s')
  {
    assert CoreOk(s.cores[i]);
    ConfirmedOk(s.cores[i], child);
    hide CoreOk, ChildStopped;
    CoreReplaced(s, i, s'.cores[i], s');
  }

  lemma ConfirmedOk(c: Core, child: Id)
    requires CoreOk(c) && c.flow.AwaitChildren?
    ensures CoreOk(c.(flow := AwaitChildren(c.flow.todo - {child})))
  {
  }

  lemma ConfirmFamily(cores: Cores, children: map<Id, set<Id>>, i: Id, child: Id, c': Core)
    requires FamilyInv(cores, children) && CoresOk(cores) && i in cores && child in cores
    requires cores[i].flow.AwaitChildren? && ChildStopped(cores[i].gate.claim, cores[child])
    requires c' == cores[i].(flow := AwaitChildren(cores[i].flow.todo - {child}))
    ensures FamilyInv(cores[i := c'], children)
  {
    assert CoreOk(cores[i]) && CoreOk(cores[child]);
    ConfirmUpdate(cores, children, i, child, c');
  }

  lemma SealIsSound(c: Core, r: Log.Snapshot, me: Log.RuntimeId, now: int)
    requires CoreOk(c) && c.flow.Sealing?
    requires c.persisted ==> RecordOk(c, r, me) && Log.ApplyBegin(r, me, now).Ok?
    ensures var c' := c.(flow := Cleaning);
            && CoreOk(c') && QuietChild(c, c') && QuietParent(c, c')
            && (c.persisted ==> RecordOk(c', Log.ApplyBegin(r, me, now).value, me))
  {
  }

  lemma SealPreserves(s: Runtime, i: Id, now: int, s': Runtime)
    requires Inv(s) && Finalize(s, Seal(i, now), s')
    ensures Inv(s')
  {
    var c, c' := s.cores[i], s.cores[i].(flow := Cleaning);
    assert CoreOk(c);
    SealIsSound(c, if c.persisted then s.disk[i] else Log.BLANK, s.me, now);
    QuietUpdate(s.cores, s.children, i, c');
    CoreReplaced(s, i, c', s');
  }

  lemma ConcludeIsSound(c: Core, durable: bool, r: Log.Snapshot, me: Log.RuntimeId, now: int)
    requires CoreOk(c) && c.flow.Ready? && (c.persisted ==> RecordOk(c, r, me))
    ensures c.gate.claim != NoOwner
    ensures var c' := Concluded(c, durable);
            && CoreOk(c') && QuietChild(c, c') && QuietParent(c, c')
            && (c.persisted ==> RecordOk(c', r, me))
            && (var stored := Log.ApplyAppend(r, if c.recovered then Some(me) else None, TerminalEvent(c), now);
                c.persisted && stored.Ok? ==> RecordOk(c', stored.value, me))
  {
  }

  lemma EmitTerminalPreserves(s: Runtime, i: Id, durable: bool, now: int, s': Runtime)
    requires Inv(s) && Finalize(s, EmitTerminal(i, durable, now), s')
    ensures Inv(s')
  {
    var c, c' := s.cores[i], Concluded(s.cores[i], durable);
    assert CoreOk(c);
    ConcludeIsSound(c, durable, if i in s.disk then s.disk[i] else Log.BLANK, s.me, now);
    QuietUpdate(s.cores, s.children, i, c');
    CoreReplaced(s, i, c', s');
  }

  /** A core gives its slot back, on its terminal callback or by suspension. */
  lemma SlotGivenBack(s: Runtime, i: Id, c': Core, s': Runtime)
    requires Books(s) && i in s.cores && CoreOk(c')
    requires s' == s.(cores := s.cores[i := c'], disk := s'.disk, registry := Reg.Deactivated(s.registry, i))
    requires c'.parent == s.cores[i].parent && c'.persisted == s.cores[i].persisted
    requires c'.suspended || SlotReturned(c'.flow)
    requires s'.disk == s.disk || (i in s'.disk && s'.disk == s.disk[i := s'.disk[i]])
    requires c'.persisted && i in s.disk && RecordOk(s.cores[i], s.disk[i], s.me) ==>
               i in s'.disk && RecordOk(c', s'.disk[i], s.me)
    ensures Books(s')
  {
    hide CoreOk;
    assert s'.cores.Keys == s.cores.Keys;
    DiskAfter(s.cores, s.disk, s.me, i, c', s'.disk);
    SlotGone(s.registry.active, s.cores, i, c');
    assert s'.registry.active == s.registry.active - {i};
  }

  lemma ReleaseIsSound(c: Core)
    requires CoreOk(c) && c.flow.Emitted?
    ensures var c' := c.(flow := Released(c.flow.durable));
            CoreOk(c') && QuietChild(c, c') && QuietParent(c, c')
  {
  }

  lemma ReleasePreserves(s: Runtime, i: Id, s': Runtime)
    requires Inv(s) && Finalize(s, Release(i), s')
    ensures Inv(s')
  {
    assert CoreOk(s.cores[i]);
    ReleaseIsSound(s.cores[i]);
    QuietUpdate(s.cores, s.children, i, s'.cores[i]);
    SlotGivenBack(s, i, s'.cores[i], s');
    Reg.DeactivatedConserves(s.registry, i);
  }

  lemma FinalizePreserves(s: Runtime, a: Action, s': Runtime)
    requires Inv(s) && Finalize(s, a, s')
    ensures Inv(s')
  {
    hide CoresOk, SlotsOk, DiskOk, AttemptsOk, FamilyInv, Reg.Conserved, ChildStopped;
    match a {
      case ChildConfirmed(i, child) =>
        ConfirmBooks(s, i, child, s');
        ConfirmFamily(s.cores, s.children, i, child, s'.cores[i]);
      case Seal(i, now) => SealPreserves(s, i, now, s');
      case EmitTerminal(i, durable, now) => EmitTerminalPreserves(s, i, durable, now, s');
      case Release(i) => ReleasePreserves(s, i, s');
      case Notify(i) =>
        NotifyBooks(s, i, s');
        NotifyFamily(s.cores, s.children, i);
    }
  }

  // ---- Giving up and the disk ----

  lemma SuspendIsSound(c: Core, r: Log.Snapshot, me: Log.RuntimeId)
    requires CoreOk(c) && c.persisted && Claimable(c.gate) && Log.ApplyMark(r, Log.PhaseSuspended).Ok?
    ensures var c' := c.(suspended := true);
            && CoreOk(c') && QuietChild(c, c') && QuietParent(c, c')
            && RecordOk(c', Log.ApplyMark(r, Log.PhaseSuspended).value, me)
  {
  }

  lemma AbandonIsSound(c: Core, r: Log.Snapshot, me: Log.RuntimeId)
    requires CoreOk(c) && c.recovered
    ensures var c' := c.(suspended := true, abandoned := true);
            && CoreOk(c') && QuietChild(c, c') && QuietParent(c, c')
            && (RecordOk(c, r, me) ==> RecordOk(c', r, me))
  {
  }

  lemma PermittedIsSound(c: Core, r: Log.Snapshot, me: Log.RuntimeId, op: Log.Op, now: int)
    requires RecordOk(c, r, me) && Log.Apply(r, op, now).Ok?
    requires match op
             case Append(owner, event) => (owner.Some? && owner.value != me) || !event.state.IsTerminal()
             case Checkpoint(_, _) => true
             case Begin(owner) => owner != me
             case Mark(phase) =>
               (phase == Log.PhaseSuspended || phase == Log.PhaseClosed) && r.phase != Log.PhaseClosed
             case Claim(owner, _) => owner != me
             case Renew(_, _) => true
    ensures RecordOk(c, Log.Apply(r, op, now).value, me)
  {
  }

  lemma DiskStepPreserves(s: Runtime, i: Id, op: Log.Op, now: int, s': Runtime)
    requires Inv(s) && Relinquish(s, DiskStep(i, op, now), s')
    ensures Inv(s')
  {
    if i in s.cores && s.cores[i].persisted {
      PermittedIsSound(s.cores[i], s.disk[i], s.me, op, now);
    }
    DiskTouched(s.cores, s.disk, s.me, i, s'.disk);
  }

  lemma DiskTouched(
    cores: Cores, disk: map<Id, Log.Snapshot>, me: Log.RuntimeId, i: Id, disk': map<Id, Log.Snapshot>)
    requires DiskOk(cores, disk, me) && i in disk' && disk' == disk[i := disk'[i]]
    requires i in cores && cores[i].persisted ==> RecordOk(cores[i], disk'[i], me)
    ensures DiskOk(cores, disk', me)
  {
  }

  lemma RelinquishPreserves(s: Runtime, a: Action, s': Runtime)
    requires Inv(s) && Relinquish(s, a, s')
    ensures Inv(s')
  {
    hide SlotsOk, DiskOk, AttemptsOk, FamilyInv, Reg.Conserved, CoreOk;
    match a {
      case Suspend(i) =>
        assert CoreOk(s.cores[i]);
        SuspendIsSound(s.cores[i], s.disk[i], s.me);
        QuietUpdate(s.cores, s.children, i, s'.cores[i]);
        SlotGivenBack(s, i, s'.cores[i], s');
        Reg.DeactivatedConserves(s.registry, i);
      case Abandon(i) =>
        assert CoreOk(s.cores[i]);
        AbandonIsSound(s.cores[i], if i in s.disk then s.disk[i] else Log.BLANK, s.me);
        QuietUpdate(s.cores, s.children, i, s'.cores[i]);
        SlotGivenBack(s, i, s'.cores[i], s');
        Reg.DeactivatedConserves(s.registry, i);
      case DiskStep(i, op, now) => DiskStepPreserves(s, i, op, now, s');
    }
  }

  /** The invariant is inductive. */
  lemma StepPreserves(s: Runtime, a: Action, s': Runtime)
    requires Inv(s) && Step(s, a, s')
    ensures Inv(s')
  {
    hide Inv, Dispatch, Spawn, Contend, Progressed, Finalize, Cleanup, Relinquish;
    if Dispatch(s, a, s') {
      DispatchPreserves(s, a, s');
    } else if Spawn(s, a, s') {
      SpawnPreserves(s, a, s');
    } else if Contend(s, a, s') {
      ContendPreserves(s, a, s');
    } else if Progressed(s, a, s') {
      ProgressedPreserves(s, a, s');
    } else if Finalize(s, a, s') {
      FinalizePreserves(s, a, s');
    } else if Cleanup(s, a, s') {
      CleanupPreserves(s, a, s');
    } else {
      RelinquishPreserves(s, a, s');
    }
  }

  lemma RunShape(states: seq<Runtime>, actions: seq<Action>)
    requires Run(states, actions)
    ensures |states| == |actions| + 1 && Init(states[0])
  {
  }

  lemma RunStep(states: seq<Runtime>, actions: seq<Action>, k: nat)
    requires Run(states, actions) && k + 1 < |states|
    ensures k < |actions| && Step(states[k], actions[k], states[k + 1])
  {
  }

  /** Every state of every run satisfies the invariant. */
  lemma {:induction false} RunInvariant(states: seq<Runtime>, actions: seq<Action>, k: nat)
    requires Run(states, actions) && k < |states|
    ensures Inv(states[k])
  {
    hide *;
    if k == 0 {
      RunShape(states, actions);
      InitEstablishes(states[0]);
    } else {
      RunInvariant(states, actions, k - 1);
      RunStep(states, actions, k - 1);
      StepPreserves(states[k - 1], actions[k - 1], states[k]);
    }
  }
}
