/** LocalRuntime as a state machine. Each action is one critical section of r.mu,
    of one core's c.mu or of one supervisor's s.mu; everything between two
    critical sections of a goroutine may be interleaved with any other action.
    Goroutine program counters are the `launch`, `flow` and `intent` fields.
    A core is not shared before it is registered, so its four start-up events
    are part of Register. */
module RuntimeMachine {
  import opened Wrappers
  import opened Lifecycle
  import Reg = Registry
  import Log = RecoveryLog

  datatype SupervisorPhase = SupActive | SupClosing | SupClosed | SupFailed

  /** The cleanup barrier: `queued` callbacks wait, `running` ones have been
      taken by the drain loop, `registered` and `ran` count all of them. */
  datatype Supervisor = Supervisor(
    phase: SupervisorPhase, queued: nat, running: nat, registered: nat, ran: nat, failed: bool)

  /** Where the dispatching goroutine is after registration. */
  datatype Launch = Unlaunched | Started | Refused

  /** The cancelIntent of an invocation. */
  datatype Intent = NoIntent | Pending(owner: Owner) | Settled(ok: bool)

  /** Where the goroutine holding the terminal claim is. */
  datatype Flow =
    | Idle
    | AwaitChildren(todo: set<Id>)
    | Sealing
    | Cleaning
    | Ready
    | Emitted(durable: bool)
    | Released(durable: bool)
    | Notified(durable: bool)
    | Finished(durable: bool)
    | Aborted
    | Stuck

  datatype Entry = Entry(kind: Kind, child: Option<Id>)

  datatype Core = Core(
    parent: Option<Id>,
    persisted: bool,
    recovered: bool,
    gate: Gate,
    journal: seq<Entry>,
    launch: Launch,
    flow: Flow,
    intent: Intent,
    supervisor: Supervisor,
    suspended: bool,
    abandoned: bool,
    closes: nat)

  /** What an in-flight attempt dispatches: a new request or a leased snapshot. */
  datatype Origin = Fresh(persist: bool) | Resume(snapshot: Id)

  datatype Attempt = Attempt(origin: Origin, bound: Option<Id>)

  datatype Runtime = Runtime(
    me: Log.RuntimeId,
    registry: Reg.Registry,
    attempts: map<Reg.Ticket, Attempt>,
    bound: set<Id>,
    cores: map<Id, Core>,
    children: map<Id, set<Id>>,
    disk: map<Id, Log.Snapshot>)

  datatype Action =
    | Reserve(t: Reg.Ticket, parent: Option<Id>, persist: bool)
    | ReserveResume(t: Reg.Ticket, parent: Option<Id>, i: Id)
    | Bind(t: Reg.Ticket, i: Id)
    | StoreInitial(t: Reg.Ticket, checkpoint: seq<int>)
    | Drop(t: Reg.Ticket)
    | Register(t: Reg.Ticket, restored: seq<Entry>)
    | SpawnCommit(i: Id, durable: bool)
    | SpawnRefuse(i: Id)
    | HandlerEmit(i: Id, kind: Kind)
    | HandlerClaim(i: Id, failed: bool)
    | UnstartedClaim(i: Id)
    | CancelRequest(i: Id, owner: Owner)
    | CancelClaim(i: Id)
    | SettleIntent(i: Id)
    | DeadlineClaim(i: Id)
    | ChildConfirmed(i: Id, child: Id)
    | ChildFailed(i: Id)
    | ChildrenDone(i: Id)
    | Seal(i: Id, now: int)
    | SealFail(i: Id)
    | RegisterCleanup(i: Id)
    | CleanupStart(i: Id)
    | CleanupDrain(i: Id)
    | CleanupRan(i: Id)
    | CleanupPublish(i: Id, ok: bool)
    | EmitTerminal(i: Id, durable: bool, now: int)
    | EmitLost(i: Id)
    | Release(i: Id)
    | Notify(i: Id)
    | CloseTerminal(i: Id)
    | Suspend(i: Id)
    | Abandon(i: Id)
    | DiskStep(i: Id, op: Log.Op, now: int)

  const START_JOURNAL := [
    Entry(AcceptedEvent, None), Entry(AdmittedEvent, None),
    Entry(DispatchedEvent, None), Entry(RunningEvent, None)]

  const IDLE_SUPERVISOR := Supervisor(SupActive, 0, 0, 0, 0, false)

  function ChildrenOf(children: map<Id, set<Id>>, p: Id): set<Id> {
    if p in children then children[p] else {}
  }

  function Put(s: Runtime, i: Id, c: Core): Runtime {
    s.(cores := s.cores[i := c])
  }

  function Write(c: Core, kind: Kind, child: Option<Id>): Core {
    c.(journal := c.journal + [Entry(kind, child)])
  }

  /** failFinalization: records the error and closes the terminal channel. */
  function FailFinalization(c: Core): Core {
    if c.gate.state.IsTerminal() || c.gate.finErr then c
    else c.(gate := c.gate.(finErr := true), closes := c.closes + 1)
  }

  function Claimed(c: Core, owner: Owner, flow: Flow): Core {
    c.(gate := c.gate.(claim := owner), flow := flow)
  }

  /** The claim goroutine has committed a terminal event. */
  predicate Committed(f: Flow) {
    f.Emitted? || f.Released? || f.Notified? || f.Finished?
  }

  /** The claim goroutine has passed BeginFinalization. */
  predicate Sealed(f: Flow) {
    f.Cleaning? || f.Ready? || f.Stuck? || Committed(f)
  }

  /** onInvocationTerminal has returned the capacity slot. */
  predicate SlotReturned(f: Flow) {
    f.Released? || f.Notified? || f.Finished?
  }

  function Todo(f: Flow): set<Id> {
    if f.AwaitChildren? then f.todo else {}
  }

  predicate Init(s: Runtime) {
    s.registry == Reg.EMPTY && s.attempts == map[] && s.bound == {} && s.cores == map[]
    && s.children == map[]
  }

  predicate MayReserve(s: Runtime, parent: Option<Id>) {
    && s.registry.activeCount < PENDING_CAPACITY
    && (parent.Some? ==>
          && parent.value in s.cores
          && s.cores[parent.value].gate.state == Running
          && s.cores[parent.value].gate.claim == NoOwner
          && s.registry.Children(parent.value) < PENDING_CAPACITY)
  }

  /** The core a successful dispatch publishes in the registry. */
  function NewCore(parent: Option<Id>, origin: Origin, restored: seq<Entry>): Core {
    Core(
      parent,
      origin.Resume? || origin.persist,
      origin.Resume?,
      Gate(Running, NoOwner, false),
      if origin.Resume? then restored else START_JOURNAL,
      if origin.Fresh? && parent.Some? then Unlaunched else Started,
      Idle, NoIntent, IDLE_SUPERVISOR, false, false, 0)
  }

  /** ClaimRecovery, renewals and writers in other runtimes, plus this runtime's
      own non-terminal writes. This runtime never re-claims an id it has bound,
      and nobody re-marks a closed record. */
  predicate PermittedOnDisk(s: Runtime, i: Id, op: Log.Op)
    requires i in s.disk
  {
    match op
    case Append(owner, event) => (owner.Some? && owner.value != s.me) || !event.state.IsTerminal()
    case Checkpoint(_, _) => true
    case Begin(owner) => owner != s.me
    case Mark(phase) =>
      (phase == Log.PhaseSuspended || phase == Log.PhaseClosed) && s.disk[i].phase != Log.PhaseClosed
    case Claim(owner, _) => owner != s.me || i !in s.bound
    case Renew(_, _) => true
  }

  predicate MayRegister(s: Runtime, t: Reg.Ticket) {
    && t in s.attempts && t in s.registry.unbound && s.attempts[t].bound.Some?
    && (s.attempts[t].origin.Resume? || s.attempts[t].origin.persist ==> s.attempts[t].bound.value in s.disk)
  }

  function Adopt(children: map<Id, set<Id>>, origin: Origin, parent: Option<Id>, i: Id): map<Id, set<Id>> {
    if origin.Fresh? && parent.Some?
    then children[parent.value := ChildrenOf(children, parent.value) + {i}]
    else children
  }

  /** invokeRegistered or recoverSnapshot publishes the core; only the former
      lists it under its parent. */
  function AfterRegister(s: Runtime, t: Reg.Ticket, restored: seq<Entry>): Runtime
    requires MayRegister(s, t)
  {
    var i, o, parent := s.attempts[t].bound.value, s.attempts[t].origin, s.registry.unbound[t];
    s.(registry := Reg.Registered(s.registry, t, i),
       attempts := s.attempts - {t},
       cores := s.cores[i := NewCore(parent, o, restored)],
       children := Adopt(s.children, o, parent, i))
  }

  predicate Dispatch(s: Runtime, a: Action, s': Runtime) {
    match a
    case Reserve(t, parent, persist) =>
      && t !in s.attempts && t !in s.registry.unbound && MayReserve(s, parent)
      && s' == s.(registry := Reg.Reserved(s.registry, t, parent),
                  attempts := s.attempts[t := Attempt(Fresh(persist), None)])
    case ReserveResume(t, parent, i) =>
      && t !in s.attempts && t !in s.registry.unbound
      && s.registry.activeCount < PENDING_CAPACITY
      && s' == s.(registry := Reg.Reserved(s.registry, t, parent),
                  attempts := s.attempts[t := Attempt(Resume(i), None)])
    case Bind(t, i) =>
      && t in s.attempts && s.attempts[t].bound.None? && i !in s.bound
      && (s.attempts[t].origin.Resume? ==> s.attempts[t].origin.snapshot == i)
      && s' == s.(bound := s.bound + {i},
                  attempts := s.attempts[t := s.attempts[t].(bound := Some(i))])
    case StoreInitial(t, checkpoint) =>
      && t in s.attempts && s.attempts[t].bound.Some? && s.attempts[t].origin == Fresh(true)
      && s.attempts[t].bound.value !in s.disk
      && s' == s.(disk := s.disk[s.attempts[t].bound.value :=
                                 Log.Snapshot([], checkpoint, Log.PhaseRunning, None, 0)])
    case Drop(t) =>
      && t in s.attempts && t in s.registry.unbound
      && s' == s.(registry := Reg.Released(s.registry, t), attempts := s.attempts - {t})
    case Register(t, restored) =>
      MayRegister(s, t) && s' == AfterRegister(s, t, restored)
    case _ => false
  }

  /** The dispatching goroutine commits child_spawned in the parent's chain.
      An event is in the chain even when its durable write failed, but the
      caller then sees an error and does not start the handler. */
  predicate Spawn(s: Runtime, a: Action, s': Runtime) {
    match a
    case SpawnCommit(i, durable) =>
      && MaySpawn(s.cores, i) && s' == s.(cores := AfterSpawn(s.cores, i, durable))
    case SpawnRefuse(i) =>
      && i in s.cores && s.cores[i].launch.Unlaunched?
      && s' == Put(s, i, s.cores[i].(launch := Refused))
    case HandlerEmit(i, kind) =>
      && i in s.cores && (kind == Progress || kind == MessageReceived || kind == MessageConsumed)
      && Admits(s.cores[i].gate, kind, Running)
      && s' == Put(s, i, Write(s.cores[i], kind, None))
    case _ => false
  }

  predicate MaySpawn(cores: map<Id, Core>, i: Id) {
    && i in cores && cores[i].launch.Unlaunched?
    && cores[i].parent.Some? && cores[i].parent.value in cores && cores[i].parent.value != i
    && Admits(cores[cores[i].parent.value].gate, ChildSpawned, Running)
  }

  function AfterSpawn(cores: map<Id, Core>, i: Id, durable: bool): map<Id, Core>
    requires MaySpawn(cores, i)
  {
    var p := cores[i].parent.value;
    cores[p := Write(cores[p], ChildSpawned, Some(i))]
         [i := cores[i].(launch := if durable then Started else Refused)]
  }

  /** The five ways to take the terminal claim, and cancel intents. `children`
      is what childTokensLocked collects in the same critical section. */
  predicate ContendStep(c: Core, children: set<Id>, a: Action, c': Core) {
    match a
    case HandlerClaim(_, failed) =>
      && c.launch.Started? && !c.suspended && Claimable(c.gate)
      && c' == Claimed(c, if failed then Failure else if c.recovered then Recovery else Completion, Sealing)
    case UnstartedClaim(_) =>
      && c.launch.Refused? && !c.suspended && Claimable(c.gate)
      && c' == Claimed(c, Failure, Sealing)
    case CancelRequest(_, owner) =>
      && (owner == CallerCancel || owner == ParentCancel)
      && c.intent.NoIntent? && !c.gate.state.IsTerminal()
      && c' == c.(intent := Pending(owner))
    case CancelClaim(_) =>
      && c.intent.Pending? && Claimable(c.gate)
      && c' == Claimed(c, c.intent.owner, AwaitChildren(children))
    case SettleIntent(_) =>
      && c.intent.Pending?
      && (if c.gate.claim == CallerCancel || c.gate.claim == ParentCancel then
            && (c.flow.Finished? || c.flow.Aborted? || c.flow.Stuck?)
            && c' == c.(intent := Settled(c.flow.Finished? && c.flow.durable))
          else
            && c.closes > 0
            && c' == c.(intent := Settled(!c.gate.finErr)))
    case DeadlineClaim(_) =>
      && Claimable(c.gate)
      && c' == Claimed(c, Deadline, AwaitChildren(children))
    case _ => false
  }

  predicate Contend(s: Runtime, a: Action, s': Runtime) {
    && (a.HandlerClaim? || a.UnstartedClaim? || a.CancelRequest? || a.CancelClaim? || a.SettleIntent?
        || a.DeadlineClaim?)
    && a.i in s.cores && a.i in s'.cores
    && ContendStep(s.cores[a.i], ChildrenOf(s.children, a.i), a, s'.cores[a.i])
    && s' == Put(s, a.i, s'.cores[a.i])
  }

  /** cancelWithControlOwner or timeoutWithControl returned nil for a child. */
  predicate ChildStopped(owner: Owner, child: Core) {
    if owner == Deadline then child.closes > 0 && !child.gate.finErr
    else child.intent == Settled(true) || (child.gate.state.IsTerminal() && child.closes > 0)
  }

  /** Steps of the claim goroutine that touch only its own core. */
  predicate FlowStep(c: Core, a: Action, c': Core) {
    match a
    case ChildFailed(_) => c.flow.AwaitChildren? && c' == FailFinalization(c).(flow := Aborted)
    case ChildrenDone(_) => c.flow == AwaitChildren({}) && c' == c.(flow := Sealing)
    case SealFail(_) =>
      c.flow.Sealing? && c.persisted && c' == FailFinalization(c).(flow := Aborted)
    case EmitLost(_) => c.flow.Ready? && c' == c.(flow := Stuck)
    case CloseTerminal(_) =>
      c.flow.Notified? && c' == c.(flow := Finished(c.flow.durable), closes := c.closes + 1)
    case _ => false
  }

  predicate Progressed(s: Runtime, a: Action, s': Runtime) {
    && (a.ChildFailed? || a.ChildrenDone? || a.SealFail? || a.EmitLost? || a.CloseTerminal?)
    && a.i in s.cores && a.i in s'.cores
    && FlowStep(s.cores[a.i], a, s'.cores[a.i])
    && s' == Put(s, a.i, s'.cores[a.i])
  }

  function TerminalEvent(c: Core): Log.LoggedEvent
    requires c.gate.claim != NoOwner
  {
    var target := TargetOf(c.gate.claim);
    Log.LoggedEvent(|c.journal|, TerminalKind(target), target, [])
  }

  /** The owner's terminal event enters the chain. */
  function Concluded(c: Core, durable: bool): Core
    requires c.gate.claim != NoOwner
  {
    var target := TargetOf(c.gate.claim);
    Write(c, TerminalKind(target), None).(gate := c.gate.(state := target), flow := Emitted(durable))
  }

  predicate Finalize(s: Runtime, a: Action, s': Runtime) {
    match a
    case ChildConfirmed(i, child) =>
      && i in s.cores && s.cores[i].flow.AwaitChildren? && child in s.cores[i].flow.todo
      && child in s.cores && ChildStopped(s.cores[i].gate.claim, s.cores[child])
      && s' == Put(s, i, s.cores[i].(flow := AwaitChildren(s.cores[i].flow.todo - {child})))
    case Seal(i, now) =>
      && i in s.cores && s.cores[i].flow.Sealing?
      && (s.cores[i].persisted ==> i in s.disk && Log.ApplyBegin(s.disk[i], s.me, now).Ok?)
      && s' == Put(s, i, s.cores[i].(flow := Cleaning))
               .(disk := if s.cores[i].persisted
                         then s.disk[i := Log.ApplyBegin(s.disk[i], s.me, now).value] else s.disk)
    case EmitTerminal(i, durable, now) =>
      && i in s.cores && s.cores[i].flow.Ready? && s.cores[i].gate.claim != NoOwner
      && (var c := s.cores[i];
          var stored := Log.ApplyAppend(if i in s.disk then s.disk[i] else Log.BLANK,
                                        if c.recovered then Some(s.me) else None, TerminalEvent(c), now);
          && Admits(c.gate, TerminalEvent(c).kind, TargetOf(c.gate.claim))
          && (c.persisted && durable ==> i in s.disk && stored.Ok?)
          && s' == Put(s, i, Concluded(c, durable))
                   .(disk := if c.persisted && durable then s.disk[i := stored.value] else s.disk))
    case Release(i) =>
      && i in s.cores && s.cores[i].flow.Emitted?
      && s' == Put(s, i, s.cores[i].(flow := Released(s.cores[i].flow.durable)))
               .(registry := Reg.Deactivated(s.registry, i))
    case Notify(i) =>
      && i in s.cores && s.cores[i].flow.Released?
      && s' == s.(cores := AfterNotify(s.cores, i))
    case _ => false
  }

  predicate ParentListens(cores: map<Id, Core>, i: Id)
    requires i in cores
  {
    && cores[i].parent.Some? && cores[i].parent.value in cores && cores[i].parent.value != i
    && Admits(cores[cores[i].parent.value].gate, ChildTerminal, Running)
  }

  /** onInvocationTerminal tells the parent, if its chain still accepts it. */
  function AfterNotify(cores: map<Id, Core>, i: Id): map<Id, Core>
    requires i in cores && cores[i].flow.Released?
  {
    var done := cores[i].(flow := Notified(cores[i].flow.durable));
    if ParentListens(cores, i) then
      cores[cores[i].parent.value := Write(cores[cores[i].parent.value], ChildTerminal, Some(i))][i := done]
    else cores[i := done]
  }

  /** Supervisor.runTerminalFlow and liveCleanupAttempt.run. A failed attempt may
      leave callbacks queued; a successful one publishes only an empty queue. */
  predicate CleanupStep(c: Core, a: Action, c': Core) {
    var v := c.supervisor;
    match a
    case RegisterCleanup(_) =>
      c' == c.(supervisor :=
        if v.phase == SupClosed then v.(registered := v.registered + 1, ran := v.ran + 1)
        else v.(registered := v.registered + 1, queued := v.queued + 1))
    case CleanupStart(_) =>
      && c.flow.Cleaning? && v.phase == SupActive
      && c' == c.(supervisor := v.(phase := SupClosing))
    case CleanupDrain(_) =>
      && v.phase == SupClosing && v.running == 0
      && c' == c.(supervisor := v.(running := v.queued, queued := 0))
    case CleanupRan(_) =>
      && v.phase == SupClosing
      && c' == c.(supervisor := v.(ran := v.ran + v.running, running := 0))
    case CleanupPublish(_, ok) =>
      && c.flow.Cleaning? && v.phase == SupClosing
      && (if ok then
            && v.queued == 0 && v.running == 0
            && c' == c.(supervisor := v.(phase := SupClosed), flow := Ready)
          else
            c' == FailFinalization(c).(supervisor := v.(phase := SupFailed, failed := true),
                                       flow := Aborted))
    case _ => false
  }

  predicate Cleanup(s: Runtime, a: Action, s': Runtime) {
    && (a.RegisterCleanup? || a.CleanupStart? || a.CleanupDrain? || a.CleanupRan? || a.CleanupPublish?)
    && a.i in s.cores && a.i in s'.cores
    && CleanupStep(s.cores[a.i], a, s'.cores[a.i])
    && s' == Put(s, a.i, s'.cores[a.i])
  }

  predicate Relinquish(s: Runtime, a: Action, s': Runtime) {
    match a
    case Suspend(i) =>
      && i in s.cores && s.cores[i].persisted && i in s.registry.active && !s.cores[i].suspended
      && Claimable(s.cores[i].gate)
      && i in s.disk && Log.ApplyMark(s.disk[i], Log.PhaseSuspended).Ok?
      && s' == Put(s, i, s.cores[i].(suspended := true))
               .(registry := Reg.Deactivated(s.registry, i),
                 disk := s.disk[i := Log.ApplyMark(s.disk[i], Log.PhaseSuspended).value])
    case Abandon(i) =>
      && i in s.cores && s.cores[i].recovered && !s.cores[i].suspended
      && !s.cores[i].gate.state.IsTerminal()
      && s' == Put(s, i, s.cores[i].(suspended := true, abandoned := true))
               .(registry := Reg.Deactivated(s.registry, i))
    case DiskStep(i, op, now) =>
      && i in s.disk && PermittedOnDisk(s, i, op) && Log.Apply(s.disk[i], op, now).Ok?
      && s' == s.(disk := s.disk[i := Log.Apply(s.disk[i], op, now).value])
    case _ => false
  }

  predicate Step(s: Runtime, a: Action, s': Runtime) {
    || Dispatch(s, a, s') || Spawn(s, a, s') || Contend(s, a, s')
    || Progressed(s, a, s') || Finalize(s, a, s') || Cleanup(s, a, s') || Relinquish(s, a, s')
  }

  /** A run: any interleaving of actions from the initial state. */
  ghost predicate Run(states: seq<Runtime>, actions: seq<Action>) {
    && |states| == |actions| + 1
    && Init(states[0])
    && forall k :: 0 <= k < |actions| ==> Step(states[k], actions[k], states[k + 1])
  }
}
