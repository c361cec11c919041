/** The bounded, idempotent message inbox of axon/invocation/messaging.go and its
    end-of-input gate (axon/invocation/inbox_input.go). Deliver holds the inbox
    mutex from its dedup check to the queue send and leaves the gate only after
    releasing it; CloseInput and Recv take no part in that mutex. */
module Inbox {
  import opened Wrappers

  // ---- The gate ----

  datatype GatePhase = Open | Closing | Closed

  /** `closes` counts close(drained). */
  datatype Gate = Gate(phase: GatePhase, publishing: int, closes: nat)

  const OPEN_GATE := Gate(Open, 0, 0)

  function FinishClose(g: Gate): Gate {
    if g.phase == Closing && g.publishing == 0 then g.(phase := Closed, closes := g.closes + 1) else g
  }

  function Begin(g: Gate): Option<Gate> {
    if g.phase != Open then None else Some(g.(publishing := g.publishing + 1))
  }

  function Finish(g: Gate): Gate {
    FinishClose(g.(publishing := g.publishing - 1))
  }

  function Close(g: Gate): Gate {
    if g.phase != Open then g else FinishClose(g.(phase := Closing))
  }

  // ---- Messages ----

  type MessageId = string

  /** `supplied` is false for an id the inbox generated itself. */
  datatype Message = Message(id: MessageId, sequence: nat, at: int, supplied: bool, payload: seq<int>)

  datatype Entry = Entry(sequence: nat, at: int)

  /** Entries older than the window are swept before every delivery. */
  function Swept(seen: map<MessageId, Entry>, now: int, window: int): map<MessageId, Entry> {
    map id | id in seen && now - seen[id].at <= window :: seen[id]
  }

  datatype Draft = Draft(id: MessageId, at: int, supplied: bool, payload: seq<int>)

  /** Who holds the inbox mutex, and how far it has come. */
  datatype Holder =
    | Free
    | Admitted(who: nat, draft: Draft)
    | Sending(who: nat, message: Message)

  /** `leaving` are the deliveries past the mutex that have not left the gate,
      with the sequence they will acknowledge; `acked` those that have. */
  datatype World = World(
    capacity: nat, window: int, clock: int,
    next: nat, queue: seq<Message>, seen: map<MessageId, Entry>, gate: Gate,
    holder: Holder, leaving: map<nat, Option<nat>>,
    received: seq<Message>, acked: set<nat>)

  function Start(capacity: nat, window: int): World {
    World(capacity, window, 0, 0, [], map[], OPEN_GATE, Free, map[], [], {})
  }

  datatype Step =
    | EnterStep(who: nat, draft: Draft)
    | OverflowStep
    | AcceptStep
    | SendStep
    | LeaveStep(who: nat)
    | CloseStep
    | RecvStep

  /** Draft.id is the assigned id; time never runs backwards under the mutex. */
  predicate Enabled(w: World, step: Step) {
    match step
    case EnterStep(who, draft) => w.holder.Free? && who !in w.leaving && draft.at >= w.clock
    case OverflowStep => w.holder.Admitted? && |w.queue| >= w.capacity
    case AcceptStep => w.holder.Admitted? && |w.queue| < w.capacity
    case SendStep => w.holder.Sending?
    case LeaveStep(who) => who in w.leaving
    case CloseStep => true
    case RecvStep => w.queue != []
  }

  function Enter(w: World, who: nat, draft: Draft): World {
    var swept := w.(clock := draft.at, seen := Swept(w.seen, draft.at, w.window));
    if draft.supplied && draft.id in swept.seen then swept
    else
      match Begin(w.gate)
      case None => swept
      case Some(gate) => swept.(gate := gate, holder := Admitted(who, draft))
  }

  function Accept(w: World): World
    requires w.holder.Admitted?
  {
    var d := w.holder.draft;
    w.(next := w.next + 1, seen := w.seen[d.id := Entry(w.next, d.at)],
       holder := Sending(w.holder.who, Message(d.id, w.next, d.at, d.supplied, d.payload)))
  }

  function Next(w: World, step: Step): World
    requires Enabled(w, step)
  {
    match step
    case EnterStep(who, draft) => Enter(w, who, draft)
    case OverflowStep => w.(holder := Free, leaving := w.leaving[w.holder.who := None])
    case AcceptStep => Accept(w)
    case SendStep =>
      w.(queue := w.queue + [w.holder.message], holder := Free,
         leaving := w.leaving[w.holder.who := Some(w.holder.message.sequence)])
    case LeaveStep(who) =>
      w.(gate := Finish(w.gate), leaving := w.leaving - {who},
         acked := if w.leaving[who].Some? then w.acked + {w.leaving[who].value} else w.acked)
    case CloseStep => w.(gate := Close(w.gate))
    case RecvStep => w.(queue := w.queue[1..], received := w.received + [w.queue[0]])
  }

  function Run(w: World, steps: seq<Step>): World
    decreases |steps|
  {
    if steps == [] then w
    else Run(if Enabled(w, steps[0]) then Next(w, steps[0]) else w, steps[1..])
  }

  /** Recv returns nil for end of input when drained is closed and the queue empty. */
  predicate EndOfInput(w: World) {
    w.gate.phase == Closed && w.queue == []
  }

  /** Every accepted message, in order of acceptance. */
  function Accepted(w: World): seq<Message> {
    w.received + w.queue + (if w.holder.Sending? then [w.holder.message] else [])
  }

  // ---- Invariants ----

  function InFlight(holder: Holder, leaving: map<nat, Option<nat>>): nat {
    |leaving| + (if holder.Free? then 0 else 1)
  }

  /** `publishing` counts the deliveries in flight; drained is closed with none. */
  ghost predicate GateCounts(gate: Gate, flying: nat) {
    && gate.publishing == flying
    && (gate.phase == Closing ==> flying > 0)
    && (gate.phase == Closed ==> flying == 0)
    && gate.closes == (if gate.phase == Closed then 1 else 0)
  }

  ghost predicate GateSound(w: World) {
    && GateCounts(w.gate, InFlight(w.holder, w.leaving))
    && (!w.holder.Free? ==> w.holder.who !in w.leaving)
  }

  /** The reserved slot: a send under the mutex always finds room. */
  ghost predicate SendHasRoom(w: World) {
    w.holder.Sending? ==> |w.queue| < w.capacity
  }

  ghost predicate Contiguous(w: World) {
    && |Accepted(w)| == w.next
    && (forall i :: 0 <= i < w.next ==> Accepted(w)[i].sequence == i)
  }

  /** Nothing is acknowledged, or about to be, that is not out of the sender's hands. */
  ghost predicate AcksVisible(w: World) {
    && (forall s :: s in w.acked ==> s < |w.received| + |w.queue|)
    && (forall who :: who in w.leaving && w.leaving[who].Some? ==> w.leaving[who].value < |w.received| + |w.queue|)
  }

  ghost predicate Inv(w: World) {
    GateSound(w) && SendHasRoom(w) && Contiguous(w) && AcksVisible(w)
  }

  lemma LeavingGrows(m: map<nat, Option<nat>>, who: nat, v: Option<nat>)
    requires who !in m
    ensures |m[who := v]| == |m| + 1
  {
    assert m[who := v].Keys == m.Keys + {who};
    assert |m.Keys| == |m| && |m[who := v].Keys| == |m[who := v]|;
  }

  lemma LeavingShrinks(m: map<nat, Option<nat>>, who: nat)
    requires who in m
    ensures |m - {who}| == |m| - 1
  {
    assert (m - {who}).Keys == m.Keys - {who};
    assert |m.Keys| == |m| && |(m - {who}).Keys| == |m - {who}|;
  }

  lemma LeaveGate(w: World, who: nat)
    requires GateSound(w) && who in w.leaving
    ensures GateSound(Next(w, LeaveStep(who)))
  {
    hide GateCounts, Finish;
    LeavingShrinks(w.leaving, who);
    FinishCounts(w.gate, InFlight(w.holder, w.leaving));
  }

  lemma UnlockGate(w: World, step: Step)
    requires GateSound(w) && (step.OverflowStep? || step.SendStep?) && Enabled(w, step)
    ensures GateSound(Next(w, step))
  {
    hide GateCounts;
    LeavingGrows(w.leaving, w.holder.who, Next(w, step).leaving[w.holder.who]);
  }

  lemma GateStep(w: World, step: Step)
    requires GateSound(w) && Enabled(w, step)
    ensures GateSound(Next(w, step))
  {
    if step.LeaveStep? {
      LeaveGate(w, step.who);
    } else if step.OverflowStep? || step.SendStep? {
      UnlockGate(w, step);
    } else {
      hide Swept;
    }
  }

  lemma FinishCounts(gate: Gate, flying: nat)
    requires GateCounts(gate, flying) && flying > 0
    ensures GateCounts(Finish(gate), flying - 1)
  {
  }

  lemma RoomStep(w: World, step: Step)
    requires SendHasRoom(w) && Enabled(w, step)
    ensures SendHasRoom(Next(w, step))
  {
    hide Swept;
  }

  lemma AcceptedStep(w: World, step: Step)
    requires Enabled(w, step)
    ensures step.AcceptStep? ==> Accepted(Next(w, step)) == Accepted(w) + [Next(w, step).holder.message]
    ensures step.AcceptStep? ==>
      var d := w.holder.draft;
      Next(w, step).holder.message == Message(d.id, w.next, d.at, d.supplied, d.payload)
    ensures !step.AcceptStep? ==> Accepted(Next(w, step)) == Accepted(w)
  {
    hide Swept, Finish, Close;
    if step.RecvStep? {
      assert [w.queue[0]] + w.queue[1..] == w.queue;
    }
  }

  lemma ContiguousStep(w: World, step: Step)
    requires Contiguous(w) && Enabled(w, step)
    ensures Contiguous(Next(w, step))
  {
    AcceptedStep(w, step);
    var w' := Next(w, step);
    assert w'.next == (if step.AcceptStep? then w.next + 1 else w.next);
    hide Accepted, Next;
  }

  lemma AcksStep(w: World, step: Step)
    requires AcksVisible(w) && Contiguous(w) && Enabled(w, step)
    ensures AcksVisible(Next(w, step))
  {
    hide Swept, Finish, Close;
    if step.SendStep? {
      var all := Accepted(w);
      assert all[|w.received| + |w.queue|] == w.holder.message;
    }
  }

  lemma StepKeeps(w: World, step: Step)
    requires Inv(w) && Enabled(w, step)
    ensures Inv(Next(w, step))
  {
    hide GateSound, SendHasRoom, Contiguous, AcksVisible, Next, Enabled;
    GateStep(w, step);
    RoomStep(w, step);
    ContiguousStep(w, step);
    AcksStep(w, step);
  }

  /** For every interleaving of deliveries, receivers and the closer: sequences
      are contiguous and received in order, a send under the mutex never waits,
      and drained closes at most once and only with no delivery in flight. */
  lemma {:induction false} EveryRunIsSound(w: World, steps: seq<Step>)
    requires Inv(w)
    ensures Inv(Run(w, steps))
    decreases |steps|
  {
    hide Inv, Next, Enabled;
    if steps != [] {
      if Enabled(w, steps[0]) {
        StepKeeps(w, steps[0]);
        EveryRunIsSound(Next(w, steps[0]), steps[1..]);
      } else {
        EveryRunIsSound(w, steps[1..]);
      }
    }
  }

  /** From an empty inbox, spelled out for the receivers. */
  lemma ReceivedInOrder(capacity: nat, window: int, steps: seq<Step>)
    ensures
      var w := Run(Start(capacity, window), steps);
      && Inv(w)
      && (forall i :: 0 <= i < |w.received| ==> w.received[i].sequence == i)
      && w.gate.closes <= 1
  {
    EveryRunIsSound(Start(capacity, window), steps);
    var w := Run(Start(capacity, window), steps);
    hide Run;
    forall i | 0 <= i < |w.received| ensures w.received[i].sequence == i {
      assert Accepted(w)[i] == w.received[i];
    }
  }

  /** An end of input seen by a receiver is final: every accepted message, so
      every acknowledged one, has been received, and no later step changes that. */
  lemma {:induction false} EndOfInputIsFinal(w: World, steps: seq<Step>)
    requires Inv(w) && EndOfInput(w)
    ensures Accepted(w) == w.received
    ensures forall s :: s in w.acked ==> s < |w.received| && w.received[s].sequence == s
    ensures EndOfInput(Run(w, steps)) && Run(w, steps).received == w.received && Run(w, steps).acked == w.acked
    decreases |steps|
  {
    assert w.leaving == map[] && w.holder.Free?;
    forall s | s in w.acked ensures s < |w.received| && w.received[s].sequence == s {
      assert Accepted(w)[s] == w.received[s];
    }
    if steps != [] {
      if Enabled(w, steps[0]) {
        StepKeeps(w, steps[0]);
        EndOfInputIsFinal(Next(w, steps[0]), steps[1..]);
      } else {
        EndOfInputIsFinal(w, steps[1..]);
      }
    }
  }

  // ---- Idempotence ----

  /** The table remembers every acceptance still inside the window. */
  ghost predicate Remembers(w: World) {
    && (forall i :: 0 <= i < |Accepted(w)| ==> Accepted(w)[i].at <= w.clock)
    && (forall i :: 0 <= i < |Accepted(w)| && w.clock - Accepted(w)[i].at <= w.window ==>
          Accepted(w)[i].id in w.seen && w.seen[Accepted(w)[i].id].at >= Accepted(w)[i].at)
    && (w.holder.Admitted? ==> w.holder.draft.at == w.clock)
    && (w.holder.Admitted? && w.holder.draft.supplied ==> w.holder.draft.id !in w.seen)
  }

  /** A caller's message id is accepted at most once per window. */
  ghost predicate OncePerWindow(w: World) {
    forall i, j :: 0 <= i < j < |Accepted(w)| && Accepted(w)[j].supplied && Accepted(w)[i].id == Accepted(w)[j].id ==>
      Accepted(w)[j].at - Accepted(w)[i].at > w.window
  }

  /** A deduplicated delivery is answered with the sequence of its original. */
  ghost predicate SeenPointsBack(w: World) {
    forall id :: id in w.seen ==>
      w.seen[id].sequence < |Accepted(w)| && Accepted(w)[w.seen[id].sequence].id == id
      && Accepted(w)[w.seen[id].sequence].at == w.seen[id].at
  }

  lemma PointsBackStep(w: World, step: Step)
    requires SeenPointsBack(w) && Contiguous(w) && Enabled(w, step)
    ensures SeenPointsBack(Next(w, step))
  {
    AcceptedStep(w, step);
    hide Accepted, Finish, Close, Begin;
  }

  lemma RemembersStep(w: World, step: Step)
    requires Remembers(w) && Enabled(w, step)
    ensures Remembers(Next(w, step))
  {
    AcceptedStep(w, step);
    hide Accepted, Finish, Close, Begin;
  }

  lemma OnceStep(w: World, step: Step)
    requires Remembers(w) && OncePerWindow(w) && Enabled(w, step)
    ensures OncePerWindow(Next(w, step))
  {
    AcceptedStep(w, step);
    hide Accepted, Finish, Close, Begin, Swept;
  }

  lemma {:induction false} DeliveryIsIdempotent(w: World, steps: seq<Step>)
    requires Contiguous(w) && SeenPointsBack(w) && Remembers(w) && OncePerWindow(w)
    ensures SeenPointsBack(Run(w, steps)) && Remembers(Run(w, steps)) && OncePerWindow(Run(w, steps))
    decreases |steps|
  {
    hide Contiguous, SeenPointsBack, Remembers, OncePerWindow, Next, Enabled;
    if steps != [] {
      if Enabled(w, steps[0]) {
        ContiguousStep(w, steps[0]);
        PointsBackStep(w, steps[0]);
        RemembersStep(w, steps[0]);
        OnceStep(w, steps[0]);
        DeliveryIsIdempotent(Next(w, steps[0]), steps[1..]);
      } else {
        DeliveryIsIdempotent(w, steps[1..]);
      }
    }
  }

  /** Some message accepted under this id is not older than the window. */
  ghost predicate AcceptedLately(w: World, id: MessageId, now: int) {
    exists i :: 0 <= i < |Accepted(w)| && Accepted(w)[i].id == id && now - Accepted(w)[i].at <= w.window
  }

  /** A delivery goes on to the queue if and only if the gate is open and its
      supplied id was not accepted within the window. */
  lemma DuplicateExactly(w: World, who: nat, draft: Draft)
    requires SeenPointsBack(w) && Remembers(w) && Enabled(w, EnterStep(who, draft))
    ensures Next(w, EnterStep(who, draft)).holder.Admitted? <==>
      w.gate.phase == Open && !(draft.supplied && AcceptedLately(w, draft.id, draft.at))
  {
    hide Accepted;
    if draft.id in w.seen && draft.at - w.seen[draft.id].at <= w.window {
      var i := w.seen[draft.id].sequence;
      assert Accepted(w)[i].id == draft.id && draft.at - Accepted(w)[i].at <= w.window;
    }
    if AcceptedLately(w, draft.id, draft.at) {
      var i :| 0 <= i < |Accepted(w)| && Accepted(w)[i].id == draft.id && draft.at - Accepted(w)[i].at <= w.window;
      assert draft.id in w.seen && w.seen[draft.id].at >= Accepted(w)[i].at;
    }
  }
}
