/** Credit streams (axon/streams.go) as a protocol of channel operations. Every
    send, receive or close on a channel, every Once and every mutex section is
    one step; producers, consumers, Cancel and Close may interleave at will.
    Callers push data frames only. */
module CreditStream {

  datatype Frame = Data(payload: seq<int>) | Terminal(reason: string)

  /** The frame and credit channels; `sent` and `taken` record the traffic. */
  datatype Channel = Channel(credits: nat, frames: seq<Frame>, sent: seq<Frame>, taken: seq<Frame>)

  /** `entered` producers wait for credit, `credited` ones hold a frame and its credit. */
  datatype Producers = Producers(entered: set<nat>, credited: set<nat>)

  /** `waiting` consumers passed the terminalSeen test; the next two sets hold a
      frame just taken. */
  datatype Readers = Readers(
    waiting: set<nat>, holdingData: set<nat>, holdingTerminal: set<nat>,
    terminalSeen: bool, terminalsDelivered: nat)

  /** The two Onces, each with its send still to come. */
  datatype Ends = Ends(cancelled: bool, cancelPending: bool, closeTaken: bool, closePending: bool)

  datatype World = World(max: nat, ch: Channel, ps: Producers, rs: Readers, ends: Ends)

  /** newStreamInner; a credit below one is raised to one. */
  function Start(initialCredit: int): World {
    var max := if initialCredit < 1 then 1 else initialCredit;
    World(max, Channel(max, [], [], []), Producers({}, {}), Readers({}, {}, {}, false, 0),
          Ends(false, false, false, false))
  }

  datatype Step =
    | PushStep(p: nat)
    | CreditStep(p: nat)
    | GiveUpStep(p: nat)
    | SendStep(p: nat, payload: seq<int>)
    | RestoreStep(p: nat)
    | NextStep(c: nat)
    | TimeoutStep(c: nat)
    | TakeStep(c: nat)
    | ReturnCreditStep(c: nat)
    | MarkTerminalStep(c: nat)
    | CancelStep
    | CancelSendStep(reason: string)
    | CloseStep
    | CloseSendStep(reason: string)
    | GrantStep

  predicate HasRoom(w: World) {
    |w.ch.frames| < w.max + 1
  }

  predicate IdleProducer(w: World, p: nat) {
    p !in w.ps.entered && p !in w.ps.credited
  }

  predicate IdleConsumer(w: World, c: nat) {
    c !in w.rs.waiting && c !in w.rs.holdingData && c !in w.rs.holdingTerminal
  }

  /** When an operation can run; a blocked channel operation is not enabled. */
  predicate Enabled(w: World, step: Step) {
    match step
    case PushStep(p) => IdleProducer(w, p) && !w.ends.cancelled
    case CreditStep(p) => p in w.ps.entered && w.ch.credits > 0
    case GiveUpStep(p) => p in w.ps.entered
    case SendStep(p, _) => p in w.ps.credited && HasRoom(w)
    case RestoreStep(p) => p in w.ps.credited && w.ends.cancelled
    case NextStep(c) => IdleConsumer(w, c) && !w.rs.terminalSeen
    case TimeoutStep(c) => c in w.rs.waiting
    case TakeStep(c) => c in w.rs.waiting && w.ch.frames != []
    case ReturnCreditStep(c) => c in w.rs.holdingData
    case MarkTerminalStep(c) => c in w.rs.holdingTerminal
    case CancelStep => !w.ends.cancelled
    case CancelSendStep(_) => w.ends.cancelPending
    case CloseStep => !w.ends.cancelled && !w.ends.closeTaken
    case CloseSendStep(_) => w.ends.closePending
    case GrantStep => true
  }

  /** A non-blocking send of a credit token: dropped when the channel is full. */
  function CreditBack(w: World): nat {
    if w.ch.credits < w.max then w.ch.credits + 1 else w.ch.credits
  }

  function Queued(ch: Channel, f: Frame): Channel {
    ch.(frames := ch.frames + [f], sent := ch.sent + [f])
  }

  function Dequeued(ch: Channel): Channel
    requires ch.frames != []
  {
    ch.(frames := ch.frames[1..], taken := ch.taken + [ch.frames[0]])
  }

  /** A consumer with a frame in its hands. */
  function Holding(rs: Readers, c: nat, f: Frame): Readers {
    if f.Terminal? then rs.(waiting := rs.waiting - {c}, holdingTerminal := rs.holdingTerminal + {c})
    else rs.(waiting := rs.waiting - {c}, holdingData := rs.holdingData + {c})
  }

  predicate ByProducer(step: Step) {
    step.PushStep? || step.CreditStep? || step.GiveUpStep? || step.SendStep? || step.RestoreStep?
  }

  predicate ByReader(step: Step) {
    step.NextStep? || step.TimeoutStep? || step.TakeStep? || step.ReturnCreditStep? || step.MarkTerminalStep?
  }

  /** push. */
  function ProducerNext(w: World, step: Step): World
    requires Enabled(w, step) && ByProducer(step)
  {
    match step
    case PushStep(p) => w.(ps := w.ps.(entered := w.ps.entered + {p}))
    case CreditStep(p) =>
      w.(ch := w.ch.(credits := w.ch.credits - 1), ps := Producers(w.ps.entered - {p}, w.ps.credited + {p}))
    case GiveUpStep(p) => w.(ps := w.ps.(entered := w.ps.entered - {p}))
    case SendStep(p, payload) =>
      w.(ch := Queued(w.ch, Data(payload)), ps := w.ps.(credited := w.ps.credited - {p}))
    case RestoreStep(p) =>
      w.(ch := w.ch.(credits := CreditBack(w)), ps := w.ps.(credited := w.ps.credited - {p}))
  }

  /** nextFrame. */
  function ReaderNext(w: World, step: Step): World
    requires Enabled(w, step) && ByReader(step)
  {
    match step
    case NextStep(c) => w.(rs := w.rs.(waiting := w.rs.waiting + {c}))
    case TimeoutStep(c) => w.(rs := w.rs.(waiting := w.rs.waiting - {c}))
    case TakeStep(c) => w.(ch := Dequeued(w.ch), rs := Holding(w.rs, c, w.ch.frames[0]))
    case ReturnCreditStep(c) =>
      w.(ch := w.ch.(credits := CreditBack(w)), rs := w.rs.(holdingData := w.rs.holdingData - {c}))
    case MarkTerminalStep(c) =>
      w.(rs := w.rs.(holdingTerminal := w.rs.holdingTerminal - {c}, terminalSeen := true,
                     terminalsDelivered := w.rs.terminalsDelivered + 1))
  }

  /** A non-blocking send of a terminal frame. */
  function TrySend(w: World, f: Frame): Channel {
    if HasRoom(w) then Queued(w.ch, f) else w.ch
  }

  /** cancel, close and grantCredit. */
  function ControlNext(w: World, step: Step): World
    requires Enabled(w, step) && !ByProducer(step) && !ByReader(step)
  {
    match step
    case CancelStep => w.(ends := w.ends.(cancelled := true, cancelPending := true))
    case CancelSendStep(reason) => w.(ch := TrySend(w, Terminal(reason)), ends := w.ends.(cancelPending := false))
    case CloseStep => w.(ends := w.ends.(closeTaken := true, closePending := true))
    case CloseSendStep(reason) =>
      w.(ch := TrySend(w, Terminal(reason)),
         ends := if HasRoom(w) || w.ends.cancelled then w.ends.(closePending := false)
                 else w.ends.(closePending := false, cancelled := true, cancelPending := true))
    case GrantStep => w.(ch := w.ch.(credits := CreditBack(w)))
  }

  function Next(w: World, step: Step): World
    requires Enabled(w, step)
  {
    if ByProducer(step) then ProducerNext(w, step)
    else if ByReader(step) then ReaderNext(w, step)
    else ControlNext(w, step)
  }

  function Run(w: World, steps: seq<Step>): World
    decreases |steps|
  {
    if steps == [] then w
    else Run(if Enabled(w, steps[0]) then Next(w, steps[0]) else w, steps[1..])
  }

  function DataCount(frames: seq<Frame>): nat {
    if frames == [] then 0 else (if frames[0].Data? then 1 else 0) + DataCount(frames[1..])
  }

  lemma {:induction false} DataCountSnoc(frames: seq<Frame>, f: Frame)
    ensures DataCount(frames + [f]) == DataCount(frames) + (if f.Data? then 1 else 0)
  {
    if frames != [] {
      assert (frames + [f])[1..] == frames[1..] + [f];
      DataCountSnoc(frames[1..], f);
    }
  }

  lemma {:induction false} AllDataWhenFull(frames: seq<Frame>)
    ensures DataCount(frames) <= |frames|
    ensures (forall i :: 0 <= i < |frames| ==> frames[i].Data?) ==> DataCount(frames) == |frames|
  {
    if frames != [] {
      AllDataWhenFull(frames[1..]);
      if forall i :: 0 <= i < |frames| ==> frames[i].Data? {
        assert forall i :: 0 <= i < |frames| - 1 ==> frames[1..][i] == frames[i + 1];
      }
    }
  }

  // ---- Conservation ----

  /** A unit of credit is a token, a frame in someone's hands or a queued one. */
  function Units(w: World): nat {
    w.ch.credits + |w.ps.credited| + |w.rs.holdingData| + DataCount(w.ch.frames)
  }

  ghost predicate Conserved(w: World) {
    Units(w) == w.max
  }

  /** A goroutine is in one place at a time. */
  ghost predicate Apart(w: World) {
    ProducersApart(w.ps.entered, w.ps.credited) && ConsumersApart(w.rs.waiting, w.rs.holdingData, w.rs.holdingTerminal)
  }

  ghost predicate ProducersApart(entered: set<nat>, credited: set<nat>) {
    entered !! credited
  }

  ghost predicate ConsumersApart(waiting: set<nat>, holdingData: set<nat>, holdingTerminal: set<nat>) {
    waiting !! holdingData && waiting !! holdingTerminal
  }

  /** The queue keeps to its buffer and its order. */
  ghost predicate Fifo(w: World) {
    |w.ch.frames| <= w.max + 1 && w.ch.taken + w.ch.frames == w.ch.sent
  }

  /** Who is where changes only by the goroutines' own steps. */
  lemma PlacesFrame(w: World, step: Step)
    requires Enabled(w, step)
    ensures !ByProducer(step) ==> Next(w, step).ps == w.ps
    ensures !ByReader(step) ==> Next(w, step).rs == w.rs
  {
  }

  lemma ProducersApartStep(w: World, step: Step)
    requires ProducersApart(w.ps.entered, w.ps.credited) && ByProducer(step) && Enabled(w, step)
    ensures ProducersApart(Next(w, step).ps.entered, Next(w, step).ps.credited)
  {
    hide ReaderNext, ControlNext;
  }

  lemma ConsumersApartStep(w: World, step: Step)
    requires ConsumersApart(w.rs.waiting, w.rs.holdingData, w.rs.holdingTerminal) && ByReader(step) && Enabled(w, step)
    ensures ConsumersApart(Next(w, step).rs.waiting, Next(w, step).rs.holdingData, Next(w, step).rs.holdingTerminal)
  {
    hide ProducerNext, ControlNext;
  }

  lemma ApartStep(w: World, step: Step)
    requires Apart(w) && Enabled(w, step)
    ensures Apart(Next(w, step))
  {
    hide ProducersApart, ConsumersApart;
    PlacesFrame(w, step);
    if ByProducer(step) {
      ProducersApartStep(w, step);
    } else if ByReader(step) {
      ConsumersApartStep(w, step);
    }
    hide Next, Enabled;
  }

  lemma FifoStep(w: World, step: Step)
    requires Fifo(w) && Enabled(w, step)
    ensures Fifo(Next(w, step))
  {
    if step.TakeStep? {
      TakeTraffic(w, step.c);
    } else {
      QueueTraffic(w, step);
    }
    hide Next, Enabled, Enqueued;
    if step.TakeStep? {
      assert w.ch.taken + w.ch.frames == (w.ch.taken + [w.ch.frames[0]]) + w.ch.frames[1..];
    } else {
      assert w.ch.taken + (w.ch.frames + Enqueued(w, step)) == (w.ch.taken + w.ch.frames) + Enqueued(w, step);
    }
  }

  lemma TakeTraffic(w: World, c: nat)
    requires Enabled(w, TakeStep(c))
    ensures
      var w' := Next(w, TakeStep(c));
      w'.ch.taken == w.ch.taken + [w.ch.frames[0]] && w'.ch.frames == w.ch.frames[1..] && w'.ch.sent == w.ch.sent && w'.max == w.max
  {
  }

  /** What a step other than a receive puts in the queue. */
  function Enqueued(w: World, step: Step): seq<Frame> {
    match step
    case SendStep(_, payload) => [Data(payload)]
    case CancelSendStep(reason) => if HasRoom(w) then [Terminal(reason)] else []
    case CloseSendStep(reason) => if HasRoom(w) then [Terminal(reason)] else []
    case _ => []
  }

  lemma QueueTraffic(w: World, step: Step)
    requires Enabled(w, step) && !step.TakeStep?
    ensures Next(w, step).ch.taken == w.ch.taken && Next(w, step).max == w.max
    ensures Next(w, step).ch.frames == w.ch.frames + Enqueued(w, step) && Next(w, step).ch.sent == w.ch.sent + Enqueued(w, step)
    ensures |w.ch.frames + Enqueued(w, step)| <= w.max + 1 || Enqueued(w, step) == []
  {
    assert w.ch.frames + [] == w.ch.frames && w.ch.sent + [] == w.ch.sent;
  }

  /** A token that finds the credit channel full is dropped. */
  predicate DropsToken(w: World, step: Step) {
    (step.RestoreStep? || step.ReturnCreditStep?) && w.ch.credits >= w.max
  }

  /** Steps that move a token between the credit channel and a goroutine. */
  lemma TokenStep(w: World, step: Step)
    requires Apart(w) && Enabled(w, step) && (step.CreditStep? || step.RestoreStep? || step.ReturnCreditStep?)
    ensures Units(Next(w, step)) == Units(w) - (if DropsToken(w, step) then 1 else 0)
  {
    hide DataCount;
    if step.RestoreStep? {
      assert w.ps.credited == (w.ps.credited - {step.p}) + {step.p};
    } else if step.ReturnCreditStep? {
      assert w.rs.holdingData == (w.rs.holdingData - {step.c}) + {step.c};
    }
  }

  lemma SendUnits(w: World, p: nat, payload: seq<int>)
    requires Enabled(w, SendStep(p, payload))
    ensures Units(Next(w, SendStep(p, payload))) == Units(w)
  {
    hide DataCount;
    DataCountSnoc(w.ch.frames, Data(payload));
    assert w.ps.credited == (w.ps.credited - {p}) + {p};
  }

  lemma TakeUnits(w: World, c: nat)
    requires Apart(w) && Enabled(w, TakeStep(c))
    ensures Units(Next(w, TakeStep(c))) == Units(w)
  {
    assert DataCount(w.ch.frames) == (if w.ch.frames[0].Data? then 1 else 0) + DataCount(w.ch.frames[1..]);
    hide DataCount;
    assert c !in w.rs.holdingData;
  }

  /** Only grants make credit and only a full credit channel loses it. */
  lemma UnitsStep(w: World, step: Step)
    requires Apart(w) && Enabled(w, step) && !step.GrantStep?
    ensures Units(Next(w, step)) == Units(w) - (if DropsToken(w, step) then 1 else 0)
  {
    hide DataCount;
    if step.CreditStep? || step.RestoreStep? || step.ReturnCreditStep? {
      TokenStep(w, step);
    } else if step.SendStep? {
      SendUnits(w, step.p, step.payload);
    } else if step.TakeStep? {
      TakeUnits(w, step.c);
    } else if step.CancelSendStep? || step.CloseSendStep? {
      DataCountSnoc(w.ch.frames, Terminal(step.reason));
    }
  }

  /** A grant that finds the credit channel full is dropped. */
  predicate IdleGrant(w: World, step: Step) {
    step.GrantStep? ==> w.ch.credits == w.max
  }

  /** Of all grants only the idle ones keep the account. */
  lemma GrantConservesExactly(w: World)
    requires Conserved(w)
    ensures Conserved(Next(w, GrantStep)) <==> w.ch.credits == w.max
    ensures w.ch.credits == w.max ==> Next(w, GrantStep) == w
  {
    hide DataCount;
  }

  lemma ConservedStep(w: World, step: Step)
    requires Apart(w) && Conserved(w) && Enabled(w, step) && IdleGrant(w, step)
    ensures Conserved(Next(w, step))
  {
    if step.GrantStep? {
      GrantConservesExactly(w);
    } else {
      UnitsStep(w, step);
      NothingDropped(w, step);
      MaxStays(w, step);
      hide Next, Enabled, DropsToken, Units;
    }
  }

  lemma MaxStays(w: World, step: Step)
    requires Enabled(w, step)
    ensures Next(w, step).max == w.max
  {
  }

  lemma NothingDropped(w: World, step: Step)
    requires Conserved(w) && Enabled(w, step)
    ensures !DropsToken(w, step)
  {
    hide DataCount;
    if step.RestoreStep? {
      assert w.ps.credited == (w.ps.credited - {step.p}) + {step.p};
    } else if step.ReturnCreditStep? {
      assert w.rs.holdingData == (w.rs.holdingData - {step.c}) + {step.c};
    }
  }

  // ---- The terminal frame ----

  /** A terminal frame is queued, in a consumer's hands or delivered. */
  ghost predicate TerminalUnderway(w: World) {
    (exists i :: 0 <= i < |w.ch.frames| && w.ch.frames[i].Terminal?) || w.rs.holdingTerminal != {} || w.rs.terminalsDelivered > 0
  }

  predicate Ended(w: World) {
    (w.ends.closeTaken && !w.ends.closePending) || (w.ends.cancelled && !w.ends.cancelPending)
  }

  ghost predicate NeverSilent(w: World) {
    Ended(w) ==> TerminalUnderway(w)
  }

  /** With credit conserved the buffer is full only if a terminal is in it. */
  lemma FullMeansTerminal(w: World)
    requires Conserved(w) && !HasRoom(w)
    ensures TerminalUnderway(w)
  {
    AllDataWhenFull(w.ch.frames);
  }

  lemma QueuedTerminalStep(w: World, step: Step, i: nat)
    requires i < |w.ch.frames| && w.ch.frames[i].Terminal? && Enabled(w, step)
    ensures TerminalUnderway(Next(w, step))
  {
    if step.TakeStep? {
      TakeTraffic(w, step.c);
      var w' := Next(w, step);
      if i == 0 {
        assert step.c in w'.rs.holdingTerminal;
      } else {
        assert w'.ch.frames[i - 1].Terminal?;
      }
    } else {
      QueueTraffic(w, step);
      hide Next, Enabled;
      assert Next(w, step).ch.frames[i].Terminal?;
    }
  }

  lemma UnderwayStep(w: World, step: Step)
    requires TerminalUnderway(w) && Enabled(w, step)
    ensures TerminalUnderway(Next(w, step))
  {
    if exists i :: 0 <= i < |w.ch.frames| && w.ch.frames[i].Terminal? {
      var i :| 0 <= i < |w.ch.frames| && w.ch.frames[i].Terminal?;
      QueuedTerminalStep(w, step, i);
    } else if w.rs.holdingTerminal != {} {
      var c :| c in w.rs.holdingTerminal;
      assert c in Next(w, step).rs.holdingTerminal || Next(w, step).rs.terminalsDelivered > 0;
    }
  }

  lemma SilentStep(w: World, step: Step)
    requires Conserved(w) && NeverSilent(w) && Enabled(w, step)
    ensures NeverSilent(Next(w, step))
  {
    var w' := Next(w, step);
    if Ended(w) {
      UnderwayStep(w, step);
    } else if step.CancelSendStep? || step.CloseSendStep? {
      if HasRoom(w) {
        assert w'.ch.frames[|w.ch.frames|].Terminal?;
      } else {
        FullMeansTerminal(w);
        UnderwayStep(w, step);
      }
    }
  }

  /** Every grant of the run that finds its turn is idle, which its caller can
      see from the credit channel. */
  ghost predicate GrantsIdle(w: World, steps: seq<Step>)
    decreases |steps|
  {
    steps == [] ||
    (IdleGrant(w, steps[0]) && GrantsIdle(if Enabled(w, steps[0]) then Next(w, steps[0]) else w, steps[1..]))
  }

  ghost predicate Inv(w: World) {
    Apart(w) && Fifo(w) && Conserved(w) && NeverSilent(w)
  }

  lemma {:induction false} EveryRunConserves(w: World, steps: seq<Step>)
    requires Inv(w) && GrantsIdle(w, steps)
    ensures Inv(Run(w, steps)) && Run(w, steps).max == w.max
    decreases |steps|
  {
    hide Apart, Fifo, Conserved, NeverSilent, Next, Enabled;
    if steps != [] {
      var w' := if Enabled(w, steps[0]) then Next(w, steps[0]) else w;
      if Enabled(w, steps[0]) {
        MaxStays(w, steps[0]);
        ApartStep(w, steps[0]);
        FifoStep(w, steps[0]);
        ConservedStep(w, steps[0]);
        SilentStep(w, steps[0]);
      }
      EveryRunConserves(w', steps[1..]);
    }
  }

  /** If no grant adds to the credit, in every run: credit is conserved and never
      dropped, frames are taken in the order they were sent, and once Close or
      Cancel has returned a terminal frame is on its way or was delivered. */
  lemma StreamIsSafe(initialCredit: int, steps: seq<Step>)
    requires GrantsIdle(Start(initialCredit), steps)
    ensures
      var w := Run(Start(initialCredit), steps);
      && w.max == (if initialCredit < 1 then 1 else initialCredit)
      && Conserved(w) && w.ch.taken <= w.ch.sent && |w.ch.frames| <= w.max + 1
      && (w.ps.credited != {} || w.rs.holdingData != {} ==> w.ch.credits < w.max)
      && (Ended(w) ==> TerminalUnderway(w))
  {
    EveryRunConserves(Start(initialCredit), steps);
    var w := Run(Start(initialCredit), steps);
    hide Run;
    assert w.ch.taken + w.ch.frames == w.ch.sent;
    if w.ps.credited != {} {
      var p :| p in w.ps.credited;
      assert w.ps.credited == {p} + (w.ps.credited - {p});
    }
    if w.rs.holdingData != {} {
      var c :| c in w.rs.holdingData;
      assert w.rs.holdingData == {c} + (w.rs.holdingData - {c});
    }
  }

  /** The reserved slot: the first terminal frame always finds room. */
  lemma FirstTerminalFits(w: World)
    requires Conserved(w) && !TerminalUnderway(w)
    ensures HasRoom(w)
  {
    if !HasRoom(w) {
      FullMeansTerminal(w);
    }
  }
}
