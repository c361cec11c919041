/** The exact limits of the credit stream's promises (axon/streams.go): which
    grants can lose the terminal frame, and how many consumers may share a stream. */
module CreditLimits {
  import opened CreditStream

  ghost predicate NoGrant(steps: seq<Step>) {
    forall i :: 0 <= i < |steps| ==> !steps[i].GrantStep?
  }

  function Apply(w: World, step: Step): World {
    if Enabled(w, step) then Next(w, step) else w
  }

  lemma RunCons(w: World, step: Step, steps: seq<Step>)
    ensures Run(w, [step] + steps) == Run(Apply(w, step), steps)
  {
    hide Next, Enabled;
    assert ([step] + steps)[1..] == steps;
  }

  // ---- Grants ----

  /** Close or Cancel has returned and no terminal frame will ever come. */
  ghost predicate Silent(w: World) {
    Ended(w) && !TerminalUnderway(w)
  }

  /** Some continuation, without further grants, ends in silence. */
  ghost predicate CanEndSilent(w: World) {
    exists steps :: NoGrant(steps) && Silent(Run(w, steps))
  }

  lemma SilentBack(w: World, step: Step)
    requires Enabled(w, step) && !step.GrantStep? && CanEndSilent(Next(w, step))
    ensures CanEndSilent(w)
  {
    hide Silent, Run, Next, Enabled;
    var steps :| NoGrant(steps) && Silent(Run(Next(w, step), steps));
    RunCons(w, step, steps);
    assert NoGrant([step] + steps);
  }

  lemma SilentNow(w: World)
    requires Silent(w)
    ensures CanEndSilent(w)
  {
    assert NoGrant([]) && Run(w, []) == w;
  }

  ghost predicate AllData(frames: seq<Frame>) {
    forall i :: 0 <= i < |frames| ==> frames[i].Data?
  }

  /** One unit of credit too many, no terminal frame yet, and enough producers to
      turn every token into a frame: after a cancel only those already in push. */
  ghost predicate Overfull(w: World) {
    && w.ps.entered !! w.ps.credited && w.ch.credits <= w.max && w.max >= 1
    && AllData(w.ch.frames) && w.rs.holdingTerminal == {} && w.rs.terminalsDelivered == 0
    && w.ch.credits + |w.ps.credited| + |w.rs.holdingData| + |w.ch.frames| == w.max + 1
    && (w.ends.cancelled ==> w.ends.cancelPending && |w.ps.entered| >= w.ch.credits + |w.rs.holdingData|)
    && (w.ends.closeTaken ==> w.ends.closePending)
  }

  lemma OverfullSend(w: World, p: nat)
    requires Overfull(w) && p in w.ps.credited
    ensures Enabled(w, SendStep(p, []))
    ensures Overfull(Next(w, SendStep(p, [])))
    ensures |Next(w, SendStep(p, [])).ch.frames| == |w.ch.frames| + 1
  {
    assert w.ps.credited == (w.ps.credited - {p}) + {p};
  }

  lemma OverfullCredit(w: World, p: nat)
    requires Overfull(w) && p in w.ps.entered && w.ch.credits > 0
    ensures Enabled(w, CreditStep(p))
    ensures
      var w' := Next(w, CreditStep(p));
      Overfull(w') && w'.ch.frames == w.ch.frames && w'.rs.holdingData == w.rs.holdingData && w'.ch.credits == w.ch.credits - 1 && w'.max == w.max
  {
    assert w.ps.entered == (w.ps.entered - {p}) + {p};
  }

  lemma OverfullPush(w: World)
    requires Overfull(w) && !w.ends.cancelled && w.ps.entered == {} && w.ps.credited == {}
    ensures Enabled(w, PushStep(0))
    ensures
      var w' := Next(w, PushStep(0));
      Overfull(w') && w'.ch == w.ch && w'.rs == w.rs && w'.ps.entered == {0} && w'.max == w.max
  {
  }

  lemma OverfullReturn(w: World, c: nat)
    requires Overfull(w) && c in w.rs.holdingData && w.ch.credits == 0
    ensures Enabled(w, ReturnCreditStep(c))
    ensures
      var w' := Next(w, ReturnCreditStep(c));
      Overfull(w') && w'.ch.frames == w.ch.frames && |w'.rs.holdingData| == |w.rs.holdingData| - 1 && w'.max == w.max
  {
    assert w.rs.holdingData == (w.rs.holdingData - {c}) + {c};
  }

  /** A buffer full of data: Close falls back to Cancel, and Cancel drops its frame. */
  lemma FullBufferLoses(w: World)
    requires Overfull(w) && |w.ch.frames| == w.max + 1
    ensures CanEndSilent(w)
  {
    if w.ends.cancelled {
      CancelDrops(w);
    } else if !w.ends.closeTaken {
      var w' := Next(w, CloseStep);
      FullPendingLoses(w');
      SilentBack(w, CloseStep);
    } else {
      FullPendingLoses(w);
    }
  }

  lemma CancelDrops(w: World)
    requires !HasRoom(w) && w.ends.cancelled && w.ends.cancelPending && !TerminalUnderway(w)
    ensures CanEndSilent(w)
  {
    var dropped := Next(w, CancelSendStep("stop"));
    assert Silent(dropped);
    SilentNow(dropped);
    SilentBack(w, CancelSendStep("stop"));
  }

  lemma FullPendingLoses(w: World)
    requires Overfull(w) && |w.ch.frames| == w.max + 1 && !w.ends.cancelled && w.ends.closePending
    ensures CanEndSilent(w)
  {
    var fallen := Next(w, CloseSendStep("done"));
    CancelDrops(fallen);
    SilentBack(w, CloseSendStep("done"));
  }

  /** Every hand is emptied into the queue until it is full of data. */
  lemma {:induction false} OverfullLoses(w: World)
    requires Overfull(w)
    ensures CanEndSilent(w)
    decreases w.max + 1 - |w.ch.frames|, |w.rs.holdingData|, w.ch.credits, w.ps.entered == {}
  {
    hide Next, Enabled, CanEndSilent;
    if w.ps.credited != {} {
      var p :| p in w.ps.credited;
      OverfullSend(w, p);
      MaxStays(w, SendStep(p, []));
      OverfullLoses(Next(w, SendStep(p, [])));
      SilentBack(w, SendStep(p, []));
    } else if w.ch.credits > 0 && w.ps.entered != {} {
      var p :| p in w.ps.entered;
      OverfullCredit(w, p);
      OverfullLoses(Next(w, CreditStep(p)));
      SilentBack(w, CreditStep(p));
    } else if w.ch.credits > 0 {
      OverfullPush(w);
      OverfullLoses(Next(w, PushStep(0)));
      SilentBack(w, PushStep(0));
    } else if w.rs.holdingData != {} {
      var c :| c in w.rs.holdingData;
      OverfullReturn(w, c);
      OverfullLoses(Next(w, ReturnCreditStep(c)));
      SilentBack(w, ReturnCreditStep(c));
    } else {
      FullBufferLoses(w);
    }
  }

  lemma GrantOverfills(w: World)
    requires Inv(w) && AtRisk(w)
    ensures Overfull(Next(w, GrantStep))
  {
    AllDataWhenFull(w.ch.frames);
    assert forall i :: 0 <= i < |w.ch.frames| ==> w.ch.frames[i].Data?;
  }

  lemma {:induction false} NoGrantIsIdle(w: World, steps: seq<Step>)
    requires NoGrant(steps)
    ensures GrantsIdle(w, steps)
    decreases |steps|
  {
    hide Next, Enabled;
    if steps != [] {
      assert forall i :: 0 <= i < |steps| - 1 ==> steps[1..][i] == steps[i + 1];
      NoGrantIsIdle(if Enabled(w, steps[0]) then Next(w, steps[0]) else w, steps[1..]);
    }
  }

  lemma {:induction false} UnderwayForever(w: World, steps: seq<Step>)
    requires TerminalUnderway(w)
    ensures TerminalUnderway(Run(w, steps))
    decreases |steps|
  {
    hide TerminalUnderway, Next, Enabled;
    if steps != [] {
      if Enabled(w, steps[0]) {
        UnderwayStep(w, steps[0]);
      }
      UnderwayForever(if Enabled(w, steps[0]) then Next(w, steps[0]) else w, steps[1..]);
    }
  }

  /** The credit channel is short, no terminal frame is underway, and if the stream
      is being cancelled more producers wait for credit than there are tokens and
      frames that give theirs back. */
  ghost predicate AtRisk(w: World) {
    && w.ch.credits < w.max && !TerminalUnderway(w)
    && (w.ends.cancelled ==> |w.ps.entered| > w.ch.credits + |w.rs.holdingData|)
  }

  /** A cancel whose frame is still to come and will find room: either no unit is
      in excess or some token must stay behind. */
  ghost predicate Reserved(w: World) {
    && w.ends.cancelled && !Ended(w)
    && (Units(w) <= w.max || (Units(w) == w.max + 1 && |w.ps.entered| < w.ch.credits + |w.rs.holdingData|))
  }

  lemma ReservedHasRoom(w: World)
    requires Reserved(w) && !TerminalUnderway(w)
    ensures HasRoom(w)
  {
    AllDataWhenFull(w.ch.frames);
    assert forall i :: 0 <= i < |w.ch.frames| ==> w.ch.frames[i].Data?;
  }

  /** After a cancel, a step that drops no unit leaves no fewer tokens to spare. */
  lemma SpareStep(w: World, step: Step)
    requires Apart(w) && Enabled(w, step) && !step.GrantStep? && w.ends.cancelled
    ensures
      var w' := Next(w, step);
      DropsToken(w, step) || w'.ch.credits + |w'.rs.holdingData| - |w'.ps.entered| >= w.ch.credits + |w.rs.holdingData| - |w.ps.entered|
  {
    match step
    case CreditStep(p) => assert w.ps.entered == (w.ps.entered - {p}) + {p};
    case GiveUpStep(p) => assert w.ps.entered == (w.ps.entered - {p}) + {p};
    case TakeStep(c) => assert c !in w.rs.holdingData;
    case ReturnCreditStep(c) => assert w.rs.holdingData == (w.rs.holdingData - {c}) + {c};
    case _ =>
  }

  lemma EndsStay(w: World, step: Step)
    requires Enabled(w, step) && w.ends.cancelled && !Ended(w)
    ensures Next(w, step).ends.cancelled
    ensures step.CancelSendStep? || step.CloseSendStep? || !Ended(Next(w, step))
  {
  }

  lemma TerminalLands(w: World, step: Step)
    requires Enabled(w, step) && HasRoom(w) && (step.CancelSendStep? || step.CloseSendStep?)
    ensures TerminalUnderway(Next(w, step))
  {
    assert Next(w, step).ch.frames[|w.ch.frames|].Terminal?;
  }

  lemma ReservedStep(w: World, step: Step)
    requires Apart(w) && Enabled(w, step) && !step.GrantStep? && (TerminalUnderway(w) || Reserved(w))
    ensures TerminalUnderway(Next(w, step)) || Reserved(Next(w, step))
  {
    hide TerminalUnderway, Next, Enabled, Units, DropsToken, Ended, HasRoom;
    if TerminalUnderway(w) {
      UnderwayStep(w, step);
    } else if step.CancelSendStep? || step.CloseSendStep? {
      ReservedHasRoom(w);
      TerminalLands(w, step);
    } else {
      UnitsStep(w, step);
      SpareStep(w, step);
      EndsStay(w, step);
      MaxStays(w, step);
    }
  }

  lemma {:induction false} ReservedRun(w: World, steps: seq<Step>)
    requires Apart(w) && NoGrant(steps) && (TerminalUnderway(w) || Reserved(w))
    ensures TerminalUnderway(Run(w, steps)) || Reserved(Run(w, steps))
    decreases |steps|
  {
    hide TerminalUnderway, Reserved, Apart, Next, Enabled;
    if steps != [] {
      if Enabled(w, steps[0]) {
        ApartStep(w, steps[0]);
        ReservedStep(w, steps[0]);
      }
      assert forall i :: 0 <= i < |steps| - 1 ==> steps[1..][i] == steps[i + 1];
      ReservedRun(if Enabled(w, steps[0]) then Next(w, steps[0]) else w, steps[1..]);
    }
  }

  lemma GrantKeepsReserved(w: World)
    requires Inv(w) && w.ends.cancelled && !TerminalUnderway(w) && w.ch.credits < w.max && !AtRisk(w)
    ensures Apart(Next(w, GrantStep)) && Reserved(Next(w, GrantStep))
  {
    hide DataCount;
  }

  /** A grant can end in silence if and only if the stream is at risk. */
  lemma GrantLosesExactly(w: World)
    requires Inv(w)
    ensures CanEndSilent(Next(w, GrantStep)) <==> AtRisk(w)
  {
    var granted := Next(w, GrantStep);
    if AtRisk(w) {
      GrantOverfills(w);
      OverfullLoses(granted);
    } else if CanEndSilent(granted) {
      var steps :| NoGrant(steps) && Silent(Run(granted, steps));
      if TerminalUnderway(w) {
        UnderwayStep(w, GrantStep);
        UnderwayForever(granted, steps);
      } else if w.ch.credits < w.max {
        GrantKeepsReserved(w);
        ReservedRun(granted, steps);
      } else {
        GrantConservesExactly(w);
        NoGrantIsIdle(w, steps);
        EveryRunConserves(w, steps);
      }
    }
  }

  /** So whatever the initial credit, one frame in hand and one grant are enough. */
  lemma GrantCanLoseTheTerminal(credit: int)
    ensures exists steps :: Silent(Run(Start(credit), steps))
  {
    var start := Start(credit);
    var pushed := Apply(start, PushStep(0));
    var inHand := Apply(pushed, CreditStep(0));
    NoGrantIsIdle(start, [PushStep(0), CreditStep(0)]);
    StartHolds(credit);
    EveryRunConserves(start, [PushStep(0), CreditStep(0)]);
    assert AtRisk(inHand);
    hide Silent, Next, Enabled, Inv, Start;
    TwoSteps(start, PushStep(0), CreditStep(0), []);
    RunNothing(inHand);
    assert [PushStep(0), CreditStep(0)] + [] == [PushStep(0), CreditStep(0)];
    GrantLosesExactly(inHand);
    var steps :| NoGrant(steps) && Silent(Run(Next(inHand, GrantStep), steps));
    RunCons(inHand, GrantStep, steps);
    TwoSteps(start, PushStep(0), CreditStep(0), [GrantStep] + steps);
  }

  /** Producers 0 to n - 1 enter push. */
  function Enter(n: nat): seq<Step> {
    if n == 0 then [] else Enter(n - 1) + [PushStep(n - 1)]
  }

  lemma RunSnoc(w: World, steps: seq<Step>, last: Step)
    ensures Run(w, steps + [last]) == Apply(Run(w, steps), last)
  {
    RunAppend(w, steps, [last]);
    hide Next, Enabled;
  }

  function Crowd(n: nat): set<nat> {
    if n == 0 then {} else Crowd(n - 1) + {n - 1}
  }

  lemma {:induction false} CrowdSize(n: nat)
    ensures |Crowd(n)| == n && forall p: nat :: p in Crowd(n) <==> p < n
  {
    if n > 0 {
      CrowdSize(n - 1);
    }
  }

  lemma {:induction false} EnterCrowds(credit: int, n: nat)
    ensures Run(Start(credit), Enter(n)) == Start(credit).(ps := Producers(Crowd(n), {})) && NoGrant(Enter(n))
  {
    if n > 0 {
      EnterCrowds(credit, n - 1);
      RunSnoc(Start(credit), Enter(n - 1), PushStep(n - 1));
      CrowdSize(n - 1);
    }
  }

  /** One producer more than there is credit has entered push, one has been served,
      and Cancel has closed its channel but not yet sent its frame. */
  function BeforeCancelSend(credit: int): seq<Step> {
    Enter(Start(credit).max + 1) + [CreditStep(0)] + [CancelStep]
  }

  lemma CrowdedCancel(crowd: World)
    requires crowd.ch.credits == crowd.max >= 1 && crowd.ch.frames == []
    requires crowd.ps.entered == Crowd(crowd.max + 1) && crowd.rs == Readers({}, {}, {}, false, 0)
    requires !crowd.ends.cancelled && !crowd.ends.closeTaken
    ensures var w := Apply(Apply(crowd, CreditStep(0)), CancelStep);
            AtRisk(w) && w.ends.cancelled && !w.ends.closeTaken
  {
    CrowdSize(crowd.max + 1);
    assert |crowd.ps.entered - {0}| == crowd.max;
  }

  lemma BeforeCancelSendRuns(credit: int)
    ensures NoGrant(BeforeCancelSend(credit))
    ensures
      var crowd := Start(credit).(ps := Producers(Crowd(Start(credit).max + 1), {}));
      Run(Start(credit), BeforeCancelSend(credit)) == Apply(Apply(crowd, CreditStep(0)), CancelStep)
  {
    hide Run, Apply, Start;
    var start, enter := Start(credit), Enter(Start(credit).max + 1);
    EnterCrowds(credit, start.max + 1);
    RunSnoc(start, enter, CreditStep(0));
    RunSnoc(start, enter + [CreditStep(0)], CancelStep);
  }

  lemma StartHolds(credit: int)
    ensures Inv(Start(credit))
  {
  }

  lemma CrowdedStart(credit: int)
    ensures
      var crowd := Start(credit).(ps := Producers(Crowd(Start(credit).max + 1), {}));
      var w := Apply(Apply(crowd, CreditStep(0)), CancelStep);
      AtRisk(w) && w.ends.cancelled && !w.ends.closeTaken
  {
    hide Apply, AtRisk;
    CrowdedCancel(Start(credit).(ps := Producers(Crowd(Start(credit).max + 1), {})));
  }

  lemma CancelledAtRisk(credit: int)
    ensures
      var w := Run(Start(credit), BeforeCancelSend(credit));
      Inv(w) && AtRisk(w) && w.ends.cancelled && !w.ends.closeTaken
  {
    hide *;
    StartHolds(credit);
    CrowdedStart(credit);
    BeforeCancelSendRuns(credit);
    NoGrantIsIdle(Start(credit), BeforeCancelSend(credit));
    EveryRunConserves(Start(credit), BeforeCancelSend(credit));
  }

  lemma {:induction false} CancelPrecludesClose(w: World, steps: seq<Step>)
    requires w.ends.cancelled && !w.ends.closeTaken
    ensures !Run(w, steps).ends.closeTaken
    decreases |steps|
  {
    if steps != [] {
      var w' := if Enabled(w, steps[0]) then Next(w, steps[0]) else w;
      assert w'.ends.cancelled && !w'.ends.closeTaken;
      hide Next, Enabled;
      CancelPrecludesClose(w', steps[1..]);
    }
  }

  /** And a grant between the two halves of Cancel can make Cancel itself drop its
      frame, without any Close, whatever the initial credit. */
  lemma CancelCanLoseItsOwnFrame(credit: int)
    ensures exists steps :: Silent(Run(Start(credit), steps)) && !Run(Start(credit), steps).ends.closeTaken
  {
    var start, before := Start(credit), BeforeCancelSend(credit);
    CancelledAtRisk(credit);
    var w := Run(start, before);
    GrantLosesExactly(w);
    var after :| NoGrant(after) && Silent(Run(Next(w, GrantStep), after));
    CancelPrecludesClose(Next(w, GrantStep), after);
    hide Silent, Next, Enabled, Inv, Start, AtRisk, BeforeCancelSend, CanEndSilent;
    RunCons(w, GrantStep, after);
    RunAppend(start, before, [GrantStep] + after);
  }

  lemma {:induction false} RunAppend(w: World, first: seq<Step>, second: seq<Step>)
    ensures Run(w, first + second) == Run(Run(w, first), second)
    decreases |first|
  {
    hide Next, Enabled;
    if first == [] {
      assert first + second == second;
    } else {
      assert (first + second)[1..] == first[1..] + second;
      RunAppend(if Enabled(w, first[0]) then Next(w, first[0]) else w, first[1..], second);
    }
  }

  // ---- Consumers ----

  /** Only consumers in C call NextFrame. */
  ghost predicate ReadBy(steps: seq<Step>, consumers: set<nat>) {
    forall i :: 0 <= i < |steps| && steps[i].NextStep? ==> steps[i].c in consumers
  }

  ghost predicate OneTerminal(w: World, me: nat) {
    && w.rs.waiting <= {me} && w.rs.holdingTerminal <= {me}
    && (w.rs.waiting != {} || w.rs.holdingTerminal != {} ==> !w.rs.terminalSeen)
    && w.rs.terminalsDelivered == (if w.rs.terminalSeen then 1 else 0)
    && w.rs.waiting !! w.rs.holdingTerminal
  }

  lemma ReaderKeepsOne(w: World, step: Step, me: nat)
    requires OneTerminal(w, me) && Enabled(w, step) && ByReader(step) && (step.NextStep? ==> step.c == me)
    ensures OneTerminal(Next(w, step), me)
  {
    hide ProducerNext, ControlNext;
  }

  lemma OneTerminalStep(w: World, step: Step, me: nat)
    requires OneTerminal(w, me) && Enabled(w, step) && (step.NextStep? ==> step.c == me)
    ensures OneTerminal(Next(w, step), me)
  {
    if ByReader(step) {
      ReaderKeepsOne(w, step, me);
    } else {
      PlacesFrame(w, step);
      hide Next, Enabled;
    }
  }

  /** A single consumer is handed at most one terminal frame, grants or not. */
  lemma {:induction false} AtMostOneTerminal(w: World, steps: seq<Step>, me: nat)
    requires OneTerminal(w, me) && ReadBy(steps, {me})
    ensures OneTerminal(Run(w, steps), me) && Run(w, steps).rs.terminalsDelivered <= 1
    decreases |steps|
  {
    if steps != [] {
      var w' := if Enabled(w, steps[0]) then Next(w, steps[0]) else w;
      if Enabled(w, steps[0]) {
        OneTerminalStep(w, steps[0], me);
      }
      hide OneTerminal, Next, Enabled;
      assert forall i :: 0 <= i < |steps| - 1 ==> steps[1..][i] == steps[i + 1];
      AtMostOneTerminal(w', steps[1..], me);
    }
  }

  // Two consumers a and b past the terminalSeen test, then Close and Cancel.

  const DONE := Terminal("done")
  const STOP := Terminal("stop")

  function BothWaiting(credit: int, a: nat, b: nat): World {
    Start(credit).(rs := Readers({a, b}, {}, {}, false, 0))
  }

  function AfterClose(credit: int, a: nat, b: nat): World {
    BothWaiting(credit, a, b).(
      ch := Channel(Start(credit).max, [DONE], [DONE], []), ends := Ends(false, false, true, false))
  }

  function AfterCancel(credit: int, a: nat, b: nat): World {
    BothWaiting(credit, a, b).(
      ch := Channel(Start(credit).max, [DONE, STOP], [DONE, STOP], []), ends := Ends(true, false, true, false))
  }

  function BothHolding(credit: int, a: nat, b: nat): World {
    AfterCancel(credit, a, b).(
      ch := Channel(Start(credit).max, [], [DONE, STOP], [DONE, STOP]), rs := Readers({}, {}, {a, b}, false, 0))
  }

  lemma BothWait(credit: int, a: nat, b: nat)
    requires a != b
    ensures Apply(Apply(Start(credit), NextStep(a)), NextStep(b)) == BothWaiting(credit, a, b)
  {
    assert {} + {a} == {a} && {a} + {b} == {a, b};
  }

  lemma Closes(credit: int, a: nat, b: nat)
    ensures Apply(Apply(BothWaiting(credit, a, b), CloseStep), CloseSendStep("done")) == AfterClose(credit, a, b)
  {
  }

  lemma Stops(credit: int, a: nat, b: nat)
    ensures Apply(Apply(AfterClose(credit, a, b), CancelStep), CancelSendStep("stop")) == AfterCancel(credit, a, b)
  {
  }

  lemma BothTake(credit: int, a: nat, b: nat)
    requires a != b
    ensures Apply(Apply(AfterCancel(credit, a, b), TakeStep(a)), TakeStep(b)) == BothHolding(credit, a, b)
  {
    assert {a, b} - {a} == {b} && {b} - {b} == {} && {} + {a} == {a} && {a} + {b} == {a, b};
    var frames := AfterCancel(credit, a, b).ch.frames;
    assert frames[1..] == [STOP] && frames[1..][1..] == [] && [] + [frames[0]] + [frames[1]] == frames;
  }

  lemma BothMark(credit: int, a: nat, b: nat)
    requires a != b
    ensures Apply(Apply(BothHolding(credit, a, b), MarkTerminalStep(a)), MarkTerminalStep(b)).rs.terminalsDelivered == 2
  {
    assert b in {a, b} - {a};
  }

  lemma TwoSteps(w: World, first: Step, second: Step, steps: seq<Step>)
    ensures Run(w, [first, second] + steps) == Run(Apply(Apply(w, first), second), steps)
  {
    hide Next, Enabled, Apply, Run;
    assert [first, second] + steps == [first] + ([second] + steps);
    RunCons(w, first, [second] + steps);
    RunCons(Apply(w, first), second, steps);
  }

  function TwoReaders(a: nat, b: nat): seq<Step> {
    [NextStep(a), NextStep(b)] + ([CloseStep, CloseSendStep("done")] + ([CancelStep, CancelSendStep("stop")]
    + ([TakeStep(a), TakeStep(b)] + ([MarkTerminalStep(a), MarkTerminalStep(b)] + []))))
  }

  /** Any two consumers can each be handed a terminal frame, whatever the credit. */
  lemma TwoConsumersSeeTwo(credit: int, a: nat, b: nat)
    requires a != b
    ensures Run(Start(credit), TwoReaders(a, b)).rs.terminalsDelivered == 2 && ReadBy(TwoReaders(a, b), {a, b})
  {
    hide Run, Next, Enabled, Start, Apply, BothWaiting, AfterClose, AfterCancel, BothHolding;
    var marks: seq<Step> := [MarkTerminalStep(a), MarkTerminalStep(b)] + [];
    var takes := [TakeStep(a), TakeStep(b)] + marks;
    var cancels := [CancelStep, CancelSendStep("stop")] + takes;
    var closes := [CloseStep, CloseSendStep("done")] + cancels;
    BothWait(credit, a, b);
    TwoSteps(Start(credit), NextStep(a), NextStep(b), closes);
    Closes(credit, a, b);
    TwoSteps(BothWaiting(credit, a, b), CloseStep, CloseSendStep("done"), cancels);
    Stops(credit, a, b);
    TwoSteps(AfterClose(credit, a, b), CancelStep, CancelSendStep("stop"), takes);
    BothTake(credit, a, b);
    TwoSteps(AfterCancel(credit, a, b), TakeStep(a), TakeStep(b), marks);
    BothMark(credit, a, b);
    TwoSteps(BothHolding(credit, a, b), MarkTerminalStep(a), MarkTerminalStep(b), []);
    RunNothing(Apply(Apply(BothHolding(credit, a, b), MarkTerminalStep(a)), MarkTerminalStep(b)));
  }

  lemma RunNothing(w: World)
    ensures Run(w, []) == w
  {
  }

  /** No run read by these consumers delivers two terminal frames. */
  ghost predicate DeliversOne(credit: int, consumers: set<nat>) {
    forall steps :: ReadBy(steps, consumers) ==> Run(Start(credit), steps).rs.terminalsDelivered <= 1
  }

  lemma TwoMembers(s: set<nat>) returns (a: nat, b: nat)
    requires |s| > 1
    ensures a in s && b in s && a != b
  {
    a :| a in s;
    assert |s - {a}| == |s| - 1;
    b :| b in s - {a};
  }

  lemma AtMostOneMember(s: set<nat>) returns (a: nat)
    requires |s| <= 1
    ensures s <= {a}
  {
    if s == {} {
      a := 0;
    } else {
      a :| a in s;
      assert |s - {a}| == |s| - 1;
      assert s - {a} == {};
    }
  }

  /** At most one terminal frame is delivered in every run if and only if at most
      one consumer reads the stream. */
  lemma OneConsumerExactly(credit: int, consumers: set<nat>)
    ensures DeliversOne(credit, consumers) <==> |consumers| <= 1
  {
    if |consumers| <= 1 {
      var me := AtMostOneMember(consumers);
      forall steps | ReadBy(steps, consumers) ensures Run(Start(credit), steps).rs.terminalsDelivered <= 1 {
        AtMostOneTerminal(Start(credit), steps, me);
      }
    } else {
      var a, b := TwoMembers(consumers);
      TwoConsumersSeeTwo(credit, a, b);
      hide Run, Start;
      assert ReadBy(TwoReaders(a, b), consumers);
    }
  }
}
