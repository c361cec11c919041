/** What the state of a bidirectional session says about its past
    (axon/bidi_session.go), in every interleaving of calls. */
module BidiHistory {
  import opened Wrappers
  import opened Bidi
  import opened BidiRuns

  predicate Active(s: State) {
    s in {Opening, Open, HalfClosedLocal, HalfClosedRemote, Draining, CancelRequested}
  }

  ghost predicate SawEof(log: seq<Frame>) {
    exists i :: 0 <= i < |log| && log[i].kind == EofControl
  }

  /** An active state, from the accepted commands and the frames received. */
  ghost function ActiveState(first: State, commands: seq<Event>, log: seq<Frame>): State {
    if CancelEvent in commands then CancelRequested
    else if LocalClose in commands then (if SawEof(log) then Draining else HalfClosedLocal)
    else if SawEof(log) then HalfClosedRemote
    else if log == [] then first else Open
  }

  /** The states a final receipt leaves behind. */
  predicate SettledBy(v: Verdict, s: State) {
    match v
    case CompletedVerdict => s == Terminal || s == Closed
    case CancelledVerdict => s == Cancelled || s == Closed
    case FailedVerdict => s == Failed || s == Closed
    case NoVerdict => false
  }

  ghost predicate CommandsInOrder(commands: seq<Event>) {
    commands == [] || commands == [LocalClose] || commands == [CancelEvent] || commands == [LocalClose, CancelEvent]
  }

  ghost predicate Told(s: Session, log: seq<Frame>, commands: seq<Event>, first: State) {
    && CommandsInOrder(commands)
    && (Active(s.state) ==> s.terminal.None? && s.state == ActiveState(first, commands, log))
    && (s.terminal.Some? ==>
          log != [] && s.terminal.value == log[|log| - 1] && s.terminal.value.kind.Receipt?
          && SettledBy(s.terminal.value.kind.verdict, s.state))
    && (s.state == Terminal || s.state == Cancelled ==> s.terminal.Some?)
  }

  ghost predicate ToldIn(w: World, first: State) {
    Told(w.s, w.receivedLog, w.commands, first)
  }

  lemma EofGrows(log: seq<Frame>, f: Frame)
    ensures SawEof(log + [f]) <==> SawEof(log) || f.kind == EofControl
  {
    assert (log + [f])[|log|] == f;
    assert forall i :: 0 <= i < |log| ==> (log + [f])[i] == log[i];
  }

  lemma ReceivedTold(s: Session, f: Frame, log: seq<Frame>, commands: seq<Event>, first: State)
    requires Told(s, log, commands, first) && (first == Opening || first == Open)
    ensures
      var o := ReceiveOutcome(s, f);
      Told(Received(s, f), if o == Delivered || o == Unexpected then log + [f] else log, commands, first)
  {
    EofGrows(log, f);
    hide SawEof, Bounded;
  }

  lemma FiredTold(s: Session, e: Event, log: seq<Frame>, commands: seq<Event>, first: State)
    requires Told(s, log, commands, first) && (e == TransportFail || e == CloseEvent)
    ensures Told(Fired(s, e), log, commands, first)
  {
    hide SawEof;
  }

  lemma CommandTold(s: Session, e: Event, log: seq<Frame>, commands: seq<Event>, first: State)
    requires Told(s, log, commands, first) && (e == LocalClose || e == CancelEvent) && NextState(s.state, e).Some?
    requires first == Opening || first == Open
    ensures Told(Fired(s, e), log, commands + [e], first)
  {
    hide SawEof;
  }

  lemma SendTold(w: World, step: Step, first: State)
    requires ToldIn(w, first) && Enabled(w, step) && (step.SendStart? || step.SendEnd? || step.ReceiveStart? || step.CloseStart?)
    ensures ToldIn(Next(w, step), first)
  {
    FiredTold(w.s, TransportFail, w.receivedLog, w.commands, first);
    hide Fired, SawEof, Bounded;
  }

  lemma StepTold(w: World, step: Step, first: State)
    requires ToldIn(w, first) && Enabled(w, step) && (first == Opening || first == Open)
    ensures ToldIn(Next(w, step), first)
  {
    var s, log, commands := w.s, w.receivedLog, w.commands;
    match step
    case ReceiveEnd(Some(f)) =>
      ReceivedTold(s, f, log, commands, first);
      hide Told, Received, ReceiveOutcome;
    case CommandStart(e) =>
      hide Told, Fired;
      if NextState(s.state, e).Some? {
        CommandTold(s, e, log, commands, first);
      }
    case SendStart(_) => SendTold(w, step, first);
    case SendEnd(_) => SendTold(w, step, first);
    case ReceiveStart => SendTold(w, step, first);
    case CloseStart => SendTold(w, step, first);
    case _ =>
      FiredTold(s, TransportFail, log, commands, first);
      FiredTold(s, CloseEvent, log, commands, first);
      hide Told, Fired;
  }

  lemma {:induction false} RunTold(w: World, steps: seq<Step>, first: State)
    requires ToldIn(w, first) && (first == Opening || first == Open)
    ensures ToldIn(Run(w, steps), first)
    decreases |steps|
  {
    hide ToldIn, Next, Enabled;
    if steps != [] {
      if Enabled(w, steps[0]) {
        StepTold(w, steps[0], first);
      }
      RunTold(if Enabled(w, steps[0]) then Next(w, steps[0]) else w, steps[1..], first);
    }
  }

  /** In every run of a new session: an active state is the one its accepted
      commands and received frames spell; at most one half-close and then one cancel
      are accepted; Terminal, Cancelled and Failed after a receipt are exactly the
      verdicts completed, cancelled and failed of the receipt last received. */
  lemma StateTellsHistory(limit: nat, first: State, steps: seq<Step>)
    requires first == Opening || first == Open
    ensures
      var w := Run(Start(limit, first), steps);
      && ToldIn(w, first)
      && (w.s.state == Terminal <==>
            w.s.terminal.Some? && w.s.terminal.value.kind == Receipt(CompletedVerdict) && w.s.state != Closed)
      && (w.s.state == Cancelled <==>
            w.s.terminal.Some? && w.s.terminal.value.kind == Receipt(CancelledVerdict) && w.s.state != Closed)
      && (w.s.state == Failed && w.s.terminal.Some? <==>
            w.s.terminal.Some? && w.s.terminal.value.kind == Receipt(FailedVerdict) && w.s.state != Closed)
  {
    assert ToldIn(Start(limit, first), first) by {
      assert !SawEof([]);
    }
    RunTold(Start(limit, first), steps, first);
    hide Run, ActiveState;
  }

  /** An ordered final receipt in an active state is delivered, recorded, and decides
      the state by its verdict. */
  lemma ReceiptDecides(s: Session, f: Frame)
    requires Active(s.state) && s.terminal.None? && f.kind.Receipt? && f.kind.verdict != NoVerdict
    requires f.sequence > s.lastRecv
    ensures ReceiveOutcome(s, f) == Delivered && Received(s, f).terminal == Some(f)
    ensures Received(s, f).state == Terminal <==> f.kind.verdict == CompletedVerdict
    ensures Received(s, f).state == Cancelled <==> f.kind.verdict == CancelledVerdict
    ensures Received(s, f).state == Failed <==> f.kind.verdict == FailedVerdict
  {
    hide Bounded;
  }

  /** Which commands a session accepts. */
  lemma CommandAcceptedExactly(w: World)
    requires w.sender.NoSender?
    ensures Next(w, CommandStart(LocalClose)).sender.Commanding? <==> w.s.state == Open || w.s.state == HalfClosedRemote
    ensures Next(w, CommandStart(CancelEvent)).sender.Commanding? <==>
      w.s.state in {Opening, Open, HalfClosedLocal, HalfClosedRemote, Draining}
  {
  }

  /** A receive starts unless the session is closed, its stream has ended, or it
      failed without a receipt. */
  lemma ReceiveAcceptedExactly(w: World)
    requires !w.receiving
    ensures Next(w, ReceiveStart).receiving <==>
      w.s.state != Closed && !w.s.remoteDone && (w.s.state == Failed ==> w.s.terminal.Some?)
  {
  }

  /** The seven answers of a receive. */
  lemma OutcomesExactly(s: Session, f: Frame)
    ensures
      var o := ReceiveOutcome(s, f);
      && (o == TimedOut <==> f.kind == Timeout)
      && (o == Ended <==> f.kind == Done && s.terminal.Some?)
      && (o == EarlyEnd <==> f.kind == Done && s.terminal.None?)
      && (o == AfterTerminal <==> f.kind != Timeout && f.kind != Done && s.terminal.Some?)
      && (o == OutOfOrder <==> f.kind != Timeout && f.kind != Done && s.terminal.None? && !Ordered(f, s.lastRecv))
      && (o == Delivered || o == Unexpected ==> Received(s, f).lastRecv == f.sequence)
      && (o == Ended ==> Received(s, f) == s.(remoteDone := true))
      && (o == EarlyEnd || o == OutOfOrder || o == Unexpected ==> Received(s, f).state == Failed)
      && (o == TimedOut || o == AfterTerminal ==> Received(s, f) == s)
  {
    hide Bounded;
  }

  /** Once the remote end has ended the stream no further receive starts. */
  lemma {:induction false} EndIsFinal(w: World, steps: seq<Step>)
    requires w.s.remoteDone && !w.receiving
    ensures Run(w, steps).s.remoteDone && !Run(w, steps).receiving && Run(w, steps).receivedLog == w.receivedLog
    decreases |steps|
  {
    if steps != [] {
      var w' := if Enabled(w, steps[0]) then Next(w, steps[0]) else w;
      assert w'.s.remoteDone && !w'.receiving && w'.receivedLog == w.receivedLog by {
        hide Bounded;
      }
      hide Next, Enabled;
      EndIsFinal(w', steps[1..]);
    }
  }

  /** Closing is for settled sessions, and a successful transport closes them. */
  lemma CloseAcceptedExactly(w: World)
    requires !w.closing
    ensures Next(w, CloseStart).closing <==> w.s.state in {Terminal, Cancelled, Failed}
    ensures w.s.state in {Terminal, Cancelled, Failed} ==>
      Next(Next(w, CloseStart), CloseEnd(true)).s.state == Closed && Next(Next(w, CloseStart), CloseEnd(false)).s == w.s
  {
  }
}
