/** Every interleaving of Send, Receive, CloseSend, Cancel and Close on one
    session, with transport operations that may fail. */
module BidiRuns {
  import opened Wrappers
  import opened Bidi

  /** The call holding sendMu. */
  datatype Sender = NoSender | SendingFrame(frame: Frame) | Commanding

  /** `sentLog` and `receivedLog` record every frame the session validated,
      `commands` every half-close and cancel it accepted. */
  datatype World = World(
    s: Session, sender: Sender, receiving: bool, closing: bool,
    sentLog: seq<Frame>, receivedLog: seq<Frame>, commands: seq<Event>)

  datatype Step =
    | SendStart(frame: Frame)
    | SendEnd(ok: bool)
    | CommandStart(event: Event)
    | CommandEnd(ok: bool)
    | ReceiveStart
    | ReceiveEnd(got: Option<Frame>)
    | CloseStart
    | CloseEnd(ok: bool)

  predicate Enabled(w: World, step: Step) {
    match step
    case SendStart(_) => w.sender.NoSender?
    case SendEnd(_) => w.sender.SendingFrame?
    case CommandStart(e) => w.sender.NoSender? && (e == LocalClose || e == CancelEvent)
    case CommandEnd(_) => w.sender.Commanding?
    case ReceiveStart => !w.receiving
    case ReceiveEnd(_) => w.receiving
    case CloseStart => !w.closing
    case CloseEnd(_) => w.closing
  }

  function StartSend(w: World, f: Frame): World {
    if !SendPathOpen(w.s) then w
    else if !Ordered(f, w.s.lastSend) then w.(s := w.s.(state := Failed))
    else w.(sender := SendingFrame(f))
  }

  function EndSend(w: World, ok: bool): World
    requires w.sender.SendingFrame?
  {
    var f := w.sender.frame;
    var done := w.(sender := NoSender);
    if !ok then done.(s := Fired(w.s, TransportFail))
    else done.(s := w.s.(lastSend := f.sequence, sent := Bounded(w.s.sent, f, w.s.limit)), sentLog := w.sentLog + [f])
  }

  function EndReceive(w: World, frame: Option<Frame>): World {
    var done := w.(receiving := false);
    match frame
    case None => done.(s := Fired(w.s, TransportFail))
    case Some(f) =>
      var o := ReceiveOutcome(w.s, f);
      done.(s := Received(w.s, f),
            receivedLog := if o == Delivered || o == Unexpected then w.receivedLog + [f] else w.receivedLog)
  }

  function Next(w: World, step: Step): World
    requires Enabled(w, step)
  {
    match step
    case SendStart(f) => StartSend(w, f)
    case SendEnd(ok) => EndSend(w, ok)
    case CommandStart(e) =>
      if NextState(w.s.state, e).None? then w
      else w.(s := Fired(w.s, e), sender := Commanding, commands := w.commands + [e])
    case CommandEnd(ok) => w.(sender := NoSender, s := if ok then w.s else Fired(w.s, TransportFail))
    case ReceiveStart => if ReceivePathOpen(w.s) then w.(receiving := true) else w
    case ReceiveEnd(frame) => EndReceive(w, frame)
    case CloseStart => if w.s.state == Closed || Live(w.s.state) then w else w.(closing := true)
    case CloseEnd(ok) => w.(closing := false, s := Fired(w.s, if ok then CloseEvent else TransportFail))
  }

  function Run(w: World, steps: seq<Step>): World
    decreases |steps|
  {
    if steps == [] then w
    else Run(if Enabled(w, steps[0]) then Next(w, steps[0]) else w, steps[1..])
  }

  function Start(limit: nat, state: State): World {
    World(Session(limit, state, 0, 0, [], [], None, false), NoSender, false, false, [], [], [])
  }

  // ---- Histories ----

  ghost predicate Increasing(log: seq<Frame>, last: nat) {
    && (forall i, j :: 0 <= i < j < |log| ==> log[i].sequence < log[j].sequence)
    && (forall i :: 0 <= i < |log| ==> log[i].kind != Missing && 0 < log[i].sequence <= last)
    && (log != [] ==> log[|log| - 1].sequence == last)
  }

  /** Each history is the last `limit` frames of its direction, in order. */
  ghost predicate HistoriesExact(w: World) {
    && w.s.limit > 0
    && w.s.sent == Last(w.sentLog, w.s.limit) && Increasing(w.sentLog, w.s.lastSend)
    && w.s.received == Last(w.receivedLog, w.s.limit) && Increasing(w.receivedLog, w.s.lastRecv)
    && (w.sender.SendingFrame? ==> Ordered(w.sender.frame, w.s.lastSend))
  }

  lemma IncreasingGrows(log: seq<Frame>, last: nat, f: Frame)
    requires Increasing(log, last) && Ordered(f, last)
    ensures Increasing(log + [f], f.sequence)
  {
  }

  lemma HistoryStep(w: World, step: Step)
    requires HistoriesExact(w) && Enabled(w, step)
    ensures HistoriesExact(Next(w, step))
  {
    hide Last, Increasing, Bounded;
    match step
    case SendEnd(ok) =>
      BoundedIsLast(w.sentLog, w.sender.frame, w.s.limit);
      IncreasingGrows(w.sentLog, w.s.lastSend, w.sender.frame);
    case ReceiveEnd(Some(f)) =>
      BoundedIsLast(w.receivedLog, f, w.s.limit);
      if Ordered(f, w.s.lastRecv) {
        IncreasingGrows(w.receivedLog, w.s.lastRecv, f);
      }
    case _ =>
  }

  // ---- The terminal receipt ----

  ghost predicate ReceiptBehind(w: World) {
    (w.s.state == Terminal || w.s.state == Cancelled ==> w.s.terminal.Some?)
  }

  lemma ReceiptStep(w: World, step: Step)
    requires ReceiptBehind(w) && Enabled(w, step)
    ensures ReceiptBehind(Next(w, step))
    ensures w.s.terminal.Some? ==> Next(w, step).s.terminal == w.s.terminal
  {
  }

  lemma {:induction false} EveryRunKeepsHistory(w: World, steps: seq<Step>)
    requires HistoriesExact(w) && ReceiptBehind(w)
    ensures HistoriesExact(Run(w, steps)) && ReceiptBehind(Run(w, steps))
    ensures w.s.terminal.Some? ==> Run(w, steps).s.terminal == w.s.terminal
    decreases |steps|
  {
    hide HistoriesExact, ReceiptBehind, Next, Enabled;
    if steps != [] {
      var w' := if Enabled(w, steps[0]) then Next(w, steps[0]) else w;
      if Enabled(w, steps[0]) {
        HistoryStep(w, steps[0]);
        ReceiptStep(w, steps[0]);
      }
      EveryRunKeepsHistory(w', steps[1..]);
    }
  }

  // ---- Progress ----

  /** Closed with a receive in flight and no receipt recorded. */
  predicate Exposed(w: World) {
    w.s.state == Closed && w.receiving && w.s.terminal.None?
  }

  /** Frames that fail a closed session without a receipt. */
  predicate Unwelcome(f: Frame, last: nat) {
    && f.kind != Timeout
    && (f.kind == Done || !Ordered(f, last) || f.kind == EofControl || (f.kind.Receipt? && f.kind.verdict != NoVerdict))
  }

  predicate Reopens(w: World, step: Step) {
    Exposed(w) && step.ReceiveEnd? && step.got.Some? && Unwelcome(step.got.value, w.s.lastRecv)
  }

  /** A step moves the state up the rank or leaves it alone, except exactly when
      an exposed session is handed an unwelcome frame. */
  lemma StepClimbs(w: World, step: Step)
    requires ReceiptBehind(w) && Enabled(w, step)
    ensures
      var w' := Next(w, step);
      if Reopens(w, step) then w'.s.state == Failed
      else w'.s.state == w.s.state || Rank(w'.s.state) > Rank(w.s.state)
  {
    if step.ReceiveEnd? && step.got.Some? {
      ReceivedClimbs(w.s, step.got.value);
    } else {
      hide Received;
      FiredClimbs(w.s, TransportFail);
      FiredClimbs(w.s, CloseEvent);
      FiredClimbs(w.s, LocalClose);
      FiredClimbs(w.s, CancelEvent);
      hide Fired, Rank;
      SendRank(w.s);
    }
  }

  lemma SendRank(s: Session)
    ensures SendPathOpen(s) ==> Rank(Failed) > Rank(s.state)
  {
  }

  lemma FiredClimbs(s: Session, e: Event)
    ensures Fired(s, e).state == s.state || Rank(Fired(s, e).state) > Rank(s.state)
    ensures Fired(s, e) == s.(state := Fired(s, e).state)
  {
    if NextState(s.state, e).Some? {
      TransitionsClimb(s.state, e);
    }
  }

  lemma ReceivedClimbs(s: Session, f: Frame)
    requires s.state == Terminal || s.state == Cancelled ==> s.terminal.Some?
    ensures
      if s.state == Closed && s.terminal.None? && Unwelcome(f, s.lastRecv) then Received(s, f).state == Failed
      else Received(s, f).state == s.state || Rank(Received(s, f).state) > Rank(s.state)
  {
    hide Bounded;
  }

  /** A closed session that is not exposed stays so. */
  lemma ClosedStays(w: World, step: Step)
    requires w.s.state == Closed && !Exposed(w) && Enabled(w, step)
    ensures Next(w, step).s.state == Closed && !Exposed(Next(w, step))
  {
    if step.ReceiveEnd? && step.got.Some? {
      SettledReceive(w.s, step.got.value);
    }
    hide Received;
  }

  lemma SettledReceive(s: Session, f: Frame)
    requires s.terminal.Some?
    ensures Received(s, f).state == s.state
  {
    hide Bounded;
  }

  lemma {:induction false} ClosedForever(w: World, steps: seq<Step>)
    requires w.s.state == Closed && !Exposed(w)
    ensures Run(w, steps).s.state == Closed
    decreases |steps|
  {
    if steps != [] {
      if Enabled(w, steps[0]) {
        ClosedStays(w, steps[0]);
      }
      hide Next, Enabled, Exposed;
      ClosedForever(if Enabled(w, steps[0]) then Next(w, steps[0]) else w, steps[1..]);
    }
  }

  /** The stream ends before any receipt. */
  const EARLY_END := [ReceiveEnd(Some(Frame(Done, 0, [])))]

  lemma EarlyEndReopens(w: World)
    requires Exposed(w)
    ensures Run(w, EARLY_END).s.state == Failed
  {
    var failed := Next(w, EARLY_END[0]);
    assert failed.s.state == Failed;
    hide Next;
    assert EARLY_END[1..] == [] && Run(failed, []) == failed;
  }

  /** Closed is absorbing if and only if no receive is in flight or a receipt has
      been recorded. */
  lemma ClosedIsFinalExactly(w: World)
    requires w.s.state == Closed
    ensures (forall steps :: Run(w, steps).s.state == Closed) <==> !(w.receiving && w.s.terminal.None?)
  {
    hide Run;
    if Exposed(w) {
      EarlyEndReopens(w);
      assert Run(w, EARLY_END).s.state != Closed;
    } else {
      forall steps ensures Run(w, steps).s.state == Closed {
        ClosedForever(w, steps);
      }
    }
  }

  // ---- How often the state changes ----

  function Changes(w: World, steps: seq<Step>): nat
    decreases |steps|
  {
    if steps == [] then 0
    else
      var w' := if Enabled(w, steps[0]) then Next(w, steps[0]) else w;
      (if w'.s.state != w.s.state then 1 else 0) + Changes(w', steps[1..])
  }

  /** Over without a receipt, and no receive can begin again. */
  predicate Spent(w: World) {
    (w.s.state == Failed || w.s.state == Closed) && w.s.terminal.None? && !w.receiving
  }

  lemma SpentStays(w: World, step: Step)
    requires Spent(w) && Enabled(w, step)
    ensures Spent(Next(w, step)) && (w.s.state == Closed ==> Next(w, step).s.state == Closed)
  {
  }

  lemma ReopenedIsSpent(w: World, step: Step)
    requires Reopens(w, step) && Enabled(w, step)
    ensures Spent(Next(w, step)) && Next(w, step).s.state == Failed
  {
    hide Bounded;
  }

  /** A spent session can only be closed, once. */
  lemma {:induction false} SpentOnlyCloses(w: World, steps: seq<Step>)
    requires Spent(w)
    ensures Spent(Run(w, steps)) && Changes(w, steps) <= 6 - Rank(w.s.state)
    ensures w.s.state == Closed ==> Run(w, steps).s.state == Closed
    decreases |steps|
  {
    if steps != [] {
      if Enabled(w, steps[0]) {
        SpentStays(w, steps[0]);
      }
      hide Next, Enabled;
      SpentOnlyCloses(if Enabled(w, steps[0]) then Next(w, steps[0]) else w, steps[1..]);
    }
  }

  /** In every run the state changes at most as often as its rank can rise, plus
      once down from Closed and once up again: a session reopens at most once. */
  lemma {:induction false} ChangesAreBounded(w: World, steps: seq<Step>)
    requires ReceiptBehind(w)
    ensures Changes(w, steps) <= 8 - Rank(w.s.state)
    decreases |steps|
  {
    if steps != [] {
      var w' := if Enabled(w, steps[0]) then Next(w, steps[0]) else w;
      if Enabled(w, steps[0]) {
        StepClimbs(w, steps[0]);
        ReceiptStep(w, steps[0]);
        if Reopens(w, steps[0]) {
          ReopenedIsSpent(w, steps[0]);
        }
      }
      hide Next, Enabled, ReceiptBehind;
      TopRank(w.s.state);
      if Enabled(w, steps[0]) && Reopens(w, steps[0]) {
        SpentOnlyCloses(w', steps[1..]);
      } else {
        ChangesAreBounded(w', steps[1..]);
      }
    }
  }

  /** No close commits under a receive without a recorded receipt. */
  ghost predicate Orderly(w: World, steps: seq<Step>)
    decreases |steps|
  {
    !Exposed(w) &&
    (steps == [] || Orderly(if Enabled(w, steps[0]) then Next(w, steps[0]) else w, steps[1..]))
  }

  /** Then the state only ever climbs, and Closed is absorbing. */
  lemma {:induction false} OrderlyRunsClimb(w: World, steps: seq<Step>)
    requires ReceiptBehind(w) && Orderly(w, steps)
    ensures Run(w, steps).s.state == w.s.state || Rank(Run(w, steps).s.state) > Rank(w.s.state)
    ensures Changes(w, steps) <= Rank(Run(w, steps).s.state) - Rank(w.s.state)
    ensures w.s.state == Closed ==> Run(w, steps).s.state == Closed
    decreases |steps|
  {
    if w.s.state == Closed {
      ClosedForever(w, steps);
    }
    if steps != [] {
      var w' := if Enabled(w, steps[0]) then Next(w, steps[0]) else w;
      if Enabled(w, steps[0]) {
        StepClimbs(w, steps[0]);
        ReceiptStep(w, steps[0]);
      }
      hide Next, Enabled, ReceiptBehind;
      OrderlyRunsClimb(w', steps[1..]);
    }
  }

  /** At no point of the run can the next step, whatever it is, lower the state. */
  ghost predicate NeverAboutToFall(w: World, steps: seq<Step>)
    decreases |steps|
  {
    && (forall step :: Enabled(w, step) ==> Rank(Next(w, step).s.state) >= Rank(w.s.state))
    && (steps == [] || NeverAboutToFall(if Enabled(w, steps[0]) then Next(w, steps[0]) else w, steps[1..]))
  }

  lemma FallsExactly(w: World)
    requires ReceiptBehind(w)
    ensures (forall step :: Enabled(w, step) ==> Rank(Next(w, step).s.state) >= Rank(w.s.state)) <==> !Exposed(w)
  {
    if Exposed(w) {
      var step := ReceiveEnd(Some(Frame(Done, 0, [])));
      assert Enabled(w, step) && Next(w, step).s.state == Failed;
    } else {
      forall step | Enabled(w, step) ensures Rank(Next(w, step).s.state) >= Rank(w.s.state) {
        StepClimbs(w, step);
      }
    }
  }

  /** Orderly is exact: in any other run some step could have lowered the state. */
  lemma {:induction false} OrderlyExactly(w: World, steps: seq<Step>)
    requires ReceiptBehind(w)
    ensures Orderly(w, steps) <==> NeverAboutToFall(w, steps)
    decreases |steps|
  {
    FallsExactly(w);
    if steps != [] {
      if Enabled(w, steps[0]) {
        ReceiptStep(w, steps[0]);
      }
      hide Next, Enabled, ReceiptBehind, Exposed, Rank;
      OrderlyExactly(if Enabled(w, steps[0]) then Next(w, steps[0]) else w, steps[1..]);
    }
  }

  lemma TopRank(s: State)
    ensures Rank(s) <= 6 && (Rank(s) == 6 <==> s == Closed)
  {
  }

  /** Whole calls one after the other are orderly. */
  ghost predicate WholeCalls(steps: seq<Step>) {
    && (forall i :: 0 <= i < |steps| && steps[i].ReceiveStart? ==> i + 1 < |steps| && steps[i + 1].ReceiveEnd?)
  }

  lemma IdleStays(w: World, step: Step)
    requires !w.receiving && Enabled(w, step) && !step.ReceiveStart?
    ensures !Next(w, step).receiving
  {
  }

  lemma ReceiveCallSettles(w: World)
    requires !w.receiving
    ensures Next(w, ReceiveStart).s == w.s && (Next(w, ReceiveStart).receiving ==> w.s.state != Closed)
  {
  }

  lemma {:induction false} WholeCallsAreOrderly(w: World, steps: seq<Step>)
    requires WholeCalls(steps) && !w.receiving
    ensures Orderly(w, steps)
    decreases |steps|
  {
    if steps != [] {
      var w' := if Enabled(w, steps[0]) then Next(w, steps[0]) else w;
      assert forall i :: 0 <= i < |steps| - 1 ==> steps[1..][i] == steps[i + 1];
      if steps[0].ReceiveStart? {
        ReceiveCallSettles(w);
        var w'' := if Enabled(w', steps[1]) then Next(w', steps[1]) else w';
        assert !w''.receiving;
        assert forall i :: 0 <= i < |steps| - 2 ==> steps[1..][1..][i] == steps[i + 2];
        hide Next, Enabled;
        WholeCallsAreOrderly(w'', steps[1..][1..]);
      } else {
        if Enabled(w, steps[0]) {
          IdleStays(w, steps[0]);
        }
        hide Next, Enabled;
        WholeCallsAreOrderly(w', steps[1..]);
      }
    }
  }

  const UNORDERED := Frame(Content, 0, [])

  /** A receive is in flight while a bad send fails the session and it is closed. */
  function CloseUnderReceive(): seq<Step> {
    [ReceiveStart, SendStart(UNORDERED), CloseStart, CloseEnd(true)]
  }

  lemma ReachesExposed(limit: nat)
    ensures Exposed(Run(Start(limit, Open), CloseUnderReceive()))
  {
    var steps := CloseUnderReceive();
    var w0 := Start(limit, Open);
    var w1 := w0.(receiving := true);
    var w2 := w1.(s := w1.s.(state := Failed));
    var w3 := w2.(closing := true);
    var w4 := w3.(closing := false, s := w3.s.(state := Closed));
    assert w1 == Next(w0, steps[0]);
    assert w2 == Next(w1, steps[1]);
    assert w3 == Next(w2, steps[2]);
    assert w4 == Next(w3, steps[3]);
    hide Next;
    assert Run(w0, steps) == Run(w1, steps[1..]);
    assert Run(w1, steps[1..]) == Run(w2, steps[1..][1..]);
    assert Run(w2, steps[1..][1..]) == Run(w3, steps[1..][1..][1..]);
    assert Run(w3, steps[1..][1..][1..]) == Run(w4, steps[1..][1..][1..][1..]);
  }

  /** Every buffer size has a run that closes a session and then fails it. */
  lemma ClosedCanReopen(limit: nat)
    ensures exists before, after :: (
      var w := Run(Start(limit, Open), before);
      w.s.state == Closed && Run(w, after).s.state != Closed)
  {
    ReachesExposed(limit);
    var before := CloseUnderReceive();
    var w := Run(Start(limit, Open), before);
    hide Run;
    ClosedIsFinalExactly(w);
    var after :| Run(w, after).s.state != Closed;
    assert Run(Run(Start(limit, Open), before), after).s.state != Closed;
  }
}
