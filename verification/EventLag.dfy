/** Backpressure after a recovery (axon/invocation/handle.go): acknowledging a
    restored progress event lowers a count it never raised. */
module EventLag {
  import opened Wrappers
  import opened ByteStrings
  import opened Canonical
  import opened Lifecycle
  import opened EventCore
  import opened EventRuns
  import RC = ReceiptChain
  import Log = RecoveryLog

  /** Progress events of this runtime that no reader has acknowledged. */
  function Pending(c: Core, restored: nat): set<nat> {
    set i: nat | i in ProgressSet(c.events) && restored <= i && i !in c.acked
  }

  /** Acknowledged progress events among the restored ones. */
  function Consumed(c: Core, restored: nat): set<nat> {
    set i: nat | i in c.acked && i < restored
  }

  /** Each restored progress event a reader acknowledges takes one pending event
      out of the count. */
  ghost predicate LagBounded(c: Core, restored: nat) {
    && restored <= |c.events| && c.acked <= ProgressSet(c.events) && c.buffered <= STREAM_CAPACITY
    && |Pending(c, restored)| <= c.buffered + |Consumed(c, restored)|
  }

  lemma LagGrows(c: Core, d: Core, e: Event, restored: nat)
    requires LagBounded(c, restored) && d.events == c.events + [e] && d.acked == c.acked
    ensures Consumed(d, restored) == Consumed(c, restored) && d.acked <= ProgressSet(d.events)
    ensures |Pending(d, restored)| <= |Pending(c, restored)| + (if e.kind == Progress then 1 else 0)
  {
    ProgressGrows(c.events, e);
    var added := if e.kind == Progress then {|c.events|} else {};
    hide ProgressSet;
    assert Pending(d, restored) <= Pending(c, restored) + added;
    SubsetSize(Pending(d, restored), Pending(c, restored) + added);
  }

  lemma EmitGrows(sha: Bytes -> Hash, c: Core, input: Input)
    requires !input.restoring && Emit(sha, c, input).Ok? && c.buffered <= STREAM_CAPACITY
    ensures
      var d := Emit(sha, c, input).value;
      && d.events == c.events + [RecoveryLogEntry(c, input)] && d.acked == c.acked && d.buffered <= STREAM_CAPACITY
      && d.buffered == c.buffered + (if input.kind == Progress then 1 else 0)
  {
    hide AppendReceipt, EmitRefusal;
  }

  lemma EmitKeepsLag(sha: Bytes -> Hash, c: Core, input: Input, restored: nat)
    requires LagBounded(c, restored) && !input.restoring && Emit(sha, c, input).Ok?
    ensures LagBounded(Emit(sha, c, input).value, restored)
  {
    EmitGrows(sha, c, input);
    hide Emit, ProgressSet, Pending, Consumed;
    LagGrows(c, Emit(sha, c, input).value, RecoveryLogEntry(c, input), restored);
  }

  lemma AckKeepsLag(c: Core, e: Event, restored: nat)
    requires LagBounded(c, restored) && e.sequence < |c.events| && c.events[e.sequence] == e
    ensures LagBounded(Acknowledge(c, e), restored)
  {
    var d := Acknowledge(c, e);
    if d != c {
      assert e.sequence in ProgressSet(c.events);
      hide ProgressSet;
      if e.sequence < restored {
        assert Pending(d, restored) == Pending(c, restored);
        assert Consumed(d, restored) == Consumed(c, restored) + {e.sequence};
      } else {
        assert Pending(d, restored) == Pending(c, restored) - {e.sequence};
        assert Consumed(d, restored) == Consumed(c, restored);
      }
    }
  }

  lemma LagStep(sha: Bytes -> Hash, w: World, step: Step, restored: nat)
    requires Log.Numbered(w.core.events) && AllInOrder(w) && LagBounded(w.core, restored) && Enabled(w, step)
    ensures LagBounded(Next(sha, w, step).core, restored)
  {
    hide Log.ApplyAppend, AppendReceipt, Log.Apply, Fetched, ProgressSet, Emit, Acknowledge, Pending, Consumed;
    match step
    case EmitStep(input, _, _, _) =>
      if Emit(sha, w.core, input).Ok? {
        EmitKeepsLag(sha, w.core, input, restored);
      }
    case TakeStep(reader) =>
      TakeInOrder(w.core.events, w.streams[reader]);
      AckKeepsLag(w.core, w.streams[reader].buffer[0], restored);
    case ClaimStep(owner) => SameLag(w.core, ClaimTerminal(w.core, owner), restored);
    case FailStep => SameLag(w.core, FailFinalization(w.core), restored);
    case _ =>
  }

  lemma SameLag(c: Core, d: Core, restored: nat)
    requires LagBounded(c, restored) && d.events == c.events && d.acked == c.acked && d.buffered == c.buffered
    ensures LagBounded(d, restored)
  {
    assert Pending(d, restored) == Pending(c, restored) && Consumed(d, restored) == Consumed(c, restored);
  }

  lemma {:induction false} EveryRunBoundsLag(sha: Bytes -> Hash, w: World, steps: seq<Step>, restored: nat)
    requires Sound(sha, w.core) && AllInOrder(w) && LagBounded(w.core, restored)
    ensures LagBounded(Run(sha, w, steps).core, restored)
    decreases |steps|
  {
    hide Sound, Next, Enabled, AllInOrder, LagBounded;
    if steps != [] {
      var w' := if Enabled(w, steps[0]) then Next(sha, w, steps[0]) else w;
      if Enabled(w, steps[0]) {
        SoundStep(sha, w, steps[0]);
        SoundNumbered(sha, w.core);
        OrderStep(sha, w, steps[0]);
        LagStep(sha, w, steps[0], restored);
      }
      EveryRunBoundsLag(sha, w', steps[1..], restored);
    }
  }

  lemma {:induction false} EventsSurvive(sha: Bytes -> Hash, w: World, steps: seq<Step>)
    ensures w.core.events <= Run(sha, w, steps).core.events
    decreases |steps|
  {
    hide Next, Enabled;
    if steps != [] {
      if Enabled(w, steps[0]) {
        EventsOnlyGrow(sha, w, steps[0]);
      }
      EventsSurvive(sha, if Enabled(w, steps[0]) then Next(sha, w, steps[0]) else w, steps[1..]);
    }
  }

  lemma ConsumedIsRestored(c: Core, logged: seq<Event>)
    requires logged <= c.events && c.acked <= ProgressSet(c.events)
    ensures |Consumed(c, |logged|)| <= |ProgressSet(logged)|
  {
    assert Consumed(c, |logged|) <= ProgressSet(logged);
    SubsetSize(Consumed(c, |logged|), ProgressSet(logged));
  }

  /** After a recovery with R restored progress events, at most 64 + R of the new
      progress events are ever unacknowledged. */
  lemma RestoredLagIsBounded(
    sha: Bytes -> Hash, logged: seq<Event>, drafts: seq<Option<ReceiptBody>>, durable: Log.Snapshot, steps: seq<Step>)
    requires |drafts| == |logged| && Log.Numbered(logged) && Restored(sha, NEW_CORE, logged, drafts).Some?
    ensures
      var w := World(Restored(sha, NEW_CORE, logged, drafts).value, map[], durable, false);
      |Pending(Run(sha, w, steps).core, |logged|)| <= 64 + |ProgressSet(logged)|
  {
    RestoredIsSound(sha, logged, drafts);
    hide Restored, Sound;
    var w := World(Restored(sha, NEW_CORE, logged, drafts).value, map[], durable, false);
    assert Pending(w.core, |logged|) == {} && Consumed(w.core, |logged|) == {};
    assert LagBounded(w.core, |logged|) && AllInOrder(w);
    EveryRunBoundsLag(sha, w, steps, |logged|);
    EventsSurvive(sha, w, steps);
    hide Run;
    ConsumedIsRestored(Run(sha, w, steps).core, logged);
  }

  // ---- The bound is reached ----

  /** Some continuation leaves n new progress events unacknowledged. */
  ghost predicate CanLag(sha: Bytes -> Hash, w: World, restored: nat, n: nat) {
    exists steps :: |Pending(Run(sha, w, steps).core, restored)| == n
  }

  lemma LagBack(sha: Bytes -> Hash, w: World, step: Step, restored: nat, n: nat)
    requires Enabled(w, step) && CanLag(sha, Next(sha, w, step), restored, n)
    ensures CanLag(sha, w, restored, n)
  {
    hide Pending, Next, Enabled;
    var steps :| |Pending(Run(sha, Next(sha, w, step), steps).core, restored)| == n;
    assert ([step] + steps)[1..] == steps;
    assert Run(sha, w, [step] + steps) == Run(sha, Next(sha, w, step), steps);
  }

  lemma LagNow(sha: Bytes -> Hash, w: World, restored: nat)
    ensures CanLag(sha, w, restored, |Pending(w.core, restored)|)
  {
    assert Run(sha, w, []) == w;
  }

  /** A reader is about to be handed the restored events from `position` on, and
      exactly the restored progress events before it are acknowledged. */
  ghost predicate Reading(events: seq<Event>, acked: set<nat>, buffer: seq<Event>, restored: nat) {
    && |buffer| <= restored <= |events| && Log.Numbered(events)
    && buffer == events[restored - |buffer|..restored]
    && (forall i: nat :: i < restored ==> (i in acked <==> i < restored - |buffer| && events[i].kind == Progress))
  }

  ghost predicate Poised(c: Core, buffer: seq<Event>, restored: nat) {
    && c.gate == Gate(Running, NoOwner, false) && !c.chain.terminal
    && c.buffered <= STREAM_CAPACITY
    && |c.chain.receipts| + (STREAM_CAPACITY - c.buffered) + |buffer| < TWO_64
    && Reading(c.events, c.acked, buffer, restored)
    && (forall i :: i in c.acked ==> i < restored)
    && |Pending(c, restored)| == c.buffered + |Consumed(c, restored)|
  }

  function ProgressInput(draft: ReceiptBody): Input {
    Input(Progress, Running, [], Some(draft), false)
  }

  lemma PoisedEmit(sha: Bytes -> Hash, c: Core, buffer: seq<Event>, draft: ReceiptBody, restored: nat)
    requires Poised(c, buffer, restored) && c.buffered < STREAM_CAPACITY
    ensures Emit(sha, c, ProgressInput(draft)).Ok?
    ensures
      var d := Emit(sha, c, ProgressInput(draft)).value;
      Poised(d, buffer, restored) && d.buffered == c.buffered + 1 && d.events != []
  {
    RestoredFits(c, buffer, restored);
    hide RC.Drafted, Stamped, Pending, Consumed, Reading;
    var d := Emit(sha, c, ProgressInput(draft)).value;
    var e := RecoveryLogEntry(c, ProgressInput(draft));
    assert d.events == c.events + [e] && d.acked == c.acked;
    hide Emit;
    ReadingGrows(c.events, c.acked, buffer, restored, e);
    PendingGrows(c, d, e, restored);
  }

  lemma ReadingGrows(events: seq<Event>, acked: set<nat>, buffer: seq<Event>, restored: nat, e: Event)
    requires Reading(events, acked, buffer, restored) && e.sequence == |events|
    ensures Reading(events + [e], acked, buffer, restored)
  {
    var grown := events + [e];
    assert grown[restored - |buffer|..restored] == events[restored - |buffer|..restored];
  }

  lemma PendingGrows(c: Core, d: Core, e: Event, restored: nat)
    requires restored <= |c.events| && d.events == c.events + [e] && d.acked == c.acked && e.kind == Progress
    requires forall i :: i in c.acked ==> i < restored
    ensures |Pending(d, restored)| == |Pending(c, restored)| + 1 && Consumed(d, restored) == Consumed(c, restored)
  {
    ProgressGrows(c.events, e);
    assert |c.events| !in ProgressSet(c.events);
    hide ProgressSet;
    assert Pending(d, restored) == Pending(c, restored) + {|c.events|};
  }

  lemma ReadingTakes(events: seq<Event>, acked: set<nat>, buffer: seq<Event>, restored: nat)
    requires Reading(events, acked, buffer, restored) && buffer != []
    ensures buffer[0].sequence == restored - |buffer| < |events| && buffer[0] == events[restored - |buffer|]
    ensures buffer[0].sequence !in acked
    ensures Reading(events, if buffer[0].kind == Progress then acked + {buffer[0].sequence} else acked, buffer[1..], restored)
  {
    var position := restored - |buffer|;
    assert buffer[0] == events[position];
    assert buffer[1..] == events[position + 1..restored];
  }

  lemma CountsAfterAck(c: Core, d: Core, position: nat, restored: nat)
    requires position < restored && position !in c.acked && d.events == c.events && d.acked == c.acked + {position}
    ensures |Pending(d, restored)| == |Pending(c, restored)| && |Consumed(d, restored)| == |Consumed(c, restored)| + 1
  {
    hide ProgressSet;
    assert Pending(d, restored) == Pending(c, restored);
    assert Consumed(d, restored) == Consumed(c, restored) + {position};
  }

  lemma PoisedTake(c: Core, buffer: seq<Event>, restored: nat)
    requires Poised(c, buffer, restored) && buffer != [] && c.buffered > 0
    ensures Poised(Acknowledge(c, buffer[0]), buffer[1..], restored)
  {
    ReadingTakes(c.events, c.acked, buffer, restored);
    RestoredFits(c, buffer, restored);
    hide Reading, Pending, Consumed;
    var d := Acknowledge(c, buffer[0]);
    if buffer[0].kind == Progress {
      CountsAfterAck(c, d, buffer[0].sequence, restored);
    }
  }

  lemma AllConsumed(c: Core, restored: nat)
    requires Poised(c, [], restored)
    ensures Consumed(c, restored) == ProgressSet(c.events[..restored])
  {
  }

  ghost predicate PoisedWorld(w: World, restored: nat) {
    0 in w.streams && Poised(w.core, w.streams[0].buffer, restored)
  }

  lemma EmitStepCore(sha: Bytes -> Hash, w: World, input: Input)
    requires !input.restoring && Emit(sha, w.core, input).Ok? && Emit(sha, w.core, input).value.events != []
    ensures
      var w' := Next(sha, w, EmitStep(input, None, 0, true));
      w'.core == Emit(sha, w.core, input).value && w'.streams == w.streams
  {
    hide Emit, Stored;
  }

  lemma EmitReaches(sha: Bytes -> Hash, w: World, draft: ReceiptBody, restored: nat)
    requires PoisedWorld(w, restored) && w.core.buffered < STREAM_CAPACITY && restored <= |w.core.events|
    ensures
      var w' := Next(sha, w, EmitStep(ProgressInput(draft), None, 0, true));
      && PoisedWorld(w', restored) && w'.streams == w.streams && w'.core.buffered == w.core.buffered + 1
      && w.core.events <= w'.core.events
  {
    var input := ProgressInput(draft);
    PoisedEmit(sha, w.core, w.streams[0].buffer, draft, restored);
    EmitStepCore(sha, w, input);
    EventsOnlyGrow(sha, w, EmitStep(input, None, 0, true));
    hide Poised, Emit, Next;
  }

  lemma RestoredFits(c: Core, buffer: seq<Event>, restored: nat)
    requires Poised(c, buffer, restored)
    ensures |buffer| <= restored <= |c.events|
  {
  }

  lemma {:induction false} LagReaches(sha: Bytes -> Hash, w: World, draft: ReceiptBody, restored: nat)
    requires PoisedWorld(w, restored) && restored <= |w.core.events|
    ensures CanLag(sha, w, restored, STREAM_CAPACITY + |ProgressSet(w.core.events[..restored])|)
    decreases |w.streams[0].buffer|, STREAM_CAPACITY - w.core.buffered
  {
    var buffer := w.streams[0].buffer;
    assert w.core.buffered <= STREAM_CAPACITY;
    if w.core.buffered < STREAM_CAPACITY {
      var step := EmitStep(ProgressInput(draft), None, 0, true);
      EmitReaches(sha, w, draft, restored);
      var w' := Next(sha, w, step);
      hide Next, Poised, CanLag, ProgressSet;
      assert w'.core.events[..restored] == w.core.events[..restored];
      LagReaches(sha, w', draft, restored);
      LagBack(sha, w, step, restored, STREAM_CAPACITY + |ProgressSet(w.core.events[..restored])|);
    } else if buffer != [] {
      PoisedTake(w.core, buffer, restored);
      var w' := Next(sha, w, TakeStep(0));
      hide Poised, CanLag, ProgressSet;
      assert w'.core.events == w.core.events && w'.streams[0].buffer == buffer[1..];
      LagReaches(sha, w', draft, restored);
      LagBack(sha, w, TakeStep(0), restored, STREAM_CAPACITY + |ProgressSet(w.core.events[..restored])|);
    } else {
      AllConsumed(w.core, restored);
      LagNow(sha, w, restored);
    }
  }

  lemma RestoredIsPoised(sha: Bytes -> Hash, c: Core, logged: seq<Event>)
    requires Sound(sha, c) && c.events == logged && c.buffered == 0 && c.acked == {}
    requires c.gate == Gate(Running, NoOwner, false) && 2 * |logged| + STREAM_CAPACITY < TWO_64
    ensures Poised(c, logged, |logged|)
  {
    assert Pending(c, |logged|) == {} && Consumed(c, |logged|) == {};
    assert logged[0..|logged|] == logged;
    hide RC.ChainValid, IsPath;
  }

  /** For every record of a running invocation the bound of RestoredLagIsBounded is
      reached: a reader of the restored events makes room for as many new ones. */
  lemma RestoredLagIsReached(
    sha: Bytes -> Hash, logged: seq<Event>, drafts: seq<Option<ReceiptBody>>, durable: Log.Snapshot, draft: ReceiptBody)
    requires |drafts| == |logged| && Log.Numbered(logged) && Restored(sha, NEW_CORE, logged, drafts).Some?
    requires Restored(sha, NEW_CORE, logged, drafts).value.gate.state == Running && 2 * |logged| + 64 < TWO_64
    ensures
      var w := World(Restored(sha, NEW_CORE, logged, drafts).value, map[], durable, false);
      CanLag(sha, w, |logged|, 64 + |ProgressSet(logged)|)
  {
    RestoredIsSound(sha, logged, drafts);
    RestoredGate(sha, logged, drafts);
    var c := Restored(sha, NEW_CORE, logged, drafts).value;
    RestoredIsPoised(sha, c, logged);
    var w := World(c, map[], durable, false);
    OpenAndFetch(sha, w);
    hide Restored, Sound, ProgressSet, Next, Poised, CanLag;
    var ready := Next(sha, w, OpenStep(0, 0));
    var fetched := Next(sha, ready, FetchStep(0));
    assert logged[..|logged|] == logged;
    LagReaches(sha, fetched, draft, |logged|);
    LagBack(sha, ready, FetchStep(0), |logged|, STREAM_CAPACITY + |ProgressSet(logged)|);
    LagBack(sha, w, OpenStep(0, 0), |logged|, STREAM_CAPACITY + |ProgressSet(logged)|);
  }

  lemma OpenAndFetch(sha: Bytes -> Hash, w: World)
    requires w.streams == map[] && Log.Numbered(w.core.events)
    ensures
      var ready := Next(sha, w, OpenStep(0, 0));
      && Enabled(ready, FetchStep(0))
      && (var fetched := Next(sha, ready, FetchStep(0));
          fetched.core == w.core && 0 in fetched.streams && fetched.streams[0].buffer == w.core.events)
  {
    NothingDropped(w.core.events, 0, 0);
    hide FromOffset;
    assert w.core.events[0..] == w.core.events;
  }

  lemma {:induction false} RestoredGate(sha: Bytes -> Hash, logged: seq<Event>, drafts: seq<Option<ReceiptBody>>)
    requires |drafts| == |logged| && Restored(sha, NEW_CORE, logged, drafts).Some?
    ensures
      var c := Restored(sha, NEW_CORE, logged, drafts).value;
      c.gate == Gate(c.gate.state, NoOwner, false)
    decreases |logged|
  {
    hide AppendReceipt, EmitRefusal;
    if logged != [] {
      var n := |logged| - 1;
      RestoredGate(sha, logged[..n], drafts[..n]);
    }
  }
}
