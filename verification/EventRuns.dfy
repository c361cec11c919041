/** Every run of one core with any number of readers, terminal claimants and
    writers of its durable record, in any order, with any write failing. */
module EventRuns {
  import opened Wrappers
  import opened ByteStrings
  import opened Canonical
  import opened Lifecycle
  import opened EventCore
  import RC = ReceiptChain
  import Log = RecoveryLog

  /** `durable` is the recovery record the core's persistence sink appends to;
      `frozen` is set by the first append that does not reach it. */
  datatype World = World(core: Core, streams: map<nat, Stream>, durable: Log.Snapshot, frozen: bool)

  const START := World(NEW_CORE, map[], Log.BLANK, false)

  datatype Step =
    | ClaimStep(owner: Owner)
    | FailStep
    | EmitStep(input: Input, writer: Option<Log.RuntimeId>, now: int, writeOk: bool)
    | OpenStep(reader: nat, from: nat)
    | FetchStep(reader: nat)
    | TakeStep(reader: nat)
    | CloseStep(reader: nat)
    | LogStep(op: Log.Op, now: int)

  predicate Enabled(w: World, step: Step) {
    match step
    case EmitStep(input, _, _, _) => !input.restoring
    case OpenStep(reader, _) => reader !in w.streams
    case FetchStep(reader) => reader in w.streams
    case TakeStep(reader) => reader in w.streams && w.streams[reader].buffer != []
    case CloseStep(reader) => reader in w.streams
    case LogStep(op, _) => !op.Append?
    case _ => true
  }

  /** The sink's append: refused by the record or lost by the disk, it leaves the
      record alone. */
  function Stored(durable: Log.Snapshot, writer: Option<Log.RuntimeId>, e: Event, now: int, writeOk: bool): Option<Log.Snapshot> {
    match Log.ApplyAppend(durable, writer, e, now)
    case Ok(grown) => if writeOk then Some(grown) else None
    case Err(_) => None
  }

  function AfterEmit(w: World, core: Core, writer: Option<Log.RuntimeId>, now: int, writeOk: bool): World
    requires core.events != []
  {
    match Stored(w.durable, writer, core.events[|core.events| - 1], now, writeOk)
    case Some(grown) => w.(core := core, durable := grown)
    case None => w.(core := core, frozen := true)
  }

  function Next(sha: Bytes -> Hash, w: World, step: Step): World
    requires Enabled(w, step)
  {
    match step
    case ClaimStep(owner) => w.(core := ClaimTerminal(w.core, owner))
    case FailStep => w.(core := FailFinalization(w.core))
    case EmitStep(input, writer, now, writeOk) =>
      (match Emit(sha, w.core, input)
       case Ok(core) => AfterEmit(w, core, writer, now, writeOk)
       case Err(_) => w)
    case OpenStep(reader, from) => w.(streams := w.streams[reader := Opened(from)])
    case FetchStep(reader) => w.(streams := w.streams[reader := Fetched(w.core, w.streams[reader])])
    case TakeStep(reader) =>
      w.(streams := w.streams[reader := Taken(w.streams[reader])],
         core := Acknowledge(w.core, w.streams[reader].buffer[0]))
    case CloseStep(reader) => w.(streams := w.streams[reader := w.streams[reader].(closed := true)])
    case LogStep(op, now) =>
      match Log.Apply(w.durable, op, now)
      case Ok(durable) => w.(durable := durable)
      case Err(_) => w
  }

  function Run(sha: Bytes -> Hash, w: World, steps: seq<Step>): World
    decreases |steps|
  {
    if steps == [] then w
    else Run(sha, if Enabled(w, steps[0]) then Next(sha, w, steps[0]) else w, steps[1..])
  }

  // ---- The core ----

  lemma PathGrows(events: seq<Event>, state: State, e: Event)
    requires IsPath(events, state) && ExpectedTransition(state, e.kind, e.state)
    ensures IsPath(events + [e], e.state)
  {
    hide ExpectedTransition;
    var grown := events + [e];
    forall i | 0 <= i < |grown| ensures ExpectedTransition(StateBefore(grown, i), grown[i].kind, grown[i].state) {
      if i < |events| {
        assert StateBefore(grown, i) == StateBefore(events, i);
      }
    }
  }

  lemma ReceiptGrows(sha: Bytes -> Hash, c: Chain, input: Input)
    requires RC.ChainValid(sha, c.receipts) && AppendReceipt(sha, c, input).Some?
    ensures
      var d := AppendReceipt(sha, c, input).value;
      && RC.ChainValid(sha, d.receipts) && !d.appending && d.terminal == input.target.IsTerminal()
      && |d.receipts| == |c.receipts| + 1 && d.receipts[..|c.receipts|] == c.receipts
      && d.receipts[|c.receipts|].body.index == |c.receipts|
      && d.receipts[|c.receipts|].body.receiptType == KindName(input.kind)
      && d.receipts[|c.receipts|].body.state == StateName(input.target)
      && (input.target.IsTerminal() ==> d.receipts[|c.receipts|].body.cleanupComplete)
  {
    hide SignedBytes, KindName, StateName;
    var rs := c.receipts;
    var r := RC.Drafted(sha, Stamped(input.draft.value, input.kind, input.target), RC.Reservation(|rs|, RC.Tip(rs)));
    if rs != [] {
      assert RC.FaultAt(sha, rs, |rs| - 1).None?;
    }
    RC.ValidGrows(sha, rs, r);
  }

  lemma LockstepGrows(events: seq<Event>, receipts: seq<RC.SignedReceipt>, e: Event, grown: seq<RC.SignedReceipt>)
    requires Lockstep(events, receipts)
    requires |grown| == |receipts| + 1 && grown[..|receipts|] == receipts
    requires grown[|receipts|].body.index == |events| && grown[|receipts|].body.receiptType == KindName(e.kind)
    requires grown[|receipts|].body.state == StateName(e.state)
    requires e.state.IsTerminal() ==> grown[|receipts|].body.cleanupComplete
    ensures Lockstep(events + [e], grown)
  {
    hide KindName, StateName;
    forall i | 0 <= i < |receipts| ensures grown[i] == receipts[i] {
      assert grown[..|receipts|][i] == grown[i];
    }
  }

  lemma EmitIsSound(sha: Bytes -> Hash, c: Core, input: Input)
    requires Sound(sha, c) && Emit(sha, c, input).Ok?
    ensures Sound(sha, Emit(sha, c, input).value)
  {
    hide AppendReceipt, ExpectedTransition, RC.ChainValid, IsPath, Lockstep;
    var d := Emit(sha, c, input).value;
    var e := d.events[|c.events|];
    PathGrows(c.events, c.gate.state, e);
    ReceiptGrows(sha, c.chain, input);
    LockstepLength(c.events, c.chain.receipts);
    LockstepGrows(c.events, c.chain.receipts, e, d.chain.receipts);
  }

  lemma LockstepLength(events: seq<Event>, receipts: seq<RC.SignedReceipt>)
    requires Lockstep(events, receipts)
    ensures |events| == |receipts|
  {
  }

  /** The chain never refuses an event the core would log. */
  lemma ChainNeverRefuses(sha: Bytes -> Hash, c: Core, input: Input)
    requires Sound(sha, c) && Emit(sha, c, input) == Err(AppendFailed)
    ensures input.draft.None? || (input.target.IsTerminal() && !input.draft.value.cleanupComplete) || |c.events| >= TWO_64
  {
    hide RC.Drafted, Stamped;
  }

  lemma SoundStep(sha: Bytes -> Hash, w: World, step: Step)
    requires Sound(sha, w.core) && Enabled(w, step)
    ensures Sound(sha, Next(sha, w, step).core)
  {
    if step.EmitStep? {
      hide Sound, Log.ApplyAppend, AppendReceipt;
      if Emit(sha, w.core, step.input).Ok? {
        EmitIsSound(sha, w.core, step.input);
      }
    } else {
      hide RC.ChainValid, Log.Apply, IsPath, Lockstep, Log.Numbered, Fetched;
    }
  }

  /** Events and receipts stay in lockstep along a legal path, the chain verifies
      and the terminal channel closes at most once, in every reachable state. */
  lemma {:induction false} EveryRunIsSound(sha: Bytes -> Hash, w: World, steps: seq<Step>)
    requires Sound(sha, w.core)
    ensures Sound(sha, Run(sha, w, steps).core)
    decreases |steps|
  {
    hide Sound, Next, Enabled;
    if steps != [] {
      var w' := if Enabled(w, steps[0]) then Next(sha, w, steps[0]) else w;
      if Enabled(w, steps[0]) {
        SoundStep(sha, w, steps[0]);
      }
      EveryRunIsSound(sha, w', steps[1..]);
    }
  }

  lemma StartIsSound(sha: Bytes -> Hash)
    ensures Sound(sha, START.core)
  {
  }

  lemma TerminalHasNoExit(current: State, kind: Kind, target: State)
    requires ExpectedTransition(current, kind, target)
    ensures !current.IsTerminal()
  {
  }

  /** Only the last event can be terminal. */
  lemma TerminalOnlyLast(events: seq<Event>, state: State, i: nat)
    requires IsPath(events, state) && i + 1 < |events|
    ensures !events[i].state.IsTerminal()
  {
    hide ExpectedTransition;
    TerminalHasNoExit(StateBefore(events, i + 1), events[i + 1].kind, events[i + 1].state);
  }

  // ---- Readers ----

  ghost predicate AllInOrder(w: World) {
    forall r :: r in w.streams ==> InOrder(w.core.events, w.streams[r])
  }

  lemma {:induction false} NothingDropped(events: seq<Event>, k: nat, offset: nat)
    requires Log.Numbered(events) && offset <= k <= |events|
    ensures FromOffset(events[k..], offset) == events[k..]
    decreases |events| - k
  {
    if k < |events| {
      assert events[k..][0] == events[k] && events[k..][1..] == events[k + 1..];
      NothingDropped(events, k + 1, offset);
      assert events[k..] == [events[k]] + events[k + 1..];
    }
  }

  lemma SliceJoin(events: seq<Event>, i: nat, j: nat)
    requires i <= j <= |events|
    ensures events[i..j] + events[j..] == events[i..|events|]
  {
  }

  lemma FetchInOrder(c: Core, s: Stream)
    requires Log.Numbered(c.events) && InOrder(c.events, s)
    ensures InOrder(c.events, Fetched(c, s))
  {
    var t := Fetched(c, s);
    if t != s {
      NothingDropped(c.events, s.offset, s.offset);
      hide FromOffset, Log.Numbered;
      assert t.buffer == c.events[s.offset..] && t == s.(buffer := t.buffer);
      assert s.yielded + [] == s.yielded;
      assert s.yielded == c.events[s.start..s.offset];
      SliceJoin(c.events, s.start, s.offset);
    }
  }

  lemma TakeInOrder(events: seq<Event>, s: Stream)
    requires Log.Numbered(events) && InOrder(events, s) && s.buffer != []
    ensures InOrder(events, Taken(s)) && s.buffer[0].sequence == s.offset < |events| && s.buffer[0] == events[s.offset]
  {
    var all := s.yielded + s.buffer;
    assert s.buffer[0] == all[|s.yielded|] == events[s.start..s.offset + |s.buffer|][|s.yielded|];
    assert Taken(s).yielded + Taken(s).buffer == all;
  }

  lemma GrowthKeepsOrder(events: seq<Event>, grown: seq<Event>, s: Stream)
    requires InOrder(events, s) && events <= grown
    ensures InOrder(grown, s)
  {
    if !(s.yielded == [] && s.buffer == []) {
      assert events[s.start..s.offset + |s.buffer|] == grown[s.start..s.offset + |s.buffer|];
    }
  }

  lemma EventsOnlyGrow(sha: Bytes -> Hash, w: World, step: Step)
    requires Enabled(w, step)
    ensures w.core.events <= Next(sha, w, step).core.events
    ensures !step.EmitStep? ==> w.core.events == Next(sha, w, step).core.events
  {
    hide Log.ApplyAppend, AppendReceipt, Log.Apply, Fetched;
  }

  lemma OrderStep(sha: Bytes -> Hash, w: World, step: Step)
    requires Log.Numbered(w.core.events) && AllInOrder(w) && Enabled(w, step)
    ensures AllInOrder(Next(sha, w, step))
  {
    var w' := Next(sha, w, step);
    EventsOnlyGrow(sha, w, step);
    StreamsTouched(sha, w, step);
    hide Next, Log.Numbered, InOrder, Taken, Fetched;
    forall r | r in w'.streams ensures InOrder(w'.core.events, w'.streams[r]) {
      if r in w.streams {
        GrowthKeepsOrder(w.core.events, w'.core.events, w.streams[r]);
        FetchInOrder(w.core, w.streams[r]);
        if w.streams[r].buffer != [] {
          TakeInOrder(w.core.events, w.streams[r]);
        }
        ClosedInOrder(w.core.events, w.streams[r]);
      } else {
        OpenedInOrder(w'.core.events, w'.streams[r]);
      }
    }
  }

  lemma ClosedInOrder(events: seq<Event>, s: Stream)
    requires InOrder(events, s)
    ensures InOrder(events, s.(closed := true))
  {
  }

  lemma OpenedInOrder(events: seq<Event>, s: Stream)
    requires s == Opened(s.start)
    ensures InOrder(events, s)
  {
  }

  /** What a step does to the streams, stream by stream. */
  lemma StreamsTouched(sha: Bytes -> Hash, w: World, step: Step)
    requires Enabled(w, step)
    ensures
      var w' := Next(sha, w, step);
      forall r :: r in w'.streams ==>
        if r !in w.streams then w'.streams[r] == Opened(w'.streams[r].start)
        else
          || w'.streams[r] == w.streams[r]
          || (w'.core.events == w.core.events &&
              (w'.streams[r] == Fetched(w.core, w.streams[r]) || w'.streams[r] == w.streams[r].(closed := true)
               || (w.streams[r].buffer != [] && w'.streams[r] == Taken(w.streams[r]))))
  {
    hide Log.ApplyAppend, AppendReceipt, Log.Apply, Fetched;
  }

  /** Each stream opened at k returns events k, k+1, k+2, ... of the log. */
  lemma {:induction false} StreamsAreGapless(sha: Bytes -> Hash, w: World, steps: seq<Step>)
    requires Sound(sha, w.core) && AllInOrder(w)
    ensures AllInOrder(Run(sha, w, steps))
    decreases |steps|
  {
    hide Sound, Next, Enabled, AllInOrder;
    if steps != [] {
      var w' := if Enabled(w, steps[0]) then Next(sha, w, steps[0]) else w;
      if Enabled(w, steps[0]) {
        SoundStep(sha, w, steps[0]);
        SoundNumbered(sha, w.core);
        OrderStep(sha, w, steps[0]);
      }
      StreamsAreGapless(sha, w', steps[1..]);
    }
  }

  lemma SoundNumbered(sha: Bytes -> Hash, c: Core)
    requires Sound(sha, c)
    ensures Log.Numbered(c.events)
  {
  }

  /** Spelled out: the n-th event a stream returned is the log's entry start+n. */
  lemma NthYield(events: seq<Event>, s: Stream, n: nat)
    requires Log.Numbered(events) && InOrder(events, s) && n < |s.yielded|
    ensures s.start + n < |events| && s.yielded[n] == events[s.start + n] && s.yielded[n].sequence == s.start + n
  {
    assert s.yielded[n] == (s.yielded + s.buffer)[n] == events[s.start..s.offset + |s.buffer|][n];
  }

  // ---- Output buffering ----

  lemma ProgressGrows(events: seq<Event>, e: Event)
    ensures ProgressSet(events + [e]) == ProgressSet(events) + (if e.kind == Progress then {|events|} else {})
    ensures |ProgressSet(events + [e])| == |ProgressSet(events)| + (if e.kind == Progress then 1 else 0)
  {
    assert |events| !in ProgressSet(events);
    assert ProgressSet(events + [e]) == ProgressSet(events) + (if e.kind == Progress then {|events|} else {});
  }

  lemma EmitKeepsBuffer(sha: Bytes -> Hash, c: Core, input: Input)
    requires BufferExact(c) && !input.restoring && Emit(sha, c, input).Ok?
    ensures BufferExact(Emit(sha, c, input).value)
  {
    hide AppendReceipt, ProgressSet, EmitRefusal;
    ProgressGrows(c.events, RecoveryLogEntry(c, input));
  }

  function RecoveryLogEntry(c: Core, input: Input): Event {
    Log.LoggedEvent(|c.events|, input.kind, input.target, input.body)
  }

  lemma SubsetSize(a: set<nat>, b: set<nat>)
    requires a <= b
    ensures |a| <= |b|
    ensures |a| == |b| ==> a == b
  {
    assert b == a + (b - a);
    assert |b| == |a| + |b - a|;
    if |a| == |b| {
      assert b - a == {};
    }
  }

  lemma AckKeepsBuffer(c: Core, e: Event)
    requires BufferExact(c) && e.sequence < |c.events| && c.events[e.sequence] == e
    ensures BufferExact(Acknowledge(c, e))
  {
    if e.kind == Progress && e.sequence !in c.acked {
      assert e.sequence in ProgressSet(c.events);
      SubsetSize(c.acked + {e.sequence}, ProgressSet(c.events));
    }
  }

  lemma BufferStep(sha: Bytes -> Hash, w: World, step: Step)
    requires Log.Numbered(w.core.events) && AllInOrder(w) && BufferExact(w.core) && Enabled(w, step)
    ensures BufferExact(Next(sha, w, step).core)
  {
    hide Log.ApplyAppend, AppendReceipt, Log.Apply, Fetched, ProgressSet, Emit, Acknowledge;
    match step
    case EmitStep(input, _, _, _) =>
      if Emit(sha, w.core, input).Ok? {
        EmitKeepsBuffer(sha, w.core, input);
      }
    case TakeStep(reader) =>
      TakeInOrder(w.core.events, w.streams[reader]);
      AckKeepsBuffer(w.core, w.streams[reader].buffer[0]);
    case _ =>
  }

  lemma ExactIsSmall(c: Core)
    requires BufferExact(c)
    ensures c.buffered <= 64
  {
  }

  /** outputBuffered is the number of unacknowledged progress events and never
      exceeds the stream capacity, however many readers there are. */
  lemma {:induction false} BufferingIsExact(sha: Bytes -> Hash, w: World, steps: seq<Step>)
    requires Sound(sha, w.core) && AllInOrder(w) && BufferExact(w.core)
    ensures BufferExact(Run(sha, w, steps).core) && Run(sha, w, steps).core.buffered <= 64
    decreases |steps|
  {
    ExactIsSmall(w.core);
    hide Sound, Next, Enabled, AllInOrder, BufferExact;
    if steps != [] {
      var w' := if Enabled(w, steps[0]) then Next(sha, w, steps[0]) else w;
      if Enabled(w, steps[0]) {
        SoundStep(sha, w, steps[0]);
        SoundNumbered(sha, w.core);
        OrderStep(sha, w, steps[0]);
        BufferStep(sha, w, steps[0]);
      }
      BufferingIsExact(sha, w', steps[1..]);
    }
  }

  // ---- Durability ----

  /** The record holds the log up to the first lost write, and exactly that. */
  ghost predicate DurablePrefix(w: World) {
    && w.durable.events <= w.core.events
    && (w.frozen <==> |w.durable.events| < |w.core.events|)
  }

  lemma OtherOpsKeepEvents(s: Log.Snapshot, op: Log.Op, now: int)
    requires !op.Append? && Log.Apply(s, op, now).Ok?
    ensures Log.Apply(s, op, now).value.events == s.events
  {
  }

  lemma AppendStores(w: World, e: Event, writer: Option<Log.RuntimeId>, now: int, writeOk: bool)
    requires DurablePrefix(w) && e.sequence == |w.core.events|
    requires Stored(w.durable, writer, e, now, writeOk).Some?
    ensures !w.frozen && Stored(w.durable, writer, e, now, writeOk).value.events == w.core.events + [e]
  {
  }

  lemma DurableStep(sha: Bytes -> Hash, w: World, step: Step)
    requires DurablePrefix(w) && Enabled(w, step)
    ensures DurablePrefix(Next(sha, w, step))
    ensures w.frozen ==> Next(sha, w, step).durable.events == w.durable.events
    ensures w.frozen ==> Next(sha, w, step).frozen
  {
    hide AppendReceipt, Log.Apply, Fetched, Stored, EmitRefusal;
    match step
    case EmitStep(input, writer, now, writeOk) =>
      var r := Emit(sha, w.core, input);
      if r.Ok? {
        var e := RecoveryLogEntry(w.core, input);
        assert r.value.events == w.core.events + [e];
        if Stored(w.durable, writer, e, now, writeOk).Some? {
          AppendStores(w, e, writer, now, writeOk);
        }
      }
    case LogStep(op, now) =>
      if Log.Apply(w.durable, op, now).Ok? {
        OtherOpsKeepEvents(w.durable, op, now);
      }
    case _ =>
  }

  /** With one core writing, the durable events are a prefix of the log; after
      the first lost write nothing more is ever stored. */
  lemma {:induction false} DurableIsPrefix(sha: Bytes -> Hash, w: World, steps: seq<Step>)
    requires DurablePrefix(w)
    ensures DurablePrefix(Run(sha, w, steps))
    ensures w.frozen ==> Run(sha, w, steps).durable.events == w.durable.events
    decreases |steps|
  {
    hide Next, Enabled, DurablePrefix;
    if steps != [] {
      var w' := if Enabled(w, steps[0]) then Next(sha, w, steps[0]) else w;
      if Enabled(w, steps[0]) {
        DurableStep(sha, w, steps[0]);
      }
      DurableIsPrefix(sha, w', steps[1..]);
    }
  }

  /** All of it, from a new invocation with an empty record. */
  lemma FreshRun(sha: Bytes -> Hash, steps: seq<Step>)
    ensures
      var w := Run(sha, START, steps);
      && Sound(sha, w.core) && AllInOrder(w) && BufferExact(w.core) && DurablePrefix(w)
      && Log.Numbered(w.durable.events)
  {
    StartIsSound(sha);
    assert ProgressSet([]) == {};
    EveryRunIsSound(sha, START, steps);
    StreamsAreGapless(sha, START, steps);
    BufferingIsExact(sha, START, steps);
    DurableIsPrefix(sha, START, steps);
  }

  // ---- Recovered cores ----

  /** restoreEvent re-emits a logged event with the restoring flag. */
  function Replay(e: Event, draft: Option<ReceiptBody>): Input {
    Input(e.kind, e.state, e.body, draft, true)
  }

  /** The replay loop of a recovery; None when some event is refused. */
  function Restored(sha: Bytes -> Hash, c: Core, logged: seq<Event>, drafts: seq<Option<ReceiptBody>>): Option<Core>
    requires |drafts| == |logged|
    decreases |logged|
  {
    if logged == [] then Some(c)
    else
      var n := |logged| - 1;
      match Restored(sha, c, logged[..n], drafts[..n])
      case None => None
      case Some(d) =>
        match Emit(sha, d, Replay(logged[n], drafts[n]))
        case Ok(core) => Some(core)
        case Err(_) => None
  }

  lemma RestoredSnoc(sha: Bytes -> Hash, c: Core, logged: seq<Event>, drafts: seq<Option<ReceiptBody>>, i: nat)
    requires |drafts| == |logged| && i < |logged|
    ensures Restored(sha, c, logged[..i + 1], drafts[..i + 1]) ==
      match Restored(sha, c, logged[..i], drafts[..i])
      case None => None
      case Some(d) =>
        match Emit(sha, d, Replay(logged[i], drafts[i]))
        case Ok(core) => Some(core)
        case Err(_) => None
  {
    hide Emit;
    assert logged[..i + 1][..i] == logged[..i] && drafts[..i + 1][..i] == drafts[..i];
  }

  lemma {:induction false} RestoredStuck(sha: Bytes -> Hash, c: Core, logged: seq<Event>, drafts: seq<Option<ReceiptBody>>, i: nat)
    requires |drafts| == |logged| && i <= |logged| && Restored(sha, c, logged[..i], drafts[..i]).None?
    ensures Restored(sha, c, logged, drafts).None?
    decreases |logged| - i
  {
    hide Emit;
    if i < |logged| {
      RestoredSnoc(sha, c, logged, drafts, i);
      RestoredStuck(sha, c, logged, drafts, i + 1);
    } else {
      assert logged[..i] == logged && drafts[..i] == drafts;
    }
  }

  /** A recovered core is as sound as a new one and continues the durable log
      where it stopped. */
  lemma {:induction false} RestoredIsSound(sha: Bytes -> Hash, logged: seq<Event>, drafts: seq<Option<ReceiptBody>>)
    requires |drafts| == |logged| && Log.Numbered(logged) && Restored(sha, NEW_CORE, logged, drafts).Some?
    ensures
      var c := Restored(sha, NEW_CORE, logged, drafts).value;
      Sound(sha, c) && c.events == logged && c.buffered == 0 && c.acked == {} && c.gate.claim == NoOwner
    decreases |logged|
  {
    hide Sound, AppendReceipt, EmitRefusal;
    if logged == [] {
      StartIsSound(sha);
    } else {
      var n := |logged| - 1;
      RestoredIsSound(sha, logged[..n], drafts[..n]);
      var d := Restored(sha, NEW_CORE, logged[..n], drafts[..n]).value;
      EmitIsSound(sha, d, Replay(logged[n], drafts[n]));
      assert logged == logged[..n] + [logged[n]];
    }
  }

  /** Restored progress events are not counted as buffered, so the count starts
      out exact only for a snapshot without any. */
  lemma RestoredBufferExact(sha: Bytes -> Hash, logged: seq<Event>, drafts: seq<Option<ReceiptBody>>)
    requires |drafts| == |logged| && Log.Numbered(logged) && Restored(sha, NEW_CORE, logged, drafts).Some?
    ensures BufferExact(Restored(sha, NEW_CORE, logged, drafts).value) <==> ProgressSet(logged) == {}
  {
    RestoredIsSound(sha, logged, drafts);
    hide Sound, Restored;
  }
}
