/** The shape of an event log and the words its receipts carry
    (axon/invocation/handle.go), position by position. */
module EventNames {
  import opened Wrappers
  import opened ByteStrings
  import opened Canonical
  import opened Lifecycle
  import opened EventCore
  import opened EventRuns
  import ReceiptChain
  import RecoveryLog

  // ---- The grammar of a log ----

  predicate Starts(e: Event, i: nat) {
    match i
    case 0 => e.kind == AcceptedEvent && e.state == Accepted
    case 1 => e.kind == AdmittedEvent && e.state == Admitted
    case 2 => e.kind == DispatchedEvent && e.state == Dispatched
    case 3 => e.kind == RunningEvent && e.state == Running
    case _ =>
      e.kind in {Progress, MessageReceived, MessageConsumed, ChildSpawned, ChildTerminal} && e.state == Running
  }

  predicate Concludes(e: Event) {
    || (e.kind == CompletedEvent && e.state == Completed) || (e.kind == FailedEvent && e.state == Failed)
    || (e.kind == TimedOutEvent && e.state == TimedOut) || (e.kind == CancelledEvent && e.state == Cancelled)
  }

  /** accepted, admitted, dispatched, running, then work; a terminal event may cut
      this short anywhere after the first, and nothing follows it. */
  ghost predicate LegalLog(events: seq<Event>) {
    forall i :: 0 <= i < |events| ==> Starts(events[i], i) || (i > 0 && i == |events| - 1 && Concludes(events[i]))
  }

  /** The state after i events of a log that has not ended. */
  function Reached(i: nat): State {
    match i
    case 0 => Unspecified
    case 1 => Accepted
    case 2 => Admitted
    case 3 => Dispatched
    case _ => Running
  }

  lemma OneStep(before: State, e: Event, i: nat)
    requires before == Reached(i)
    ensures ExpectedTransition(before, e.kind, e.state) <==> Starts(e, i) || (i > 0 && Concludes(e))
    ensures Starts(e, i) ==> e.state == Reached(i + 1)
    ensures Concludes(e) ==> e.state.IsTerminal()
  {
  }

  lemma Over(before: State, e: Event)
    requires before.IsTerminal()
    ensures !ExpectedTransition(before, e.kind, e.state)
  {
  }

  lemma {:induction false} LegalBefore(events: seq<Event>, i: nat)
    requires LegalLog(events) && i <= |events| && (i == |events| ==> i == 0 || !Concludes(events[i - 1]))
    ensures StateBefore(events, i) == Reached(i)
  {
    if i > 0 {
      LegalBefore(events, i - 1);
      OneStep(StateBefore(events, i - 1), events[i - 1], i - 1);
    }
  }

  lemma LegalIsPath(events: seq<Event>)
    requires LegalLog(events)
    ensures IsPath(events, StateBefore(events, |events|))
  {
    forall i | 0 <= i < |events| ensures ExpectedTransition(StateBefore(events, i), events[i].kind, events[i].state) {
      LegalBefore(events, i);
      OneStep(StateBefore(events, i), events[i], i);
    }
  }

  lemma {:induction false} PathStarts(events: seq<Event>, state: State, i: nat)
    requires IsPath(events, state) && i < |events|
    ensures StateBefore(events, i) == Reached(i)
  {
    if i > 0 {
      PathStarts(events, state, i - 1);
      OneStep(StateBefore(events, i - 1), events[i - 1], i - 1);
      assert ExpectedTransition(StateBefore(events, i), events[i].kind, events[i].state);
      if events[i - 1].state.IsTerminal() {
        Over(events[i - 1].state, events[i]);
      }
    }
  }

  /** A log is a path of the transition table if and only if it is legal. */
  lemma PathExactly(events: seq<Event>, state: State)
    ensures IsPath(events, state) <==> LegalLog(events) && state == StateBefore(events, |events|)
  {
    if LegalLog(events) {
      LegalIsPath(events);
    }
    if IsPath(events, state) {
      forall i | 0 <= i < |events| ensures Starts(events[i], i) || (i > 0 && i == |events| - 1 && Concludes(events[i])) {
        PathStarts(events, state, i);
        OneStep(StateBefore(events, i), events[i], i);
        if i + 1 < |events| && Concludes(events[i]) {
          assert ExpectedTransition(StateBefore(events, i + 1), events[i + 1].kind, events[i + 1].state);
          Over(events[i].state, events[i + 1]);
        }
      }
    }
  }

  // ---- Words ----

  lemma AsciiSpells(s: string)
    requires forall i :: 0 <= i < |s| ==> s[i] as int < 256
    ensures Spells(Ascii(s), s)
  {
  }

  function StateWord(state: State): string {
    match state
    case Unspecified => "UNSPECIFIED"
    case Accepted => "ACCEPTED"
    case Admitted => "ADMITTED"
    case Dispatched => "DISPATCHED"
    case Running => "RUNNING"
    case Completed => "COMPLETED"
    case Failed => "FAILED"
    case TimedOut => "TIMED_OUT"
    case Cancelled => "CANCELLED"
  }

  function KindWord(kind: Kind): string {
    match kind
    case AcceptedEvent => "accepted"
    case AdmittedEvent => "admitted"
    case DispatchedEvent => "dispatched"
    case RunningEvent => "running"
    case Progress => "progress"
    case MessageReceived => "message_received"
    case MessageConsumed => "message_consumed"
    case ChildSpawned => "child_spawned"
    case ChildTerminal => "child_terminal"
    case CompletedEvent => "completed"
    case FailedEvent => "failed"
    case TimedOutEvent => "timed_out"
    case CancelledEvent => "cancelled"
    case UnknownEvent => "unknown"
  }

  lemma StateWords(state: State)
    ensures Spells(StateName(state), StateWord(state))
  {
    hide Spells, Ascii;
    AsciiSpells(StateWord(state));
  }

  lemma KindWords(kind: Kind)
    ensures Spells(KindName(kind), KindWord(kind))
  {
    hide Spells, Ascii;
    AsciiSpells(KindWord(kind));
  }

  /** In a sound core the log is legal, and receipt i says in words what event i is. */
  lemma ReceiptsSpellEvents(sha: Bytes -> Hash, c: Core, i: nat)
    requires Sound(sha, c) && i < |c.events|
    ensures |c.chain.receipts| == |c.events| && LegalLog(c.events)
    ensures Spells(c.chain.receipts[i].body.receiptType, KindWord(c.events[i].kind))
    ensures Spells(c.chain.receipts[i].body.state, StateWord(c.events[i].state))
  {
    PathExactly(c.events, c.gate.state);
    StateWords(c.events[i].state);
    KindWords(c.events[i].kind);
    hide StateName, KindName, KindWord, StateWord, Spells, ChainSound, ClosedOnce, IsPath, LegalLog;
  }

  /** What emitting adds to the chain: the provider's draft, stamped with kind and
      state, numbered and linked, and nothing else changed; a terminal one only after
      complete cleanup. */
  lemma EmitAppendsDraft(sha: Bytes -> Hash, c: Core, input: Input)
    requires Emit(sha, c, input).Ok? && |c.chain.receipts| < TWO_64
    ensures input.draft.Some? && (input.target.IsTerminal() ==> input.draft.value.cleanupComplete)
    ensures
      var d := Emit(sha, c, input).value;
      var n, draft := |c.chain.receipts|, input.draft.value;
      && |d.chain.receipts| == n + 1 && d.chain.receipts[..n] == c.chain.receipts
      && d.chain.receipts[n].body == draft.(
           index := n, prevHash := ReceiptChain.Tip(c.chain.receipts),
           receiptType := KindName(input.kind), state := StateName(input.target))
      && d.events == c.events + [RecoveryLog.LoggedEvent(|c.events|, input.kind, input.target, input.body)]
  {
    hide KindName, StateName, SignedBytes;
  }

  /** When a live event is logged. */
  lemma EmitsExactly(sha: Bytes -> Hash, c: Core, input: Input)
    requires !input.restoring
    ensures Emit(sha, c, input).Ok? <==>
      && Admits(c.gate, input.kind, input.target) && !(input.kind == Progress && c.buffered >= 64)
      && !c.chain.terminal && |c.chain.receipts| < TWO_64
      && input.draft.Some? && (input.target.IsTerminal() ==> input.draft.value.cleanupComplete)
    ensures Emit(sha, c, input) == Err(Backpressure) <==>
      Admits(c.gate, input.kind, input.target) && input.kind == Progress && c.buffered >= 64
  {
    hide KindName, StateName, ExpectedTransition;
  }

  // ---- Which records can be restored ----

  /** A draft for the event that the chain accepts. */
  predicate DraftFor(e: Event, draft: Option<ReceiptBody>) {
    draft.Some? && (e.state.IsTerminal() ==> draft.value.cleanupComplete)
  }

  lemma ReplayExactly(sha: Bytes -> Hash, c: Core, e: Event, draft: Option<ReceiptBody>)
    requires Sound(sha, c) && !c.gate.finErr && |c.events| < TWO_64
    ensures Emit(sha, c, Replay(e, draft)).Ok? <==> ExpectedTransition(c.gate.state, e.kind, e.state) && DraftFor(e, draft)
    ensures Emit(sha, c, Replay(e, draft)).Ok? ==> !Emit(sha, c, Replay(e, draft)).value.gate.finErr
  {
    if c.gate.state.IsTerminal() {
      Over(c.gate.state, e);
    }
    hide KindName, StateName, ExpectedTransition, ReceiptChain.ChainValid, IsPath;
  }

  lemma PathSnoc(events: seq<Event>, e: Event, state: State)
    requires IsPath(events, state)
    ensures IsPath(events + [e], e.state) <==> ExpectedTransition(state, e.kind, e.state)
  {
    hide ExpectedTransition;
    var grown := events + [e];
    assert grown[|events|] == e && StateBefore(grown, |events|) == state;
    forall i | 0 <= i < |events| ensures grown[i] == events[i] && StateBefore(grown, i) == StateBefore(events, i) {
    }
  }

  lemma LegalPrefix(events: seq<Event>, e: Event)
    requires LegalLog(events + [e])
    ensures LegalLog(events)
  {
    var grown := events + [e];
    forall i | 0 <= i < |events| ensures Starts(events[i], i) {
      assert grown[i] == events[i];
    }
  }

  lemma LegalSnoc(events: seq<Event>, e: Event, state: State)
    requires IsPath(events, state)
    ensures LegalLog(events + [e]) <==> ExpectedTransition(state, e.kind, e.state)
  {
    PathSnoc(events, e, state);
    PathExactly(events + [e], e.state);
    hide IsPath, LegalLog, ExpectedTransition;
    assert StateBefore(events + [e], |events| + 1) == e.state;
  }

  ghost predicate DraftsFor(logged: seq<Event>, drafts: seq<Option<ReceiptBody>>)
    requires |drafts| == |logged|
  {
    forall i :: 0 <= i < |logged| ==> DraftFor(logged[i], drafts[i])
  }

  lemma DraftsSnoc(logged: seq<Event>, drafts: seq<Option<ReceiptBody>>, e: Event, draft: Option<ReceiptBody>)
    requires |drafts| == |logged|
    ensures DraftsFor(logged + [e], drafts + [draft]) <==> DraftsFor(logged, drafts) && DraftFor(e, draft)
  {
    hide DraftFor;
    var xs, ys, n := logged + [e], drafts + [draft], |logged|;
    assert xs[n] == e && ys[n] == draft;
    assert forall i :: 0 <= i < n ==> xs[i] == logged[i] && ys[i] == drafts[i];
  }

  /** A numbered record is restored if and only if it is a legal log and the provider
      has a draft for each of its events. */
  lemma {:induction false} RestoresExactly(sha: Bytes -> Hash, logged: seq<Event>, drafts: seq<Option<ReceiptBody>>)
    requires |drafts| == |logged| < TWO_64 && RecoveryLog.Numbered(logged)
    ensures Restored(sha, NEW_CORE, logged, drafts).Some? <==> LegalLog(logged) && DraftsFor(logged, drafts)
    ensures Restored(sha, NEW_CORE, logged, drafts).Some? ==> !Restored(sha, NEW_CORE, logged, drafts).value.gate.finErr
    decreases |logged|
  {
    if logged != [] {
      var n := |logged| - 1;
      var before, e, draft := logged[..n], logged[n], drafts[n];
      assert logged == before + [e] && drafts == drafts[..n] + [draft];
      hide Emit, Sound, DraftFor, DraftsFor, LegalLog;
      RestoresExactly(sha, before, drafts[..n]);
      DraftsSnoc(before, drafts[..n], e, draft);
      if LegalLog(logged) {
        LegalPrefix(before, e);
      }
      if Restored(sha, NEW_CORE, before, drafts[..n]).Some? {
        RestoredIsSound(sha, before, drafts[..n]);
        var c := Restored(sha, NEW_CORE, before, drafts[..n]).value;
        ReplayExactly(sha, c, e, draft);
        SoundPath(sha, c);
        LegalSnoc(before, e, c.gate.state);
      }
    }
  }

  lemma SoundPath(sha: Bytes -> Hash, c: Core)
    requires Sound(sha, c)
    ensures IsPath(c.events, c.gate.state)
  {
  }
}
