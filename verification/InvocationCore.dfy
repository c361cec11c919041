/** InvocationCore and EventStream of axon/invocation/handle.go as objects, each
    method proved against its step in EventCore. A method runs while the core's
    mutex is held; where the source would wait for a change, it returns instead. */
module InvocationObjects {
  import opened Wrappers
  import opened ByteStrings
  import opened Canonical
  import opened Lifecycle
  import opened EventCore
  import opened EventRuns
  import RC = ReceiptChain
  import Log = RecoveryLog

  class InvocationCore {
    var state: State
    var events: seq<Event>
    var finalizationErr: bool
    var terminalClaim: Owner
    var outputBuffered: nat
    var acknowledgedProgress: set<nat>
    var chain: RC.Chain
    var closes: nat

    ghost function View(): Core
      reads this
    {
      Core(Gate(state, terminalClaim, finalizationErr), events, chain, outputBuffered, acknowledgedProgress, closes)
    }

    constructor ()
      ensures View() == NEW_CORE
    {
      state, terminalClaim, finalizationErr := Unspecified, NoOwner, false;
      events, chain, outputBuffered, acknowledgedProgress, closes := [], RC.EMPTY, 0, {}, 0;
    }

    /** True for exactly one caller, and never after a terminal state. */
    method ClaimTerminal(owner: Owner) returns (won: bool)
      modifies this
      ensures won <==> !old(state).IsTerminal() && old(terminalClaim) == NoOwner
      ensures View() == old(View()).(gate := Gate(old(state), if won then owner else old(terminalClaim), old(finalizationErr)))
      ensures View() == EventCore.ClaimTerminal(old(View()), owner)
    {
      if state.IsTerminal() || terminalClaim != NoOwner {
        return false;
      }
      terminalClaim := owner;
      return true;
    }

    method FailFinalization()
      modifies this
      ensures View() == EventCore.FailFinalization(old(View()))
      ensures finalizationErr <==> old(finalizationErr) || !old(state).IsTerminal()
      ensures closes == old(closes) + (if finalizationErr && !old(finalizationErr) then 1 else 0)
    {
      if state.IsTerminal() || finalizationErr {
        return;
      }
      finalizationErr := true;
      closes := closes + 1;
    }

    method EmitContext(sha: Bytes -> Hash, input: Input) returns (r: Result<Event, EmitError>)
      modifies this
      ensures match Emit(sha, old(View()), input)
              case Err(e) => r == Err(e) && View() == old(View())
              case Ok(core) => View() == core && r == Ok(core.events[|core.events| - 1])
    {
      hide RC.Drafted, KindName, StateName, ExpectedTransition;
      if state.IsTerminal() {
        return Err(Refused(TerminalReached));
      }
      if finalizationErr {
        return Err(Refused(FinalizationFailed));
      }
      if !ExpectedTransition(state, input.kind, input.target) {
        return Err(Refused(InvalidTransition));
      }
      if !input.restoring && terminalClaim != NoOwner && input.kind != ChildTerminal && !input.target.IsTerminal() {
        return Err(Refused(TerminalPending));
      }
      if input.target.IsTerminal() && !input.restoring && terminalClaim == NoOwner {
        return Err(Refused(NoTerminalOwner));
      }
      if !input.restoring && input.kind == Progress && outputBuffered >= STREAM_CAPACITY {
        return Err(Backpressure);
      }
      var appended := AppendReceipt(sha, chain, input);
      if appended.None? {
        return Err(AppendFailed);
      }
      var event := Log.LoggedEvent(|events|, input.kind, input.target, input.body);
      events := events + [event];
      chain := appended.value;
      state := input.target;
      if input.kind == Progress && !input.restoring {
        outputBuffered := outputBuffered + 1;
      }
      if input.target.IsTerminal() {
        closes := closes + 1;
      }
      return Ok(event);
    }

    method Acknowledge(event: Event)
      modifies this
      ensures View() == EventCore.Acknowledge(old(View()), event)
      ensures acknowledgedProgress == old(acknowledgedProgress) + (if event.kind == Progress then {event.sequence} else {})
      ensures outputBuffered == old(outputBuffered)
        - (if acknowledgedProgress != old(acknowledgedProgress) && old(outputBuffered) > 0 then 1 else 0)
    {
      if event.kind != Progress || event.sequence in acknowledgedProgress {
        return;
      }
      acknowledgedProgress := acknowledgedProgress + {event.sequence};
      if outputBuffered > 0 {
        outputBuffered := outputBuffered - 1;
      }
    }

    /** A batch is everything logged from the offset on, so on a numbered log its
        k-th event has sequence from + k and nothing is skipped. An empty batch
        means the core has ended with nothing left to read, None that it may still
        log an event at the offset. */
    method FetchEvents(from: nat) returns (batch: Option<seq<Event>>)
      ensures batch.Some? && batch.value != [] ==> from + |batch.value| == |events|
      ensures batch.Some? ==> forall k :: 0 <= k < |batch.value| ==> batch.value[k] == events[from + k]
      ensures batch.Some? && Log.Numbered(events) ==>
        forall k :: 0 <= k < |batch.value| ==> batch.value[k].sequence == from + k
      ensures batch == Some([]) ==> |events| <= from && (state.IsTerminal() || finalizationErr)
      ensures batch.None? ==> |events| <= from && !state.IsTerminal() && !finalizationErr
    {
      if |events| > from {
        return Some(events[from..]);
      }
      if state.IsTerminal() || finalizationErr {
        return Some([]);
      }
      return None;
    }

    /** Replays a recovery snapshot's events into a new core. */
    method RestoreEvents(sha: Bytes -> Hash, logged: seq<Event>, drafts: seq<Option<ReceiptBody>>) returns (ok: bool)
      requires |drafts| == |logged| && View() == NEW_CORE
      modifies this
      ensures ok == Restored(sha, NEW_CORE, logged, drafts).Some?
      ensures ok ==> View() == Restored(sha, NEW_CORE, logged, drafts).value
    {
      hide Emit;
      for i := 0 to |logged|
        invariant Restored(sha, NEW_CORE, logged[..i], drafts[..i]) == Some(View())
      {
        RestoredSnoc(sha, NEW_CORE, logged, drafts, i);
        var r := EmitContext(sha, Replay(logged[i], drafts[i]));
        if r.Err? {
          RestoredStuck(sha, NEW_CORE, logged, drafts, i + 1);
          return false;
        }
      }
      assert logged[..|logged|] == logged && drafts[..|logged|] == drafts;
      return true;
    }
  }

  class EventStream {
    const core: InvocationCore
    var offset: nat
    var buffer: seq<Event>
    var closed: bool
    ghost const start: nat
    ghost var yielded: seq<Event>

    ghost function View(): Stream
      reads this
    {
      Stream(start, offset, buffer, closed, yielded)
    }

    constructor (core: InvocationCore, from: nat)
      ensures this.core == core && View() == Opened(from)
    {
      this.core := core;
      start, offset, buffer, closed, yielded := from, from, [], false, [];
    }

    method Close()
      modifies this
      ensures View() == old(View()).(closed := true)
    {
      closed := true;
    }

    /** The part of a batch this stream has not returned yet. */
    static method Unseen(batch: seq<Event>, offset: nat) returns (kept: seq<Event>)
      ensures kept == FromOffset(batch, offset)
    {
      kept := [];
      for i := 0 to |batch|
        invariant kept + FromOffset(batch[i..], offset) == FromOffset(batch, offset)
      {
        assert batch[i..][1..] == batch[i + 1..];
        if batch[i].sequence >= offset {
          kept := kept + [batch[i]];
        }
      }
      assert batch[|batch|..] == [];
    }

    method Refill()
      requires !closed
      modifies this
      ensures View() == Fetched(core.View(), old(View()))
      ensures core.View() == old(core.View())
    {
      hide FromOffset;
      if |buffer| == 0 {
        var fetched := core.FetchEvents(offset);
        if fetched.Some? && |fetched.value| > 0 {
          assert fetched.value == core.events[offset..];
          buffer := Unseen(fetched.value, offset);
        }
      }
    }

    /** Refill if empty, then hand out and acknowledge one event. */
    method Next() returns (e: Option<Event>)
      modifies this, core
      ensures
        var refilled := Fetched(old(core.View()), old(View()));
        if old(closed) || refilled.buffer == [] then
          e == None && View() == refilled && core.View() == old(core.View())
        else
          && e == Some(refilled.buffer[0]) && View() == Taken(refilled)
          && core.View() == EventCore.Acknowledge(old(core.View()), refilled.buffer[0])
    {
      if closed {
        return None;
      }
      Refill();
      hide Fetched;
      if |buffer| == 0 {
        return None;
      }
      var event := buffer[0];
      buffer := buffer[1..];
      offset := event.sequence + 1;
      yielded := yielded + [event];
      core.Acknowledge(event);
      return Some(event);
    }
  }
}
