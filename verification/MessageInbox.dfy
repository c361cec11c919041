/** The inbox and its gate as the objects of axon/invocation/messaging.go and
    axon/invocation/inbox_input.go, each method proved against Inbox. */
module InboxObjects {
  import opened Wrappers
  import opened Inbox

  class InboxInput {
    var phase: GatePhase
    var publishing: int
    var closes: nat

    ghost function View(): Gate
      reads this
    {
      Gate(phase, publishing, closes)
    }

    constructor ()
      ensures View() == OPEN_GATE
    {
      phase, publishing, closes := Open, 0, 0;
    }

    method Begin() returns (ok: bool)
      modifies this
      ensures ok == Inbox.Begin(old(View())).Some?
      ensures View() == if ok then Inbox.Begin(old(View())).value else old(View())
    {
      if phase != Open {
        return false;
      }
      publishing := publishing + 1;
      return true;
    }

    method Finish()
      modifies this
      ensures View() == Inbox.Finish(old(View()))
    {
      publishing := publishing - 1;
      FinishClose();
    }

    method Close()
      modifies this
      ensures View() == Inbox.Close(old(View()))
    {
      if phase != Open {
        return;
      }
      phase := Closing;
      FinishClose();
    }

    method FinishClose()
      modifies this
      ensures View() == Inbox.FinishClose(old(View()))
    {
      if phase == Closing && publishing == 0 {
        phase := Closed;
        closes := closes + 1;
      }
    }
  }

  datatype RecvResult = Received(message: Message) | EndOfInputSeen | GaveUp | StillWaiting

  datatype DeliverResult =
    | Ack(id: MessageId, sequence: nat, deduplicated: bool, depth: nat)
    | InputClosed
    | Full

  class MessageInbox {
    const input: InboxInput
    const capacity: nat
    const window: int
    var seen: map<MessageId, Entry>
    var nextSequence: nat
    var queue: seq<Message>

    constructor (capacity: nat, window: int)
      ensures fresh(input) && this.capacity == capacity && this.window == window
      ensures seen == map[] && nextSequence == 0 && queue == [] && input.View() == OPEN_GATE
    {
      this.capacity, this.window := capacity, window;
      seen, nextSequence, queue := map[], 0, [];
      input := new InboxInput();
    }

    /** Drops the dedup entries that are older than the window. */
    method Sweep(now: int)
      modifies this`seen
      ensures seen == Swept(old(seen), now, window)
    {
      ghost var all := seen;
      var todo := seen.Keys;
      while todo != {}
        invariant todo <= all.Keys
        invariant seen == map id | id in all && (id in todo || now - all[id].at <= window) :: all[id]
        decreases |todo|
      {
        var id :| id in todo;
        if now - seen[id].at > window {
          seen := seen - {id};
        }
        todo := todo - {id};
      }
    }

    /** One uninterrupted delivery. The answer and the new state are those of the
        protocol steps Enter, then Overflow or Accept and Send, then Leave. */
    method Deliver(draft: Draft) returns (r: DeliverResult)
      modifies this, input
      ensures
        var swept := Swept(old(seen), draft.at, window);
        if draft.supplied && draft.id in swept then
          && r == Ack(draft.id, swept[draft.id].sequence, true, |old(queue)|)
          && seen == swept && nextSequence == old(nextSequence) && queue == old(queue)
          && input.View() == old(input.View())
        else if old(input.phase) != Open then
          && r == InputClosed
          && seen == swept && nextSequence == old(nextSequence) && queue == old(queue)
          && input.View() == old(input.View())
        else if |old(queue)| >= capacity then
          && r == Full
          && seen == swept && nextSequence == old(nextSequence) && queue == old(queue)
          && input.View() == old(input.View())
        else
          && r == Ack(draft.id, old(nextSequence), false, |old(queue)| + 1)
          && seen == swept[draft.id := Entry(old(nextSequence), draft.at)]
          && nextSequence == old(nextSequence) + 1
          && queue == old(queue) + [Message(draft.id, old(nextSequence), draft.at, draft.supplied, draft.payload)]
          && input.View() == old(input.View())
    {
      hide Swept;
      Sweep(draft.at);
      if draft.supplied && draft.id in seen {
        return Ack(draft.id, seen[draft.id].sequence, true, |queue|);
      }
      var admitted := input.Begin();
      if !admitted {
        return InputClosed;
      }
      if |queue| >= capacity {
        input.Finish();
        return Full;
      }
      var sequence := nextSequence;
      nextSequence := nextSequence + 1;
      seen := seen[draft.id := Entry(sequence, draft.at)];
      queue := queue + [Message(draft.id, sequence, draft.at, draft.supplied, draft.payload)];
      var depth := |queue|;
      input.Finish();
      return Ack(draft.id, sequence, false, depth);
    }

    /** One look at the channels. `expired` says that the timer or the context fired,
        which the select may prefer to a message; StillWaiting is where it blocks. */
    method Recv(expired: bool) returns (r: RecvResult)
      modifies this`queue
      ensures r.Received? <==> !expired && old(queue) != []
      ensures r.Received? ==> [r.message] + queue == old(queue)
      ensures !r.Received? ==> queue == old(queue)
      ensures r.EndOfInputSeen? ==> input.phase == Closed && queue == []
      ensures r.GaveUp? <==> expired
      ensures r.StillWaiting? ==> input.phase != Closed && queue == []
    {
      if expired {
        return GaveUp;
      }
      if |queue| > 0 {
        r := Received(queue[0]);
        queue := queue[1..];
      } else if input.phase == Closed {
        r := EndOfInputSeen;
      } else {
        r := StillWaiting;
      }
    }
  }
}
