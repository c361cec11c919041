/** BidiSession of axon/bidi_session.go as an object. Each method is a whole call,
    the transport's answer an argument, and is proved to be its two protocol
    steps taken one after the other. */
module BidiObjects {
  import opened Wrappers
  import opened Bidi
  import opened BidiRuns

  function Idle(s: Session): World {
    World(s, NoSender, false, false, [], [], [])
  }

  /** The session after the first and, if it got that far, the second step. */
  function Call(s: Session, first: Step, second: Step): Session {
    var w := if Enabled(Idle(s), first) then Next(Idle(s), first) else Idle(s);
    if Enabled(w, second) then Next(w, second).s else w.s
  }

  class BidiSession {
    const maxBuffered: nat
    var state: State
    var lastSendSeq: nat
    var lastRecvSeq: nat
    var sentFrames: seq<Frame>
    var receivedFrames: seq<Frame>
    var terminalFrame: Option<Frame>
    var remoteDone: bool

    ghost function View(): Session
      reads this
    {
      Session(maxBuffered, state, lastSendSeq, lastRecvSeq, sentFrames, receivedFrames, terminalFrame, remoteDone)
    }

    constructor (initial: State, limit: nat)
      requires initial == Opening || initial == Open
      ensures View() == Start(limit, initial).s
    {
      maxBuffered, state, lastSendSeq, lastRecvSeq := limit, initial, 0, 0;
      sentFrames, receivedFrames, terminalFrame, remoteDone := [], [], None, false;
    }

    method Fail()
      modifies this`state
      ensures View() == Fired(old(View()), TransportFail)
    {
      var next := NextState(state, TransportFail);
      if next.Some? {
        state := next.value;
      }
    }

    method Send(frame: Frame, transportOk: bool) returns (ok: bool)
      modifies this
      ensures View() == Call(old(View()), SendStart(frame), SendEnd(transportOk))
      ensures ok <==>
        (old(state) == Open || old(state) == HalfClosedRemote) && Ordered(frame, old(lastSendSeq)) && transportOk
      ensures ok ==> lastSendSeq == frame.sequence && state == old(state)
    {
      if state != Open && state != HalfClosedRemote {
        return false;
      }
      if !Ordered(frame, lastSendSeq) {
        state := Failed;
        return false;
      }
      if !transportOk {
        Fail();
        return false;
      }
      lastSendSeq := frame.sequence;
      sentFrames := AppendBounded(sentFrames, frame, maxBuffered);
      return true;
    }

    /** The in-place shift of appendBoundedBidiFrame. */
    static method AppendBounded(frames: seq<Frame>, frame: Frame, limit: nat) returns (r: seq<Frame>)
      ensures r == Bounded(frames, frame, limit)
    {
      if limit <= 0 {
        return frames;
      }
      r := frames;
      if |frames| == limit {
        for i := 0 to |frames| - 1
          invariant |r| == |frames|
          invariant forall k :: 0 <= k < i ==> r[k] == frames[k + 1]
          invariant forall k :: i <= k < |frames| ==> r[k] == frames[k]
        {
          r := r[i := frames[i + 1]];
        }
        r := r[|frames| - 1 := frame];
        return r;
      }
      return frames + [frame];
    }

    /** `got` is None when the transport fails. */
    method Receive(got: Option<Frame>) returns (r: Option<Outcome>)
      modifies this
      ensures View() == Call(old(View()), ReceiveStart, ReceiveEnd(got))
      ensures r == if !ReceivePathOpen(old(View())) || got.None? then None
                   else Some(ReceiveOutcome(old(View()), got.value))
    {
      hide Bounded;
      if state == Closed || remoteDone || (state == Failed && terminalFrame.None?) {
        return None;
      }
      if got.None? {
        Fail();
        return None;
      }
      var frame := got.value;
      if frame.kind == Timeout {
        return Some(TimedOut);
      }
      if frame.kind == Done {
        if terminalFrame.None? {
          state := Failed;
          return Some(EarlyEnd);
        }
        remoteDone := true;
        return Some(Ended);
      }
      if terminalFrame.Some? {
        return Some(AfterTerminal);
      }
      if !Ordered(frame, lastRecvSeq) {
        state := Failed;
        return Some(OutOfOrder);
      }
      lastRecvSeq := frame.sequence;
      receivedFrames := AppendBounded(receivedFrames, frame, maxBuffered);
      var applied := ApplyFrame(frame);
      if !applied {
        state := Failed;
        return Some(Unexpected);
      }
      return Some(Delivered);
    }

    method ApplyFrame(frame: Frame) returns (ok: bool)
      modifies this`state, this`terminalFrame
      ensures ok == Applied(old(View()), frame).Some?
      ensures View() == if ok then Applied(old(View()), frame).value else old(View())
      ensures frame.kind == Receipt(CompletedVerdict) && ok ==> state == Terminal && terminalFrame == Some(frame)
      ensures frame.kind == Receipt(CancelledVerdict) && ok ==> state == Cancelled && terminalFrame == Some(frame)
      ensures frame.kind == Receipt(FailedVerdict) && ok ==> state == Failed && terminalFrame == Some(frame)
      ensures frame.kind == EofControl && ok ==> state == HalfClosedRemote || state == Draining
      ensures !frame.kind.Receipt? || frame.kind.verdict == NoVerdict ==> terminalFrame == old(terminalFrame)
    {
      if frame.kind == EofControl {
        var next := NextState(state, RemoteClose);
        if next.None? {
          return false;
        }
        state := next.value;
        return true;
      }
      if !frame.kind.Receipt? {
        if state == Opening {
          state := Open;
        }
        return true;
      }
      if terminalFrame.Some? {
        return false;
      }
      if frame.kind.verdict == NoVerdict {
        if state == Opening {
          state := Open;
        }
        return true;
      }
      var next := NextState(state, EventOf(frame.kind.verdict));
      if next.None? {
        return false;
      }
      state := next.value;
      terminalFrame := Some(frame);
      return true;
    }

    /** CloseSend and Cancel: the transition first, then the transport. A transport
        that cannot cancel is refused before anything changes. */
    method Command(event: Event, supported: bool, transportOk: bool) returns (ok: bool)
      requires event == LocalClose || event == CancelEvent
      modifies this
      ensures event == CancelEvent && !supported ==> !ok && View() == old(View())
      ensures event == LocalClose || supported ==>
        View() == Call(old(View()), CommandStart(event), CommandEnd(transportOk))
      ensures event == LocalClose ==> (ok <==> (old(state) == Open || old(state) == HalfClosedRemote) && transportOk)
      ensures event == LocalClose && ok ==> state == (if old(state) == Open then HalfClosedLocal else Draining)
      ensures event == CancelEvent ==>
        (ok <==> supported && transportOk
                 && old(state) in {Opening, Open, HalfClosedLocal, HalfClosedRemote, Draining})
      ensures event == CancelEvent && ok ==> state == CancelRequested
    {
      if event == CancelEvent && !supported {
        return false;
      }
      var next := NextState(state, event);
      if next.None? {
        return false;
      }
      state := next.value;
      if !transportOk {
        Fail();
        return false;
      }
      return true;
    }

    method Close(transportOk: bool) returns (ok: bool)
      modifies this
      ensures View() == Call(old(View()), CloseStart, CloseEnd(transportOk))
      ensures ok <==> old(state) == Closed || (old(state) in {Terminal, Cancelled, Failed} && transportOk)
      ensures ok ==> state == Closed
    {
      if state == Closed {
        return true;
      }
      if state != Terminal && state != Cancelled && state != Failed {
        return false;
      }
      if !transportOk {
        Fail();
        return false;
      }
      var next := NextState(state, CloseEvent);
      if next.None? {
        return false;
      }
      state := next.value;
      return true;
    }
  }
}
