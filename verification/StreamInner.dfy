/** streamInner of axon/streams.go as an object: calls that run one at a time. A
    call that would wait for the queue says so and changes nothing. */
module StreamObjects {
  import opened Wrappers
  import opened CreditStream

  datatype PushOutcome = Sent | StreamCancelled | StreamTimeout | QueueFull

  class StreamInner {
    const maxCredit: nat
    var frames: seq<Frame>
    var credits: nat
    var cancelled: bool
    var closeDone: bool
    var terminalSeen: bool

    ghost predicate Valid()
      reads this
    {
      maxCredit >= 1 && credits <= maxCredit && |frames| <= maxCredit + 1
    }

    /** Between calls nobody holds a frame: without grants tokens and queued data
        add up to the initial credit. */
    ghost predicate Balanced()
      reads this
    {
      credits + DataCount(frames) == maxCredit
    }

    ghost predicate NoTerminalQueued()
      reads this
    {
      forall i :: 0 <= i < |frames| ==> frames[i].Data?
    }

    constructor (initialCredit: int)
      ensures Valid() && Balanced() && frames == [] && !cancelled && !closeDone && !terminalSeen
      ensures maxCredit == credits == (if initialCredit < 1 then 1 else initialCredit)
    {
      maxCredit := if initialCredit < 1 then 1 else initialCredit;
      credits := if initialCredit < 1 then 1 else initialCredit;
      frames, cancelled, closeDone, terminalSeen := [], false, false, false;
    }

    /** Only data needs credit. On a balanced stream without a queued terminal the
        queue has room for either kind. */
    method Push(frame: Frame) returns (o: PushOutcome)
      requires Valid()
      modifies this
      ensures Valid() && (old(Balanced()) ==> Balanced())
      ensures o == if old(cancelled) then StreamCancelled
                   else if frame.Data? && old(credits) == 0 then StreamTimeout
                   else if |old(frames)| == maxCredit + 1 then QueueFull else Sent
      ensures old(Balanced()) && old(NoTerminalQueued()) ==> !o.QueueFull?
      ensures !o.Sent? ==> frames == old(frames) && credits == old(credits)
      ensures o.Sent? ==> frames == old(frames) + [frame] && credits == old(credits) - (if frame.Data? then 1 else 0)
      ensures cancelled == old(cancelled) && closeDone == old(closeDone) && terminalSeen == old(terminalSeen)
    {
      if cancelled {
        return StreamCancelled;
      }
      if frame.Data? && credits == 0 {
        return StreamTimeout;
      }
      AllDataWhenFull(frames);
      if |frames| == maxCredit + 1 {
        return QueueFull;
      }
      if frame.Data? {
        credits := credits - 1;
      }
      DataCountSnoc(frames, frame);
      frames := frames + [frame];
      return Sent;
    }

    /** Frames come out in order; data gives its credit back, a terminal ends it. */
    method NextFrame() returns (f: Option<Frame>)
      requires Valid()
      modifies this
      ensures Valid() && (old(Balanced()) ==> Balanced())
      ensures old(terminalSeen) || old(frames) == [] ==>
        f == None && frames == old(frames) && credits == old(credits) && terminalSeen == old(terminalSeen)
      ensures !old(terminalSeen) && old(frames) != [] ==>
        && f == Some(old(frames)[0]) && frames == old(frames)[1..]
        && terminalSeen == old(frames)[0].Terminal?
        && credits == (if old(frames)[0].Data? then Min(old(credits) + 1, maxCredit) else old(credits))
      ensures cancelled == old(cancelled) && closeDone == old(closeDone)
    {
      if terminalSeen || |frames| == 0 {
        return None;
      }
      var frame := frames[0];
      frames := frames[1..];
      if frame.Terminal? {
        terminalSeen := true;
        return Some(frame);
      }
      if credits < maxCredit {
        credits := credits + 1;
      }
      return Some(frame);
    }

    method Cancel(reason: string)
      requires Valid()
      modifies this
      ensures Valid() && cancelled && (old(Balanced()) ==> Balanced())
      ensures frames == if old(cancelled) || |old(frames)| == maxCredit + 1 then old(frames)
                        else old(frames) + [Terminal(reason)]
      ensures credits == old(credits) && closeDone == old(closeDone) && terminalSeen == old(terminalSeen)
    {
      if cancelled {
        return;
      }
      cancelled := true;
      DataCountSnoc(frames, Terminal(reason));
      if |frames| < maxCredit + 1 {
        frames := frames + [Terminal(reason)];
      }
    }

    /** The first Close of an uncancelled stream queues its terminal frame or, when
        the buffer is full, cancels without one; a balanced stream with no terminal
        in its queue always has room. */
    method Close(reason: string)
      requires Valid()
      modifies this
      ensures Valid() && (old(Balanced()) ==> Balanced())
      ensures old(cancelled) || old(closeDone) ==>
        frames == old(frames) && cancelled == old(cancelled) && closeDone == old(closeDone)
      ensures !old(cancelled) && !old(closeDone) && |old(frames)| <= maxCredit ==>
        frames == old(frames) + [Terminal(reason)] && closeDone && !cancelled
      ensures !old(cancelled) && !old(closeDone) && |old(frames)| > maxCredit ==>
        frames == old(frames) && closeDone && cancelled
      ensures old(Balanced()) && old(NoTerminalQueued()) ==> |old(frames)| <= maxCredit
      ensures credits == old(credits) && terminalSeen == old(terminalSeen)
    {
      AllDataWhenFull(frames);
      if cancelled || closeDone {
        return;
      }
      closeDone := true;
      DataCountSnoc(frames, Terminal(reason));
      if |frames| < maxCredit + 1 {
        frames := frames + [Terminal(reason)];
      } else {
        Cancel(reason);
      }
    }

    /** Adds up to n tokens, as far as the credit channel has room; the account
        stays balanced exactly if nothing was added. */
    method GrantCredit(n: int)
      requires Valid()
      modifies this`credits
      ensures Valid() && credits == Min(maxCredit, old(credits) + if n > 0 then n else 0)
      ensures old(Balanced()) ==> (Balanced() <==> n <= 0 || old(credits) == maxCredit)
    {
      var i := 0;
      while i < n
        invariant 0 <= i && (n > 0 ==> i <= n) && (n <= 0 ==> i == 0)
        invariant credits == old(credits) + i <= maxCredit
      {
        if credits == maxCredit {
          return;
        }
        credits := credits + 1;
        i := i + 1;
      }
    }
  }
}
