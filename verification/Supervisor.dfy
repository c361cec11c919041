/** The supervisor of axon/invocation/supervisor.go and its cleanup attempt
    (axon/invocation/supervisor_cleanup.go) as an object. Signals, waits and grace
    timers are reduced to their outcome; callbacks may register further callbacks
    while a batch of them runs. */
module SupervisorObjects {
  import opened Wrappers

  datatype Phase = Active | Closing | Closed | FailedPhase

  /** A callback and whether it returns without panicking. */
  datatype Callback = Callback(id: nat, ok: bool)

  datatype Stage =
    | CancelCallbackFailed | ProcessStageFailed | ExitObservationTimeout | CleanupCallbackFailed | RecoveryRemovalFailed

  /** What the process stage reports: a first failure, and whether every child
      and group was seen gone before the deadline. */
  datatype ProcessOutcome = ProcessOutcome(failure: Option<Stage>, gone: bool)

  ghost predicate AllOk(cbs: seq<Callback>) {
    forall i :: 0 <= i < |cbs| ==> cbs[i].ok
  }

  /** The callbacks a drain runs: the queue, then what arrived while it ran, and
      so on until a batch leaves the queue empty. */
  function Drained(queue: seq<Callback>, arrivals: seq<seq<Callback>>): seq<Callback>
    decreases |arrivals|
  {
    if queue == [] then []
    else if arrivals == [] then queue
    else queue + Drained(arrivals[0], arrivals[1..])
  }

  /** Nothing registered while an attempt drains is lost. */
  lemma {:induction false} NothingLost(queue: seq<Callback>, arrivals: seq<seq<Callback>>, k: nat, cb: Callback)
    requires queue != [] && k < |arrivals| && cb in arrivals[k]
    requires forall j :: 0 <= j < k ==> arrivals[j] != []
    ensures cb in Drained(queue, arrivals)
    decreases |arrivals|
  {
    if k > 0 {
      assert forall j :: 0 <= j < k - 1 ==> arrivals[1..][j] == arrivals[j + 1];
      NothingLost(arrivals[0], arrivals[1..], k - 1, cb);
    } else if |arrivals| > 1 {
      assert cb in arrivals[0] && Drained(arrivals[0], arrivals[1..]) == arrivals[0] + Drained(arrivals[1], arrivals[1..][1..]);
    } else {
      assert Drained(arrivals[0], arrivals[1..]) == arrivals[0];
    }
  }

  class Supervisor {
    var phase: Phase
    var cancelCbs: seq<Callback>
    var cleanupCbs: seq<Callback>
    var processes: nat
    var cleanupErr: Option<Stage>
    /** terminalOnce has fired. */
    var started: bool
    /** Every callback run so far, in order. */
    var ran: seq<Callback>

    /** A closed supervisor has nothing waiting and recorded no failure. */
    ghost predicate Valid()
      reads this
    {
      && (phase == Closed ==> cleanupCbs == [] && cleanupErr.None?)
      && (phase == FailedPhase ==> cleanupErr.Some?)
      && (started <==> phase != Active)
    }

    constructor ()
      ensures Valid() && phase == Active && cancelCbs == [] && cleanupCbs == [] && processes == 0 && ran == []
    {
      phase, cancelCbs, cleanupCbs, processes, cleanupErr, ran, started := Active, [], [], 0, None, [], false;
    }

    /** Queued, or run on the spot once the barrier is closed. */
    method RegisterCleanup(cb: Callback)
      requires Valid()
      modifies this
      ensures Valid() && phase == old(phase) && cancelCbs == old(cancelCbs) && cleanupErr == old(cleanupErr)
      ensures processes == old(processes)
      ensures if phase == Closed then cleanupCbs == [] && ran == old(ran) + [cb]
              else cleanupCbs == old(cleanupCbs) + [cb] && ran == old(ran)
    {
      if phase == Closed {
        ran := ran + [cb];
        return;
      }
      cleanupCbs := cleanupCbs + [cb];
    }

    method OnCancel(cb: Callback)
      requires Valid()
      modifies this
      ensures Valid() && cancelCbs == (if phase == Active then old(cancelCbs) + [cb] else old(cancelCbs))
      ensures phase == old(phase) && cleanupCbs == old(cleanupCbs) && ran == old(ran) && cleanupErr == old(cleanupErr)
    {
      if phase != Active {
        return;
      }
      cancelCbs := cancelCbs + [cb];
    }

    /** The guard of SpawnProcessGroup: no process joins once cleanup has begun. */
    method SpawnProcessGroup(limit: nat, starts: bool) returns (ok: bool)
      requires Valid()
      modifies this
      ensures Valid() && phase == old(phase) && ran == old(ran) && cleanupCbs == old(cleanupCbs)
      ensures ok <==> phase == Active && (limit > 0 ==> old(processes) < limit) && starts
      ensures processes == old(processes) + (if ok then 1 else 0)
    {
      if phase != Active || (limit > 0 && processes >= limit) || !starts {
        return false;
      }
      processes := processes + 1;
      return true;
    }

    /** Runs a batch; the first failing callback is remembered. */
    method RunAll(cbs: seq<Callback>, stage: Stage, failure: Option<Stage>) returns (f: Option<Stage>)
      modifies this`ran
      ensures ran == old(ran) + cbs
      ensures f == if failure.Some? then failure else if AllOk(cbs) then None else Some(stage)
    {
      f := failure;
      for i := 0 to |cbs|
        invariant ran == old(ran) + cbs[..i]
        invariant f == if failure.Some? then failure else if AllOk(cbs[..i]) then None else Some(stage)
      {
        assert cbs[..i + 1] == cbs[..i] + [cbs[i]];
        ran := ran + [cbs[i]];
        if !cbs[i].ok && f.None? {
          f := Some(stage);
        }
        BatchGrows(cbs, i);
      }
      assert cbs[..|cbs|] == cbs;
    }

    /** runTerminalFlow with liveCleanupAttempt.run. `arrivals[k]` is registered
        while the k-th batch runs. Only a supervisor whose children are gone drains
        its queue, and it closes exactly when nothing failed. A repeated call waits
        for the first and changes nothing. */
    method RunTerminalFlow(
      cancelled: bool, outcome: ProcessOutcome, arrivals: seq<seq<Callback>>, removalOk: bool)
      requires Valid()
      modifies this
      ensures Valid()
      ensures old(started) ==>
        phase == old(phase) && cancelCbs == old(cancelCbs) && cleanupCbs == old(cleanupCbs) && ran == old(ran)
        && cleanupErr == old(cleanupErr)
      ensures !old(started) ==> cancelCbs == [] && started
      ensures !old(started) ==>
        var first := if cancelled then old(cancelCbs) else [];
        var drained := Drained(old(cleanupCbs), arrivals);
        if outcome.gone then
          && cleanupCbs == [] && ran == old(ran) + (first + drained)
          && (phase == Closed <==> AllOk(first) && outcome.failure.None? && AllOk(drained) && removalOk)
          && (phase == Closed || phase == FailedPhase)
        else
          cleanupCbs == old(cleanupCbs) && ran == old(ran) + first && phase == FailedPhase
      ensures !old(started) ==>
        var first := if cancelled then old(cancelCbs) else [];
        cleanupErr ==
          if !AllOk(first) then Some(CancelCallbackFailed)
          else if outcome.failure.Some? then outcome.failure
          else if !outcome.gone then Some(ExitObservationTimeout)
          else if !AllOk(Drained(old(cleanupCbs), arrivals)) then Some(CleanupCallbackFailed)
          else if !removalOk then Some(RecoveryRemovalFailed)
          else None
    {
      if started {
        return;
      }
      started := true;
      phase := Closing;
      var callbacks := cancelCbs;
      cancelCbs := [];
      var failure: Option<Stage> := None;
      ghost var first := if cancelled then callbacks else [];
      if cancelled {
        failure := RunAll(callbacks, CancelCallbackFailed, failure);
      }
      if failure.None? {
        failure := outcome.failure;
      }
      if !outcome.gone {
        cleanupErr := if failure.Some? then failure else Some(ExitObservationTimeout);
        phase := FailedPhase;
        return;
      }
      failure := Drain(arrivals, failure);
      assert old(ran) + first + Drained(old(cleanupCbs), arrivals) == old(ran) + (first + Drained(old(cleanupCbs), arrivals));
      if failure.None? && !removalOk {
        failure := Some(RecoveryRemovalFailed);
      }
      cleanupErr := failure;
      phase := if failure.Some? then FailedPhase else Closed;
    }

    /** The drain loop: take the queue, run it, look again. */
    method Drain(arrivals: seq<seq<Callback>>, failure: Option<Stage>) returns (f: Option<Stage>)
      modifies this`ran, this`cleanupCbs
      ensures cleanupCbs == [] && ran == old(ran) + Drained(old(cleanupCbs), arrivals)
      ensures f == if failure.Some? then failure
                   else if AllOk(Drained(old(cleanupCbs), arrivals)) then None else Some(CleanupCallbackFailed)
    {
      hide AllOk;
      AllOkEmpty();
      f := failure;
      ghost var all := Drained(cleanupCbs, arrivals);
      ghost var done: seq<Callback> := [];
      var k := 0;
      while |cleanupCbs| > 0
        invariant 0 <= k <= |arrivals|
        invariant ran == old(ran) + done && done + Drained(cleanupCbs, arrivals[k..]) == all
        invariant f == if failure.Some? then failure else if AllOk(done) then None else Some(CleanupCallbackFailed)
        decreases |arrivals| - k, |cleanupCbs|
      {
        var batch := cleanupCbs;
        DrainStep(done, batch, arrivals[k..]);
        cleanupCbs := [];
        f := RunAll(batch, CleanupCallbackFailed, f);
        BatchAppended(done, batch);
        done := done + batch;
        if k < |arrivals| {
          assert arrivals[k..][0] == arrivals[k] && arrivals[k..][1..] == arrivals[k + 1..];
          cleanupCbs := arrivals[k];
          k := k + 1;
        }
      }
      assert done + [] == done;
    }
  }

  lemma AllOkEmpty()
    ensures AllOk([])
  {
  }

  lemma DrainStep(done: seq<Callback>, batch: seq<Callback>, arrivals: seq<seq<Callback>>)
    requires batch != []
    ensures done + Drained(batch, arrivals) ==
      (done + batch) + (if arrivals == [] then [] else Drained(arrivals[0], arrivals[1..]))
  {
  }

  lemma BatchGrows(cbs: seq<Callback>, i: nat)
    requires i < |cbs|
    ensures AllOk(cbs[..i + 1]) <==> AllOk(cbs[..i]) && cbs[i].ok
  {
    assert cbs[..i + 1] == cbs[..i] + [cbs[i]];
    BatchAppended(cbs[..i], [cbs[i]]);
    assert [cbs[i]][0] == cbs[i];
  }

  lemma BatchAppended(a: seq<Callback>, b: seq<Callback>)
    ensures AllOk(a + b) <==> AllOk(a) && AllOk(b)
  {
    if AllOk(a + b) {
      assert forall i :: 0 <= i < |a| ==> (a + b)[i] == a[i];
      assert forall i :: 0 <= i < |b| ==> (a + b)[|a| + i] == b[i];
    }
  }
}
