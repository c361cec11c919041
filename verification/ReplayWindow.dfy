/** The nonce replay store and the admission transition that feeds it
    (axon/invocation/admission.go). */
module ReplayWindow {
  import opened ByteStrings

  datatype Key = Key(caller: Bytes, ability: Bytes, nonce: Bytes)

  type Seen = map<Key, int>

  function Pruned(seen: Seen, cutoff: int): Seen {
    map k | k in seen && seen[k] >= cutoff :: seen[k]
  }

  /** checkAndRecord: the new table, and whether the key was accepted. */
  function Checked(seen: Seen, windowMs: int, key: Key, now: int): (Seen, bool) {
    var live := Pruned(seen, now - windowMs);
    if key in live then (live, false) else (live[key := now], true)
  }

  class NonceReplayStore {
    const windowMs: int
    var seen: Seen

    constructor (windowMs: int)
      ensures this.windowMs == windowMs && seen == map[]
    {
      this.windowMs := windowMs;
      seen := map[];
    }

    method CheckAndRecord(key: Key, now: int) returns (accepted: bool)
      modifies this
      ensures (seen, accepted) == Checked(old(seen), windowMs, key, now)
    {
      var cutoff := now - windowMs;
      Prune(cutoff);
      if key in seen && seen[key] >= cutoff {
        return false;
      }
      seen := seen[key := now];
      return true;
    }

    method Prune(cutoff: int)
      modifies this`seen
      ensures seen == Pruned(old(seen), cutoff)
    {
      ghost var all := seen;
      var todo := seen.Keys;
      while todo != {}
        invariant todo <= all.Keys
        invariant seen == map k | k in all && (k in todo || all[k] >= cutoff) :: all[k]
        decreases |todo|
      {
        var k :| k in todo;
        if seen[k] < cutoff {
          seen := seen - {k};
        }
        todo := todo - {k};
      }
    }
  }

  // ---- The pruned table against the full history ----

  datatype Call = Call(key: Key, now: int)

  /** Some accepted call of the history used this key within the window. */
  ghost predicate Replayed(calls: seq<Call>, verdicts: seq<bool>, windowMs: int, c: Call)
    requires |verdicts| == |calls|
  {
    exists j :: 0 <= j < |calls| && verdicts[j] && calls[j].key == c.key && calls[j].now >= c.now - windowMs
  }

  /** What a store that forgets nothing would answer. */
  ghost function FullVerdicts(calls: seq<Call>, windowMs: int): (v: seq<bool>)
    ensures |v| == |calls|
  {
    if calls == [] then []
    else
      var n := |calls| - 1;
      var v := FullVerdicts(calls[..n], windowMs);
      v + [!Replayed(calls[..n], v, windowMs, calls[n])]
  }

  /** The table and the answers of the store that prunes. */
  function StoreRun(calls: seq<Call>, windowMs: int): (r: (Seen, seq<bool>))
    ensures |r.1| == |calls|
  {
    if calls == [] then (map[], [])
    else
      var n := |calls| - 1;
      var before := StoreRun(calls[..n], windowMs);
      var after := Checked(before.0, windowMs, calls[n].key, calls[n].now);
      (after.0, before.1 + [after.1])
  }

  /** Call j was accepted, no later call pruned it, and none replaced its entry. */
  ghost predicate Kept(calls: seq<Call>, verdicts: seq<bool>, windowMs: int, j: nat)
    requires |verdicts| == |calls| && j < |calls|
  {
    && verdicts[j]
    && (forall m :: j < m < |calls| ==> calls[m].now - windowMs <= calls[j].now)
    && (forall m :: j < m < |calls| && verdicts[m] ==> calls[m].key != calls[j].key)
  }

  /** Every entry stems from an acceptance, and every kept acceptance has its entry. */
  ghost predicate Tracks(calls: seq<Call>, verdicts: seq<bool>, windowMs: int, seen: Seen)
    requires |verdicts| == |calls|
  {
    && (forall k :: k in seen ==>
          exists j :: 0 <= j < |calls| && verdicts[j] && calls[j].key == k && calls[j].now == seen[k])
    && (forall j :: 0 <= j < |calls| && Kept(calls, verdicts, windowMs, j) ==>
          calls[j].key in seen && seen[calls[j].key] == calls[j].now)
  }

  lemma KeptBefore(calls: seq<Call>, verdicts: seq<bool>, windowMs: int, c: Call, accepted: bool, j: nat)
    requires |verdicts| == |calls| && j < |calls|
    requires Kept(calls + [c], verdicts + [accepted], windowMs, j)
    ensures Kept(calls, verdicts, windowMs, j) && c.now - windowMs <= calls[j].now
    ensures accepted ==> c.key != calls[j].key
  {
    var grown, v := calls + [c], verdicts + [accepted];
    assert grown[|calls|] == c && v[|calls|] == accepted && grown[j] == calls[j] && v[j] == verdicts[j];
    assert forall m :: j < m < |calls| ==> grown[m] == calls[m] && v[m] == verdicts[m];
  }

  /** One call keeps the account, whatever the clock does. */
  lemma TracksStep(calls: seq<Call>, verdicts: seq<bool>, windowMs: int, seen: Seen, c: Call)
    requires |verdicts| == |calls| && Tracks(calls, verdicts, windowMs, seen)
    ensures
      var (after, accepted) := Checked(seen, windowMs, c.key, c.now);
      Tracks(calls + [c], verdicts + [accepted], windowMs, after)
  {
    var (after, accepted) := Checked(seen, windowMs, c.key, c.now);
    var grown, v := calls + [c], verdicts + [accepted];
    hide Kept;
    forall k | k in after ensures exists j :: 0 <= j < |grown| && v[j] && grown[j].key == k && grown[j].now == after[k] {
      if accepted && k == c.key {
        assert v[|calls|] && grown[|calls|] == c;
      } else {
        var j :| 0 <= j < |calls| && verdicts[j] && calls[j].key == k && calls[j].now == seen[k];
        assert v[j] && grown[j] == calls[j];
      }
    }
    forall j | 0 <= j < |grown| && Kept(grown, v, windowMs, j)
      ensures grown[j].key in after && after[grown[j].key] == grown[j].now
    {
      if j < |calls| {
        KeptBefore(calls, verdicts, windowMs, c, accepted, j);
        assert grown[j] == calls[j];
      } else {
        KeptIsAccepted(grown, v, windowMs, j);
      }
    }
  }

  lemma KeptIsAccepted(calls: seq<Call>, verdicts: seq<bool>, windowMs: int, j: nat)
    requires |verdicts| == |calls| && j < |calls| && Kept(calls, verdicts, windowMs, j)
    ensures verdicts[j]
  {
  }

  lemma {:induction false} StoreTracks(calls: seq<Call>, windowMs: int)
    ensures Tracks(calls, StoreRun(calls, windowMs).1, windowMs, StoreRun(calls, windowMs).0)
  {
    if calls != [] {
      var n := |calls| - 1;
      StoreTracks(calls[..n], windowMs);
      var before := StoreRun(calls[..n], windowMs);
      TracksStep(calls[..n], before.1, windowMs, before.0, calls[n]);
      hide Tracks, Checked;
      assert calls == calls[..n] + [calls[n]];
    }
  }

  // ---- The exact condition on the clock ----

  /** No call prunes an acceptance that a still later call finds in its window. */
  ghost predicate WindowSafe(times: seq<int>, windowMs: int) {
    forall j, m, n :: 0 <= j < m < n < |times| ==> !(times[n] - windowMs <= times[j] < times[m] - windowMs)
  }

  function Times(calls: seq<Call>): seq<int> {
    seq(|calls|, i requires 0 <= i < |calls| => calls[i].now)
  }

  lemma {:induction false} FullVerdictAt(calls: seq<Call>, windowMs: int, m: nat)
    requires m < |calls|
    ensures FullVerdicts(calls, windowMs)[..m] == FullVerdicts(calls[..m], windowMs)
    ensures FullVerdicts(calls, windowMs)[m]
        <==> !Replayed(calls[..m], FullVerdicts(calls[..m], windowMs), windowMs, calls[m])
  {
    hide Replayed;
    var n := |calls| - 1;
    var v := FullVerdicts(calls[..n], windowMs);
    assert FullVerdicts(calls, windowMs) == v + [!Replayed(calls[..n], v, windowMs, calls[n])];
    if m < n {
      FullVerdictAt(calls[..n], windowMs, m);
      assert calls[..n][..m] == calls[..m] && calls[..n][m] == calls[m];
      assert FullVerdicts(calls, windowMs)[..m] == v[..m];
    }
  }

  /** In a safe history an acceptance still in the window of the next call is kept. */
  lemma InWindowIsKept(calls: seq<Call>, windowMs: int, c: Call, j: nat)
    requires WindowSafe(Times(calls + [c]), windowMs)
    requires j < |calls| && FullVerdicts(calls, windowMs)[j]
    requires calls[j].key == c.key && calls[j].now >= c.now - windowMs
    ensures Kept(calls, FullVerdicts(calls, windowMs), windowMs, j)
  {
    var v, n, times := FullVerdicts(calls, windowMs), |calls|, Times(calls + [c]);
    assert times[n] == c.now && times[j] == calls[j].now;
    forall m | j < m < n
      ensures calls[m].now - windowMs <= calls[j].now && (v[m] ==> calls[m].key != calls[j].key)
    {
      assert times[m] == calls[m].now;
      assert !(times[n] - windowMs <= times[j] < times[m] - windowMs);
      FullVerdictAt(calls, windowMs, m);
      assert v[..m][j] && calls[..m][j] == calls[j];
    }
  }

  lemma LiveIsReplayed(calls: seq<Call>, windowMs: int, seen: Seen, c: Call)
    requires Tracks(calls, FullVerdicts(calls, windowMs), windowMs, seen)
    requires WindowSafe(Times(calls + [c]), windowMs)
    ensures c.key in Pruned(seen, c.now - windowMs)
        <==> Replayed(calls, FullVerdicts(calls, windowMs), windowMs, c)
  {
    var v := FullVerdicts(calls, windowMs);
    if Replayed(calls, v, windowMs, c) {
      var j :| 0 <= j < |calls| && v[j] && calls[j].key == c.key && calls[j].now >= c.now - windowMs;
      InWindowIsKept(calls, windowMs, c, j);
    }
  }

  lemma SafePrefix(calls: seq<Call>, n: nat, windowMs: int)
    requires n <= |calls| && WindowSafe(Times(calls), windowMs)
    ensures WindowSafe(Times(calls[..n]), windowMs)
  {
    var times, before := Times(calls), Times(calls[..n]);
    forall j, m, k | 0 <= j < m < k < |before| ensures !(before[k] - windowMs <= before[j] < before[m] - windowMs) {
      assert before[j] == times[j] && before[m] == times[m] && before[k] == times[k];
    }
  }

  lemma {:induction false} SafeHistoryAgrees(calls: seq<Call>, windowMs: int)
    requires WindowSafe(Times(calls), windowMs)
    ensures StoreRun(calls, windowMs).1 == FullVerdicts(calls, windowMs)
  {
    hide WindowSafe, Tracks, Replayed, Pruned;
    if calls != [] {
      var n := |calls| - 1;
      SafePrefix(calls, n, windowMs);
      SafeHistoryAgrees(calls[..n], windowMs);
      StoreTracks(calls[..n], windowMs);
      assert calls == calls[..n] + [calls[n]];
      LiveIsReplayed(calls[..n], windowMs, StoreRun(calls[..n], windowMs).0, calls[n]);
    }
  }

  // ---- Why it is needed ----

  /** Among the first n+1 calls only j and n use the key of call n. */
  ghost predicate SharedByTwo(calls: seq<Call>, j: nat, n: nat)
    requires j < n < |calls|
  {
    calls[j].key == calls[n].key && forall i :: 0 <= i < n && i != j ==> calls[i].key != calls[n].key
  }

  /** Before call n its key can only stand for call j. */
  lemma EntryIsFirst(calls: seq<Call>, windowMs: int, j: nat, n: nat, i: nat)
    requires j < n < |calls| && SharedByTwo(calls, j, n) && i <= n
    ensures
      var seen := StoreRun(calls[..i], windowMs).0;
      calls[n].key in seen ==> seen[calls[n].key] == calls[j].now
  {
    StoreTracks(calls[..i], windowMs);
    hide StoreRun, Kept;
  }

  /** A key that is out of the window and not asked for is not in the table after. */
  lemma CheckedForgets(seen: Seen, windowMs: int, key: Key, c: Call)
    requires key != c.key && (key in seen ==> seen[key] < c.now - windowMs)
    ensures key !in Checked(seen, windowMs, c.key, c.now).0
  {
  }

  lemma {:induction false} PrunedStaysGone(calls: seq<Call>, windowMs: int, j: nat, m: nat, n: nat, i: nat)
    requires j < m < n < |calls| && SharedByTwo(calls, j, n) && calls[j].now < calls[m].now - windowMs
    requires m < i <= n
    ensures calls[n].key !in StoreRun(calls[..i], windowMs).0
    decreases i
  {
    hide Checked;
    var before := calls[..i - 1];
    assert calls[..i][..i - 1] == before && calls[..i][i - 1] == calls[i - 1];
    if i == m + 1 {
      EntryIsFirst(calls, windowMs, j, n, m);
    } else {
      PrunedStaysGone(calls, windowMs, j, m, n, i - 1);
    }
    CheckedForgets(StoreRun(before, windowMs).0, windowMs, calls[n].key, calls[i - 1]);
  }

  lemma {:induction false} StoreVerdictAt(calls: seq<Call>, windowMs: int, n: nat)
    requires n < |calls|
    ensures StoreRun(calls, windowMs).1[n]
        <==> calls[n].key !in Pruned(StoreRun(calls[..n], windowMs).0, calls[n].now - windowMs)
    decreases |calls|
  {
    hide Pruned;
    var last := |calls| - 1;
    if n < last {
      StoreVerdictAt(calls[..last], windowMs, n);
      assert calls[..last][..n] == calls[..n] && calls[..last][n] == calls[n];
    }
  }

  /** An unsafe triple of times admits a replay: the key of calls j and n is
      pruned at m, and n is accepted although j is in its window. */
  lemma UnsafeTimesAdmitReplay(calls: seq<Call>, windowMs: int, j: nat, m: nat, n: nat)
    requires j < m < n < |calls| && SharedByTwo(calls, j, n)
    requires calls[n].now - windowMs <= calls[j].now < calls[m].now - windowMs
    ensures StoreRun(calls, windowMs).1[n] && !FullVerdicts(calls, windowMs)[n]
  {
    PrunedStaysGone(calls, windowMs, j, m, n, n);
    StoreVerdictAt(calls, windowMs, n);
    FullVerdictAt(calls, windowMs, j);
    FullVerdictAt(calls, windowMs, n);
    var v := FullVerdicts(calls, windowMs);
    assert !Replayed(calls[..j], FullVerdicts(calls[..j], windowMs), windowMs, calls[j]);
    assert v[..n][j] && calls[..n][j] == calls[j];
    assert Replayed(calls[..n], v[..n], windowMs, calls[n]);
  }

  function Timed(keys: seq<Key>, times: seq<int>): seq<Call>
    requires |keys| == |times|
  {
    seq(|times|, i requires 0 <= i < |times| => Call(keys[i], times[i]))
  }

  /** Whatever keys are presented at these times, forgetting is invisible. */
  ghost predicate PruningInvisibleAt(times: seq<int>, windowMs: int) {
    forall keys: seq<Key> :: |keys| == |times| ==>
      StoreRun(Timed(keys, times), windowMs).1 == FullVerdicts(Timed(keys, times), windowMs)
  }

  /** The pruned table answers like the full history for every choice of keys if
      and only if the times are window safe. */
  lemma PruningIsInvisibleExactly(times: seq<int>, windowMs: int)
    ensures PruningInvisibleAt(times, windowMs) <==> WindowSafe(times, windowMs)
  {
    if WindowSafe(times, windowMs) {
      forall keys: seq<Key> | |keys| == |times|
        ensures StoreRun(Timed(keys, times), windowMs).1 == FullVerdicts(Timed(keys, times), windowMs)
      {
        assert Times(Timed(keys, times)) == times;
        SafeHistoryAgrees(Timed(keys, times), windowMs);
      }
    } else {
      var j, m, n :| 0 <= j < m < n < |times| && times[n] - windowMs <= times[j] < times[m] - windowMs;
      var shared, other := Key([], [], []), Key([0], [], []);
      var keys := seq(|times|, i => if i == j || i == n then shared else other);
      UnsafeTimesAdmitReplay(Timed(keys, times), windowMs, j, m, n);
    }
  }

  /** A clock that never runs backwards is safe for every window. */
  lemma MonotoneIsSafe(times: seq<int>, windowMs: int)
    requires forall i, j :: 0 <= i < j < |times| ==> times[i] <= times[j]
    ensures WindowSafe(times, windowMs)
  {
  }

  /** A step back after a pruning call, in three calls. */
  lemma BackwardClockAdmitsReplay(key: Key, other: Key)
    requires key != other
    ensures
      var calls := [Call(key, 0), Call(other, 100), Call(key, 5)];
      StoreRun(calls, 10).1[2] && !FullVerdicts(calls, 10)[2]
  {
    UnsafeTimesAdmitReplay([Call(key, 0), Call(other, 100), Call(key, 5)], 10, 0, 1, 2);
  }
}
