/** The admission transition that feeds the nonce replay store
    (axon/invocation/admission.go, verifyDescriptorBoundAdmission). */
module Admission {
  import opened Wrappers
  import opened ByteStrings
  import opened Canonical
  import opened CanonicalInjective
  import opened ReplayWindow

  /** The outcomes of checks this model does not look into. */
  datatype Checks = Checks(
    envelopeOk: bool, signatureShaped: bool, resolverPresent: bool, signatureOk: bool,
    storePresent: bool, providerPresent: bool, policyOk: bool)

  datatype AdmissionError =
    | EnvelopeIncomplete | BadSignature | ResolverRequired | StoreRequired
    | ProviderRequired | PolicyRefused | NonceReplay | SubjectUnresolvable

  function KeyOf(e: Envelope): Key {
    Key(e.caller.ura, e.ability, e.nonce)
  }

  /** verifyDescriptorBoundAdmission: the first failing check, and the table after. */
  function Admit(
    kindOf: Identity -> Option<byte>, canon: Bytes -> Option<Bytes>,
    seen: Seen, windowMs: int, e: Envelope, c: Checks, now: int): (Seen, Option<AdmissionError>)
  {
    if !c.envelopeOk || InvocationBytes(kindOf, canon, e).None? then (seen, Some(EnvelopeIncomplete))
    else if !c.signatureShaped then (seen, Some(BadSignature))
    else if !c.resolverPresent then (seen, Some(ResolverRequired))
    else if !c.signatureOk then (seen, Some(BadSignature))
    else if !c.storePresent then (seen, Some(StoreRequired))
    else if !c.providerPresent then (seen, Some(ProviderRequired))
    else if !c.policyOk then (seen, Some(PolicyRefused))
    else
      var (after, accepted) := Checked(seen, windowMs, KeyOf(e), now);
      if !accepted then (after, Some(NonceReplay))
      else if kindOf(e.subject).None? then (after, Some(SubjectUnresolvable))
      else (after, None)
  }

  /** The key was not live before and is entered at `now` after. */
  predicate Consumed(before: Seen, after: Seen, key: Key, windowMs: int, now: int) {
    key !in Pruned(before, now - windowMs) && key in after && after[key] == now
  }

  /** The nonce is consumed if and only if the call succeeds: the check after the
      recording cannot fail, and a refusal adds or renews no entry. */
  lemma RecordedIffAdmitted(
    kindOf: Identity -> Option<byte>, canon: Bytes -> Option<Bytes>,
    seen: Seen, windowMs: int, e: Envelope, c: Checks, now: int)
    ensures
      var (after, error) := Admit(kindOf, canon, seen, windowMs, e, c, now);
      && (error.None? ==> after == Pruned(seen, now - windowMs)[KeyOf(e) := now])
      && (error.Some? ==> forall k :: k in after ==> k in seen && after[k] == seen[k])
      && (windowMs >= 0 ==> (error.None? <==> Consumed(seen, after, KeyOf(e), windowMs, now)))
      && error != Some(SubjectUnresolvable)
  {
    hide Flatten, EnvelopeSegments;
  }

  /** Everything admission demands before it looks at the nonce. */
  predicate Passes(kindOf: Identity -> Option<byte>, canon: Bytes -> Option<Bytes>, e: Envelope, c: Checks) {
    && c.envelopeOk && kindOf(e.subject).Some? && canon(e.ability).Some?
    && c.signatureShaped && c.resolverPresent && c.signatureOk
    && c.storePresent && c.providerPresent && c.policyOk
  }

  /** The table holds this caller, ability and nonce with a time in the window. */
  predicate Live(seen: Seen, e: Envelope, since: int) {
    exists k :: k in seen && k.caller == e.caller.ura && k.ability == e.ability && k.nonce == e.nonce && seen[k] >= since
  }

  /** A call is admitted if and only if every check passes and its caller, ability
      and nonce are not in the window; no failing check touches the table. */
  lemma AdmittedExactly(
    kindOf: Identity -> Option<byte>, canon: Bytes -> Option<Bytes>,
    seen: Seen, windowMs: int, e: Envelope, c: Checks, now: int)
    ensures
      var (after, error) := Admit(kindOf, canon, seen, windowMs, e, c, now);
      && (error.None? <==> Passes(kindOf, canon, e, c) && !Live(seen, e, now - windowMs))
      && (error == Some(NonceReplay) <==> Passes(kindOf, canon, e, c) && Live(seen, e, now - windowMs))
      && (!Passes(kindOf, canon, e, c) ==> after == seen)
      && (Passes(kindOf, canon, e, c.(signatureOk := true)) && !c.signatureOk ==> error == Some(BadSignature))
      && (Passes(kindOf, canon, e, c.(policyOk := true)) && !c.policyOk ==> error == Some(PolicyRefused))
  {
    hide Flatten, EnvelopeSegments;
    assert Live(seen, e, now - windowMs) <==> KeyOf(e) in Pruned(seen, now - windowMs);
  }

  // ---- Runs of admissions ----

  datatype Attempt = Attempt(e: Envelope, c: Checks, now: int)

  /** The table and the answers after a sequence of admissions. */
  function AdmitRun(
    kindOf: Identity -> Option<byte>, canon: Bytes -> Option<Bytes>, attempts: seq<Attempt>, windowMs: int)
    : (r: (Seen, seq<bool>))
    ensures |r.1| == |attempts|
  {
    if attempts == [] then (map[], [])
    else
      var n := |attempts| - 1;
      var a, before := attempts[n], AdmitRun(kindOf, canon, attempts[..n], windowMs);
      var after := Admit(kindOf, canon, before.0, windowMs, a.e, a.c, a.now);
      (after.0, before.1 + [after.1.None?])
  }

  /** The calls that reach the replay store. */
  function Reaching(kindOf: Identity -> Option<byte>, canon: Bytes -> Option<Bytes>, attempts: seq<Attempt>): seq<Call> {
    if attempts == [] then []
    else
      var n := |attempts| - 1;
      var before := Reaching(kindOf, canon, attempts[..n]);
      if Passes(kindOf, canon, attempts[n].e, attempts[n].c)
      then before + [Call(Key(attempts[n].e.caller.ura, attempts[n].e.ability, attempts[n].e.nonce), attempts[n].now)]
      else before
  }

  /** Some admitted attempt had this caller, ability and nonce, not before `since`. */
  ghost predicate AdmittedSince(attempts: seq<Attempt>, admitted: seq<bool>, e: Envelope, since: int)
    requires |admitted| == |attempts|
  {
    exists j :: 0 <= j < |attempts| && admitted[j] && attempts[j].now >= since
                && attempts[j].e.caller.ura == e.caller.ura && attempts[j].e.ability == e.ability
                && attempts[j].e.nonce == e.nonce
  }

  ghost predicate AcceptedSince(calls: seq<Call>, verdicts: seq<bool>, e: Envelope, since: int)
    requires |verdicts| == |calls|
  {
    exists j :: 0 <= j < |calls| && verdicts[j] && calls[j].now >= since
                && calls[j].key == Key(e.caller.ura, e.ability, e.nonce)
  }

  lemma AttemptAdded(attempts: seq<Attempt>, admitted: seq<bool>, a: Attempt, yes: bool, e: Envelope, since: int)
    requires |admitted| == |attempts|
    ensures AdmittedSince(attempts + [a], admitted + [yes], e, since) <==>
      AdmittedSince(attempts, admitted, e, since)
      || (yes && a.now >= since && a.e.caller.ura == e.caller.ura && a.e.ability == e.ability && a.e.nonce == e.nonce)
  {
    var xs, ys := attempts + [a], admitted + [yes];
    assert xs[|attempts|] == a && ys[|attempts|] == yes;
    assert forall j :: 0 <= j < |attempts| ==> xs[j] == attempts[j] && ys[j] == admitted[j];
  }

  lemma CallAdded(calls: seq<Call>, verdicts: seq<bool>, c: Call, yes: bool, e: Envelope, since: int)
    requires |verdicts| == |calls|
    ensures AcceptedSince(calls + [c], verdicts + [yes], e, since) <==>
      AcceptedSince(calls, verdicts, e, since)
      || (yes && c.now >= since && c.key == Key(e.caller.ura, e.ability, e.nonce))
  {
    var xs, ys := calls + [c], verdicts + [yes];
    assert xs[|calls|] == c && ys[|calls|] == yes;
    assert forall j :: 0 <= j < |calls| ==> xs[j] == calls[j] && ys[j] == verdicts[j];
  }

  lemma AdmitIsChecked(
    kindOf: Identity -> Option<byte>, canon: Bytes -> Option<Bytes>, seen: Seen, windowMs: int, a: Attempt)
    ensures
      var (after, error) := Admit(kindOf, canon, seen, windowMs, a.e, a.c, a.now);
      if Passes(kindOf, canon, a.e, a.c)
      then (after, error.None?) == Checked(seen, windowMs, Key(a.e.caller.ura, a.e.ability, a.e.nonce), a.now)
      else after == seen && error.Some?
  {
    hide Flatten, EnvelopeSegments;
  }

  lemma StoreRunSnoc(calls: seq<Call>, c: Call, windowMs: int)
    ensures
      var (seen, verdicts) := StoreRun(calls, windowMs);
      var (after, yes) := Checked(seen, windowMs, c.key, c.now);
      StoreRun(calls + [c], windowMs) == (after, verdicts + [yes])
  {
    hide Checked;
    assert (calls + [c])[..|calls|] == calls;
  }

  lemma AdmitRunSnoc(
    kindOf: Identity -> Option<byte>, canon: Bytes -> Option<Bytes>, attempts: seq<Attempt>, a: Attempt, windowMs: int)
    ensures
      var (seen, admitted) := AdmitRun(kindOf, canon, attempts, windowMs);
      var (after, error) := Admit(kindOf, canon, seen, windowMs, a.e, a.c, a.now);
      AdmitRun(kindOf, canon, attempts + [a], windowMs) == (after, admitted + [error.None?])
  {
    hide Admit;
    assert (attempts + [a])[..|attempts|] == attempts;
  }

  lemma ReachingSnoc(kindOf: Identity -> Option<byte>, canon: Bytes -> Option<Bytes>, attempts: seq<Attempt>, a: Attempt)
    ensures Reaching(kindOf, canon, attempts + [a]) == Reaching(kindOf, canon, attempts)
      + (if Passes(kindOf, canon, a.e, a.c) then [Call(Key(a.e.caller.ura, a.e.ability, a.e.nonce), a.now)] else [])
  {
    hide Passes;
    assert (attempts + [a])[..|attempts|] == attempts;
  }

  /** The store sees the passing attempts, and admits what it accepts. */
  ghost predicate Agrees(
    kindOf: Identity -> Option<byte>, canon: Bytes -> Option<Bytes>, attempts: seq<Attempt>, windowMs: int, e: Envelope, since: int)
  {
    var (seen, admitted) := AdmitRun(kindOf, canon, attempts, windowMs);
    var calls := Reaching(kindOf, canon, attempts);
    var (table, verdicts) := StoreRun(calls, windowMs);
    seen == table && (AdmittedSince(attempts, admitted, e, since) <==> AcceptedSince(calls, verdicts, e, since))
  }

  lemma AgreesSnoc(
    kindOf: Identity -> Option<byte>, canon: Bytes -> Option<Bytes>, attempts: seq<Attempt>, a: Attempt, windowMs: int,
    e: Envelope, since: int)
    requires Agrees(kindOf, canon, attempts, windowMs, e, since)
    ensures Agrees(kindOf, canon, attempts + [a], windowMs, e, since)
  {
    hide AdmitRun, StoreRun, Reaching, Admit, Passes, AdmittedSince, AcceptedSince, Checked;
    var (seen, admitted) := AdmitRun(kindOf, canon, attempts, windowMs);
    var calls := Reaching(kindOf, canon, attempts);
    var c := Call(Key(a.e.caller.ura, a.e.ability, a.e.nonce), a.now);
    AdmitRunSnoc(kindOf, canon, attempts, a, windowMs);
    ReachingSnoc(kindOf, canon, attempts, a);
    AdmitIsChecked(kindOf, canon, seen, windowMs, a);
    AttemptAdded(attempts, admitted, a, Admit(kindOf, canon, seen, windowMs, a.e, a.c, a.now).1.None?, e, since);
    if Passes(kindOf, canon, a.e, a.c) {
      StoreRunSnoc(calls, c, windowMs);
      CallAdded(calls, StoreRun(calls, windowMs).1, c, Checked(seen, windowMs, c.key, c.now).1, e, since);
    } else {
      assert calls + [] == calls;
    }
  }

  lemma {:induction false} RunIsStoreRun(
    kindOf: Identity -> Option<byte>, canon: Bytes -> Option<Bytes>, attempts: seq<Attempt>, windowMs: int, e: Envelope, since: int)
    ensures Agrees(kindOf, canon, attempts, windowMs, e, since)
  {
    if attempts != [] {
      var n := |attempts| - 1;
      hide Agrees;
      RunIsStoreRun(kindOf, canon, attempts[..n], windowMs, e, since);
      AgreesSnoc(kindOf, canon, attempts[..n], attempts[n], windowMs, e, since);
      assert attempts == attempts[..n] + [attempts[n]];
    }
  }

  lemma LastCallExactly(calls: seq<Call>, c: Call, windowMs: int, e: Envelope)
    requires WindowSafe(Times(calls + [c]), windowMs) && c.key == Key(e.caller.ura, e.ability, e.nonce)
    ensures Checked(StoreRun(calls, windowMs).0, windowMs, c.key, c.now).1
        <==> !AcceptedSince(calls, StoreRun(calls, windowMs).1, e, c.now - windowMs)
  {
    assert (calls + [c])[..|calls|] == calls;
    SafePrefix(calls + [c], |calls|, windowMs);
    SafeHistoryAgrees(calls, windowMs);
    StoreTracks(calls, windowMs);
    LiveIsReplayed(calls, windowMs, StoreRun(calls, windowMs).0, c);
    hide WindowSafe, Tracks, StoreRun;
  }

  /** Over any history whose store calls are window safe, the next attempt is
      admitted if and only if it passes every check and no attempt with its caller,
      ability and nonce was admitted within the window. */
  lemma NextAdmittedExactly(
    kindOf: Identity -> Option<byte>, canon: Bytes -> Option<Bytes>, attempts: seq<Attempt>, a: Attempt, windowMs: int)
    requires WindowSafe(Times(Reaching(kindOf, canon, attempts + [a])), windowMs)
    ensures
      AdmitRun(kindOf, canon, attempts + [a], windowMs).1[|attempts|] <==>
        (Passes(kindOf, canon, a.e, a.c)
         && !AdmittedSince(attempts, AdmitRun(kindOf, canon, attempts, windowMs).1, a.e, a.now - windowMs))
  {
    assert (attempts + [a])[..|attempts|] == attempts;
    RunIsStoreRun(kindOf, canon, attempts, windowMs, a.e, a.now - windowMs);
    var before := AdmitRun(kindOf, canon, attempts, windowMs);
    AdmitIsChecked(kindOf, canon, before.0, windowMs, a);
    hide Admit, AdmittedSince, AcceptedSince, Checked, WindowSafe, Passes;
    if Passes(kindOf, canon, a.e, a.c) {
      LastCallExactly(Reaching(kindOf, canon, attempts), Call(Key(a.e.caller.ura, a.e.ability, a.e.nonce), a.now), windowMs, a.e);
    }
  }
}
