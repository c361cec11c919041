/** What importing a wire receipt guarantees, and what its fields say
    (axon/invocation/bundle.go). */
module BundleChecks {
  import opened Wrappers
  import opened ByteStrings
  import opened Canonical
  import opened TextEncodings
  import opened Bundle

  // ---- Import refuses what does not hang together ----

  /** An imported record is consistent in itself: payload, digests, authority proof,
      subject, ability version and parents all agree. */
  lemma ImportedIsConsistent(
    sha: Bytes -> Hash, versionOf: Bytes -> Option<Bytes>, kindOf: Identity -> Option<byte>, j: ReceiptJson)
    requires Import(sha, versionOf, kindOf, j).Some?
    ensures
      var r := Import(sha, versionOf, kindOf, j).value;
      var b, f := r.body, r.body.facts;
      && b.payloadDigest == sha(r.payload) && f.outputHash == sha(r.payload)
      && f.proof.binding == Some(b.authority) && f.proof.issuer == Some(b.callee)
      && f.proof.proofHash == (if f.proof.payload != [] then sha(f.proof.payload) else sha(AuthorityBytes(b.authority)))
      && f.subjectRef.Some? && f.subjectRef.value.ura == b.subject.ura && f.subjectRef.value.profile == b.subject.profile
      && Some(f.subjectRef.value.kind) == kindOf(b.subject)
      && versionOf(b.ability) == Some(f.descriptorVersion)
      && (b.causal.CausalScalar? ==> f.parents == [b.causal.ref])
      && (b.causal.CausalList? ==> f.parents == b.causal.refs)
      && (b.causal.CausalNone? || b.causal.CausalMerkle? ==> f.parents == [])
      && |r.calleeSignature.signature| == 64
  {
    hide Decoded, AuthorityBytes, AuthorityMatches, Blank, IsZero;
  }

  /** The authority of an imported or encoded receipt is tied to its caller, subject
      and ability. */
  lemma AuthorityIsTied(caller: Identity, subject: Identity, ability: Bytes, a: Authority)
    requires AuthorityMatches(caller, subject, ability, a)
    ensures a.Bootstrap? ==> a.principal == caller.ura && a.ability == ability
    ensures a.Binding? ==>
      || (a.relation.SelfRelation? && a.evidence.IdentityEvidence? && a.authority.ura == caller.ura)
      || (a.relation.DelegatedBy? && a.evidence.Delegation? && a.evidence.scopes != [] && a.evidence.signature != [])
      || (a.relation.SessionOf? && a.evidence.Session? && a.authority.ura == subject.ura
          && a.evidence.scopes != [] && a.evidence.audiences != [] && a.evidence.signature != [])
  {
    hide Blank;
  }

  lemma ImportedAuthorityIsTied(
    sha: Bytes -> Hash, versionOf: Bytes -> Option<Bytes>, kindOf: Identity -> Option<byte>, j: ReceiptJson)
    requires Import(sha, versionOf, kindOf, j).Some?
    ensures
      var b := Import(sha, versionOf, kindOf, j).value.body;
      && (b.authority.Bootstrap? ==> b.authority.principal == b.caller.ura && b.authority.ability == b.ability)
      && (b.authority.Binding? && b.authority.relation.SelfRelation? ==> b.authority.authority.ura == b.caller.ura)
      && (b.authority.Binding? && b.authority.relation.SessionOf? ==> b.authority.authority.ura == b.subject.ura)
  {
    var b := Import(sha, versionOf, kindOf, j).value.body;
    hide Decoded, AuthorityMatches, ProofMatches, FactsBound, Blank;
    AuthorityIsTied(b.caller, b.subject, b.ability, b.authority);
  }

  predicate HasBits(h: Hash) {
    exists i :: 0 <= i < 32 && h[i] != 0
  }

  /** An encoder that does not refuse a receipt wrote down the same ties. */
  lemma EncodedIsComplete(sha: Bytes -> Hash, r: ReceiptBody)
    requires CanonicalReceiptBytes(sha, r).Some?
    ensures AuthorityMatches(r.caller, r.subject, r.ability, r.authority)
    ensures
      var f := r.facts;
      && f.complete && f.subjectRef.Some? && f.proof.binding.Some? && f.proof.issuer.Some?
      && f.proof.proofHash == (if f.proof.payload != [] then sha(f.proof.payload) else sha(AuthorityBytes(f.proof.binding.value)))
      && HasBits(f.schemaHash) && HasBits(f.implHash) && HasBits(f.inputHash) && HasBits(f.outputHash)
      && (forall k :: 0 <= k < |f.parents| ==> HasBits(f.parents[k].hash))
  {
    hide SignedBytes, AuthorityBytes, AuthorityComplete, Blank;
  }

  lemma BodyIgnoresPayload(j: ReceiptJson, payloadHex: Bytes)
    ensures ImportBody(j.(payloadHex := payloadHex)) == ImportBody(j)
  {
  }

  /** A changed payload is refused, whatever else the wire receipt says. */
  lemma ChangedPayloadRefused(
    sha: Bytes -> Hash, versionOf: Bytes -> Option<Bytes>, kindOf: Identity -> Option<byte>, j: ReceiptJson, payload: Bytes)
    requires Import(sha, versionOf, kindOf, j).Some?
    requires sha(payload) != sha(Import(sha, versionOf, kindOf, j).value.payload)
    ensures Import(sha, versionOf, kindOf, j.(payloadHex := Hex(payload))).None?
  {
    HexRoundTrip(payload);
    var changed := j.(payloadHex := Hex(payload));
    BodyIgnoresPayload(j, Hex(payload));
    hide ImportBody, AuthorityMatches, ProofMatches, FactsBound, Hex, Unhex, Hex32;
  }

  // ---- Names on the wire ----

  lemma ConstantsSpelled()
    ensures Spells(STRICT, "axon-strict-v2") && Spells(WEB_SAFE, "web-safe-v2") && Spells(ED25519, "ed25519")
  {
  }

  /** The two profiles that travel. */
  lemma ProfilesExactly(profile: Bytes)
    ensures KnownProfile(profile) <==> Spells(profile, "axon-strict-v2") || Spells(profile, "web-safe-v2")
  {
    ConstantsSpelled();
    if Spells(profile, "axon-strict-v2") {
      assert profile == STRICT;
    }
    if Spells(profile, "web-safe-v2") {
      assert profile == WEB_SAFE;
    }
  }

  /** Each field of the head travels under its own name, digests in hexadecimal. */
  lemma HeadOnTheWire(r: ReceiptBody)
    ensures
      var h := ExportHead(r);
      && h.index == r.index && h.invocationId == r.invocationId && h.receiptType == r.receiptType && h.state == r.state
      && h.timestamp == r.timestamp && h.reason == r.reason && h.cleanupComplete == r.cleanupComplete
      && h.caller == r.caller && h.callee == r.callee && h.subject == r.subject && h.ability == r.ability
      && Unhex(h.prevHex) == Some(r.prevHash) && Unhex(h.digestHex) == Some(r.payloadDigest) && Unhex(h.nonceHex) == Some(r.nonce)
  {
    HexRoundTrip(r.prevHash);
    HexRoundTrip(r.payloadDigest);
    HexRoundTrip(r.nonce);
    hide Hex, Unhex;
  }

  /** The causal form, the authority form and the entity kind are named by these words. */
  lemma FormsOnTheWire(c: Causal, a: Authority)
    ensures c.CausalNone? <==> ExportCausal(c).form == "none"
    ensures c.CausalScalar? <==> ExportCausal(c).form == "scalar"
    ensures c.CausalList? <==> ExportCausal(c).form == "list"
    ensures c.CausalMerkle? <==> ExportCausal(c).form == "merkle"
    ensures a.Bootstrap? ==> ExportAuthority(a) == Some(BootstrapForm(a.principal, a.realm, a.ability))
    ensures a.Binding? && ExportAuthority(a).Some? ==>
      var w := ExportAuthority(a).value;
      && w.AuthorityForm? && w.authorityUra == a.authority.ura
      && (w.form == "self+identity" <==> a.relation.SelfRelation? && a.evidence.IdentityEvidence?)
      && (w.form == "delegated_by+delegation" <==> a.relation.DelegatedBy? && a.evidence.Delegation?)
      && (w.form == "session_of+session" <==> a.relation.SessionOf? && a.evidence.Session?)
  {
    hide Hex, ExportRefs, Blank;
    assert "none"[0] == 'n' && "scalar"[0] == 's' && "list"[0] == 'l' && "merkle"[0] == 'm';
    assert "self+identity"[2] == 'l' && "delegated_by+delegation"[2] == 'l' && "session_of+session"[2] == 's';
    assert "self+identity"[0] == 's' && "delegated_by+delegation"[0] == 'd';
  }

  lemma KindsOnTheWire()
    ensures KindName(1) == "resource" && KindName(2) == "agent" && KindName(3) == "ability" && KindName(4) == "session"
    ensures KindName(5) == "continuation" && KindName(6) == "state_object" && KindName(7) == "device"
  {
  }

  /** Usage counters travel as decimal numbers, each under its own name. */
  lemma UsageOnTheWire(u: Usage)
    ensures
      var w := ExportUsage(u);
      && DecimalU64(w.tokensIn) == Some(u.tokensIn) && DecimalU64(w.tokensOut) == Some(u.tokensOut)
      && DecimalU64(w.durationMs) == Some(u.durationMs) && DecimalU64(w.externalCalls) == Some(u.externalCalls)
  {
    DecimalBijection(Decimal(u.tokensIn), u.tokensIn);
    DecimalBijection(Decimal(u.tokensOut), u.tokensOut);
    DecimalBijection(Decimal(u.durationMs), u.durationMs);
    DecimalBijection(Decimal(u.externalCalls), u.externalCalls);
  }
}
