/** Exporting a published receipt and importing it again
    (axon/invocation/bundle.go). */
module BundleRoundTrip {
  import opened Wrappers
  import opened ByteStrings
  import opened Canonical
  import opened TextEncodings
  import opened Bundle

  // ---- Pieces ----

  lemma Hash32RoundTrip(h: Hash)
    ensures Hex32(Hex(h)) == Some(h)
  {
    HexRoundTrip(h);
  }

  lemma NonceRoundTrip(n: Nonce)
    ensures Hex16(Hex(n)) == Some(n)
  {
    HexRoundTrip(n);
  }

  lemma {:induction false} RefsRoundTrip(refs: seq<ReceiptRef>)
    ensures ImportRefs(ExportRefs(refs)) == Some(refs)
  {
    hide Hex, Hex32;
    if refs != [] {
      var js := ExportRefs(refs);
      assert js[0] == ExportRef(refs[0]) && js[1..] == ExportRefs(refs[1..]);
      Hash32RoundTrip(refs[0].hash);
      RefsRoundTrip(refs[1..]);
      assert refs == [refs[0]] + refs[1..];
    }
  }

  lemma CausalRoundTrip(c: Causal)
    ensures ImportCausal(ExportCausal(c)) == Some(c)
  {
    hide Hex, Hex32, ExportRefs, ImportRefs;
    match c
    case CausalScalar(ref) => Hash32RoundTrip(ref.hash);
    case CausalList(refs) => RefsRoundTrip(refs);
    case CausalMerkle(root, _) => Hash32RoundTrip(root);
    case CausalNone =>
  }

  lemma EntityRoundTrip(e: EntityRef)
    requires 1 <= e.kind <= 7
    ensures ImportEntity(ExportEntity(e)) == if KnownProfile(e.profile) then Some(e) else None
  {
    hide KnownProfile;
  }

  lemma UsageRoundTrip(u: Usage)
    ensures ImportUsage(ExportUsage(u)) == Some(u)
  {
    DecimalBijection(Decimal(u.tokensIn), u.tokensIn);
    DecimalBijection(Decimal(u.tokensOut), u.tokensOut);
    DecimalBijection(Decimal(u.durationMs), u.durationMs);
    DecimalBijection(Decimal(u.externalCalls), u.externalCalls);
    hide Decimal, DecimalU64;
  }

  lemma HexNotBlank(b: Bytes)
    ensures Blank(Hex(b)) <==> b == []
  {
    if b != [] {
      assert Hex(b)[0] == HexDigit(b[0] as int / 16);
    }
  }

  // ---- What importing makes of an authority and a proof signature ----

  function StrictIdentity(i: Identity): Identity {
    Identity(i.ura, STRICT)
  }

  function StrictEvidence(e: Evidence): Evidence {
    match e
    case Delegation(issuer, scopes, audience, issuedAt, expiresAt, signature) =>
      Delegation(StrictIdentity(issuer), scopes, audience, issuedAt, expiresAt, signature)
    case Session(issuer, sessionId, scopes, audiences, issuedAt, expiresAt, signature) =>
      Session(StrictIdentity(issuer), sessionId, scopes, audiences, issuedAt, expiresAt, signature)
    case _ => e
  }

  /** Every profile of an authority replaced by the strict one. */
  function StrictForm(a: Authority): Authority {
    match a
    case Bootstrap(_, _, _) => a
    case Binding(authority, relation, evidence) => Binding(StrictIdentity(authority), relation, StrictEvidence(evidence))
  }

  lemma AuthorityRoundTrip(caller: Identity, subject: Identity, ability: Bytes, a: Authority)
    requires AuthorityMatches(caller, subject, ability, a) && AuthorityComplete(a)
    ensures ExportAuthority(a).Some? && ImportAuthority(ExportAuthority(a).value) == Some(StrictForm(a))
  {
    hide Hex, Unhex, Blank;
    if a.Binding? && a.evidence.Delegation? {
      HexRoundTrip(a.evidence.signature);
    } else if a.Binding? && a.evidence.Session? {
      HexRoundTrip(a.evidence.signature);
    }
  }

  /** A signature without bytes is indistinguishable from none. */
  function NonEmpty(s: Option<Signature>): Option<Signature> {
    if s.Some? && s.value.signature == [] then None else s
  }

  lemma SignatureRoundTrip(s: Option<Signature>)
    requires s.Some?
    ensures ImportSignature(Hex(s.value.signature), s.value.algorithm, s.value.keyIdHint) == Some(NonEmpty(s))
  {
    HexNotBlank(s.value.signature);
    HexRoundTrip(s.value.signature);
    hide Hex, Unhex, Blank;
  }

  lemma NoSignatureRoundTrip()
    ensures ImportSignature([], [], []) == Some(None)
  {
  }

  function PortableProof(p: AuthorityProof): AuthorityProof
    requires p.binding.Some?
  {
    p.(binding := Some(StrictForm(p.binding.value)), signature := NonEmpty(p.signature))
  }

  lemma ProofRoundTrip(caller: Identity, subject: Identity, ability: Bytes, p: AuthorityProof)
    requires p.binding.Some? && p.issuer.Some?
    requires AuthorityMatches(caller, subject, ability, p.binding.value) && AuthorityComplete(p.binding.value)
    ensures ExportProof(p).Some?
    ensures ImportProof(ExportProof(p).value) ==
      if KnownProfile(p.issuer.value.profile) then Some(PortableProof(p)) else None
  {
    AuthorityRoundTrip(caller, subject, ability, p.binding.value);
    HexRoundTrip(p.payload);
    Hash32RoundTrip(p.proofHash);
    NoSignatureRoundTrip();
    hide Hex, Unhex, Hex32, ExportAuthority, ImportAuthority, StrictForm, ImportSignature, NonEmpty, KnownProfile,
         AuthorityMatches, AuthorityComplete;
    if p.signature.Some? {
      SignatureRoundTrip(p.signature);
    } else {
      NoneStaysNone();
    }
  }

  lemma NoneStaysNone()
    ensures NonEmpty(None) == None
  {
  }

  lemma HostedRoundTrip(h: Option<Hosted>)
    ensures ImportHosted(ExportSigner(h), ExportAttestation(h)) ==
      if h.None? || KnownProfile(h.value.signer.profile) then Some(h) else None
  {
    if h.Some? {
      HexRoundTrip(h.value.attestation);
    }
    hide Hex, Unhex, KnownProfile;
  }

  // ---- Facts, body, record ----

  function PortableFacts(f: ProofFacts): ProofFacts
    requires f.proof.binding.Some?
  {
    f.(proof := PortableProof(f.proof))
  }

  lemma FactsRoundTrip(caller: Identity, subject: Identity, ability: Bytes, f: ProofFacts)
    requires f.complete && f.subjectRef.Some? && 1 <= f.subjectRef.value.kind <= 7
    requires f.proof.binding.Some? && f.proof.issuer.Some?
    requires AuthorityMatches(caller, subject, ability, f.proof.binding.value) && AuthorityComplete(f.proof.binding.value)
    ensures ExportFacts(f).Some?
    ensures ImportFacts(ExportFacts(f).value) ==
      if KnownProfile(f.subjectRef.value.profile) && KnownProfile(f.proof.issuer.value.profile)
      then Some(PortableFacts(f)) else None
  {
    ProofRoundTrip(caller, subject, ability, f.proof);
    EntityRoundTrip(f.subjectRef.value);
    Hash32RoundTrip(f.schemaHash);
    Hash32RoundTrip(f.implHash);
    Hash32RoundTrip(f.inputHash);
    Hash32RoundTrip(f.outputHash);
    RefsRoundTrip(f.parents);
    hide Hex, Hex32, ExportProof, ImportProof, ExportEntity, ImportEntity, ExportRefs, ImportRefs, PortableProof,
         KnownProfile, AuthorityMatches, AuthorityComplete;
  }

  function PortableBody(b: ReceiptBody): ReceiptBody
    requires b.facts.proof.binding.Some?
  {
    b.(authority := StrictForm(b.authority), facts := PortableFacts(b.facts))
  }

  predicate KnownProfiles(b: ReceiptBody) {
    && KnownProfile(b.caller.profile) && KnownProfile(b.callee.profile) && KnownProfile(b.subject.profile)
    && (b.hosted.Some? ==> KnownProfile(b.hosted.value.signer.profile))
  }

  lemma HeadRoundTrip(b: ReceiptBody, causal: Causal, hosted: Option<Hosted>, authority: Authority, usage: Usage, facts: ProofFacts)
    ensures ImportHead(ExportHead(b), causal, hosted, authority, usage, facts) ==
      if KnownProfile(b.caller.profile) && KnownProfile(b.callee.profile) && KnownProfile(b.subject.profile)
      then Some(b.(causal := causal, hosted := hosted, authority := authority, usage := usage, facts := facts))
      else None
  {
    Hash32RoundTrip(b.prevHash);
    Hash32RoundTrip(b.payloadDigest);
    NonceRoundTrip(b.nonce);
    hide Hex, Hex32, Hex16, KnownProfile;
  }

  /** What the provider checked before it published a receipt. */
  predicate Published(sha: Bytes -> Hash, versionOf: Bytes -> Option<Bytes>, kindOf: Identity -> Option<byte>, r: Record) {
    && Accepts(sha, versionOf, kindOf, r)
    && AuthorityComplete(r.body.authority) && r.body.facts.complete
    && (kindOf(r.body.subject).Some? ==> 1 <= kindOf(r.body.subject).value <= 7)
  }

  lemma PublishedShape(sha: Bytes -> Hash, versionOf: Bytes -> Option<Bytes>, kindOf: Identity -> Option<byte>, r: Record)
    requires Published(sha, versionOf, kindOf, r)
    ensures
      var b := r.body;
      && b.facts.complete && b.facts.subjectRef.Some? && 1 <= b.facts.subjectRef.value.kind <= 7
      && b.facts.subjectRef.value.profile == b.subject.profile
      && b.facts.proof.binding == Some(b.authority) && b.facts.proof.issuer == Some(b.callee)
      && AuthorityMatches(b.caller, b.subject, b.ability, b.authority) && AuthorityComplete(b.authority)
  {
    hide AuthorityMatches, AuthorityComplete, Blank, IsZero, ExpectedProofHash;
  }

  lemma ExportSucceeds(r: Record)
    requires ExportAuthority(r.body.authority).Some? && ExportFacts(r.body.facts).Some?
    ensures Export(r).Some? && Export(r).value.causal == ExportCausal(r.body.causal)
    ensures Export(r).value.head == ExportHead(r.body) && Export(r).value.usage == ExportUsage(r.body.usage)
    ensures Some(Export(r).value.authority) == ExportAuthority(r.body.authority)
    ensures Some(Export(r).value.facts) == ExportFacts(r.body.facts)
    ensures Export(r).value.signer == ExportSigner(r.body.hosted)
    ensures Export(r).value.attestationHex == ExportAttestation(r.body.hosted)
  {
    hide ExportAuthority, ExportFacts, ExportCausal, ExportHead, ExportUsage, Hex, ExportSigner, ExportAttestation;
  }

  lemma BodyRoundTrip(sha: Bytes -> Hash, versionOf: Bytes -> Option<Bytes>, kindOf: Identity -> Option<byte>, r: Record)
    requires Published(sha, versionOf, kindOf, r)
    ensures Export(r).Some? && r.body.facts.proof.binding.Some?
    ensures ImportBody(Export(r).value) == if KnownProfiles(r.body) then Some(PortableBody(r.body)) else None
  {
    PublishedShape(sha, versionOf, kindOf, r);
    hide Published, KnownProfile;
    var b := r.body;
    AuthorityRoundTrip(b.caller, b.subject, b.ability, b.authority);
    FactsRoundTrip(b.caller, b.subject, b.ability, b.facts);
    CausalRoundTrip(b.causal);
    UsageRoundTrip(b.usage);
    HostedRoundTrip(b.hosted);
    ExportSucceeds(r);
    HeadRoundTrip(b, b.causal, b.hosted, StrictForm(b.authority), b.usage, PortableFacts(b.facts));
    hide Export, ExportAuthority, ImportAuthority, ExportFacts, ImportFacts, ExportCausal, ImportCausal,
         ExportUsage, ImportUsage, ImportHosted, ExportSigner, ExportAttestation, ExportHead, ImportHead,
         StrictForm, PortableFacts, AuthorityMatches, AuthorityComplete;
  }

  /** The receipts a bundle can carry: strict authority identities and no proof
      signature that is there but empty. */
  predicate Portable(r: Record) {
    KnownProfiles(r.body) && StrictForm(r.body.authority) == r.body.authority
    && NonEmpty(r.body.facts.proof.signature) == r.body.facts.proof.signature
  }

  lemma DecodedRoundTrip(sha: Bytes -> Hash, versionOf: Bytes -> Option<Bytes>, kindOf: Identity -> Option<byte>, r: Record)
    requires Published(sha, versionOf, kindOf, r)
    ensures Export(r).Some? && r.body.facts.proof.binding.Some?
    ensures Decoded(Export(r).value) ==
      if KnownProfiles(r.body) then Some(r.(body := PortableBody(r.body))) else None
  {
    BodyRoundTrip(sha, versionOf, kindOf, r);
    HexRoundTrip(r.payload);
    HexRoundTrip(r.calleeSignature.signature);
    Hash32RoundTrip(r.selfHash);
    ExportRest(r);
    hide Export, ImportBody, Hex, Unhex, Hex32, Published, KnownProfiles, PortableBody;
  }

  lemma ExportRest(r: Record)
    requires Export(r).Some?
    ensures
      var j := Export(r).value;
      && j.payloadHex == Hex(r.payload) && j.signatureHex == Hex(r.calleeSignature.signature)
      && j.signatureAlg == r.calleeSignature.algorithm && j.keyIdHint == r.calleeSignature.keyIdHint
      && j.selfHashHex == Hex(r.selfHash) && j.contentType == r.contentType && j.childId == r.childId
  {
    hide ExportAuthority, ExportFacts, ExportCausal, ExportHead, ExportUsage, Hex, ExportSigner, ExportAttestation;
  }

  lemma PortableIsFixed(b: ReceiptBody)
    requires b.facts.proof.binding == Some(b.authority)
    ensures PortableBody(b) == b <==>
      StrictForm(b.authority) == b.authority && NonEmpty(b.facts.proof.signature) == b.facts.proof.signature
  {
    hide StrictForm, NonEmpty;
  }

  /** Any published receipt exports, and importing the export gives the receipt
      back if and only if it is portable. */
  lemma ExportImport(sha: Bytes -> Hash, versionOf: Bytes -> Option<Bytes>, kindOf: Identity -> Option<byte>, r: Record)
    requires Published(sha, versionOf, kindOf, r)
    ensures Export(r).Some?
    ensures Import(sha, versionOf, kindOf, Export(r).value) == Some(r) <==> Portable(r)
  {
    PublishedShape(sha, versionOf, kindOf, r);
    DecodedRoundTrip(sha, versionOf, kindOf, r);
    PortableIsFixed(r.body);
    hide Export, Decoded, PortableBody, KnownProfiles, StrictForm, NonEmpty, Accepts, AuthorityMatches,
         AuthorityComplete;
  }

  /** The signed bytes and the self hash of a portable receipt are untouched. */
  lemma SignedBytesSurvive(sha: Bytes -> Hash, versionOf: Bytes -> Option<Bytes>, kindOf: Identity -> Option<byte>, r: Record)
    requires Published(sha, versionOf, kindOf, r) && Portable(r)
    ensures Export(r).Some?
    ensures
      var back := Import(sha, versionOf, kindOf, Export(r).value);
      && back.Some? && back.value.selfHash == r.selfHash
      && CanonicalReceiptBytes(sha, back.value.body) == CanonicalReceiptBytes(sha, r.body)
  {
    ExportImport(sha, versionOf, kindOf, r);
    hide Export, Import, Published, Portable, CanonicalReceiptBytes;
  }
}
