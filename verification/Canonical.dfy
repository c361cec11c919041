/** The canonical byte encoders of axon/invocation/axiom.go. Go's discriminated
    structs (a tag plus one reference per arm) are datatypes here. */
module Canonical {
  import opened Wrappers
  import opened ByteStrings


  const ZERO_16: Bytes := [0, 0, 0, 0, 0, 0, 0, 0, 0, 0, 0, 0, 0, 0, 0, 0]

  type Hash = h: Bytes | |h| == 32 witness ZERO_16 + ZERO_16
  type Nonce = n: Bytes | |n| == 16 witness ZERO_16

  /** zeroHash32. */
  const ZERO_HASH: Hash := ZERO_16 + ZERO_16

  datatype Identity = Identity(ura: Bytes, profile: Bytes)

  datatype EntityRef = EntityRef(kind: byte, ura: Bytes, profile: Bytes)

  datatype ReceiptRef = ReceiptRef(hash: Hash, ura: Bytes)

  datatype Causal =
    | CausalNone
    | CausalScalar(ref: ReceiptRef)
    | CausalList(refs: seq<ReceiptRef>)
    | CausalMerkle(root: Hash, proof: Bytes)

  datatype Relation = SelfRelation | DelegatedBy | SessionOf | CredentialOf {
    function Tag(): byte {
      match this
      case SelfRelation => 1
      case DelegatedBy => 2
      case SessionOf => 3
      case CredentialOf => 4
    }
  }

  datatype Evidence =
    | IdentityEvidence
    | Delegation(
        issuer: Identity, scopes: seq<Bytes>, audience: Bytes,
        issuedAt: I64, expiresAt: I64, signature: Bytes)
    | Session(
        issuer: Identity, sessionId: Bytes, scopes: seq<Bytes>, audiences: seq<Bytes>,
        issuedAt: I64, expiresAt: I64, signature: Bytes)
    | Attestation
  {
    function Tag(): byte {
      match this
      case IdentityEvidence => 1
      case Delegation(_, _, _, _, _, _) => 2
      case Session(_, _, _, _, _, _, _) => 3
      case Attestation => 4
    }
  }

  /** The binding slot: an authority relation, or the admission-plane bootstrap. */
  datatype Authority =
    | Binding(authority: Identity, relation: Relation, evidence: Evidence)
    | Bootstrap(principal: Bytes, realm: Bytes, ability: Bytes)

  datatype Signature = Signature(algorithm: Bytes, signature: Bytes, keyIdHint: Bytes)

  datatype AuthorityProof = AuthorityProof(
    proofType: Bytes, binding: Option<Authority>, payload: Bytes, proofHash: Hash,
    issuer: Option<Identity>, signature: Option<Signature>, admissionHook: Bytes)

  datatype ProofFacts = ProofFacts(
    subjectRef: Option<EntityRef>, descriptorVersion: Bytes, schemaHash: Hash, implHash: Hash,
    runtimeEnv: Bytes, proof: AuthorityProof, inputHash: Hash, outputHash: Hash,
    parents: seq<ReceiptRef>, complete: bool)

  datatype Usage = Usage(tokensIn: U64, tokensOut: U64, durationMs: U64, externalCalls: U32)

  datatype Hosted = Hosted(signer: Identity, attestation: Bytes)

  datatype ReceiptBody = ReceiptBody(
    index: U64, invocationId: Bytes, receiptType: Bytes, state: Bytes, timestamp: I64,
    prevHash: Hash, payloadDigest: Hash, reason: Bytes, cleanupComplete: bool,
    caller: Identity, callee: Identity, subject: Identity, nonce: Nonce, causal: Causal,
    hosted: Option<Hosted>, ability: Bytes, authority: Authority, usage: Usage, facts: ProofFacts)

  // ---- Encoders ----

  function IdentitySegments(i: Identity): seq<Segment> {
    [Block(i.ura), Block(i.profile)]
  }

  function Blocks(xs: seq<Bytes>): seq<Segment> {
    seq(|xs|, i requires 0 <= i < |xs| => Block(xs[i]))
  }

  function PutStrings(xs: seq<Bytes>): Bytes {
    PutU32(|xs|) + Flatten(Blocks(xs))
  }

  function RefSegments(refs: seq<ReceiptRef>): (s: seq<Segment>)
    ensures |s| == 2 * |refs|
    ensures forall i :: 0 <= i < |refs| ==> s[2 * i] == Fixed(refs[i].hash) && s[2 * i + 1] == Block(refs[i].ura)
  {
    if refs == [] then []
    else [Fixed(refs[0].hash), Block(refs[0].ura)] + RefSegments(refs[1..])
  }

  function PutRefs(refs: seq<ReceiptRef>): Bytes {
    PutU32(|refs|) + Flatten(RefSegments(refs))
  }

  /** The evidence payload with its signature. */
  function EvidenceBytes(e: Evidence): Bytes {
    match e
    case IdentityEvidence => []
    case Delegation(issuer, scopes, audience, issuedAt, expiresAt, signature) =>
      Flatten(IdentitySegments(issuer)) + (PutStrings(scopes)
      + Flatten([Block(audience), Fixed(PutI64(issuedAt)), Fixed(PutI64(expiresAt)), Block(signature)]))
    case Session(issuer, sessionId, scopes, audiences, issuedAt, expiresAt, signature) =>
      Flatten([Block(issuer.ura), Block(issuer.profile), Block(sessionId)]) + (PutStrings(scopes)
      + (PutStrings(audiences)
         + Flatten([Fixed(PutI64(issuedAt)), Fixed(PutI64(expiresAt)), Block(signature)])))
    case Attestation => []
  }

  function BindingSegments(authority: Identity, relation: Relation, evidence: Evidence): seq<Segment> {
    [Block(authority.ura), Block(authority.profile), Fixed([relation.Tag()]), Fixed([evidence.Tag()])]
  }

  const BOOTSTRAP_TAG: byte := 0x06

  /** CanonicalAuthorityOrBootstrapBytes. */
  function AuthorityBytes(a: Authority): Bytes {
    match a
    case Binding(authority, relation, evidence) =>
      Flatten(BindingSegments(authority, relation, evidence)) + EvidenceBytes(evidence)
    case Bootstrap(principal, realm, ability) =>
      Flatten([Fixed([BOOTSTRAP_TAG]), Block(principal), Block(realm), Block(ability)])
  }

  function CausalBytes(c: Causal): Bytes {
    match c
    case CausalNone => [0]
    case CausalScalar(ref) => [1] + Flatten([Fixed(ref.hash), Block(ref.ura)])
    case CausalList(refs) => [2] + PutRefs(refs)
    case CausalMerkle(root, proof) => [3] + Flatten([Fixed(root), Block(proof)])
  }

  function EntityBytes(e: EntityRef): Bytes {
    Flatten([Fixed([e.kind]), Block(e.ura), Block(e.profile)])
  }

  /** An optional part behind a 0x00 or 0x01 marker. */
  function PutMarked(part: Option<seq<Segment>>): Bytes {
    if part.None? then [0] else [1] + Flatten(part.value)
  }

  function BindingPart(b: Option<Authority>): Option<seq<Segment>> {
    if b.None? then None else Some([Block(AuthorityBytes(b.value))])
  }

  function IssuerPart(i: Option<Identity>): Option<seq<Segment>> {
    if i.None? then None else Some(IdentitySegments(i.value))
  }

  function SignaturePart(s: Option<Signature>): Option<seq<Segment>> {
    if s.None? then None
    else Some([Block(s.value.algorithm), Block(s.value.signature), Block(s.value.keyIdHint)])
  }

  /** CanonicalAuthorityProofBytes. */
  function ProofBytes(p: AuthorityProof): Bytes {
    PutBlock(p.proofType) + (PutMarked(BindingPart(p.binding))
    + (Flatten([Block(p.payload), Fixed(p.proofHash)]) + (PutMarked(IssuerPart(p.issuer))
       + (PutMarked(SignaturePart(p.signature)) + PutBlock(p.admissionHook)))))
  }

  function SubjectPart(e: Option<EntityRef>): Option<seq<Segment>> {
    if e.None? then None else Some([Block(EntityBytes(e.value))])
  }

  function FactSegments(f: ProofFacts): seq<Segment> {
    [Block(f.descriptorVersion), Fixed(f.schemaHash), Fixed(f.implHash), Block(f.runtimeEnv),
     Block(ProofBytes(f.proof)), Fixed(f.inputHash), Fixed(f.outputHash)]
  }

  /** TryCanonicalReceiptProofFacts, past its checks. */
  function FactsBytes(f: ProofFacts): Bytes {
    PutMarked(SubjectPart(f.subjectRef)) + (Flatten(FactSegments(f)) + PutRefs(f.parents))
  }

  function HeadSegments(r: ReceiptBody): seq<Segment> {
    [Fixed(PutU64(r.index)), Block(r.invocationId), Block(r.receiptType), Block(r.state),
     Fixed(PutI64(r.timestamp)), Fixed(r.prevHash),
     Block(r.caller.ura), Block(r.caller.profile), Block(r.callee.ura), Block(r.callee.profile),
     Block(r.subject.ura), Block(r.subject.profile),
     Fixed(r.nonce), Block(CausalBytes(r.causal)), Fixed(r.payloadDigest), Block(r.reason),
     Fixed([if r.cleanupComplete then 1 else 0])]
  }

  function HostedPart(h: Option<Hosted>): Option<seq<Segment>> {
    if h.None? then None
    else Some([Block(h.value.signer.ura), Block(h.value.signer.profile), Block(h.value.attestation)])
  }

  function TailSegments(u: Usage, facts: Bytes): seq<Segment> {
    [Fixed(PutU64(u.tokensIn)), Fixed(PutU64(u.tokensOut)), Fixed(PutU64(u.durationMs)),
     Fixed(PutU32(u.externalCalls)), Block(facts)]
  }

  /** CanonicalReceiptBytesWithHosted, past its checks. The authority bytes have
      no length prefix of their own. */
  function SignedBytes(r: ReceiptBody): Bytes {
    Flatten(HeadSegments(r)) + (PutMarked(HostedPart(r.hosted)) + (PutBlock(r.ability)
    + (AuthorityBytes(r.authority) + Flatten(TailSegments(r.usage, FactsBytes(r.facts))))))
  }

  // ---- The checks that make the encoder panic ----

  predicate IsAsciiSpace(b: byte) {
    b == 9 || b == 10 || b == 11 || b == 12 || b == 13 || b == 32
  }

  /** strings.TrimSpace(s) == "". */
  predicate Blank(s: Bytes) {
    forall i :: 0 <= i < |s| ==> IsAsciiSpace(s[i])
  }

  predicate NoneBlank(xs: seq<Bytes>) {
    forall i :: 0 <= i < |xs| ==> !Blank(xs[i])
  }

  predicate IsZero(h: Hash) {
    forall i :: 0 <= i < |h| ==> h[i] == 0
  }

  /** validateAuthorityBinding. */
  predicate AuthorityMatches(caller: Identity, subject: Identity, ability: Bytes, a: Authority) {
    match a
    case Bootstrap(principal, realm, admitted) =>
      principal == caller.ura && admitted == ability && !Blank(realm)
    case Binding(authority, relation, evidence) =>
      match (relation, evidence)
      case (SelfRelation, IdentityEvidence) => !Blank(authority.ura) && authority.ura == caller.ura
      case (DelegatedBy, Delegation(issuer, scopes, audience, _, _, signature)) =>
        !Blank(authority.ura) && !Blank(issuer.ura) && !Blank(audience) && scopes != [] && signature != []
      case (SessionOf, Session(issuer, sessionId, scopes, audiences, _, _, signature)) =>
        !Blank(authority.ura) && authority.ura == subject.ura && !Blank(issuer.ura) && !Blank(sessionId)
        && scopes != [] && audiences != [] && signature != []
      case _ => false
  }

  /** validateCompleteAuthorityOrBootstrap. */
  predicate AuthorityComplete(a: Authority) {
    match a
    case Bootstrap(principal, realm, ability) => !Blank(principal) && !Blank(realm) && !Blank(ability)
    case Binding(authority, relation, evidence) =>
      !Blank(authority.ura) &&
      match (relation, evidence)
      case (SelfRelation, IdentityEvidence) => true
      case (DelegatedBy, Delegation(issuer, scopes, audience, _, _, signature)) =>
        !Blank(issuer.ura) && !Blank(audience) && scopes != []
        && NoneBlank(scopes) && signature != []
      case (SessionOf, Session(issuer, sessionId, scopes, audiences, _, _, signature)) =>
        !Blank(issuer.ura) && !Blank(sessionId) && scopes != [] && audiences != []
        && NoneBlank(scopes)
        && NoneBlank(audiences) && signature != []
      case _ => false
  }

  /** AuthorityProofExpectedHash. */
  function ExpectedProofHash(sha: Bytes -> Hash, p: AuthorityProof): Hash {
    if |p.payload| > 0 then sha(p.payload)
    else if p.binding.Some? then sha(AuthorityBytes(p.binding.value))
    else ZERO_HASH
  }

  /** validateCompleteAuthorityProof. */
  predicate ProofComplete(sha: Bytes -> Hash, p: AuthorityProof) {
    && !Blank(p.proofType)
    && p.binding.Some? && AuthorityComplete(p.binding.value)
    && p.issuer.Some? && !Blank(p.issuer.value.ura)
    && !Blank(p.admissionHook)
    && !IsZero(p.proofHash) && p.proofHash == ExpectedProofHash(sha, p)
  }

  predicate ParentsBound(parents: seq<ReceiptRef>) {
    forall i :: 0 <= i < |parents| ==> !IsZero(parents[i].hash) && !Blank(parents[i].ura)
  }

  /** The complete flag and validateReceiptProofFactsSemantics. */
  predicate FactsComplete(sha: Bytes -> Hash, f: ProofFacts) {
    && f.complete
    && f.subjectRef.Some? && !Blank(f.subjectRef.value.ura)
    && !Blank(f.descriptorVersion) && !Blank(f.runtimeEnv)
    && !IsZero(f.schemaHash) && !IsZero(f.implHash) && !IsZero(f.inputHash) && !IsZero(f.outputHash)
    && ProofComplete(sha, f.proof)
    && ParentsBound(f.parents)
  }

  predicate Encodable(sha: Bytes -> Hash, r: ReceiptBody) {
    AuthorityMatches(r.caller, r.subject, r.ability, r.authority) && FactsComplete(sha, r.facts)
  }

  /** CanonicalReceiptBytesWithHosted; None is the panic. */
  function CanonicalReceiptBytes(sha: Bytes -> Hash, r: ReceiptBody): Option<Bytes> {
    if Encodable(sha, r) then Some(SignedBytes(r)) else None
  }

  // ---- Size conditions ----

  /** Lengths a 4-byte prefix can hold, and for the authority plane a URA whose
      length does not begin with the bootstrap tag. */
  ghost predicate AuthorityFits(a: Authority) {
    match a
    case Bootstrap(principal, realm, ability) =>
      |principal| < TWO_32 && |realm| < TWO_32 && |ability| < TWO_32
    case Binding(authority, relation, evidence) =>
      && |authority.ura| < TWO_32 && |authority.ura| / 0x100_0000 != BOOTSTRAP_TAG as int
      && |authority.profile| < TWO_32
      && EvidenceFits(evidence)
  }

  ghost predicate StringsFit(xs: seq<Bytes>) {
    |xs| < TWO_32 && Sized(Blocks(xs))
  }

  ghost predicate EvidenceFits(e: Evidence) {
    match e
    case Delegation(issuer, scopes, audience, _, _, signature) =>
      Sized(IdentitySegments(issuer)) && StringsFit(scopes) && |audience| < TWO_32 && |signature| < TWO_32
    case Session(issuer, sessionId, scopes, audiences, _, _, signature) =>
      Sized(IdentitySegments(issuer)) && |sessionId| < TWO_32 && StringsFit(scopes) && StringsFit(audiences)
      && |signature| < TWO_32
    case _ => true
  }

  ghost predicate PartFits(p: Option<seq<Segment>>) {
    p.Some? ==> Sized(p.value)
  }

  ghost predicate RefsFit(refs: seq<ReceiptRef>) {
    |refs| < TWO_32 && Sized(RefSegments(refs))
  }

  ghost predicate CausalFits(c: Causal) {
    match c
    case CausalNone => true
    case CausalScalar(ref) => |ref.ura| < TWO_32
    case CausalList(refs) => RefsFit(refs)
    case CausalMerkle(_, proof) => |proof| < TWO_32
  }

  ghost predicate ProofFits(p: AuthorityProof) {
    && |p.proofType| < TWO_32 && |p.payload| < TWO_32 && |p.admissionHook| < TWO_32
    && PartFits(BindingPart(p.binding)) && (p.binding.Some? ==> AuthorityFits(p.binding.value))
    && PartFits(IssuerPart(p.issuer)) && PartFits(SignaturePart(p.signature))
  }

  ghost predicate FactsFit(f: ProofFacts) {
    && PartFits(SubjectPart(f.subjectRef)) && (f.subjectRef.Some? ==> EntityFits(f.subjectRef.value))
    && Sized(FactSegments(f)) && ProofFits(f.proof) && RefsFit(f.parents)
  }

  ghost predicate EntityFits(e: EntityRef) {
    |e.ura| < TWO_32 && |e.profile| < TWO_32
  }

  /** The receipt respects every bound its encoding relies on. */
  ghost predicate Fits(r: ReceiptBody) {
    && Sized(HeadSegments(r)) && CausalFits(r.causal) && PartFits(HostedPart(r.hosted))
    && |r.ability| < TWO_32 && AuthorityFits(r.authority)
    && Sized(TailSegments(r.usage, FactsBytes(r.facts))) && FactsFit(r.facts)
  }
}
