/** The portable receipt bundle of axon/invocation/bundle.go: export of a
    published receipt and import of a wire receipt, struct to struct. Importing
    errors are not told apart. */
module Bundle {
  import opened Wrappers
  import opened ByteStrings
  import opened Canonical
  import opened TextEncodings

  /** A receipt record: the signed body and what travels beside it. */
  datatype Record = Record(
    body: ReceiptBody, payload: Bytes, contentType: Bytes, childId: Bytes,
    calleeSignature: Signature, selfHash: Hash)

  // "axon-strict-v2" and "web-safe-v2".
  const STRICT: Bytes := [97, 120, 111, 110, 45, 115, 116, 114, 105, 99, 116, 45, 118, 50]
  const WEB_SAFE: Bytes := [119, 101, 98, 45, 115, 97, 102, 101, 45, 118, 50]
  // "ed25519"
  const ED25519: Bytes := [101, 100, 50, 53, 53, 49, 57]
  const SIGNATURE_SIZE := 64

  /** ParseUraProfile. */
  predicate KnownProfile(profile: Bytes) {
    profile == STRICT || profile == WEB_SAFE
  }

  // ---- Wire shapes ----

  datatype RefJson = RefJson(hashHex: Bytes, ura: Bytes)

  datatype CausalJson = CausalJson(
    form: string, hashHex: Bytes, ura: Bytes, prior: seq<RefJson>, rootHex: Bytes, proofUra: Bytes)

  datatype AuthorityJson =
    | AuthorityForm(
        form: string, authorityUra: Bytes, issuerUra: Bytes, audience: Bytes, scopes: seq<Bytes>,
        issuedAt: I64, expiresAt: I64, signatureHex: Bytes, sessionId: Bytes, audiences: seq<Bytes>)
    | BootstrapForm(principal: Bytes, realm: Bytes, ability: Bytes)

  datatype ProofJson = ProofJson(
    proofType: Bytes, binding: Option<AuthorityJson>, payloadHex: Bytes, hashHex: Bytes,
    issuer: Option<Identity>, signatureHex: Bytes, signatureAlg: Bytes, keyIdHint: Bytes, admissionHook: Bytes)

  datatype EntityJson = EntityJson(kind: string, ura: Bytes, profile: Bytes)

  datatype FactsJson = FactsJson(
    subjectRef: EntityJson, descriptorVersion: Bytes, schemaHex: Bytes, implHex: Bytes, runtimeEnv: Bytes,
    proof: ProofJson, inputHex: Bytes, outputHex: Bytes, parents: seq<RefJson>)

  /** The counters as canonical decimal text. */
  datatype UsageJson = UsageJson(tokensIn: Bytes, tokensOut: Bytes, durationMs: Bytes, externalCalls: Bytes)

  datatype HeadJson = HeadJson(
    index: U64, invocationId: Bytes, receiptType: Bytes, state: Bytes, timestamp: I64,
    prevHex: Bytes, digestHex: Bytes, reason: Bytes, cleanupComplete: bool,
    caller: Identity, callee: Identity, subject: Identity, nonceHex: Bytes, ability: Bytes)

  datatype ReceiptJson = ReceiptJson(
    head: HeadJson, causal: CausalJson, authority: AuthorityJson, usage: UsageJson, facts: FactsJson,
    signatureHex: Bytes, signatureAlg: Bytes, keyIdHint: Bytes,
    signer: Option<Identity>, attestationHex: Bytes,
    selfHashHex: Bytes, payloadHex: Bytes, contentType: Bytes, childId: Bytes)

  // ---- Pieces ----

  function Hex32(s: Bytes): Option<Hash> {
    match Unhex(s)
    case None => None
    case Some(b) => if |b| == 32 then Some(b) else None
  }

  function Hex16(s: Bytes): Option<Nonce> {
    match Unhex(s)
    case None => None
    case Some(b) => if |b| == 16 then Some(b) else None
  }

  function ExportRef(r: ReceiptRef): RefJson {
    RefJson(Hex(r.hash), r.ura)
  }

  function ImportRef(j: RefJson): Option<ReceiptRef> {
    match Hex32(j.hashHex)
    case None => None
    case Some(h) => Some(ReceiptRef(h, j.ura))
  }

  function ExportRefs(refs: seq<ReceiptRef>): seq<RefJson> {
    seq(|refs|, i requires 0 <= i < |refs| => ExportRef(refs[i]))
  }

  function ImportRefs(js: seq<RefJson>): Option<seq<ReceiptRef>> {
    if js == [] then Some([])
    else
      match (ImportRef(js[0]), ImportRefs(js[1..]))
      case (Some(r), Some(rest)) => Some([r] + rest)
      case _ => None
  }

  lemma {:induction false} ImportRefsSnoc(js: seq<RefJson>, i: nat)
    requires i < |js|
    ensures ImportRefs(js[..i + 1]) ==
      match (ImportRefs(js[..i]), ImportRef(js[i]))
      case (Some(refs), Some(r)) => Some(refs + [r])
      case _ => None
  {
    hide ImportRef;
    if i > 0 {
      assert js[..i][0] == js[0] && js[..i][1..] == js[1..][..i - 1];
      assert js[..i + 1][0] == js[0] && js[..i + 1][1..] == js[1..][..i];
      ImportRefsSnoc(js[1..], i - 1);
      var first, before := ImportRef(js[0]), ImportRefs(js[1..][..i - 1]);
      if first.Some? && before.Some? && ImportRef(js[i]).Some? {
        var r := ImportRef(js[i]).value;
        assert [first.value] + (before.value + [r]) == ([first.value] + before.value) + [r];
      }
    } else {
      assert js[..1][1..] == [] && js[..1][0] == js[0] && js[..0] == [];
      if ImportRef(js[0]).Some? {
        assert [ImportRef(js[0]).value] + [] == [] + [ImportRef(js[0]).value];
      }
    }
  }

  lemma {:induction false} ImportRefsFails(js: seq<RefJson>, i: nat)
    requires i <= |js| && ImportRefs(js[..i]).None?
    ensures ImportRefs(js).None?
    decreases |js| - i
  {
    if i < |js| {
      ImportRefsSnoc(js, i);
      ImportRefsFails(js, i + 1);
    } else {
      assert js[..i] == js;
    }
  }

  /** The list loop of ToCtx and ToUnverifiedReceipt: it stops at the first bad hash. */
  method DecodeRefs(js: seq<RefJson>) returns (r: Option<seq<ReceiptRef>>)
    ensures r == ImportRefs(js)
  {
    hide ImportRef;
    var refs := [];
    for i := 0 to |js|
      invariant ImportRefs(js[..i]) == Some(refs)
    {
      ImportRefsSnoc(js, i);
      var ref := ImportRef(js[i]);
      if ref.None? {
        ImportRefsFails(js, i + 1);
        return None;
      }
      refs := refs + [ref.value];
    }
    assert js[..|js|] == js;
    return Some(refs);
  }

  /** CausalFromCtx. */
  function ExportCausal(c: Causal): CausalJson {
    match c
    case CausalNone => CausalJson("none", [], [], [], [], [])
    case CausalScalar(ref) => CausalJson("scalar", Hex(ref.hash), ref.ura, [], [], [])
    case CausalList(refs) => CausalJson("list", [], [], ExportRefs(refs), [], [])
    case CausalMerkle(root, proof) => CausalJson("merkle", [], [], [], Hex(root), proof)
  }

  /** CausalJSON.ToCtx. */
  function ImportCausal(j: CausalJson): Option<Causal> {
    if j.form == "none" then Some(CausalNone)
    else if j.form == "scalar" then
      (match Hex32(j.hashHex)
       case None => None
       case Some(h) => Some(CausalScalar(ReceiptRef(h, j.ura))))
    else if j.form == "list" then
      (match ImportRefs(j.prior)
       case None => None
       case Some(refs) => Some(CausalList(refs)))
    else if j.form == "merkle" then
      (match Hex32(j.rootHex)
       case None => None
       case Some(h) => Some(CausalMerkle(h, j.proofUra)))
    else None
  }

  /** AuthorityOrBootstrapJSONFromBinding. */
  function ExportAuthority(a: Authority): Option<AuthorityJson> {
    match a
    case Bootstrap(principal, realm, ability) => Some(BootstrapForm(principal, realm, ability))
    case Binding(authority, relation, evidence) =>
      match (relation, evidence)
      case (SelfRelation, IdentityEvidence) =>
        if Blank(authority.ura) then None
        else Some(AuthorityForm("self+identity", authority.ura, [], [], [], 0, 0, [], [], []))
      case (DelegatedBy, Delegation(issuer, scopes, audience, issuedAt, expiresAt, signature)) =>
        Some(AuthorityForm("delegated_by+delegation", authority.ura, issuer.ura, audience, scopes,
                           issuedAt, expiresAt, Hex(signature), [], []))
      case (SessionOf, Session(issuer, sessionId, scopes, audiences, issuedAt, expiresAt, signature)) =>
        Some(AuthorityForm("session_of+session", authority.ura, issuer.ura, [], scopes,
                           issuedAt, expiresAt, Hex(signature), sessionId, audiences))
      case _ => None
  }

  /** AuthorityOrBootstrapJSON.ToBinding: every identity comes back strict. */
  function ImportAuthority(j: AuthorityJson): Option<Authority> {
    match j
    case BootstrapForm(principal, realm, ability) =>
      if Blank(principal) || Blank(realm) || Blank(ability) then None else Some(Bootstrap(principal, realm, ability))
    case AuthorityForm(form, ura, issuer, audience, scopes, issuedAt, expiresAt, signatureHex, sessionId, audiences) =>
      if form == "self+identity" then
        (if Blank(ura) then None else Some(Binding(Identity(ura, STRICT), SelfRelation, IdentityEvidence)))
      else if form == "delegated_by+delegation" then
        (match Unhex(signatureHex)
         case None => None
         case Some(sig) =>
           if Blank(ura) || Blank(issuer) || Blank(audience) || scopes == [] || sig == [] then None
           else Some(Binding(Identity(ura, STRICT), DelegatedBy,
                             Delegation(Identity(issuer, STRICT), scopes, audience, issuedAt, expiresAt, sig))))
      else if form == "session_of+session" then
        (match Unhex(signatureHex)
         case None => None
         case Some(sig) =>
           if Blank(ura) || Blank(issuer) || Blank(sessionId) || scopes == [] || audiences == [] || sig == [] then None
           else Some(Binding(Identity(ura, STRICT), SessionOf,
                             Session(Identity(issuer, STRICT), sessionId, scopes, audiences, issuedAt, expiresAt, sig))))
      else None
  }

  /** AuthorityProofFromProof. */
  function ExportProof(p: AuthorityProof): Option<ProofJson> {
    if p.binding.Some? && ExportAuthority(p.binding.value).None? then None
    else Some(ProofJson(
      p.proofType,
      if p.binding.None? then None else ExportAuthority(p.binding.value),
      Hex(p.payload), Hex(p.proofHash), p.issuer,
      if p.signature.None? then [] else Hex(p.signature.value.signature),
      if p.signature.None? then [] else p.signature.value.algorithm,
      if p.signature.None? then [] else p.signature.value.keyIdHint,
      p.admissionHook))
  }

  function ImportSignature(hex: Bytes, algorithm: Bytes, hint: Bytes): Option<Option<Signature>> {
    if Blank(hex) then Some(None)
    else
      match Unhex(hex)
      case None => None
      case Some(sig) => Some(Some(Signature(algorithm, sig, hint)))
  }

  function ImportBinding(b: Option<AuthorityJson>): Option<Option<Authority>> {
    match b
    case None => Some(None)
    case Some(j) =>
      match ImportAuthority(j)
      case None => None
      case Some(a) => Some(Some(a))
  }

  function ImportIssuer(i: Option<Identity>): Option<Option<Identity>> {
    if i.None? then Some(None) else if KnownProfile(i.value.profile) then Some(i) else None
  }

  /** InvocationAuthorityProofJSON.ToProof. */
  function ImportProof(j: ProofJson): Option<AuthorityProof> {
    match (Hex32(j.hashHex), Unhex(j.payloadHex), ImportBinding(j.binding), ImportIssuer(j.issuer),
           ImportSignature(j.signatureHex, j.signatureAlg, j.keyIdHint))
    case (Some(hash), Some(payload), Some(binding), Some(issuer), Some(signature)) =>
      Some(AuthorityProof(j.proofType, binding, payload, hash, issuer, signature, j.admissionHook))
    case _ => None
  }

  /** EntityRefKind.String and ParseEntityRefKind. */
  function KindName(kind: byte): string {
    match kind as int
    case 1 => "resource"
    case 2 => "agent"
    case 3 => "ability"
    case 4 => "session"
    case 5 => "continuation"
    case 6 => "state_object"
    case 7 => "device"
    case _ => "unspecified"
  }

  function KindOfName(name: string): Option<byte> {
    if name == "resource" then Some(1)
    else if name == "agent" then Some(2)
    else if name == "ability" then Some(3)
    else if name == "session" then Some(4)
    else if name == "continuation" then Some(5)
    else if name == "state_object" then Some(6)
    else if name == "device" then Some(7)
    else None
  }

  function ExportEntity(e: EntityRef): EntityJson {
    EntityJson(KindName(e.kind), e.ura, e.profile)
  }

  function ImportEntity(j: EntityJson): Option<EntityRef> {
    if KindOfName(j.kind).None? || !KnownProfile(j.profile) then None
    else Some(EntityRef(KindOfName(j.kind).value, j.ura, j.profile))
  }

  function ExportUsage(u: Usage): UsageJson {
    UsageJson(Decimal(u.tokensIn), Decimal(u.tokensOut), Decimal(u.durationMs), Decimal(u.externalCalls))
  }

  ghost function ImportUsage(j: UsageJson): Option<Usage> {
    match (DecimalU64(j.tokensIn), DecimalU64(j.tokensOut), DecimalU64(j.durationMs), DecimalU64(j.externalCalls))
    case (Some(i), Some(o), Some(d), Some(c)) => if c >= TWO_32 then None else Some(Usage(i, o, d, c))
    case _ => None
  }

  function ExportFacts(f: ProofFacts): Option<FactsJson> {
    if f.subjectRef.None? || ExportProof(f.proof).None? then None
    else Some(FactsJson(
      ExportEntity(f.subjectRef.value), f.descriptorVersion, Hex(f.schemaHash), Hex(f.implHash), f.runtimeEnv,
      ExportProof(f.proof).value, Hex(f.inputHash), Hex(f.outputHash), ExportRefs(f.parents)))
  }

  function ImportFacts(j: FactsJson): Option<ProofFacts> {
    match (ImportEntity(j.subjectRef), Hex32(j.schemaHex), Hex32(j.implHex), ImportProof(j.proof),
           Hex32(j.inputHex), Hex32(j.outputHex), ImportRefs(j.parents))
    case (Some(entity), Some(schema), Some(impl), Some(proof), Some(input), Some(output), Some(parents)) =>
      Some(ProofFacts(Some(entity), j.descriptorVersion, schema, impl, j.runtimeEnv, proof, input, output, parents, true))
    case _ => None
  }

  function ExportHead(r: ReceiptBody): HeadJson {
    HeadJson(r.index, r.invocationId, r.receiptType, r.state, r.timestamp, Hex(r.prevHash), Hex(r.payloadDigest),
             r.reason, r.cleanupComplete, r.caller, r.callee, r.subject, Hex(r.nonce), r.ability)
  }

  function ExportAttestation(h: Option<Hosted>): Bytes {
    if h.None? then [] else Hex(h.value.attestation)
  }

  function ExportSigner(h: Option<Hosted>): Option<Identity> {
    if h.None? then None else Some(h.value.signer)
  }

  function ImportHosted(signer: Option<Identity>, attestationHex: Bytes): Option<Option<Hosted>> {
    match signer
    case None => if Blank(attestationHex) then Some(None) else None
    case Some(id) =>
      if !KnownProfile(id.profile) then None
      else
        match Unhex(attestationHex)
        case None => None
        case Some(b) => Some(Some(Hosted(id, b)))
  }

  /** ProjectSignedInvocationReceipt. */
  function Export(r: Record): Option<ReceiptJson> {
    var authority, facts := ExportAuthority(r.body.authority), ExportFacts(r.body.facts);
    if authority.None? || facts.None? then None
    else Some(ReceiptJson(
      ExportHead(r.body), ExportCausal(r.body.causal), authority.value, ExportUsage(r.body.usage), facts.value,
      Hex(r.calleeSignature.signature), r.calleeSignature.algorithm, r.calleeSignature.keyIdHint,
      ExportSigner(r.body.hosted), ExportAttestation(r.body.hosted),
      Hex(r.selfHash), Hex(r.payload), r.contentType, r.childId))
  }

  function ImportHead(j: HeadJson, causal: Causal, hosted: Option<Hosted>, authority: Authority, usage: Usage, facts: ProofFacts)
    : Option<ReceiptBody>
  {
    match (Hex32(j.prevHex), Hex32(j.digestHex), Hex16(j.nonceHex))
    case (Some(prev), Some(digest), Some(nonce)) =>
      if !KnownProfile(j.caller.profile) || !KnownProfile(j.callee.profile) || !KnownProfile(j.subject.profile) then None
      else Some(ReceiptBody(
        j.index, j.invocationId, j.receiptType, j.state, j.timestamp, prev, digest, j.reason, j.cleanupComplete,
        j.caller, j.callee, j.subject, nonce, causal, hosted, j.ability, authority, usage, facts))
    case _ => None
  }

  ghost function ImportBody(j: ReceiptJson): Option<ReceiptBody> {
    match (ImportCausal(j.causal), ImportHosted(j.signer, j.attestationHex), ImportAuthority(j.authority),
           ImportUsage(j.usage), ImportFacts(j.facts))
    case (Some(causal), Some(hosted), Some(authority), Some(usage), Some(facts)) =>
      ImportHead(j.head, causal, hosted, authority, usage, facts)
    case _ => None
  }

  ghost function Decoded(j: ReceiptJson): Option<Record> {
    match (ImportBody(j), Unhex(j.payloadHex), Unhex(j.signatureHex), Hex32(j.selfHashHex))
    case (Some(body), Some(payload), Some(sig), Some(selfHash)) =>
      Some(Record(body, payload, j.contentType, j.childId, Signature(j.signatureAlg, sig, j.keyIdHint), selfHash))
    case _ => None
  }

  // ---- What importing checks about the decoded record ----

  function Enumerable(c: Causal): seq<ReceiptRef> {
    match c
    case CausalScalar(ref) => [ref]
    case CausalList(refs) => refs
    case _ => []
  }

  /** validateAuthorityProof. */
  predicate ProofMatches(sha: Bytes -> Hash, p: AuthorityProof, a: Authority, callee: Identity) {
    && !Blank(p.proofType) && p.binding == Some(a) && p.issuer == Some(callee) && !Blank(callee.ura)
    && !Blank(p.admissionHook) && !IsZero(p.proofHash) && p.proofHash == ExpectedProofHash(sha, p)
  }

  /** The descriptor version and subject kind come from parsers of the ability and
      subject URAs, which are parameters here. */
  predicate FactsBound(versionOf: Bytes -> Option<Bytes>, kindOf: Identity -> Option<byte>, b: ReceiptBody) {
    && !IsZero(b.facts.schemaHash) && !IsZero(b.facts.implHash) && !IsZero(b.facts.inputHash) && !IsZero(b.facts.outputHash)
    && !Blank(b.facts.descriptorVersion) && !Blank(b.facts.runtimeEnv)
    && versionOf(b.ability) == Some(b.facts.descriptorVersion)
    && kindOf(b.subject).Some?
    && b.facts.subjectRef == Some(EntityRef(kindOf(b.subject).value, b.subject.ura, b.subject.profile))
    && ParentsBound(b.facts.parents) && b.facts.parents == Enumerable(b.causal)
  }

  predicate Accepts(sha: Bytes -> Hash, versionOf: Bytes -> Option<Bytes>, kindOf: Identity -> Option<byte>, r: Record) {
    && !Blank(r.body.invocationId)
    && sha(r.payload) == r.body.payloadDigest && sha(r.payload) == r.body.facts.outputHash
    && AuthorityMatches(r.body.caller, r.body.subject, r.body.ability, r.body.authority)
    && ProofMatches(sha, r.body.facts.proof, r.body.authority, r.body.callee)
    && FactsBound(versionOf, kindOf, r.body)
    && r.calleeSignature.algorithm == ED25519 && |r.calleeSignature.signature| == SIGNATURE_SIZE
  }

  /** ToUnverifiedReceipt. */
  ghost function Import(
    sha: Bytes -> Hash, versionOf: Bytes -> Option<Bytes>, kindOf: Identity -> Option<byte>, j: ReceiptJson): Option<Record>
  {
    match Decoded(j)
    case None => None
    case Some(r) => if Accepts(sha, versionOf, kindOf, r) then Some(r) else None
  }
}
