/** A reader for the canonical bytes of axon/invocation/axiom.go. It takes fields
    off the front of a byte string in the order the encoders append them, and
    knows nothing of how they are written. */
module CanonicalReader {
  import opened Wrappers
  import opened ByteStrings
  import opened Canonical
  import opened CanonicalInjective

  // ---- Numbers and fields ----

  /** An unsigned number, most significant byte first. */
  function Number(b: Bytes): (n: nat)
    ensures n < Pow256(|b|)
  {
    if b == [] then 0 else 256 * Number(b[..|b| - 1]) + b[|b| - 1] as nat
  }

  function U32Of(b: Bytes): U32
    requires |b| == 4
  {
    Widths(); Number(b)
  }

  function U64Of(b: Bytes): U64
    requires |b| == 8
  {
    Widths(); Number(b)
  }

  /** Two's complement. */
  function I64Of(b: Bytes): I64
    requires |b| == 8
  {
    Widths();
    var n := Number(b);
    if n < 0x8000_0000_0000_0000 then n else n - 0x1_0000_0000_0000_0000
  }

  /** `n` bytes, or as many as a four-byte length in front of them says. */
  datatype Field = Width(n: nat) | Prefixed

  function ReadField(f: Field, b: Bytes): (r: Option<(Bytes, Bytes)>)
    ensures r.Some? && f.Width? ==> |r.value.0| == f.n
  {
    var start := if f.Width? then 0 else 4;
    if |b| < start then None
    else
      var n := if f.Width? then f.n else Number(b[..4]);
      if |b| < start + n then None else Some((b[start..start + n], b[start + n..]))
  }

  ghost predicate Shaped(layout: seq<Field>, f: seq<Bytes>) {
    |f| == |layout| && forall i :: 0 <= i < |layout| && layout[i].Width? ==> |f[i]| == layout[i].n
  }

  function ReadFields(layout: seq<Field>, b: Bytes): (r: Option<(seq<Bytes>, Bytes)>)
    ensures r.Some? ==> Shaped(layout, r.value.0)
  {
    if layout == [] then Some(([], b))
    else
      var (x, rest) :- ReadField(layout[0], b);
      var (xs, end) :- ReadFields(layout[1..], rest);
      Some(([x] + xs, end))
  }

  /** A marker byte, and the fields if it is one. */
  function ReadMarked(layout: seq<Field>, b: Bytes): (r: Option<(Option<seq<Bytes>>, Bytes)>)
    ensures r.Some? && r.value.0.Some? ==> |r.value.0.value| == |layout|
  {
    if b == [] then None
    else if b[0] == 0 then Some((None, b[1..]))
    else if b[0] == 1 then
      var (xs, rest) :- ReadFields(layout, b[1..]);
      Some((Some(xs), rest))
    else None
  }

  /** A count, and as many strings. */
  function ReadStrings(b: Bytes): Option<(seq<Bytes>, Bytes)> {
    var (count, rest) :- ReadField(Width(4), b);
    ReadFields(seq(U32Of(count), _ => Prefixed), rest)
  }

  function ReadRefList(n: nat, b: Bytes): Option<(seq<ReceiptRef>, Bytes)> {
    if n == 0 then Some(([], b))
    else
      var (f, rest) :- ReadFields([Width(32), Prefixed], b);
      var (refs, end) :- ReadRefList(n - 1, rest);
      Some(([ReceiptRef(f[0], f[1])] + refs, end))
  }

  function ReadRefs(b: Bytes): Option<(seq<ReceiptRef>, Bytes)> {
    var (count, rest) :- ReadField(Width(4), b);
    ReadRefList(U32Of(count), rest)
  }

  // ---- The authority slot ----

  function ReadDelegation(b: Bytes): Option<(Evidence, Bytes)> {
    var (issuer, b1) :- ReadFields([Prefixed, Prefixed], b);
    var (scopes, b2) :- ReadStrings(b1);
    var (f, rest) :- ReadFields([Prefixed, Width(8), Width(8), Prefixed], b2);
    Some((Delegation(Identity(issuer[0], issuer[1]), scopes, f[0], I64Of(f[1]), I64Of(f[2]), f[3]), rest))
  }

  function ReadSession(b: Bytes): Option<(Evidence, Bytes)> {
    var (head, b1) :- ReadFields([Prefixed, Prefixed, Prefixed], b);
    var (scopes, b2) :- ReadStrings(b1);
    var (audiences, b3) :- ReadStrings(b2);
    var (f, rest) :- ReadFields([Width(8), Width(8), Prefixed], b3);
    Some((Session(Identity(head[0], head[1]), head[2], scopes, audiences, I64Of(f[0]), I64Of(f[1]), f[2]), rest))
  }

  function ReadEvidence(tag: byte, b: Bytes): Option<(Evidence, Bytes)> {
    if tag == 1 then Some((IdentityEvidence, b))
    else if tag == 2 then ReadDelegation(b)
    else if tag == 3 then ReadSession(b)
    else None
  }

  function RelationOf(tag: byte): Option<Relation> {
    if tag == 1 then Some(SelfRelation)
    else if tag == 2 then Some(DelegatedBy)
    else if tag == 3 then Some(SessionOf)
    else None
  }

  function ReadAuthority(b: Bytes): Option<(Authority, Bytes)> {
    if b == [] then None
    else if b[0] == 6 then
      var (f, rest) :- ReadFields([Prefixed, Prefixed, Prefixed], b[1..]);
      Some((Bootstrap(f[0], f[1], f[2]), rest))
    else
      var (f, b1) :- ReadFields([Prefixed, Prefixed, Width(1), Width(1)], b);
      var relation :- RelationOf(f[2][0]);
      var (evidence, rest) :- ReadEvidence(f[3][0], b1);
      Some((Binding(Identity(f[0], f[1]), relation, evidence), rest))
  }

  // ---- Parts that fill a block of their own ----

  /** A value read from a whole block. */
  function Whole<T>(r: Option<(T, Bytes)>): Option<T> {
    if r.Some? && r.value.1 == [] then Some(r.value.0) else None
  }

  function ReadCausal(b: Bytes): Option<Causal> {
    if b == [] then None
    else if b[0] == 0 then (if |b| == 1 then Some(CausalNone) else None)
    else if b[0] == 1 then
      var f :- Whole(ReadFields([Width(32), Prefixed], b[1..]));
      Some(CausalScalar(ReceiptRef(f[0], f[1])))
    else if b[0] == 2 then
      var refs :- Whole(ReadRefs(b[1..]));
      Some(CausalList(refs))
    else if b[0] == 3 then
      var f :- Whole(ReadFields([Width(32), Prefixed], b[1..]));
      Some(CausalMerkle(f[0], f[1]))
    else None
  }

  function ReadEntity(b: Bytes): Option<EntityRef> {
    var f :- Whole(ReadFields([Width(1), Prefixed, Prefixed], b));
    Some(EntityRef(f[0][0], f[1], f[2]))
  }

  function ReadOptionalAuthority(part: Option<seq<Bytes>>): Option<Option<Authority>>
    requires part.Some? ==> |part.value| == 1
  {
    if part.None? then Some(None)
    else
      var a :- Whole(ReadAuthority(part.value[0]));
      Some(Some(a))
  }

  function ReadProof(b: Bytes): Option<AuthorityProof> {
    var (kind, b1) :- ReadFields([Prefixed], b);
    var (block, b2) :- ReadMarked([Prefixed], b1);
    var binding :- ReadOptionalAuthority(block);
    var (f, b3) :- ReadFields([Prefixed, Width(32)], b2);
    var (issuer, b4) :- ReadMarked([Prefixed, Prefixed], b3);
    var (sig, b5) :- ReadMarked([Prefixed, Prefixed, Prefixed], b4);
    var hook :- Whole(ReadFields([Prefixed], b5));
    Some(AuthorityProof(
      kind[0], binding, f[0], f[1],
      if issuer.None? then None else Some(Identity(issuer.value[0], issuer.value[1])),
      if sig.None? then None else Some(Signature(sig.value[0], sig.value[1], sig.value[2])),
      hook[0]))
  }

  function ReadOptionalEntity(part: Option<seq<Bytes>>): Option<Option<EntityRef>>
    requires part.Some? ==> |part.value| == 1
  {
    if part.None? then Some(None)
    else
      var e :- ReadEntity(part.value[0]);
      Some(Some(e))
  }

  const FACTS: seq<Field> := [Prefixed, Width(32), Width(32), Prefixed, Prefixed, Width(32), Width(32)]

  /** version, schema hash, implementation hash, environment, proof, input and output hash. */
  function ReadFacts(b: Bytes): Option<ProofFacts> {
    var (block, b1) :- ReadMarked([Prefixed], b);
    var subject :- ReadOptionalEntity(block);
    var (f, b2) :- ReadFields(FACTS, b1);
    var proof :- ReadProof(f[4]);
    var parents :- Whole(ReadRefs(b2));
    Some(ProofFacts(subject, f[0], f[1], f[2], f[3], proof, f[5], f[6], parents, true))
  }

  // ---- The receipt and the invocation ----

  const HEAD: seq<Field> := [
    Width(8), Prefixed, Prefixed, Prefixed, Width(8), Width(32),
    Prefixed, Prefixed, Prefixed, Prefixed, Prefixed, Prefixed,
    Width(16), Prefixed, Width(32), Prefixed, Width(1)]

  const USAGE: seq<Field> := [Width(8), Width(8), Width(8), Width(4), Prefixed]

  function UsageOf(u: seq<Bytes>): Usage
    requires Shaped(USAGE, u)
  {
    Usage(U64Of(u[0]), U64Of(u[1]), U64Of(u[2]), U32Of(u[3]))
  }

  function HostedOf(part: Option<seq<Bytes>>): Option<Hosted>
    requires part.Some? ==> |part.value| == 3
  {
    if part.None? then None else Some(Hosted(Identity(part.value[0], part.value[1]), part.value[2]))
  }

  /** What follows the head. */
  datatype Tail = Tail(hosted: Option<Hosted>, ability: Bytes, authority: Authority, usage: Usage, facts: ProofFacts)

  function ReadTail(b: Bytes): Option<(Tail, Bytes)> {
    var (hosted, b2) :- ReadMarked([Prefixed, Prefixed, Prefixed], b);
    var (ability, b3) :- ReadFields([Prefixed], b2);
    var (authority, b4) :- ReadAuthority(b3);
    var (u, rest) :- ReadFields(USAGE, b4);
    var facts :- ReadFacts(u[4]);
    Some((Tail(HostedOf(hosted), ability[0], authority, UsageOf(u), facts), rest))
  }

  /** index, id, type, state, time, previous hash, caller, callee, subject, nonce,
      causal context, payload digest, reason, cleanup flag. */
  function Assembled(f: seq<Bytes>, causal: Causal, t: Tail): ReceiptBody
    requires Shaped(HEAD, f)
  {
    ReceiptBody(
      U64Of(f[0]), f[1], f[2], f[3], I64Of(f[4]), f[5], f[14], f[15], f[16] == [1],
      Identity(f[6], f[7]), Identity(f[8], f[9]), Identity(f[10], f[11]), f[12], causal,
      t.hosted, t.ability, t.authority, t.usage, t.facts)
  }

  function ReadReceipt(b: Bytes): Option<(ReceiptBody, Bytes)> {
    var (f, b1) :- ReadFields(HEAD, b);
    assert |f| == |HEAD| == 17;
    var causal :- ReadCausal(f[13]);
    var (t, rest) :- ReadTail(b1);
    Some((Assembled(f, causal, t), rest))
  }

  /** What the caller of an invocation signs. */
  datatype SignedCall = SignedCall(
    caller: Identity, callee: Identity, subject: EntityRef, abilityRef: Bytes,
    argsDigest: Hash, nonce: Nonce, causal: Causal)

  const CALL: seq<Field> := [
    Prefixed, Prefixed, Prefixed, Prefixed, Prefixed, Prefixed, Width(32), Width(16), Prefixed]

  function ReadInvocation(b: Bytes): Option<SignedCall> {
    var f :- Whole(ReadFields(CALL, b));
    var subject :- ReadEntity(f[4]);
    var causal :- ReadCausal(f[8]);
    Some(SignedCall(Identity(f[0], f[1]), Identity(f[2], f[3]), subject, f[5], f[6], f[7], causal))
  }

  // ---- Reading back what was written ----

  lemma {:induction false} NumberBack(n: nat, width: nat)
    requires n < Pow256(width)
    ensures Number(BigEndian(n, width)) == n
  {
    if width > 0 {
      NumberBack(n / 256, width - 1);
      var b := BigEndian(n, width);
      assert b[..width - 1] == BigEndian(n / 256, width - 1) && b[width - 1] as int == n % 256;
    }
  }

  lemma NumbersBack(n: nat, x: I64)
    ensures n < TWO_32 ==> U32Of(PutU32(n)) == n
    ensures n < TWO_64 ==> U64Of(PutU64(n)) == n
    ensures I64Of(PutI64(x)) == x
  {
    Widths();
    hide Number, BigEndian, Pow256;
    if n < TWO_32 {
      NumberBack(n, 4);
    }
    if n < TWO_64 {
      NumberBack(n, 8);
    }
    NumberBack(x % TWO_64, 8);
  }

  predicate Fills(f: Field, x: Segment) {
    if f.Width? then x.Fixed? && |x.bytes| == f.n else x.Block? && |x.bytes| < TWO_32
  }

  ghost predicate Fill(layout: seq<Field>, xs: seq<Segment>) {
    |layout| == |xs| && forall i :: 0 <= i < |layout| ==> Fills(layout[i], xs[i])
  }

  function Contents(xs: seq<Segment>): seq<Bytes> {
    seq(|xs|, i requires 0 <= i < |xs| => xs[i].bytes)
  }

  lemma Around(a: Bytes, b: Bytes, c: Bytes)
    ensures
      var s := a + b + c;
      s[..|a|] == a && s[|a|..|a| + |b|] == b && s[|a| + |b|..] == c && |s| == |a| + |b| + |c|
  {
  }

  lemma PrefixedBack(x: Bytes, rest: Bytes)
    requires |x| < TWO_32
    ensures ReadField(Prefixed, PutBlock(x) + rest) == Some((x, rest))
  {
    NumbersBack(|x|, 0);
    hide Number, PutU32;
    Around(PutU32(|x|), x, rest);
  }

  lemma FieldBack(f: Field, x: Segment, rest: Bytes)
    requires Fills(f, x)
    ensures ReadField(f, x.Encoded() + rest) == Some((x.bytes, rest))
  {
    if f.Width? {
      var b := x.bytes + rest;
      assert b[..f.n] == x.bytes && b[f.n..] == rest;
    } else {
      hide PutBlock, ReadField;
      PrefixedBack(x.bytes, rest);
    }
  }

  lemma FirstField(layout: seq<Field>, b: Bytes, x: Bytes, rest: Bytes, xs: seq<Bytes>, end: Bytes)
    requires layout != [] && ReadField(layout[0], b) == Some((x, rest)) && ReadFields(layout[1..], rest) == Some((xs, end))
    ensures ReadFields(layout, b) == Some(([x] + xs, end))
  {
    hide ReadField;
  }

  lemma FillRest(layout: seq<Field>, xs: seq<Segment>)
    requires Fill(layout, xs) && xs != []
    ensures layout != [] && Fills(layout[0], xs[0]) && Fill(layout[1..], xs[1..])
    ensures Contents(xs) == [xs[0].bytes] + Contents(xs[1..])
  {
    hide Fills;
  }

  lemma {:induction false} FieldsBack(layout: seq<Field>, xs: seq<Segment>, rest: Bytes)
    requires Fill(layout, xs)
    ensures ReadFields(layout, Flatten(xs) + rest) == Some((Contents(xs), rest))
    decreases |xs|
  {
    if xs == [] {
      assert Flatten(xs) + rest == rest && Contents(xs) == [];
    } else {
      FlattenHead(xs, rest);
      FillRest(layout, xs);
      hide Flatten, ReadField, ReadFields, Contents, Fill, Fills;
      FieldBack(layout[0], xs[0], Flatten(xs[1..]) + rest);
      FieldsBack(layout[1..], xs[1..], rest);
      FirstField(layout, Flatten(xs) + rest, xs[0].bytes, Flatten(xs[1..]) + rest, Contents(xs[1..]), rest);
    }
  }

  lemma MarkedBack(layout: seq<Field>, part: Option<seq<Segment>>, rest: Bytes)
    requires part.Some? ==> Fill(layout, part.value)
    ensures ReadMarked(layout, PutMarked(part) + rest)
         == Some((if part.None? then None else Some(Contents(part.value)), rest))
  {
    hide ReadFields, Flatten, Contents, Fill;
    var b := PutMarked(part) + rest;
    if part.None? {
      assert b[0] == 0 && b[1..] == rest;
    } else {
      assert b[0] == 1 && b[1..] == Flatten(part.value) + rest;
      FieldsBack(layout, part.value, rest);
    }
  }

  lemma StringsBack(xs: seq<Bytes>, rest: Bytes)
    requires StringsFit(xs)
    ensures ReadStrings(PutStrings(xs) + rest) == Some((xs, rest))
  {
    var layout := seq(|xs|, _ => Prefixed);
    assert Fill(layout, Blocks(xs)) && Contents(Blocks(xs)) == xs;
    hide Flatten, ReadFields, PutU32, Blocks, U32Of, ReadField;
    Assoc(PutU32(|xs|), Flatten(Blocks(xs)), rest);
    FieldBack(Width(4), Fixed(PutU32(|xs|)), Flatten(Blocks(xs)) + rest);
    NumbersBack(|xs|, 0);
    FieldsBack(layout, Blocks(xs), rest);
  }

  lemma PairFieldsBack(h: Hash, ura: Bytes, rest: Bytes)
    requires |ura| < TWO_32
    ensures ReadFields([Width(32), Prefixed], Flatten([Fixed(h), Block(ura)]) + rest) == Some(([h, ura], rest))
  {
    var xs := [Fixed(h), Block(ura)];
    assert Contents(xs) == [h, ura];
    hide Flatten, ReadFields;
    FieldsBack([Width(32), Prefixed], xs, rest);
  }

  lemma {:induction false} RefSegmentsHead(refs: seq<ReceiptRef>, rest: Bytes)
    requires refs != [] && Sized(RefSegments(refs))
    ensures |refs[0].ura| < TWO_32 && Sized(RefSegments(refs[1..]))
    ensures Flatten(RefSegments(refs)) + rest
         == Flatten([Fixed(refs[0].hash), Block(refs[0].ura)]) + (Flatten(RefSegments(refs[1..])) + rest)
  {
    var first, others := [Fixed(refs[0].hash), Block(refs[0].ura)], RefSegments(refs[1..]);
    var all := RefSegments(refs);
    assert all == first + others && all[1] == Block(refs[0].ura);
    assert forall i :: 0 <= i < |others| ==> others[i] == all[i + 2];
    hide Flatten, RefSegments;
    FlattenCat(first, others);
    Assoc(Flatten(first), Flatten(others), rest);
  }

  lemma {:induction false} RefListBack(refs: seq<ReceiptRef>, rest: Bytes)
    requires Sized(RefSegments(refs))
    ensures ReadRefList(|refs|, Flatten(RefSegments(refs)) + rest) == Some((refs, rest))
    decreases |refs|
  {
    if refs == [] {
      assert Flatten([]) + rest == rest;
    } else {
      hide Flatten, ReadFields, RefSegments, Sized;
      RefSegmentsHead(refs, rest);
      PairFieldsBack(refs[0].hash, refs[0].ura, Flatten(RefSegments(refs[1..])) + rest);
      RefListBack(refs[1..], rest);
      assert refs == [refs[0]] + refs[1..];
    }
  }

  lemma RefsBack(refs: seq<ReceiptRef>, rest: Bytes)
    requires RefsFit(refs)
    ensures ReadRefs(PutRefs(refs) + rest) == Some((refs, rest))
  {
    hide Flatten, PutU32, RefSegments, U32Of, ReadField, ReadRefList;
    Assoc(PutU32(|refs|), Flatten(RefSegments(refs)), rest);
    FieldBack(Width(4), Fixed(PutU32(|refs|)), Flatten(RefSegments(refs)) + rest);
    NumbersBack(|refs|, 0);
    RefListBack(refs, rest);
  }

  // ---- The authority slot ----

  lemma DelegationBack(e: Evidence, rest: Bytes)
    requires e.Delegation? && EvidenceFits(e)
    ensures ReadDelegation(EvidenceBytes(e) + rest) == Some((e, rest))
  {
    hide Flatten, ReadFields, ReadStrings, PutStrings, StringsFit, PutI64, I64Of;
    var ids, tail := IdentitySegments(e.issuer), GrantTail(e);
    Regroup3(Flatten(ids), PutStrings(e.scopes), Flatten(tail), rest);
    FieldsBack([Prefixed, Prefixed], ids, PutStrings(e.scopes) + (Flatten(tail) + rest));
    assert ids[0].bytes == e.issuer.ura && ids[1].bytes == e.issuer.profile;
    StringsBack(e.scopes, Flatten(tail) + rest);
    FieldsBack([Prefixed, Width(8), Width(8), Prefixed], tail, rest);
    NumbersBack(0, e.issuedAt);
    NumbersBack(0, e.expiresAt);
  }

  lemma SessionHeadBack(e: Evidence, rest: Bytes)
    requires e.Session? && EvidenceFits(e)
    ensures ReadFields([Prefixed, Prefixed, Prefixed], Flatten(SessionHead(e)) + rest)
         == Some(([e.issuer.ura, e.issuer.profile, e.sessionId], rest))
  {
    assert IdentitySegments(e.issuer)[0] == Block(e.issuer.ura) && IdentitySegments(e.issuer)[1] == Block(e.issuer.profile);
    hide Flatten, ReadFields, StringsFit;
    var xs := SessionHead(e);
    assert Contents(xs) == [e.issuer.ura, e.issuer.profile, e.sessionId];
    FieldsBack([Prefixed, Prefixed, Prefixed], xs, rest);
  }

  lemma SessionTailBack(e: Evidence, rest: Bytes)
    requires e.Session? && EvidenceFits(e)
    ensures ReadFields([Width(8), Width(8), Prefixed], Flatten(SessionTail(e)) + rest)
         == Some(([PutI64(e.issuedAt), PutI64(e.expiresAt), e.signature], rest))
  {
    hide Flatten, ReadFields, StringsFit, PutI64, IdentitySegments;
    var xs := SessionTail(e);
    assert Contents(xs) == [PutI64(e.issuedAt), PutI64(e.expiresAt), e.signature];
    FieldsBack([Width(8), Width(8), Prefixed], xs, rest);
  }

  lemma SessionBack(e: Evidence, rest: Bytes)
    requires e.Session? && EvidenceFits(e)
    ensures ReadSession(EvidenceBytes(e) + rest) == Some((e, rest))
  {
    hide Flatten, ReadFields, ReadStrings, PutStrings, StringsFit, PutI64, I64Of, IdentitySegments;
    var head, tail := Flatten(SessionHead(e)), Flatten(SessionTail(e));
    Regroup4(head, PutStrings(e.scopes), PutStrings(e.audiences), tail, rest);
    assert EvidenceBytes(e) + rest == head + (PutStrings(e.scopes) + (PutStrings(e.audiences) + (tail + rest)));
    SessionHeadBack(e, PutStrings(e.scopes) + (PutStrings(e.audiences) + (tail + rest)));
    StringsBack(e.scopes, PutStrings(e.audiences) + (tail + rest));
    StringsBack(e.audiences, tail + rest);
    SessionTailBack(e, rest);
    hide EvidenceBytes, EvidenceFits, SessionHead, SessionTail;
    NumbersBack(0, e.issuedAt);
    NumbersBack(0, e.expiresAt);
  }

  /** The two arms without an encoding. */
  predicate Readable(a: Authority) {
    a.Binding? ==> !a.relation.CredentialOf? && !a.evidence.Attestation?
  }

  lemma EvidenceBack(e: Evidence, rest: Bytes)
    requires !e.Attestation? && EvidenceFits(e)
    ensures ReadEvidence(e.Tag(), EvidenceBytes(e) + rest) == Some((e, rest))
  {
    hide ReadDelegation, ReadSession;
    if e.Delegation? {
      DelegationBack(e, rest);
    } else if e.Session? {
      SessionBack(e, rest);
    } else {
      assert [] + rest == rest;
    }
  }

  lemma BootstrapBack(a: Authority, rest: Bytes)
    requires a.Bootstrap? && AuthorityFits(a)
    ensures ReadAuthority(AuthorityBytes(a) + rest) == Some((a, rest))
  {
    var xs := [Block(a.principal), Block(a.realm), Block(a.ability)];
    assert BootstrapSegments(a)[1..] == xs;
    FlattenHead(BootstrapSegments(a), rest);
    hide Flatten, ReadFields;
    var b := AuthorityBytes(a) + rest;
    assert b[0] == 6 && b[1..] == Flatten(xs) + rest;
    FieldsBack([Prefixed, Prefixed, Prefixed], xs, rest);
  }

  lemma BindingBack(a: Authority, rest: Bytes)
    requires a.Binding? && AuthorityFits(a) && Readable(a)
    ensures ReadAuthority(AuthorityBytes(a) + rest) == Some((a, rest))
  {
    BindingFirstByte(a);
    hide Flatten, ReadFields, EvidenceBytes, EvidenceFits, ReadEvidence;
    var xs := BindingSegments(a.authority, a.relation, a.evidence);
    var b := AuthorityBytes(a) + rest;
    assert b[0] == AuthorityBytes(a)[0];
    Assoc(Flatten(xs), EvidenceBytes(a.evidence), rest);
    FieldsBack([Prefixed, Prefixed, Width(1), Width(1)], xs, EvidenceBytes(a.evidence) + rest);
    assert Contents(xs)[2] == [a.relation.Tag()] && Contents(xs)[3] == [a.evidence.Tag()];
    EvidenceBack(a.evidence, rest);
  }

  lemma AuthorityBack(a: Authority, rest: Bytes)
    requires AuthorityFits(a) && Readable(a)
    ensures ReadAuthority(AuthorityBytes(a) + rest) == Some((a, rest))
  {
    hide ReadAuthority, AuthorityBytes;
    if a.Bootstrap? {
      BootstrapBack(a, rest);
    } else {
      BindingBack(a, rest);
    }
  }

  // ---- Parts in blocks ----

  lemma PairBack(h: Hash, ura: Bytes)
    requires |ura| < TWO_32
    ensures Whole(ReadFields([Width(32), Prefixed], Flatten([Fixed(h), Block(ura)]))) == Some([h, ura])
  {
    hide Flatten, ReadFields;
    assert Flatten([Fixed(h), Block(ura)]) + [] == Flatten([Fixed(h), Block(ura)]);
    PairFieldsBack(h, ura, []);
  }

  lemma CausalBack(c: Causal)
    requires CausalFits(c)
    ensures ReadCausal(CausalBytes(c)) == Some(c)
  {
    hide Flatten, ReadFields, ReadRefs, PutRefs, RefsFit;
    var b := CausalBytes(c);
    match c
    case CausalNone =>
    case CausalScalar(ref) =>
      assert b[0] == 1 && b[1..] == Flatten([Fixed(ref.hash), Block(ref.ura)]);
      PairBack(ref.hash, ref.ura);
    case CausalList(refs) =>
      assert b[0] == 2 && b[1..] == PutRefs(refs) && PutRefs(refs) + [] == PutRefs(refs);
      RefsBack(refs, []);
    case CausalMerkle(root, proof) =>
      assert b[0] == 3 && b[1..] == Flatten([Fixed(root), Block(proof)]);
      PairBack(root, proof);
  }

  lemma EntityBack(e: EntityRef)
    requires EntityFits(e)
    ensures ReadEntity(EntityBytes(e)) == Some(e)
  {
    hide Flatten, ReadFields;
    var xs := [Fixed([e.kind]), Block(e.ura), Block(e.profile)];
    assert EntityBytes(e) == Flatten(xs) + [];
    FieldsBack([Width(1), Prefixed, Prefixed], xs, []);
    assert Contents(xs)[0] == [e.kind] && Contents(xs)[1] == e.ura && Contents(xs)[2] == e.profile;
  }

  lemma BlockBack(x: Bytes, rest: Bytes)
    requires |x| < TWO_32
    ensures ReadFields([Prefixed], PutBlock(x) + rest) == Some(([x], rest))
  {
    FlattenOne(Block(x));
    assert Contents([Block(x)]) == [x];
    hide Flatten, ReadFields, PutBlock;
    FieldsBack([Prefixed], [Block(x)], rest);
  }

  lemma OptionalAuthorityBack(a: Option<Authority>)
    requires a.Some? ==> AuthorityFits(a.value) && Readable(a.value)
    ensures ReadOptionalAuthority(if a.None? then None else Some([AuthorityBytes(a.value)])) == Some(a)
  {
    hide AuthorityBytes, ReadAuthority;
    if a.Some? {
      assert AuthorityBytes(a.value) + [] == AuthorityBytes(a.value);
      AuthorityBack(a.value, []);
    }
  }

  lemma BindingPartBack(a: Option<Authority>, rest: Bytes)
    requires PartFits(BindingPart(a))
    ensures ReadMarked([Prefixed], PutMarked(BindingPart(a)) + rest)
         == Some((if a.None? then None else Some([AuthorityBytes(a.value)]), rest))
  {
    hide AuthorityBytes, ReadMarked, PutMarked;
    if a.Some? {
      assert Contents(BindingPart(a).value) == [AuthorityBytes(a.value)];
      assert BindingPart(a).value[0] == Block(AuthorityBytes(a.value));
    }
    MarkedBack([Prefixed], BindingPart(a), rest);
  }

  lemma IssuerPartBack(i: Option<Identity>, rest: Bytes)
    requires PartFits(IssuerPart(i))
    ensures ReadMarked([Prefixed, Prefixed], PutMarked(IssuerPart(i)) + rest)
         == Some((if i.None? then None else Some([i.value.ura, i.value.profile]), rest))
  {
    hide ReadMarked, PutMarked;
    if i.Some? {
      var xs := IssuerPart(i).value;
      assert xs[0] == Block(i.value.ura) && xs[1] == Block(i.value.profile) && Contents(xs) == [i.value.ura, i.value.profile];
    }
    MarkedBack([Prefixed, Prefixed], IssuerPart(i), rest);
  }

  lemma SignaturePartBack(sig: Option<Signature>, rest: Bytes)
    requires PartFits(SignaturePart(sig))
    ensures ReadMarked([Prefixed, Prefixed, Prefixed], PutMarked(SignaturePart(sig)) + rest)
         == Some((if sig.None? then None else Some([sig.value.algorithm, sig.value.signature, sig.value.keyIdHint]), rest))
  {
    hide ReadMarked, PutMarked;
    if sig.Some? {
      var xs := SignaturePart(sig).value;
      assert xs[0] == Block(sig.value.algorithm) && xs[1] == Block(sig.value.signature) && xs[2] == Block(sig.value.keyIdHint);
      assert Contents(xs) == [sig.value.algorithm, sig.value.signature, sig.value.keyIdHint];
    }
    MarkedBack([Prefixed, Prefixed, Prefixed], SignaturePart(sig), rest);
  }

  lemma ProofBack(p: AuthorityProof)
    requires ProofFits(p) && (p.binding.Some? ==> Readable(p.binding.value))
    ensures ReadProof(ProofBytes(p)) == Some(p)
  {
    hide Flatten, ReadFields, PutMarked, ReadMarked, PutBlock, BindingPart, IssuerPart, SignaturePart, AuthorityBytes,
         PartFits, AuthorityFits, Readable, ReadOptionalAuthority;
    var b2 := ProofRest(p);
    var b1 := PutMarked(BindingPart(p.binding)) + b2;
    var b4 := PutMarked(SignaturePart(p.signature)) + PutBlock(p.admissionHook);
    var b3 := PutMarked(IssuerPart(p.issuer)) + b4;
    assert ProofBytes(p) == PutBlock(p.proofType) + b1 && b2 == Flatten(ProofMiddle(p)) + b3;
    BlockBack(p.proofType, b1);
    BindingPartBack(p.binding, b2);
    OptionalAuthorityBack(p.binding);
    FieldsBack([Prefixed, Width(32)], ProofMiddle(p), b3);
    assert Contents(ProofMiddle(p)) == [p.payload, p.proofHash];
    IssuerPartBack(p.issuer, b4);
    SignaturePartBack(p.signature, PutBlock(p.admissionHook));
    assert PutBlock(p.admissionHook) + [] == PutBlock(p.admissionHook);
    BlockBack(p.admissionHook, []);
  }

  lemma SubjectPartBack(e: Option<EntityRef>, rest: Bytes)
    requires PartFits(SubjectPart(e)) && (e.Some? ==> EntityFits(e.value))
    ensures ReadMarked([Prefixed], PutMarked(SubjectPart(e)) + rest)
         == Some((if e.None? then None else Some([EntityBytes(e.value)]), rest))
    ensures ReadOptionalEntity(if e.None? then None else Some([EntityBytes(e.value)])) == Some(e)
  {
    hide EntityBytes, ReadMarked, PutMarked, ReadEntity;
    if e.Some? {
      assert Contents(SubjectPart(e).value) == [EntityBytes(e.value)];
      assert SubjectPart(e).value[0] == Block(EntityBytes(e.value));
      EntityBack(e.value);
    }
    MarkedBack([Prefixed], SubjectPart(e), rest);
  }

  lemma FactFieldsBack(f: ProofFacts, rest: Bytes)
    requires Sized(FactSegments(f))
    ensures ReadFields(FACTS, Flatten(FactSegments(f)) + rest)
         == Some(([f.descriptorVersion, f.schemaHash, f.implHash, f.runtimeEnv, ProofBytes(f.proof), f.inputHash, f.outputHash], rest))
  {
    hide Flatten, ReadFields, ProofBytes;
    var xs := FactSegments(f);
    assert Fill(FACTS, xs);
    assert Contents(xs) == [f.descriptorVersion, f.schemaHash, f.implHash, f.runtimeEnv, ProofBytes(f.proof), f.inputHash, f.outputHash];
    FieldsBack(FACTS, xs, rest);
  }

  lemma FactsBack(f: ProofFacts)
    requires FactsFit(f) && f.complete && (f.proof.binding.Some? ==> Readable(f.proof.binding.value))
    ensures ReadFacts(FactsBytes(f)) == Some(f)
  {
    hide Flatten, ReadFields, PutMarked, ReadMarked, SubjectPart, PartFits, FactSegments, PutRefs, ReadRefs, RefsFit,
         ReadProof, ProofBytes, Readable, ReadOptionalEntity, Sized, EntityFits, ProofFits;
    var rest := PutRefs(f.parents);
    SubjectPartBack(f.subjectRef, Flatten(FactSegments(f)) + rest);
    FactFieldsBack(f, rest);
    ProofBack(f.proof);
    assert rest + [] == rest;
    RefsBack(f.parents, []);
  }

  // ---- The receipt ----

  function HeadContents(r: ReceiptBody): seq<Bytes> {
    [PutU64(r.index), r.invocationId, r.receiptType, r.state, PutI64(r.timestamp), r.prevHash,
     r.caller.ura, r.caller.profile, r.callee.ura, r.callee.profile, r.subject.ura, r.subject.profile,
     r.nonce, CausalBytes(r.causal), r.payloadDigest, r.reason, [if r.cleanupComplete then 1 else 0]]
  }

  lemma HeadFieldsBack(r: ReceiptBody, rest: Bytes)
    requires Sized(HeadSegments(r))
    ensures ReadFields(HEAD, Flatten(HeadSegments(r)) + rest) == Some((HeadContents(r), rest))
  {
    hide Flatten, ReadFields, CausalBytes, PutU64, PutI64;
    var xs := HeadSegments(r);
    assert Fill(HEAD, xs) && Contents(xs) == HeadContents(r);
    FieldsBack(HEAD, xs, rest);
  }

  lemma AssembledBack(r: ReceiptBody)
    ensures Shaped(HEAD, HeadContents(r)) && HeadContents(r)[13] == CausalBytes(r.causal)
    ensures Assembled(HeadContents(r), r.causal, Tail(r.hosted, r.ability, r.authority, r.usage, r.facts)) == r
  {
    NumbersBack(r.index, r.timestamp);
    hide CausalBytes, PutU64, PutI64, U64Of, I64Of;
  }

  lemma HostedPartBack(h: Option<Hosted>, rest: Bytes)
    requires PartFits(HostedPart(h))
    ensures
      var read := ReadMarked([Prefixed, Prefixed, Prefixed], PutMarked(HostedPart(h)) + rest);
      read.Some? && read.value.1 == rest && HostedOf(read.value.0) == h
  {
    hide ReadMarked, PutMarked;
    if h.Some? {
      var xs := HostedPart(h).value;
      assert xs[0] == Block(h.value.signer.ura) && xs[1] == Block(h.value.signer.profile) && xs[2] == Block(h.value.attestation);
      assert Contents(xs) == [h.value.signer.ura, h.value.signer.profile, h.value.attestation];
    }
    MarkedBack([Prefixed, Prefixed, Prefixed], HostedPart(h), rest);
  }

  lemma UsageBack(u: Usage, facts: Bytes, rest: Bytes)
    requires |facts| < TWO_32
    ensures
      var read := ReadFields(USAGE, Flatten(TailSegments(u, facts)) + rest);
      read.Some? && read.value.1 == rest && UsageOf(read.value.0) == u && read.value.0[4] == facts
  {
    hide Flatten, ReadFields, PutU64, PutU32, U64Of, U32Of;
    var xs := TailSegments(u, facts);
    FieldsBack(USAGE, xs, rest);
    assert Contents(xs) == [PutU64(u.tokensIn), PutU64(u.tokensOut), PutU64(u.durationMs), PutU32(u.externalCalls), facts];
    NumbersBack(u.tokensIn, 0);
    NumbersBack(u.tokensOut, 0);
    NumbersBack(u.durationMs, 0);
    NumbersBack(u.externalCalls, 0);
  }

  lemma EncodableIsReadable(sha: Bytes -> Hash, r: ReceiptBody)
    requires Encodable(sha, r)
    ensures Readable(r.authority) && r.facts.complete
    ensures r.facts.proof.binding.Some? && Readable(r.facts.proof.binding.value)
  {
    hide Blank, IsZero, ExpectedProofHash;
  }

  lemma TailBack(r: ReceiptBody, rest: Bytes)
    requires Fits(r) && Readable(r.authority) && r.facts.complete
    requires r.facts.proof.binding.Some? ==> Readable(r.facts.proof.binding.value)
    ensures ReadTail(Rest(r) + rest) == Some((Tail(r.hosted, r.ability, r.authority, r.usage, r.facts), rest))
  {
    TailSized(r);
    hide Flatten, ReadFields, PutMarked, ReadMarked, PutBlock, HostedPart, HostedOf, AuthorityBytes, ReadAuthority,
         ReadFacts, FactsBytes, FactsFit, TailSegments, UsageOf, CausalFits, HeadSegments,
         Readable, PartFits, AuthorityFits, Sized;
    var tail := TailSegments(r.usage, FactsBytes(r.facts));
    var b4 := Flatten(tail) + rest;
    var b3 := AuthorityBytes(r.authority) + b4;
    var b2 := PutBlock(r.ability) + b3;
    Regroup4(PutMarked(HostedPart(r.hosted)), PutBlock(r.ability), AuthorityBytes(r.authority), Flatten(tail), rest);
    assert Rest(r) + rest == PutMarked(HostedPart(r.hosted)) + b2;
    hide Rest, AfterHosted, Fits;
    HostedPartBack(r.hosted, b2);
    BlockBack(r.ability, b3);
    AuthorityBack(r.authority, b4);
    UsageBack(r.usage, FactsBytes(r.facts), rest);
    FactsBack(r.facts);
  }

  /** The reader gives every receipt back field by field, whatever follows it. */
  lemma ReceiptReadsBack(sha: Bytes -> Hash, r: ReceiptBody, rest: Bytes)
    requires Encodable(sha, r) && Fits(r)
    ensures ReadReceipt(SignedBytes(r) + rest) == Some((r, rest))
  {
    EncodableIsReadable(sha, r);
    assert SignedBytes(r) == Flatten(HeadSegments(r)) + Rest(r);
    hide Flatten, ReadFields, Rest, SignedBytes, CausalFits, CausalBytes, ReadCausal, HeadSegments, Encodable, ReadTail,
         Readable, PartFits, AuthorityFits, FactsFit, Sized, TailSegments, HostedPart, FactsBytes, HeadContents, Assembled, Shaped;
    Assoc(Flatten(HeadSegments(r)), Rest(r), rest);
    HeadFieldsBack(r, Rest(r) + rest);
    AssembledBack(r);
    CausalBack(r.causal);
    TailBack(r, rest);
  }

  lemma TailSized(r: ReceiptBody)
    requires Fits(r)
    ensures |FactsBytes(r.facts)| < TWO_32
  {
    hide FactsBytes, HeadSegments, FactsFit, AuthorityFits, CausalFits, HostedPart;
    assert TailSegments(r.usage, FactsBytes(r.facts))[4] == Block(FactsBytes(r.facts));
  }

  function CallContents(e: Envelope, subject: EntityRef, abilityRef: Bytes): seq<Bytes> {
    [e.caller.ura, e.caller.profile, e.callee.ura, e.callee.profile, EntityBytes(subject), abilityRef,
     e.argsDigest, e.nonce, CausalBytes(e.causal)]
  }

  lemma CallFieldsBack(e: Envelope, subject: EntityRef, abilityRef: Bytes)
    requires Sized(EnvelopeSegments(e, subject, abilityRef))
    ensures Whole(ReadFields(CALL, Flatten(EnvelopeSegments(e, subject, abilityRef)))) == Some(CallContents(e, subject, abilityRef))
  {
    hide Flatten, ReadFields, EntityBytes, CausalBytes;
    var xs := EnvelopeSegments(e, subject, abilityRef);
    assert Fill(CALL, xs) && Contents(xs) == CallContents(e, subject, abilityRef);
    assert Flatten(xs) + [] == Flatten(xs);
    FieldsBack(CALL, xs, []);
  }

  lemma CallBack(e: Envelope, subject: EntityRef, abilityRef: Bytes)
    requires Sized(EnvelopeSegments(e, subject, abilityRef)) && EntityFits(subject) && CausalFits(e.causal)
    ensures ReadInvocation(Flatten(EnvelopeSegments(e, subject, abilityRef)))
         == Some(SignedCall(e.caller, e.callee, subject, abilityRef, e.argsDigest, e.nonce, e.causal))
  {
    hide Flatten, ReadFields, Whole, EntityBytes, CausalBytes, ReadEntity, ReadCausal, CausalFits, EntityFits, EnvelopeSegments;
    CallFieldsBack(e, subject, abilityRef);
    EntityBack(subject);
    CausalBack(e.causal);
  }

  /** So does the reader of what an invocation's caller signs. */
  lemma InvocationReadsBack(kindOf: Identity -> Option<byte>, canon: Bytes -> Option<Bytes>, e: Envelope)
    requires InvocationBytes(kindOf, canon, e).Some? && EnvelopeFits(canon, e)
    ensures ReadInvocation(InvocationBytes(kindOf, canon, e).value) == Some(SignedCall(
      e.caller, e.callee, EntityRef(kindOf(e.subject).value, e.subject.ura, e.subject.profile),
      canon(e.ability).value, e.argsDigest, e.nonce, e.causal))
  {
    var subject := EntityRef(kindOf(e.subject).value, e.subject.ura, e.subject.profile);
    EnvelopeSized(canon, e, subject.kind);
    hide Flatten, ReadInvocation, Sized, EnvelopeSegments, CausalFits;
    CallBack(e, subject, canon(e.ability).value);
  }
}
