/** Unique decodability of the canonical encodings, and why the authority plane
    needs its bound. Every lemma ending in Cut reads one value off the front of
    a byte string: equal strings carry equal values and equal remainders. */
module CanonicalInjective {
  import opened Wrappers
  import opened ByteStrings
  import opened Canonical

  lemma Assoc(a: Bytes, b: Bytes, c: Bytes)
    ensures (a + b) + c == a + (b + c)
  {
  }

  lemma Regroup3(a: Bytes, b: Bytes, c: Bytes, r: Bytes)
    ensures (a + (b + c)) + r == a + (b + (c + r))
  {
    Assoc(a, b + c, r);
    Assoc(b, c, r);
  }

  lemma Regroup4(a: Bytes, b: Bytes, c: Bytes, d: Bytes, r: Bytes)
    ensures (a + (b + (c + d))) + r == a + (b + (c + (d + r)))
  {
    Assoc(a, b + (c + d), r);
    Regroup3(b, c, d, r);
  }

  lemma FirstByte(n: nat)
    requires n < TWO_32
    ensures PutU32(n)[0] as int == n / 0x100_0000
  {
    assert BigEndian(n, 4)[0] == BigEndian(n / 256, 3)[0];
    assert BigEndian(n / 256, 3)[0] == BigEndian(n / 256 / 256, 2)[0];
    assert BigEndian(n / 256 / 256, 2)[0] == BigEndian(n / 256 / 256 / 256, 1)[0];
    assert BigEndian(n / 256 / 256 / 256, 1) == BigEndian(n / 256 / 256 / 256 / 256, 0) + [(n / 256 / 256 / 256 % 256) as byte];
  }

  lemma CountCut(n: nat, r: Bytes, m: nat, s: Bytes)
    requires n < TWO_32 && m < TWO_32 && PutU32(n) + r == PutU32(m) + s
    ensures n == m && r == s
  {
    hide PutU32;
    Cut(PutU32(n), r, PutU32(m), s);
    PutU32Injective(n, m);
  }

  lemma StringsCut(xs: seq<Bytes>, r: Bytes, ys: seq<Bytes>, s: Bytes)
    requires StringsFit(xs) && StringsFit(ys)
    requires PutStrings(xs) + r == PutStrings(ys) + s
    ensures xs == ys && r == s
  {
    hide PutU32, Flatten;
    Assoc(PutU32(|xs|), Flatten(Blocks(xs)), r);
    Assoc(PutU32(|ys|), Flatten(Blocks(ys)), s);
    CountCut(|xs|, Flatten(Blocks(xs)) + r, |ys|, Flatten(Blocks(ys)) + s);
    FlattenCut(Blocks(xs), r, Blocks(ys), s);
    forall i | 0 <= i < |xs| ensures xs[i] == ys[i] {
      assert Blocks(xs)[i].bytes == Blocks(ys)[i].bytes;
    }
  }

  lemma RefSegmentsShape(xs: seq<ReceiptRef>, ys: seq<ReceiptRef>)
    requires |xs| == |ys|
    ensures SameShape(RefSegments(xs), RefSegments(ys))
  {
    var a, b := RefSegments(xs), RefSegments(ys);
    hide RefSegments;
    forall i | 0 <= i < |a| ensures a[i].Fixed? == b[i].Fixed? && (a[i].Fixed? ==> |a[i].bytes| == |b[i].bytes|) {
      var k := i / 2;
      assert a[2 * k] == Fixed(xs[k].hash) && a[2 * k + 1] == Block(xs[k].ura);
      assert b[2 * k] == Fixed(ys[k].hash) && b[2 * k + 1] == Block(ys[k].ura);
      assert i == 2 * k || i == 2 * k + 1;
    }
  }

  lemma RefsCut(xs: seq<ReceiptRef>, r: Bytes, ys: seq<ReceiptRef>, s: Bytes)
    requires RefsFit(xs) && RefsFit(ys)
    requires PutRefs(xs) + r == PutRefs(ys) + s
    ensures xs == ys && r == s
  {
    hide PutU32, Flatten, RefSegments;
    var a, b := RefSegments(xs), RefSegments(ys);
    Assoc(PutU32(|xs|), Flatten(a), r);
    Assoc(PutU32(|ys|), Flatten(b), s);
    CountCut(|xs|, Flatten(a) + r, |ys|, Flatten(b) + s);
    RefSegmentsShape(xs, ys);
    FlattenCut(a, r, b, s);
    forall i | 0 <= i < |xs| ensures xs[i] == ys[i] {
      assert a[2 * i] == b[2 * i] && a[2 * i + 1] == b[2 * i + 1];
    }
  }

  // ---- The authority plane ----

  function GrantTail(e: Evidence): seq<Segment>
    requires e.Delegation?
  {
    [Block(e.audience), Fixed(PutI64(e.issuedAt)), Fixed(PutI64(e.expiresAt)), Block(e.signature)]
  }

  lemma DelegationCut(e: Evidence, r: Bytes, f: Evidence, s: Bytes)
    requires e.Delegation? && f.Delegation? && EvidenceFits(e) && EvidenceFits(f)
    requires EvidenceBytes(e) + r == EvidenceBytes(f) + s
    ensures e == f && r == s
  {
    hide PutU32, Flatten, PutStrings, PutI64, StringsFit;
    var a, b := IdentitySegments(e.issuer), IdentitySegments(f.issuer);
    var x, y := Flatten(GrantTail(e)), Flatten(GrantTail(f));
    Regroup3(Flatten(a), PutStrings(e.scopes), x, r);
    Regroup3(Flatten(b), PutStrings(f.scopes), y, s);
    FlattenCut(a, PutStrings(e.scopes) + (x + r), b, PutStrings(f.scopes) + (y + s));
    assert a[0] == b[0] && a[1] == b[1];
    StringsCut(e.scopes, x + r, f.scopes, y + s);
    GrantTailCut(e, r, f, s);
  }

  lemma GrantTailCut(e: Evidence, r: Bytes, f: Evidence, s: Bytes)
    requires e.Delegation? && f.Delegation? && EvidenceFits(e) && EvidenceFits(f)
    requires Flatten(GrantTail(e)) + r == Flatten(GrantTail(f)) + s
    ensures e.audience == f.audience && e.issuedAt == f.issuedAt && e.expiresAt == f.expiresAt
    ensures e.signature == f.signature && r == s
  {
    hide PutI64, Flatten, StringsFit;
    var a, b := GrantTail(e), GrantTail(f);
    FlattenCut(a, r, b, s);
    assert a[0] == b[0] && a[1] == b[1] && a[2] == b[2] && a[3] == b[3];
    PutI64Injective(e.issuedAt, f.issuedAt);
    PutI64Injective(e.expiresAt, f.expiresAt);
  }

  function SessionHead(e: Evidence): seq<Segment>
    requires e.Session?
  {
    [Block(e.issuer.ura), Block(e.issuer.profile), Block(e.sessionId)]
  }

  function SessionTail(e: Evidence): seq<Segment>
    requires e.Session?
  {
    [Fixed(PutI64(e.issuedAt)), Fixed(PutI64(e.expiresAt)), Block(e.signature)]
  }

  lemma SessionTailCut(e: Evidence, r: Bytes, f: Evidence, s: Bytes)
    requires e.Session? && f.Session? && EvidenceFits(e) && EvidenceFits(f)
    requires Flatten(SessionTail(e)) + r == Flatten(SessionTail(f)) + s
    ensures e.issuedAt == f.issuedAt && e.expiresAt == f.expiresAt && e.signature == f.signature && r == s
  {
    hide PutI64, Flatten, StringsFit;
    var a, b := SessionTail(e), SessionTail(f);
    FlattenCut(a, r, b, s);
    assert a[0] == b[0] && a[1] == b[1] && a[2] == b[2];
    PutI64Injective(e.issuedAt, f.issuedAt);
    PutI64Injective(e.expiresAt, f.expiresAt);
  }

  lemma SessionCut(e: Evidence, r: Bytes, f: Evidence, s: Bytes)
    requires e.Session? && f.Session? && EvidenceFits(e) && EvidenceFits(f)
    requires EvidenceBytes(e) + r == EvidenceBytes(f) + s
    ensures e == f && r == s
  {
    hide PutU32, Flatten, PutStrings, PutI64, StringsFit;
    var a, b := SessionHead(e), SessionHead(f);
    var x, y := Flatten(SessionTail(e)), Flatten(SessionTail(f));
    Regroup4(Flatten(a), PutStrings(e.scopes), PutStrings(e.audiences), x, r);
    Regroup4(Flatten(b), PutStrings(f.scopes), PutStrings(f.audiences), y, s);
    assert IdentitySegments(e.issuer)[0] == a[0] && IdentitySegments(e.issuer)[1] == a[1];
    assert IdentitySegments(f.issuer)[0] == b[0] && IdentitySegments(f.issuer)[1] == b[1];
    FlattenCut(a, PutStrings(e.scopes) + (PutStrings(e.audiences) + (x + r)),
               b, PutStrings(f.scopes) + (PutStrings(f.audiences) + (y + s)));
    assert a[0] == b[0] && a[1] == b[1] && a[2] == b[2];
    StringsCut(e.scopes, PutStrings(e.audiences) + (x + r), f.scopes, PutStrings(f.audiences) + (y + s));
    StringsCut(e.audiences, x + r, f.audiences, y + s);
    SessionTailCut(e, r, f, s);
  }

  lemma EvidenceCut(e: Evidence, r: Bytes, f: Evidence, s: Bytes)
    requires e.Tag() == f.Tag() && EvidenceFits(e) && EvidenceFits(f)
    requires EvidenceBytes(e) + r == EvidenceBytes(f) + s
    ensures e == f && r == s
  {
    if e.Delegation? {
      DelegationCut(e, r, f, s);
    } else if e.Session? {
      SessionCut(e, r, f, s);
    } else {
      assert [] + r == r && [] + s == s;
    }
  }

  lemma BindingCut(a: Authority, r: Bytes, b: Authority, s: Bytes)
    requires a.Binding? && b.Binding? && AuthorityFits(a) && AuthorityFits(b)
    requires AuthorityBytes(a) + r == AuthorityBytes(b) + s
    ensures a == b && r == s
  {
    hide Flatten, EvidenceBytes, EvidenceFits;
    var x := BindingSegments(a.authority, a.relation, a.evidence);
    var y := BindingSegments(b.authority, b.relation, b.evidence);
    Assoc(Flatten(x), EvidenceBytes(a.evidence), r);
    Assoc(Flatten(y), EvidenceBytes(b.evidence), s);
    FlattenCut(x, EvidenceBytes(a.evidence) + r, y, EvidenceBytes(b.evidence) + s);
    assert x[0] == y[0] && x[1] == y[1] && x[2] == y[2] && x[3] == y[3];
    assert x[2].bytes[0] == a.relation.Tag() && y[2].bytes[0] == b.relation.Tag();
    assert x[3].bytes[0] == a.evidence.Tag() && y[3].bytes[0] == b.evidence.Tag();
    EvidenceCut(a.evidence, r, b.evidence, s);
  }

  function BootstrapSegments(a: Authority): seq<Segment>
    requires a.Bootstrap?
  {
    [Fixed([BOOTSTRAP_TAG]), Block(a.principal), Block(a.realm), Block(a.ability)]
  }

  lemma BootstrapCut(a: Authority, r: Bytes, b: Authority, s: Bytes)
    requires a.Bootstrap? && b.Bootstrap? && AuthorityFits(a) && AuthorityFits(b)
    requires AuthorityBytes(a) + r == AuthorityBytes(b) + s
    ensures a == b && r == s
  {
    hide Flatten;
    var x, y := BootstrapSegments(a), BootstrapSegments(b);
    FlattenCut(x, r, y, s);
    assert x[1] == y[1] && x[2] == y[2] && x[3] == y[3];
  }

  /** A binding begins with the top byte of its URA length. */
  lemma BindingFirstByte(a: Authority)
    requires a.Binding? && |a.authority.ura| < TWO_32
    ensures AuthorityBytes(a) != [] && AuthorityBytes(a)[0] as int == |a.authority.ura| / 0x100_0000
  {
    var x := BindingSegments(a.authority, a.relation, a.evidence);
    hide EvidenceBytes, PutU32;
    assert Flatten(x) == x[0].Encoded() + Flatten(x[1..]);
    FirstByte(|a.authority.ura|);
    assert x[0].Encoded()[0] == PutU32(|a.authority.ura|)[0];
  }

  lemma PlanesDiffer(a: Authority, r: Bytes, b: Authority, s: Bytes)
    requires a.Binding? && b.Bootstrap? && AuthorityFits(a)
    ensures AuthorityBytes(a) + r != AuthorityBytes(b) + s
  {
    BindingFirstByte(a);
    var y := BootstrapSegments(b);
    assert Flatten(y) == y[0].Encoded() + Flatten(y[1..]);
    assert (AuthorityBytes(b) + s)[0] == BOOTSTRAP_TAG;
    assert (AuthorityBytes(a) + r)[0] == AuthorityBytes(a)[0];
  }

  /** Both planes share one slot with no length prefix, yet are told apart. */
  lemma AuthorityCut(a: Authority, r: Bytes, b: Authority, s: Bytes)
    requires AuthorityFits(a) && AuthorityFits(b)
    requires AuthorityBytes(a) + r == AuthorityBytes(b) + s
    ensures a == b && r == s
  {
    hide AuthorityBytes, AuthorityFits;
    if a.Binding? && b.Binding? {
      BindingCut(a, r, b, s);
    } else if a.Bootstrap? && b.Bootstrap? {
      BootstrapCut(a, r, b, s);
    } else if a.Binding? {
      PlanesDiffer(a, r, b, s);
    } else {
      PlanesDiffer(b, s, a, r);
    }
  }

  // ---- Causal context, proof facts ----

  lemma CausalInjective(c: Causal, d: Causal)
    requires CausalFits(c) && CausalFits(d) && CausalBytes(c) == CausalBytes(d)
    ensures c == d
  {
    hide Flatten, PutRefs, RefsFit;
    var x, y := CausalBytes(c), CausalBytes(d);
    assert x[0] == y[0] && x[1..] == y[1..];
    if c.CausalScalar? {
      var a, b := [Fixed(c.ref.hash), Block(c.ref.ura)], [Fixed(d.ref.hash), Block(d.ref.ura)];
      assert Flatten(a) + [] == x[1..] && Flatten(b) + [] == y[1..];
      FlattenCut(a, [], b, []);
      assert a[0] == b[0] && a[1] == b[1];
    } else if c.CausalList? {
      assert PutRefs(c.refs) + [] == x[1..] && PutRefs(d.refs) + [] == y[1..];
      RefsCut(c.refs, [], d.refs, []);
    } else if c.CausalMerkle? {
      var a, b := [Fixed(c.root), Block(c.proof)], [Fixed(d.root), Block(d.proof)];
      assert Flatten(a) + [] == x[1..] && Flatten(b) + [] == y[1..];
      FlattenCut(a, [], b, []);
      assert a[0] == b[0] && a[1] == b[1];
    }
  }

  lemma EntityInjective(e: EntityRef, f: EntityRef)
    requires EntityFits(e) && EntityFits(f) && EntityBytes(e) == EntityBytes(f)
    ensures e == f
  {
    hide Flatten;
    var a, b := [Fixed([e.kind]), Block(e.ura), Block(e.profile)], [Fixed([f.kind]), Block(f.ura), Block(f.profile)];
    assert Flatten(a) + [] == EntityBytes(e) && Flatten(b) + [] == EntityBytes(f);
    FlattenCut(a, [], b, []);
    assert a[0] == b[0] && a[1] == b[1] && a[2] == b[2];
    assert [e.kind][0] == [f.kind][0];
  }

  ghost predicate AlikeParts(p: Option<seq<Segment>>, q: Option<seq<Segment>>) {
    p.Some? && q.Some? ==> SameShape(p.value, q.value)
  }

  lemma MarkedCut(p: Option<seq<Segment>>, r: Bytes, q: Option<seq<Segment>>, s: Bytes)
    requires PartFits(p) && PartFits(q) && AlikeParts(p, q)
    requires PutMarked(p) + r == PutMarked(q) + s
    ensures p == q && r == s
  {
    hide Flatten, Sized, SameShape;
    assert (PutMarked(p) + r)[0] == (if p.None? then 0 else 1);
    assert (PutMarked(q) + s)[0] == (if q.None? then 0 else 1);
    if p.None? {
      Cut([0], r, [0], s);
    } else {
      Assoc([1], Flatten(p.value), r);
      Assoc([1], Flatten(q.value), s);
      Cut([1], Flatten(p.value) + r, [1], Flatten(q.value) + s);
      FlattenCut(p.value, r, q.value, s);
    }
  }

  lemma BindingPartInjective(a: Option<Authority>, b: Option<Authority>)
    requires BindingPart(a) == BindingPart(b)
    requires a.Some? ==> AuthorityFits(a.value)
    requires b.Some? ==> AuthorityFits(b.value)
    ensures a == b
  {
    hide AuthorityBytes, AuthorityFits;
    if a.Some? {
      assert BindingPart(a).value[0] == BindingPart(b).value[0];
      assert AuthorityBytes(a.value) + [] == AuthorityBytes(b.value) + [];
      AuthorityCut(a.value, [], b.value, []);
    }
  }

  lemma IssuerPartInjective(i: Option<Identity>, j: Option<Identity>)
    requires IssuerPart(i) == IssuerPart(j)
    ensures i == j
  {
    if i.Some? {
      assert IssuerPart(i).value[0] == IssuerPart(j).value[0] && IssuerPart(i).value[1] == IssuerPart(j).value[1];
    }
  }

  lemma SignaturePartInjective(s: Option<Signature>, t: Option<Signature>)
    requires SignaturePart(s) == SignaturePart(t)
    ensures s == t
  {
    if s.Some? {
      var a, b := SignaturePart(s).value, SignaturePart(t).value;
      assert a[0] == b[0] && a[1] == b[1] && a[2] == b[2];
    }
  }

  lemma SubjectPartInjective(e: Option<EntityRef>, f: Option<EntityRef>)
    requires SubjectPart(e) == SubjectPart(f)
    requires e.Some? ==> EntityFits(e.value)
    requires f.Some? ==> EntityFits(f.value)
    ensures e == f
  {
    hide EntityBytes;
    if e.Some? {
      assert SubjectPart(e).value[0] == SubjectPart(f).value[0];
      EntityInjective(e.value, f.value);
    }
  }

  lemma HostedPartInjective(h: Option<Hosted>, k: Option<Hosted>)
    requires HostedPart(h) == HostedPart(k)
    ensures h == k
  {
    if h.Some? {
      var a, b := HostedPart(h).value, HostedPart(k).value;
      assert a[0] == b[0] && a[1] == b[1] && a[2] == b[2];
    }
  }

  function ProofMiddle(p: AuthorityProof): seq<Segment> {
    [Block(p.payload), Fixed(p.proofHash)]
  }

  /** What follows the binding slot of an authority proof. */
  function ProofRest(p: AuthorityProof): Bytes {
    Flatten(ProofMiddle(p)) + (PutMarked(IssuerPart(p.issuer))
    + (PutMarked(SignaturePart(p.signature)) + PutBlock(p.admissionHook)))
  }

  lemma ProofRestInjective(p: AuthorityProof, q: AuthorityProof)
    requires ProofFits(p) && ProofFits(q) && ProofRest(p) == ProofRest(q)
    ensures p.payload == q.payload && p.proofHash == q.proofHash && p.issuer == q.issuer
    ensures p.signature == q.signature && p.admissionHook == q.admissionHook
  {
    hide Flatten, PutMarked, PutBlock, IssuerPart, SignaturePart, BindingPart, PartFits, AuthorityFits;
    var a, b := ProofMiddle(p), ProofMiddle(q);
    var u, v := PutMarked(SignaturePart(p.signature)) + PutBlock(p.admissionHook),
                PutMarked(SignaturePart(q.signature)) + PutBlock(q.admissionHook);
    FlattenCut(a, PutMarked(IssuerPart(p.issuer)) + u, b, PutMarked(IssuerPart(q.issuer)) + v);
    assert a[0] == b[0] && a[1] == b[1];
    PartsAlike(p, q);
    MarkedCut(IssuerPart(p.issuer), u, IssuerPart(q.issuer), v);
    IssuerPartInjective(p.issuer, q.issuer);
    MarkedCut(SignaturePart(p.signature), PutBlock(p.admissionHook), SignaturePart(q.signature), PutBlock(q.admissionHook));
    SignaturePartInjective(p.signature, q.signature);
    assert PutBlock(p.admissionHook) + [] == PutBlock(q.admissionHook) + [];
    BlockCut(p.admissionHook, [], q.admissionHook, []);
  }

  lemma PartsAlike(p: AuthorityProof, q: AuthorityProof)
    ensures AlikeParts(IssuerPart(p.issuer), IssuerPart(q.issuer))
    ensures AlikeParts(SignaturePart(p.signature), SignaturePart(q.signature))
    ensures AlikeParts(BindingPart(p.binding), BindingPart(q.binding))
  {
    hide AuthorityBytes;
  }

  lemma ProofInjective(p: AuthorityProof, q: AuthorityProof)
    requires ProofFits(p) && ProofFits(q) && ProofBytes(p) == ProofBytes(q)
    ensures p == q
  {
    hide Flatten, PutMarked, PutBlock, IssuerPart, SignaturePart, BindingPart, PartFits, AuthorityFits, AlikeParts;
    var x, y := PutMarked(BindingPart(p.binding)) + ProofRest(p), PutMarked(BindingPart(q.binding)) + ProofRest(q);
    assert ProofBytes(p) == PutBlock(p.proofType) + x;
    assert ProofBytes(q) == PutBlock(q.proofType) + y;
    BlockCut(p.proofType, x, q.proofType, y);
    PartsAlike(p, q);
    hide ProofBytes, ProofRest;
    MarkedCut(BindingPart(p.binding), ProofRest(p), BindingPart(q.binding), ProofRest(q));
    BindingPartInjective(p.binding, q.binding);
    ProofRestInjective(p, q);
  }

  lemma FactSegmentsInjective(f: ProofFacts, g: ProofFacts)
    requires FactSegments(f) == FactSegments(g) && ProofFits(f.proof) && ProofFits(g.proof)
    ensures f.descriptorVersion == g.descriptorVersion && f.schemaHash == g.schemaHash && f.implHash == g.implHash
    ensures f.runtimeEnv == g.runtimeEnv && f.proof == g.proof
    ensures f.inputHash == g.inputHash && f.outputHash == g.outputHash
  {
    hide ProofBytes, ProofFits;
    var a, b := FactSegments(f), FactSegments(g);
    assert a[0] == b[0] && a[1] == b[1] && a[2] == b[2] && a[3] == b[3] && a[4] == b[4] && a[5] == b[5] && a[6] == b[6];
    ProofInjective(f.proof, g.proof);
  }

  lemma FactsShape(f: ProofFacts, g: ProofFacts)
    ensures SameShape(FactSegments(f), FactSegments(g))
    ensures AlikeParts(SubjectPart(f.subjectRef), SubjectPart(g.subjectRef))
  {
    hide ProofBytes, EntityBytes;
  }

  lemma FactsInjective(f: ProofFacts, g: ProofFacts)
    requires FactsFit(f) && FactsFit(g) && f.complete == g.complete && FactsBytes(f) == FactsBytes(g)
    ensures f == g
  {
    hide Flatten, PutMarked, PutRefs, SubjectPart, FactSegments, ProofFits, RefsFit, EntityFits, PartFits,
         AlikeParts, Sized, SameShape;
    FactsShape(f, g);
    var x, y := Flatten(FactSegments(f)) + PutRefs(f.parents), Flatten(FactSegments(g)) + PutRefs(g.parents);
    MarkedCut(SubjectPart(f.subjectRef), x, SubjectPart(g.subjectRef), y);
    SubjectPartInjective(f.subjectRef, g.subjectRef);
    FlattenCut(FactSegments(f), PutRefs(f.parents), FactSegments(g), PutRefs(g.parents));
    FactSegmentsInjective(f, g);
    assert PutRefs(f.parents) + [] == PutRefs(g.parents) + [];
    RefsCut(f.parents, [], g.parents, []);
  }

  // ---- Receipts ----

  lemma HeadShape(r: ReceiptBody, t: ReceiptBody)
    ensures SameShape(HeadSegments(r), HeadSegments(t))
    ensures AlikeParts(HostedPart(r.hosted), HostedPart(t.hosted))
  {
    hide CausalBytes, PutU64, PutI64;
  }

  ghost predicate SameHead(r: ReceiptBody, t: ReceiptBody) {
    && r.index == t.index && r.invocationId == t.invocationId && r.receiptType == t.receiptType
    && r.state == t.state && r.timestamp == t.timestamp && r.prevHash == t.prevHash
    && r.caller == t.caller && r.callee == t.callee && r.subject == t.subject
    && r.nonce == t.nonce && r.causal == t.causal && r.payloadDigest == t.payloadDigest
    && r.reason == t.reason && r.cleanupComplete == t.cleanupComplete
  }

  lemma HeadInjective(r: ReceiptBody, t: ReceiptBody)
    requires HeadSegments(r) == HeadSegments(t) && CausalFits(r.causal) && CausalFits(t.causal)
    ensures SameHead(r, t)
  {
    hide CausalBytes, CausalFits, PutU64, PutI64;
    var a, b := HeadSegments(r), HeadSegments(t);
    assert forall i :: 0 <= i < |a| ==> a[i] == b[i];
    assert a[0] == b[0] && a[1] == b[1] && a[2] == b[2] && a[3] == b[3] && a[4] == b[4] && a[5] == b[5];
    assert a[6] == b[6] && a[7] == b[7] && a[8] == b[8] && a[9] == b[9] && a[10] == b[10] && a[11] == b[11];
    assert a[12] == b[12] && a[13] == b[13] && a[14] == b[14] && a[15] == b[15];
    assert a[16].bytes[0] == b[16].bytes[0];
    PutU64Injective(r.index, t.index);
    PutI64Injective(r.timestamp, t.timestamp);
    CausalInjective(r.causal, t.causal);
  }

  lemma TailInjective(u: Usage, f: ProofFacts, v: Usage, g: ProofFacts)
    requires TailSegments(u, FactsBytes(f)) == TailSegments(v, FactsBytes(g))
    requires FactsFit(f) && FactsFit(g) && f.complete == g.complete
    ensures u == v && f == g
  {
    hide FactsBytes, FactsFit, PutU64, PutU32;
    var a, b := TailSegments(u, FactsBytes(f)), TailSegments(v, FactsBytes(g));
    assert a[0] == b[0] && a[1] == b[1] && a[2] == b[2] && a[3] == b[3] && a[4] == b[4];
    PutU64Injective(u.tokensIn, v.tokensIn);
    PutU64Injective(u.tokensOut, v.tokensOut);
    PutU64Injective(u.durationMs, v.durationMs);
    PutU32Injective(u.externalCalls, v.externalCalls);
    FactsInjective(f, g);
  }

  lemma TailShape(u: Usage, f: Bytes, v: Usage, g: Bytes)
    ensures SameShape(TailSegments(u, f), TailSegments(v, g))
  {
    hide PutU64, PutU32;
  }

  /** Everything from the hosted tail on. */
  function Rest(r: ReceiptBody): Bytes {
    PutMarked(HostedPart(r.hosted)) + AfterHosted(r)
  }

  function AfterHosted(r: ReceiptBody): Bytes {
    PutBlock(r.ability) + (AuthorityBytes(r.authority) + Flatten(TailSegments(r.usage, FactsBytes(r.facts))))
  }

  lemma AfterHostedInjective(r: ReceiptBody, t: ReceiptBody)
    requires Fits(r) && Fits(t) && r.facts.complete == t.facts.complete && AfterHosted(r) == AfterHosted(t)
    ensures r.ability == t.ability && r.authority == t.authority && r.usage == t.usage && r.facts == t.facts
  {
    hide Flatten, PutBlock, AuthorityBytes, FactsBytes, TailSegments, HeadSegments, AuthorityFits, FactsFit,
         CausalFits, PartFits, Sized, SameShape;
    var a, b := TailSegments(r.usage, FactsBytes(r.facts)), TailSegments(t.usage, FactsBytes(t.facts));
    BlockCut(r.ability, AuthorityBytes(r.authority) + Flatten(a), t.ability, AuthorityBytes(t.authority) + Flatten(b));
    AuthorityCut(r.authority, Flatten(a), t.authority, Flatten(b));
    TailShape(r.usage, FactsBytes(r.facts), t.usage, FactsBytes(t.facts));
    assert Flatten(a) + [] == Flatten(b) + [];
    FlattenCut(a, [], b, []);
    TailInjective(r.usage, r.facts, t.usage, t.facts);
  }

  /** Distinct receipts that fit never sign the same bytes. */
  lemma ReceiptBytesInjective(sha: Bytes -> Hash, r: ReceiptBody, t: ReceiptBody)
    requires Encodable(sha, r) && Encodable(sha, t)
    requires Fits(r) && Fits(t)
    requires CanonicalReceiptBytes(sha, r) == CanonicalReceiptBytes(sha, t)
    ensures r == t
  {
    assert r.facts.complete && t.facts.complete;
    assert SignedBytes(r) == Flatten(HeadSegments(r)) + Rest(r);
    assert SignedBytes(t) == Flatten(HeadSegments(t)) + Rest(t);
    hide Flatten, HeadSegments, SignedBytes, PutMarked, HostedPart, AfterHosted, Encodable, AuthorityFits,
         FactsFit, CausalFits, PartFits, Sized, SameShape, AlikeParts, TailSegments, FactsBytes;
    HeadShape(r, t);
    FlattenCut(HeadSegments(r), Rest(r), HeadSegments(t), Rest(t));
    HeadInjective(r, t);
    MarkedCut(HostedPart(r.hosted), AfterHosted(r), HostedPart(t.hosted), AfterHosted(t));
    HostedPartInjective(r.hosted, t.hosted);
    AfterHostedInjective(r, t);
  }

  // ---- Invocation envelopes ----

  /** The signed part of a descriptor-bound envelope. */
  datatype Envelope = Envelope(
    caller: Identity, callee: Identity, subject: Identity, ability: Bytes,
    argsDigest: Hash, nonce: Nonce, causal: Causal)

  function EnvelopeSegments(e: Envelope, subjectRef: EntityRef, abilityRef: Bytes): seq<Segment> {
    [Block(e.caller.ura), Block(e.caller.profile), Block(e.callee.ura), Block(e.callee.profile),
     Block(EntityBytes(subjectRef)), Block(abilityRef),
     Fixed(e.argsDigest), Fixed(e.nonce), Block(CausalBytes(e.causal))]
  }

  /** canonicalDescriptorBoundInvocationBytes. The subject's entity kind and the
      canonical ability ref come from parsers that may refuse. */
  function InvocationBytes(kindOf: Identity -> Option<byte>, canon: Bytes -> Option<Bytes>, e: Envelope): Option<Bytes> {
    var kind := kindOf(e.subject);
    var abilityRef := canon(e.ability);
    if kind.None? || abilityRef.None? then None
    else Some(Flatten(EnvelopeSegments(e, EntityRef(kind.value, e.subject.ura, e.subject.profile), abilityRef.value)))
  }

  ghost predicate EnvelopeFits(canon: Bytes -> Option<Bytes>, e: Envelope)
    requires canon(e.ability).Some?
  {
    && Sized(EnvelopeSegments(e, EntityRef(0, e.subject.ura, e.subject.profile), canon(e.ability).value))
    && |e.subject.ura| < TWO_32 && |e.subject.profile| < TWO_32 && CausalFits(e.causal)
  }

  lemma EnvelopeShape(e: Envelope, s: EntityRef, a: Bytes, f: Envelope, t: EntityRef, b: Bytes)
    ensures SameShape(EnvelopeSegments(e, s, a), EnvelopeSegments(f, t, b))
  {
    hide EntityBytes, CausalBytes;
  }

  lemma EntityLength(e: EntityRef)
    ensures |EntityBytes(e)| == 9 + |e.ura| + |e.profile|
  {
    var a := [Fixed([e.kind]), Block(e.ura), Block(e.profile)];
    hide PutU32;
    assert Flatten(a) == a[0].Encoded() + Flatten(a[1..]);
    assert Flatten(a[1..]) == a[1].Encoded() + Flatten(a[2..]);
    assert Flatten(a[2..]) == a[2].Encoded() + Flatten(a[3..]);
  }

  lemma EnvelopeSized(canon: Bytes -> Option<Bytes>, e: Envelope, kind: byte)
    requires canon(e.ability).Some? && EnvelopeFits(canon, e)
    ensures Sized(EnvelopeSegments(e, EntityRef(kind, e.subject.ura, e.subject.profile), canon(e.ability).value))
  {
    hide EntityBytes, CausalBytes, CausalFits;
    var s, t := EntityRef(0, e.subject.ura, e.subject.profile), EntityRef(kind, e.subject.ura, e.subject.profile);
    EntityLength(s);
    EntityLength(t);
    var a, b := EnvelopeSegments(e, s, canon(e.ability).value), EnvelopeSegments(e, t, canon(e.ability).value);
    assert a[4] == Block(EntityBytes(s));
    forall i | 0 <= i < |b| && b[i].Block? ensures |b[i].bytes| < TWO_32 {
      assert i != 4 ==> b[i] == a[i];
    }
  }

  /** Equal signed bytes mean equal envelopes up to the spelling of the ability. */
  lemma InvocationBytesInjective(
    kindOf: Identity -> Option<byte>, canon: Bytes -> Option<Bytes>, e: Envelope, f: Envelope)
    requires InvocationBytes(kindOf, canon, e).Some? && InvocationBytes(kindOf, canon, f).Some?
    requires EnvelopeFits(canon, e) && EnvelopeFits(canon, f)
    ensures InvocationBytes(kindOf, canon, e) == InvocationBytes(kindOf, canon, f) <==>
            e.(ability := []) == f.(ability := []) && canon(e.ability) == canon(f.ability)
  {
    var s := EntityRef(kindOf(e.subject).value, e.subject.ura, e.subject.profile);
    var t := EntityRef(kindOf(f.subject).value, f.subject.ura, f.subject.profile);
    var a, b := EnvelopeSegments(e, s, canon(e.ability).value), EnvelopeSegments(f, t, canon(f.ability).value);
    EnvelopeSized(canon, e, s.kind);
    EnvelopeSized(canon, f, t.kind);
    EnvelopeShape(e, s, canon(e.ability).value, f, t, canon(f.ability).value);
    hide Flatten, Sized, SameShape, EntityBytes, CausalBytes, CausalFits;
    if InvocationBytes(kindOf, canon, e) == InvocationBytes(kindOf, canon, f) {
      assert Flatten(a) + [] == Flatten(b) + [];
      FlattenCut(a, [], b, []);
      assert a[0] == b[0] && a[1] == b[1] && a[2] == b[2] && a[3] == b[3] && a[4] == b[4];
      assert a[5] == b[5] && a[6] == b[6] && a[7] == b[7] && a[8] == b[8];
      EntityInjective(s, t);
      CausalInjective(e.causal, f.causal);
    }
  }

  // ---- Why the bound on the authority URA is needed ----

  /** A delegation's payload up to and including the signature length. */
  function GrantSegments(grant: Evidence): seq<Segment>
    requires grant.Delegation?
  {
    IdentitySegments(grant.issuer)
    + ([Fixed(PutStrings(grant.scopes))]
       + [Block(grant.audience), Fixed(PutI64(grant.issuedAt)), Fixed(PutI64(grant.expiresAt)), Fixed(PutU32(|grant.signature|))])
  }

  /** The same from the authority profile on. */
  function GrantMiddle(profile: Bytes, grant: Evidence): Bytes
    requires grant.Delegation?
  {
    PutBlock(profile) + ([2, 2] + Flatten(GrantSegments(grant)))
  }

  /** A bootstrap fact whose realm swallows the delegation's middle. */
  function ColludingBootstrap(principal: Bytes, filler: Bytes, profile: Bytes, grant: Evidence, ability: Bytes): Authority
    requires grant.Delegation?
  {
    Bootstrap(principal, filler + GrantMiddle(profile, grant), ability)
  }

  /** A delegation whose URA swallows the bootstrap's principal. */
  function ColludingBinding(principal: Bytes, filler: Bytes, profile: Bytes, grant: Evidence): Authority
    requires grant.Delegation? && 0 < |principal| < 256
  {
    var ura := [|principal| as byte] + principal + PutU32(|filler + GrantMiddle(profile, grant)|) + filler;
    Binding(Identity(ura, profile), DelegatedBy, grant)
  }

  lemma {:induction false} FlattenCat(xs: seq<Segment>, ys: seq<Segment>)
    ensures Flatten(xs + ys) == Flatten(xs) + Flatten(ys)
  {
    if xs == [] {
      assert [] + ys == ys;
    } else {
      assert (xs + ys)[0] == xs[0] && (xs + ys)[1..] == xs[1..] + ys;
      FlattenCat(xs[1..], ys);
      Assoc(xs[0].Encoded(), Flatten(xs[1..]), Flatten(ys));
    }
  }

  lemma FlattenOne(x: Segment)
    ensures Flatten([x]) == x.Encoded()
  {
    assert Flatten([x]) == x.Encoded() + Flatten([x][1..]);
  }

  lemma Flatten4(a: Segment, b: Segment, c: Segment, d: Segment)
    ensures Flatten([a, b, c, d]) == a.Encoded() + (b.Encoded() + (c.Encoded() + d.Encoded()))
  {
    var x := [a, b, c, d];
    assert Flatten(x) == x[0].Encoded() + Flatten(x[1..]);
    assert Flatten(x[1..]) == x[1].Encoded() + Flatten(x[2..]);
    assert Flatten(x[2..]) == x[2].Encoded() + Flatten(x[3..]);
    assert Flatten(x[3..]) == x[3].Encoded() + Flatten(x[4..]);
  }

  lemma SmallCounts(p: byte)
    ensures PutU32(p as int) == [0, 0, 0, p]
    ensures PutU32(0x600_0000) == [BOOTSTRAP_TAG, 0, 0, 0]
  {
    BigEndian4(p as int);
    BigEndian4(0x600_0000);
  }

  lemma BigEndian4(n: nat)
    ensures BigEndian(n, 4) == [(n / 0x100_0000 % 256) as byte, (n / 0x1_0000 % 256) as byte, (n / 256 % 256) as byte, (n % 256) as byte]
  {
    assert BigEndian(n / 256 / 256 / 256, 1) == BigEndian(n / 256 / 256 / 256 / 256, 0) + [(n / 256 / 256 / 256 % 256) as byte];
    assert BigEndian(n / 256 / 256, 2) == BigEndian(n / 256 / 256 / 256, 1) + [(n / 256 / 256 % 256) as byte];
    assert BigEndian(n / 256, 3) == BigEndian(n / 256 / 256, 2) + [(n / 256 % 256) as byte];
  }

  lemma GrantTailBytes(audience: Bytes, t0: Bytes, t1: Bytes, signature: Bytes)
    ensures Flatten([Block(audience), Fixed(t0), Fixed(t1), Block(signature)])
         == Flatten([Block(audience), Fixed(t0), Fixed(t1), Fixed(PutU32(|signature|))]) + signature
  {
    var count := PutU32(|signature|);
    Flatten4(Block(audience), Fixed(t0), Fixed(t1), Block(signature));
    Flatten4(Block(audience), Fixed(t0), Fixed(t1), Fixed(count));
    hide Flatten, PutU32;
    Assoc(t1, count, signature);
    Assoc(t0, t1 + count, signature);
    Assoc(PutBlock(audience), t0 + (t1 + count), signature);
  }

  lemma GrantBytes(grant: Evidence)
    requires grant.Delegation?
    ensures EvidenceBytes(grant) == Flatten(GrantSegments(grant)) + grant.signature
  {
    hide Flatten, PutU32, PutI64, PutStrings;
    var ids, scopes := IdentitySegments(grant.issuer), [Fixed(PutStrings(grant.scopes))];
    var tail := [Block(grant.audience), Fixed(PutI64(grant.issuedAt)), Fixed(PutI64(grant.expiresAt)), Fixed(PutU32(|grant.signature|))];
    FlattenOne(scopes[0]);
    GrantTailBytes(grant.audience, PutI64(grant.issuedAt), PutI64(grant.expiresAt), grant.signature);
    FlattenCat(ids, scopes + tail);
    FlattenCat(scopes, tail);
    Assoc(Flatten(scopes), Flatten(tail), grant.signature);
    Assoc(Flatten(ids), Flatten(scopes) + Flatten(tail), grant.signature);
  }

  /** One string of bytes, cut as a bootstrap fact and as a delegation. */
  lemma Regroup(p: byte, principal: Bytes, count: Bytes, filler: Bytes, middle: Bytes, tail: Bytes)
    ensures [BOOTSTRAP_TAG] + (([0, 0, 0, p] + principal) + ((count + (filler + middle)) + tail))
         == ([BOOTSTRAP_TAG, 0, 0, 0] + ([p] + principal + count + filler)) + (middle + tail)
  {
    var head := [BOOTSTRAP_TAG, 0, 0, 0] + [p];
    assert head == [BOOTSTRAP_TAG] + [0, 0, 0, p];
    Assoc([p] + principal, count, filler);
    Assoc([p], principal, count + filler);
    Assoc([BOOTSTRAP_TAG, 0, 0, 0], [p], principal + (count + filler));
    Assoc(head, principal + (count + filler), middle + tail);
    Assoc(principal, count + filler, middle + tail);
    Assoc(count, filler, middle + tail);
    Assoc(filler, middle, tail);
    Assoc(count, filler + middle, tail);
    Assoc([0, 0, 0, p], principal, (count + (filler + middle)) + tail);
    Assoc([BOOTSTRAP_TAG], [0, 0, 0, p], principal + ((count + (filler + middle)) + tail));
  }

  lemma BindingBytes(ura: Bytes, profile: Bytes, grant: Evidence)
    requires grant.Delegation?
    ensures AuthorityBytes(Binding(Identity(ura, profile), DelegatedBy, grant))
         == PutBlock(ura) + (GrantMiddle(profile, grant) + grant.signature)
  {
    Flatten4(Block(ura), Block(profile), Fixed([2]), Fixed([2]));
    GrantBytes(grant);
    hide Flatten, PutBlock, EvidenceBytes, GrantSegments;
    var payload := Flatten(GrantSegments(grant));
    assert [2] + [2] == [2, 2];
    Assoc(PutBlock(ura), PutBlock(profile) + [2, 2], payload + grant.signature);
    Assoc(PutBlock(profile), [2, 2], payload + grant.signature);
    Assoc([2, 2], payload, grant.signature);
    Assoc(PutBlock(profile), [2, 2] + payload, grant.signature);
  }

  /** The same bytes as a bootstrap fact and as a delegated authority. */
  lemma PlanesCollide(principal: Bytes, filler: Bytes, profile: Bytes, grant: Evidence, ability: Bytes)
    requires grant.Delegation? && grant.signature == PutBlock(ability)
    requires 0 < |principal| < 256 && |filler| + |principal| + 5 == 0x600_0000
    ensures AuthorityBytes(ColludingBootstrap(principal, filler, profile, grant, ability))
         == AuthorityBytes(ColludingBinding(principal, filler, profile, grant))
  {
    var a := ColludingBootstrap(principal, filler, profile, grant, ability);
    var b := ColludingBinding(principal, filler, profile, grant);
    Flatten4(Fixed([BOOTSTRAP_TAG]), Block(principal), Block(a.realm), Block(ability));
    BindingBytes(b.authority.ura, profile, grant);
    SmallCounts(|principal| as byte);
    hide Flatten, PutU32, EvidenceBytes, GrantMiddle, AuthorityBytes;
    assert |b.authority.ura| == 0x600_0000;
    assert AuthorityBytes(a) == Flatten(BootstrapSegments(a)) by { BootstrapIsSegments(a); }
    Regroup(|principal| as byte, principal, PutU32(|a.realm|), filler, GrantMiddle(profile, grant), grant.signature);
  }

  lemma BootstrapIsSegments(a: Authority)
    requires a.Bootstrap?
    ensures AuthorityBytes(a) == Flatten(BootstrapSegments(a))
  {
  }

  /** Every receipt with a short caller URA has, once the URA bound is dropped,
      two encodable forms with the same signed bytes. */
  lemma ReceiptPlanesCollide(sha: Bytes -> Hash, r: ReceiptBody, filler: Bytes, profile: Bytes, grant: Evidence)
    requires FactsComplete(sha, r.facts) && !Blank(r.caller.ura) && |r.caller.ura| < 256
    requires grant.Delegation? && grant.signature == PutBlock(r.ability)
    requires AuthorityMatches(r.caller, r.subject, r.ability, Binding(r.caller, DelegatedBy, grant))
    requires |filler| + |r.caller.ura| + 5 == 0x600_0000
    ensures 0 < |r.caller.ura|
    ensures
      var r1 := r.(authority := ColludingBootstrap(r.caller.ura, filler, profile, grant, r.ability));
      var r2 := r.(authority := ColludingBinding(r.caller.ura, filler, profile, grant));
      && r1 != r2 && Encodable(sha, r1) && Encodable(sha, r2)
      && CanonicalReceiptBytes(sha, r1) == CanonicalReceiptBytes(sha, r2)
  {
    BlankEmpty();
    hide AuthorityBytes, FactsComplete, Flatten, FactsBytes, PutBlock, GrantMiddle, Blank, PutU32;
    var a := ColludingBootstrap(r.caller.ura, filler, profile, grant, r.ability);
    var b := ColludingBinding(r.caller.ura, filler, profile, grant);
    PlanesCollide(r.caller.ura, filler, profile, grant, r.ability);
    RealmNotBlank(filler, profile, grant);
    UraNotBlank(r.caller.ura, PutU32(|filler + GrantMiddle(profile, grant)|) + filler);
    Assoc([|r.caller.ura| as byte] + r.caller.ura, PutU32(|filler + GrantMiddle(profile, grant)|), filler);
  }

  lemma RealmNotBlank(filler: Bytes, profile: Bytes, grant: Evidence)
    requires grant.Delegation?
    ensures !Blank(filler + GrantMiddle(profile, grant))
  {
    hide Flatten, PutStrings, PutU32, PutI64;
    var k := |filler| + |PutBlock(profile)|;
    assert GrantMiddle(profile, grant)[|PutBlock(profile)|] == ([2, 2] + Flatten(GrantSegments(grant)))[0];
    assert (filler + GrantMiddle(profile, grant))[k] == 2;
  }

  lemma BlankEmpty()
    ensures Blank([])
  {
  }

  lemma UraNotBlank(principal: Bytes, rest: Bytes)
    requires !Blank(principal) && |principal| < 256
    ensures !Blank([|principal| as byte] + principal + rest)
  {
    var i :| 0 <= i < |principal| && !IsAsciiSpace(principal[i]);
    assert ([|principal| as byte] + principal + rest)[1 + i] == principal[i];
  }

  // ---- The exact bound ----

  /** Every length prefix is exact and binding URAs are shorter than `bound`. */
  ghost predicate Bounded(a: Authority, bound: nat) {
    match a
    case Bootstrap(principal, realm, ability) =>
      |principal| < TWO_32 && |realm| < TWO_32 && |ability| < TWO_32
    case Binding(authority, _, evidence) =>
      |authority.ura| < bound && |authority.profile| < TWO_32 && EvidenceFits(evidence)
  }

  ghost predicate UniquelyDecodable(bound: nat) {
    forall a, b :: Bounded(a, bound) && Bounded(b, bound) && AuthorityBytes(a) == AuthorityBytes(b) ==> a == b
  }

  /** 0x06000000 is the largest bound on authority URAs that keeps the unprefixed
      authority slot uniquely decodable. */
  lemma UraBoundExact(bound: nat)
    requires bound <= TWO_32
    ensures UniquelyDecodable(bound) <==> bound <= 0x600_0000
  {
    if bound <= 0x600_0000 {
      BoundSuffices(bound);
    } else {
      BoundNeeded(bound);
    }
  }

  lemma BoundSuffices(bound: nat)
    requires bound <= 0x600_0000
    ensures UniquelyDecodable(bound)
  {
    hide AuthorityBytes, EvidenceFits;
    forall a, b | Bounded(a, bound) && Bounded(b, bound) && AuthorityBytes(a) == AuthorityBytes(b) ensures a == b {
      assert AuthorityBytes(a) + [] == AuthorityBytes(b) + [];
      AuthorityCut(a, [], b, []);
    }
  }

  function SampleGrant(): Evidence {
    Delegation(Identity([65], []), [[65]], [65], 0, 0, PutBlock([65]))
  }

  lemma SampleLength()
    ensures |GrantMiddle([], SampleGrant())| < 100
    ensures EvidenceFits(SampleGrant())
  {
    var g := SampleGrant();
    hide PutU32, PutI64;
    assert Blocks(g.scopes) == [Block([65])];
    FlattenOne(Block([65]));
    var tail := [Block(g.audience), Fixed(PutI64(0)), Fixed(PutI64(0)), Fixed(PutU32(|g.signature|))];
    Flatten4(tail[0], tail[1], tail[2], tail[3]);
    FlattenOne(Fixed(PutStrings(g.scopes)));
    var ids := IdentitySegments(g.issuer);
    assert ids == [ids[0]] + [ids[1]];
    FlattenCat([ids[0]], [ids[1]]);
    FlattenOne(ids[0]);
    FlattenOne(ids[1]);
    FlattenCat([Fixed(PutStrings(g.scopes))], tail);
    FlattenCat(ids, [Fixed(PutStrings(g.scopes))] + tail);
  }

  lemma BoundNeeded(bound: nat)
    requires bound > 0x600_0000
    ensures !UniquelyDecodable(bound)
  {
    var grant := SampleGrant();
    var filler: Bytes := seq(0x600_0000 - 6, _ => 65);
    SampleLength();
    PlanesCollide([65], filler, [], grant, [65]);
    hide AuthorityBytes, EvidenceFits, GrantMiddle, PutU32;
    var a := ColludingBootstrap([65], filler, [], grant, [65]);
    var b := ColludingBinding([65], filler, [], grant);
    assert Bounded(a, bound) && Bounded(b, bound);
    assert a != b;
  }
}
