/** The hypotheses of the decodability theorems are met: for any hash that maps
    some payload to a non-zero digest there is a receipt that encodes and fits. */
module CanonicalSample {
  import opened Wrappers
  import opened ByteStrings
  import opened Canonical
  import opened CanonicalInjective

  /** Something to fill a receipt with. */
  datatype Filling = Filling(word: Bytes, digest: Hash, nonce: Nonce, payload: Bytes)

  predicate Usable(sha: Bytes -> Hash, g: Filling) {
    && Small(g) && !Blank(g.word) && !IsZero(g.digest) && g.payload != [] && !IsZero(sha(g.payload))
  }

  predicate Small(g: Filling) {
    |g.word| <= 10 && |g.payload| <= 100
  }

  function Someone(g: Filling): Identity {
    Identity(g.word, g.word)
  }

  function OwnAuthority(g: Filling): Authority {
    Binding(Someone(g), SelfRelation, IdentityEvidence)
  }

  function SampleProof(sha: Bytes -> Hash, g: Filling): AuthorityProof {
    AuthorityProof(g.word, Some(OwnAuthority(g)), g.payload, sha(g.payload), Some(Someone(g)), None, g.word)
  }

  function SampleFacts(sha: Bytes -> Hash, g: Filling): ProofFacts {
    ProofFacts(Some(EntityRef(1, g.word, g.word)), g.word, g.digest, g.digest, g.word, SampleProof(sha, g),
               g.digest, g.digest, [], true)
  }

  function SampleReceipt(sha: Bytes -> Hash, g: Filling, index: U64): ReceiptBody {
    ReceiptBody(index, g.word, g.word, g.word, 0, g.digest, g.digest, g.word, true,
                Someone(g), Someone(g), Someone(g), g.nonce, CausalNone, None, g.word,
                OwnAuthority(g), Usage(0, 0, 0, 0), SampleFacts(sha, g))
  }

  lemma {:induction false} FlattenLength(xs: seq<Segment>, n: nat)
    requires forall i :: 0 <= i < |xs| ==> |xs[i].bytes| <= n
    ensures |Flatten(xs)| <= |xs| * (n + 4)
  {
    hide PutU32;
    if xs != [] {
      FlattenLength(xs[1..], n);
      assert |xs[0].Encoded()| <= n + 4;
      assert |xs| * (n + 4) == (|xs| - 1) * (n + 4) + (n + 4);
    }
  }

  lemma SelfLength(g: Filling)
    requires Small(g)
    ensures |AuthorityBytes(OwnAuthority(g))| <= 56
  {
    var xs := BindingSegments(Someone(g), SelfRelation, IdentityEvidence);
    FlattenLength(xs, 10);
    hide Flatten;
    assert AuthorityBytes(OwnAuthority(g)) == Flatten(xs) + EvidenceBytes(IdentityEvidence);
  }

  lemma ProofLength(sha: Bytes -> Hash, g: Filling)
    requires Small(g)
    ensures |ProofBytes(SampleProof(sha, g))| <= 1000
  {
    var p := SampleProof(sha, g);
    SelfLength(g);
    hide Flatten, AuthorityBytes, PutU32;
    FlattenLength(BindingPart(p.binding).value, 56);
    FlattenLength([Block(p.payload), Fixed(p.proofHash)], 100);
    FlattenLength(IssuerPart(p.issuer).value, 10);
    assert SignaturePart(p.signature).None?;
  }

  lemma SubjectLength(sha: Bytes -> Hash, g: Filling)
    requires Small(g)
    ensures |PutMarked(SubjectPart(SampleFacts(sha, g).subjectRef))| <= 40
  {
    var e := SampleFacts(sha, g).subjectRef;
    EntityLength(e.value);
    hide Flatten, EntityBytes, PutU32;
    FlattenLength(SubjectPart(e).value, 29);
  }

  lemma SegmentsLength(sha: Bytes -> Hash, g: Filling)
    requires Small(g)
    ensures |Flatten(FactSegments(SampleFacts(sha, g)))| <= 7 * 1004
  {
    ProofLength(sha, g);
    hide Flatten, ProofBytes;
    FlattenLength(FactSegments(SampleFacts(sha, g)), 1000);
  }

  lemma NoParentsLength()
    ensures |PutRefs([])| == 4
  {
    assert RefSegments([]) == [] && Flatten([]) == [];
  }

  lemma FactsLength(sha: Bytes -> Hash, g: Filling)
    requires Small(g)
    ensures |FactsBytes(SampleFacts(sha, g))| <= 100000
  {
    hide Flatten, FactSegments, PutMarked, PutRefs, SubjectPart;
    SubjectLength(sha, g);
    SegmentsLength(sha, g);
    NoParentsLength();
  }

  lemma ProofFitsSample(sha: Bytes -> Hash, g: Filling)
    requires Small(g)
    ensures ProofFits(SampleProof(sha, g))
  {
    SelfLength(g);
    hide Flatten, AuthorityBytes, PutU32;
  }

  lemma SegmentsFitSample(sha: Bytes -> Hash, g: Filling)
    requires Small(g)
    ensures Sized(FactSegments(SampleFacts(sha, g)))
  {
    ProofLength(sha, g);
    hide ProofBytes;
  }

  lemma SubjectFitsSample(sha: Bytes -> Hash, g: Filling)
    requires Small(g)
    ensures PartFits(SubjectPart(SampleFacts(sha, g).subjectRef))
  {
    EntityLength(SampleFacts(sha, g).subjectRef.value);
    hide EntityBytes;
  }

  lemma FactsFitSample(sha: Bytes -> Hash, g: Filling)
    requires Small(g)
    ensures FactsFit(SampleFacts(sha, g))
  {
    ProofFitsSample(sha, g);
    SegmentsFitSample(sha, g);
    SubjectFitsSample(sha, g);
    hide ProofFits, FactSegments, PartFits, SubjectPart;
  }

  lemma EncodableSample(sha: Bytes -> Hash, g: Filling, index: U64)
    requires Usable(sha, g)
    ensures Encodable(sha, SampleReceipt(sha, g, index))
  {
    hide Blank, IsZero, AuthorityBytes;
  }

  lemma HeadFitsSample(sha: Bytes -> Hash, g: Filling, index: U64)
    requires Small(g)
    ensures Sized(HeadSegments(SampleReceipt(sha, g, index)))
  {
    hide PutU64, PutI64;
  }

  lemma TailFitsSample(u: Usage, facts: Bytes)
    requires |facts| <= 100000
    ensures Sized(TailSegments(u, facts))
  {
    hide PutU64, PutU32;
  }

  lemma FitsSample(sha: Bytes -> Hash, g: Filling, index: U64)
    requires Small(g)
    ensures Fits(SampleReceipt(sha, g, index))
  {
    FactsLength(sha, g);
    FactsFitSample(sha, g);
    HeadFitsSample(sha, g, index);
    TailFitsSample(Usage(0, 0, 0, 0), FactsBytes(SampleFacts(sha, g)));
    hide FactsBytes, FactsFit, HeadSegments, TailSegments, SampleFacts;
  }

  /** Receipts that meet every hypothesis exist, at every index. */
  lemma ReceiptsExist(sha: Bytes -> Hash, g: Filling, index: U64)
    requires Usable(sha, g)
    ensures Encodable(sha, SampleReceipt(sha, g, index)) && Fits(SampleReceipt(sha, g, index))
  {
    EncodableSample(sha, g, index);
    FitsSample(sha, g, index);
  }

  /** So the injectivity theorem separates, for instance, two indices. */
  lemma IndicesSeparate(sha: Bytes -> Hash, g: Filling, i: U64, j: U64)
    requires Usable(sha, g) && i != j
    ensures CanonicalReceiptBytes(sha, SampleReceipt(sha, g, i)).Some?
    ensures CanonicalReceiptBytes(sha, SampleReceipt(sha, g, i))
         != CanonicalReceiptBytes(sha, SampleReceipt(sha, g, j))
  {
    ReceiptsExist(sha, g, i);
    ReceiptsExist(sha, g, j);
    hide Encodable, Fits, SignedBytes;
    if CanonicalReceiptBytes(sha, SampleReceipt(sha, g, i)) == CanonicalReceiptBytes(sha, SampleReceipt(sha, g, j)) {
      ReceiptBytesInjective(sha, SampleReceipt(sha, g, i), SampleReceipt(sha, g, j));
    }
  }
}
