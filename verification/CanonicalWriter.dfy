/** The encoders of axon/invocation/axiom.go in the form the code has: each
    appends to an output buffer, lists by a loop. */
module CanonicalWriter {
  import opened ByteStrings
  import opened Canonical
  import opened CanonicalInjective

  lemma FlattenSnoc(xs: seq<Segment>, x: Segment)
    ensures Flatten(xs + [x]) == Flatten(xs) + x.Encoded()
  {
    FlattenCat(xs, [x]);
    FlattenOne(x);
  }

  lemma BlocksSnoc(xs: seq<Bytes>, i: nat)
    requires i < |xs|
    ensures Flatten(Blocks(xs[..i + 1])) == Flatten(Blocks(xs[..i])) + PutBlock(xs[i])
  {
    assert Blocks(xs[..i + 1]) == Blocks(xs[..i]) + [Block(xs[i])];
    FlattenSnoc(Blocks(xs[..i]), Block(xs[i]));
  }

  lemma {:induction false} RefSegmentsSnoc(refs: seq<ReceiptRef>, ref: ReceiptRef)
    ensures RefSegments(refs + [ref]) == RefSegments(refs) + [Fixed(ref.hash), Block(ref.ura)]
  {
    if refs == [] {
      assert RefSegments([ref]) == [Fixed(ref.hash), Block(ref.ura)] + RefSegments([ref][1..]);
      assert [] + [ref] == [ref];
    } else {
      assert (refs + [ref])[0] == refs[0] && (refs + [ref])[1..] == refs[1..] + [ref];
      RefSegmentsSnoc(refs[1..], ref);
    }
  }

  lemma RefsSnoc(refs: seq<ReceiptRef>, i: nat)
    requires i < |refs|
    ensures Flatten(RefSegments(refs[..i + 1])) == Flatten(RefSegments(refs[..i])) + refs[i].hash + PutBlock(refs[i].ura)
  {
    hide PutBlock, Flatten;
    var done, pair := RefSegments(refs[..i]), [Fixed(refs[i].hash)];
    assert refs[..i + 1] == refs[..i] + [refs[i]];
    RefSegmentsSnoc(refs[..i], refs[i]);
    hide RefSegments;
    assert done + [Fixed(refs[i].hash), Block(refs[i].ura)] == (done + pair) + [Block(refs[i].ura)];
    FlattenSnoc(done + pair, Block(refs[i].ura));
    FlattenSnoc(done, Fixed(refs[i].hash));
  }

  class Writer {
    var out: Bytes

    constructor ()
      ensures out == []
    {
      out := [];
    }

    method Append(b: Bytes)
      modifies this
      ensures out == old(out) + b
    {
      out := out + b;
    }

    /** putStr and putBytes. */
    method PutStr(s: Bytes)
      modifies this
      ensures out == old(out) + PutBlock(s)
    {
      Assoc(out, PutU32(|s|), s);
      Append(PutU32(|s|));
      Append(s);
    }

    method PutIdentity(i: Identity)
      modifies this
      ensures out == old(out) + Flatten(IdentitySegments(i))
    {
      FlattenSnoc([Block(i.ura)], Block(i.profile));
      FlattenOne(Block(i.ura));
      assert [Block(i.ura)] + [Block(i.profile)] == IdentitySegments(i);
      Assoc(out, PutBlock(i.ura), PutBlock(i.profile));
      PutStr(i.ura);
      PutStr(i.profile);
    }

    /** A count, then every string. */
    method PutStringList(xs: seq<Bytes>)
      modifies this
      ensures out == old(out) + PutStrings(xs)
    {
      hide PutU32, Flatten, PutBlock;
      ghost var start := out + PutU32(|xs|);
      Append(PutU32(|xs|));
      assert Blocks(xs[..0]) == [];
      FlattenEmpty();
      for i := 0 to |xs|
        invariant out == start + Flatten(Blocks(xs[..i]))
      {
        BlocksSnoc(xs, i);
        Assoc(start, Flatten(Blocks(xs[..i])), PutBlock(xs[i]));
        PutStr(xs[i]);
      }
      assert xs[..|xs|] == xs;
      Assoc(old(out), PutU32(|xs|), Flatten(Blocks(xs)));
    }

    /** A count, then every hash and URA. */
    method PutRefList(refs: seq<ReceiptRef>)
      modifies this
      ensures out == old(out) + PutRefs(refs)
    {
      hide PutU32, Flatten, PutBlock, RefSegments;
      ghost var start := out + PutU32(|refs|);
      Append(PutU32(|refs|));
      NoRefs(refs);
      for i := 0 to |refs|
        invariant out == start + Flatten(RefSegments(refs[..i]))
      {
        RefsSnoc(refs, i);
        ghost var done := Flatten(RefSegments(refs[..i]));
        Assoc(start, done, refs[i].hash);
        Assoc(start, done + refs[i].hash, PutBlock(refs[i].ura));
        Append(refs[i].hash);
        PutStr(refs[i].ura);
      }
      assert refs[..|refs|] == refs;
      Assoc(old(out), PutU32(|refs|), Flatten(RefSegments(refs)));
    }

    /** putEvidencePayload with the signature. */
    method PutEvidence(e: Evidence)
      modifies this
      ensures out == old(out) + EvidenceBytes(e)
    {
      match e
      case Delegation(_, _, _, _, _, _) => PutDelegation(e);
      case Session(_, _, _, _, _, _, _) => PutSession(e);
      case _ =>
    }

    method PutDelegation(d: Evidence)
      requires d.Delegation?
      modifies this
      ensures out == old(out) + EvidenceBytes(d)
    {
      hide PutU32, Flatten, PutBlock, PutStrings, PutI64;
      ghost var ids, scopes := Flatten(IdentitySegments(d.issuer)), PutStrings(d.scopes);
      ghost var aud, t0, t1, sig := PutBlock(d.audience), PutI64(d.issuedAt), PutI64(d.expiresAt), PutBlock(d.signature);
      Flatten4(Block(d.audience), Fixed(t0), Fixed(t1), Block(d.signature));
      PutIdentity(d.issuer);
      PutStringList(d.scopes);
      PutStr(d.audience);
      Append(PutI64(d.issuedAt));
      Append(PutI64(d.expiresAt));
      PutStr(d.signature);
      assert out == old(out) + (ids + (scopes + (aud + (t0 + (t1 + sig))))) by {
        Assoc(old(out) + ids + scopes + aud + t0, t1, sig);
        Assoc(old(out) + ids + scopes + aud, t0, t1 + sig);
        Assoc(old(out) + ids + scopes, aud, t0 + (t1 + sig));
        Assoc(old(out) + ids, scopes, aud + (t0 + (t1 + sig)));
        Assoc(old(out), ids, scopes + (aud + (t0 + (t1 + sig))));
      }
    }

    method PutSession(s: Evidence)
      requires s.Session?
      modifies this
      ensures out == old(out) + EvidenceBytes(s)
    {
      hide PutU32, Flatten, PutBlock, PutStrings, PutI64;
      ghost var ids, id := Flatten(IdentitySegments(s.issuer)), PutBlock(s.sessionId);
      ghost var scopes, auds := PutStrings(s.scopes), PutStrings(s.audiences);
      ghost var t0, t1, sig := PutI64(s.issuedAt), PutI64(s.expiresAt), PutBlock(s.signature);
      SessionParts(s);
      PutIdentity(s.issuer);
      PutStr(s.sessionId);
      PutStringList(s.scopes);
      PutStringList(s.audiences);
      Append(PutI64(s.issuedAt));
      Append(PutI64(s.expiresAt));
      PutStr(s.signature);
      assert out == old(out) + (ids + (id + (scopes + (auds + (t0 + (t1 + sig)))))) by {
        Assoc(old(out) + ids + id + scopes + auds + t0, t1, sig);
        Assoc(old(out) + ids + id + scopes + auds, t0, t1 + sig);
        Assoc(old(out) + ids + id + scopes, auds, t0 + (t1 + sig));
        Assoc(old(out) + ids + id, scopes, auds + (t0 + (t1 + sig)));
        Assoc(old(out) + ids, id, scopes + (auds + (t0 + (t1 + sig))));
        Assoc(old(out), ids, id + (scopes + (auds + (t0 + (t1 + sig)))));
      }
    }
  }

  lemma SessionParts(s: Evidence)
    requires s.Session?
    ensures EvidenceBytes(s) == Flatten(IdentitySegments(s.issuer)) + (PutBlock(s.sessionId) + (PutStrings(s.scopes)
      + (PutStrings(s.audiences) + (PutI64(s.issuedAt) + (PutI64(s.expiresAt) + PutBlock(s.signature))))))
  {
    hide PutU32, Flatten, PutBlock, PutStrings, PutI64;
    var ids, t0, t1 := IdentitySegments(s.issuer), Fixed(PutI64(s.issuedAt)), Fixed(PutI64(s.expiresAt));
    assert [Block(s.issuer.ura), Block(s.issuer.profile), Block(s.sessionId)] == ids + [Block(s.sessionId)];
    FlattenSnoc(ids, Block(s.sessionId));
    assert [t0, t1, Block(s.signature)] == [t0] + ([t1] + [Block(s.signature)]);
    FlattenCat([t0], [t1] + [Block(s.signature)]);
    FlattenCat([t1], [Block(s.signature)]);
    FlattenOne(t0);
    FlattenOne(t1);
    FlattenOne(Block(s.signature));
    Assoc(Flatten(ids), PutBlock(s.sessionId),
          PutStrings(s.scopes) + (PutStrings(s.audiences) + (t0.bytes + (t1.bytes + PutBlock(s.signature)))));
  }

  lemma FlattenEmpty()
    ensures Flatten([]) == []
  {
  }

  lemma NoRefs(refs: seq<ReceiptRef>)
    ensures Flatten(RefSegments(refs[..0])) == []
  {
  }
}
