/** The append-only receipt chain: verification (axon/invocation/audit.go), the
    reserve/commit/abort protocol (axon/invocation/receipt_provider.go), and what
    a shared tip says about two chains. SHA-256 is a parameter. */
module ReceiptChain {
  import opened Wrappers
  import opened ByteStrings
  import opened Canonical
  import opened CanonicalInjective

  datatype SignedReceipt = SignedReceipt(body: ReceiptBody, selfHash: Hash)

  /** computeReceiptHash. */
  function ReceiptHash(sha: Bytes -> Hash, r: SignedReceipt): Hash {
    sha(SignedBytes(r.body))
  }

  // ---- Verification ----

  datatype Fault = WrongIndex | WrongPrevHash | WrongSelfHash

  /** What the walk finds wrong at position i, in the order it looks. */
  function FaultAt(sha: Bytes -> Hash, rs: seq<SignedReceipt>, i: nat): Option<Fault>
    requires i < |rs|
  {
    if rs[i].body.index != i then Some(WrongIndex)
    else if rs[i].body.prevHash != (if i == 0 then ZERO_HASH else ReceiptHash(sha, rs[i - 1])) then Some(WrongPrevHash)
    else if rs[i].selfHash != ReceiptHash(sha, rs[i]) then Some(WrongSelfHash)
    else None
  }

  ghost predicate ChainValid(sha: Bytes -> Hash, rs: seq<SignedReceipt>) {
    forall i :: 0 <= i < |rs| ==> FaultAt(sha, rs, i).None?
  }

  /** The first receipt names 32 zero bytes, every other the hash of its predecessor. */
  ghost predicate LinksTo(sha: Bytes -> Hash, rs: seq<SignedReceipt>, i: nat)
    requires i < |rs|
  {
    if i == 0 then forall b :: b in rs[i].body.prevHash ==> b == 0
    else rs[i].body.prevHash == sha(SignedBytes(rs[i - 1].body))
  }

  ghost predicate SelfHashed(sha: Bytes -> Hash, r: SignedReceipt) {
    r.selfHash == sha(SignedBytes(r.body))
  }

  lemma FaultExactly(sha: Bytes -> Hash, rs: seq<SignedReceipt>, i: nat)
    requires i < |rs|
    ensures FaultAt(sha, rs, i).None? <==> rs[i].body.index == i && LinksTo(sha, rs, i) && SelfHashed(sha, rs[i])
  {
    hide SignedBytes;
    var h := rs[i].body.prevHash;
    if forall b :: b in h ==> b == 0 {
      assert forall k :: 0 <= k < 32 ==> h[k] in h;
      assert h == ZERO_HASH;
    }
  }

  lemma ValidExactly(sha: Bytes -> Hash, rs: seq<SignedReceipt>)
    ensures ChainValid(sha, rs) <==>
      forall i :: 0 <= i < |rs| ==> rs[i].body.index == i && LinksTo(sha, rs, i) && SelfHashed(sha, rs[i])
  {
    hide FaultAt, LinksTo, SelfHashed;
    forall i | 0 <= i < |rs|
      ensures FaultAt(sha, rs, i).None? <==> rs[i].body.index == i && LinksTo(sha, rs, i) && SelfHashed(sha, rs[i])
    {
      FaultExactly(sha, rs, i);
    }
  }

  datatype ChainCheck = Intact | Broken(index: nat, fault: Fault)

  /** VerifyReceiptChain: accepts exactly the valid chains, and otherwise names
      the first broken position. */
  method VerifyReceiptChain(sha: Bytes -> Hash, receipts: seq<SignedReceipt>) returns (c: ChainCheck)
    ensures c.Intact? <==> ChainValid(sha, receipts)
    ensures c.Intact? <==>
      forall i :: 0 <= i < |receipts| ==> receipts[i].body.index == i && LinksTo(sha, receipts, i) && SelfHashed(sha, receipts[i])
    ensures c.Broken? ==>
      && c.index < |receipts| && FaultAt(sha, receipts, c.index) == Some(c.fault)
      && ChainValid(sha, receipts[..c.index])
  {
    hide SignedBytes, LinksTo, SelfHashed;
    ValidExactly(sha, receipts);
    if receipts == [] {
      return Intact;
    }
    var first := receipts[0];
    ghost var fault := FaultAt(sha, receipts, 0);
    if first.body.index != 0 {
      return Broken(0, WrongIndex);
    }
    if first.body.prevHash != ZERO_HASH {
      return Broken(0, WrongPrevHash);
    }
    var prev := ReceiptHash(sha, first);
    if first.selfHash != prev {
      return Broken(0, WrongSelfHash);
    }
    for i := 1 to |receipts|
      invariant prev == ReceiptHash(sha, receipts[i - 1])
      invariant ChainValid(sha, receipts[..i])
    {
      var receipt := receipts[i];
      fault := FaultAt(sha, receipts, i);
      if receipt.body.index != i {
        return Broken(i, WrongIndex);
      }
      if receipt.body.prevHash != prev {
        return Broken(i, WrongPrevHash);
      }
      var current := ReceiptHash(sha, receipt);
      if receipt.selfHash != current {
        return Broken(i, WrongSelfHash);
      }
      ValidGrows(sha, receipts[..i], receipt);
      assert receipts[..i + 1] == receipts[..i] + [receipt];
      prev := current;
    }
    assert receipts[..|receipts|] == receipts;
    return Intact;
  }

  lemma ValidGrows(sha: Bytes -> Hash, rs: seq<SignedReceipt>, r: SignedReceipt)
    requires ChainValid(sha, rs) && FaultAt(sha, rs + [r], |rs|).None?
    ensures ChainValid(sha, rs + [r])
  {
    hide SignedBytes, ReceiptHash;
    var grown := rs + [r];
    forall i | 0 <= i < |grown| ensures FaultAt(sha, grown, i).None? {
      if i < |rs| {
        assert FaultAt(sha, rs, i).None?;
      }
    }
  }

  // ---- What the tip commits to ----

  ghost predicate AllWellFormed(sha: Bytes -> Hash, rs: seq<SignedReceipt>) {
    forall i :: 0 <= i < |rs| ==> Encodable(sha, rs[i].body) && Fits(rs[i].body)
  }

  /** The hash separates the encodings of the two chains. */
  ghost predicate NoCollision(sha: Bytes -> Hash, xs: seq<SignedReceipt>, ys: seq<SignedReceipt>) {
    forall i, j :: 0 <= i < |xs| && 0 <= j < |ys| && ReceiptHash(sha, xs[i]) == ReceiptHash(sha, ys[j]) ==>
      SignedBytes(xs[i].body) == SignedBytes(ys[j].body)
  }

  lemma SameHashSameBody(sha: Bytes -> Hash, xs: seq<SignedReceipt>, ys: seq<SignedReceipt>, i: nat, j: nat)
    requires i < |xs| && j < |ys| && AllWellFormed(sha, xs) && AllWellFormed(sha, ys) && NoCollision(sha, xs, ys)
    requires ReceiptHash(sha, xs[i]) == ReceiptHash(sha, ys[j])
    ensures xs[i].body == ys[j].body
  {
    hide SignedBytes, Encodable, Fits;
    ReceiptBytesInjective(sha, xs[i].body, ys[j].body);
  }

  /** A tip hash fixes the length of its chain and every signed body below it. */
  lemma TipDeterminesChain(sha: Bytes -> Hash, xs: seq<SignedReceipt>, ys: seq<SignedReceipt>)
    requires ChainValid(sha, xs) && ChainValid(sha, ys) && xs != [] && ys != []
    requires AllWellFormed(sha, xs) && AllWellFormed(sha, ys) && NoCollision(sha, xs, ys)
    requires xs[|xs| - 1].selfHash == ys[|ys| - 1].selfHash
    ensures |xs| == |ys|
    ensures forall i :: 0 <= i < |xs| ==> xs[i].body == ys[i].body && xs[i].selfHash == ys[i].selfHash
  {
    hide SignedBytes, Encodable, Fits, ReceiptHash;
    var n, m := |xs| - 1, |ys| - 1;
    assert FaultAt(sha, xs, n).None? && FaultAt(sha, ys, m).None?;
    SameHashSameBody(sha, xs, ys, n, m);
    var i := n;
    while i > 0
      invariant 0 <= i <= n == m
      invariant forall k :: i <= k <= n ==> xs[k].body == ys[k].body
    {
      assert FaultAt(sha, xs, i).None? && FaultAt(sha, ys, i).None?;
      SameHashSameBody(sha, xs, ys, i - 1, i - 1);
      i := i - 1;
    }
    forall k | 0 <= k <= n ensures xs[k].selfHash == ys[k].selfHash {
      assert FaultAt(sha, xs, k).None? && FaultAt(sha, ys, k).None?;
      SameBodySameHash(sha, xs[k], ys[k]);
    }
  }

  lemma SameBodySameHash(sha: Bytes -> Hash, x: SignedReceipt, y: SignedReceipt)
    requires x.body == y.body
    ensures ReceiptHash(sha, x) == ReceiptHash(sha, y)
  {
    hide SignedBytes;
  }

  // ---- Reserve, commit, abort ----

  datatype Chain = Chain(appending: bool, terminal: bool, receipts: seq<SignedReceipt>)

  const EMPTY := Chain(false, false, [])

  datatype Reservation = Reservation(index: nat, prevHash: Hash)

  datatype ChainError = ChainTerminal | ReservationLost

  function Tip(rs: seq<SignedReceipt>): Hash {
    if rs == [] then ZERO_HASH else rs[|rs| - 1].selfHash
  }

  /** reserveAppend once its wait for `appending` to clear is over. */
  function Reserve(c: Chain): Result<(Chain, Reservation), ChainError> {
    if c.terminal then Err(ChainTerminal)
    else Ok((c.(appending := true), Reservation(|c.receipts|, Tip(c.receipts))))
  }

  function Abort(c: Chain): Chain {
    c.(appending := false)
  }

  function Commit(c: Chain, r: Reservation, receipt: SignedReceipt, terminal: bool): Result<Chain, ChainError> {
    if !c.appending || |c.receipts| != r.index || Tip(c.receipts) != r.prevHash then Err(ReservationLost)
    else Ok(Chain(false, terminal, c.receipts + [receipt]))
  }

  function Placed(draft: ReceiptBody, r: Reservation): ReceiptBody
    requires r.index < TWO_64
  {
    draft.(index := r.index, prevHash := r.prevHash)
  }

  /** The receipt AppendSignedReceipt drafts under a reservation. */
  function Drafted(sha: Bytes -> Hash, draft: ReceiptBody, r: Reservation): SignedReceipt
    requires r.index < TWO_64
  {
    SignedReceipt(Placed(draft, r), sha(SignedBytes(Placed(draft, r))))
  }

  class ReceiptChainState {
    var appending: bool
    var terminal: bool
    var receipts: seq<SignedReceipt>

    ghost function View(): Chain
      reads this
    {
      Chain(appending, terminal, receipts)
    }

    constructor ()
      ensures View() == EMPTY
    {
      appending, terminal, receipts := false, false, [];
    }

    /** None while another append is in flight, where the source waits. */
    method ReserveAppend() returns (r: Option<Result<Reservation, ChainError>>)
      modifies this
      ensures r.None? <==> old(appending)
      ensures r.None? ==> View() == old(View())
      ensures r.Some? ==> r.value == match Reserve(old(View())) case Ok(p) => Ok(p.1) case Err(e) => Err(e)
      ensures r.Some? ==> View() == match Reserve(old(View())) case Ok(p) => p.0 case Err(_) => old(View())
      ensures r.Some? ==> (r.value.Err? <==> old(terminal)) && receipts == old(receipts)
      ensures r.Some? && r.value.Ok? ==> appending && r.value.value.index == |receipts|
      ensures r.Some? && r.value.Ok? && receipts != [] ==> r.value.value.prevHash == receipts[|receipts| - 1].selfHash
    {
      if appending {
        return None;
      }
      if terminal {
        return Some(Err(ChainTerminal));
      }
      appending := true;
      var prevHash := ZERO_HASH;
      if |receipts| > 0 {
        prevHash := receipts[|receipts| - 1].selfHash;
      }
      return Some(Ok(Reservation(|receipts|, prevHash)));
    }

    method AbortAppend()
      modifies this
      ensures View() == Abort(old(View()))
      ensures !appending && receipts == old(receipts) && terminal == old(terminal)
    {
      if !appending {
        return;
      }
      appending := false;
    }

    method CommitAppend(r: Reservation, receipt: SignedReceipt, isTerminal: bool) returns (e: Option<ChainError>)
      modifies this
      ensures e == match Commit(old(View()), r, receipt, isTerminal) case Ok(_) => None case Err(x) => Some(x)
      ensures View() == match Commit(old(View()), r, receipt, isTerminal) case Ok(c) => c case Err(_) => old(View())
      ensures e.None? ==> old(appending) && |old(receipts)| == r.index
      ensures e.None? && old(receipts) != [] ==> r.prevHash == old(receipts)[|old(receipts)| - 1].selfHash
      ensures e.None? ==> receipts == old(receipts) + [receipt] && terminal == isTerminal && !appending
      ensures e.Some? ==> View() == old(View())
    {
      if !appending || |receipts| != r.index || (|receipts| == 0 && r.prevHash != ZERO_HASH)
         || (|receipts| > 0 && receipts[|receipts| - 1].selfHash != r.prevHash) {
        return Some(ReservationLost);
      }
      receipts := receipts + [receipt];
      terminal := isTerminal;
      appending := false;
      return None;
    }
  }
}
