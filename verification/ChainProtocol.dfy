/** Any number of goroutines in AppendSignedReceipt at once
    (axon/invocation/receipt_provider.go). Every critical section of the chain's
    mutex is one step; between reserving and committing an appender resolves the
    signing authority and signs, which may fail and abort. */
module ChainProtocol {
  import opened Wrappers
  import opened ByteStrings
  import opened Canonical
  import opened ReceiptChain

  type Appender = nat

  /** `held` maps each appender past its reservation to it; `lost` records that
      some commit was answered with receipt_sequence_reservation_lost. */
  datatype World = World(chain: Chain, held: map<Appender, Reservation>, lost: bool)

  const START := World(EMPTY, map[], false)

  datatype Step =
    | ReserveStep(who: Appender)
    | FailStep(who: Appender)
    | CommitStep(who: Appender, draft: ReceiptBody)

  /** A reserving appender waits while another append is in flight. */
  predicate Enabled(w: World, step: Step) {
    match step
    case ReserveStep(who) => who !in w.held && !w.chain.appending
    case FailStep(who) => who in w.held
    case CommitStep(who, _) => who in w.held && w.held[who].index < TWO_64
  }

  function Next(sha: Bytes -> Hash, endsChain: Bytes -> bool, w: World, step: Step): World
    requires Enabled(w, step)
  {
    match step
    case ReserveStep(who) =>
      (match Reserve(w.chain)
       case Ok((c, r)) => w.(chain := c, held := w.held[who := r])
       case Err(_) => w)
    case FailStep(who) => w.(chain := Abort(w.chain), held := w.held - {who})
    case CommitStep(who, draft) =>
      var receipt := Drafted(sha, draft, w.held[who]);
      match Commit(w.chain, w.held[who], receipt, endsChain(draft.state))
      case Ok(c) => w.(chain := c, held := w.held - {who})
      case Err(_) => World(Abort(w.chain), w.held - {who}, true)
  }

  /** A schedule; steps that are not enabled when their turn comes do not happen. */
  function Run(sha: Bytes -> Hash, endsChain: Bytes -> bool, w: World, steps: seq<Step>): World
    decreases |steps|
  {
    if steps == [] then w
    else
      var w' := if Enabled(w, steps[0]) then Next(sha, endsChain, w, steps[0]) else w;
      Run(sha, endsChain, w', steps[1..])
  }

  /** At most one appender holds a reservation, and it is for the current tip. */
  ghost predicate SoleHolder(w: World) {
    && (w.chain.appending <==> w.held != map[])
    && (forall a, b :: a in w.held && b in w.held ==> a == b)
    && (forall a :: a in w.held ==> w.held[a] == Reservation(|w.chain.receipts|, Tip(w.chain.receipts)))
    && (w.held != map[] ==> !w.chain.terminal)
    && !w.lost
  }

  /** `terminal` says the last receipt ends the chain; no earlier one does. */
  ghost predicate TerminalOnlyLast(endsChain: Bytes -> bool, c: Chain) {
    && (forall i :: 0 <= i < |c.receipts| - 1 ==> !endsChain(c.receipts[i].body.state))
    && (c.terminal <==> c.receipts != [] && endsChain(c.receipts[|c.receipts| - 1].body.state))
  }

  ghost predicate Inv(sha: Bytes -> Hash, endsChain: Bytes -> bool, w: World) {
    SoleHolder(w) && ChainValid(sha, w.chain.receipts) && TerminalOnlyLast(endsChain, w.chain)
  }

  lemma CommitSucceeds(sha: Bytes -> Hash, endsChain: Bytes -> bool, w: World, who: Appender, draft: ReceiptBody)
    requires SoleHolder(w) && Enabled(w, CommitStep(who, draft))
    ensures Commit(w.chain, w.held[who], Drafted(sha, draft, w.held[who]), endsChain(draft.state)).Ok?
  {
    hide SignedBytes;
  }

  lemma DraftedExtends(sha: Bytes -> Hash, rs: seq<SignedReceipt>, draft: ReceiptBody)
    requires ChainValid(sha, rs) && |rs| < TWO_64
    ensures ChainValid(sha, rs + [Drafted(sha, draft, Reservation(|rs|, Tip(rs)))])
  {
    hide SignedBytes;
    var r := Drafted(sha, draft, Reservation(|rs|, Tip(rs)));
    if rs != [] {
      assert FaultAt(sha, rs, |rs| - 1).None?;
    }
    ValidGrows(sha, rs, r);
  }

  lemma HoldersStep(sha: Bytes -> Hash, endsChain: Bytes -> bool, w: World, step: Step)
    requires SoleHolder(w) && Enabled(w, step)
    ensures SoleHolder(Next(sha, endsChain, w, step))
  {
    hide SignedBytes, ReceiptHash;
    if step.CommitStep? {
      CommitSucceeds(sha, endsChain, w, step.who, step.draft);
    }
    var w' := Next(sha, endsChain, w, step);
    if step.ReserveStep? && w' != w {
      assert step.who in w'.held;
    }
  }

  lemma StepKeeps(sha: Bytes -> Hash, endsChain: Bytes -> bool, w: World, step: Step)
    requires Inv(sha, endsChain, w) && Enabled(w, step)
    ensures Inv(sha, endsChain, Next(sha, endsChain, w, step))
  {
    hide SignedBytes, ReceiptHash, SoleHolder, FaultAt;
    HoldersStep(sha, endsChain, w, step);
    if step.CommitStep? {
      CommitSucceeds(sha, endsChain, w, step.who, step.draft);
      HeldIsTip(w, step.who);
      DraftedExtends(sha, w.chain.receipts, step.draft);
    }
  }

  lemma HeldIsTip(w: World, who: Appender)
    requires SoleHolder(w) && who in w.held
    ensures w.held[who] == Reservation(|w.chain.receipts|, Tip(w.chain.receipts)) && !w.chain.terminal
  {
  }

  /** Whatever the interleaving of appenders and signing failures: no commit is
      ever told its reservation was lost, the published chain passes
      verification, and only its last receipt can be terminal. */
  lemma {:induction false} ConcurrentAppendsAreSafe(
    sha: Bytes -> Hash, endsChain: Bytes -> bool, w: World, steps: seq<Step>)
    requires Inv(sha, endsChain, w)
    ensures Inv(sha, endsChain, Run(sha, endsChain, w, steps))
    decreases |steps|
  {
    hide Inv, Next, Enabled;
    if steps != [] {
      if Enabled(w, steps[0]) {
        StepKeeps(sha, endsChain, w, steps[0]);
        ConcurrentAppendsAreSafe(sha, endsChain, Next(sha, endsChain, w, steps[0]), steps[1..]);
      } else {
        ConcurrentAppendsAreSafe(sha, endsChain, w, steps[1..]);
      }
    }
  }

  lemma ReservationNeverLost(sha: Bytes -> Hash, endsChain: Bytes -> bool, steps: seq<Step>)
    ensures
      var w := Run(sha, endsChain, START, steps);
      !w.lost && ChainValid(sha, w.chain.receipts) && TerminalOnlyLast(endsChain, w.chain)
  {
    ConcurrentAppendsAreSafe(sha, endsChain, START, steps);
  }

  /** Receipts are never changed or removed: each run extends the chain. */
  lemma {:induction false} ChainOnlyGrows(sha: Bytes -> Hash, endsChain: Bytes -> bool, w: World, steps: seq<Step>)
    ensures w.chain.receipts <= Run(sha, endsChain, w, steps).chain.receipts
    decreases |steps|
  {
    hide SignedBytes;
    if steps != [] {
      var w' := if Enabled(w, steps[0]) then Next(sha, endsChain, w, steps[0]) else w;
      ChainOnlyGrows(sha, endsChain, w', steps[1..]);
    }
  }
}
