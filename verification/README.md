# Axon Go SDK: invocation lifecycle, receipts, recovery and channels

A Dafny model of the parts of the Axon Go SDK where correctness depends on the
interplay of several operations, with machine-checked proofs about every run,
every input or every reachable state of the model.

`dafny verify dfyconfig.toml` checks everything.

## What is modelled

**Invocation runtime.** `RuntimeMachine` is `LocalRuntime` with any number of
invocations, parents and children. Completion, failure, caller cancel, parent
cancel, deadline and suspension race for one terminal claim; children register
while their parent may be ending; capacity is reserved and released on every
path; every terminal receipt crosses the cleanup barrier; recovery records change
under the runtime's feet. One action is one critical section of `r.mu`, a core's
`c.mu` or a supervisor's `s.mu`. `RuntimeInvariant` and `RuntimeProofs` give the
inductive invariant, `RuntimeTheorems` what it means; `RuntimeWaiting` and
`RuntimeSuspension` decide which invocations can still finish, `RuntimeOutcomes` says
which event ends an invocation, `RuntimeWitnesses` has runs that show where conditions come from. `Registry` is the capacity accounting, `LocalRuntime` and `SupervisorObjects` the same code as objects.

**Events and receipts of one invocation.** `EventCore` and `EventRuns` follow one
core with any number of readers, claimants and writers of its durable record, with
any write failing; `EventNames` is the grammar of a log and the words of its receipts,
`EventLag` is about backpressure after a recovery. `InvocationObjects` has
`InvocationCore` and `EventStream` as classes.

**Canonical bytes.** `Canonical` has the hand-written length-prefixed encoders,
`CanonicalWriter` their append-and-loop form, `CanonicalReader` a reader that takes
the fields off in the source's order, `CanonicalInjective` unique decodability and the
exact bound it depends on, `CanonicalSample` receipts that meet its hypotheses.

**Receipt chain.** `ReceiptChain` has chain verification, the tip theorem and the
reserve/commit/abort object; `ChainProtocol` any number of concurrent appenders.
SHA-256 (section 6.2 of FIPS 180-4) is a function parameter; freedom from
collisions is a hypothesis where it is used.

**Recovery log.** `RecoveryLog` has the record and its operations, `RecoveryRuns`
leases, fencing and finalization over arbitrary call sequences, `PersistentLogs`
the object over a directory of records.

**Channels.** `Inbox` and `InboxObjects`, `CreditStream`, `CreditLimits` and `StreamObjects`,
`Bidi`, `BidiRuns`, `BidiHistory` and `BidiObjects`, `ReplayWindow` and `Admission`.

**Text forms.** `UraGrammar`, `UraRoundTrip` and `UraSpelling` for owner-qualified
ability names, `TextEncodings`, `Bundle`, `BundleRoundTrip` and `BundleChecks` for the
portable receipt bundle.

Where the source works by changing fields or by loops, a class or a method is
proved against a function on values, and the theorems are about those functions.

## What turned out not to hold as one might expect

- The authority slot of a receipt has no length prefix. Its two planes are
  uniquely decodable exactly for authority URAs shorter than 0x06000000 bytes
  (`CanonicalInjective.UraBoundExact`); without the bound two acceptable receipts
  can share their signed bytes (`CanonicalInjective.ReceiptPlanesCollide`).
- `abandonRecoveredExecution` does not look at the terminal claim, and neither a
  cancel nor the deadline looks at the suspended flag. A terminal invocation is
  suspended exactly if it is an abandoned recovered execution
  (`RuntimeTheorems.SuspendedAndTerminalExactly`), whether it was abandoned after
  the claim (`RuntimeWitnesses.AbandonedMayStillFinish`) or before it
  (`RuntimeWitnesses.AbandonedFirstMayStillFinish`).
  Any invocation can still finish exactly if neither it nor anything it waits for,
  directly or not, is blocked (`RuntimeSuspension.FinishesExactly`);
  `RuntimeSuspension.AbandonDecides` reads that off the flow, the record and the
  children before an abandonment. "Can finish" means: in some continuation whose
  BeginFinalization calls all happen at a given time or later, where only executions
  that are not suspended renew their leases.
- Only parents that end cancelled or timed_out wait for their children; a completed
  or failed parent's chain can end with an unanswered child_spawned
  (`RuntimeWitnesses.ParentMayOutliveChild`).
- `GrantCredit` on a stream that is short of credit can fill the slot reserved for
  the terminal frame; on a stream with full credit it does nothing. Then `Close` ends
  without a terminal frame, or `Cancel` drops its own when the grant falls between its
  two halves and more producers wait in push than there are tokens and frames in
  readers' hands (`CreditLimits.GrantLosesExactly`, an equivalence; both runs exist for
  every initial credit). At most one terminal frame is delivered exactly if at most one
  consumer reads (`CreditLimits.OneConsumerExactly`).
- `Closed` of a bidirectional session is absorbing exactly if no `Receive` is in
  flight or a receipt has been recorded (`BidiRuns.ClosedIsFinalExactly`); otherwise an
  unwelcome frame turns it into `Failed`, at most once (`BidiRuns.ChangesAreBounded`).
- The pruned nonce table answers like the full history, for every choice of keys,
  exactly if no call prunes an acceptance that a still later call finds in its
  window (`ReplayWindow.PruningIsInvisibleExactly`); a clock that never runs
  backwards guarantees that.
- A recovered core does not count restored progress events as buffered
  (`EventRuns.RestoredBufferExact`). After restoring R of them at most 64 + R new
  ones are unacknowledged (`EventLag.RestoredLagIsBounded`), and so many can be
  (`EventLag.RestoredLagIsReached`).
- Import forgets non-strict authority profiles and empty proof signatures
  (`BundleRoundTrip.ExportImport` is an equivalence), and an agent of a user called
  `service` publishes names that do not resolve (`UraRoundTrip.PublishResolve`).

## Model

| member | source | states |
|---|---|---|
| RuntimeProofs.StepPreserves | axon/invocation/local_runtime.go:437-1532 | the runtime invariant (one winner per core, parent/child pairing, capacity, cleanup barrier, agreement with the durable record) is kept by every critical section |
| RuntimeProofs.RunInvariant | axon/invocation/local_runtime.go:437-1532 | the invariant holds in every state of every interleaving |
| RuntimeTheorems.StoppedParentSettledItsChildren | axon/invocation/local_runtime.go:938-1102 | when a first-execution parent's chain ends in cancelled or timed_out, every child it spawned is terminal, with exactly one child_spawned and one child_terminal for it in that chain |
| RuntimeTheorems.LateChildNeverStarts | axon/invocation/local_runtime.go:595-647 | a child not started when its parent is claimed never starts, even if it registers later |
| RuntimeTheorems.WinnerIsFinal | axon/invocation/handle.go:181-190 | over any run the first claim, the first terminal state and the logged events of a core are never replaced |
| RuntimeOutcomes.OutcomeFollowsClaim | axon/invocation/local_runtime.go:677-1102 | in every reachable state a terminal invocation is cancelled, timed_out, failed or completed if and only if, respectively, a cancel, its deadline, a failed or unstarted handler, or a returning handler took its claim, and its chain ends with the event of that name |
| RuntimeOutcomes.ChainBegins | axon/invocation/local_runtime.go:595-647 | every first execution's chain begins accepted, admitted, dispatched, running |
| RuntimeOutcomes.ReservesExactly | axon/invocation/local_runtime.go:437-484 | a new invocation is reserved if and only if there is room and its parent, if any, is running, unclaimed and has room |
| RuntimeOutcomes.ClaimsExactly | axon/invocation/handle.go:181-190 | who can take a claim: a started or refused handler unless suspended, a cancel with a pending intent, the deadline; nobody twice or after the end |
| RuntimeOutcomes.StartsWithDurableSpawn | axon/invocation/local_runtime.go:595-672 | in every reachable state a first-execution child has started if and only if its child_spawned was committed and stored |
| RuntimeTheorems.TerminalBelongsToOwner | axon/invocation/local_runtime.go:677-789 | a terminal state never comes together with a finalization error, the terminal channel closes at most once, and the supervisor is closed without failure after every registered callback has run |
| RuntimeTheorems.TerminalIsNeverReleased | axon/invocation/persistence.go:459-512 | once terminal in memory a persisted invocation's record is finalizing or closed, and any claim on it is refused |
| RuntimeTheorems.SuspendedAndTerminalExactly | axon/invocation/local_runtime.go:1169-1232 | a terminal invocation is suspended if and only if it is an abandoned recovered execution; one given up by SuspendForRestart is never terminal |
| RuntimeSuspension.FinishesExactly | axon/invocation/local_runtime.go:677-1102 | in every reachable state and for every clock reading an invocation can still become terminal if and only if no chain of waiting, itself included, ends at a claim goroutine that gave up or a record on which BeginFinalization cannot succeed |
| RuntimeSuspension.SuspendedCanFinishExactly | axon/invocation/local_runtime.go:1053-1102 | a suspended invocation can if and only if it is past BeginFinalization or that call can succeed, and no child it has to wait for is obstructed; and only an abandoned one can |
| RuntimeSuspension.AbandonDecides | axon/invocation/local_runtime.go:1508-1532 | flow, record and children before abandonRecoveredExecution decide, both ways, whether a terminal event can follow it |
| RuntimeSuspension.RunsToItsEnd | axon/invocation/local_runtime.go:677-835 | an invocation that is not blocked and waits for finished ones only can run to its end without touching any other flow or record |
| RuntimeWaiting.StepKeepsObstructed | axon/invocation/persistence.go:459-484 | no step of any goroutine or other runtime removes an obstruction |
| RuntimeWaiting.StepKeepsTree | axon/invocation/local_runtime.go:595-647 | registered children never form a cycle and a claim goroutine waits for registered children of its own only |
| RuntimeWitnesses.AbandonedMayStillFinish | axon/invocation/local_runtime.go:1508-1532 | a run in which losing the lease after the claim leaves an invocation suspended and terminal |
| RuntimeWitnesses.AbandonedFirstMayStillFinish | axon/invocation/local_runtime.go:1508-1532 | a run in which the execution is abandoned unclaimed and the deadline finishes it all the same |
| RuntimeWitnesses.ParentMayOutliveChild | axon/invocation/local_runtime.go:741-789 | runs in which a completed or failed parent's chain ends with a child_spawned that no child_terminal answers |
| RuntimeTheorems.CapacityConserved | axon/invocation/local_runtime.go:437-515 | in every reachable state the active count is the attempts in flight plus the invocations holding a slot, each parent's child count is the same restricted to it, and both stay within 0..256 |
| Registry.ReservedConserves | axon/invocation/local_runtime.go:437-484 | a reservation keeps every counter equal to the slots it stands for |
| Registry.ReleasedConserves | axon/invocation/local_runtime.go:486-495 | so does giving back an unbound reservation |
| Registry.RegisteredConserves | axon/invocation/local_runtime.go:595-613 | so does turning a reservation into an active id that was never used |
| Registry.DeactivatedConserves | axon/invocation/local_runtime.go:820-835 | so does clearing an active flag, however often it is repeated |
| Registry.CountersInRange | axon/invocation/local_runtime.go:437-515 | with slots outstanding the counters are positive, so the guards on decrement never decide anything |
| LocalRuntime.Runtime.ReserveInvocation | axon/invocation/local_runtime.go:437-484 | granted exactly below the limits and under a running unclaimed parent, takes one slot, and the deadline is no later than the requested and the parent's; a refusal changes nothing |
| LocalRuntime.Runtime.ReleaseUnboundReservation | axon/invocation/local_runtime.go:486-495 | gives back exactly that reservation |
| LocalRuntime.Runtime.RegisterActive | axon/invocation/local_runtime.go:595-613 | moves the reservation to the new id without changing any count |
| LocalRuntime.Runtime.Deactivate | axon/invocation/local_runtime.go:820-835 | returns the slot once |
| LocalRuntime.Runtime.SuspendOne | axon/invocation/local_runtime.go:1188-1222 | gives the slot back only for an unclaimed, non-terminal invocation whose durable mark succeeded |
| SupervisorObjects.NothingLost | axon/invocation/supervisor_cleanup.go:135-155 | a callback registered while the attempt drains is run by it |
| SupervisorObjects.Supervisor.RegisterCleanup | axon/invocation/supervisor.go:96-108 | queued, or run at once when the barrier is closed |
| SupervisorObjects.Supervisor.OnCancel | axon/invocation/supervisor.go:111-121 | accepted only before cleanup starts |
| SupervisorObjects.Supervisor.SpawnProcessGroup | axon/invocation/supervisor.go:125-162 | no process joins after cleanup has begun or beyond the limit |
| SupervisorObjects.Supervisor.Drain | axon/invocation/supervisor_cleanup.go:135-155 | runs the queue and everything that arrives meanwhile, in order, each once, and reports whether any failed |
| SupervisorObjects.Supervisor.RunTerminalFlow | axon/invocation/supervisor_cleanup.go:64-156 | closes exactly when nothing failed; without confirmed exit it fails and leaves the cleanup queue untouched; a repeated call changes nothing |
| EventRuns.EveryRunIsSound | axon/invocation/handle.go:324-438 | in every reachable state event i and receipt i agree on index, type and state, the log is a path of the transition table, the chain verifies, its terminal flag matches the state, and the terminal channel closes once |
| EventRuns.TerminalOnlyLast | axon/invocation/handle.go:272-299 | on such a path only the last event can be terminal |
| EventNames.PathExactly | axon/invocation/handle.go:272-299 | a log is a path of the transition table if and only if it reads accepted, admitted, dispatched, running and then work, cut short at most by one terminal event at its end |
| EventNames.ReceiptsSpellEvents | axon/invocation/handle.go:12-24 | receipt i carries the words of event i's type and state |
| EventNames.EmitAppendsDraft | axon/invocation/receipt_provider.go:461-555 | emitting appends the provider's draft, only stamped, numbered and linked; a terminal one only with complete cleanup |
| EventNames.EmitsExactly | axon/invocation/handle.go:324-438 | a live event is logged if and only if it is admitted, a progress event finds fewer than 64 buffered, and the provider's draft can be appended |
| EventNames.RestoresExactly | axon/invocation/local_runtime.go:1387-1395 | a numbered record is restored if and only if it is a legal log with a draft for each event |
| Lifecycle.AdmitsExactly | axon/invocation/handle.go:324-362 | an event is admitted if and only if the chain is open, the transition legal, and the claim free for a live event or taken for a terminal one, child_terminal excepted |
| EventRuns.ChainNeverRefuses | axon/invocation/receipt_provider.go:461-555 | an append fails only for the provider's own reasons, never because the chain is already terminal |
| EventRuns.StreamsAreGapless | axon/invocation/handle.go:534-561 | every stream's events are its segment of the log, for any number of concurrent readers |
| EventRuns.NthYield | axon/invocation/handle.go:534-561 | the n-th event of a stream opened at k has sequence k+n |
| EventRuns.BufferingIsExact | axon/invocation/handle.go:363-373 | outputBuffered is the number of progress events nobody has acknowledged and never exceeds 64 |
| EventRuns.DurableIsPrefix | axon/invocation/handle.go:411-416 | the durable events are a prefix of the log, and after the first lost write nothing more is stored |
| EventRuns.FreshRun | axon/invocation/handle.go:124-144 | all of the above from a new core with an empty record |
| EventRuns.RestoredIsSound | axon/invocation/local_runtime.go:1387-1395 | replaying a numbered record gives a sound core with exactly its events |
| EventRuns.RestoredBufferExact | axon/invocation/handle.go:415-419 | a restored core's buffer count is exact if and only if the record holds no progress event |
| EventLag.RestoredLagIsBounded | axon/invocation/handle.go:456-470 | after restoring R progress events at most 64 + R new ones are unacknowledged in any run |
| EventLag.RestoredLagIsReached | axon/invocation/handle.go:456-470 | and for every record of a running invocation some run reaches that bound |
| InvocationObjects.InvocationCore.ClaimTerminal | axon/invocation/handle.go:181-190 | succeeds exactly when unclaimed and not terminal |
| InvocationObjects.InvocationCore.FailFinalization | axon/invocation/handle.go:251-260 | records one error, and closes the channel with it |
| InvocationObjects.InvocationCore.EmitContext | axon/invocation/handle.go:324-438 | refuses for the first reason in order, or logs the event with its receipt |
| InvocationObjects.InvocationCore.Acknowledge | axon/invocation/handle.go:456-470 | each progress event is acknowledged once |
| InvocationObjects.InvocationCore.FetchEvents | axon/invocation/handle.go:479-508 | a batch reaches from the offset to the end of the log without a gap, numbered from the offset; it is empty only after a terminal state or failed finalization, and a wait means an event may still come there |
| InvocationObjects.InvocationCore.RestoreEvents | axon/invocation/local_runtime.go:1387-1391 | replays in order and stops at the first refusal |
| InvocationObjects.EventStream.Next | axon/invocation/handle.go:534-561 | refills when empty, then hands out and acknowledges one event |
| CanonicalInjective.ReceiptBytesInjective | axon/invocation/axiom.go:1316-1372 | two acceptable receipts with equal signed bytes are equal in every field, hosted attestation included |
| CanonicalReader.ReceiptReadsBack | axon/invocation/axiom.go:1316-1372 | a reader that takes index, id, type, state, time, previous hash, caller, callee, subject, nonce, causal context, digest, reason, cleanup flag, hosted part, ability, authority, usage and facts off the signed bytes in that order returns the receipt, whatever follows |
| CanonicalReader.InvocationReadsBack | axon/invocation/axiom.go:1214-1234 | likewise for what the caller of an invocation signs |
| CanonicalReader.AuthorityBack | axon/invocation/axiom.go:677-747 | likewise for the authority slot, with its relation and evidence tags |
| CanonicalInjective.InvocationBytesInjective | axon/invocation/axiom.go:1214-1234 | envelopes have equal signed bytes if and only if they agree in everything but the spelling of the ability and have the same canonical ability ref |
| CanonicalInjective.AuthorityCut | axon/invocation/axiom.go:734-747 | the unprefixed authority slot can be read off the front of any byte string in one way |
| CanonicalInjective.UraBoundExact | axon/invocation/axiom.go:677-699 | the authority encodings are uniquely decodable under a bound on URA lengths if and only if the bound is at most 0x06000000 |
| CanonicalInjective.PlanesCollide | axon/invocation/axiom.go:677-699 | a bootstrap fact and a delegation with the same bytes |
| CanonicalInjective.ReceiptPlanesCollide | axon/invocation/axiom.go:1316-1372 | without the bound, two different acceptable receipts with the same signed bytes |
| CanonicalSample.ReceiptsExist | axon/invocation/axiom.go:1316-1372 | receipts meeting every hypothesis of the injectivity theorem exist at every index, for any hash with a non-zero digest |
| CanonicalSample.IndicesSeparate | axon/invocation/axiom.go:1316-1372 | two such receipts that differ in their index alone sign different bytes |
| CanonicalInjective.CausalInjective | axon/invocation/axiom.go:1121-1146 | the four causal forms never share an encoding |
| CanonicalInjective.ProofInjective | axon/invocation/axiom.go:1148-1175 | authority proofs with equal bytes are equal, optional parts included |
| CanonicalInjective.FactsInjective | axon/invocation/axiom.go:1177-1204 | so are proof facts |
| CanonicalInjective.EvidenceCut | axon/invocation/axiom.go:612-668 | so is evidence of one kind, whatever follows it |
| ByteStrings.FlattenCut | axon/invocation/axiom.go:1086-1106 | a list of fixed and length-prefixed blocks of known layout is uniquely decodable whatever follows it |
| ByteStrings.PutI64Injective | axon/invocation/axiom.go:630-634 | the two's-complement encoding of a signed time is injective |
| CanonicalWriter.Writer.PutStringList | axon/invocation/axiom.go:624-627 | the loop appends exactly the count and the strings |
| CanonicalWriter.Writer.PutRefList | axon/invocation/axiom.go:1198-1202 | the loop appends exactly the count and the references |
| CanonicalWriter.Writer.PutEvidence | axon/invocation/axiom.go:612-668 | appends exactly the evidence payload |
| ReceiptChain.VerifyReceiptChain | axon/invocation/audit.go:295-340 | accepts exactly the chains with consecutive indices, a zero first and linked further previous hashes and correct self hashes, and otherwise names the first broken position and what is wrong there |
| ReceiptChain.TipDeterminesChain | axon/invocation/audit.go:184-210 | two accepted chains with the same tip hash have the same length and the same signed body at every index, if the hash separates their encodings |
| ReceiptChain.ReceiptChainState.ReserveAppend | axon/invocation/receipt_provider.go:598-616 | waits while another append is in flight, refuses a terminal chain, and otherwise reserves the next index on the current tip |
| ReceiptChain.ReceiptChainState.AbortAppend | axon/invocation/receipt_provider.go:618-626 | releases the reservation and nothing else |
| ReceiptChain.ReceiptChainState.CommitAppend | axon/invocation/receipt_provider.go:628-647 | appends only under a current reservation |
| ChainProtocol.ConcurrentAppendsAreSafe | axon/invocation/receipt_provider.go:461-555 | at most one appender holds a reservation and it is for the current tip, in every interleaving with signing failures |
| ChainProtocol.ReservationNeverLost | axon/invocation/receipt_provider.go:628-641 | receipt_sequence_reservation_lost is unreachable, the published chain verifies and only its last receipt is terminal |
| ChainProtocol.ChainOnlyGrows | axon/invocation/receipt_provider.go:598-647 | published receipts are never changed or removed |
| RecoveryRuns.LeaseFencesOthers | axon/invocation/persistence.go:348-512 | after a claim no append, checkpoint, renewal or finalization for anyone else takes effect before the next claim or phase mark |
| RecoveryRuns.NoEarlyTakeover | axon/invocation/persistence.go:528-591 | a live lease cannot be claimed, and only its holder moves the expiry |
| RecoveryRuns.HolderProceeds | axon/invocation/persistence.go:348-484 | the holder of a live lease can log, checkpoint and finalize |
| RecoveryRuns.FinalizingOnlyCloses | axon/invocation/persistence.go:459-512 | a finalizing record is left only for closed, with its checkpoint frozen and every claim refused meanwhile |
| RecoveryRuns.ClosedIsFrozen | axon/invocation/persistence.go:348-631 | a closed record does not change at all until a phase mark |
| RecoveryRuns.LogOnlyGrows | axon/invocation/persistence.go:372-406 | whoever writes, stored events are numbered 0..n-1 and only grow |
| RecoveryRuns.SucceedsExactly | axon/invocation/persistence.go:348-631 | each operation succeeds if and only if phase, lease, clock and sequence allow it |
| RecoveryRuns.RefusalsExactly | axon/invocation/persistence.go:348-631 | otherwise it names the first thing that is wrong |
| RecoveryRuns.EffectExactly | axon/invocation/persistence.go:348-631 | and then changes just its part of the record |
| RecoveryRuns.LastCheckpointWins | axon/invocation/persistence.go:427-456 | over any calls the stored checkpoint is the data of the last successful checkpoint |
| RecoveryRuns.CheckpointStays | axon/invocation/persistence.go:427-456 | and without one it stays as it was |
| RecoveryRuns.EventsAreAppended | axon/invocation/persistence.go:372-406 | the stored events are the initial ones followed by those of the successful appends, in order |
| PersistentLogs.PersistentLog.AppendLifecycleEvent | axon/invocation/persistence.go:348-407 | the record changes only for the right writer, phase, lease and sequence, and closes on a terminal event |
| PersistentLogs.PersistentLog.CheckpointRecovery | axon/invocation/persistence.go:427-456 | under the right ownership only, stores the new checkpoint and changes nothing else |
| PersistentLogs.PersistentLog.BeginFinalization | axon/invocation/persistence.go:459-484 | seals the record from the phases and for the owner allowed |
| PersistentLogs.PersistentLog.MarkRecoveryPhase | axon/invocation/persistence.go:487-512 | never marks finalizing, and leaves finalizing only for closed |
| PersistentLogs.PersistentLog.RenewRecoveryLease | axon/invocation/persistence.go:605-631 | refuses a non-positive lease, extends only the exact holder's, to the lease after the time of the call in whole milliseconds |
| PersistentLogs.PersistentLog.CheckCandidates | axon/invocation/persistence.go:544-552 | reports the first missing or finalizing record of a listing |
| PersistentLogs.PersistentLog.ClaimRecovery | axon/invocation/persistence.go:528-591 | changes nothing unless every listed record passes; then, whatever other writers left in between, leases exactly what the locked pass grants and reports what stopped it |
| PersistentLogs.PersistentLog.ClaimLocked | axon/invocation/persistence.go:558-590 | the loop rechecks each record and stops at the limit, at a record missing or finalizing by now, or at a failed write, keeping what it leased |
| PersistentLogs.WalkIsWanted | axon/invocation/persistence.go:558-590 | what is leased are the first claimable records in listing order, all that were asked for unless an error stopped it |
| PersistentLogs.ClaimGrants | axon/invocation/persistence.go:558-590 | what is granted was claimable and is now leased to the caller; fewer than the limit means all of them |
| PersistentLogs.ClaimableExactly | axon/invocation/persistence.go:574-579 | claimable are exactly the listed records that are suspended or whose recovery lease has run out |
| Inbox.EveryRunIsSound | axon/invocation/messaging.go:93-202 | in every interleaving sequences are contiguous, the send under the mutex has room, and drained closes at most once and with no delivery in flight |
| Inbox.ReceivedInOrder | axon/invocation/messaging.go:169-202 | receivers see sequences 0, 1, 2, ... |
| Inbox.EndOfInputIsFinal | axon/invocation/inbox_input.go:23-52 | an end of input seen by a receiver means every accepted message was received, and stays so |
| Inbox.DeliveryIsIdempotent | axon/invocation/messaging.go:93-116 | a caller's message id is accepted at most once per window, and a duplicate is answered with the original's sequence |
| Inbox.DuplicateExactly | axon/invocation/messaging.go:93-126 | a delivery goes on to the queue if and only if the gate is open and its supplied id was not accepted within the window |
| InboxObjects.InboxInput.Begin | axon/invocation/inbox_input.go:23-31 | admits only while open |
| InboxObjects.InboxInput.Finish | axon/invocation/inbox_input.go:32-37 | the last publisher of a closing inbox drains it |
| InboxObjects.InboxInput.Close | axon/invocation/inbox_input.go:38-52 | closes at once when nobody is publishing |
| InboxObjects.MessageInbox.Sweep | axon/invocation/messaging.go:101-106 | drops exactly the entries older than the window |
| InboxObjects.MessageInbox.Deliver | axon/invocation/messaging.go:93-162 | duplicate, closed, full or accepted, in that order, with the whole new state |
| InboxObjects.MessageInbox.Recv | axon/invocation/messaging.go:169-202 | the oldest message, the end once drained and empty, nothing taken on timeout or context end, or a wait |
| CreditStream.StreamIsSafe | axon/streams.go:94-227 | if every grant finds the credit channel full, credits, frames in hand and queued data add up to the initial credit, frames are taken in order, and after Close or Cancel a terminal frame is on its way or delivered |
| CreditStream.GrantConservesExactly | axon/streams.go:229-237 | a grant keeps the account if and only if the credit channel is full, and then it changes nothing |
| CreditStream.FirstTerminalFits | axon/streams.go:200-227 | the reserved slot is free for the first terminal frame |
| CreditLimits.GrantLosesExactly | axon/streams.go:112-237 | on any stream whose account is balanced, a grant can lead to an end without a terminal frame if and only if credit is short, no terminal frame is underway and, once cancelled, more producers are in push than tokens and frames in readers' hands |
| CreditLimits.GrantCanLoseTheTerminal | axon/streams.go:200-237 | for every initial credit a run in which a grant makes Close lose its terminal frame |
| CreditLimits.CancelCanLoseItsOwnFrame | axon/streams.go:200-211 | for every initial credit a run in which a grant makes Cancel drop its own frame and nobody closes |
| CreditLimits.OneConsumerExactly | axon/streams.go:157-227 | every run read by a set of consumers delivers at most one terminal frame if and only if the set has at most one member |
| CreditLimits.AtMostOneTerminal | axon/streams.go:157-198 | a single consumer is handed at most one terminal frame, grants or not |
| CreditLimits.TwoConsumersSeeTwo | axon/streams.go:157-227 | any two consumers can each be handed one, whatever the credit |
| StreamObjects.StreamInner.Push | axon/streams.go:112-155 | only data needs credit; refused when cancelled, and on a balanced stream with no terminal queued the queue has room |
| StreamObjects.StreamInner.NextFrame | axon/streams.go:157-198 | in order, data returning its credit, nothing after a terminal |
| StreamObjects.StreamInner.Cancel | axon/streams.go:200-211 | once, queueing a terminal frame if there is room |
| StreamObjects.StreamInner.Close | axon/streams.go:213-227 | the first close queues its terminal frame, or cancels without one when the buffer is full, which a balanced stream with no terminal queued excludes |
| StreamObjects.StreamInner.GrantCredit | axon/streams.go:229-237 | adds as many tokens as fit, and unbalances the stream exactly if it adds any |
| Bidi.TransitionsClimb | axon/bidi_session.go:462-514 | every admitted transition climbs the rank of states, except closing what is closed |
| BidiRuns.EveryRunKeepsHistory | axon/bidi_session.go:242-331 | in every interleaving each history is the last maxBuffered validated frames in strictly increasing order, Terminal and Cancelled have a recorded receipt, and a recorded receipt never changes |
| BidiRuns.ClosedIsFinalExactly | axon/bidi_session.go:274-415 | every run from a closed session stays closed if and only if no receive is in flight or a receipt has been recorded |
| BidiRuns.StepClimbs | axon/bidi_session.go:242-566 | a step climbs or keeps the state, except exactly when a closed session with a receive in flight and no receipt is handed the end of the stream, an end of input, a final receipt or a frame out of order |
| BidiRuns.ChangesAreBounded | axon/bidi_session.go:242-566 | in every run the state changes at most 8 minus its rank times, so a session reopens at most once |
| BidiRuns.SpentOnlyCloses | axon/bidi_session.go:274-415 | a session that failed or closed without a receipt and with no receive in flight can only be closed |
| BidiRuns.OrderlyRunsClimb | axon/bidi_session.go:242-566 | if no close commits under a receive without a recorded receipt, the state changes at most as often as its rank rises |
| BidiRuns.OrderlyExactly | axon/bidi_session.go:242-566 | that condition is exact: it holds of a run if and only if at none of its points some step could lower the state |
| BidiRuns.WholeCallsAreOrderly | axon/bidi_session.go:242-566 | sequences of whole calls satisfy that condition |
| BidiRuns.ClosedCanReopen | axon/bidi_session.go:274-331 | for every buffer size a run in which a receive in flight turns Closed into Failed |
| BidiObjects.BidiSession.Send | axon/bidi_session.go:242-271 | sends exactly on an open path with an ordered frame |
| BidiObjects.BidiSession.Receive | axon/bidi_session.go:274-331 | one of seven outcomes in order, with the whole new state |
| BidiHistory.StateTellsHistory | axon/bidi_session.go:462-558 | in every run of a new session an active state is the one its accepted commands and received frames spell, and Terminal, Cancelled and Failed after a receipt are exactly the verdicts completed, cancelled and failed of the receipt last received |
| BidiHistory.ReceiptDecides | axon/bidi_session.go:516-558 | an ordered final receipt in an active state is recorded and decides the state by its verdict |
| BidiHistory.OutcomesExactly | axon/bidi_session.go:274-331 | when each of the answers of a receive is given and what it does |
| BidiHistory.ReceiveAcceptedExactly | axon/bidi_session.go:274-290 | a receive starts unless the session is closed, its stream has ended, or it failed without a receipt |
| BidiHistory.EndIsFinal | axon/bidi_session.go:274-331 | after the end of the stream no further receive starts |
| BidiHistory.CommandAcceptedExactly | axon/bidi_session.go:334-386 | from which states a half-close and a cancel are accepted |
| BidiHistory.CloseAcceptedExactly | axon/bidi_session.go:389-415 | only settled sessions close |
| BidiObjects.BidiSession.ApplyFrame | axon/bidi_session.go:516-558 | the lifecycle effect of a received frame, the verdict of a receipt included, or refusal |
| BidiObjects.BidiSession.Command | axon/bidi_session.go:334-386 | CloseSend and Cancel: refused without cancellation support, else the transition first, then the transport |
| BidiObjects.BidiSession.Close | axon/bidi_session.go:389-415 | only a settled session closes |
| BidiObjects.BidiSession.AppendBounded | axon/bidi_session.go:610-624 | the in-place shift keeps the newest frames |
| ReplayWindow.PruningIsInvisibleExactly | axon/invocation/admission.go:198-218 | the pruned table answers like the full history for every choice of keys if and only if no call prunes an acceptance that a later call finds in its window |
| ReplayWindow.MonotoneIsSafe | axon/invocation/admission.go:198-218 | non-decreasing times satisfy that for every window |
| ReplayWindow.UnsafeTimesAdmitReplay | axon/invocation/admission.go:198-218 | any unsafe triple of times accepts a key again that is still in its window |
| ReplayWindow.BackwardClockAdmitsReplay | axon/invocation/admission.go:198-218 | a clock step back after a pruning call makes the two differ |
| Admission.AdmittedExactly | axon/invocation/admission.go:236-293 | success if and only if the envelope is complete, the signature well shaped and verified, resolver, store and provider present, the policy passed, and the table holds no entry for this caller, ability and nonce in the window; a failing check leaves the table alone |
| Admission.NextAdmittedExactly | axon/invocation/admission.go:198-293 | over any history of admissions whose times are window safe, the next is admitted if and only if it passes every check and none with its caller, ability and nonce was admitted in the window |
| Admission.RecordedIffAdmitted | axon/invocation/admission.go:236-293 | the nonce is consumed if and only if the admission succeeds, and the check after recording cannot fail |
| ReplayWindow.NonceReplayStore.CheckAndRecord | axon/invocation/admission.go:198-218 | prunes, then accepts and records exactly the keys not live |
| UraRoundTrip.PublishResolve | axon/ura.go:133-215 | publishing then resolving is the identity if and only if the name is well formed and the owner is not an agent of user service (and for an authority the name is dotted without the reserved prefix) |
| UraRoundTrip.ResolvesOnlyForItsOwner | axon/ura.go:177-215 | a published name resolves for no owner with another parsed identity, and to no other name |
| UraRoundTrip.OwnerReadsBack | axon/ura.go:383-459 | the owner token of a published tail parses back to its owner |
| UraSpelling.PublishedSpelled | axon/ura.go:133-175 | the published URA of each kind of owner, letter by letter |
| UraSpelling.ParsedIsSpelled | axon/ura.go:484-587 | a text parses to a publishing owner only if it is that owner's URA, up to a slash at the end of an authority's |
| UraSpelling.TrimExactly | axon/ura.go:133-138 | trimming takes Unicode white space off both ends and nothing else |
| UraRoundTrip.ParsedIsClean | axon/ura.go:484-587 | the ids of a parsed owner contain no separator and no reserved token |
| UraGrammar.CutJoin | axon/ura.go:383-459 | cutting at the first separator undoes joining with it |
| TextEncodings.DecimalBijection | axon/invocation/bundle.go:1289-1303 | a text is read as n if and only if it is the canonical decimal of n |
| TextEncodings.ParseDecimalU64 | axon/invocation/bundle.go:1289-1303 | accepts exactly digits without a leading zero below 2^64 |
| TextEncodings.HexRoundTrip | axon/invocation/bundle.go:1239-1272 | decoding undoes encoding |
| TextEncodings.HexSpelled | axon/invocation/bundle.go:1239-1272 | two lower-case digits a byte, high half first |
| TextEncodings.UnhexExactly | axon/invocation/bundle.go:1239-1272 | a text decodes to exactly the bytes whose digits, of either case, it spells |
| Bundle.DecodeRefs | axon/invocation/bundle.go:557-566 | the list loop decodes every reference or fails at the first bad one |
| BundleRoundTrip.ExportImport | axon/invocation/bundle.go:918-1209 | every published receipt exports, and comes back equal if and only if its profiles are known, its authority identities strict and its proof signature absent or non-empty |
| BundleRoundTrip.SignedBytesSurvive | axon/invocation/bundle.go:918-1209 | such a receipt keeps its self hash and signed bytes |
| BundleChecks.ImportedIsConsistent | axon/invocation/bundle.go:918-1126 | in an imported record payload and digests, proof and authority, subject reference, version and parents agree |
| BundleChecks.ImportedAuthorityIsTied | axon/invocation/bundle.go:918-1126 | its authority belongs to its caller, subject and ability |
| BundleChecks.ChangedPayloadRefused | axon/invocation/bundle.go:918-1126 | a wire receipt whose payload was replaced by one with another hash is refused |
| BundleChecks.EncodedIsComplete | axon/invocation/axiom.go:1177-1204 | the encoder refuses receipts with foreign authority, missing facts, zero digests or a wrong proof hash |
| BundleChecks.HeadOnTheWire | axon/invocation/bundle.go:1138-1217 | each head field travels under its own name |
| BundleChecks.FormsOnTheWire | axon/invocation/bundle.go:312-574 | the words naming causal and authority forms |
| BundleChecks.KindsOnTheWire | axon/invocation/bundle.go:63-71 | the words naming entity kinds |
| BundleChecks.UsageOnTheWire | axon/invocation/bundle.go:708-735 | each usage counter travels as its decimal number under its own name |
| BundleChecks.ProfilesExactly | axon/invocation/bundle.go:30-49 | the two profiles an imported identity can have |
| BundleRoundTrip.AuthorityRoundTrip | axon/invocation/bundle.go:312-414 | an authority comes back with strict profiles and otherwise unchanged |
| BundleRoundTrip.ProofRoundTrip | axon/invocation/bundle.go:428-509 | an authority proof comes back up to strictness and an empty signature |
| BundleRoundTrip.CausalRoundTrip | axon/invocation/bundle.go:512-574 | every causal context comes back |

## Left out

- Identifiers of invocations, runtimes and goroutines are natural numbers; only equality is used. Go's maps, slices and pointers are values, so aliasing between copies is not captured.
- Structs with a tag and one reference per arm are datatypes, so a tag with a missing or a second arm is not represented.
- RuntimeTheorems.StoppedParentSettledItsChildren: stated for parents that are not recovered executions, as the restored chain may hold children of an earlier runtime; panic recovery (closePanickedCancelWinner, executeAbility) is not part of the model because that path emits without waiting for children.
- RuntimeTheorems.TerminalIsNeverReleased: other writers of the record are any runtimes, but a runtime does not re-claim an id it has bound, marks are only to suspended or closed, and nobody marks a closed record; MarkRecoveryPhase itself would allow the last.
- In RuntimeMachine the four start-up events of a core are part of its registration, since the core is not shared earlier, and an append of child_terminal to a chain that admits it succeeds.
- The structure of events in RuntimeMachine is reduced to kind and child; EventCore has the full log but a single core.
- CanonicalInjective.ReceiptBytesInjective: lengths and counts fit their 4-byte prefixes, which is where Go's conversion would wrap; trimmed-to-empty strings are recognised for ASCII white space only.
- Relation credential_of and attestation evidence have no encoding in the source (it panics); here they encode to nothing and are excluded by the receipt checks.
- Canonical's straight-line encoders are functions; CanonicalWriter has the ones with loops.
- EventRuns.BufferingIsExact: for cores whose count starts exact, which excludes recovered cores with restored progress events.
- Waiting: a method of an object returns where the source would block; the protocols have a disabled step there.
- PersistentLogs: blank lease owners are not represented.
- CreditStream: callers of the protocol push data frames only, while StreamObjects.StreamInner.Push takes terminal ones too. Timeouts are steps without a clock.
- RuntimeSuspension.FinishesExactly: the goroutine renewing a lease is taken to run until the execution is suspended; in the source it also ends when the ability handler has returned.
- UraGrammar treats strings as Unicode text; ill-formed UTF-8 and the other URA constructors (user, device, resource) are not modelled.
- The append-only event journal and index beside the recovery record, the JSON text, renames and fsync.
- BundleRoundTrip.ExportImport: import errors are not told apart; descriptor and subject parsers are parameters; the JSON text layer (field allow-lists, presence checks) is not modelled, except decimal counters.
- Signatures, key resolution, random ids and nonces, clocks, OS signals and process groups.
- ledger_projection.go, semantic.go, signed_invoke_request.go, descriptor_bound_native.go, delegation.go, session_authority.go, stream_resume.go, supervisor_recovery.go, runtime_server and the native bridges, which would add field-by-field checks or calls outside the SDK.
