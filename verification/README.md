# The settlement facilitator, modelled and proved in Dafny

The facilitator settles x402 payments on Ethereum: it admits a verified EIP-3009
authorization, gives it a signer nonce, signs and sends one transaction for it, and
follows that transaction through replacement, ambiguity, reorganization, nonce gaps and
erasure until the payment is final. This project models that protocol, its arithmetic,
the provider reads it rests on, the merchant accounts it pays, and its two encoders, and
proves what they guarantee across whole runs.

`dafny verify dfyconfig.toml` checks the project.

## How it is organised

| file | content |
|---|---|
| PaymentStates, Ledger | the transition table; payment and transaction rows; what is invariant about one payment (`Sound`) and what no later step takes back (`Kept`) |
| Steps, Admission | every store call as a function from one database to the next, with the schema's constraints checked statement by statement |
| SettlementStore | the store as the program writes it: a class whose methods change rows in place and roll back; each is proved equal to its step |
| Preservation, StepProofs | every step keeps every payment sound and its history intact |
| Protocol, Runs | the step system: database, network, chain, and actors acting on a reading of any age; the invariants of every run |
| Attempts, SettlementService | the pipeline as the program writes it (settle, broadcast, confirm, recover), with other actors interleaved anywhere; each method extends a run and says exactly which events it adds and what it answers |
| Commits | when each store call commits in a reachable database, what it leaves column by column, what the queries list and what is signed |
| Theorems, Sightings, Guards, Outcomes | the guarantees over runs, and the exact conditions of the calls that need one |
| Timeline, Quotas, Spending, Leases | sliding windows, erasure under one clock, the gas bound, lease exclusion |
| Fees, Agreement, Finality, Grounds | fee bumps; reads reconciled over providers; finality with one honest provider; what every settled payment of a run rests on |
| Walkthrough, Cases | one payment's run from verification to settled; a run for each condition that can fail |
| Recipients, Encoding, Calldata, Identity | recipient proofs and sessions; the calldata builders; the identity preimage |

How a run is built: an event carries the index of the earlier state its actor read.
Everything the actor passes to the store comes from that reading; only the store's guards
look at the present. A crash is an actor that stops, a lapsed lease is an actor that does
not, and both are covered because no step of a run is owed to anyone. A signed transaction
stands for its own hash; re-signing changes only its salt, never its sighash. Database and
application clocks, base fees, receipts, provider answers and the signer's randomness are
parameters.

## What turned out to be conditional

Each is proved with its exact condition. The runs and inputs named fail the condition.

- `MarkTxConfirming` ignores how many rows it updated, so a stale row id moves the payment
  alone. State and rows stay in step exactly when the named row is still the live one
  (`SightingExactly`); `StaleSighting` is a run where it is not. Such a payment is wedged
  until the live row itself is seen (`BlindSightingWedges`). Every other payment step
  tolerates any stale id.
- `MarkGapFillerPrepared` guards only on `dropped`. It is safe exactly when the row holds no
  signature (`PreparedExactly`); in the run `LatePreparationLosesRecord` a late call
  overwrites the record of a transaction that was sent. Runs that respect the condition are
  called `GapRun`.
- `MarkGapFillerSucceeded` escalates exactly the live filler of an expired payment
  (`EscalationExactly`). A mined filler that was already superseded is refused by the unique
  index (`SupersededFillerIsRefused`), and a failed payment is never moved
  (`FailedFillerIsRefused`).
- The HTTP waiter writes as `http-wait`, which the CHECK on `payment_transitions.actor_type`
  refuses, so it can only replay an outcome already recorded (`HttpWaiterOnlyReplays`),
  although the comments say it records what it saw first.
- A success answered by settle is the payment's outcome exactly when the row id it was
  recorded under carries the hash it reports (`SuccessExactly`, `Service.Settle`). That is so
  on every path but one: a hash the request's own broadcast returned is waited for under the
  admitted row, whichever row it came from. `ContradictedOutcome` is such a request, with a
  true observation; it takes a chain that no longer holds the transaction the record was
  settled by (`WrongOnlyAfterReorg`).
- A wait is answered with an outcome exactly if the record has it of the row and its payment
  (`WaitAnswersExactly`). The block it was seen in is not compared with the recorded one
  (`AnyBlockIsAnswered`).
- A broadcast row with room for a fee bump can be replaced exactly when its payment is
  broadcast or replaced and the row records an attempt (`BumpedExactly`). After a blind
  sighting the first fails (`BlindRowIsNeverBumped`). The second fails for originals that were
  re-signed, landed after all and were reorganized out (`ReorgedOriginalIsNeverBumped`).
- A signature is dropped once another of its nonce was recorded as mined. It can no longer be
  mined exactly if the chain never gives that nonce up again (`HarmlessExactly`); an original
  is landed at any depth, and in the run `DroppedIsMined` the chain takes the dropped
  replacement after all, which no later step records (`DroppedForGood`).
- On the chain, a payment's nonce is taken, worked on or an open gap exactly when it is taken
  or the record does not call it consumed (`NonceOnChainExactly`). A filler is resolved at any
  depth, and in the run `ClosedGapReopens` its nonce is free again, blocks a later intent and
  is listed nowhere, for good (`ConsumedForGood`).
- An overdue retired payment can be erased exactly when it has no transaction or its only one
  is reverted (`ErasableExactly`); with two fillers it never can (`ManyFillersBlockErasure`,
  `TwoFillersKeepThePayment`).
- A reverted original is taken for final without reading its block again. It is final exactly
  when that read would still show the block (`RevertedOriginalExactly`);
  `ReorgPassesForRevert` is evidence, from an honest provider, where it would not.
- An admission counts exactly the merchant's payments that are not erased (`CountedExactly`),
  so it leaves the merchant within its quota exactly when the erased ones fit as well
  (`AdmissionExactly`). One clock and a retention no shorter than the window ensure it
  (`MerchantQuotaUnderOneClock`); a retention clock ahead of admission's overfills a window
  (`SkewedClockOverfills`).
- The two calldata builders agree exactly when settlement refuses or the window is proper
  (`BuildersAgree`). Marking a session outside the activation step is sound exactly when a
  proof is on record and the prover is still the recipient (`Account.MarkSession`).

## Model

| member | source | states |
|---|---|---|
| PaymentStates.TrailExtends | internal/settlement/state.go:22-46 | appending an edge of the table that leaves the current state keeps the audit trail an unbroken walk |
| PaymentStates.TerminalStatesAbsorb | internal/settlement/state.go:22-37 | on any audited walk, confirmed, reverted, failed and verification_failed are last, and expired is followed only by manual_review |
| PaymentStates.TableReadsBothWays | internal/settlement/state.go:22-37 | the table of edges out of each state and the table of edges into each state are one table |
| SettlementStore.Store.UpdateRow | migrations/000001_initial.up.sql:165-191 | a row update commits exactly when neither unique index objects, and writes that row only |
| SettlementStore.Store.TransitionPayment | internal/store/settlementwork.go:321-333 | an edge outside the table is refused before any write; otherwise it succeeds exactly from the given state with an admitted actor, and audits the edge it took |
| SettlementStore.Store.TransitionPaymentIn | internal/store/settlementwork.go:342-365 | any invalid edge in the list refuses the whole call; otherwise it moves from the state it found and audits that state |
| SettlementStore.Store.MarkTxSigned | internal/store/settlementwork.go:121-135 | is the step that records hash, sighash and terms on an unsigned intent, or changes nothing |
| SettlementStore.Store.MarkTxBroadcast | internal/store/settlementwork.go:141-161 | row and payment reach broadcast together with the hash, or neither moves |
| SettlementStore.Store.MarkTxAmbiguous | internal/store/settlementwork.go:167-187 | row to ambiguous and payment to manual_review together, or neither |
| SettlementStore.Store.MarkIntentUnsettleable | internal/store/settlementwork.go:380-400 | an unsigned intent is dropped and its payment fails, together or not at all |
| SettlementStore.Store.MarkIntentExpired | internal/store/settlementwork.go:407-427 | an unsigned intent is dropped and its payment expires, together or not at all |
| SettlementStore.Store.MarkTxConfirming | internal/store/settlementwork.go:194-227 | the row is updated only if still live, the payment moves regardless, and a refused audit undoes both |
| SettlementStore.Store.MarkTxConfirmed | internal/store/settlementwork.go:232-266 | finalizes a live row and its payment together; succeeds without writing on an identical terminal record |
| SettlementStore.Store.MarkTxReverted | internal/store/settlementwork.go:271-301 | the same for a revert |
| SettlementStore.Store.MarkTxReorgedOut | internal/store/recovery.go:257-277 | a confirming row loses its block and returns to broadcast with its payment |
| SettlementStore.Store.MarkTxRecoveredBroadcast | internal/store/recovery.go:21-41 | an ambiguous row re-enters broadcast under the given hash with its payment |
| SettlementStore.Store.SupersedeRow | internal/store/recovery.go:133-162 | update, insert and link commit exactly when neither statement violates an index |
| SettlementStore.Store.MarkTxAmbiguousReplaced | internal/store/recovery.go:73-118 | the original stays recorded under its raw hash and linked to the re-signed row; all of it or nothing |
| SettlementStore.Store.MarkTxReplaced | internal/store/recovery.go:125-185 | replacement on the same nonce; only the first one is audited; all of it or nothing |
| SettlementStore.Store.DropActiveRows | internal/store/recovery.go:200-209 | drops exactly the active rows, and its count is one exactly when there was exactly one |
| SettlementStore.Store.MarkReplacementLanded | internal/store/recovery.go:192-251 | a landed original takes over from the one active row, from the states its result allows, or nothing changes |
| SettlementStore.Store.MarkGapFillerPrepared | internal/store/recovery.go:430-445 | records the exact signed filler on a dropped row |
| SettlementStore.Store.MarkGapFillerReplaced | internal/store/recovery.go:453-493 | replaces a broadcast filler that has its bytes, keeping both signatures' bytes |
| SettlementStore.Store.MarkGapFillerResolved | internal/store/recovery.go:501-525 | retires a mined filler and drops every other signature of its nonce |
| SettlementStore.Store.MarkGapFillerSucceeded | internal/store/recovery.go:552-584 | activates the mined row before dropping siblings, and moves an expired payment to manual_review, or rolls back |
| SettlementStore.Store.ListReplacedPending | internal/store/recovery.go:281-293 | lists exactly the replaced rows of pending payments, each once |
| SettlementStore.Store.ListDroppedBlockingGaps | internal/store/recovery.go:300-344 | lists exactly the unsigned dropped rows of retired payments that block a later nonce, each once |
| SettlementStore.Store.ListGapFillers | internal/store/recovery.go:351-371 | lists exactly the watched fillers, each once |
| SettlementStore.Store.ListStuckGapFillers | internal/store/recovery.go:378-426 | lists exactly the broadcast fillers attempted before the cutoff, each once |
| SettlementStore.Store.ClaimPayment | internal/store/settlementwork.go:23-45 | leases exactly a free, unerased payment |
| SettlementStore.Store.ClaimPayments | internal/store/lease.go:19-58 | leases at most the limit of free payments in the given states, none twice, and leaves one behind only for payments idle at least as long |
| SettlementStore.LeasedOldest | internal/store/lease.go:27-45 | every leased payment was free and in a given state, and none left behind was untouched longer |
| SettlementStore.Store.RenewLease | internal/store/lease.go:65-81 | extends exactly an unexpired lease of the same worker |
| SettlementStore.Store.ReleaseLease | internal/store/lease.go:88-103 | clears exactly a lease of the same worker |
| SettlementStore.Store.ApplyRetention | internal/store/retention.go:55-132 | expires and then erases, each in one bounded oldest-first batch; nothing expired in a pass is erased in it; all else is unchanged |
| SettlementStore.ExpiredOldest | internal/store/retention.go:66-84 | every expired payment was verified and ran out, and none left behind ran out earlier |
| SettlementStore.ErasedOldest | internal/store/retention.go:86-106 | every erased payment was eligible, and no eligible one left behind rested longer |
| SettlementStore.Store.SeedSignerAccount | internal/store/signer.go:28-45 | is the step that sets the counter to the greater of its own value and the chain's count (`Commits.SeedingCommits`) |
| SettlementStore.Store.AllocateNonce | internal/store/signer.go:56-74 | hands out the counter's value and advances it by one, if the signer is known and the value fits 64 bits |
| SettlementStore.Store.CountRequested | internal/store/settlement.go:178-212 | the counting loop returns the number of intents stamped inside the window, of one merchant or of all |
| SettlementStore.Store.CreateSettlementIntent | internal/store/settlement.go:30-262 | is the admission step, with its checks in order and everything an accepted intent writes committed together (`Admission.RepliesExactly`, `Commits.AdmissionCommits`) |
| Admission.CreateIntent | internal/store/settlement.go:30-262 | anything but acceptance leaves payments and nonces alone; acceptance takes exactly the signer's next nonce |
| Admission.RepliesExactly | internal/store/settlement.go:104-233 | a payment without a transaction is refused for each reason exactly if its own condition fails and those before it hold, expiry being no more than the margin left, and accepted exactly if all hold |
| Admission.UnknownIsNotFound | internal/store/settlement.go:30-68 | payment_not_found is answered exactly if no payment has the identity, and an invalid request leaves no trace |
| Admission.AnswersAreLogged | internal/store/settlement.go:277-291 | every request that is answered appends exactly one attempt saying what it was told |
| Admission.AcceptedIntentIsDurable | internal/store/settlement.go:214-262 | an accepted payment was verified, without rows and of an active merchant, and now has exactly one unsigned intent row with the nonce |
| Quotas.AcceptedInTime | internal/store/settlement.go:104-168 | at every accepted event of a run the payment is verified, without rows, of an active merchant and authorized for longer than the margin, and it stays authorized until then |
| Preservation.LandedKeeps | internal/store/recovery.go:192-251 | a landed original keeps state and rows matched and justifies the drop of the replacement |
| Preservation.ReplacedKeeps | internal/store/recovery.go:125-185 | a replacement keeps one live row, the nonce, and every earlier signature on record |
| Preservation.FillerSucceededKeeps | internal/store/recovery.go:552-584 | escalation leaves one confirming row and only dropped siblings |
| Preservation.RedactKeeps | internal/store/retention.go:89-129 | erasing an eligible payment keeps every invariant and every recorded hash |
| StepProofs.SignatureFits | internal/settlement/recovery.go:317-380 | a signature built from a reading of any age carries today's nonce and signer of its row and stays within the ceiling |
| StepProofs.ResignedStillIdentical | internal/settlement/recovery.go:277-311 | a re-signature made from any earlier reading still matches the recorded sighash |
| StepProofs.StoreKeeps | internal/settlement/recovery.go:190-267 | every signing call, however stale, keeps all payments sound and history intact |
| StepProofs.WriteKeeps | internal/store/settlementwork.go:121-427 | so does every other store call |
| Commits.SigningCommits | internal/store/settlementwork.go:121-135 | in a reachable database a signature is recorded exactly on an intent, with its sighash and terms, and nothing else changes |
| Commits.BroadcastCommits | internal/store/settlementwork.go:141-161 | the recorded signature becomes the hash, stamped now, exactly on the row being sent |
| Commits.AmbiguityCommits | internal/store/settlementwork.go:167-187 | a row being sent becomes ambiguous and its payment goes to manual review, and nothing else changes |
| Commits.RetirementCommits | internal/store/settlementwork.go:380-427 | an intent is retired exactly before anything was signed for it |
| Commits.SightingCommits | internal/store/settlementwork.go:194-227 | a sighting writes its block on a live row, keeps the time of the first one, and moves a broadcast or replaced payment even if the row is not live |
| Commits.SuccessCommits | internal/store/settlementwork.go:232-266 | a success is recorded exactly on a live row of a pending payment with its own block, gas and time, and repeated without writing |
| Commits.RevertCommits | internal/store/settlementwork.go:271-301 | a revert likewise with its own gas; of a retired payment it is not repeated |
| Commits.UnwindingCommits | internal/store/recovery.go:257-277 | exactly the confirming row of a confirming payment forgets its block and nothing else |
| Commits.ReattachmentCommits | internal/store/recovery.go:21-41 | exactly an ambiguous row is re-attached under the signature on record, stamped now |
| Commits.ResigningCommits | internal/store/recovery.go:73-118 | exactly another signature supersedes an ambiguous row, which stays under its own hash and linked |
| Commits.ReplacingCommits | internal/store/recovery.go:125-185 | a broadcast row is replaced exactly while its payment is broadcast or replaced, by a signature new to the payment |
| Commits.LandingCommits | internal/store/recovery.go:192-251 | an original lands exactly while its payment is pending, a success only while it is not confirming, and the active replacement is dropped |
| Commits.PreparingCommits | internal/store/recovery.go:430-445 | a dropped row becomes a filler exactly if its payment has no active row |
| Commits.RefillingCommits | internal/store/recovery.go:453-493 | exactly a broadcast filler is replaced, by a new signature whose bytes are kept, and the payment is left alone |
| Commits.ResolvingCommits | internal/store/recovery.go:501-525 | a mined filler is retired with its gas exactly while broadcast or replaced, and every other signature of its nonce is dropped |
| Commits.EscalatingCommits | internal/store/recovery.go:552-584 | exactly the broadcast filler of an expired payment is escalated, with its block and gas |
| Commits.ListingsExactly | internal/store/recovery.go:281-426 | what the four watch queries list in a reachable database, by state and status alone |
| Commits.FirstSignature | internal/settlement/service.go:317-345 | an intent is signed for its own nonce, signer and payment with the configured gas limit and the estimated fees, exactly if those are usable |
| Commits.FillerSignature | internal/settlement/recovery.go:503-545 | so is a filler, exactly for a gap that blocks |
| Commits.RepeatedSignature | internal/settlement/recovery.go:277-311 | a re-signature is the transaction on record under another salt |
| Commits.BumpedSignature | internal/settlement/recovery.go:317-380 | a replacement is the transaction on record with bumped fees, exactly for a row attempted before the cutoff with room |
| Commits.BumpedFiller | internal/settlement/recovery.go:600-627 | so is a bumped filler, exactly for a listed one |
| Commits.AdmissionCommits | internal/store/settlement.go:214-291 | what an admission leaves: the attempt under the payment found, and if accepted the nonce, the intent row, the payment's new columns and its audit edge |
| Commits.LeaseCommits | internal/store/settlementwork.go:23-45 | a lease is granted exactly on an unerased payment free at the caller's time, for the duration asked for |
| Commits.LeaseUpkeepCommits | internal/store/lease.go:60-103 | a lease is extended exactly by its holder before it runs out and given back exactly by its holder |
| Commits.RetentionCommits | internal/store/retention.go:66-129 | what is expired and what is erased, exactly, and the columns erasing forgets |
| Commits.SeedingCommits | internal/store/signer.go:28-45 | seeding sets the counter to the greater of the two and touches nothing else |
| Commits.VerificationCommits | migrations/000001_initial.up.sql:91-120 | a verification is recorded once per identity, and only if no record has taken its authorization |
| Runs.RunsStayGood | internal/settlement/service.go:278-382 | in every state of every run all payments are sound, nonces and identities are distinct, whatever was sent is on record, and every earlier state is a past of it |
| SettlementService.Service.Perform | internal/settlement/service.go:278-382 | one step of an actor on a reading extends the run by exactly that event |
| SettlementService.Service.RecordThenSend | internal/settlement/recovery.go:389-420 | its own events are the record of the signature and, exactly if that committed and the delivery gets through, its sending afterwards, whatever others do in between |
| SettlementService.Service.BroadcastClaimed | internal/settlement/service.go:278-382 | events and answer are exactly those of the row it read: a recorded hash returned untouched, an interrupted one marked ambiguous, an intent retired if it lapses or reverts in simulation, else signed, recorded, sent and, acknowledged or not, written down; a signing failure leaves everything as it was |
| Attempts.SignedInTime | internal/settlement/service.go:278-315 | a first signature is asked for only with more than the margin left and a successful simulation; an intent is retired as expired exactly without the margin, and as failed exactly if it would revert |
| Attempts.SignedStepByStep | internal/settlement/service.go:343-382 | the own events of a signed intent one by one, and that it is answered as sent exactly if it was acknowledged and that record committed |
| SettlementService.Service.Broadcast | internal/settlement/service.go:257-272 | asks for the lease first; answers in progress exactly if another holds it; with the lease it attempts the active row and releases last; a hash it returns belongs to a row of the payment |
| Attempts.InProgressExactly | internal/settlement/service.go:257-272 | in progress is answered exactly if another lease on the payment is still running |
| SettlementService.Service.Settle | internal/settlement/service.go:138-226 | refusals and faults are admission's own; a recorded hash is answered from the record; otherwise one broadcast follows and its outcome, or that of a hash read again after it failed, is waited for and answered; a failure is the durable outcome, and so is a success unless it is the broadcast's own hash on a row that carries another |
| SettlementService.AnswersByOutcome | internal/settlement/service.go:190-226 | what each way a broadcast can end is answered, and that it failed exactly if the payment's active row has no hash either |
| SettlementService.Service.Confirmation | internal/settlement/service.go:398-452 | from reads reconciled over all providers it unwinds a row exactly if it was confirming and is gone, records a sighting exactly short of full depth under the receipt's block, an outcome exactly at full depth as the receipt has it, and makes no call exactly otherwise; with one honest provider a finalizing call rests on that row's hash |
| SettlementService.Service.ResolveAmbiguous | internal/settlement/recovery.go:190-267 | a transaction the network knows is re-attached; otherwise, once due, its events are exactly what the row it read calls for: send the same bytes again and re-attach on an acknowledgement, record and send a re-signature, or nothing |
| SettlementService.CourseExactly | internal/settlement/recovery.go:190-267 | which of re-attaching, sending again, signing again and leaving alone an ambiguous row gets, exactly |
| SettlementService.SignedAgainIsIdentical | internal/settlement/recovery.go:277-311 | a signature is made again only when due and unknown to the network, with the recorded sighash |
| SettlementService.Service.RecoverPayment | internal/settlement/recovery.go:150-165 | an ambiguous row is resolved, a row stuck since the cutoff is replaced, any other is left alone |
| SettlementService.Service.ReplaceStuck | internal/settlement/recovery.go:389-420 | nothing without terms, headroom or a signature; otherwise the replacement is recorded and, if that committed, sent |
| SettlementService.Service.ObserveReplacement | internal/settlement/recovery.go:429-472 | records a landing exactly for an agreed receipt, a revert only at full depth, and nothing else |
| SettlementService.Service.FillNonceGap | internal/settlement/recovery.go:503-545 | nothing without a usable fee or a signature; otherwise the filler is recorded and, if that committed, sent |
| SettlementService.Service.BumpStuckGapFiller | internal/settlement/recovery.go:600-627 | nothing without headroom or a signature; otherwise the new filler is recorded and, if that committed, sent |
| SettlementService.Service.ObserveGapFiller | internal/settlement/recovery.go:632-687 | exactly one of re-sending the forgotten bytes, escalating a mined success, retiring a mined revert, or nothing, by receipt and row |
| Theorems.StateCorrelation | internal/store/settlementwork.go:121-301 | in every reachable state at most one row is active, state and rows match, and a settled payment has exactly one settled row of its kind |
| Theorems.WriteAhead | internal/settlement/service.go:343-382 | a signature is on record before it first reaches the network and ever after, and only a send puts it there |
| Theorems.OneFirstSender | internal/store/settlementwork.go:121-135 | an intent's own signature first reaches the network by its one signer's send or by recovery re-sending the row it read as ambiguous, and nobody else holds a signature for that row |
| Theorems.HashesAreUnique | migrations/000001_initial.up.sql:165-191 | in every reachable state a hash is recorded by one row at most |
| Theorems.RecordsArePermanent | internal/store/recovery.go:253-277 | what a row once recorded stays through any run: nonce, hashes, the first sighting through every reorganization, a final outcome with its block and gas, and that it was dropped after signing |
| Theorems.WatchCoverage | internal/store/recovery.go:281-371 | every signature ever sent belongs to a row that is active, settled, listed by a watcher until its payment settles, or dropped after another row of its nonce was recorded as mined |
| Theorems.DroppedForGood | internal/store/recovery.go:200-209 | a dropped signature stays dropped in every later state, is recorded by no other row and listed by no query |
| Theorems.HarmlessExactly | internal/settlement/recovery.go:429-472 | a sent transaction whose nonce the chain gave to another cannot be mined through a stretch of a run if and only if the chain does not give that nonce up in it |
| Theorems.OnePaymentPerNonce | internal/store/signer.go:56-74 | two rows share a signer's nonce exactly when they belong to one payment, and every signature carries its row's nonce |
| Theorems.ChainSettlesOnce | internal/store/recovery.go:95-105 | the chain holds at most one transaction of each payment, whatever was sent |
| Theorems.AllocatedNonceIsKept | internal/store/settlement.go:214-262 | a nonce once handed out stays with its payment and is never orphaned |
| Theorems.NoNonceIsOrphaned | internal/store/recovery.go:300-344 | in every reachable state a payment's nonce is held by an active row, was consumed, or is listed as a gap exactly once its authorization ran out and a later nonce is in flight |
| Theorems.NonceOnChainExactly | internal/settlement/recovery.go:632-687 | in every reachable state a payment's nonce is taken on the chain, held by an active row or an open gap if and only if it is taken or the record does not call it consumed |
| Theorems.ConsumedForGood | internal/store/recovery.go:300-371 | a nonce the record calls consumed stays so, and no query lists a row of its payment in any later state |
| Theorems.CounterNeverFalls | internal/store/signer.go:28-45 | over any run the counter of a signer never falls |
| Theorems.ErasureIsFinal | internal/store/retention.go:89-129 | an erased payment stays erased in its state, is listed by no query that feeds signing or watching, and can never be leased |
| Theorems.AuditTrail | internal/store/settlementwork.go:321-372 | every trail is an unbroken walk from received to the present state, only ever appended to; a confirmed payment was verified, then broadcasting |
| Walkthrough.PaymentSettles | internal/settlement/service.go:138-226 | a nine-event run admits, signs, sends, mines and finalizes a payment, and ends settled by the transaction the chain holds |
| Sightings.SightedRuns | internal/store/settlementwork.go:194-227 | if every sighting names the live row, a confirming payment always has exactly one confirming row |
| Sightings.SightingExactly | internal/store/settlementwork.go:200-219 | a committed sighting keeps payment and row in step if and only if the row it named was still live |
| Sightings.BlindSightingWedges | internal/store/recovery.go:239-248 | after a blind sighting no other signature can be landed as a success, finalized or reverted, nothing can be reorganized out, and no replacement is possible |
| Guards.PreparedExactly | internal/store/recovery.go:430-445 | a committed preparation with a new signature keeps history if and only if the row held none |
| Guards.EscalationExactly | internal/store/recovery.go:552-584 | escalation commits exactly for the broadcast filler of an expired payment; a superseded filler always meets the unique index |
| Guards.HttpWaiterOnlyReplays | internal/settlement/service.go:478-503 | a waiter's write never changes the database and succeeds exactly when the same outcome is recorded |
| Guards.BumpedExactly | internal/settlement/recovery.go:79-165 | in every reachable state some replacement of a broadcast row with room for a bump commits if and only if its payment is broadcast or replaced and it has an attempt time, which a pending payment's row lacks exactly if it is a first row a re-signature took over from |
| Guards.ErasableExactly | internal/store/retention.go:94-106 | in every reachable state an overdue retired payment is erasable if and only if it has no row or one reverted row |
| Guards.ManyFillersBlockErasure | internal/store/retention.go:94-106 | a retired payment with two rows is erasable in no later state of any run |
| Cases.StaleSighting | internal/store/settlementwork.go:200-219 | a run: a sighting read before a replacement leaves the payment confirming with no confirming row |
| Cases.BlindRowIsNeverBumped | internal/settlement/recovery.go:79-165 | a run: after a blind sighting the live row is attempted and has room for a bump, and no replacement of it commits |
| Cases.LatePreparationLosesRecord | internal/store/recovery.go:430-445 | a run: a second preparation from an old listing commits, and a transaction that was sent is on record no more |
| Cases.ReorgedOriginalIsNeverBumped | internal/store/recovery.go:257-277 | a run: re-signed, landed, reorganized out, the original is live with room for a bump and no replacement of it commits |
| Cases.TwoFillersKeepThePayment | internal/store/retention.go:94-106 | a run: a retired payment whose gap took two fillers is overdue and erasable at no cutoff |
| Cases.ContradictedOutcome | internal/settlement/service.go:138-226 | a run with a settle request in it: admitted before a worker sent and replaced the intent, it finds the replacement's hash; after a reorganization of the finalized original its true observation is answered as a success the record does not carry |
| Cases.AnswersAnothersWork | internal/settlement/service.go:204-211 | a run with a settle request that finds a worker at work, reads its hash, waits, and answers with the outcome the worker recorded |
| Cases.DroppedIsMined | internal/settlement/recovery.go:429-472 | a run: the chain gives up a landed original and mines the dropped replacement, while the payment waits on the original |
| Cases.SupersededFillerIsRefused | internal/store/recovery.go:552-584 | a run: the chain mines a superseded filler of an expired payment, and every escalation of it is refused by the unique index |
| Cases.FailedFillerIsRefused | internal/store/recovery.go:552-584 | a run: the chain mines the filler of a failed payment, and every escalation of it is refused by the state guard |
| Cases.ClosedGapReopens | internal/settlement/recovery.go:632-687 | a run: the chain gives up a resolved filler, its nonce is free with a later one in flight, and no query lists the payment |
| Cases.SkewedClockOverfills | internal/store/settlement.go:178-187 | a run: erasure on a clock ahead of admission's lets a merchant with a quota of one have two intents accepted in one window |
| Outcomes.SuccessExactly | internal/settlement/service.go:478-503 | a success from the waiter is the durable outcome if and only if the marked row carries the hash |
| Outcomes.WaitAnswersExactly | internal/settlement/service.go:478-503 | a wait is answered success or failure exactly if it saw that outcome and the record has it of the row and its payment, and otherwise that there is no receipt |
| Cases.AnyBlockIsAnswered | internal/store/settlementwork.go:306-317 | on a settled record, an observation of any block and gas is answered with the success |
| Outcomes.SuccessIsDurable | internal/settlement/service.go:478-503 | with row id and hash read together at any time, a success means the payment is settled by that hash |
| Outcomes.WrongOnlyAfterReorg | internal/settlement/service.go:478-503 | a true observation is answered as a success the record does not carry only where the chain does not hold the transaction the record was settled by |
| Outcomes.RetrySeesOutcome | internal/store/settlement.go:70-102 | a retry of a settled payment is told exactly its recorded outcome |
| Outcomes.RetryAnswersExactly | internal/settlement/service.go:173-192 | a retry of a payment with a hash is told its recorded state and nothing else |
| Outcomes.RetriedSuccessIsDurable | internal/settlement/service.go:175-192 | a success answered to a duplicate is durable |
| Outcomes.SettleIsStable | internal/settlement/service.go:138-226 | once settled, every later settle reports the same success and hash, before and after erasure, and a wait reports it exactly if it saw the settling transaction succeed and never anything else |
| Outcomes.RevertIsStable | internal/settlement/service.go:175-192 | once reverted, every later settle reports the failure, no wait reports success, and every wait that sees the revert on its row reports the failure |
| Quotas.GlobalQuotaHolds | internal/store/settlement.go:203-212 | in every state no window of the configured length holds more stamps than the global quota, in whatever order intents committed |
| Quotas.CountedExactly | internal/store/settlement.go:178-187 | in every reachable state an admission's count is exactly the merchant's payments accepted since the window's start that are not erased, so it is complete if and only if none is |
| Quotas.AdmissionExactly | internal/store/settlement.go:178-212 | an accepted intent leaves its merchant within the quota if and only if the payments its count could not see fit as well, as they do if none is erased |
| Quotas.MerchantQuotaHolds | internal/store/settlement.go:178-187 | no merchant has more intents accepted in a window than its quota, attributed as of acceptance, if at each of its own admissions the erased payments fit as well |
| Quotas.ErasureSparesLiveCounts | internal/store/retention.go:89-129 | under one clock, with retention no shorter than the window, no erased payment is missing from a count still taken |
| Quotas.MerchantQuotaUnderOneClock | internal/store/settlement.go:178-187 | under one clock, with retention no shorter than the window, no merchant ever has more intents accepted in a window than its quota |
| Spending.SpendBound | internal/settlement/fees.go:17-85 | gas charged for all intents admitted in a window is at most quota times gas limit times fee ceiling, through every replacement and filler |
| Leases.LeaseExclusion | internal/store/lease.go:19-103 | in any interleaving no two workers hold an unexpired lease on one payment |
| Leases.TakenOverForGood | internal/store/lease.go:60-103 | a worker whose lease was taken over can neither renew nor release until it claims afresh |
| Fees.EstimateFees | internal/settlement/fees.go:17-45 | succeeds exactly on usable inputs; the cap is twice the base fee plus the tip and the tip the configured one, each as far as the ceiling goes |
| Fees.MinBump | internal/settlement/fees.go:82-85 | the least integer that is at least 110% of its argument |
| Fees.BumpFees | internal/settlement/fees.go:47-80 | the loop over tip floors computes the closed form, and that is the cheapest pair the rules allow |
| Fees.BumpIsCheapest | internal/settlement/fees.go:47-80 | the tip is the least that meets the 110% floor, one wei more and the 12.5% rise, the cap the least that outbids and covers twice the base fee, as far as the ceiling goes; it pays the present base fee exactly if the ceiling does |
| Fees.BumpSoundAndComplete | internal/settlement/fees.go:47-80 | a bump succeeds exactly when some fee pair under the ceiling meets the 110% rule on both fields, returns such a pair, and raises both |
| Fees.BumpingTerminates | internal/settlement/recovery.go:317-340 | after k bumps 11^k times the first fee is at most 10^k times the ceiling, so bumping ends |
| Agreement.ReadClientAgreement | internal/ethereum/rpc.go:213-287 | a value is agreed exactly when all providers returned values that reconcile; an error is the chain's exactly when all returned it; disagreement is characterized |
| Agreement.ReconcileExact | internal/ethereum/rpc.go:289-298 | the loop agrees exactly when the providers returned one value between them, and then on that value |
| Agreement.ReconcileHeads | internal/ethereum/rpc.go:398-408 | returns the lowest head, and agrees exactly when no two heads are more than two apart |
| Finality.ObserversAgree | internal/settlement/wait.go:37-69 | on the same reads the worker and the waiter agree on what is final and how |
| Finality.VerdictExactly | internal/settlement/service.go:398-452 | each verdict of the worker by what the reads agreed on, with the receipt's own block and gas |
| Finality.ObservationExactly | internal/settlement/wait.go:37-69 | the waiter reports an outcome exactly at full depth and keeps waiting exactly while the transaction is gone or shallow |
| Finality.WaitForSettlement | internal/settlement/wait.go:76-99 | returns the first final observation before the deadline, or pending if there was none |
| Finality.FinalWithOneHonestProvider | internal/settlement/wait.go:37-69 | whatever the other providers answer, an outcome the waiter takes for final is in the honest provider's canonical chain at full depth |
| Finality.WorkerFinalWithOneHonestProvider | internal/settlement/service.go:398-452 | so is a success or revert the confirmation worker takes for final, with that receipt's block and gas |
| Finality.UnwoundIsGone | internal/settlement/service.go:410-432 | what is unwound is gone from the honest provider's chain: no block has it, or not the block the receipt names |
| Finality.ReadChain | internal/settlement/service.go:398-452 | the three reads, in order and no more than needed, each agreed exactly when all providers' answers reconcile |
| Finality.ReadOriginal | internal/settlement/recovery.go:429-472 | an original has landed exactly when all providers agree on its receipt and, reverted, on a head that buries it at full depth |
| Finality.RevertedOriginalExactly | internal/settlement/recovery.go:429-472 | a reverted original taken for final is final if and only if its block was still in place |
| Finality.ReorgPassesForRevert | internal/settlement/recovery.go:429-472 | evidence from an honest provider on which a transaction no longer on its chain is taken for a final revert |
| Grounds.SettledIsFinal | internal/settlement/service.go:398-452 | in every state of a run whose settling calls rest on observations with an honest provider, a settled payment's row records a transaction that was final with that result when it was marked |
| Finality.DepthIsHonest | internal/settlement/wait.go:58-61 | 64-bit wrap-around can only hide confirmation depth |
| Finality.DepthExactly | internal/settlement/wait.go:58-61 | depth counts the blocks of a view from the receipt's own to the head |
| Recipients.Account.PendingRecipientChallenge | internal/merchant/service.go:500-558 | the address may be replaced exactly before activation, by an email-verified merchant, and a fresh challenge for it is issued |
| Recipients.Account.VerifyRecipient | internal/merchant/service.go:584-724 | activation happens exactly on an unconsumed, unexpired challenge for the pending recipient signed by it, consumes that challenge and starts the history |
| Recipients.Account.ChangeRecipient | internal/merchant/service.go:584-724 | a change happens exactly after the cooldown on a fresh challenge signed by the new address, and is throttled exactly before; the challenge is consumed, the history grows by one linked proof and no session stays elevated |
| Recipients.Account.MarkSession | internal/merchant/admin.go:296-311 | marks exactly a live session, and keeps elevated sessions resting on the recipient's proof if and only if a proof is on record and the prover is the recipient |
| Recipients.Account.ActivateFromPanel | internal/httpapi/merchant_admin.go:135-146 | activation and marking as one step keep every elevated session resting on the recipient's proof |
| Recipients.Account.VerifyAdminWallet | internal/merchant/admin.go:127-184 | a session is elevated exactly by the recipient in force signing a fresh challenge, which is consumed |
| Recipients.Account.VerifyAdminRecipientChange | internal/merchant/admin.go:191-294 | an elevated session changes the recipient exactly under the same conditions and is the only one elevated afterwards |
| Recipients.Account.ForgetChallenges | internal/store/retention.go:147-161 | retention forgets exactly the expired challenges no proof rests on |
| Recipients.Account.Suspend | internal/merchant/service.go:949-993 | suspension and reinstatement are exact inverses and touch no proof |
| Recipients.ProofsApart | internal/merchant/service.go:653-664 | any two proofs are at least as many cooldowns apart as they are positions apart |
| Recipients.CoolingExactly | internal/merchant/service.go:653-664 | the cooldown runs from the last proof and is over from its end on |
| Recipients.ReturnsAreProvedAgain | internal/merchant/service.go:653-664 | an address returned to was proved again on its own challenge, at least two cooldowns later |
| Recipients.ProofExtends | internal/merchant/service.go:666-706 | a proof on an unconsumed challenge after the cooldown keeps the history unbroken, spaced and founded on distinct challenges |
| Encoding.NumberOfBigEndian | internal/x402/payment.go:45-47 | big-endian bytes of a number that fits read back as that number |
| Encoding.BigEndianDigit | internal/x402/payment.go:45-47 | the most significant byte comes first |
| Encoding.ParseFormatInt | internal/settlement/calldata.go:36-46 | decimal text of an integer parses back to it |
| Encoding.ParseInt64Exactly | internal/policy/policy.go:151-184 | decimal text is read as a 64-bit integer exactly if it is one |
| Encoding.DecodeEncodeHex | internal/settlement/calldata.go:107-111 | hex text of bytes decodes to them |
| Encoding.HexCase | internal/settlement/calldata.go:107-111 | either case of a letter is the same digit, and nothing else is a digit |
| Calldata.SplitJoined | internal/settlement/calldata.go:107-123 | the text of r, s and v splits into exactly those, with or without its prefix, 0 and 1 raised by 27, and any other v is refused |
| Calldata.BuildersAgree | internal/policy/policy.go:151-184 | the two builders give the same answer if and only if settlement refuses or 0 <= validAfter < validBefore |
| Calldata.UnpackPack | internal/settlement/calldata.go:70-81 | packed calldata decodes to the nine arguments |
| Calldata.CalldataIsTheAuthorization | internal/settlement/calldata.go:51-81 | what settlement packs for a proper window decodes to exactly the authorization's fields, and words seven and eight joined are the first 64 bytes of its signature |
| Calldata.WrittenDownIsPacked | internal/settlement/calldata.go:51-123 | whatever bytes and numbers a payer writes down in hex and decimal are what the nine words say, refused exactly for an unusable value or recovery id |
| Calldata.CapitalPrefix | internal/settlement/calldata.go:51-81 | only an address may be written with a capital X |
| Identity.Preimage | internal/x402/payment.go:28-51 | hashes the length-prefixed fields exactly when all are non-empty and fit, whatever lower-casing does to text that is not ASCII |
| Identity.DecodeEncode | internal/x402/payment.go:40-49 | the hashed bytes decode back to the list of values |
| Identity.PreimageInjective | internal/x402/payment.go:28-51 | equal preimages mean equal fields, hex fields up to lower-casing |
| Identity.PreimageSays | internal/x402/payment.go:28-51 | the hashed bytes decode to the eleven fields in their order |
| Identity.CaseIsIgnored | internal/x402/payment.go:31-35 | ASCII fields are hashed alike exactly if they differ only in the case of their letters |

## Left out

- Runs.RunsStayGood: assumes gap fillers are prepared on a current listing (`GapRun`), because the guard of `MarkGapFillerPrepared` does not ensure it; `PreparedExactly` gives the exact condition.
- Quotas.MerchantQuotaHolds: assumes that what erasure hid from a count fits as well, because on another clock it may not (`SkewedClockOverfills`); `AdmissionExactly` gives the exact condition and `MerchantQuotaUnderOneClock` has no such assumption.
- Grounds.SettledIsFinal: assumes each settling call was preceded by the reads its caller makes, with one honest provider among them and, for a landed revert, its block unmoved; `Confirmation` and `ObserveReplacement` show that their calls are.
- Leases.LeaseExclusion: takes one clock for all workers and distinct worker identities; inline settle requests all lease as "http" and exclude each other only by the free-lease guard.
- Recipients.Account.VerifyRecipient: API keys and the locking of the key are not modelled; a message and its signature are reduced to whether the text is the issued one and who signed it.
- SettlementService.Service.BumpStuckGapFiller: declines a stored gas limit of zero, which no filler row ever has.
- MarkAmbiguousRetry and the exponential delay between re-signings: they only decide when an identical re-sending happens, which a run may do at any time.
- Worker loops, leases renewed inside them, tickers and shutdown: covered by arbitrary interleaving and stopping.
- Payment and transaction ids passed separately: a transaction id here includes its payment, so a mismatched pair is not expressible.
- Records of failed verification and the operator's edges out of manual_review: no modelled code takes them.
- The signing boundary's own fee, tip and gas ceilings (internal/policy/policy.go:95-139): a bump is not claimed to be signable there.
- HTTP, JSON-RPC transport, retries, hex decoding of provider answers, SQL isolation and locking: each store call is one atomic step and each provider answer is already decoded.
- Keccak, ECDSA, KMS, SHA-256 and SIWE: equal hashes are taken to mean equal bytes.
- Email, API keys, statistics, public profiles, rate limits and USDC formatting: separate and easier code.
