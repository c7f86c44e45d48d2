# Verification of the mandate, payment, catalog and registry cores

A Dafny model of the parts of this repository that decide who may spend, what is charged, what is searchable and
which on-chain events count, with proofs about every run of them. Everything is checked by

    dafny verify dfyconfig.toml

How the model is built:

- One module per component. Code that changes state is a class whose methods are proved equal to a function of the
  old state; code that is made of expressions is functions.
- Concurrency is a state machine. Each lock section, and each stretch between two awaits, is one step; a run is any
  sequence of steps; a step that is not enabled changes nothing. The theorems quantify over all runs, so over all
  interleavings, crashes and retries.
- A SHA-256 hash stands for what it hashes: equal hashes mean equal inputs, and nothing else is known about them.
  Signatures, on-chain reads and trust decisions are parameters of the steps. Random ids are fresh parameters, and
  clocks are parameters that may take any value unless a statement says otherwise.

The components:

- **Mandates.** `PolicyLedger`, `OpenMandates`, `Checkouts`, `PolicyEvaluation` and `ClosedMandates` model the policy
  ledger, the registry, the evaluator and the autonomous closed-mandate flow, with `LedgerVerdicts`, `MandateRefusals`
  and `ClosedCalls` on what is let in and what is refused; `TrustedSurface`, `SignedApprovals` and `ApprovalRefusals`
  the approval challenges and the signatures behind them; `MandateDrafts`, `DraftRequests` and `DraftLineage` the
  checkout and payment drafts with their replay store; `AnchorOutbox`, `AnchorClaims` and `EvidenceHashes` the
  anchoring outbox with leases and claim tokens, and the hashes it accepts.
- **Payments.** `CanonicalJson` models the printers behind body and payload hashes together with a parser;
  `PaymentService`, `PaymentOutcomes`, `PaymentReplies`, `ProviderIdempotency`, `ProviderHandlers` and
  `PaymentCharges` idempotent creation on both sides of the network; `WebhookGuard` and `WebhookTables` the event
  guard and status mapping; `Currency`, `Doubles` and `DoubleAmounts` minor and major units under rounding;
  `SensitiveScan` the Luhn check and the scan for card numbers.
- **Catalog.** `CatalogText`, `CatalogFields`, `CatalogIngestion`, `CatalogRows`, `CatalogRevisions`, `CatalogIndex`,
  `CatalogWork`, `CatalogDrain` and `CatalogTombstones` model patches, rows, revisions, the outbox and the reindex
  worker; `Ranking` and `SearchResults` rank fusion, filters and the top-k loop.
- **Registry and sessions.** `RegistryEvents`, `EventWatcher`, `WatcherDecisions` and `WatcherProgress` model the
  on-chain event watcher; `CasRepository` and `CasCalls` the versioned aggregate; `ChallengeCeremony`,
  `CeremonyRefusals` and `CeremonyLifecycle` agent challenges against rotation and revocation; `DpopReplay` the replay
  ledger.

Where the code does not do what one might expect, the model keeps the code and says exactly when it does:

- An idempotent payment is filed under the trimmed header while the provider key uses the header as sent
  (`SameRecordSameProviderKey`), so two spellings of one header can both be charged (`TwoChargesUnderOneRecordIff`).
- The version a `withLock` expects is read back from a field that other calls of the same instance also write.
  Versions build on each other exactly when every committing call read back what it had loaded
  (`BuiltOnPredecessorsIff`); a reader that slips in loses an update (`LostUpdateWitness`).
- A PATCH that names only some variants leaves exactly those others stale that show what it changes in the product
  (`UnnamedSiblingStaleIff`), and a blank variant description is invisible to the fingerprint
  (`FingerprintDecidesFields`). The index is right after a PATCH exactly when no row is concerned (`CleanIff`).
- The guard and the mapping disagree on six families of undocumented status pairs, named in `RankKeptByName`; only with
  these can an event lower the rank of a payment (`RankKeptIff`, `PendingCapturedRewinds`).
- A row that stops being a tombstone with its text unchanged is not queued (`RowQueuesIff`), so it stays out of the
  index (`LiftedStaysMissing`); an upsert that is tried again after the delete brings a tombstone back
  (`RetiredComesBack`). When an item has a document is `DocumentIffLastWritten`.
- A DPoP proof can be used twice by a request that takes longer than 59 seconds between its check and its consume
  (`AtMostOnceIff`).
- Minor units survive the detour over doubles up to 35184372088832.01 with two decimals and 4398046511104.020 with
  three; from there on it depends on the residue of the amount (`DoubleRoundTripIff`, `LeastLostAmount`).
- An undefined array element prints as nothing, so an array of one shares its text with the empty array, and nothing
  else does (`LoneHoleCollidesIff`).
- A nonce key joins transaction and nonce by a colon that both may contain; two pairs share a key exactly when one of
  their parts contains it (`NonceKeySharedIff`), and then the second is refused (`ValidDraftRefused`).
- The start of an approval challenge is rounded up to a second, so with a clock skew below a second it can be refused
  at first (`NewChallengeIsIntact`).

## Model

| member | source | states |
|---|---|---|
| `PolicyLedger.InMemoryMandatePolicyLedger.Reserve` | src/mandates/policy.ts:150-189 | one locked section: the new ledger is the old one with exactly this reservation, or unchanged with the first failing check as the error; an accepted one returns the smaller of the two mandates' exact headrooms, and the guard against an unsafe remainder never fires |
| `PolicyLedger.ReleaseUndoesReserve` | src/mandates/policy.ts:181-198 | releasing an accepted reservation gives back the ledger before it, order included |
| `PolicyLedger.RefusesExactlyWhatWouldBreak` | src/mandates/policy.ts:125-143 | a reservation is refused if and only if adding it would break a budget, an operation count, a window limit or the uniqueness of transactions |
| `PolicyLedger.WithoutRemoves` | src/mandates/policy.ts:191-198 | what a release leaves: exactly the entries of other transactions; without an entry of its own it changes nothing |
| `PolicyLedger.ReserveKeepsInv` | src/mandates/policy.ts:150-189 | a reservation keeps budget, count and window of every mandate |
| `PolicyLedger.ReleaseKeepsInv` | src/mandates/policy.ts:191-198 | a release keeps them too |
| `PolicyLedger.EveryWindowWithinLimit` | src/mandates/policy.ts:138-143 | every closed interval as long as the window holds at most the window limit of live reservations, for clock values in any order |
| `PolicyLedger.EveryRunWithinLimits` | src/mandates/policy.ts:146-198 | over every run of reservations and releases, with clocks that may go backwards, each mandate stays within budget, operation count and every sliding window |
| `LedgerVerdicts.EveryRunWithinCounts` | src/mandates/policy.ts:125-198 | the same with the sums and numbers of reservations written out |
| `LedgerVerdicts.RefusedForFirst` | src/mandates/policy.ts:125-189 | a reservation is accepted if and only if it would break nothing, and a refused one is told the first thing it would break |
| `LedgerVerdicts.MeasureCounts` | src/mandates/policy.ts:125-143 | what the ledger measures are numbers of reservations of the mandate in an interval of time |
| `OpenMandates.InMemoryOpenMandateRegistry.Create` | src/mandates/autonomy.ts:209-224 | a valid input is filed under a fresh id with the hash of its own payload and waits for its signature; the terms of all others stay frozen |
| `OpenMandates.AccessDecidedByStateAndCaller` | src/mandates/autonomy.ts:232-274 | getAuthorizedActive, for records the registry made: access is granted if and only if status, window, caller, clock and a valid skew allow it; the stored proof and hash never refuse, and what is returned is the record |
| `OpenMandates.PreparedIff` | src/mandates/autonomy.ts:286-328 | an activation is prepared if and only if the mandate waits for its user inside its window and its own terms were signed at a time inside the window, not ahead of the clock by more than the skew |
| `OpenMandates.ActivationOpensAccess` | src/mandates/autonomy.ts:286-345 | a committed activation gives the named caller access exactly from the signature, less the skew, to the end of the window |
| `OpenMandates.InMemoryOpenMandateRegistry.CommitActivation` | src/mandates/autonomy.ts:330-341 | only the activated record changes, and it is proven; all terms stay frozen |
| `OpenMandates.InMemoryOpenMandateRegistry.Revoke` | src/mandates/autonomy.ts:347-356 | only the status of the one record changes |
| `MandateRefusals.DeniedForFirst` | src/mandates/autonomy.ts:232-274 | access is refused for the first thing that is wrong and for nothing else, also for a record that was tampered with |
| `MandateRefusals.HinderedForFirst` | src/mandates/autonomy.ts:286-328 | so is an activation; otherwise the proof holds the signature, what was signed, when and by whom |
| `MandateRefusals.SamePayloadIff` | src/mandates/autonomy.ts:209-224 | two mandates have the same payload if and only if they have the same id and the same terms up to the second |
| `Checkouts.VerifyTotals` | src/mandates/index.ts:141-154 | accepts exactly the checkouts whose declared totals are the sums over their line items |
| `PolicyEvaluation.MandatePolicyEvaluator.Evaluate` | src/mandates/policy.ts:249-300 | allowed if and only if both mandates permit the checkout, quantities added per product included; the reasons are exactly the conditions that fail |
| `PolicyEvaluation.MandatePolicyEvaluator.MandateReasons` | src/mandates/policy.ts:249-300 | the reasons are exactly the conditions of this mandate that fail, so there is none if and only if it permits the request |
| `PolicyEvaluation.PermitsIff` | src/mandates/policy.ts:249-300 | a mandate permits a request if and only if no reason holds against it |
| `PolicyEvaluation.CountsOneMore` | src/mandates/policy.ts:249-300 | the per-product map counts one more line item |
| `ClosedMandates.ReservationsAreExact` | src/mandates/autonomy.ts:411-559 | in every interleaving the live reservations are exactly those of the returned pairs and the calls in flight: a failed call leaves none |
| `ClosedMandates.VerifiedPaymentsWithinLimits` | src/mandates/autonomy.ts:411-559 | hence the verified payments under one open mandate stay within its frozen budget, its operation count and every window |
| `ClosedMandates.ReturnedPairStaysReserved` | src/mandates/autonomy.ts:489-559 | no later step, in particular no rejected duplicate of its transaction, releases a returned pair |
| `ClosedMandates.ReturnedIsAbsorbing` | src/mandates/autonomy.ts:525-557 | a returned pair stays returned |
| `ClosedMandates.EveryCallWasPermitted` | src/mandates/autonomy.ts:411-500 | every call that got as far as reserving was permitted by both of its mandates and is about the transaction it names |
| `ClosedMandates.EveryRunKeepsInv` | src/mandates/autonomy.ts:411-559 | every run keeps ledger, calls and registry in step |
| `ClosedMandates.ExactAfterRelease` | src/mandates/autonomy.ts:540-559 | releasing a failed call removes its own reservation only |
| `ClosedMandates.LimitsWithNewMandate` | src/mandates/autonomy.ts:209-224 | a new mandate starts with nothing spent |
| `ClosedCalls.ReturnedPairsWithinLimits` | src/mandates/autonomy.ts:411-559 | the same with the returned pairs themselves: what they cost in all, how many they are, and how many in any window |
| `ClosedCalls.InputIsValidIff` | src/mandates/policy.ts:108-123 | in every run the inputs of a reservation are valid if and only if transaction and mandates have names and the total is a safe integer |
| `ClosedCalls.BeginsIff` | src/mandates/autonomy.ts:411-500 | a call gets as far as reserving if and only if the agent is trusted, the checkout is about its transaction, and two mandates of the two kinds are accessible to the caller and permit the request; it carries copies of exactly these |
| `ClosedCalls.EveryCallWasStarted` | src/mandates/autonomy.ts:411-500 | in every run every call was started by such a step |
| `ClosedCalls.ReservesIff` | src/mandates/autonomy.ts:489-520 | in every run a permitted call reserves if and only if every limit would still hold with it; otherwise it fails and the ledger is as before |
| `ClosedCalls.SigningEnds` | src/mandates/autonomy.ts:525-559 | a signed pair is returned with its reservation; a failure gives back exactly its own |
| `ClosedCalls.PermittedCallReturns` | src/mandates/autonomy.ts:411-559 | so an undisturbed call that may begin and may reserve returns, and the ledger gains just its reservation |
| `TrustedSurface.InMemoryTrustedSurfaceApprovalStore.Create` | src/mandates/trusted-surface.ts:68-72 | files a new challenge and refuses a known id |
| `TrustedSurface.InMemoryTrustedSurfaceApprovalStore.Consume` | src/mandates/trusted-surface.ts:80-103 | consumes and files the proof together, or changes nothing and names the first failing check |
| `TrustedSurface.NewChallengeIsIntact` | src/mandates/trusted-surface.ts:208-285 | rounding to seconds keeps a challenge inside its mandate's window and all integrity checks pass at any later time, except that its rounded-up start is ahead of the clock if and only if the skew does not bridge it; a skew of 999 ms always does |
| `TrustedSurface.HolderIsNeverRefused` | src/mandates/trusted-surface.ts:80-103 | the store never refuses the call that holds the registry lock |
| `TrustedSurface.ConsumedIffNamed` | src/mandates/autonomy.ts:276-345 | outside the lock a challenge is consumed if and only if its mandate carries the proof naming it |
| `TrustedSurface.OneConsumedChallenge` | src/mandates/trusted-surface.ts:287-424 | a mandate has at most one consumed challenge, inside the lock too |
| `TrustedSurface.ActiveMeansApproved` | src/mandates/trusted-surface.ts:287-424 | an active mandate names a consumed challenge of its own with its proof on file |
| `TrustedSurface.ApprovedIsAccessible` | src/mandates/autonomy.ts:232-274 | in every run access to an approved mandate is decided by status, window, caller and clock alone |
| `TrustedSurface.RevokedIsFinal` | src/mandates/autonomy.ts:347-356 | a revoked mandate never becomes active, whoever was approving it |
| `TrustedSurface.FailedPersistLeavesNoTrace` | src/mandates/autonomy.ts:330-332 | a failing store leaves the mandate waiting and the challenge unconsumed |
| `TrustedSurface.UnconsumedChallengeActivates` | src/mandates/trusted-surface.ts:287-424 | and the challenge works again: a valid approval in time activates the mandate and consumes exactly it |
| `ApprovalRefusals.ChallengeIsStored` | src/mandates/trusted-surface.ts:208-285 | a challenge that is made is stored under its id, unless the id is taken |
| `TrustedSurface.EveryRunKeepsInv` | src/mandates/trusted-surface.ts:208-424 | every run keeps challenges, proofs, lock and registry consistent |
| `SignedApprovals.ApprovedIff` | src/mandates/trusted-surface.ts:287-396 | an approval goes on to the registry if and only if its challenge is sound, the wallet is allowed and the signature valid |
| `SignedApprovals.ActiveWasSigned` | src/mandates/trusted-surface.ts:287-424 | in every run a mandate with an activation proof carries the signature of an approval that a step checked, with an allowed wallet and a valid signature, against a challenge of its own |
| `SignedApprovals.HolderWasChecked` | src/mandates/trusted-surface.ts:382-424 | so was the approval of whoever is in the critical section |
| `SignedApprovals.UncheckedNeverWaits` | src/mandates/trusted-surface.ts:375-388 | a call whose wallet is not allowed or whose signature is not valid never waits for the lock |
| `ApprovalRefusals.NewChallengeSays` | src/mandates/trusted-surface.ts:208-285 | a new challenge has the widest window of whole seconds inside its mandate and its time to live, and its message names mandate, user, agent, nonce and window |
| `ApprovalRefusals.PreventedByFirst` | src/mandates/trusted-surface.ts:208-285 | a challenge is made if and only if nothing prevents it, and the first thing that does is named |
| `ApprovalRefusals.StoppedIff` | src/mandates/trusted-surface.ts:287-396 | an approval goes on if and only if nothing stops it; the error names something that does, and the wallet and the signature are asked for last |
| `ApprovalRefusals.BlockedByFirst` | src/mandates/trusted-surface.ts:80-103 | a challenge is consumed if and only if nothing blocks it, and the first thing that does is named |
| `MandateDrafts.InMemoryMandateReplayStore.ConsumeNonce` | src/mandates/replay-store.ts:97-101 | a nonce key is fresh once |
| `MandateDrafts.InMemoryMandateReplayStore.RememberCheckoutDraft` | src/mandates/replay-store.ts:103-105 | files a record if and only if it is well formed and bound to its id |
| `MandateDrafts.InMemoryMandateReplayStore.RememberPaymentDraft` | src/mandates/replay-store.ts:112-114 | the same for payment drafts |
| `MandateDrafts.AcceptedWasIssued` | src/mandates/index.ts:414-504 | every payload that verification accepts was issued by the service |
| `MandateDrafts.IssuedIsAcceptedIff` | src/mandates/index.ts:414-504 | an issued payload is accepted if and only if the signer accepts the checkout, the caller expects its transaction, audience and user, and it has not expired |
| `MandateDrafts.IssuedPaymentIsNested` | src/mandates/index.ts:207-293 | payment window within checkout draft window within checkout window, in milliseconds and whole seconds; the amount is quantity times price plus tax and shipping minus discount |
| `MandateDrafts.NoNonceIssuesTwice` | src/mandates/replay-store.ts:97-101 | no pair of transaction and nonce issues two drafts |
| `MandateDrafts.NonceKeySharedIff` | src/mandates/replay-store.ts:97-101 | a pair of transaction and nonce shares its key with another pair if and only if one of the two contains a colon |
| `MandateDrafts.NonceKeySharedByIdsIff` | src/mandates/index.ts:41-43 | for identifiers, which are never empty: if and only if there is a colon with text on both sides of it |
| `MandateDrafts.SharedKeyIsRefused` | src/mandates/index.ts:327-345 | in every run, once one pair has got as far as its nonce no request with another pair of the same key is drafted |
| `MandateDrafts.ValidDraftRefused` | src/mandates/index.ts:327-345 | for any two pairs of one key there are valid requests that are both drafted alone, and the second is refused after the first, whatever lies between |
| `MandateDrafts.EveryRunKeepsInv` | src/mandates/index.ts:327-436 | every run of concurrent draft calls keeps what is stored equal to what was issued |
| `DraftRequests.CheckoutGrantedIff` | src/mandates/index.ts:327-345 | a checkout draft is granted if and only if the merchant signed a consistent checkout of this transaction that does not run too long, and the window is usable inside it |
| `DraftRequests.PaymentGrantedIff` | src/mandates/index.ts:363-400 | in every run a payment draft is granted if and only if signer, instrument, payee, amount and currency are right and it follows a checkout draft issued before for the same transaction, checkout and user; nothing asked for that draft need be asked again |
| `DraftRequests.CheckoutIsIssued` | src/mandates/index.ts:327-361 | an undisturbed request issues the draft that says what was asked for if and only if it is granted and its nonce unused |
| `DraftRequests.PaymentIsIssued` | src/mandates/index.ts:363-412 | and so does a payment request |
| `DraftLineage.CheckoutConsistentIff` | src/mandates/index.ts:414-504 | whatever is in the store: a checkout payload is consistent if and only if the checkout is current, it is what the caller expects, and a sound record under its id says the same |
| `DraftLineage.PaymentConsistentIff` | src/mandates/index.ts:414-504 | and a payment payload if and only if it also pays this checkout and follows a sound record of its checkout draft, window inside window |
| `DraftLineage.PaymentRequestIff` | src/mandates/index.ts:363-400 | a payment draft is granted on the same terms |
| `DraftLineage.RecordIsSoundIff` | src/mandates/replay-store.ts:22-90 | a record is taken in if and only if its id was made for its window, its seconds are those of the window, and nothing is missing |
| `AnchorOutbox.InMemoryMandateAnchorOutbox.Enqueue` | src/mandates/anchor-outbox.ts:109-141 | one job per pair of closed hashes; other evidence for a known pair is a conflict |
| `AnchorOutbox.InMemoryMandateAnchorOutbox.ClaimNext` | src/mandates/anchor-outbox.ts:143-168 | the loop leases the first leasable job and fails the exhausted ones before it |
| `AnchorOutbox.InMemoryMandateAnchorOutbox.MarkAnchored` | src/mandates/anchor-outbox.ts:170-187 | only the holder of the current token anchors a job |
| `AnchorOutbox.InMemoryMandateAnchorOutbox.MarkFailed` | src/mandates/anchor-outbox.ts:189-208 | only the holder of the current token reports a failure |
| `AnchorOutbox.KeyIsInjective` | src/mandates/anchor-outbox.ts:105-107 | equal evidence keys mean equal closed hashes |
| `AnchorOutbox.OneJobPerClosedPair` | src/mandates/anchor-outbox.ts:105-141 | the evidence index is one to one with the jobs |
| `AnchorOutbox.NoTwoLiveLeases` | src/mandates/anchor-outbox.ts:143-168 | in every run whose claim times never go back no two unexpired leases cover one job |
| `AnchorOutbox.SupersededTokenIsInert` | src/mandates/anchor-outbox.ts:170-208 | a superseded claim token never changes a job |
| `AnchorOutbox.TerminalJobsAreAbsorbing` | src/mandates/anchor-outbox.ts:170-208 | anchored and failed jobs never change |
| `AnchorOutbox.AnchorCallsBounded` | src/mandates/anchor-outbox.ts:143-208 | in every run, for claim times in any order: attempts never exceed the maximum by more than one, and a job is anchored at most the maximum number of times |
| `AnchorOutbox.ClaimsUseUpTheMeasure` | src/mandates/anchor-outbox.ts:143-168 | every claim uses up a bounded measure that no report gives back |
| `AnchorOutbox.EveryRunKeepsInv` | src/mandates/anchor-outbox.ts:92-259 | index, counts and tokens stay consistent in every run with workers that crash and clocks that disagree |
| `AnchorOutbox.FailureRetriesIff` | src/mandates/anchor-outbox.ts:189-208 | a reported failure leaves the job leasable again if and only if attempts are left, and otherwise failed |
| `AnchorOutbox.SuccessAnchors` | src/mandates/anchor-outbox.ts:170-187 | a reported success anchors the job for good with its transaction |
| `AnchorClaims.ClaimTakesFirst` | src/mandates/anchor-outbox.ts:143-168 | a claim hands out the first available job with attempts left; without one nobody gets a job and every available one has failed |
| `AnchorClaims.CrashedJobComesBack` | src/mandates/anchor-outbox.ts:146-150 | a job whose worker crashed is available again exactly from the end of its lease |
| `AnchorClaims.EnqueueFilesOnce` | src/mandates/anchor-outbox.ts:109-141 | evidence is filed if and only if no job has the same pair of closed hashes |
| `EvidenceHashes.StrictIff` | src/mandates/anchor-outbox.ts:53-60 | a hash is accepted if and only if it is the base64url encoding (section 5 of RFC 4648, without padding) of 32 bytes that are not all zero, or 0x and 64 hexadecimal digits that are not |
| `EvidenceHashes.EncodeOfDecodeIff` | src/mandates/anchor-outbox.ts:56-58 | decoding and encoding again gives back the digits if and only if the filling bits of the last one are zero |
| `EvidenceHashes.DigestIsAccepted` | src/mandates/anchor-outbox.ts:53-60 | every digest but zero has an accepted text that decodes to it |
| `EvidenceHashes.HashOnlyIff` | src/mandates/anchor-outbox.ts:62-79 | evidence is accepted if and only if its six hashes are and its mandate type is a byte |
| `CanonicalJson.RoundTrip` | src/domain/payments/helpers.ts:25-39 | a parser gives back the meaning of every printed tree |
| `CanonicalJson.TreeParses` | src/mandates/canonical.ts:5-14 | also when more text follows |
| `CanonicalJson.SameTextIffSameMeaning` | src/mandates/canonical.ts:5-14 | two trees print the same text if and only if they are equal up to the order of object members, an array of one undefined element counting as empty |
| `CanonicalJson.SameMeaningSameText` | src/domain/payments/helpers.ts:29-39 | member order never shows in the text |
| `CanonicalJson.BodyHashBindsBody` | src/domain/payments/helpers.ts:25-27 | equal body hashes mean equal bodies |
| `CanonicalJson.SameTextIffSameStructure` | src/domain/payments/helpers.ts:29-39 | without a lone undefined array element, same text if and only if equal up to member order, undefined members and elements included |
| `CanonicalJson.LoneHoleCollidesIff` | src/domain/payments/helpers.ts:29-39 | a tree shares its text with a different tree free of lone undefined elements if and only if it has such an element itself |
| `CanonicalJson.CodeLessIsStrictTotal` | src/domain/payments/helpers.ts:29-39 | code unit order is a strict total order on keys |
| `CanonicalJson.SortedIsUnique` | src/mandates/canonical.ts:5-14 | sorting by a strict total order has one result |
| `PaymentService.PaymentStore.Enter` | src/services/payments/payment-service.ts:165-211 | the first lock section: take the key, replay the stored reply, or refuse |
| `PaymentService.PaymentStore.Find` | src/services/payments/payment-service.ts:560-562 | the payment of a provider key, if any |
| `PaymentService.DraftRoundTrip` | src/services/payments/payment-service.ts:630-661 | removing the draft after a rejection undoes its push: the payments before, in their order |
| `PaymentService.PaymentStore.ApplyProviderView` | src/services/payments/payment-service.ts:692-724 | writes the provider view into that payment only |
| `PaymentService.PaymentStore.Settle` | src/services/payments/payment-service.ts:226-261 | stores the reply for later replays or frees the key |
| `PaymentService.IdemKeyIsInjective` | src/services/payments/payment-service.ts:140-142 | equal record keys mean equal actor and header, for actors without a colon |
| `PaymentService.ProviderKeyIsInjective` | src/services/payments/payment-service.ts:554-557 | equal provider keys mean equal actor and raw header |
| `PaymentService.SameRecordSameProviderKey` | src/services/payments/payment-service.ts:155-161 | requests sharing a record share the provider key if and only if they spell the header alike: the record uses the trimmed header, the provider key the raw one |
| `PaymentService.OneRunAndOnePayment` | src/services/payments/payment-service.ts:147-261 | under any interleaving at most one run per key is in flight and at most one payment exists per provider key |
| `PaymentService.StoredReplyIsFinal` | src/services/payments/payment-service.ts:194-226 | a stored reply never changes and is what every repetition gets |
| `PaymentService.EveryRunKeepsInv` | src/services/payments/payment-service.ts:484-724 | every interleaving of concurrent calls, retries, timeouts and errors keeps records, calls in flight and payments one to one |
| `PaymentOutcomes.MissingWasRefused` | src/services/payments/payment-service.ts:641-661 | in every run a payment that is gone was pushed by a call whose first provider call was refused or broke off |
| `PaymentOutcomes.AnsweredDraftStays` | src/services/payments/payment-service.ts:663-681 | when the first provider call gives a payment or an unknown outcome, its draft stays under its provider key in every continuation |
| `PaymentOutcomes.LaterRequestFindsDraft` | src/services/payments/payment-service.ts:560-629 | a later request of the key finds this draft: it calls the provider again for it while nothing is known, pushes no other, and otherwise replies what is stored |
| `PaymentOutcomes.UnknownEnds` | src/services/payments/payment-service.ts:663-681 | an unknown outcome is told to the client and stored as the reply, and the payments stay as they are |
| `PaymentOutcomes.RefusalEnds` | src/services/payments/payment-service.ts:641-661 | a refusal stores the error, any other failure frees the key; the draft goes if and only if the call had pushed it itself |
| `PaymentOutcomes.KnownEnds` | src/services/payments/payment-service.ts:683-724 | a payment is written into its draft and nowhere else, and the reply is stored |
| `PaymentReplies.SameRequestSameReply` | src/services/payments/payment-service.ts:165-245 | once a call has replied, every later request of its key is answered at once, in every continuation: with this reply when its body is the same, else with the conflict |
| `PaymentReplies.InFlightIsRefused` | src/services/payments/payment-service.ts:165-197 | while a call is in flight no other request of its key runs |
| `PaymentReplies.DroppedKeyRuns` | src/services/payments/payment-service.ts:246-259 | a call that ends without a reply frees its key for the next request |
| `PaymentReplies.ThrowEnds` | src/services/payments/payment-service.ts:226-261 | an error in any section: a payment error becomes the stored reply, any other frees the key, and the payments stay |
| `ProviderIdempotency.ProviderIdempotency.Begin` | yuno_mock/src/idempotency/primitive.ts:105-138 | acquires a key without a record, else says how it stands |
| `ProviderIdempotency.ProviderIdempotency.Complete` | yuno_mock/src/idempotency/primitive.ts:140-165 | completes an open record and nothing else |
| `ProviderIdempotency.ProviderIdempotency.ConsumeWithoutResult` | yuno_mock/src/idempotency/primitive.ts:167-187 | consumes an open record and nothing else |
| `ProviderIdempotency.ProviderIdempotency.AbandonWithoutConsume` | yuno_mock/src/idempotency/primitive.ts:189-199 | frees an open record and nothing else |
| `ProviderIdempotency.AtMostOneCharge` | yuno_mock/src/idempotency/primitive.ts:105-199 | each key is charged at most once, however requests repeat and handlers crash |
| `ProviderIdempotency.CompletedIsReplayed` | yuno_mock/src/idempotency/primitive.ts:105-138 | a completed record never changes and is replayed |
| `ProviderHandlers.ChargedEnds` | yuno_mock/src/idempotency/primitive.ts:105-187 | the first request of a key charges once, and its response, or the fact that there is none, stays on record |
| `ProviderHandlers.UnchargedEnds` | yuno_mock/src/idempotency/primitive.ts:140-199 | one that fails before it charges leaves the key as free as it was |
| `ProviderHandlers.OtherEndsAtOnce` | yuno_mock/src/idempotency/primitive.ts:105-138 | a request with a blank key or a known one ends at once: nothing is charged or recorded |
| `ProviderHandlers.LaterIsTold` | yuno_mock/src/idempotency/primitive.ts:105-138 | what a later request is told, in every continuation |
| `PaymentCharges.AtMostOneChargePerRequest` | src/services/payments/payment-service.ts:554-681 | platform and provider composed, in every run: no two charges for the same actor and header |
| `PaymentCharges.TwoChargesUnderOneRecordIff` | src/services/payments/payment-service.ts:147-261 | two requests of one actor that share a platform record can both be charged in some run if and only if their headers differ in surrounding space |
| `PaymentCharges.TwiceCharged` | src/services/payments/payment-service.ts:247-259 | such a run: the first is charged, storing the answer fails and drops the record, the other spelling is charged again |
| `PaymentCharges.EveryChargeWasAsked` | src/services/payments/payment-service.ts:554-681 | every charge answers a key some call derived |
| `WebhookGuard.WebhookStore.ApplyEvent` | src/services/payments/payment-service.ts:1196-1368 | the section that applies an event: whole new state of payments, seen events and audit |
| `WebhookGuard.SnapshotRoundTrip` | src/services/payments/payment-service.ts:1233-1266 | a stored public status reads back as itself, with its rank, terminal when final |
| `WebhookGuard.MayApplyIff` | src/providers/yuno/payment-event-guard.ts:82-121 | when the guard lets an event through, in terms of ranks |
| `WebhookGuard.RankKeptIff` | src/providers/yuno/payment-event-guard.ts:18-121 | a status pair never lowers the rank of any payment if and only if its public status ranks no lower than the latest one its own rank may replace |
| `WebhookGuard.RankRaisedIff` | src/providers/yuno/state-mapper.ts:23-57 | and from authorized on it always raises it if and only if that inequality is strict |
| `WebhookGuard.DocumentedPairsAdvance` | yuno_mock/docs/architecture.md:45-53 | every documented pair meets both conditions |
| `WebhookGuard.PendingCapturedRewinds` | src/providers/yuno/state-mapper.ts:28-34 | an undocumented pair that does not |
| `WebhookGuard.SeenEventChangesNothing` | src/services/payments/payment-service.ts:1197-1210 | a seen event changes no payment, whatever it says now |
| `WebhookGuard.FinalStatusesAbsorb` | src/providers/yuno/payment-event-guard.ts:59-70 | final statuses absorb every event |
| `WebhookGuard.RankNeverDecreases` | src/services/payments/payment-service.ts:1196-1368 | over every sequence with duplicates and reordering the stored rank never goes down |
| `WebhookGuard.AtMostThreeAfterAuthorized` | src/services/payments/payment-service.ts:1196-1368 | once authorized, at most three further events are ever applied |
| `WebhookGuard.EachEventAppliedOnce` | src/services/payments/payment-service.ts:1286-1365 | no event is applied twice |
| `WebhookGuard.AcceptedIsStored` | src/services/payments/payment-service.ts:1286-1345 | an accepted event writes its status, its captured and refunded amounts as far as they convert, and its refundable transaction into its payment, and nothing anywhere else |
| `WebhookGuard.FoundIsFirst` | src/services/payments/payment-service.ts:1211-1232 | the payment of an event is the first one with its provider id |
| `WebhookTables.RankKeptByName` | src/providers/yuno/payment-event-guard.ts:18-121 | by name: an event can lower the rank of some payment if and only if its status and sub status are about different stages, in one of six families of pairs |
| `WebhookTables.RankByName` | src/providers/yuno/payment-event-guard.ts:18-57 | which pairs have which rank: failures over refunds over cancellations over captures over authorizations |
| `WebhookTables.PublicByName` | src/providers/yuno/state-mapper.ts:23-57 | which pairs map to which public status, in an order other than that of the ranks |
| `WebhookTables.AtMostThreeApplied` | src/services/payments/payment-service.ts:1196-1368 | of any sequence of documented events at most three are applied to a payment once it is authorized |
| `WebhookTables.EventByName` | src/services/payments/payment-service.ts:1196-1368 | what becomes of an event that is known, about no payment, or refused, and the note each leaves |
| `WebhookTables.DecisionByName` | src/providers/yuno/payment-event-guard.ts:82-121 | what the guard answers to an event |
| `Currency.SmallAmountsRoundTrip` | src/domain/payments/currency.ts:57-87 | every rounding with relative error 2^-53 gives back every amount below 2^51, and the drift guard accepts it |
| `Currency.EveryRoundingIff` | src/domain/payments/currency.ts:57-87 | what follows from the relative error alone: all such roundings give an amount back if and only if the currency has no minor units or the amount is below 2^51 |
| `Currency.GuardAcceptsItself` | src/domain/payments/currency.ts:80-86 | the guard accepts a value that came from the same amount |
| `Doubles.PositiveIsNear` | src/domain/payments/currency.ts:57-87 | the relative error of rounding to the nearest double is at most 2^-53 |
| `Doubles.NearestAt` | src/domain/payments/currency.ts:57-87 | in the binade with spacing 2^-s rounding goes to the nearest multiple of 2^-s, ties to even |
| `DoubleAmounts.DoubleRoundTripIff` | src/domain/payments/currency.ts:57-87 | rounding to the nearest double with ties to even: the exact residue condition under which a safe integer amount comes back, for every supported currency |
| `DoubleAmounts.LeastLostAmount` | src/domain/payments/currency.ts:57-87 | the least amounts that do not come back: 3518437208883202 with two decimals, 4398046511104021 with three |
| `CatalogText.FingerprintDecidesFields` | src/catalog/ingestion.ts:162-172 | equal fingerprints give equal index fields if and only if no blank description flips between hiding and showing the product's |
| `CatalogText.FieldsChangeIffShown` | src/catalog/projection.ts:70-92 | a change of the product alone changes the index fields of a row if and only if the row has no description and the trimmed one of the product changes, or the heading made of both titles changes |
| `CatalogFields.FieldsSay` | src/catalog/projection.ts:70-92 | what each index field says: the title and description of the variant before those of the product, and the search text line by line without blank parts |
| `CatalogFields.ItemInfoSays` | src/catalog/projection.ts:58-68 | the item info lists the categories, with blanks for hyphens, and then the options |
| `CatalogIngestion.MemoryAcpCatalogStore.PatchOne` | src/catalog/ingestion.ts:444-510 | the nested loops leave exactly the rows, revisions and outbox of the specification, refused halfway or not |
| `CatalogIngestion.MemoryAcpCatalogStore.PatchAll` | src/catalog/ingestion.ts:484-497 | the loop over the patched variants |
| `CatalogIngestion.MemoryAcpCatalogStore.PushAll` | src/catalog/ingestion.ts:498-506 | the loop over all variants of a changed product |
| `CatalogIngestion.MemoryAcpCatalogStore.Push` | src/catalog/ingestion.ts:455-482 | one revision bumped, one job at most |
| `CatalogIngestion.StopsWhenRefused` | src/catalog/ingestion.ts:485-487 | nothing happens after a refused variant |
| `CatalogRows.PatchedRows` | src/catalog/ingestion.ts:444-510 | after an accepted PATCH every field of the product is the given one or the old one, every field of a named variant is the last one given or the old one, ids gain the new ids in order, and all other rows are as before; a refused one leaves all rows |
| `CatalogRows.LoopPatchesRows` | src/catalog/ingestion.ts:178-185 | the last given value of each field wins, among patched variants with one id too |
| `CatalogRows.LoopAcceptsIff` | src/catalog/ingestion.ts:484-488 | a PATCH is accepted if and only if the first mention of every new variant has a title |
| `CatalogRows.UnnamedRowStays` | src/catalog/ingestion.ts:444-510 | a variant that is not named keeps its row, whatever happens to the PATCH |
| `CatalogTombstones.RowQueuesIff` | src/catalog/ingestion.ts:459-497 | a patched row queues no job if and only if it is no tombstone, was there before and shows the same text; otherwise one Upsert or, for a tombstone, Delete job under its search revision |
| `CatalogTombstones.NamedTombstoneIsQueued` | src/catalog/ingestion.ts:459-497 | after an accepted PATCH every row it names is marked a tombstone if and only if it is one, and then its newest job is the Delete job |
| `CatalogTombstones.BarePatchQueuesIff` | src/catalog/ingestion.ts:498-506 | a PATCH without variants queues a job for every row if it changes the text of the product, and otherwise none |
| `CatalogTombstones.LiftedStaysMissing` | src/catalog/ingestion.ts:474-481 | the run in which a row that is offered again stays out of the drained index |
| `CatalogTombstones.RetiredComesBack` | src/catalog/reindex-worker.ts:51-114 | the run in which a try that was put off brings a retired row back into the drained index |
| `CatalogRevisions.PatchKeepsStoreOk` | src/catalog/ingestion.ts:444-510 | any PATCH keeps index <= search <= data and a job for every search revision |
| `CatalogRevisions.PatchKeepsFields` | src/catalog/ingestion.ts:444-510 | after a clean PATCH an item whose search revision stayed has the index fields it had |
| `CatalogRevisions.KeptItemKeepsFieldsIff` | src/catalog/ingestion.ts:483-506 | row by row: an item whose search revision a PATCH leaves alone keeps its index fields if and only if it does not show the change of the product, or, when named, no blank description flips |
| `CatalogRevisions.CleanIff` | src/catalog/ingestion.ts:444-510 | a PATCH is clean if and only if every item whose search revision it leaves alone keeps its index fields |
| `CatalogRevisions.EnqueueAllMovesAll` | src/catalog/ingestion.ts:498-506 | a changed product without patched variants moves the search revision of all of them |
| `CatalogRevisions.PatchVariantsEvolves` | src/catalog/ingestion.ts:483-497 | the loop only raises revisions, and moved ones get a job |
| `CatalogRevisions.UnnamedSiblingStaleIff` | src/catalog/ingestion.ts:498-506 | an accepted PATCH that names only some variants queues nothing for another one, and makes it stale if and only if it shows the change of the product's title or description |
| `CatalogIndex.FirstReady` | src/catalog/reindex-worker.ts:36-43 | the first job that may be claimed |
| `CatalogIndex.ReindexWorker.ClaimNext` | src/catalog/reindex-worker.ts:32-49 | leases the first ready job and changes nothing else |
| `CatalogIndex.ReindexWorker.ReleaseClaimed` | src/catalog/reindex-worker.ts:25-30 | puts the claimed job back |
| `CatalogIndex.ReindexWorker.Begin` | src/catalog/reindex-worker.ts:75-97 | execute up to the embedding call |
| `CatalogIndex.ReindexWorker.Commit` | src/catalog/reindex-worker.ts:98-114 | execute after the embedding call: superseded jobs write nothing |
| `CatalogIndex.ReindexWorker.Fail` | src/catalog/reindex-worker.ts:60-72 | retry with a growing delay, then dead letter |
| `CatalogIndex.RevisionsStayOrdered` | src/catalog/reindex-worker.ts:75-114 | index <= search <= data in every run, whatever the patches |
| `CatalogIndex.CurrentDocumentsAreFresh` | src/catalog/reindex-worker.ts:75-114 | in every clean run a document whose revision is the search revision holds exactly the fields recomputed from the current rows |
| `CatalogIndex.UncleanPatchLeavesStale` | src/catalog/ingestion.ts:444-510 | the converse: a PATCH that is not clean makes a current document of some item stale under an unmoved revision |
| `CatalogDrain.DrainedIndexIsFromScratch` | src/catalog/reindex-worker.ts:51-114 | in a clean run, once every job of an item that was never deleted is done, the index holds for it what a rebuild from the current rows would |
| `CatalogDrain.RunKeepsDrainInv` | src/catalog/reindex-worker.ts:51-114 | a done job of an item that was never deleted has nothing left to write |
| `CatalogDrain.DrainedItemIndexed` | src/catalog/reindex-worker.ts:98-114 | a settled newest job leaves its item indexed at its search revision |
| `CatalogDrain.AliveIsNotDeleted` | src/catalog/ingestion.ts:459-482 | an item has no Delete job in a run whose patches never make it a tombstone |
| `CatalogWork.ClaimTakesFirst` | src/catalog/reindex-worker.ts:32-49 | a free worker takes the first job whose delay or lease is over, and only such a job |
| `CatalogWork.WritingJobEnds` | src/catalog/reindex-worker.ts:51-114 | an undisturbed Upsert job with something to write stores the fields of the current row with the given vector under its own revision, and is done |
| `CatalogWork.ShortJobEnds` | src/catalog/reindex-worker.ts:75-88 | a Delete job drops the document of its item only; a superseded or indexed job writes nothing |
| `CatalogWork.FailingJobEnds` | src/catalog/reindex-worker.ts:60-72 | a failed try waits 1, 2, 4, 8, 16 and then 30 seconds, and the last one gives the job up; nothing is written |
| `CatalogWork.TriesAreBounded` | src/catalog/reindex-worker.ts:60-72 | in every run a job that failed as often as it may is never taken again, however many workers tried it at once |
| `CatalogWork.DocumentIffLastWritten` | src/catalog/reindex-worker.ts:75-114 | in every run an item has a document if and only if the last step that wrote or dropped one for it stored this document |
| `Ranking.CandidateK` | src/catalog/ranking.ts:7-9 | between 50 and 200, and enough for every page size the schema allows |
| `Ranking.Fuse` | src/catalog/ranking.ts:11-27 | the union of both lists, each id once with its exact score, in strict order |
| `Ranking.AddScores` | src/catalog/ranking.ts:15-21 | one list adds its reciprocal ranks to the scores |
| `Ranking.FusionOrder` | src/catalog/ranking.ts:29-31 | the order of a fusion is determined by scores and ids, and nobody is listed twice |
| `Ranking.PrecedesIsStrict` | src/catalog/ranking.ts:29-31 | the comparison is a strict total order on distinct ids |
| `Ranking.BetterPlacedComesFirst` | src/catalog/ranking.ts:11-27 | an id better placed in every list that contains the other comes first |
| `Ranking.SemanticBeatsLexicalIff` | src/catalog/ranking.ts:3-5 | a semantic hit beats every lexical-only id, whatever the lexical list, if and only if its rank is below 184 |
| `Ranking.SearchActive` | src/catalog/postgres-repository.ts:375-430 | refused if and only if a candidate has no row; otherwise the best top_k matching items |
| `Ranking.TopMatching` | src/catalog/postgres-repository.ts:381-430 | the loop with early exit equals taking top_k of the filtered ranked list |
| `SearchResults.WantedIff` | src/catalog/filters.ts:3-27 | an item is returned if and only if its row is offered and passes the filters, in terms of the row; the item says what the row says |
| `SearchResults.ResultsAreTheBest` | src/catalog/postgres-repository.ts:375-432 | the items are those of all fitting candidates in the order of the ranking, up to the number asked for; what is not returned comes after |
| `RegistryEvents.RegistryStore.ApplyRegisteredEvent` | src/registry/events.ts:78-208 | verdict and whole new state for a registration, in one lock section |
| `RegistryEvents.RegistryStore.ApplyTransferEvent` | src/registry/events.ts:211-297 | verdict and whole new state for a transfer |
| `RegistryEvents.ProcessedOnce` | src/registry/events.ts:103-106 | an event that was processed changes nothing again |
| `RegistryEvents.ApplyKeepsStoreInv` | src/registry/events.ts:146-205 | ids stay unique and every cursor is the greatest position processed in its registry |
| `RegistryEvents.BoundIffEvidenceComplete` | src/registry/events.ts:107-178 | an enrollment is bound if and only if it is the first one waiting for the URI and transaction, registry, intent, principal and on-chain owner agree with a new confirmed event |
| `RegistryEvents.SuspendIsExact` | src/registry/events.ts:258-271 | a transfer suspends the bound enrollments of its token in its registry, and no others |
| `RegistryEvents.WaitsIff` | src/registry/events.ts:103-126 | a registration waits for its transaction if and only if it is confirmed, new, and the first enrollment awaiting its URI has committed intent and userOp but no confirmed receipt; when it waits for blocks and when it is decided |
| `RegistryEvents.RefusedBecause` | src/registry/events.ts:118-144 | a refused registration is told the first of the commitments that the event does not keep |
| `RegistryEvents.RegistrationLeaves` | src/registry/events.ts:146-205 | what an applied registration leaves behind; a refused one leaves everything as it was |
| `RegistryEvents.TransferLeaves` | src/registry/events.ts:211-297 | mints are ignored, too few blocks wait, processed ones change nothing; any other transfer is recorded and suspends exactly the enrollments bound to its token under the new owner |
| `RegistryEvents.MatchesIff` | src/registry/events.ts:107-116 | which enrollments await a URI |
| `EventWatcher.NothingIsLost` | src/registry/events.ts:429-596 | every well-formed log of a polled block is decided, pending or in flight, whatever failed on the way; a verdict that asks to wait never counts as decided |
| `EventWatcher.RunKeepsFinal` | src/registry/events.ts:454-503 | whatever is being applied has its confirmations, and no recorded verdict waits for blocks or for a transaction |
| `EventWatcher.EachEventOnceAndCursorsMaximal` | src/registry/events.ts:78-297 | in every run each event id is processed once and cursors are maxima |
| `EventWatcher.CoveredStays` | src/registry/events.ts:454-479 | a failed flush puts its event back |
| `EventWatcher.RunKeepsInv` | src/registry/events.ts:571-596 | the last polled block moves only after the whole batch |
| `WatcherDecisions.DecidedWhenDecidable` | src/registry/events.ts:429-503 | in every run a registration is decided only by a step at which it was confirmed and processed already, awaited by nobody, without a committed intent, or had its receipt on file |
| `WatcherDecisions.KeptIff` | src/registry/events.ts:428-443 | an applied registration is kept for retry if and only if its enrollment awaits the receipt |
| `WatcherDecisions.PollKeepsWaiting` | src/registry/events.ts:428-443 | such a registration is queued and kept durably when the poll handles it |
| `WatcherDecisions.FlushKeepsWaiting` | src/registry/events.ts:454-479 | and when a flush does |
| `WatcherProgress.ConfirmedLogEnds` | src/registry/events.ts:481-503 | a log with enough confirmations has its effect on the store, is queued or decided, and the poll goes on |
| `WatcherProgress.QueuedEventEnds` | src/registry/events.ts:454-479 | so does a queued event; it leaves the queue unless it must still wait |
| `WatcherProgress.FailureRequeues` | src/registry/events.ts:474-478 | a failing flush puts its event back |
| `WatcherProgress.FailureEndsPoll` | src/registry/events.ts:571-596 | a failure anywhere ends the poll with the last polled block unmoved |
| `CasRepository.VersionedStateBackend.CompareAndSwap` | src/persistence/cas-store.ts:31-39 | swaps if and only if the version is the expected one |
| `CasRepository.SupabaseRepository.WithLock` | src/persistence/supabase-repository.ts:189-210 | undisturbed, installs the callback's result as the next version |
| `CasRepository.SupabaseRepository.ImportStoreIdempotent` | src/persistence/supabase-repository.ts:163-187 | writes if and only if the stored text differs |
| `CasRepository.Serializable` | src/persistence/supabase-repository.ts:127-210 | for any number of clients whose committing calls captured the version they loaded, every version is what the commits before it give one after the other, and each call commits once |
| `CasRepository.FailedCallsLeaveNoTrace` | src/persistence/supabase-repository.ts:189-210 | conflicts and throwing callbacks leave no trace; an import is a no-op if and only if the text is equal |
| `CasRepository.GoneIsFinal` | src/persistence/supabase-repository.ts:189-210 | a finished call has no further effect |
| `CasRepository.BuiltOnPredecessorsIff` | src/persistence/supabase-repository.ts:189-200 | in every run every version is built on the one before it if and only if every withLock that committed captured the version it had loaded |
| `CasRepository.CaptureRecords` | src/persistence/supabase-repository.ts:189-192 | a capture misses the loaded version only after another call of its instance set the field |
| `CasRepository.UndisturbedIsSerializable` | src/persistence/supabase-repository.ts:189-210 | in particular when nobody sets the field between load and capture |
| `CasRepository.LostUpdateWitness` | src/persistence/supabase-repository.ts:189-192 | the shared version field lets a reader of the same instance slip in between load and capture: a run that loses an update |
| `CasCalls.LockCommits` | src/persistence/supabase-repository.ts:189-210 | an undisturbed withLock installs the result of its callback on the newest state as the next version |
| `CasCalls.ImportCommitsIff` | src/persistence/supabase-repository.ts:163-187 | an undisturbed import installs its state if and only if it is not the newest one already |
| `CasCalls.SwapCommitsIff` | src/persistence/cas-store.ts:31-39 | in every run a swap goes through if and only if the newest version is the one its call expects, and then adds just its own state |
| `ChallengeCeremony.KyaStore.CommitChallenge` | src/services/ceremony.ts:1066-1147 | checks everything again, then consumes the nonce and appends the token together, or changes nothing |
| `ChallengeCeremony.KyaStore.IssueCredential` | src/credentials/jws.ts:123-131 | the loop revokes the agent's active credentials before the new one is added |
| `ChallengeCeremony.KyaStore.RotateKey` | src/services/ceremony.ts:1164-1201 | revokes live credentials and waits for a new fingerprint |
| `ChallengeCeremony.KyaStore.RevokeAgent` | src/services/ceremony.ts:1203-1222 | revokes enrollment and credentials |
| `ChallengeCeremony.KyaStore.RevokeCredentials` | src/services/ceremony.ts:1183-1187 | the loop changes exactly the agent's credentials in the given statuses |
| `ChallengeCeremony.EveryRunKeepsInv` | src/services/ceremony.ts:928-1134 | in every run a nonce is consumed if and only if it has its one token, and every agent has at most one active credential |
| `ChallengeCeremony.AppendedTokenIsWellFounded` | src/services/ceremony.ts:1066-1147 | at the step that appends a token the enrollment is bound and token, key, principal, owner and an active unexpired credential agree |
| `ChallengeCeremony.RevocationReachesCallsInFlight` | src/services/ceremony.ts:1122-1135 | once a credential is not active no call appends a token for it again, not even one that had read it before |
| `ChallengeCeremony.RotationDeactivates` | src/services/ceremony.ts:1164-1296 | rotation leaves no active credential; revocation and rebinding revoke every one |
| `ChallengeCeremony.TokenWasSigned` | src/services/ceremony.ts:961-1147 | in every run every token goes back to a step that read a validly signed answer with its nonce and agent and the audience, intent and timestamp of the stored challenge, while the chain confirmed the owner of an agent on chain |
| `ChallengeCeremony.SignedAnswerGetsItsToken` | src/services/ceremony.ts:961-1147 | conversely an undisturbed signed answer to a live challenge gets its token |
| `ChallengeCeremony.ReadOkIff` | src/services/ceremony.ts:961-1050 | an answer passes the checks before the lock section if and only if it is presentable, signed, and confirmed by the chain when on chain |
| `CeremonyLifecycle.RotationLeaves` | src/services/ceremony.ts:1164-1201 | the owner of an agent on chain rotates its key: it keeps its place on chain, has the new key, waits for a fingerprint and loses exactly its live credentials; anybody else changes nothing |
| `CeremonyLifecycle.RevocationLeaves` | src/services/ceremony.ts:1203-1222 | the owner revokes an agent with all its credentials |
| `CeremonyLifecycle.RebindingLeaves` | src/services/ceremony.ts:1263-1285 | a suspended agent is rebound to a principal and its wallet and loses all its credentials |
| `CeremonyLifecycle.IssuedIsTheActiveOne` | src/credentials/jws.ts:123-131 | an issued credential is the only active one of its agent |
| `CeremonyLifecycle.ChallengeIsStored` | src/services/ceremony.ts:928-960 | a bound agent that asks gets its challenge stored, open to be answered |
| `CeremonyRefusals.BarredByFirst` | src/services/ceremony.ts:961-1050 | and it is refused for the first thing that bars it |
| `CeremonyRefusals.ChangedIsNamed` | src/services/ceremony.ts:1066-1147 | the lock section appends the token if and only if nothing has changed, and otherwise names the first thing that has |
| `DpopReplay.ReplayLedger.ConsumeAtomic` | src/persistence/repository.ts:278-294 | purges expired rows, then accepts an unknown id and files it |
| `DpopReplay.FreshBeforeExpiry` | src/auth/dpop.ts:127-133 | a proof checked less than 59 seconds ago is still in the ledger |
| `DpopReplay.AtMostOnceIff` | src/auth/dpop.ts:235-237 | a proof is accepted at most once in every run with a nondecreasing clock if and only if no request spends more than 59 seconds between check and consume |
| `DpopReplay.AcceptedIffUnused` | src/persistence/repository.ts:278-294 | in every run, whatever the delay, a proof consumed in time is accepted if and only if every accepted proof with its id has expired |
| `DpopReplay.DoubleUseRun` | src/persistence/repository.ts:278-294 | the run that uses a proof twice one millisecond later |
| `SensitiveScan.LuhnValid` | yuno_mock/src/domain/sensitive.ts:56-69 | the loop from the right decides the mod 10 sum defined from the left |
| `SensitiveScan.CheckDigitIff` | yuno_mock/src/domain/sensitive.ts:56-69 | exactly one digit completes a payload, the check digit of ISO/IEC 7812-1 |
| `SensitiveScan.OneDigitErrorDetected` | yuno_mock/src/domain/sensitive.ts:56-69 | changing one digit of a valid string of any length makes it invalid |
| `SensitiveScan.SwapUndetectedIff` | yuno_mock/src/domain/sensitive.ts:56-69 | swapping unequal neighbours goes unnoticed if and only if they are 0 and 9 |
| `SensitiveScan.RunIsPan` | yuno_mock/src/domain/sensitive.ts:94-107 | a run of 13 to 19 digits counts as a whole, a longer one by its windows |
| `SensitiveScan.LooksLikeRawPan` | yuno_mock/src/domain/sensitive.ts:83-109 | true if and only if the text is no UUID and some maximal digit run counts |
| `SensitiveScan.SeparatorsHideNothing` | yuno_mock/src/domain/sensitive.ts:91-91 | spaces and hyphens hide nothing |
| `SensitiveScan.UuidIff` | yuno_mock/src/domain/sensitive.ts:83-90 | the texts that are exempt: five groups of hexadecimal digits with a version and a variant |

## Left out

- SQL, Supabase, file and HTTP layers, routes and middleware plumbing, configuration, command-line scripts and the
  web pages: they add I/O. The ledger, replay store and outbox are the in-memory ones.
- Cryptography, JWT and EIP-712 verification, schema libraries and embeddings: parameters of the steps. An embedding
  is whatever the provider answers.
- ISO timestamps that do not parse: times are numbers, except where the text itself is hashed (draft windows).
- `localeCompare` and the sort of object keys: any strict total order on strings.
- JSON numbers that are not finite print as null and are modelled as null; lone surrogates in strings are not
  modelled. Upper and lower case are those of ASCII letters; addresses and hashes compared without case are numbers.
- Item ids of the catalog and registry ids are tuples here where the code joins their parts into one string.
- Ids of jobs, payments and calls are positions or counters; in the code they are random.
- PATCH receipts, request headers and the rate limit: each PATCH is one product of one feed, and a body with several
  products is that operation repeated. The Postgres wrapper discards the partial work of a refused PATCH, the
  in-memory store modelled here keeps it.
- The lease of a reindex job and the lock of a worker only decide who may start a job; the freshness results hold for
  any number of workers on one job.
- Provider handlers abandon a key only before they charge; actor ids contain no colon.
- `PaymentService.OneRunAndOnePayment`: bodies of replies are reduced to their status, and attempts, enrollments,
  refunds, captures and cancels are not modelled.
- `WebhookGuard.RankNeverDecreases`: about the webhook path; reconcile, cancel, capture and refund write the status
  directly. Outbound deliveries and the next action of a payment are not modelled.
- `EventWatcher.NothingIsLost`: about one process that is not stopped, over a fixed sequence of logs; a restart
  forgets the queue except for its durable part, which is restored. Age and size limits of the durable part are an
  eviction that may happen at any time. Subscriptions without polling are not modelled.
- `RegistryEvents.RegistryStore.ApplyTransferEvent`: suspending the credentials of a transferred agent happens after
  the lock section; in `ChallengeCeremony` it is a step of its own.
- `CasRepository.Serializable`: `saveStore` is a blind write and left out.
- `ChallengeCeremony.EveryRunKeepsInv`: enrollments and principals may change in any way between steps, so nothing is
  said about which of their transitions are legal. `setCredentialStatus` is only ever called to suspend.
- `DpopReplay.AtMostOnceIff`: proofs are signed statements of an id and a time; their other checks are left out.
- `Currency.EveryRoundingIff`: about all roundings with relative error 2^-53 together; what the rounding of doubles
  does is `DoubleAmounts.DoubleRoundTripIff`.
- `DoubleAmounts.DoubleRoundTripIff`: amounts of 2^53 minor units and more are not safe integers and are left out, and
  so are overflow and subnormal results, which no conversion of an amount produces.
- `MandateDrafts.NonceKeySharedByIdsIff`: the upper limits on the length of identifiers are not applied.
- `Ranking.Fuse`: scores are exact rationals; ties that rounding would break are left out.
- `SensitiveScan.LooksLikeRawPan`: the walk over nested JSON that calls it is left out.
- `MandateDrafts.IssuedIsAcceptedIff`: schema checks of the verified checkout are part of what the signer says, and
  the service's audience is not empty.
- `TrustedSurface.UnconsumedChallengeActivates`: domain and chain id are constants of the service.
- Publishing and rolling back whole catalog versions, and the legacy search projection: table updates without an
  interesting invariant.
