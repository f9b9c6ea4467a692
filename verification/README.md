# OathCast: payment protocol, backtest and evidence stores, verified

This project models the parts of OathCast where money, evidence or fairness is at stake and proves what they keep over every run:

- **Payment sidecar and journal.** The journal is a table with two unique indexes and an append-only log; each call commits whole or changes nothing. It is written twice: as functions (`JournalSpec`) and as a class that updates its fields (`PaymentJournalClass`), each method proved equal to its function. The sidecar (`Sidecar`) is a protocol over that journal: many handlers, each a program counter with its locals, yielding at every await, with crashes and restarts anywhere. The miner, the signer, the RPC node and the storage answer through the actions; a storage call may also roll back and throw, or commit and throw. `SidecarInvariant` and `SidecarSteps` hold the invariant and its preservation, `SidecarSafety` and `RequestIdentity` the results, `SidecarProgress` the clean run that does pay.
- **Canary.** Challenge selection, token balances, the on-chain verification and the judgement of a paid response (`Canary`), and exactly when each succeeds (`CanaryLaws`).
- **Canonical JSON.** The sorted-key printer and a parser of what it prints (`CanonicalJson`, `CanonicalJsonLaws`).
- **Python boundary.** The socket client and its checks (`PaymentClient`), the gateway's derived keys and the sidecar, the demand ledger and the case store driven together (`Demand`, `CaseStoreSpec`, `CaseStoreClass`, `CaseStoreLaws`, `Gateway`, `GatewayLaws`).
- **Backtest and collector.** The batched prequential backtest against a position-free definition, and the dataset that feeds it (`Scoring`, `Backtest`, `BacktestLaws`, `Collector`, `CollectorLaws`).
- **Legacy x402 client.** The journal keyed by request URL, whose aborted rows come back, as a class and as a protocol of many clients (`LegacyPayment`, `LegacyProtocol`).
- **Miner responses.** The recursive Zeus search and the router's weighted probability (`MinerSearch`, `Router`).

`dafny verify dfyconfig.toml` checks everything.

## What is taken for granted

- A digest is any injective function from text to text; every result holds for each such function. The digests the sources cut to 48 or 60 digits are taken as the digests themselves. Ids that are digests of whole records (journal events, sealed decisions, resolutions) are represented by the records.
- The JSON parser of the sidecar is any function that agrees, on canonical text, with the parser modelled here, and whose objects have no repeated key. JSON numbers are integers, and object keys are ordered by code point (JavaScript orders UTF-16 units; the two agree outside surrogates).
- Times are integers and each journal call reads the clock once. Probabilities, scores and weights are real numbers; the rounding functions are parameters.
- One sidecar process owns the journal, and its configuration stays the same across restarts. Gateways may be started with different registry snapshots.

## Where the naive statement is false

- A paid body whose text parses to JSON `null` is answered as text first and replayed as `null` (`payment-canary/src/canary.ts:1230`, `payment-canary/src/application-sidecar.ts:558-568`). `SidecarSafety.NullBodyReplaysDifferently` is the input; `SidecarSafety.ReplayIsTheFirstResponse` says the bodies agree exactly when the text does not parse to `null`.
- If the read of the journal after the paid run throws, whether the run returned (`payment-canary/src/application-sidecar.ts:988`) or threw (`payment-canary/src/application-sidecar.ts:971`), the exception leaves through the socket's catch-all as `INVALID_REQUEST`, which the client reads as a rejected preflight although the payment was sent. `SidecarSafety.FailedReadIsMistaken` says a step of a paid handler misleads its client so exactly when that read fails; `SidecarSafety.ErrorsAfterSendingAreUnknown` and `SidecarSafety.SendersAreNeverMistaken` say the same of every handler that sent, over every run.
- Projecting a payment again can conflict with the demand event already stored for it: the event holds the digest of the protocol receipt, which covers the answered body and the registry snapshot of the gateway (`src/oathcast/protocol.py:123-204`, `src/oathcast/demand.py:304-323`). `GatewayLaws.LaterProjectionExactly` says a later projection of a payment is accepted exactly when the body is the same value and the snapshot the same; `GatewayLaws.ProjectionNeverConflicts` that with one snapshot and a paid text other than JSON `null` it always is. `GatewayLaws.RetryConflictsExactlyOnNull` is the step: the retry of a projected call conflicts exactly when its paid text parses to `null`. The refusal keeps the retry's reply out of the store as well (`GatewayLaws.FewRepliesPerCall`), where it would stand under another id exactly for such a text (`GatewayLaws.RetryRepliesAgreeExactly`).
- A ground truth given as a mapping whose `resolved_at` is null becomes canonical but leaves no resolution: `INSERT OR IGNORE` passes over the row because the column is not nullable (`src/oathcast/cases.py:665-701`). `CaseStoreLaws.NullTimeLeavesNoResolution` is the input; `CaseStoreLaws.RegistersAreBacked` says a canonical truth is among the resolutions exactly when its time is not null.
- A resolution at the very instant a case was issued does enter that case's history. `CollectorLaws.ResolveKeepsHistoryExactly` says a resolving run leaves a history alone exactly when it happens later or resolves nothing.
- In the legacy client, an error after the proof was sent is not always `PaymentOutcomeUnknown`: the write that records an unknown outcome may itself throw (`src/oathcast/payment.py:947-993`). `LegacyProtocol.ReplyFailsExactly` says the client ends with another error exactly when the answer is not verified and that write throws; `LegacyProtocol.UnrecordedOutcomeFails` is the step.
- A sealed case still takes new replies (`CaseStoreLaws.SealedCasesTakeReplies`): the reply table is append-only, not frozen.

## Model

| member | source | states |
|---|---|---|
| CanonicalJsonLaws.CanonicalTextDecidesValue | payment-canary/src/application-sidecar.ts:154-164 | two values print the same canonical text exactly when they are equal with objects read as maps |
| CanonicalJsonLaws.CanonicalRoundTrip | payment-canary/src/journal.ts:58-68 | parsing a canonical text gives the value back, as a map, and printing that reproduces the text |
| CanonicalJsonLaws.CanonicalTextParses | src/oathcast/application_payment.py:65-72 | every canonical text parses, to the value with its keys sorted |
| CanonicalJsonLaws.EscapedTextParses | payment-canary/src/canary.ts:301-313 | an escaped string reads back as itself, up to its closing quotation mark, whatever follows |
| Canary.ChallengeDigestBindsAmount | payment-canary/src/canary.ts:653-706 | two challenges of one digest select the same amount, or fail alike |
| Canary.SameChallengeSameAmount | payment-canary/src/canary.ts:653-706 | selection depends on the challenge as a value, not on key order |
| Canary.SelectedAmountIsInRange | payment-canary/src/canary.ts:685-691 | a selected amount is positive and within the cap |
| Canary.AggregateTokenBalances | payment-canary/src/canary.ts:796-819 | the loop computes the owner sums, and stops at the first unreadable entry of the mint |
| Canary.AggregatedMeans | payment-canary/src/canary.ts:796-819 | the sums are available exactly when every entry of the mint is readable, and then give each owner all it holds |
| Canary.VerifiedMovementMeans | payment-canary/src/canary.ts:821-908 | a movement is verified exactly when both lists are readable, name both parties, and the holdings moved by the amount in opposite directions |
| CanaryLaws.SelectionIsExact | payment-canary/src/canary.ts:653-706 | an amount is authorised exactly when the challenge is for the resource and offers one option of the approved scheme, network and asset, payable as it stands |
| CanaryLaws.VerifiedExactly | payment-canary/src/canary.ts:821-908 | a transaction is fully verified exactly when the chain shows it final, without error, under the signature, with the expected fee payer, and moving the amount |
| CanaryLaws.PaidRunSucceedsExactly | payment-canary/src/canary.ts:1226-1301 | a paid request succeeds exactly when the response is a success, its settlement names the payment, and the chain shows it |
| Canary.SuccessIsComplete | payment-canary/src/canary.ts:1226-1308 | a paid run that succeeds carries a 2xx status, the body and its digest, a successful settlement and a fully verified transaction |
| PaymentJournalClass.PaymentJournal.Transition | payment-canary/src/journal.ts:264-304 | the compare-and-set updates exactly one row and appends its event, or fails and leaves table, indexes and log as they were |
| PaymentJournalClass.PaymentJournal.Reserve | payment-canary/src/journal.ts:335-421 | replay, conflict, budget refusal or one inserted row with its event, as specified |
| PaymentJournalClass.PaymentJournal.MarkSubmitted | payment-canary/src/journal.ts:423-425 | reserved to submitted, nothing else written |
| PaymentJournalClass.PaymentJournal.MarkSettled | payment-canary/src/journal.ts:427-453 | submitted to settled with all evidence columns |
| PaymentJournalClass.PaymentJournal.MarkUnknown | payment-canary/src/journal.ts:455-492 | submitted to unknown with a safe code and any partial evidence |
| PaymentJournalClass.PaymentJournal.Abort | payment-canary/src/journal.ts:494-498 | reserved to aborted with a safe code |
| PaymentJournalClass.PaymentJournal.ReconcileUnknown | payment-canary/src/journal.ts:500-529 | unknown to reconciled, clearing the error and keeping a body digest that is not supplied |
| PaymentJournalClass.PaymentJournal.RecoverUnfinished | payment-canary/src/journal.ts:531-565 | the loop marks every reserved or submitted row unknown and counts the rows it recovered |
| JournalLaws.TransitionIsValid | payment-canary/src/journal.ts:264-304 | a legal transition succeeds exactly when the row is in the expected state and its signature is free, writes that row alone, keeps every invariant and never puts more of the budget in use |
| JournalLaws.ReserveIsValid | payment-canary/src/journal.ts:335-421 | a reservation inserts one row within both caps or changes nothing; a storage refusal means the operation id is taken under another key |
| JournalLaws.RecoveryFinishesEveryRow | payment-canary/src/journal.ts:531-565 | after recovery no row is reserved or submitted |
| JournalLaws.RisingEventIsNew | payment-canary/src/journal.ts:236-262 | the event id of a rising transition is never taken |
| JournalRuns.RunIsValid | payment-canary/src/journal.ts:264-565 | every run of calls, failed ones included, keeps the indexes exact, the log in step with the table, and rows moving up only |
| JournalRuns.LogRebuildsTable | payment-canary/src/journal.ts:236-304 | after every run, folding the log rebuilds each row's status and amount, no other row, and the budget in use |
| JournalRuns.EventsOfOneOperation | payment-canary/src/journal.ts:264-304 | an operation has at most four events, of different types and strictly rising rank |
| JournalRuns.KeysAndSignaturesAreUnique | payment-canary/src/journal.ts:173-175 | no two rows share a (principal, key) pair or a transaction signature |
| JournalRuns.BudgetHolds | payment-canary/src/journal.ts:366-411 | with fixed caps, the rows that are not aborted stay within both over every run |
| SidecarSteps.StepKeeps | payment-canary/src/application-sidecar.ts:691-1097 | every step of every handler, crash or restart keeps the system invariant and only grows the journal and the history of fetches |
| SidecarSteps.ConcludeKeeps | payment-canary/src/application-sidecar.ts:988-1096 | concluding a run keeps the invariant whichever storage call fails, and every answer it gives is justified |
| SidecarSteps.ThrewKeeps | payment-canary/src/application-sidecar.ts:970-987 | so does concluding a run that threw |
| SidecarSteps.ReserveKeeps | payment-canary/src/application-sidecar.ts:919-948 | a reservation hands its operation to one handler, which nobody else owned |
| SidecarSteps.SubmitKeeps | payment-canary/src/canary.ts:1207-1209 | the row is submitted before anything is sent, or the run ends unpaid |
| SidecarSteps.SendKeeps | payment-canary/src/canary.ts:1210-1224 | the fetch is its operation's first, for the amount its row holds |
| SidecarSteps.SameDigestSameAmount | payment-canary/src/canary.ts:1128-1139 | the second challenge, of the same digest, selects the reserved amount |
| SidecarSteps.ReconcileKeeps | payment-canary/src/application-sidecar.ts:691-834 | a reconciliation writes only onto the snapshot its checks were made on, whatever happened while it waited |
| SidecarSteps.RestartKeeps | payment-canary/src/application-sidecar.ts:665-671 | recovery at restart keeps the invariant |
| SidecarSafety.AtMostOnePayment | payment-canary/src/application-sidecar.ts:836-1097 | over every run, at most one paid fetch per operation and per (principal, key), after that operation's one submission event |
| SidecarSafety.SpendIsBounded | payment-canary/src/application-sidecar.ts:919-1019 | the total authorised is at most the total of the rows not aborted, at most the cap, and so are the counts; each fetch is for its row's amount; no aborted row had one |
| SidecarSafety.EvidenceIsWriteOnce | payment-canary/src/application-sidecar.ts:691-834 | between any two points of a run, a signature, body, digest or settlement once set never changes |
| SidecarSafety.VerifiedRowsAreSound | payment-canary/src/application-sidecar.ts:1049-1080 | a verified row stores a fully verified verification with its digest and a signature no other row has |
| SidecarSafety.ErrorsAfterSendingAreUnknown | payment-canary/src/application-sidecar.ts:950-1080 | a handler that sent the fetch and answers with an error is read as outcome unknown exactly when the journal read after the run did not fail |
| SidecarSafety.SendersAreNeverMistaken | src/oathcast/application_payment.py:367-432 | its client ends with a response that passes every check or with outcome unknown, exactly then |
| SidecarSafety.FailedReadIsMistaken | payment-canary/src/application-sidecar.ts:970-989 | a step that ends a paid handler tells its client that nothing was paid exactly when the journal cannot be read after the run, returned or thrown |
| SidecarSafety.ReplayIsTheFirstResponse | payment-canary/src/application-sidecar.ts:570-639 | a later identical request gets every field of the first response again, the verification as a map, and the body exactly when its text is not JSON null |
| SidecarSafety.NullBodyReplaysDifferently | payment-canary/src/application-sidecar.ts:558-568 | the body text that shows the exception |
| SidecarSafety.ResponsesPassTheChecks | src/oathcast/application_payment.py:304-364 | the first response and its replay both pass the Python evidence checks |
| SidecarProgress.CleanRunSendsThePayment | payment-canary/src/application-sidecar.ts:836-968 | with clean storage, room and a steady challenge, an accepted request reaches its paid fetch for the selected amount |
| SidecarProgress.SettlementGoesThrough | payment-canary/src/application-sidecar.ts:1049-1096 | a verified settlement settles the row and is answered with success |
| SidecarProgress.FailedSettlementIsRecorded | payment-canary/src/application-sidecar.ts:990-1011 | a paid run that fails leaves the row unknown with its status, body, digest and signature, and is answered with outcome unknown |
| SidecarProgress.ReconciliationGoesThrough | payment-canary/src/application-sidecar.ts:749-834 | verified chain evidence with the right artifact takes an unknown row to reconciled under the supplied signature |
| SidecarProgress.ReserveGoesThrough | payment-canary/src/journal.ts:366-421 | an unused key with room under both caps is always reserved |
| RequestIdentity.FingerprintDecidesRequest | payment-canary/src/application-sidecar.ts:519-528 | two requests have one fingerprint exactly when they are the same request with parameters read as a map |
| RequestIdentity.OperationIdDecides | payment-canary/src/application-sidecar.ts:530-537 | two operation ids are equal exactly when principal, key, fingerprint and target are |
| RequestIdentity.SamePlanSameBinding | payment-canary/src/application-sidecar.ts:866-877 | a stored row with the request's operation id is bound to that request in every column compared |
| RequestIdentity.RetriesNeverPayAgain | payment-canary/src/application-sidecar.ts:866-889 | once a fetch was sent for a key, no request under it reaches a preflight, and the same request is answered with a stored success or outcome unknown |
| PaymentClient.CollectChunks | src/oathcast/application_payment.py:216-226 | the receive loop collects up to a newline or the end, or fails on error or cap |
| PaymentClient.Request | src/oathcast/application_payment.py:194-258 | one socket call returns the decoded first line or the error its stage calls for |
| PaymentClient.UnavailableMeansUnsent | src/oathcast/application_payment.py:204-242 | plain unavailability is reported exactly when nothing was sent |
| PaymentClient.ReplyIsFirstLineOfStream | src/oathcast/application_payment.py:216-243 | an accepted reply does not depend on how the stream was cut into chunks |
| PaymentClient.FullyVerifiedPropsHold | src/oathcast/application_payment.py:342-353 | a fully verified verification passes the client's checks |
| Scoring.EvaluateBrier | src/oathcast/scoring.py:103-143 | every figure of the summary, and the counts of invalid cases by status |
| Scoring.EndToEndIsCoverageTimesQuality | src/oathcast/scoring.py:112-136 | the end-to-end score is coverage times quality once a case is valid |
| Scoring.ValidAndInvalidAreAll | src/oathcast/scoring.py:106-111 | valid cases and invalid ones by status add up to all |
| Scoring.ConcatenationIsWeighted | src/oathcast/scoring.py:103-143 | concatenation gives the case-weighted means |
| Scoring.ScoreIsBounded | src/oathcast/scoring.py:93-100 | an attempt scores between zero and one |
| Backtest.ValidateChronology | src/oathcast/backtest.py:182-214 | the loop accepts exactly the non-empty sequences with unique ids, one horizon and strict order, and each refusal points at its fault |
| Backtest.ChooseBest | src/oathcast/backtest.py:276-285 | the selected provider is the minimum of the three-part key, and none exactly when none is eligible |
| Backtest.BestIsUnique | src/oathcast/backtest.py:278-284 | the tie-breakers leave at most one best provider |
| Backtest.PriorProfile | src/oathcast/backtest.py:241-258 | a profile exists exactly with enough valid history, and holds its figures |
| Backtest.BatchEnd | src/oathcast/backtest.py:329-332 | a batch is all the cases of its issue time and no others |
| Backtest.RunBacktest | src/oathcast/backtest.py:301-377 | accepts exactly the valid inputs; every case has one trace row, equal to its position-free decision; decisions, scored attempts and counts follow from the trace |
| Backtest.PrefixHasTheHistory | src/oathcast/backtest.py:334-341 | the prefix holds everything resolved by the issue time anywhere in the data |
| BacktestLaws.NoLeakage | src/oathcast/backtest.py:325-377 | two datasets that differ only where nothing is resolved by t, or in providers appearing only there, decide every case issued by t alike |
| BacktestLaws.OwnOutcomePlaysNoPart | src/oathcast/backtest.py:334-350 | a case's own outcome and forecasts, and those of cases issued no earlier, play no part |
| BacktestLaws.ProfilesDependOnHistory | src/oathcast/backtest.py:261-275 | eligible providers and profiles depend on the visible history alone |
| BacktestLaws.EligibilityGrows | src/oathcast/backtest.py:241-285 | along the trace eligible providers stay eligible, and a selection never returns to none |
| Collector.CollectOnce | scripts/collect_provider_pairs.py:164-208 | one unresolved case per location, sorted by id |
| Collector.MergeCases | scripts/collect_provider_pairs.py:224-249 | a changed lead is refused unless allowed; otherwise only unseen ids are added and the whole is sorted |
| Collector.ResolveCases | scripts/collect_provider_pairs.py:252-308 | each record is resolved or left with a reason, and the four counts are exact |
| CollectorLaws.JobKeepsDataset | scripts/collect_provider_pairs.py:311-325 | a job keeps the dataset in strict order, with one lead and a one-hour horizon, and its write is never refused by the loader |
| CollectorLaws.JobsKeepDataset | scripts/collect_provider_pairs.py:224-325 | so does any run of jobs |
| CollectorLaws.OutcomesAreWriteOnce | scripts/collect_provider_pairs.py:263-267 | over any run no case is lost, changed but by being resolved, or resolved twice |
| CollectorLaws.CollectingTwiceIsCollectingOnce | scripts/collect_provider_pairs.py:235-248 | collecting again in the same hour changes nothing, whatever the providers answer |
| CollectorLaws.ResolvingTwiceIsResolvingOnce | scripts/collect_provider_pairs.py:252-308 | resolving again at the same time changes nothing |
| CollectorLaws.ResolveKeepsHistoryExactly | scripts/collect_provider_pairs.py:297-307 | resolving leaves the history of an instant alone exactly when it is later or resolves nothing |
| CollectorLaws.PastSelectionsStay | scripts/collect_provider_pairs.py:224-308 | whatever is collected or resolved after a case was issued, the backtest decides that case as before |
| CaseStoreClass.SqliteCaseStore.CreateCase | src/oathcast/cases.py:295-333 | insert or ignore, a different question conflicts and rolls back |
| CaseStoreClass.SqliteCaseStore.BindApplicationRequest | src/oathcast/cases.py:335-379 | a key is bound once, a different request conflicts |
| CaseStoreClass.SqliteCaseStore.RecordMinerReply | src/oathcast/cases.py:381-445 | one row per reply id for an existing case, sealed or not |
| CaseStoreClass.SqliteCaseStore.Seal | src/oathcast/cases.py:447-569 | an unsealed case is sealed with all its replies stored; a malformed part rolls everything back |
| CaseStoreClass.SqliteCaseStore.Observe | src/oathcast/cases.py:606-628 | an observation id is bound to one observation |
| CaseStoreClass.SqliteCaseStore.ResolveCase | src/oathcast/cases.py:630-709 | the first resolution of a sealed case is canonical, later ones are history, one without a time is refused and leaves no observation behind, one with a null time leaves no resolution row |
| CaseStoreLaws.RegistersAreWrittenOnce | src/oathcast/cases.py:295-709 | over every run question, decision and ground truth are each set at most once and in that order, and the evidence tables only grow |
| CaseStoreLaws.RegistersAreBacked | src/oathcast/cases.py:447-709 | in every state reached a sealed decision has its replies, and a canonical truth a sealed decision; it has its resolution exactly when its time is not null, and its observation when it is resolved |
| CaseStoreLaws.NullTimeLeavesNoResolution | src/oathcast/cases.py:665-701 | the input that shows the exception: a null time commits the truth and no resolution |
| CaseStoreLaws.CallKeeps | src/oathcast/cases.py:295-709 | each call moves one case by one stage at most, and a failed call changes nothing |
| CaseStoreLaws.SealKeeps | src/oathcast/cases.py:447-569 | a sealed decision has every reply id it names stored for its case |
| CaseStoreLaws.SealAcceptsExactly | src/oathcast/cases.py:455-560 | a decision is accepted exactly for an unsealed case when no part is malformed, or for a case sealed with the same decision |
| CaseStoreLaws.ResolveKeeps | src/oathcast/cases.py:630-709 | an accepted resolution closes a sealed case, canonical if it is the first, with its matching observation if it is resolved, and is stored exactly when its time is not null |
| CaseStoreLaws.ReplyIdDecides | src/oathcast/cases.py:37-48 | reply ids are equal exactly for one event, miner, request, parser and raw response read as a value |
| CaseStoreLaws.OneRowPerResponse | src/oathcast/cases.py:401-439 | one reply row for each distinct raw response of a request |
| CaseStoreLaws.SealedCasesTakeReplies | src/oathcast/cases.py:381-445 | a sealed case still takes an unseen reply |
| Demand.DemandLedger.Append | src/oathcast/demand.py:291-361 | inserts, accepts the same evidence or a replay of the same attempt, or refuses |
| Demand.AppendKeeps | src/oathcast/demand.py:291-361 | an append keeps every stored event, keeps each attempt's event under the attempt's id, and changes nothing when it refuses |
| Demand.OneEventPerAttempt | src/oathcast/demand.py:131-135 | two stored events never share a payment attempt |
| Demand.ReplaysAreAcceptedExactly | src/oathcast/demand.py:304-323 | a second event of an attempt is accepted exactly when it claims the same, whenever it was seen, and stores nothing |
| Demand.EventsAreImmutable | src/oathcast/demand.py:245-257 | over every run of appends no event is lost or changed |
| Demand.CandidatesArePaid | src/oathcast/demand.py:158-172 | a stored local candidate was paid, verified and answered with success through the network |
| Gateway.AppIdDecides | src/oathcast/application_gateway.py:102-109 | one application request id, one (principal, key) pair |
| Gateway.PaymentKeyDecides | src/oathcast/application.py:424-428 | one payment key, one application request and capability, for ids without the separator |
| Gateway.ReceiptDecides | src/oathcast/protocol.py:123-204 | two receipts have one digest exactly when they are of one payment, answered with the same body as a value, under one registry snapshot |
| GatewayLaws.NextKeeps | src/oathcast/application_gateway.py:294-366 | every part of a decide call, sidecar step, crash or restart keeps the invariant: each demand event comes from one settled payment of a bound request, and each reply row from such an event or a failed call |
| GatewayLaws.LaterProjectionExactly | src/oathcast/application.py:378-422 | once a payment is projected, and whatever happens after, projecting it again is accepted exactly when the body is the same value and the snapshot the same |
| GatewayLaws.ProjectionNeverConflicts | src/oathcast/application.py:386-422 | with one snapshot, after any run and at whatever time, projecting an accepted payment whose text is not JSON null never conflicts with the ledger |
| GatewayLaws.RetryConflictsExactlyOnNull | src/oathcast/demand.py:304-323 | the retry of a projected call is answered and accepted, and its projection conflicts exactly when the paid text parses to JSON null |
| GatewayLaws.RetryRepliesAgreeExactly | src/oathcast/cases.py:37-48 | the reply of a retry has the first one's id exactly when the paid text does not parse to JSON null |
| GatewayLaws.FewRepliesPerCall | src/oathcast/application.py:386-509 | a request at a capability keeps at most one reply row for a parser, whatever the paid text, beside one row of a failed call under the parser of those |
| GatewayLaws.RepliesBelongToCalls | src/oathcast/application.py:473-537 | every stored reply row is the body that the demand event of its request's settled payment claims, or of a failed call |
| GatewayLaws.OneEventPerCall | src/oathcast/application.py:386-405 | one application request at one capability has at most one demand event |
| GatewayLaws.SealedDecisionStays | src/oathcast/application_gateway.py:308-316 | a decision sealed for a bound request, and the binding, outlast every later move |
| GatewayLaws.EndToEndIdempotency | src/oathcast/application_gateway.py:294-366 | any sequence of decide calls, crashes and restarts sends at most one paid fetch for a pair and a capability, keeps at most one demand event per attempt and per call, and at most one reply row for a parser, beside one of a failed call |
| LegacyPayment.ConstrainedChallengeKeepsTheChoice | src/oathcast/payment.py:168-219 | the challenge shown to a signer validates again to the one approved option, whose amount is within floor and cap |
| LegacyPayment.SqlitePaymentJournal.AssertAvailable | src/oathcast/payment.py:574-606 | the duplicate and budget checks over the blocking rows |
| LegacyPayment.SqlitePaymentJournal.Reserve | src/oathcast/payment.py:629-687 | an aborted row is deleted and the URL reserved anew, inside the caps, or nothing changes |
| LegacyPayment.SqlitePaymentJournal.Transition | src/oathcast/payment.py:689-721 | the compare-and-set rewrites one row or fails |
| LegacyProtocol.StepKeeps | src/oathcast/payment.py:883-1005 | every step of every client keeps the invariant |
| LegacyProtocol.AtMostOneProof | src/oathcast/payment.py:574-779 | over every run at most one payment proof per URL, and blocking rows stay within both caps |
| LegacyProtocol.ReturnedMeansSettled | src/oathcast/payment.py:932-1005 | over every run a response returned after a proof has a settled row |
| LegacyProtocol.ReplyFailsExactly | src/oathcast/payment.py:932-1005 | a client that sent its proof ends with an error other than outcome unknown exactly when the answer is not verified and the write that records so throws, and returns exactly when it is verified and recorded |
| LegacyProtocol.UnrecordedOutcomeFails | src/oathcast/payment.py:947-949 | the step that shows the exception: a rolled back record of a transport failure, with the row still submitted |
| LegacyProtocol.CleanRunPays | src/oathcast/payment.py:909-1005 | with room and no fault an approved challenge leads to one more proof, and a verified settlement to a returned response |
| LegacyProtocol.AbortedCanBeReservedAgain | src/oathcast/payment.py:648-657 | an aborted URL can be reserved again exactly while the caps allow a row |
| MinerSearch.KeyOrderDoesNotMatter | src/oathcast/miner_adapters.py:391-441 | trees that agree with objects read as maps give the same result |
| MinerSearch.FoundIsAligned | src/oathcast/miner_adapters.py:363-441 | a probability found is in range and stands at the unique index of the target hour of the axis in scope |
| MinerSearch.SearchMissesNothing | src/oathcast/miner_adapters.py:391-441 | if any recognised field in the tree reads as a probability, the search finds one |
| MinerSearch.ReadingIsAligned | src/oathcast/miner_adapters.py:363-388 | one field reads as p exactly when it is aligned so |
| MinerSearch.ProbabilityFromValue | src/oathcast/probability.py:32-51 | a recognised field gives a probability between zero and one or nothing |
| Router.Aggregate | src/oathcast/application.py:546-601 | the loop computes the weighted mean of the valid replies, fails exactly without the replies it needs, and reports external use and influence |
| Router.AggregateIsAMean | src/oathcast/application.py:572-581 | the aggregate is within 0.00005 of a mean with positive weights, in the unit interval, and no further outside the replies' range |

## Left out

- Sockets, HTTP, timeouts, file modes, environment parsing and SQLite internals: a committed transaction is one step and a failed one none.
- Solana signing, the x402 library and base58: oracles that answer anything.
- Syntactic validation of sidecar requests (patterns, lengths, authorization): requests are taken as validated; the checks after it are modelled.
- Target building: a function of the route and the parameters, of which only the digest is used.
- Signal header extraction: one answer of the miner oracle.
- A read of the journal that throws before the reservation: it only ends a handler that has sent nothing.
- The WeatherAPI adapter, the generic probability extractor, forecast validation and the observation rules: single-function checks.
- Provider summaries of the backtest report (warmup, holdout, common cases): applications of the modelled summary to sub-sequences.
- `_error_from_sidecar` message texts; only the class of each error is modelled.
- `decision_from_stored`: it does not reproduce evidence ids or the unavailable status, so equality of results is not claimed.
- `receipts.py`, the forecast receipts of the miner service: not part of this model.
- `LiveApplicationService.decide` as one program: its parts are moves (bind, create, pay, project, record, seal) taken one by one in any order, which covers every order it takes.
- HTML, Markdown, registration, release, leaderboard and discovery code: presentation and shape checks.
- The Rust scorer: not part of this model.
- LegacyProtocol.AtMostOneProof: does not model the unsigned client, which never pays.
