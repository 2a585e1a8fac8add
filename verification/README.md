# SupportFlow: durable ingestion, classification claims and their neighbours, in Dafny

This project models the parts of SupportFlow whose correctness depends on what several
transactions do to the same rows, and proves what every run of them keeps.

**Durable document ingestion.** An upload commits a version, an audit event and an ingestion intent
together. A relay claims due intents under a lease, publishes a task and records how that went. A
worker takes messages, tries a delivery lock, claims the version, works and commits; after a
retryable error it hands the row back and publishes the next retry. An operator may rearm an
exhausted intent up to three times. One database transaction is one step; messages may be lost or
duplicated, workers may die between any two steps, locks may be lost, the database may refuse a
worker transaction, and foreign messages may appear. Each mishap is counted, so that every promise
says which of them it survives.

- `DocumentRows`, `Relay`, `Ingestion`: the rows, and every transaction twice, as a function on
  values and as the method that assigns the row's fields.
- `Protocol`: one version with its intent, messages, deliveries and lock; all actions.
- `ProtocolInvariant`, `WorkerInvariant`, `IngestionInvariant`: the inductive invariant.
- `IngestionSystem`: all versions under one clock, and induction over runs.
- `IngestionTheorems`: the promises. `IngestionProgress`: a way out of every state.
  `IngestionLimits`: runs that break a promise as soon as its assumption is dropped.
- `RetryLineage`: how much of the retry budget one publication and its descendants get.
- `DeliveryRun`: one delivery and one upload as the code runs them, and how each outcome ends the row.
- `RecoveryWindow`: settings, retry backoff, and why the recovery delay outlasts all deliveries.

**Classification claims.** `ClassificationInput` and `ClassificationService` are the pure
classification of a ticket's opening request. `ClassificationApplication` is the claim table with its
two transactions around the provider call. `ClassificationProtocol` and `ClassificationTheorems` run
concurrent calls, crashes, expiries and ticket edits, and show that the table is a faithful cache.

**Neighbours.** `SessionStore` (Redis store against the in-memory store), `Clamd` (stream framing and
the reply record), `Evaluation` (confusion matrix and ratios).

Where text and code differ, the code is followed: the docstring of `app/documents/outbox.py` says it
is not wired into the upload API, but `DocumentService.create_upload` calls it.

Two promises do not hold without a condition, and both sides of the condition are proved.
One rearm grant buys exactly one publication unless the policy allows publications but no recoveries,
in which case it buys two (`GrantBuysOnePublication`, `GrantBuysTwo`). The two session stores agree
exactly when the lifetime is a whole number of seconds (`RedisRefinesMemory`,
`FractionalLifetimeDiverges`). The retry budget is exact without database faults and short by at most
the number of faults otherwise; one fault is enough to lose an attempt (`RetryBudgetHonoured`,
`OneFaultCutsTheBudget`).

## Model

| member | source | states |
|---|---|---|
| `Relay.IngestionRelay.ClaimNext` | app/documents/relay.py:48-122 | publishes exactly for an open version without foreign owner or running extraction and with both budgets left; then the row is leased with its counters raised and the publication carries the attempts on record, less a running one; otherwise the row is the one `Claim` shelves |
| `Relay.SelectionMeans` | app/documents/relay.py:79-107 | each of the five selections holds exactly under its own condition, stated independently of the order of the checks |
| `Relay.ClaimMeans` | app/documents/relay.py:79-115 | what a claim leaves on the row: a lease with one deadline, or the reason it was shelved, every other field unchanged |
| `Relay.BackoffMeans` | app/documents/relay.py:145-150 | the delay after a failed publication doubles from one second and is a minute from the sixth attempt on |
| `Relay.IngestionRelay.FinishPublication` | app/documents/relay.py:124-151 | succeeds exactly for the intent's own token under an unexpired lease; success and failure each fix publication time, error and next due time; otherwise the row is untouched |
| `Relay.IngestionRelay.PublishAndFinish` | app/documents/relay.py:153-164 | after one poll the row is finished if the lease still ran, and is as the claim left it if not |
| `Relay.IngestionRelay.SettleTerminal` | app/documents/relay.py:166-199 | every row of the batch ends settled, with unresolved mark, error and lease cleared |
| `Relay.OutboxTable.Cleanup` | app/documents/relay.py:201-221 | refuses unbounded batches; deletes only unlocked rows settled a week ago without lease or mark, and stops short of the limit only when none is left |
| `Relay.OutboxTable.Backfill` | app/documents/relay.py:224-267 | refuses unbounded batches and future cutoffs; one new intent per version without one, addressed to it and due at once, existing rows unchanged, a known task id kept |
| `Ingestion.WorkerTransaction.Claim` | app/documents/ingestion.py:215-265 | new row, outcome and audit event of a worker claim, including giving up at the attempt limit |
| `Ingestion.WorkerTransaction.Complete` | app/documents/ingestion.py:339-369 | ready with text and one audit event exactly for the owner of a running extraction, else nothing |
| `Ingestion.WorkerTransaction.Reject` | app/documents/ingestion.py:371-401 | failed with code and one audit event exactly for the owner of a running extraction, else nothing |
| `Ingestion.WorkerTransaction.Requeue` | app/documents/ingestion.py:173-197 | queued without owner and start time, attempt count kept, exactly for the owner |
| `Ingestion.RearmIntent` | app/documents/recovery.py:29-116 | grants exactly when healthy, admin, unlocked and the rows are rearmable; then one more grant of at most three, counters kept, one numbered audit event; otherwise the row is untouched and the error is that of the first failing guard |
| `Ingestion.RefusalMeans` | app/documents/recovery.py:32-101 | refused exactly when some guard fails, with an error that explains it and no earlier guard failing |
| `DeliveryRun.RunDelivery` | app/documents/tasks.py:82-114 | a whole delivery leaves the row, audit trail and next message of the chain of protocol reactions |
| `DeliveryRun.ChainDecides` | app/documents/tasks.py:82-114 | the outcome alone decides a delivery of the row's own task: ready with that text, failed with that code, queued with the code of its failure and exactly the next retry sent, or given up at the limit; attempt count and audit event with it |
| `DeliveryRun.ChainIsRun` | app/documents/tasks.py:75-114 | that chain is a run of protocol steps of the delivery holding the lock |
| `DeliveryRun.RowWaitsForHolder` | app/documents/ingestion.py:100-135 | over every run, while the holder of the delivery lock takes no step nothing else touches its row |
| `DeliveryRun.DeliveryEnds` | app/documents/ingestion.py:137-213 | over every run, whatever happens between a claim and its end, the holder's remaining steps end the row exactly as its outcome says |
| `DeliveryRun.UploadIsRun` | app/documents/service.py:110-189 | whichever of put, commit and delete fail, the upload is a protocol run that leaves version, intent and audit event together, or at most an object that could not be deleted |
| `DeliveryRun.DocumentService.CreateUpload` | app/documents/service.py:102-189 | version, audit event and an intent due at once appear together or not at all, and no version without its object |
| `ProtocolInvariant.ClaimKeepsLedger` | app/documents/relay.py:91-122 | a claim waits for the same extraction at most once and retires every earlier token |
| `ProtocolInvariant.RearmKeepsIntent` | app/documents/recovery.py:57-109 | a rearm keeps budgets, spacing and fencing |
| `ProtocolInvariant.PublicationResumes` | app/documents/relay.py:116-122 | a publication carries exactly the attempts on record, not counting a running one, and the intent's identity |
| `WorkerInvariant.ReactionKeepsBudget` | app/documents/tasks.py:86-114 | each worker step keeps message retry numbers within attempts plus faults |
| `WorkerInvariant.WorkerKeepsLock` | app/documents/ingestion.py:100-135 | without lost locks only the holder is past the lock, and it owns what it works on |
| `IngestionInvariant.ActionKeepsInv` | app/documents/relay.py:48-267 | every enabled action of relay, worker, broker, upload or operator keeps the whole invariant |
| `IngestionSystem.RunKeepsInv` | app/documents/relay.py:48-267 | the invariant holds of every version after every run |
| `IngestionSystem.RunEvolves` | app/documents/ingestion.py:215-401 | over every run attempts, ledgers and audit trails only grow, terminal rows and task ids never change, removed intents stay removed |
| `IngestionTheorems.TerminalIsFinal` | app/documents/ingestion.py:215-401 | ready and failed never change again, and there is one terminal audit event if terminal, none otherwise, with the row's own code, count and length, even with locks lost |
| `IngestionTheorems.RetryBudgetHonoured` | app/documents/tasks.py:82-114 | no message runs ahead of the attempt count by more than the faults; giving up happens only with the budget spent to within the faults, exactly spent without any |
| `RetryLineage.PublicationGetsTheRest` | app/documents/relay.py:116-122 | over every run without foreign messages, a publication starts at the attempts on record and its descendants use at most the retries then left |
| `IngestionTheorems.OwnershipNeverAmbiguous` | app/documents/relay.py:84-99 | without foreign messages the owner is nobody or the intent's task, and no claim can find ownership ambiguous |
| `IngestionTheorems.NoLostWork` | app/documents/service.py:110-159 | an unfinished accepted version has its object and one unsettled intent; cleanup cannot take it and backfill cannot duplicate it |
| `IngestionTheorems.DeliveriesExclude` | app/documents/tasks.py:75-80 | without lost locks at most one delivery of a version is past the lock |
| `IngestionTheorems.ExtractionLands` | app/documents/ingestion.py:137-171 | without lost locks a finished extraction always becomes the ready text |
| `IngestionTheorems.BudgetsHold` | app/documents/relay.py:100-110 | publications and recoveries stay within their maxima plus grants; at most three grants, numbered one by one in the audit trail |
| `IngestionTheorems.LeasesAreSound` | app/documents/models.py:224-231 | token and deadline together, only on an open intent; settled and unresolved never together |
| `IngestionTheorems.PublicationsAreAddressed` | app/documents/relay.py:116-122 | the intent and every publication of a version name that version, its one intent and a token that was issued |
| `IngestionTheorems.LedgerCountsSelections` | app/documents/relay.py:48-122 | the ledger's count is the number of claim selections in the run |
| `IngestionTheorems.SelectionsBounded` | app/documents/relay.py:79-122 | termination measure: selections of one intent over any run are at most publications, grants, attempts and marks allow |
| `IngestionTheorems.RecoverySpacing` | app/documents/relay.py:140-151 | after a recorded success no selection before the recovery delay, across anything in between including a rearm; no publication over a running extraction |
| `IngestionTheorems.TokenFinishesOnce` | app/documents/relay.py:124-151 | a token that finished never finishes again, in any continuation |
| `IngestionTheorems.OvertakenTokenIsFenced` | app/documents/relay.py:111-139 | a token never finishes after a later claim of its intent |
| `IngestionTheorems.GrantBuysOnePublication` | app/documents/recovery.py:102-109 | between a grant and the next exhaustion exactly one publication is handed out |
| `IngestionProgress.NoDeadEnd` | app/documents/relay.py:48-199 | from every reachable state an accepted version can still be finished or shown to the operator, without mishap |
| `IngestionLimits.OneFaultCutsTheBudget` | app/documents/tasks.py:86-114 | one refused worker claim suffices to give up one attempt early |
| `IngestionLimits.ForeignMessageMakesAmbiguous` | app/documents/relay.py:84-99 | one foreign message suffices to make ownership ambiguous |
| `IngestionLimits.GrantBuysTwo` | app/documents/relay.py:100-110 | under a policy with publications but no recoveries a grant buys two |
| `RecoveryWindow.CountdownBounds` | app/documents/tasks.py:35-40 | for every jitter the countdown lies between the capped powers of two, and the extreme jitters reach both |
| `RecoveryWindow.RoundIsNearest` | app/documents/tasks.py:38-40 | rounding goes to the nearest second, to the even one from exactly between |
| `RecoveryWindow.RecoveryOutlastsDeliveries` | app/config.py:255-265 | for accepted settings and every jitter, redelivery, all attempts and all backoffs take strictly less than the recovery delay |
| `RecoveryWindow.EffectiveRecoveryMeans` | app/config.py:255-265 | the recovery delay is the configured one or the least with a minute to spare over every backoff |
| `RecoveryWindow.RelayWaitsOutDeliveries` | app/documents/relay_runtime.py:115-124 | over every run with accepted settings the relay does not select an intent again before all of that fits in |
| `RecoveryWindow.RecoveredExtractionIsDead` | app/documents/relay_runtime.py:115-124 | over every run a version found extracting is published again only after hard limit and redelivery have passed |
| `RecoveryWindow.DeployedPolicyIsBounded` | app/documents/relay_runtime.py:115-124 | the deployed policy selects one intent at most 39 times, publishes it at most 23 times and recovers it at most 6 times |
| `ClassificationInput.OpeningIsLeast` | app/classification/inputs.py:69-73 | the opening is the least non-system message by instant and id, and absent exactly without one |
| `ClassificationInput.PrepareMeans` | app/classification/inputs.py:60-94 | refused exactly for size or a repeated id; otherwise the fingerprint is the subject with the opening's id and body, and insufficient exactly without one or when both strip to nothing |
| `ClassificationInput.BlankIsStripped` | app/classification/inputs.py:92-93 | a blank text is one that stripping empties |
| `ClassificationInput.PermutationKeepsInput` | app/classification/inputs.py:60-94 | the prepared input and fingerprint do not depend on the order of messages |
| `ClassificationInput.FollowUpKeepsInput` | app/classification/inputs.py:69-94 | a new message leaves input and fingerprint alone exactly when it is a system message or later than the opening |
| `ClassificationService.ParseMeans` | app/classification/schemas.py:15-45 | a reply is a result exactly when it is short enough and its JSON has the two fields of that legal result, in either order, and nothing else |
| `ClassificationService.ClassifyMeans` | app/classification/service.py:9-24 | bad input is refused, insufficient input abstains whatever the script, and otherwise the script's error or its parsed reply decides |
| `ClassificationService.ClassifyIsEvaluate` | app/classification/service.py:9-24 | the pure classification depends on fingerprint and script only, and its results are legal pairs |
| `ClassificationApplication.OperationTable.Begin` | app/classification/application.py:237-298 | shows the matching row, materializing an expired claim with one audit event, or inserts one claim |
| `ClassificationApplication.OperationTable.Settle` | app/classification/application.py:326-380 | settles its claim once with one audit event, or shows what another already settled |
| `ClassificationProtocol.ActionKeepsInv` | app/classification/application.py:237-383 | requests, provider calls, completions, crashes, edits and time keep rows, calls and audit trail consistent |
| `ClassificationTheorems.ReadIsFaithful` | app/classification/application.py:206-235 | a current view shows what classifying the ticket now gives; no other view carries a result |
| `ClassificationTheorems.ReadAnswers` | app/classification/application.py:172-235 | a matching row is always the one shown, in its own state with its own result and error, unknown once expired; without one the latest row is shown as stale, and without any row nothing was requested |
| `ClassificationTheorems.ReusedResultIsFaithful` | app/classification/application.py:248-267 | a repeated classify reuses only what it would compute |
| `ClassificationTheorems.ConcludeIsFaithful` | app/classification/application.py:326-383 | a finishing call shows a result exactly when unsettled, authorized, in time, unchanged and successful, and then the right one |
| `ClassificationTheorems.ConcludeExplains` | app/classification/application.py:344-380 | why a finishing call left its row so: lost authorization, expiry, changed input, in that order, and otherwise the pure answer with outages left unknown |
| `ClassificationTheorems.ClaimLasts` | app/classification/application.py:271-295 | over every run an unsettled claim shows as running for thirty seconds and as unknown afterwards, and no success is later than that |
| `ClassificationTheorems.RepeatMaterializes` | app/classification/application.py:256-267 | a repeated classify writes an expired claim down as unknown with one audit event and changes nothing else |
| `ClassificationTheorems.FollowUpStaysCurrent` | app/classification/application.py:119-134 | a follow-up message changes no reader's view of the matching row |
| `ClassificationTheorems.OneCallPerKey` | app/classification/models.py:54-64 | one row per input and configuration, at most one provider call, one finished audit event once settled, legal result exactly when succeeded |
| `ClassificationTheorems.SettledForever` | app/classification/application.py:335-380 | a settled operation never changes again |
| `ClassificationTheorems.UnknownNeverBecomesResult` | app/classification/application.py:180-194 | once shown as unknown, an operation is never shown with a result |
| `SessionStore.RoundTrip` | app/ui/session.py:313-385 | deserializing a serialized session gives it back exactly when it has a token and user and organization together or not at all |
| `SessionStore.DeserializeMeans` | app/ui/session.py:332-385 | only what serialization wrote is read back as a session |
| `SessionStore.PayloadMeans` | app/ui/session.py:313-330 | the stored fields by name |
| `SessionStore.InMemoryBrowserSessionStore.Call` | app/ui/session.py:132-204 | each operation's answer and new dictionary; what the answers are is `SessionLives` |
| `SessionStore.RedisBrowserSessionStore.Call` | app/ui/session.py:207-311 | each operation's answer and new keys, with payload and lifetime; what the answers are is `SessionLives` |
| `SessionStore.RedisRefinesMemory` | app/ui/session.py:249-300 | with whole-second lifetimes no sequence of calls, waits and evictions tells the stores apart |
| `SessionStore.FractionalLifetimeDiverges` | app/ui/session.py:86-92 | every other accepted lifetime has a run in which they differ |
| `SessionStore.RetiredNeverResolves` | app/ui/session.py:188-204 | a rotated or invalidated id never resolves again in either store |
| `SessionStore.SessionLives` | app/ui/session.py:94-106 | the created session has the given user, organization, token and expiry, and over every run that does not end it both stores resolve exactly it, memory until expiry and Redis for the whole seconds, and neither afterwards |
| `Clamd.PackRoundTrip` | app/documents/clamd.py:162-164 | the frame header carries the chunk length |
| `Clamd.PackIsBigEndian` | app/documents/clamd.py:162-164 | the header's four bytes weigh the length, most significant first |
| `Clamd.CommandIsInstream` | app/documents/clamd.py:155 | the command is zINSTREAM and a NUL |
| `Clamd.DeframeFrames` | app/documents/clamd.py:156-164 | decoding the frames gives back the chunks' bytes, whatever follows |
| `Clamd.SendStream` | app/documents/clamd.py:151-165 | whole frames only; the daemon decodes exactly the source with its end, or the limit was exceeded and it saw a prefix within the limit and no end |
| `Clamd.ReceiveRecord` | app/documents/clamd.py:187-206 | the reply is the bytes before the first NUL or the end, accepted exactly with 1 to 4096 of them, however they were cut |
| `Clamd.RecordMeans` | app/documents/clamd.py:194-197 | the record is the longest beginning of the stream without a NUL |
| `Clamd.RecordIgnoresTail` | app/documents/clamd.py:194-197 | bytes after the NUL do not matter |
| `Clamd.VerdictMeans` | app/documents/clamd.py:113-119 | clean for one reply, infected for named signatures only, everything else fails closed |
| `Evaluation.Confuse` | app/classification/evaluation.py:166-172 | every cell of the matrix is the number of its rows |
| `Evaluation.Conservation` | app/classification/evaluation.py:166-191 | the matrix sums to the total, its diagonal to the correct rows, its predicted counts plus errors to the total |
| `Evaluation.ScoresMean` | app/classification/evaluation.py:173-185 | counts of a class are counts of rows; ratios are in [0,1], undefined exactly without a denominator, and f1 is the harmonic mean once a case is right |
| `Evaluation.Evaluate` | app/classification/evaluation.py:166-237 | the whole report is the counts of the rows and their ratios, it adds up, and macro f1 is the mean over the six categories; only an empty split is refused |
| `Evaluation.ReportAddsUp` | app/classification/evaluation.py:186-228 | coverage, abstention and error rate add up to one, accuracy fits beside the errors, macro f1 is in [0,1] |
| `Evaluation.MacroIsMean` | app/classification/evaluation.py:227-228 | macro f1 is the plain mean of the six categories' f1 from the rows, an undefined one counting as zero |

## Left out

- Selection order of due rows, `SKIP LOCKED` and batch order: any due or removable row may be taken.
- The publishing outcome: `finish` may be told success or failure whatever the broker did, so both are covered and not tied together.
- Clock skew between worker and database, ambiguous commits, and several clock readings inside one transaction: one monotone clock, one reading per transaction.
- Database faults: only refused `_claim` and `prepare_retry` transactions are counted, because the others do not move the two retry counters apart.
- Versions from before the outbox: queued ones only, with attempts within the limit, as the backfill procedure demands.
- Scanning, extraction, media types and upload validation: nondeterministic outcomes of a working delivery; `_stage_verified_source` is part of them.
- Hash collisions: fingerprint and digest are the hashed values themselves; the fixed policy, taxonomy and schema versions are not carried along.
- `ClassificationTheorems.Read`: a duplicate message id counts as an input that cannot be prepared; message ids are primary keys, so the code's exception cannot occur there.
- Mapping of views to HTTP errors (`_return_or_error`), membership checks and tenants: authorization is a given flag and one ticket is considered.
- Cookie signatures, Redis connection errors, and the text syntax of JSON, UUIDs and timestamps: cookies arrive as verified ids, payload texts as what they denote.
- Sockets, timeouts, `PING`/`VERSION` health checks, UTF-8 decoding and stripping in the ClamD client.
- `Evaluation.Evaluate`: takes the rows as given; fixtures, the order of rows, digests and fixed report labels are not modelled, and ratios are exact reals.
- Routers, UI, identity, tickets, storage adapters, migrations and deployment scripts: linear rules or foreign code.
