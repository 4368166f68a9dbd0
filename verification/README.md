# A verified model of the analysis and ingestion core

Dafny models of the parts of the system whose correctness is hardest to see from any one
function, with proofs of what they keep over all inputs, all runs and all interleavings.
`dafny verify dfyconfig.toml` checks everything.

| Files | What they model |
|---|---|
| `AnalysisStatus` | the status table of an analysis job and its guard |
| `ClaimProtocol`, `ClaimInvariants`, `ClaimTheorems`, `EngineOutcomes`, `PlanRuns`, `QueueOutcomes`, `LostJobs`, `Heartbeat` | claim, recovery, renewal, fenced engine transactions, clarification service, cancel route and crashes of any number of workers over shared job rows, as a state machine; its invariant; what holds over whole runs; what each step does to a row, column by column; how a plan is carried through; which jobs of lost workers can be taken again; what a lease protects |
| `AnalysisStore`, `ToolDedup` | the same operations over mutable tables, each proved to take exactly the protocol's step; the tool loop and its reuse of recorded calls |
| `DependencyGraph` | the dependency worklist with extras that grow while it runs |
| `CommandEnvelope`, `Ingestion`, `IngestionOutcomes`, `IngestionLosses`, `IngestionStore` | signed commands, claim with replay log, attempt accounting with rollback, retries, claims that end in no attempt |
| `CalculationMigration` | migrations 014 and 015 over an arbitrary table |
| `EventLog`, `EventHistory` | per-job event numbering under interleaved transactions, and replay; what the log holds, told from the actions |
| `Derivations`, `NumberTokens`, `DecimalText` | the figures the quality gate accepts and how it reads figures |
| `PdfBatches`, `ValueLocator`, `Strings` | batched PDF reading; locating a figure on a page |
| `DecimalRounding` | display rounding and the percentage contract |
| `Wrappers` | option and result types |

A test of the fence and the writes behind it, up to the next end of a transaction, are one
step, because the row is locked meanwhile. Transactions end at commit, at rollback, and
inside a tool: `compare_institutions` commits (services/api/app/services/comparison_service.py:847),
so every planned call says whether it ends the engine's transaction. A cancelled engine task
and a lost worker are both the step Crash, possible at any time; a heartbeat is the step Renew.
The cancel route takes no lock, so its check of the status and its write are two steps, with
anything in between.
Tokens and identifiers are fresh numbers, HMAC, SHA-256, MD5, UUID text and date text are parameters.

## Where the code does not do what is expected of it

- A worker whose token has been replaced can still write: the two writes after
  `require_clarification` has committed (services/api/app/orchestration/engine.py:206-216,
  services/api/app/services/clarification_service.py:97) are not fenced. The former holder changes
  job rows exactly by that write (`FormerHolderChangesExactly`); `FormerHolderCanClearTheLease` is a run in
  which it clears the new holder's lease; without an answered clarification it cannot happen.
- The ABANDONED update of a recovery never matches a row, because attempts are IN_PROGRESS and
  never RUNNING (`ReachableRows`).
- A job whose engine has ended without a stop is not always taken up again. Another worker can
  take it if and only if it has a lease, its one recovery is unused, and its status is one that
  recovery lists or waits for an answer still in time (`LostJobRetakenExactly`). So the engine never
  works again on a job whose worker is lost in the tool phase (`ToolPhaseIsFinal`), on one whose
  clarification was answered after the engine had closed its attempt, lease and all
  (`AnsweredIsFinal`), or on one whose worker is lost for the second time (`SecondLossIsFinal`).
  The cancel route can still end such a job, and a clarification of one can still expire.
- The cancel route can write CANCELLED over a stop that was reached after its check of the status:
  over COMPLETED it leaves a snapshot on a CANCELLED job (`SnapshotOnACancelledJob`). It happens at most
  once to a job (`AtMostOneLateWrite`), and `ReachableRows` and `StopsAbsorb` say exactly what it changes.
- The attempt limit of ingestion does not bound claims: a job is claimed once for each attempt and once for
  each token that recorded none, so claims stay within the limit exactly while those are no more than the
  attempts left (`ClaimsAreAttemptsAndLosses`); they can be any number (`LossesAreNotCounted`).
- Migration 014 hashes an identity's columns with nothing in between, so formula A1 in version 1 and
  formula A in version 11 become one request (`TwoFormulasOneRequest`); `SharedRequestsExactly` says when.
- Migration 014 updates reconciliations whose parents are terminal, which the trigger of 013 refuses
  (services/api/alembic/versions/013_calculation_checksum_and_lineage_hardening.py:125-156): it goes through
  only where the migrating role sees none (`MigrationSucceedsExactly`).
- Migration 015 can fail on tables 014 accepts: rewriting hashes can make two rows of an organization
  collide on `uq_calculations_active_idempotency` (`RewritingCanCollide`); `MigrationSucceedsExactly` says when
  the two migrations go through.
- A comma-grouped integer with two groups is read as a decimal, "1,500" as 1.5
  (`CommaGroupedExactly`), and a lone comma with five or more decimals is read as a separator
  (`TurkishDecimalsExactly`).
- `locate_in_words` is described as finding the shortest run; it takes the leftmost start first
  (`ShorterRunFurtherOn`; `ShortestUnlessPassedOver` says when the run taken is a shortest one).
- The quality 0.85 of PDF extraction is never given (`ParsedExactly`).
- An event's insert violates the unique number exactly when another transaction committed events of
  the job since the last number was read (`EmitEvent`).
- A negative display precision does not round before the point: down to -37 it is precision 0, since
  the pattern 10^n has exponent 0 (`DisplayPlaces`).

## Model

| member | source | states |
|---|---|---|
| AnalysisStatus.PipelineSuffix | services/api/app/orchestration/state_machine.py:29-126 | On every path through the table, the last statuses before a pipeline status are exactly the pipeline up to it, whatever clarification cycles came before |
| AnalysisStatus.CompletionHasPassedEveryGate | services/api/app/orchestration/state_machine.py:95-106 | Every arrival at COMPLETED, directly or through human review, ends with one uninterrupted pipeline since the request was last understood, policy check and quality gate included |
| AnalysisStatus.ClarificationMayRepeat | services/api/app/orchestration/state_machine.py:43-55 | The clarification cycle can precede completion any number of times |
| AnalysisStatus.EdgesExactly | services/api/app/orchestration/state_machine.py:29-126 | The whole table: one pipeline stage forward, cancellation of anything not stopped, failure of anything under way, and the few edges that leave the pipeline |
| ToolDedup.CheckExistingInvocation | services/api/app/orchestration/tool_dedup.py:21-53 | The answer is the newest recorded row of the tool and arguments, and none exactly when no row matches |
| ToolDedup.ExecuteTools | services/api/app/orchestration/engine.py:349-396 | The tool loop, stopped behind a call that ends the transaction, gives the rows and outputs of the loop's specification |
| ToolDedup.RunToolsKeepsRows | services/api/app/orchestration/engine.py:349-396 | The loop only adds rows, each call at most once and under one writer, and every output it carries is the answer recorded for its own call |
| ToolDedup.RunToolsExactly | services/api/app/orchestration/engine.py:349-396 | The loop stops behind the first new call that ends its transaction, or at the plan's end, and by then exactly the new calls have a row each, in the plan's order, with their own outputs |
| ClaimInvariants.StepKeepsInv | services/api/alembic/versions/031_analysis_job_claim_authority.py:237-397 | Every step of claim, recovery, renewal, engine, clarification service, cancel route, crash and clock keeps the invariant tying rows, sessions, tokens, tools, attempts and snapshots |
| ClaimInvariants.RunKeepsInv | services/api/alembic/versions/031_analysis_job_claim_authority.py:237-397 | The invariant holds after every run |
| ClaimInvariants.FirstTransactionOk | services/api/app/orchestration/engine.py:100-396 | What the engine's first transaction commits, by rejection, clarification or plan, satisfies the row invariant and keeps the owner |
| ClaimTheorems.StepEvolves | services/api/app/orchestration/engine.py:146-551 | Every step moves a job down the measure of recoveries left and distance to a stop, strictly when its status changes, freezes token and tools order once tools began, and issues only unused tokens; the one exception is a late write of the cancel route, which changes a stop to CANCELLED and nothing else |
| ClaimTheorems.FormerHolderChangesExactly | services/api/app/orchestration/engine.py:59-83 | A session whose token was replaced changes job rows if and only if it performs the unfenced write behind a clarification request, and then only lease and its own attempt |
| ClaimTheorems.FormerHolderForever | services/api/alembic/versions/031_analysis_job_claim_authority.py:312-345 | A replaced token never becomes current again in any continuation |
| ClaimTheorems.FormerHolderIsSilent | services/api/app/orchestration/engine.py:526-577 | In runs in which no clarification is answered, no step of a former holder changes any job row |
| ClaimTheorems.FormerHolderCanClearTheLease | services/api/app/orchestration/engine.py:206-216 | A concrete run in which a former holder clears the new holder's lease |
| ClaimTheorems.TokenFrozenFromTools | services/api/app/orchestration/engine.py:331-388 | Once a job is committed as executing tools or later its token never changes, tool rows are only added, all under that token, at most one per tool and arguments |
| ClaimTheorems.ReachableRows | services/api/app/orchestration/engine.py:479-522 | In every run a snapshot exists exactly when the job is COMPLETED, if and only if the cancel route never overwrote a COMPLETED of it; in every reachable state a COMPLETED job has a snapshot, a snapshot names a recorded dataset, attempts are 1..n, and a recovery finds nothing to abandon |
| ClaimTheorems.SnapshotOnACancelledJob | services/api/app/routers/analyses.py:234-239 | A run from the start after which a CANCELLED job has a snapshot: the route checks, the worker completes, the route writes |
| ClaimTheorems.AtMostOneLateWrite | services/api/app/routers/analyses.py:234-239 | No run overwrites the stop of a job by the cancel route more than once, and never a cancelled job |
| ClaimTheorems.AtMostTwoTokens | services/api/alembic/versions/031_analysis_job_claim_authority.py:29-33 | In every run a job is issued one token per claim or recovery, at most two, and its recovery count is 0 or 1 |
| ClaimTheorems.ChangesArePaidFor | services/api/app/orchestration/engine.py:484-551 | Status changes of a run are bounded by what the measure lost and the late writes of the cancel route |
| ClaimTheorems.AtMostSixStatusChanges | services/api/app/orchestration/engine.py:484-551 | No run from the start changes the committed status of a job more than six times, apart from at most one late write of the cancel route |
| ClaimTheorems.StopsAbsorb | services/api/app/orchestration/state_machine.py:29-36 | After a stop, no continuation changes tools, snapshot or token, and the status stays exactly as long as no late write of the cancel route makes it CANCELLED |
| EngineOutcomes.BeginOutcome | services/api/app/orchestration/engine.py:100-396 | For every holder of a RECEIVED job and every plan: the first transaction opens an attempt, records the new calls up to the first that ends it, and otherwise completes the job or, without a dataset, writes nothing |
| EngineOutcomes.ResumeOutcome | services/api/app/orchestration/engine.py:368-522 | For every holder behind a tool: the call's own row and the new ones after it are recorded up to the next that ends the transaction; with none left the job is COMPLETED, lease gone, attempt COMPLETED, snapshot naming the first answer's dataset, exactly when there is one |
| EngineOutcomes.DenialOutcome | services/api/app/orchestration/engine.py:163-329 | Both denials leave the job REJECTED_BY_POLICY without a lease and with one more attempt, REJECTED_BY_POLICY, and change nothing else |
| EngineOutcomes.AskOutcome | services/api/app/orchestration/engine.py:197-212 | The request for clarification opens an attempt and a clarification awaiting an answer for 900 seconds, and leaves the lease |
| EngineOutcomes.CloseOutcome | services/api/app/orchestration/engine.py:213-217 | The writes behind it take the lease away and mark that attempt NEEDS_CLARIFICATION, whoever holds the row |
| EngineOutcomes.LateBeginOutcome | services/api/app/orchestration/engine.py:146-150 | A run that starts on a job no longer RECEIVED writes nothing and fails |
| EngineOutcomes.ExceptionOutcome | services/api/app/orchestration/engine.py:529-577 | An exception anywhere in a run and its failure transaction make a holder's job FAILED, without a lease, its committed attempt FAILED; for any other session no row is touched |
| EngineOutcomes.UnfencedOutcome | services/api/app/orchestration/engine.py:59-83 | A session that does not pass the fence ends without a write |
| PlanRuns.ResumesToTheEnd | services/api/app/orchestration/engine.py:349-522 | Left alone behind a tool, the engine reaches the plan's end in at most one transaction per call left |
| PlanRuns.PlanCarriedOut | services/api/app/orchestration/engine.py:100-577 | Every claimed job whose plan nobody interferes with ends COMPLETED with a row per call and the snapshot of the first answer's dataset, exactly when there is such a dataset, and FAILED without a snapshot otherwise |
| PlanRuns.OrdinaryRunCompletes | services/api/app/orchestration/engine.py:262-522 | Submit, claim, the one planned step whose tool commits, and the rest: from the start to COMPLETED with every column given |
| QueueOutcomes.ClaimOutcome | services/api/alembic/versions/031_analysis_job_claim_authority.py:237-286 | A claim takes effect exactly on the oldest never-claimed job among the rows not locked, setting owner, token and a lease of 900 seconds and nothing else |
| QueueOutcomes.RecoverOutcome | services/api/alembic/versions/031_analysis_job_claim_authority.py:288-350 | A recovery takes effect exactly on the never-recovered job whose lease ran out first, before its tool phase; running attempts become ABANDONED |
| QueueOutcomes.RenewOutcome | services/api/alembic/versions/031_analysis_job_claim_authority.py:352-397 | A renewal sets the lease exactly for the current holder of a job under way, and nothing else |
| QueueOutcomes.RespondOutcome | services/api/app/services/clarification_service.py:109-295 | In every reachable state an answer in time reopens the job with one more attempt, a late one expires both, any other changes nothing |
| QueueOutcomes.ExpireOutcome | services/api/app/services/clarification_service.py:357-411 | A clarification past its time expires, and its job with it unless it has stopped |
| QueueOutcomes.CancelOutcome | services/api/app/services/clarification_service.py:296-356 | A cancellation through a clarification not answered or expired cancels both, unless the job has stopped |
| QueueOutcomes.CancelRouteOutcome | services/api/app/routers/analyses.py:204-239 | The route's check passes exactly for a job that has not stopped; its write sets the status and nothing else |
| LostJobs.LostJobRetakenExactly | services/api/alembic/versions/031_analysis_job_claim_authority.py:312-345 | For every reachable job whose engine has ended: some continuation without its heartbeat gives it another token if and only if it has a lease, no recovery so far, and a status that recovery lists or NEEDS_CLARIFICATION with an answer still in time |
| LostJobs.StuckForever | services/api/alembic/versions/031_analysis_job_claim_authority.py:312-328 | A job that fails that condition keeps its token, tools and snapshot, and fails it, in every continuation |
| LostJobs.ToolPhaseIsFinal | services/api/app/services/comparison_service.py:847 | From the start, a worker lost behind a tool that commits leaves the job in EXECUTING_TOOLS, and no continuation gives it to another worker |
| LostJobs.AnsweredIsFinal | services/api/app/orchestration/engine.py:206-216 | From the start, a clarification answered after the engine closed leaves the job in UNDERSTANDING_REQUEST without a lease, and no continuation gives it to another worker |
| LostJobs.SecondLossIsFinal | services/api/alembic/versions/031_analysis_job_claim_authority.py:312-328 | From the start, a job whose second worker is lost before writing is RECEIVED under that token, and no continuation gives it to another worker |
| Heartbeat.RenewalHoldsTheJob | services/api/alembic/versions/031_analysis_job_claim_authority.py:323-326 | After a renewal no run of at most 900 seconds, whatever its steps, replaces the holder's token |
| Heartbeat.NeverTakenOver | services/worker/app/analysis_worker.py:84-115 | From the claim or recovery that takes a job to the end of its heartbeat, with at most 900 seconds between renewals, no other worker takes it over, whatever happens in between |
| Heartbeat.HeartbeatIsARun | services/worker/app/analysis_worker.py:84-115 | The loop is a run of renewals, other steps and at most one cancellation, so all statements about runs cover it |
| Heartbeat.HeartbeatEnds | services/worker/app/analysis_worker.py:84-115 | The loop renews at every pulse until the engine is done, the pulses end, or a renewal raises or is refused, and cancels the engine's task exactly in the last case |
| AnalysisStore.Store.HeartbeatLoop | services/worker/app/analysis_worker.py:84-115 | The loop renews after every sleep and cancels the engine's task exactly when a renewal raises or is refused before the engine is done |
| AnalysisStore.Store.ClaimNextAnalysisJob | services/api/alembic/versions/031_analysis_job_claim_authority.py:237-286 | Claims the oldest unlocked fresh row with a new token, answers none exactly when there is none, and refuses invalid worker names; the protocol's claim step |
| AnalysisStore.Store.RecoverNextStaleAnalysisJob | services/api/alembic/versions/031_analysis_job_claim_authority.py:288-350 | Recovers the unlocked row whose lease ran out first, or none; the protocol's recovery step |
| AnalysisStore.Store.RenewAnalysisJobLease | services/api/alembic/versions/031_analysis_job_claim_authority.py:352-397 | True exactly when worker, token and an active status match, and then the lease runs 900 seconds from now |
| AnalysisStore.Store.Poll | services/worker/app/analysis_worker.py:161-179 | One poll takes a fresh job if there is one to take, else a stale one, else changes nothing |
| AnalysisStore.Store.ExecuteJob | services/api/app/orchestration/engine.py:100-396 | From the fence to the first end of a transaction, step by step through the status table, is the protocol's step |
| AnalysisStore.Store.ResumeAfterTool | services/api/app/orchestration/engine.py:368-524 | Behind a tool that ended its transaction the fence is asked before the row is written, and the rest is the protocol's step |
| AnalysisStore.Store.PersistFailureOf | services/api/app/orchestration/engine.py:529-577 | The failure transaction writes exactly when the fence still holds |
| AnalysisStore.Store.CloseAfterClarification | services/api/app/orchestration/engine.py:206-217 | The writes after the clarification's commit happen whoever holds the row |
| AnalysisStore.Store.ReadForCancel | services/api/app/routers/analyses.py:204-235 | The cancel route's check admits exactly the statuses with an edge to CANCELLED; the protocol's read step |
| AnalysisStore.Store.WriteCancelled | services/api/app/routers/analyses.py:237-239 | The cancel route's write sets CANCELLED by primary key, whatever the row has become; the protocol's write step |
| DependencyGraph.ValidateDependencyGraph | scripts/generate_migration_lock.py:213-256 | Ends on every finite package set, cycles included; on a normal return every requirement reached from the file along requirements whose markers hold has its chosen package, inside its specifier, its edge recorded and its extras active, no extra is active that nobody asked for, and every edge stands for a requirement so checked; an error names a requirement reached from the file that really fails |
| DependencyGraph.ActiveExactly | scripts/generate_migration_lock.py:229-233 | A marker counts for the empty extra in the file and under packages without active extras, and else for some active extra of the package |
| DependencyGraph.SelectExactly | scripts/generate_migration_lock.py:216-216 | Every package's name is selected, and the last package of a name wins |
| DependencyGraph.NewKeyForgetsNothing | scripts/generate_migration_lock.py:241-255 | Processing a new key keeps every owed requirement pending or settled although extras grew |
| DependencyGraph.ChainChecked | scripts/generate_migration_lock.py:226-256 | With nothing pending, every chain of active requirements ends in a checked one |
| DependencyGraph.GrowthIsJustified | scripts/generate_migration_lock.py:223-241 | Every active extra was asked for by a direct requirement or by one whose edge is recorded |
| CommandEnvelope.DecodeInvertsEncode | services/worker/app/command_envelope.py:40-40 | A decoder recovers every non-empty or empty list of strings from its length-prefixed encoding |
| CommandEnvelope.EncodeInjective | services/worker/app/command_envelope.py:26-40 | Equal encodings come from equal lists, whatever separators or digits the parts contain |
| CommandEnvelope.PayloadDeterminesFields | services/worker/app/command_envelope.py:26-40 | Payloads are equal exactly when all eight signed fields agree |
| CommandEnvelope.ResigningIsIdempotent | services/worker/app/command_envelope.py:42-62 | Signing again with the same secret changes nothing, and signing changes only the signature |
| CommandEnvelope.SignedEnvelopeAcceptedExactly | services/worker/app/command_envelope.py:68-102 | A signed envelope is accepted exactly when schema, type, expiry and clock skew allow it |
| CommandEnvelope.ValidatedExactly | services/worker/app/command_envelope.py:68-102 | Which error any envelope meets, and when it meets none: the six checks in their order |
| CommandEnvelope.ReusedSignatureIsCollision | services/worker/app/command_envelope.py:94-102 | Two different accepted envelopes with one signature and key are a collision of the keyed hash |
| Ingestion.StepKeepsInv | services/worker/app/ingestion_worker.py:101-505 | Every delivery, processing, failure accounting, crash and tick keeps the invariant over jobs, sessions, attempts and replay log |
| Ingestion.AttemptAccounting | services/worker/app/ingestion_worker.py:190-226 | In every run QUEUED or PARSING implies an attempt is left, attempt rows are exactly 1..current_attempt, and a stopped job, its last attempt and its version agree |
| Ingestion.ClaimsAreLogRows | services/worker/app/ingestion_worker.py:124-172 | In every run committed claims of a job equal its replay-log rows, and each command id and each organization and key occurs once |
| Ingestion.ReplayChangesNothing | services/worker/app/ingestion_worker.py:145-170 | A command id or key consumed once is refused in every continuation, and its rollback undoes the claim |
| Ingestion.OnlyTheHolderRecords | services/worker/app/ingestion_worker.py:422-481 | Apart from claims, a job row changes only by the session holding its current token, and then by one attempt |
| Ingestion.HolderIsNeverRefused | services/worker/app/ingestion_worker.py:211-259 | In every reachable state no status transition of job or version raises for the holder |
| Ingestion.StoppedForever | services/api/alembic/versions/009_command_envelope_and_fact_integrity.py:59-67 | A stopped job is unchanged by every continuation |
| IngestionOutcomes.DeliverOutcome | services/worker/app/ingestion_worker.py:101-172 | A delivery claims exactly when the envelope is accepted, the row is free and waiting or stale with an attempt left, and neither command id nor key was seen; claim and log row are given column by column |
| IngestionOutcomes.ProcessOutcome | services/worker/app/ingestion_worker.py:190-406 | Under a standing claim job, version and attempt become what the parser says; an exception or unknown status is rolled back; without the claim nothing is written |
| IngestionOutcomes.FailureOutcome | services/worker/app/ingestion_worker.py:422-505 | Under a standing claim the attempt is counted and recorded FAILED, and job and version are QUEUED while an attempt is left and FAILED with the last; without the claim nothing is written |
| IngestionOutcomes.RetriedWhileAttemptsAreLeft | services/worker/app/ingestion_worker.py:455-465 | In every run in which nothing is ever parsed, a job is open exactly while attempts are left and FAILED exactly when max_attempts are recorded, all of them FAILED |
| IngestionOutcomes.RetriedToTheLast | services/worker/app/ingestion_worker.py:101-505 | For every maximum m there is a run of accepted, signed commands in which every attempt throws: the job is QUEUED after each of the first m - 1 and FAILED after the m-th |
| IngestionLosses.ClaimsAreAttemptsAndLosses | services/worker/app/ingestion_worker.py:211-226 | In every run a job's claims are its recorded attempts plus its tokens that recorded none, so they stay within max_attempts exactly while the latter are at most the attempts left |
| IngestionLosses.LossesAreNotCounted | services/worker/app/ingestion_worker.py:211-216 | For every n there is a run in which n accepted, correctly signed commands claim a job of one attempt n times, every holder is lost, and the job is still claimable with no attempt counted |
| IngestionStore.Store.ClaimIngestionJob | services/api/alembic/versions/009_command_envelope_and_fact_integrity.py:58-78 | Marks the row exactly when it is queued, or parsing, stale for 15 minutes and with attempts left, and not locked |
| IngestionStore.Store.InsertLog | services/api/alembic/versions/009_command_envelope_and_fact_integrity.py:89-103 | Inserts exactly when neither the command id nor the organization and key is there |
| IngestionStore.Store.ClaimEnvelope | services/worker/app/ingestion_worker.py:101-172 | Validation, claim, log row and commit or rollback together are the protocol's delivery step, and the answer is the first of rejection, no free row and replay that applies |
| IngestionStore.Store.ProcessClaimedJob | services/worker/app/ingestion_worker.py:190-406 | Processing aborts exactly when the row is locked, lost or stopped, and else is the protocol's step; in a reachable state the parser's status is what is recorded, and anything else is rolled back |
| IngestionStore.Store.RecordFailureOf | services/worker/app/ingestion_worker.py:422-505 | In a reachable state, when the claim still holds, the attempt is counted, a FAILED attempt row of its number appended, and job and version become QUEUED if an attempt is left and FAILED if not; without the claim nothing is counted |
| CalculationMigration.SharedRequests | services/api/alembic/versions/014_calculation_identity_and_evidence_integrity.py:145-168 | Two calculations share a request exactly when the organization and the digest of the unseparated columns agree |
| CalculationMigration.SharedRequestsExactly | services/api/alembic/versions/014_calculation_identity_and_evidence_integrity.py:145-168 | Unless two texts collide, two calculations of an organization share a request exactly when institution, periods and the joined text of code and version agree, or when one has a comparison period more and every UUID of the other stands one place before its own |
| CalculationMigration.TwoFormulasOneRequest | services/api/alembic/versions/014_calculation_identity_and_evidence_integrity.py:145-152 | Formula A1 version 1 and formula A version 11 share a request, whatever the digest |
| CalculationMigration.OneAttemptPerCalculation | services/api/alembic/versions/014_calculation_identity_and_evidence_integrity.py:174-191 | Every original calculation has one attempt of its own carrying its organization, status and, when completed, its hash |
| CalculationMigration.AttemptColumns | services/api/alembic/versions/014_calculation_identity_and_evidence_integrity.py:174-191 | Every column of a calculation's attempt: hash, both checksums and no error when COMPLETED, else its error or the default and none of these; status, organization and times always |
| CalculationMigration.CalculationColumns | services/api/alembic/versions/014_calculation_identity_and_evidence_integrity.py:192-195 | The calculation keeps all its columns and is linked to that attempt and its request |
| CalculationMigration.RequestColumns | services/api/alembic/versions/014_calculation_identity_and_evidence_integrity.py:157-168 | Every column of a request is that of the first calculation it was made for |
| CalculationMigration.KeptInOrder | services/api/alembic/versions/014_calculation_identity_and_evidence_integrity.py:196-196 | Of the calculations exactly the COMPLETED ones are kept, in their order |
| CalculationMigration.NumbersAreExact | services/api/alembic/versions/014_calculation_identity_and_evidence_integrity.py:170-172 | The attempts of every request are numbered 1..k without gap or repetition, in the order of the rows |
| CalculationMigration.PreflightPasses | services/api/alembic/versions/015_sec_context_calc_integrity.py:52-84 | Whatever 014 leaves passes 015's preflight |
| CalculationMigration.HardenedAttempt | services/api/alembic/versions/015_sec_context_calc_integrity.py:128-150 | Well-formed hashes and checksums of a completed attempt stay, malformed ones are derived from themselves and missing ones from the row's identifier; every other column as the two updates set it |
| CalculationMigration.HardenedCalculation | services/api/alembic/versions/015_sec_context_calc_integrity.py:154-163 | Hash and implementation checksum of a calculation likewise, and nothing else |
| CalculationMigration.MigratedColumns | services/api/alembic/versions/015_sec_context_calc_integrity.py:128-163 | After both migrations every column of attempt i follows from calculation i |
| CalculationMigration.HardenedExactly | services/api/alembic/versions/015_sec_context_calc_integrity.py:52-226 | Which tables 015 accepts, whatever wrote them: all calculations linked and COMPLETED, as many as completed attempts, no attempt that repair cannot make acceptable, no repaired hash twice in an organization |
| CalculationMigration.MigrationSucceedsExactly | services/api/alembic/versions/015_sec_context_calc_integrity.py:127-226 | Both migrations go through exactly when every status is COMPLETED or FAILED, no calculation has a reconciliation for 014 to update, and rewriting gives no two completed rows of an organization one hash |
| CalculationMigration.RewritingCanCollide | services/api/alembic/versions/015_sec_context_calc_integrity.py:153-161 | For every completed row with a malformed hash there is a two-row table with distinct hashes and no reconciliations that 014 accepts and 015 refuses |
| CalculationMigration.MigratedTablesAgree | services/api/alembic/versions/015_sec_context_calc_integrity.py:186-257 | After both, every attempt and calculation constraint holds, attempts are as many as the original calculations, and each calculation is linked to a completed attempt of its organization with its hash |
| CalculationMigration.Database.BackfillRequestsAndAttempts | services/api/alembic/versions/014_calculation_identity_and_evidence_integrity.py:116-194 | The reconciliations' update is refused under terminal calculations; else the backfill loop gives the tables of the migration's specification, or the status error |
| CalculationMigration.Database.HardenIntegrity | services/api/alembic/versions/015_sec_context_calc_integrity.py:52-226 | Preflight, rewriting and constraints in order, with nothing changed on a refusal |
| EventLog.CommittedNumberedFromOne | services/api/app/orchestration/event_engine.py:51-79 | Under every interleaving of transactions that read, insert, commit and roll back, the committed events of a job are numbered 1..n in commit order |
| EventLog.InsertOutcome | services/api/alembic/versions/022_model_provider_and_analysis_events.py:50-51 | Exactly when an insert goes in, violates the unique constraint, or waits for another transaction |
| EventLog.AdjacentEmitNeverViolates | services/api/app/orchestration/event_engine.py:51-79 | A read followed at once by its insert, with no other transaction between, never meets the constraint |
| EventLog.CommittedOnlyGrows | services/api/app/orchestration/event_engine.py:51-79 | A job's committed events are only added to at the end |
| EventLog.ReplayIsSuffix | services/api/app/orchestration/event_engine.py:93-103 | Replaying from k returns exactly the events k+1..n in order |
| EventLog.ResumedReplaysAreOne | services/api/app/orchestration/event_engine.py:81-103 | Replays resumed at successive points of any run together give what one replay at the end gives |
| EventHistory.CommittedIsHistory | services/api/app/orchestration/event_engine.py:51-79 | After any run the log holds exactly the events inserted by transactions that later committed, in commit order; a transaction rolled back, open or stopped by the unique constraint adds none |
| EventHistory.CommitAppends | services/api/app/orchestration/engine.py:522-522 | A commit appends the events its transaction inserted since it began, and no other action changes a job's committed events |
| EventHistory.ReplayGivesHistory | services/api/app/orchestration/event_engine.py:93-103 | A replay from 0 gives all of a job's committed events, numbered from one |
| EventHistory.EmittedIsReplayed | services/api/app/orchestration/event_engine.py:30-103 | From any state in which nobody else holds events of the job, an event emitted and committed ends the log under the next number, and a replay from the number before gives exactly it |
| EventLog.EventStore.EmitEvent | services/api/app/orchestration/event_engine.py:30-79 | With any steps of other transactions between the read and the insert: refuses large payloads; violates the constraint exactly when one of them committed events of the job; waits exactly when none did but one holds some; else appends the next number |
| EventLog.EventStore.ReplayEvents | services/api/app/orchestration/event_engine.py:81-103 | Returns the suffix of the job's visible events after the position |
| Derivations.DerivedExactly | services/api/app/orchestration/quality_gate.py:78-142 | A value is derived by the index loops exactly when one own fact, or two, gives it, independent of positions |
| Derivations.TenantIsolation | services/api/app/orchestration/quality_gate.py:96-101 | The derived values equal those computed from the organization's own facts alone |
| Derivations.ForeignFactIgnored | services/api/app/orchestration/quality_gate.py:96-101 | A fact naming another organization than the dataset can be left out without any difference |
| Derivations.OwnFactCounts | services/api/app/orchestration/quality_gate.py:85-107 | Every other fact's value is derived, and every value it gives with another such fact |
| Derivations.ContextExactly | services/api/app/orchestration/quality_gate.py:109-116 | Facts share a context when currency, unit and basis agree, a missing one standing for TRY, CURRENCY and SOLO, and a metric when that agrees, missing being null |
| Derivations.OrderIndependent | services/api/app/orchestration/quality_gate.py:89-107 | Reordering facts changes no derived value |
| Derivations.GrowsWithFacts | services/api/app/orchestration/quality_gate.py:89-142 | Adding facts takes no derived value away |
| Derivations.PairValuesExactly | services/api/app/orchestration/quality_gate.py:112-142 | Two figures give exactly the values in one of five relations to them, stated without division: sum and share under one context and metric, difference and change under one context, ratio always |
| Derivations.RatioMeaning | services/api/app/orchestration/quality_gate.py:127-131 | The derived ratios are exactly the numbers that give the first figure, or a hundred times it, when taken of a second that is not zero |
| Derivations.ChangeMeaning | services/api/app/orchestration/quality_gate.py:133-137 | The derived changes are exactly the numbers that lead in percent from the second figure to the first, or have the size of one that does |
| Derivations.ShareMeaning | services/api/app/orchestration/quality_gate.py:139-142 | The derived share is exactly the percentage of the pair's total that the first figure is |
| Derivations.SharesMakeTheWhole | services/api/app/orchestration/quality_gate.py:139-142 | The two shares of a pair add up to 100 percent |
| Derivations.ComputeDeterministicDerivations | services/api/app/orchestration/quality_gate.py:68-144 | The two sets the double loop fills are exactly the accepted forms of the derived values |
| Derivations.AddNumberRepresentations | services/api/app/orchestration/quality_gate.py:147-180 | The loops over factors and divisors add exactly the accepted forms of one value |
| Derivations.ReductionAddsNoFloat | services/api/app/orchestration/quality_gate.py:172-178 | The reductions to billions and millions add no float that scaling had not added |
| Derivations.AcceptedAtEveryScale | services/api/app/orchestration/quality_gate.py:157-162 | A figure is accepted at every scale up to a million millions in both directions and without regard to sign |
| Derivations.FloatsExactly | services/api/app/orchestration/quality_gate.py:157-162 | The accepted numbers are exactly the size of the value up or down by one of five scales, rounded to one, two or four decimals |
| Derivations.TokensExactly | services/api/app/orchestration/quality_gate.py:164-180 | The accepted texts are exactly the basic ones and the whole number of millions, billions or million millions that the value is about |
| NumberTokens.BasicTokensParseBack | services/api/app/orchestration/quality_gate.py:164-170 | Each basic token printed for a value parses back to the rounding it was printed from |
| NumberTokens.BasicTokensAre | services/api/app/orchestration/quality_gate.py:164-170 | The basic tokens are exactly the whole number plain and grouped, and the value to one and to two decimals with dot and with comma |
| NumberTokens.DotGroupedParsesBack | services/api/app/orchestration/quality_gate.py:57-60 | Every dot-grouped integer parses to itself |
| NumberTokens.TurkishDecimalsExactly | services/api/app/orchestration/quality_gate.py:46-56 | Dot-grouped figures with a decimal comma parse to the number they spell exactly when there is a group, or at most four decimals, or all digits are zero |
| NumberTokens.EnglishDecimalsExactly | services/api/app/orchestration/quality_gate.py:46-50 | Comma-grouped figures with a decimal dot parse to the number they spell exactly when there is a group, or not three decimals, or all digits are zero |
| NumberTokens.DotDecimalsExactly | services/api/app/orchestration/quality_gate.py:57-60 | A dot with decimals is read right exactly unless three decimals follow up to three digits (zeros aside) |
| NumberTokens.CommaDecimalsExactly | services/api/app/orchestration/quality_gate.py:51-56 | A lone comma with decimals is read right exactly up to four decimals (zeros aside) |
| NumberTokens.CommaGroupedExactly | services/api/app/orchestration/quality_gate.py:51-56 | A comma-grouped integer parses to itself exactly when it does not have two groups |
| NumberTokens.FifteenHundredMisread | services/api/app/orchestration/quality_gate.py:51-54 | "1,500" parses to 1.5 |
| NumberTokens.PercentIgnored | services/api/app/orchestration/quality_gate.py:43-45 | A percent sign changes nothing |
| PdfBatches.Parse | services/api/app/parsers/pdf_parser.py:47-166 | For every batch size the result equals that of a single pass over the pages |
| PdfBatches.ParsedExactly | services/api/app/parsers/pdf_parser.py:58-155 | For all documents and limits: pages are a prefix ended by the page limit or the first page past the text limit, chunks go page by page with texts before tables and are numbered 1..n, text chunks are the non-blank pages with their sizes, table chunks the first tables met up to the limit, the warnings are exactly those of the limits passed, in order, one for every page with tables beyond the limit, and status and quality follow from text and limits alone |
| PdfBatches.OutputsAt | services/api/app/parsers/pdf_parser.py:62-70 | Page row i has number i, page i's size cut to whole pixels, its raw text, and a text layer exactly when that is not all blanks |
| PdfBatches.ContentExactly | services/api/app/parsers/pdf_parser.py:114-114 | A table's text is its rows' texts with line breaks in between |
| PdfBatches.RowTextExactly | services/api/app/parsers/pdf_parser.py:114-114 | A row's text is its cells' texts, an empty cell reading as nothing, with bars in between |
| Strings.StripExactly | services/api/app/parsers/pdf_parser.py:62-70 | Stripping takes away the blanks at both ends, all of them, and nothing else |
| ValueLocator.LocatedExactly | services/api/app/parsers/value_locator.py:48-69 | A box is returned exactly when a run of at most six consecutive words spells the value, and it is that of the leftmost such run, shortest at its start |
| ValueLocator.AnswerExactly | services/api/app/parsers/value_locator.py:48-112 | On a page that was extracted and is not too full, a figure is located exactly when at most six words in a row read it, blanks aside, and the box is the least rectangle around the leftmost such run, shortest there |
| ValueLocator.NothingElsewhere | services/api/app/parsers/value_locator.py:85-112 | On a page out of range, not extracted or with more than 6000 words nothing is located |
| ValueLocator.LocateInWords | services/api/app/parsers/value_locator.py:48-69 | The nested loops with their early break find that run |
| ValueLocator.SplittingMakesNoDifference | services/api/app/parsers/value_locator.py:34-36 | A run spells what its words' raw texts spell together, so how a figure was split into words makes no difference |
| ValueLocator.NormaliseIsNormal | services/api/app/parsers/value_locator.py:34-36 | A normalised text has no blank and no minus sign other than the hyphen |
| ValueLocator.NormaliseExactly | services/api/app/parsers/value_locator.py:34-36 | Normalising goes character by character: a blank vanishes, the minus sign is a hyphen, all others stay |
| ValueLocator.NormalStays | services/api/app/parsers/value_locator.py:34-36 | A text without blanks and minus signs is its own normal form |
| ValueLocator.UnionIsLeast | services/api/app/parsers/value_locator.py:39-45 | The box is the least rectangle holding every word of the run |
| ValueLocator.ShorterRunFurtherOn | services/api/app/parsers/value_locator.py:48-53 | A page of three words on which the two-word run is returned although the third word alone spells the value |
| ValueLocator.ShortestUnlessPassedOver | services/api/app/parsers/value_locator.py:48-69 | The run found is a shortest one on the page exactly when no shorter run starts to the right of it |
| ValueLocator.AnswersAreFresh | services/api/app/parsers/value_locator.py:85-112 | Over any sequence of calls the cached locator answers as a fresh one |
| ValueLocator.PdfValueLocator.WordsForPage | services/api/app/parsers/value_locator.py:85-106 | Returns a page's words as a fresh locator sees them and keeps the cache faithful; pages out of range are not cached |
| ValueLocator.PdfValueLocator.Locate | services/api/app/parsers/value_locator.py:108-112 | Answers as a fresh locator, whatever was asked before |
| DecimalRounding.DisplayRoundsExactly | services/api/app/calculations/base.py:46-51 | The display value is within half a unit of the last place with ties away from zero, and is the only decimal of the pattern's exponent that is |
| DecimalRounding.DisplayIdempotent | services/api/app/calculations/base.py:46-51 | Rounding a displayed value changes nothing |
| DecimalRounding.DisplayMonotone | services/api/app/calculations/base.py:46-51 | Display rounding preserves order |
| DecimalRounding.DisplayOdd | services/api/app/calculations/base.py:46-51 | Rounding the negated value negates the result, refusals included |
| DecimalRounding.DisplayRefusesExactly | services/api/app/calculations/base.py:46-51 | A value is refused exactly when its rounding at the pattern's exponent would need a 39th digit |
| DecimalRounding.PatternIsPower | services/api/app/calculations/base.py:50-50 | The pattern has the value of the power of ten asked for: exponent -p, or for a negative p the power written out in as many of 38 digits as fit |
| DecimalRounding.UnitsExactly | services/api/app/calculations/base.py:23-33 | Five units are accepted and every other text is a unit mismatch |
| DecimalRounding.FixRounds | services/api/app/calculations/base.py:11-13 | A result of more than 38 digits is rounded to 38, half away from zero; a shorter one stays |
| DecimalRounding.PercentExactly | services/api/app/calculations/base.py:16-33 | The PERCENT conversion is the exact hundredth, and is undone by multiplying by 100, exactly for values of at most 38 significant digits; other accepted units leave the value as it is |

## Left out

- Lease recovery in the maintenance worker names columns and statuses that analysis jobs do not have, and is not part of this model.
- Row-level security, roles, grants, audit records, storage, HTTP and the model provider; a call into any of them either takes effect or raises.
- Budgets, the circuit breaker, retry delays and provider errors: an exception of any kind is the step Raise, which may happen at any point of the engine.
- The 60-second interval of the heartbeat is a parameter: a pulse carries whatever happens, clock included, while the loop sleeps.
- The edge from FAILED back to QUEUED of the ingestion status table has no caller and no step.
- Columns that no decision reads, such as `updated_at`, `locked_at` of analysis jobs, `normalized_request`, audit payloads and parser output rows. `writer` of a tool row and of an attempt row, and `claims` of an ingestion job, are history the tables do not hold.
- HMAC, SHA-256, MD5, JSON, UUID and date texts are parameters; what is assumed of them (distinct texts for distinct values, 32 hexadecimal digits from MD5) is said where it is used.
- ValidateDependencyGraph: version specifiers (PEP 440) and markers (PEP 508) are parameters, and marker activity is not monotone in the extras, so a recorded edge whose marker is no longer active may remain.
- MigrationSucceedsExactly: columns with NOT NULL are taken to be filled, and whether the migrating role sees reconciliations (row-level security is forced on them) is a field. The candidate-evidence part of 015 is not modelled: right after 014 its new column is empty, so its check for conflicts passes.
- SharedRequestsExactly: texts are hashed as they are; the cast to bytea also reads backslash escapes.
- CommittedNumberedFromOne: sequence numbers are unbounded, and committed events are never deleted.
- DerivedExactly: exact reals stand for binary floating point, so sums and quotients carry no rounding error, infinities or NaN.
- PairValuesExactly: the same; with binary floats a derived value meets its relation up to rounding.
- RatioMeaning: an identity of exact reals that binary floats meet up to rounding.
- ChangeMeaning: an identity of exact reals that binary floats meet up to rounding.
- ShareMeaning: an identity of exact reals that binary floats meet up to rounding.
- SharesMakeTheWhole: an identity of exact reals that binary floats meet up to rounding.
- BasicTokensParseBack: the numbers' texts are those of decimal notation; signs, exponents, underscores, `inf` and `nan`, which Python's float also reads, do not occur in the tokens the gate extracts.
- ParsedExactly: extraction of a page is a function of the page, and an exception of the PDF library ends the parse with nothing returned. The message texts of warnings are not modelled.
- LocatedExactly: words carry all four coordinates.
- DisplayRoundsExactly: signed zero, NaN, infinities and the exponent range of the decimal context.
- PercentExactly: the exponent a quotient is given among those of equal value is not modelled.
- Regular expressions for periods, redaction, token extraction and exclusion, and the comparison of narrative tokens with the accepted sets (services/api/app/orchestration/quality_gate.py:182-222).
- The migration runner, maintenance jobs, policy table and metric registry: sequences of calls and tables of constants without state of their own.
