# Echo Veil: verified models of its hardest behaviour

This project models six parts of Echo Veil and proves properties of whole runs of
them. Code that changes state step by step is modelled by classes and loops that are
proved against a specification function; what the code promises is then proved about
that function.

- **Broker.** `FairQueue` and `Fairness` specify the bounded round-robin queue and
  prove its service order, its fairness and its waiting bound; `RequestQueue` is the
  queue object with its lanes, rotation and count changed in place. `BrokerProtocol`
  is the protocol of connection handlers, the single worker and shutdown as a state
  machine over atomic steps; `BrokerSafety` proves what holds in every interleaving,
  `BrokerAnswers` what each answer and counter means and how a stop ends, and
  `BrokerFairness` carries the waiting bound over to its runs. `Frames` is the framing on
  a socket that delivers arbitrary pieces.
- **Request lines.** `Lines` is the bounded line reader and the plain splitting at
  newlines that it refines.
- **Evidence budget.** `Decimals` and `TokenEstimate` prove that the self-referential
  token estimate settles; `SafeJson` and `JsonReader` are the JSON writer and a reader that
  inverts it; `EvidenceText` is the rendering with its exact length and `EvidenceReading`
  what a host reads in it; `EvidenceOmission` the order and effect of omissions; `EvidenceBudget` the records and
  counters changed in place until the host accepts the text.
- **Capture.** `Packing` proves greedy contiguous packing optimal; `CaptureUnits` cuts
  sessions and batches and `CaptureCoverage` says what they hold; `BoundedTexts` and `CaptureRecords` screen what a generator
  answers; `CaptureRecovery` bisects refused batches and `CaptureJournal` accounts for its
  calls; `CaptureResume` checkpoints and resumes; `RowSelection` is the round-robin sample.
- **Profile keyring.** `KeyStorage` is everything durable (manifest, key files, custody
  descriptors, receipt, native store), the atomic writes on it and what opening checks.
  `KeyringPlans` gives each operation's writes in order. `KeyringSafety`, `KeyringSteps`,
  `Chains` and `KeyringRuns` prove that a stop after any of them leaves a profile that
  opens with its roots, over any run, and that epochs never repeat. `KeyringGuards` says
  what opening establishes and exactly when each operation writes, `KeyringRemoval` what
  it changes and how long the raw root stays. `KeyringEffects` proves what completed operations and whole procedures achieve, `KeyringLimits` exactly
  when a failed or interrupted operation leaves more than a profile that opens, and
  `KeyringStale` what an open keyring does after a publication that landed unnoticed.
  `KeyringMemory` and `ProfileKeyring` are the keyring object with its loaded keys and
  derived-key cache. `RecordShield` and `RecordMigration` are the records under the
  changing keys.
- **Texts.** `ScopeBinding` is the scope-binding message and the normalised scope, and
  `BindingMessages` shows that it says what a manifest's binding says;
  `Base64`, `FlatJson` and `ScopedCodecs` are the stored form of protected objects.
- `Outcomes` and `Sequences` are shared.

Cryptography, hashes, clocks and everything random are parameters. Message
authentication, key identifiers and key derivation are arbitrary functions; where tags
or derived keys must not collide, a lemma says so in its requires. AES-GCM is ideal in
the sense of RFC 5116, sections 2.1 and 2.2. Random roots and references are assumed not
to repeat what an earlier operation left behind (`KeyringPlans.Fresh`). Python's
`casefold`, `isprintable` and `int` on text, the SHA-256 identifiers of capture units
and questions, and the JSON size of a capture unit are function parameters. Deadlines,
disconnects and scheduling are nondeterministic steps.

Where the code does less than a reader might expect, the code is followed and the exact
boundary is proved:

- Omitting a payload shorter than its 29-character reason makes the evidence longer
  (`EvidenceOmission.OmissionChangesLength`), so the fitting prefix is the first that
  fits and sizes need not fall.
- Two token estimates can both be exact (`TokenEstimate.TwoExactEstimates`; 295 other
  bytes allow 99 and 100). The stored one is the one the iteration reaches; whether the
  text fits does not depend on which.
- A rotation whose manifest was replaced but whose publication is then reported as failed
  is cleaned up by removing the new active root
  (`KeyringLimits.CleanupIsSafeUnlessPublished`).
- Any other manifest that landed although its write raised leaves the open keyring behind
  the disk. The profile stays safe, but the next manifest it writes starts from the older
  one and takes back what had landed (`KeyringStale.ContinuationIsSafe`,
  `KeyringStale.ContinuationWithdraws`). The results on epochs over runs in `KeyringRuns`
  are about keyrings that reopen after a failed write.
- The worker of the broker catches only `Exception`. A dispatch that ends with anything
  else sets the event of its job, leaves no response and ends the worker; the handler then
  answers with the general failure (`BrokerSafety.ResponseUnlessAborted`).
- A second preparation of custody blocks both
  (`KeyringLimits.SecondPreparationBlocksActivation`).
- A retirement of the raw root that stopped between removing the file and removing the
  receipt is not completed by another one, because a missing key file is reported as an
  unavailable key (`KeyringLimits.RetirementIsRepeatable`). The profile opens all the same.
- At the last epoch a rotation fails after it stored a root it will not use
  (`KeyringLimits.NoRotationPastTheLastEpoch`).
- Recovery needs a non-empty batch: `CaptureRecovery.CaptureValidated` requires one unit
  because bisecting an empty batch would not end. The batches of
  `CaptureUnits.CaptureBatches` are never empty.

## Model

| member | source | states |
|---|---|---|
| `RequestQueue.FairRequestQueue.constructor` | src/echo_veil/agent_broker.py:58-65 | a new queue is valid, open and empty, with the given depth and quota |
| `RequestQueue.FairRequestQueue.Submit` | src/echo_veil/agent_broker.py:67-84 | refuses in the order closed, saturated, over quota; otherwise the job is last in its caller's lane and a new caller last in the rotation; nothing else changes |
| `RequestQueue.FairRequestQueue.Get` | src/echo_veil/agent_broker.py:86-104 | gives the first job of the first caller, who goes to the end of the rotation or out of the queue; nothing when empty |
| `RequestQueue.FairRequestQueue.Close` | src/echo_veil/agent_broker.py:106-114 | closes the queue, empties it and returns exactly the jobs that were waiting, each once |
| `RequestQueue.FairRequestQueue.Cancel` | src/echo_veil/agent_broker.py:116-134 | removes exactly the given job object and says whether it was waiting; the order of all others stays |
| `FairQueue.SubmitKeepsValid` | src/echo_veil/agent_broker.py:67-84 | an accepted submission keeps every bound and the agreement of lanes, rotation and count |
| `FairQueue.GetKeepsValid` | src/echo_veil/agent_broker.py:94-104 | taking a job keeps the queue valid and lowers the count by one; from an empty queue nothing is taken |
| `FairQueue.CancelKeepsValid` | src/echo_veil/agent_broker.py:116-134 | cancelling keeps the queue valid and lowers the count by one exactly when the job was waiting |
| `FairQueue.SubmitAnswers` | src/echo_veil/agent_broker.py:67-84 | which offers are accepted and which refusal the others get, told from the jobs that wait; an accepted job is the last of its own lane |
| `FairQueue.WaitingAfterSubmit` | src/echo_veil/agent_broker.py:67-84 | after a submission exactly the old jobs and, if accepted, the new one are waiting |
| `FairQueue.WaitingAfterGet` | src/echo_veil/agent_broker.py:94-104 | after a get exactly the old jobs without the one that was taken are waiting |
| `FairQueue.WaitingAfterCancel` | src/echo_veil/agent_broker.py:116-134 | after a cancellation exactly the old jobs without the cancelled one are waiting |
| `FairQueue.PendingIsExact` | src/echo_veil/agent_broker.py:106-114 | the jobs handed out by closing are exactly the waiting ones, without repetition and as many as were counted |
| `Fairness.GetLowersRank` | src/echo_veil/agent_broker.py:94-104 | every remaining job's rank (place of its caller plus depth times its place in the lane) falls with each get |
| `Fairness.SubmitKeepsRank` | src/echo_veil/agent_broker.py:67-84 | no submission changes the rank of a waiting job |
| `Fairness.CancelNeverRaisesRank` | src/echo_veil/agent_broker.py:116-134 | no cancellation raises the rank of another job |
| `Fairness.RankBelowDepthTimesQuota` | src/echo_veil/agent_broker.py:67-84 | the rank of a waiting job is below depth times quota |
| `Fairness.TakenAfterRankGets` | src/echo_veil/agent_broker.py:67-134 | under any history of offers, gets and cancellations a job that is not cancelled is taken once more gets happened than its rank |
| `Fairness.TakenWithinDepthTimesQuotaGets` | src/echo_veil/agent_broker.py:67-134 | so it is taken within depth times quota gets |
| `Fairness.ServedInOrder` | src/echo_veil/agent_broker.py:67-134 | per caller, the jobs taken followed by those still waiting are the accepted jobs in order less the withdrawn ones |
| `Fairness.OneTurnEachWhileWaiting` | src/echo_veil/agent_broker.py:94-104 | while a caller waits unserved, any other caller is served at most once |
| `BrokerFairness.TakenAfterRankGets` | src/echo_veil/agent_broker.py:67-134 | in any run of the whole broker, while a job waits and neither its handler withdraws it nor the queue closes, the worker has it once more gets happened than its rank |
| `BrokerFairness.TakenWithinDepthTimesQuotaGets` | src/echo_veil/agent_broker.py:67-134 | so depth times quota gets of the worker include the one that takes the job |
| `BrokerSafety.StepKeepsInv` | src/echo_veil/agent_broker.py:452-656 | each atomic step of handlers, worker and shutdown keeps the protocol invariant |
| `BrokerSafety.RunIsSafe` | src/echo_veil/agent_broker.py:452-656 | every state of every interleaving satisfies the invariant |
| `BrokerSafety.EveryJobHasOneOwner` | src/echo_veil/agent_broker.py:507-656 | in every reachable state each job is in exactly one of: being submitted or refused, queued, withdrawn, with the worker, drained, completed; a completed one has its response exactly when its dispatch did not abort |
| `BrokerSafety.AnswersLast` | src/echo_veil/agent_broker.py:565-605 | once a job is answered its answer never changes |
| `BrokerSafety.AnswerTellsWhetherDispatched` | src/echo_veil/agent_broker.py:572-601 | a request that became a job is answered with a dispatcher outcome exactly when it was dispatched |
| `BrokerSafety.RefusedMeansNeverDispatched` | src/echo_veil/agent_broker.py:572-587 | a job answered as refused or past its deadline is never dispatched, before or after, in the whole run |
| `BrokerSafety.NoJobIsDispatchedTwice` | src/echo_veil/agent_broker.py:610-656 | dispatches are distinct jobs and the counters bound their number; at most depth plus two jobs are live |
| `BrokerSafety.WorkerNeverHoldsAWithdrawnJob` | src/echo_veil/agent_broker.py:619-631 | the worker never holds a job that a handler withdrew |
| `BrokerSafety.CollectedAnswerIsTheResponse` | src/echo_veil/agent_broker.py:588-601 | a handler that sees completion answers with the response, and with the general failure exactly when there is none because the dispatch aborted |
| `BrokerSafety.NoneLeftUnanswered` | src/echo_veil/agent_broker.py:507-519 | after the worker exit and the drain every handler still waiting finds its event set, with a response exactly unless its dispatch aborted |
| `BrokerSafety.AbortedByItsDispatch` | src/echo_veil/agent_broker.py:636-656 | a job counts as aborted exactly when an earlier step of the run ended its dispatch outside the exception handler |
| `BrokerSafety.ResponseUnlessAborted` | src/echo_veil/agent_broker.py:588-601 | over any run a completed job lacks its response exactly when its own dispatch aborted, and an answer it has is then the general failure |
| `BrokerAnswers.CauseFixesTheAnswer` | src/echo_veil/agent_broker.py:452-656 | in any run, the step that settles a job (a refusal, a deadline, a late decision, a dispatch that ends or aborts, the drain) is the only one that does, and its answer is the one the job gets |
| `BrokerAnswers.EveryAnswerHasACause` | src/echo_veil/agent_broker.py:452-656 | and every answer was settled by such a step |
| `BrokerAnswers.OutcomeIsTheAnswer` | src/echo_veil/agent_broker.py:636-654 | a dispatch that returns a result is answered with that result, one that raises with the general failure |
| `BrokerAnswers.LateIsTheDeadline` | src/echo_veil/agent_broker.py:619-631 | a job the worker took too late is answered with the deadline |
| `BrokerAnswers.DrainedIsStopping` | src/echo_veil/agent_broker.py:507-514 | a job the shutdown drains is answered that the broker stops |
| `BrokerAnswers.CountersAreExact` | src/echo_veil/agent_broker.py:491-656 | each counter is, over any run, the number of the steps it is for |
| `BrokerAnswers.SlotsAreExact` | src/echo_veil/agent_broker.py:491-526 | the connection slots held are those taken and not given back, one for each connection |
| `BrokerAnswers.ConnectionsTakeFreeSlots` | src/echo_veil/agent_broker.py:491-526 | in any run at most depth + 2 connections hold a slot; one is let in exactly when a slot is free and turned away exactly when all are held, while the broker serves |
| `BrokerAnswers.WaitsWhileInWork` | src/echo_veil/agent_broker.py:572-603 | in any run a waiting handler can collect exactly when its job is in no queue, with no worker and on no shutdown list; its bounded wait runs out only while the job is there |
| `BrokerAnswers.HandlerTakesFewSteps` | src/echo_veil/agent_broker.py:572-611 | from any state of any run a handler takes at most as many steps as are left to it, five from its arrival, and nobody else moves it |
| `BrokerAnswers.HandlerCanGoOn` | src/echo_veil/agent_broker.py:572-611 | a handler can take a step exactly unless it has left or must wait for a job that is still in work |
| `BrokerAnswers.JobKeepsItsCaller` | src/echo_veil/agent_broker.py:565-571 | a job keeps the caller it arrived with |
| `BrokerAnswers.EndsAreRequested` | src/echo_veil/agent_broker.py:507-508 | a server that no longer serves has requested the stop, and a worker ends only by a stop or an aborted dispatch |
| `BrokerAnswers.StopEndsTheWorker` | src/echo_veil/agent_broker.py:610-614 | after a stop the worker takes at most five steps and dispatches at most one more job |
| `BrokerAnswers.WorkerCanGoOn` | src/echo_veil/agent_broker.py:610-656 | while it runs the worker always has a step |
| `BrokerAnswers.ShutdownCanGoOn` | src/echo_veil/agent_broker.py:506-514 | once the shutdown has begun and until its drain is over it has a step |
| `BrokerAnswers.DrainWindsDown` | src/echo_veil/agent_broker.py:507-514 | and each of its steps brings it closer to its end |
| `BrokerAnswers.ShutdownIsOnce` | src/echo_veil/agent_broker.py:506-514 | in any run the shutdown begins, closes the queue and ends its drain, once each and in this order |
| `BrokerSafety.HandlerFinishesAlone` | src/echo_veil/agent_broker.py:577-601 | after shutdown each handler reaches its answer by its own enabled steps, with a falling measure |
| `Lines.ReadMcpLine` | src/echo_veil/agent_cli.py:1593-1606 | consumes exactly one line, tells whether it is over the limit, and returns it whole when it is not |
| `Lines.RequestsAre` | src/echo_veil/agent_cli.py:1593-1606 | one request for each line, in order; a line within the limit is whole, a longer one is cut one byte past it and flagged |
| `Lines.ReadAllRequests` | src/echo_veil/agent_cli.py:1593-1606 | repeated reading yields every line of the stream once, in order, each whole or flagged |
| `Lines.LinesAreTheSplit` | src/echo_veil/agent_cli.py:1593-1606 | the reference splitting is the only cut of a stream into terminated lines and an unterminated rest |
| `Lines.LinesLoseNothing` | src/echo_veil/agent_cli.py:1593-1606 | the lines joined are the stream |
| `Frames.ReadFrame` | src/echo_veil/agent_broker.py:215-232 | whatever pieces arrive, an accepted frame is the first line within the limit with only blanks received after it, one framed message is accepted, and each refusal has its reason |
| `Frames.RoundTrip` | src/echo_veil/agent_broker.py:215-248 | a framed message is read back unchanged in any pieces; an overlong one is not sent |
| `TokenEstimate.SettlesInFourRounds` | src/echo_veil/agent_preflight.py:594-609 | from any start whose digits fit the text, the fourth rendering at the latest carries its own exact estimate |
| `TokenEstimate.AlwaysSettles` | src/echo_veil/agent_preflight.py:594-609 | the eight rounds always suffice and end at an exact estimate |
| `TokenEstimate.SettlesAtTheNearest` | src/echo_veil/agent_preflight.py:594-609 | from below the iteration finds the least exact estimate, from above the greatest |
| `TokenEstimate.TwoExactEstimates` | src/echo_veil/agent_preflight.py:594-609 | exactly when two neighbouring estimates are both exact |
| `TokenEstimate.WithinLimitByBase` | src/echo_veil/agent_preflight.py:612-616 | an exact estimate is within 2400 tokens exactly when the rest of the text has at most 7196 bytes |
| `TokenEstimate.TokenLimitIsTheTighter` | src/echo_veil/agent_preflight.py:612-616 | a text within the token limit is within the character limit |
| `EvidenceText.RenderedLength` | src/echo_veil/agent_preflight.py:664-692 | the length of the rendered JSON and its label as a sum over records, counters and the other members |
| `SafeJson.AsciiBytes` | src/echo_veil/agent_preflight.py:1246-1258 | the rendering is ASCII, so its bytes are its characters |
| `SafeJson.WrittenIsSafe` | src/echo_veil/agent_preflight.py:1246-1258 | whatever JSON value is written, the text is printable ASCII on one line without the four characters of markup |
| `JsonReader.ReadsBack` | src/echo_veil/agent_preflight.py:1246-1258 | every JSON value is read back from what is written, escapes and surrogate pairs included |
| `EvidenceReading.EvidenceReadsBack` | src/echo_veil/agent_preflight.py:664-692 | from the rendered text a host reads evidence, logic roots and results under their own keys, each record with its payload, size and reason, and both counters |
| `EvidenceReading.RenderingIsSafe` | src/echo_veil/agent_preflight.py:664-692 | the JSON is the last line of the text and safe to embed |
| `EvidenceReading.BudgetSaysItsLimits` | src/echo_veil/agent_preflight.py:464-480 | the budget names its estimator and both limits |
| `EvidenceOmission.GroupIsSorted` | src/echo_veil/agent_preflight.py:632-640 | a group is in order of falling payload size, stably, with every record once |
| `EvidenceOmission.OrderHasEveryRecordOnce` | src/echo_veil/agent_preflight.py:619-641 | the omission order has every record exactly once |
| `EvidenceOmission.OrderIsByTurn` | src/echo_veil/agent_preflight.py:619-641 | context evidence gives way before logic roots and these before results; within a group the larger payload first, of equals the earlier |
| `EvidenceOmission.ReasonsAreCounted` | src/echo_veil/agent_preflight.py:599-602 | the counter is the number of records with an omission reason |
| `EvidenceOmission.OmittedExactlyThePrefix` | src/echo_veil/agent_preflight.py:583-588 | after k omissions exactly the records among the first k of the order have lost their payload |
| `EvidenceOmission.OmissionChangesLength` | src/echo_veil/agent_preflight.py:586-588 | what one omission does to the length: payload text against 29 characters and a longer counter, so it may grow |
| `EvidenceOmission.EstimateStaysUsable` | src/echo_veil/agent_preflight.py:586-589 | the estimate before an omission is a start from which the iteration after it settles |
| `EvidenceBudget.AcceptedWhenItFits` | src/echo_veil/agent_preflight.py:481-495 | a rendering with its exact estimate is accepted by the host exactly when its other text fits |
| `EvidenceBudget.RefusalIs` | src/echo_veil/agent_preflight.py:481-495 | which refusal the host gives: a wrong estimate first, then a text that does not fit |
| `EvidenceBudget.HostReadsTheBudgeted` | src/echo_veil/agent_preflight.py:579-591 | what the host gives out after the budget was applied is read as the input records, of which exactly those that gave way show the omission, with an exact count and estimate |
| `EvidenceBudget.PreflightEvidence.RenderOutput` | src/echo_veil/agent_preflight.py:664-692 | renders the current records and counters; reading the text gives each list under its own key and both counters |
| `EvidenceBudget.PreflightEvidence.CountOmitted` | src/echo_veil/agent_preflight.py:599-602 | counts the records that carry an omission reason |
| `EvidenceBudget.PreflightEvidence.Refresh` | src/echo_veil/agent_preflight.py:594-609 | recounts, then iterates the stored estimate as the fixed-point specification does; nothing else changes |
| `EvidenceBudget.PreflightEvidence.GiveWay` | src/echo_veil/agent_preflight.py:583-591 | one turn of the omission loop goes from one candidate to the next and tells whether it fits |
| `EvidenceBudget.PreflightEvidence.ApplyBudget` | src/echo_veil/agent_preflight.py:579-591 | ends at the shortest fitting prefix of the omission order with exact counters, accepted by the host; fails exactly when no prefix fits |
| `Packing.PackIsACut` | scripts/longmemeval_benchmark.py:1087-1096 | greedy packing loses, doubles and reorders nothing and keeps each part within its limit |
| `Packing.PackIsShortest` | scripts/longmemeval_benchmark.py:1087-1096 | no contiguous cut within the same hereditary limit has fewer parts |
| `CaptureUnits.WindowsAreAShortestCut` | scripts/longmemeval_benchmark.py:1087-1096 | a session's windows hold each message once in order, within the limits, and are as few as possible |
| `CaptureUnits.BatchesAreAShortestCut` | scripts/longmemeval_benchmark.py:1107-1134 | the batches hold each unit once in order, within the limits, and are as few as possible |
| `CaptureCoverage.EveryMessageIsInAUnit` | scripts/longmemeval_benchmark.py:1052-1096 | the units of the sessions hold every message once and in order |
| `CaptureCoverage.UnitsAreWindows` | scripts/longmemeval_benchmark.py:1055-1096 | each unit is the window with its number of one session: at most four messages, one after the other, each with its own place, within the character limit when more than one |
| `CaptureCoverage.BatchesHoldEveryMessage` | scripts/longmemeval_benchmark.py:1099-1134 | so the batches hold every message of the question once and in order |
| `CaptureCoverage.BatchesAreWithinLimits` | scripts/longmemeval_benchmark.py:1107-1134 | each batch is a prompt of one to four units within the character limit |
| `CaptureUnits.OversizedUnitHasNoCut` | scripts/longmemeval_benchmark.py:1109-1116 | when any cut exists every unit fits alone, so the refusal of an oversized unit refuses nothing that could be cut |
| `CaptureUnits.PromptLength` | scripts/longmemeval_benchmark.py:1118-1124 | the length compared with the prompt limit is that of the prompt's JSON |
| `CaptureUnits.SessionUnits` | scripts/longmemeval_benchmark.py:1055-1096 | the window loop adds exactly the session's labelled windows, or reports an identifier collision |
| `CaptureUnits.CaptureUnits` | scripts/longmemeval_benchmark.py:1052-1096 | all sessions' units, or an error exactly when two identifiers collide |
| `CaptureUnits.PackUnits` | scripts/longmemeval_benchmark.py:1107-1134 | the batch loop builds the greedy batches, or stops exactly when some unit fits no prompt |
| `CaptureUnits.CaptureBatches` | scripts/longmemeval_benchmark.py:1099-1134 | the batches and the unit count, or the first error in the order collision, too many units, unit too large |
| `BoundedTexts.BoundedTextIs` | scripts/longmemeval_benchmark.py:829-835 | succeeds exactly when the text without its blank ends is not empty and within the bound, and then gives that text |
| `BoundedTexts.EveryTextHasACore` | scripts/longmemeval_benchmark.py:829-835 | every text is blanks, a core without blank ends, and blanks; stripping gives the core |
| `CaptureRecords.ScreenRecords` | scripts/longmemeval_benchmark.py:1137-1188 | the loop with its dictionary, counts and seen keys computes the screening specification |
| `CaptureRecords.KeptIsAFilter` | scripts/longmemeval_benchmark.py:1170-1188 | what is kept was read and not copied, keys are distinct, and no key of an uncopied record is lost |
| `CaptureRecords.KeptAreTheFirst` | scripts/longmemeval_benchmark.py:1174-1187 | kept are, in order, exactly the records that are no copies and before which no other that is no copy says the same of the same unit |
| `CaptureRecords.RejectedAreTheCopies` | scripts/longmemeval_benchmark.py:1174-1180 | the rejections are the number of records whose long payload stands in a message of their unit |
| `CaptureRecords.ReadRawIs` | scripts/longmemeval_benchmark.py:1153-1173 | when a raw record can be read, and what it then says |
| `CaptureRecords.RefusedExactly` | scripts/longmemeval_benchmark.py:1141-1173 | an answer is refused exactly when it is no record list, has too many records, one that cannot be read, or a fifth of one unit |
| `CaptureRecords.ScreenedIsSettled` | scripts/longmemeval_benchmark.py:1137-1188 | whatever the answer, the kept records belong to the units, are bounded, at most four each, not copied and have distinct keys |
| `CaptureRecords.RevalidationIsTheIdentity` | scripts/longmemeval_benchmark.py:1348-1355 | screening stored records gives them back with nothing rejected exactly when they are settled |
| `CaptureRecords.SettledJoin` | scripts/longmemeval_benchmark.py:1213-1220 | settled records of disjoint units are settled together |
| `CaptureRecovery.CallsAreBounded` | scripts/longmemeval_benchmark.py:1191-1220 | n units take at most 3n-1 calls; on success at most 2n-1 recoveries, each explaining one or two calls |
| `CaptureRecovery.CapturedIsSettled` | scripts/longmemeval_benchmark.py:1191-1220 | a successful recovery returns settled records of the batch's units |
| `CaptureRecovery.AttemptScreens` | scripts/longmemeval_benchmark.py:1196-1197 | every call with its screening, for any generator, gives settled records or is refused |
| `CaptureRecovery.FailsOnlyOnOneUnit` | scripts/longmemeval_benchmark.py:1199-1208 | a batch fails only when one single unit was refused twice in a row |
| `CaptureRecovery.BoundIsReached` | scripts/longmemeval_benchmark.py:1191-1220 | when only the second tries of single units are answered, n units take exactly 3n-1 calls and 2n-1 recoveries |
| `CaptureRecovery.SomeGeneratorReachesTheBound` | scripts/longmemeval_benchmark.py:1191-1220 | for any units there is a generator whose answers, screened, make their recovery take all of them |
| `CaptureJournal.BatchHasAJournal` | scripts/longmemeval_benchmark.py:1191-1220 | the calls behind a batch, made as a work list of groups and their halves says: answered ones hold each unit once and in order, the result has exactly their records and rejections and a recovery for each refused call; a failure ends with one unit refused twice |
| `CaptureJournal.JournalIsDetermined` | scripts/longmemeval_benchmark.py:1191-1220 | the generator's answers determine the calls: two journals of the same work are the same and end alike |
| `CaptureResume.ResultIsUnique` | scripts/longmemeval_benchmark.py:1366-1376 | so the result of a run is the only one its batches and answers allow |
| `CaptureResume.RunSucceedsWhen` | scripts/longmemeval_benchmark.py:1366-1376 | a run fails exactly when no journal works off every batch |
| `CaptureResume.RunInTwoParts` | scripts/longmemeval_benchmark.py:1366-1405 | running the batches is running the first k and then the rest from there |
| `CaptureResume.RunIsAccounted` | scripts/longmemeval_benchmark.py:1366-1376 | a run returns exactly the records of its answered calls in batch order, their rejections, and one recovery for each refused call |
| `CaptureResume.RunIsSettled` | scripts/longmemeval_benchmark.py:1366-1376 | after k batches the records are settled and the count is the number of their units |
| `CaptureResume.CheckpointIsAccepted` | scripts/longmemeval_benchmark.py:1341-1364 | each check on a cached entry passes on a checkpoint and its records come back unchanged |
| `CaptureResume.BoundaryIsUnique` | scripts/longmemeval_benchmark.py:1356-1365 | a unit count is the size of at most one number of batches |
| `CaptureResume.FindPending` | scripts/longmemeval_benchmark.py:1356-1365 | the scan finds the batch boundary, or fails exactly when the count is none |
| `CaptureResume.CheckpointIsFoundAgain` | scripts/longmemeval_benchmark.py:674-723 | what was put for a question is found again under the same source, and other questions find what they found before |
| `CaptureResume.FoundIsConsistent` | scripts/longmemeval_benchmark.py:674-717 | a found entry belongs to the source, counts no more than its units and is complete exactly when all are done |
| `CaptureResume.Resume` | scripts/longmemeval_benchmark.py:1341-1365 | which of the four errors an entry gets; an accepted one is settled and on a boundary, and a checkpoint after k batches resumes exactly at k |
| `CaptureResume.RunBatch` | scripts/longmemeval_benchmark.py:1367-1396 | one batch is captured, counted and checkpointed; a failure leaves the cache unchanged |
| `CaptureResume.RunQuestion` | scripts/longmemeval_benchmark.py:1333-1405 | wherever an earlier run stopped, the result is that of an uninterrupted run: the records of its answered calls in order, with their counts; and the cache again says where this one stopped |
| `CaptureResume.BatchesAreReady` | scripts/longmemeval_benchmark.py:1099-1134 | the batches cut from sessions are not empty and their identifiers are distinct, as the run over them needs |
| `CaptureResume.CaptureQuestion` | scripts/longmemeval_benchmark.py:1299-1405 | from sessions to records: the cut, the resumption and the run, whose records are those of its answered calls, with the error of whichever fails first |
| `RowSelection.SortRowsSorts` | scripts/longmemeval_benchmark.py:994-999 | the sampling sort orders the rows of a type and keeps each as often as it was there |
| `RowSelection.GroupsAre` | scripts/longmemeval_benchmark.py:976-999 | a group has exactly the rows of its type, each as often as given, in the order of the digests of their identifiers |
| `RowSelection.DealRound` | scripts/longmemeval_benchmark.py:1004-1013 | one round gives each type that has rows left one more, until the limit |
| `RowSelection.RoundRobin` | scripts/longmemeval_benchmark.py:1000-1017 | the selection reads the sorted groups by rounds and reaches the limit exactly when there are rows enough |
| `RowSelection.KindsAreBalanced` | scripts/longmemeval_benchmark.py:1004-1013 | of a selection: the rows of each type are a prefix of its sorted rows, and while a type has rows left no other is more than one ahead, and no later one is ahead |
| `RowSelection.SelectionIsDetermined` | scripts/longmemeval_benchmark.py:1000-1018 | there is only one selection of a size that reads the groups by rounds |
| `RowSelection.SelectRows` | scripts/longmemeval_benchmark.py:973-1018 | a sequential selection is the given prefix; a stratified one tells which error comes first and otherwise selects exactly `limit` rows in rounds over the sorted groups, with how far each group was read |
| `KeyStorage.OpensUnderOneScope` | src/echo_veil/agent_security.py:3342-3348 | with collision-free tags a stored profile opens under one scope only |
| `KeyringRuns.EveryStopIsSafe` | src/echo_veil/agent_security.py:2507-3170 | wherever an operation stops among its durable writes the profile opens, and each key listed before and after keeps its root |
| `KeyringRuns.CreateIsSafe` | src/echo_veil/agent_security.py:3172-3192 | a creation that stops is created again or opens with its root |
| `KeyringRuns.RunIsSound` | src/echo_veil/agent_security.py:2281-2296 | in any run of operations stopped anywhere, a created profile always opens |
| `KeyringRuns.RootsNeverChange` | src/echo_veil/agent_security.py:3293-3338 | a key keeps its root for as long as it is listed, over any run |
| `KeyringRuns.ActiveEpochIsLargestEver` | src/echo_veil/agent_security.py:3055-3062 | the active key's epoch is at least every epoch any key ever had, retired ones included |
| `KeyringRuns.EpochsAreNeverShared` | src/echo_veil/agent_security.py:3055-3062 | a key added later has a larger epoch than every key ever listed before |
| `KeyringGuards.OpeningMeans` | src/echo_veil/agent_security.py:3194-3348 | what holds of every listed key of a profile that opens: status, root, epoch, custody, and the binding of the whole |
| `KeyringGuards.RootsComeFrom` | src/echo_veil/agent_security.py:3293-3340 | its root is in its file, or in the native store under a descriptor that is in use, in its place and authenticated |
| `KeyringGuards.OpensWhen` | src/echo_veil/agent_security.py:3194-3348 | and nothing more is needed: a profile of one to eight such keys with every root in its place opens, with these roots |
| `KeyringGuards.BindingFixesTheManifest` | src/echo_veil/agent_security.py:2472-2483 | with authentic tags neither scope, scope id, features nor key epochs can be altered under the same binding |
| `KeyringGuards.DescriptorCannotBeAltered` | src/echo_veil/agent_security.py:3308-3328 | nor can the descriptor of a listed key be altered under the same tag |
| `KeyringGuards.CreateWritesWhen` | src/echo_veil/agent_security.py:3172-3192 | exactly when creating a profile writes |
| `KeyringGuards.EnableWritesWhen` | src/echo_veil/agent_security.py:2507-2551 | exactly when enabling a feature writes |
| `KeyringGuards.BeginWritesWhen` | src/echo_veil/agent_security.py:2981-3039 | exactly when beginning a rotation writes |
| `KeyringGuards.RotationWritesWhen` | src/echo_veil/agent_security.py:3107-3126 | exactly when marking and retiring write |
| `KeyringGuards.PrepareWritesWhen` | src/echo_veil/agent_security.py:2732-2820 | exactly when preparing custody writes |
| `KeyringGuards.ActivateWritesWhen` | src/echo_veil/agent_security.py:2822-2888 | exactly when activating custody writes: one prepared item, authentic, under the active key id and deriving the same keys |
| `KeyringGuards.ComparisonNeverFails` | src/echo_veil/agent_security.py:2862-2880 | in a healthy profile the comparison of derived keys never fails |
| `KeyringGuards.RemovalNeedsAnotherProcess` | src/echo_veil/agent_security.py:2398-2443 | while custody is verified the raw root may be removed exactly when a receipt for it is stored that its own root authenticates and another process wrote |
| `KeyringGuards.RemovalOnceActive` | src/echo_veil/agent_security.py:2943-2960 | once it is active, exactly when the file is there and holds the key |
| `KeyringGuards.NoRemovalOfAFileKey` | src/echo_veil/agent_security.py:2926-2932 | and never while the active key is still a file key |
| `KeyringRemoval.PublishedChangesOnly` | src/echo_veil/agent_security.py:2507-3170 | each operation changes in the manifest exactly what it is for: features, rotation, active key, listed keys, their places, states and epochs |
| `KeyringRemoval.StoredRootIs` | src/echo_veil/agent_security.py:2990-3049 | what a rotation has stored when it publishes: the key file, or the native root under an active descriptor with the same helper |
| `KeyringRemoval.CreationTakesEffect` | src/echo_veil/agent_security.py:3172-3192 | a completed creation lists one active key in its own file, without features or rotation, bound to its scope |
| `KeyringRemoval.ActivatorMayNotRemove` | src/echo_veil/agent_security.py:2921-2941 | after an activation the retirement of the same process writes nothing, while that of another removes the file |
| `KeyringRemoval.RawRootOutlivesItsProcess` | src/echo_veil/agent_security.py:2921-2973 | over any run of the activating process, stopped anywhere, the raw root stays in its file while its key is active |
| `KeyringSteps.EnableIsSafe` | src/echo_veil/agent_security.py:2507-2551 | enabling a feature or record-envelope v3, stopped anywhere, leaves an opening profile with the same roots |
| `KeyringSteps.BeginIsSafe` | src/echo_veil/agent_security.py:2981-3105 | beginning a rotation, stopped anywhere, does so too: the root is stored before the manifest names it |
| `KeyringSteps.RetireIsSafe` | src/echo_veil/agent_security.py:3117-3170 | retiring the old key does so too: the manifest drops it before its files go |
| `KeyringSteps.PrepareIsSafe` | src/echo_veil/agent_security.py:2732-2820 | preparing custody does so too |
| `KeyringSteps.ActivateIsSafe` | src/echo_veil/agent_security.py:2844-2919 | activating custody does so too: the native item is checked and verified before the manifest switches |
| `KeyringSteps.OpaqueOpens` | src/echo_veil/agent_security.py:2897-2910 | the switch to the native item keeps the scope binding valid and the roots as they are |
| `KeyringSteps.RetireFileIsSafe` | src/echo_veil/agent_security.py:2921-2973 | removing the raw root does so too: its descriptor is active before the file goes |
| `KeyringLimits.CleanupIsSafeUnlessPublished` | src/echo_veil/agent_security.py:3076-3099 | after a failed publication and its cleanup the profile opens exactly when the manifest had not been replaced |
| `KeyringLimits.NoRotationPastTheLastEpoch` | src/echo_veil/agent_security.py:3055-3075 | at the last epoch a rotation changes neither manifest nor roots, it only leaves the new root stored |
| `KeyringLimits.SecondPreparationBlocksActivation` | src/echo_veil/agent_security.py:2822-2842 | after a preparation activation is possible exactly when no other descriptor was prepared before |
| `KeyringLimits.RetirementIsRepeatable` | src/echo_veil/agent_security.py:2933-2973 | a second retirement completes an interrupted one unless it stopped between removing the file and the receipt |
| `KeyringStale.FailedPublicationLags` | src/echo_veil/agent_security.py:699-812 | a manifest that lands although its write raises leaves the keyring with an older manifest in memory over a profile that opens |
| `KeyringStale.LaggingIsHealthy` | src/echo_veil/agent_security.py:2281-2296 | reopening instead of going on finds an opening profile with the same roots |
| `KeyringStale.ContinuationIsSafe` | src/echo_veil/agent_security.py:2507-3170 | whatever that keyring does next, stopped anywhere, the profile opens with its roots; once it publishes, all is as though the lost manifest had never landed |
| `KeyringStale.ContinuationWithdraws` | src/echo_veil/agent_security.py:2507-2551 | enabling a feature from there withdraws exactly the features the lost manifest had added and lists every key the keyring remembers |
| `ProfileKeyring.EveryTracedStateOpens` | src/echo_veil/agent_security.py:699-812 | each state the disk goes through during any operation of a keyring opens with the roots there were before it |
| `KeyringMemory.DerivedKeyAgrees` | src/echo_veil/agent_security.py:2570-2610 | a derived key, cached or fresh, is that of the key's root, epoch and purpose |
| `ProfileKeyring.Keyring.constructor` | src/echo_veil/agent_security.py:2281-2296 | a storage that opens gives its manifest, exactly its listed keys and an empty cache; the keyring is valid when the storage is healthy |
| `ProfileKeyring.OpenKeyring` | src/echo_veil/agent_security.py:2281-2296 | opening succeeds exactly on the storages whose manifest, keys and binding pass every check |
| `ProfileKeyring.Keyring.Create` | src/echo_veil/agent_security.py:3172-3192 | without a manifest, creation performs the key file and manifest writes in order and is then open, whatever else was left behind; it is valid when no descriptors were left |
| `ProfileKeyring.Keyring.EnvelopeKey` | src/echo_veil/agent_security.py:2570-2610 | in version 2 the raw root of a file key, in version 3 the key derived from the root for profile, scope id, epoch and purpose, whether cached or not; the cache stays right |
| `ProfileKeyring.Keyring.EnableProfileFeature` | src/echo_veil/agent_security.py:2507-2551 | performs exactly the planned write and keeps memory and disk in agreement |
| `ProfileKeyring.Keyring.BeginRotation` | src/echo_veil/agent_security.py:2981-3105 | draws until an id is new, then performs exactly the planned writes in order; on success the new key is active and the cache is empty |
| `ProfileKeyring.Keyring.LargestListedEpoch` | src/echo_veil/agent_security.py:3056-3061 | the largest epoch in the manifest |
| `ProfileKeyring.Keyring.MarkRotationVerified` | src/echo_veil/agent_security.py:3107-3115 | performs exactly the planned write, only while the rotation is migrating |
| `ProfileKeyring.Keyring.RetirePreviousKey` | src/echo_veil/agent_security.py:3117-3170 | performs exactly the planned writes; the old key leaves memory and its derived keys leave the cache |
| `ProfileKeyring.Keyring.PrepareCustodyMigration` | src/echo_veil/agent_security.py:2732-2820 | performs exactly the planned writes under the stated conditions; memory is unchanged |
| `ProfileKeyring.Keyring.PreparedDescriptor` | src/echo_veil/agent_security.py:2822-2842 | finds the one prepared descriptor, and none when there are more |
| `ProfileKeyring.Keyring.ActivateCustodyMigration` | src/echo_veil/agent_security.py:2844-2919 | performs exactly the planned writes; on success the key is opaque and the cache empty |
| `ProfileKeyring.Keyring.RetireFileCustody` | src/echo_veil/agent_security.py:2921-2973 | performs exactly the planned writes; the raw root is gone when it says so |
| `KeyringEffects.Version3TakesEffect` | src/echo_veil/agent_security.py:2525-2551 | a completed activation of record-envelope v3 keeps the root and gives the key epoch 1 |
| `KeyringEffects.FeatureTakesEffect` | src/echo_veil/agent_security.py:2507-2523 | a completed activation of another feature adds it and changes neither keys, roots, rotation nor scope id |
| `KeyringEffects.RotationTakesEffect` | src/echo_veil/agent_security.py:2981-3105 | a completed beginning makes the new root active with the next epoch and keeps the old one readable |
| `KeyringEffects.MarkTakesEffect` | src/echo_veil/agent_security.py:3107-3115 | a completed marking changes the rotation's state and nothing else |
| `KeyringEffects.RetirementTakesEffect` | src/echo_veil/agent_security.py:3117-3170 | a completed retirement leaves only the new key, and the old root is gone from the storage |
| `KeyringEffects.ActivationTakesEffect` | src/echo_veil/agent_security.py:2844-2919 | a completed activation uses the same root from the native store under the same binding |
| `KeyringEffects.FileRetirementTakesEffect` | src/echo_veil/agent_security.py:2921-2973 | a completed retirement of the file removes the raw root and the receipt, and the key still opens |
| `KeyringEffects.RotationReplacesTheRoot` | src/echo_veil/agent_security.py:2981-3170 | beginning, marking and retiring end with exactly the new root, the old one gone |
| `KeyringEffects.CustodyMovesTheRoot` | src/echo_veil/agent_security.py:2732-2973 | preparing, activating and retiring in another process end with the same root in the native store and no raw copy |
| `RecordShield.ProtectThenReveal` | src/echo_veil/agent_security.py:3651-3861 | what is protected under the active key is revealed again, whatever the key's custody |
| `RecordShield.ReencryptKeepsPlaintext` | src/echo_veil/agent_security.py:3870-3918 | reencryption succeeds exactly when the record opens and the target can take it, and keeps the plaintext |
| `RecordShield.OpaqueCustodyNeedsVersion3` | src/echo_veil/agent_security.py:2570-2610 | on a switch to opaque custody exactly the version-3 records stay readable |
| `RecordShield.EnvelopeKeyIs` | src/echo_veil/agent_security.py:2570-2610 | which key serves an envelope, with its derivation domain written out |
| `RecordShield.KeysAreSeparate` | src/echo_veil/agent_security.py:2591-2606 | with derivation that never repeats, two derived keys are equal exactly for the same root, epoch and purpose |
| `RecordShield.ProtectedAs` | src/echo_veil/agent_security.py:3651-3694 | a record is protected under the active key in the version that the features call for |
| `RecordShield.OnlyInItsOwnRecord` | src/echo_veil/agent_security.py:3833-3861 | a ciphertext is revealed only in the record it was made for: not under another id, purpose, scope, version, key or nonce |
| `RecordShield.NotUnderAnotherPurpose` | src/echo_veil/agent_security.py:2591-2606 | the key for another purpose does not open it, whatever context is claimed |
| `RecordMigration.ActionKeepsReadable` | src/echo_veil/agent_memory.py:6115-6195 | every write, migration and key step stopped anywhere keeps every record readable with what was last written |
| `RecordMigration.EveryRecordStaysReadable` | src/echo_veil/agent_memory.py:6115-6195 | so over any run from a new profile |
| `RecordMigration.RotatingDrainsOne` | src/echo_veil/agent_memory.py:6161-6179 | migrating a record takes exactly one off the old key; only an opaque target cannot take a version-2 record |
| `RecordMigration.OldKeyNeverGrows` | src/echo_veil/agent_security.py:3664-3692 | no action puts a record on the old key of a rotation |
| `RecordMigration.ActionKeepsDrained` | src/echo_veil/agent_memory.py:6180-6186 | a rotation marked verified has no record on its old key, ever after |
| `RecordMigration.RetirementIsAlwaysAllowed` | src/echo_veil/agent_memory.py:6888-6894 | in any run from a new profile, whenever the rotation is marked verified the check for remaining records before retirement passes |
| `ScopeBinding.ScopeBindingMessage` | src/echo_veil/agent_security.py:136-155 | the loops build the specified message |
| `ScopeBinding.BindingIsInjective` | src/echo_veil/agent_security.py:136-155 | bindings without NULs share no message: scope id, scope, feature list and key-epoch list are all determined |
| `ScopeBinding.MessageLayout` | src/echo_veil/agent_security.py:136-155 | split at its NULs the message is the title, scope id, scope, each feature after its word, and each key id and epoch after theirs |
| `ScopeBinding.NulWouldCollide` | src/echo_veil/agent_security.py:136-155 | with a NUL in the scope two different bindings would share a message |
| `BindingMessages.OneTextPerMessage` | src/echo_veil/agent_security.py:2472-2483 | two manifests have the same binding text exactly when scope, scope id, feature set and key epochs are the same |
| `BindingMessages.FeaturesAreInOrder` | src/echo_veil/agent_security.py:2472-2483 | the features are written in the order of their names |
| `ScopeBinding.NormalizedScope` | src/echo_veil/agent_security.py:115-126 | a normalised scope has no NUL and normalises to itself |
| `ScopeBinding.NormalizesToItsWords` | src/echo_veil/agent_security.py:115-126 | a scope is accepted exactly when its words joined by single spaces are not empty, short enough and printable, and keeps its words |
| `Base64.RoundTrip` | src/echo_veil/agent_security.py:3449-3454 | URL-safe Base64 (section 5 of RFC 4648) decodes to what was encoded |
| `Base64.EncodedIsUrlSafe` | src/echo_veil/agent_security.py:3449-3454 | the letters are those of the URL-safe alphabet, padding only at the end |
| `Base64.DecodesWhen` | src/echo_veil/agent_security.py:3497-3507 | exactly whole groups of letters with at most two padding signs at the end are decoded, each sign for one octet less |
| `Base64.AlphabetsAgree` | src/echo_veil/agent_security.py:3497-3507 | the letters of both alphabets are read alike |
| `FlatJson.ObjectReadsBack` | src/echo_veil/_json.py:14-50 | a compact object is read back member by member |
| `FlatJson.PlainNeedsNoEscape` | src/echo_veil/agent_security.py:3445-3463 | the plain characters are exactly those that need no escape outside of embedded text |
| `FlatJson.OnlyWrittenIsRead` | src/echo_veil/_json.py:14-50 | a text is read as a list of members exactly when it is the one written for them and they are all plain, so nothing else is accepted |
| `ScopedCodecs.SourceSpellingIsDistinct` | src/echo_veil/agent_security.py:3445-3463 | the stored keys are pairwise different and need no escapes, which the round trips rest on |
| `ScopedCodecs.VectorReadsBack` | src/echo_veil/agent_security.py:3445-3520 | every valid vector is read back unchanged from its stored form |
| `ScopedCodecs.VectorFits` | src/echo_veil/agent_security.py:3465-3471 | the stored form of a valid vector is never over the reader's limit |
| `ScopedCodecs.BlobReadsBack` | src/echo_veil/agent_security.py:3565-3632 | every valid blob is written and read back unchanged |
| `ScopedCodecs.BlobFits` | src/echo_veil/agent_security.py:3565-3584 | the blob writer's own size check never fails; the form has at most 1750 characters |
| `ScopedCodecs.StoredVectors` | src/echo_veil/agent_security.py:3445-3520 | in the spelling of the source every valid vector is read back unchanged and within the limit |
| `ScopedCodecs.StoredBlobs` | src/echo_veil/agent_security.py:3565-3632 | in the spelling of the source every valid blob is stored and read back unchanged |
| `ScopedCodecs.AcceptedVector` | src/echo_veil/agent_security.py:3465-3520 | an accepted vector is the content of an object with exactly its keys, the fixed fields as they must be, every bound kept |
| `ScopedCodecs.AcceptedBlob` | src/echo_veil/agent_security.py:3587-3632 | the same of an accepted blob |

## Left out

- The wait loop of `get` and its condition variable: a get is one atomic step that finds a job or none.
- Python's order of dictionary values in `close`: the drained jobs are determined as a set without repetition, in the order of the specification's lanes.
- Sockets, peer credentials, threads, join timeouts and the socket file of the broker. How a request is validated is one nondeterministic step that frees the connection's slot (the step `RejectRequest` of `BrokerProtocol`).
- Queue-wait and latency samples of the broker's metrics; the counters are modelled.
- The identity, permission and symbolic-link checks on files, on every platform: only atomic replace, create-new and unlink are durable steps.
- Failing writes other than stops: a step that raises without landing is a stop before it. A manifest write that lands and still raises is treated in `KeyringLimits` and `KeyringStale`; other writes that do so are not.
- The clients of the native key helper and their cache in the keyring: calls go to the native store directly.
- Generation counters, portable export and restore drills of the native helper.
- Manifest JSON syntax: a manifest is a value; its field-set and type checks are those of the datatype.
- `ProfileKeyring.Keyring.constructor`: requires a storage that opens; `ProfileKeyring.OpenKeyring` refuses all others, with one refusal for the errors that the source tells apart.
- `ProfileKeyring.Keyring.Create`: a key file of the same name is excluded; the source stops there, and `KeyringPlans.CreatePlan` is then empty.
- `ProfileKeyring.Keyring.BeginRotation`: takes the sequence of roots that will be drawn, of which one has a new id; that the source would draw for ever otherwise is not modelled.
- Record stores, tombstones, quarantine and batch limits of a rotation: a record is replaced in one step.
- Overwriting plaintext buffers with zeros, and the check that a revealed vector is finite.
- `FlatJson.ObjectReadsBack`: states the round trip of compact objects with plain strings, natural numbers and one-element lists of them; other JSON is refused here although the source's decoder reads it.
- `FlatJson.OnlyWrittenIsRead`: is about this reader; the source's decoder also takes blanks, escapes and members in any order of the same object.
- `ScopedCodecs.AcceptedVector`, `ScopedCodecs.AcceptedBlob`: speak of the texts that this reader takes, for the same reason.
- The members of signed evidence that a budget step does not touch are arbitrary JSON; signing, the wording of the fixed lines before the JSON, and characters that are half of a surrogate pair are not modelled. A JSON number is its text.
- Entries of the capture cache are typed values, so the checks on JSON types and elapsed time are not modelled; nor are the cache file, its digest and its size limit.
- The deduplication across sessions and the storing of captured records after capture.
- The order of rows with equal digests beyond what a sort guarantees.
- Deployment and host-authority checks, the MCP dispatch table, benchmark reporting, archives, confidence and approximate search: small or numerical, and outside these protocols.
