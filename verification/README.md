# job_ftch: a verified model of its durable and deterministic cores

A Dafny model of five parts of job_ftch and proofs of what they promise. `dafny verify dfyconfig.toml` checks
everything.

**Publication** (`PublicationProtocol`, `ChannelPublisher`, `PublishAccounting`, `PublishReruns`). `publish_jobs`
reserves a card's identities (job id, canonical URL) in a durable outbox, sends the card, and confirms, releases or
leaves the reservations, depending on how the send ended. The protocol is a state machine with one atomic step per
`await`, over an outbox that any number of publishers, an operator and dying processes share; its theorems hold for
every sequence of allowed steps. The class `Publisher` is the code. It can only act through allowed steps, before
each `await` arbitrary steps of others happen, and its contracts say what a run leaves behind: of every attempt it
began, in the outbox, and in the stored lists and receipts. The outbox is modelled by its contract: insert if
absent, and conditional release and confirm of a record that is still exactly the caller's.

**LLM quota** (`LlmQuota`). The persisted run-state keys and the three entry points that read and overwrite them,
proved equal to functions on the stored state. The guarantees are about all histories of calls, and for any clock
readings but where one says that the clock runs forward.

**Batch probing** (`IngestBatch`, `IngestResume`, `IngestSessions`). The bounded pool of probes with a watchdog per
probe, a global budget, a checkpoint after every result, and resuming. When probes complete, with what, and how far
the clock moves between two readings are arbitrary inputs. The loop is proved to terminate for all of them. Chains
of sessions on one results file are followed through any number of crashes, resumes and retries.

**Ontology** (`TermNormalization`, `Dedup`, `OntologyModel`, `OntologySanitize`, `OntologyRemap`, `OntologyRestore`,
`OntologyEvidence`, `OntologyMaterialize`, `OntologyGraph`, `OntologyPipeline`, `OntologySnapshot`). The
deterministic passes of the ontology compiler, in the order the compiler runs them, the graph built from the result,
and the comparison of two snapshots. `Ordering` holds Python's `sorted`.

**Geo** (`Geo`). One chunk of a location text, and the city and country of several sources.

Methods follow the loops and assignments of the code; each is tied to a function or predicate that says what it
computes, and the lemmas are about those.

## Results that mark a limit

Some statements one would expect are false of the code. Each has a lemma or method with a concrete input, and what
does hold is proved for all inputs, with the exact condition.

- A run can leave reservations behind of a card that certainly did not arrive: when `transient_attempts` is below 1
  (`LeakWithoutAttempts`), or when the store cannot release (`LeakWithoutRelease`). `ReservedExactly` says from the
  verdict, the outbox before the call and the kind of store whether anything stays reserved; `NoLeakedReservations`
  is what holds of all attempts of a run, among any interference.
- A job that only the outbox knows as delivered is counted as already published, but later jobs of the batch are not
  compared with it (`NearDuplicateOfOutboxDelivery`, against `DeliveredAreNotNearDuplicates`). For jobs that share no
  identity with an earlier one of the batch, `InOutboxExactly` says for which that is, from the outbox and the lists
  before the run and from what the run delivered or found on the ledgers so far; `NearDuplicateSentExactly` and
  `PairExactly` say when such a later job is sent.
- On a store with ledgers only, a delivered job can go out again. A run reads a list once and writes it whole, so it
  takes out what another run wrote meanwhile (`LostUpdate`); and the lists are cut to their limit, so undisturbed runs
  forget too (`ForgottenPastTheLimit`). `RunAmongOthers` says, whatever the others do at any await, which ids and URLs
  a run takes off the lists; `RunOnLedgers` gives the lists after a run that is alone once it has read both, and
  `RunAgain` when the next run sends a job, exactly. Within the limit undisturbed runs forget nothing (`RunTwice`).
  Receipts are lost in the same way (`LostReceipt`, `ReceiptsLostExactly`).
- Two quota failures can be written less than the retry delay apart: when the window ends earlier
  (`OneSecondApart`), and exactly then (`EarlyWindowExactly`). Over every history no failure is written before the
  pause of an earlier one is over (`NoFailureDuringAPause`).
- A process that dies between the single key writes of a state can leave a window end without a pause, and a later
  failure then a pause that is already over (`TornWindowWrite`). `TornClear` and `TornFailure` say after which
  writes of `_clear_state` and `_record_quota_failure`, `PauseRunsExactly` when the pause is over; a `_save_state`
  of its own never leaves that state (`TornSave`).
- Two pending positions with one URL overwrite each other's result (`ProbeTwice`), and the file lists that URL
  twice. Results are final in every run when no URL is pending twice, and otherwise there is a run that loses one
  (`ResultsAreFinal`, `OverwritingRun`). `DuplicatesExactly` says when a file lists a URL twice.
- A positive candidate relation whose subject normalises to nothing does not protect its object from staying a
  negative skill (`BlankSubjectDoesNotCount`, `BlankSubjectExample`); `OverlapsTakenOut` says which do.
- A restored term whose name is a structural label does not survive the sanitising that follows (`LabelIsLost`);
  every other does (`RestoredSurvive`).
- Evidence ids of the graph repeat if a term lists a shot twice (`RepeatedShot`), and only then
  (`EvidenceIdsDistinct`).
- A snapshot change from 1 to true goes unreported (`TrueForOneGoesUnseen`; `DiffIsComplete` says what is reported).
  Two places can print as one path, since keys are not escaped although the path is documented as a JSON pointer
  (`PathsCollide`), exactly when their keys have the same parts between slashes (`PathsAgreeExactly`). A changed
  term inside a list is never found (`ListTermGoesUnseen`; `ChangedTermsAreExact` says which are).
- A corrected country can coincide with another spelling of itself: in a text with a city of Russia, "kz" and
  "Россия" spelt with U+1C82 for its o (`RussiaTwice`; `CorrectionCollides` for all tables with such rows). It does
  exactly under the condition of `CorrectionKeepsSpellings`, or told from the chunks, of `CorrectionKeepsResults`.

## Model

| member | source | states |
|---|---|---|
| PublicationProtocol.EveryRunKeepsInv | job_ftch/application/channel_publisher.py:249-394 | every sequence of allowed steps of publishers, operator and dying processes keeps the invariant: a message's attempt holds all its identities, one message per attempt, ledgers name only confirmed reservations, a finished attempt that exposed nothing left nothing uncertain |
| PublicationProtocol.AtMostOnceDelivery | job_ftch/application/channel_publisher.py:249-394 | over every interleaving and every sequence of runs, no two cards that reached a target share a job id or a canonical URL |
| PublicationProtocol.NeverSentAgain | job_ftch/application/channel_publisher.py:258-298 | after a card reached its target, no later step can send one with one of its identities there, whatever the ledgers say |
| PublicationProtocol.SharedKey | job_ftch/application/channel_publisher.py:252-262 | two jobs share an idempotency key at a target exactly when they share a job id or a canonical URL |
| PublicationProtocol.ConfirmedForGood | job_ftch/application/channel_publisher.py:374-394 | a confirmed reservation is never taken away or rewritten |
| PublicationProtocol.EveryRunKeeps | job_ftch/application/channel_publisher.py:249-394 | what any steps by anyone preserve: messages, confirmed records, the anchor, the fate of attempts that are over |
| PublicationProtocol.InterferenceKeeps | job_ftch/application/channel_publisher.py:258-394 | whatever others do during an `await` keeps the invariant and leaves a running attempt's reservations in its hands |
| PublicationProtocol.LegacyOwnerFixed | job_ftch/application/channel_publisher.py:206-223 | the anchor's payload never changes |
| PublicationProtocol.FirstPublisherInheritsLegacy | job_ftch/application/channel_publisher.py:200-231 | over all runs exactly the first target to publish inherits the legacy ids and URLs, as it had loaded them |
| ChannelPublisher.Publisher.Enqueue | job_ftch/application/channel_publisher.py:263-278 | returns the stored record, the caller's own exactly when it now holds the key |
| ChannelPublisher.Publisher.ReserveAll | job_ftch/application/channel_publisher.py:258-293 | reserves all identities in order, or stops at the first that another holds |
| ChannelPublisher.Publisher.ReleaseAll | job_ftch/application/channel_publisher.py:280-283 | afterwards the attempt holds nothing uncertain, if the store can release |
| ChannelPublisher.Publisher.ConfirmAll | job_ftch/application/channel_publisher.py:375-394 | succeeds only if every identity is confirmed for this attempt |
| ChannelPublisher.Publisher.SendReserved | job_ftch/application/channel_publisher.py:295-364 | sends until an answer that is no flood wait, at most `transient_attempts` times; every send is allowed by the protocol |
| ChannelPublisher.Publisher.PersistReceipt | job_ftch/application/publish_ledger.py:128-153 | among any interference the stored receipts become those it read and the new one, cut to the limit; no reservation is touched |
| ChannelPublisher.Publisher.RefuseBlocked | job_ftch/application/channel_publisher.py:279-293 | a blocked job gives back what it reserved if the store can release, and else keeps the identities before the blocking one; it is already published or needs reconciliation |
| ChannelPublisher.Publisher.ConcludeUnsent | job_ftch/application/channel_publisher.py:299-353 | rejection, exhausted flood waits and an unusable target release the attempt and are counted as such |
| ChannelPublisher.Publisher.ConcludeUnknown | job_ftch/application/channel_publisher.py:315-326 | bad and missing receipts and unknown exceptions leave the reservations uncertain, and only they do |
| ChannelPublisher.Publisher.ConcludeReceipted | job_ftch/application/channel_publisher.py:369-400 | sent only if every reservation was confirmed; else the job needs reconciliation |
| ChannelPublisher.Publisher.PublishReserved | job_ftch/application/channel_publisher.py:249-400 | one job on an outbox: it begins exactly the attempt it reports, its verdict is true of outbox and target, nothing uncertain is left unless the card may have arrived, no attempt was allowed or the store cannot release; without others the verdict, what stays reserved and the stored lists are the ones that the stored records and the sends call for |
| ChannelPublisher.Publisher.PublishBare | job_ftch/application/channel_publisher.py:295-400 | one job without an outbox: the verdict the sends call for |
| ChannelPublisher.Publisher.PublishOne | job_ftch/application/channel_publisher.py:249-400 | one job on any store, including one without identity: the attempts it began are those it reports |
| ChannelPublisher.Publisher.ClaimLegacy | job_ftch/application/channel_publisher.py:203-223 | inserts the anchor unless there is one, marks it delivered, and returns the stored owner |
| ChannelPublisher.Publisher.LoadPublished | job_ftch/application/channel_publisher.py:194-231 | a run knows its target's own ids, and the legacy ones exactly when its target owns the anchor |
| ChannelPublisher.Publisher.RecordDelivery | job_ftch/application/channel_publisher.py:401-414 | the delivered id and URL are known from then on; undisturbed the stored lists are the loaded ones with them appended, cut to the limit; a target's ledger names only confirmed ids |
| ChannelPublisher.Publisher.PublishNext | job_ftch/application/channel_publisher.py:234-416 | skipped as published exactly when the ledgers know it, as duplicate exactly when it is the same vacancy as an earlier delivered or known job; what it changes in the stored lists |
| ChannelPublisher.Publisher.PublishBatch | job_ftch/application/channel_publisher.py:233-418 | every reached job has a verdict that still holds at the end; stops only at the send limit or an unusable target; the attempts begun are those reported; undisturbed, what the batch leaves in the stored lists |
| ChannelPublisher.Publisher.PublishJobs | job_ftch/application/channel_publisher.py:174-418 | a whole run among any interference: at most once, every verdict backed, outcome equal to the tally of the verdicts, every attempt it began is reported and what it still holds uncertain belongs to a verdict that keeps it, ownership of the legacy ledger respected, the lists it writes last are what it read with what it delivered; undisturbed, the stored lists and receipts after it |
| ChannelPublisher.NoLeakedReservations | job_ftch/application/channel_publisher.py:249-394 | of all attempts a run began, on a store that can release and with an attempt allowed, only those whose card may have arrived and was not confirmed hold anything uncertain |
| ChannelPublisher.SettledReserves | job_ftch/application/channel_publisher.py:279-394 | an attempt holds something uncertain after its report only if its card may have arrived, no attempt was allowed or the store cannot release |
| ChannelPublisher.ReservedExactly | job_ftch/application/channel_publisher.py:249-394 | undisturbed, something stays reserved exactly as verdict, outbox before the call and kind of store say |
| ChannelPublisher.SettledForGood | job_ftch/application/channel_publisher.py:258-394 | what a report promised stays true whatever happens later |
| PublishAccounting.KindsPartition | job_ftch/application/channel_publisher.py:118-132 | every reached job is exactly one of sent, already published, duplicate, rejected, failed |
| PublishAccounting.CountersCount | job_ftch/application/channel_publisher.py:242-308 | each counter counts the jobs with its verdict and only those; sent is the number delivered |
| PublishAccounting.FlagsTell | job_ftch/application/channel_publisher.py:320-361 | each flag is set exactly when some job had a verdict of its kind |
| PublishAccounting.ReasonsCount | job_ftch/application/channel_publisher.py:304-308 | a reason's count is the number of jobs rejected for it |
| PublishAccounting.ReasonsSumToTerminalSkips | job_ftch/application/channel_publisher.py:304-308 | the reason counts sum to the terminal skips |
| PublishAccounting.RemainingIsFailedOrUnreached | job_ftch/application/channel_publisher.py:144-158 | the remaining candidates are the failed and the unreached jobs; the clamp never acts |
| PublishAccounting.SendLimitKept | job_ftch/application/channel_publisher.py:235-236 | never more cards than the send limit |
| PublishAccounting.DeliveredAreNotNearDuplicates | job_ftch/application/channel_publisher.py:243-247 | no delivered job is the same vacancy as an earlier delivered or ledger-known job of the batch |
| PublishAccounting.DeliveredShareNoIdentity | job_ftch/application/channel_publisher.py:239-244 | within a run on any store no two delivered jobs share an identity |
| PublishAccounting.LeakWithoutAttempts | job_ftch/application/channel_publisher.py:295-296 | with no attempt allowed the reservations stay and the job is never sent again |
| PublishAccounting.LeakWithoutRelease | job_ftch/application/channel_publisher.py:280-308 | a rejected card leaves its reservations behind on a store that cannot release |
| PublishAccounting.InOutboxExactly | job_ftch/application/channel_publisher.py:249-291 | undisturbed, a job without a common identity with an earlier one of the batch is already published by the outbox alone exactly when it is not on the ledgers, its first held record is confirmed before the run, and it is no near-duplicate of what the run delivered or found on the ledgers so far |
| PublishAccounting.NearDuplicateSentExactly | job_ftch/application/channel_publisher.py:243-291 | undisturbed, for such a job: a later delivered one is the same vacancy as it, already published, exactly when it was known to the outbox only |
| PublishAccounting.PairExactly | job_ftch/application/channel_publisher.py:233-291 | of two jobs, the first known to the outbox only and the second to nobody, the second is always sent: the promise holds exactly for relations that tell them apart |
| PublishAccounting.NearDuplicateOfOutboxDelivery | job_ftch/application/channel_publisher.py:284-285 | a concrete batch in which a near-duplicate of an outbox-known job is sent |
| PublishReruns.QuietRunAppends | job_ftch/application/channel_publisher.py:401-414 | an undisturbed run appends the ids, URLs and receipts of its delivered jobs to the stored lists, cut to the limit, and changes nothing else in them |
| PublishReruns.OnBooksIsSkipped | job_ftch/application/channel_publisher.py:239-242 | a job that is on the stored lists when a run loads them is skipped by the ledger |
| PublishReruns.SkippedExactly | job_ftch/application/channel_publisher.py:239-242 | any job of a run is skipped by the ledger exactly when what the run loaded has its id or URL or an earlier delivered job of the run has |
| PublishReruns.RunOnLedgers | job_ftch/application/channel_publisher.py:226-414 | ledgers only, alone once both lists are read: the lists afterwards, and exactly which stored ids and URLs are off them |
| PublishReruns.RunAmongOthers | job_ftch/application/channel_publisher.py:226-414 | ledgers only, whatever the others do at any await: the moment from which a list is what was read with what was delivered, cut to the limit, and which names stored right before are gone |
| PublishReruns.IdWriteExactly | job_ftch/application/channel_publisher.py:402-405 | on any store a run that delivers an id writes the list it read with all its delivered ids, and what of the list that overwrites |
| PublishReruns.UrlWriteExactly | job_ftch/application/channel_publisher.py:411-414 | the same of the URLs |
| PublishReruns.RunAgain | job_ftch/application/channel_publisher.py:226-418 | of two runs on ledgers only the second sends a job exactly when neither the lists the first left nor its own deliveries so far have its id or URL and it is no near-duplicate, if every send arrives |
| PublishReruns.RunTwice | job_ftch/application/channel_publisher.py:174-418 | of two undisturbed runs the second skips every job the first delivered, by id on any store and by URL on ledgers only, within the limit of the lists |
| PublishReruns.LostUpdate | job_ftch/application/channel_publisher.py:194-226 | two runs on ledgers only, one in the middle of the other: the list loses a delivered id and its job is sent again |
| PublishReruns.ForgottenPastTheLimit | job_ftch/application/publish_ledger.py:105-126 | with a full list, one delivery makes an undisturbed run forget the oldest id, and its job is sent |
| PublishReruns.ReceiptsLostExactly | job_ftch/application/publish_ledger.py:128-153 | which receipts stored right before a write are gone after it |
| PublishReruns.LostReceipt | job_ftch/application/publish_ledger.py:128-153 | a receipt filed by another run between the read and the write is lost |
| LlmQuota.QuotaStore.SaveState | job_ftch/application/llm_quota.py:140-152 | the five keys it writes; the window end stays |
| LlmQuota.QuotaStore.ClearState | job_ftch/application/llm_quota.py:155-160 | everything reset but the next due run |
| LlmQuota.QuotaStore.CheckPause | job_ftch/application/llm_quota.py:163-185 | the stored state and the decision after the pause check |
| LlmQuota.QuotaStore.RecordQuotaFailure | job_ftch/application/llm_quota.py:211-265 | the stored state and the decision after a quota failure |
| LlmQuota.QuotaStore.CheckBeforeRun | job_ftch/application/llm_quota.py:268-320 | the stored state, the decision and whether the provider was called |
| LlmQuota.QuotaStore.NoteQuotaFailure | job_ftch/application/llm_quota.py:323-339 | the stored state and the decision after a failure during a run |
| LlmQuota.EveryHistoryIsConsistent | job_ftch/application/llm_quota.py:140-320 | in every reachable state the status fixes the shape of all other keys and of the failures since the last clear |
| LlmQuota.BoundedPressure | job_ftch/application/llm_quota.py:211-265 | between two clears at most `max_retries + 1` failures are written, each at least the retry delay after the last |
| LlmQuota.StoredKeysFitTogether | job_ftch/application/llm_quota.py:140-160 | a stored window end comes with a stored pause, the count never exceeds `max_retries` |
| LlmQuota.WrittenFailureBlocksWithinWindow | job_ftch/application/llm_quota.py:232-257 | a written failure blocks until strictly after now and no later than the window end |
| LlmQuota.WindowFixedUntilCleared | job_ftch/application/llm_quota.py:233-238 | a stored window end changes only by a clear |
| LlmQuota.ProviderAskedOnlyAfterThePause | job_ftch/application/llm_quota.py:283-288 | the provider is never called before the pause is over |
| LlmQuota.StormReachesTheBound | job_ftch/application/llm_quota.py:239-243 | the bound is exact: a storm of exhausted answers is written `max_retries + 1` times |
| LlmQuota.NoFailureDuringAPause | job_ftch/application/llm_quota.py:163-265 | over every history with a clock that runs forward, across windows and clears, no failure is written before the pause of an earlier one is over |
| LlmQuota.DelayedOrWindowOver | job_ftch/application/llm_quota.py:211-265 | any two written failures are the retry delay apart or the window of the earlier one was over |
| LlmQuota.EarlyWindowExactly | job_ftch/application/llm_quota.py:232-243 | a further failure can be written less than a delay after one exactly when the window that one falls into ends that early |
| LlmQuota.OneSecondApart | job_ftch/application/llm_quota.py:233-243 | with a run scheduled one second ahead, two failures one second apart |
| LlmQuota.AllWrites | job_ftch/application/llm_quota.py:140-160 | the single key writes, all of them, make the state the entry points are proved to leave |
| LlmQuota.PauseRunsExactly | job_ftch/application/llm_quota.py:211-265 | whatever is stored, a written failure leaves a running pause exactly unless a window end without a pause was stored and is over |
| LlmQuota.TornClear | job_ftch/application/llm_quota.py:155-160 | after which writes of `_clear_state` a crash leaves a window end without a pause, exactly |
| LlmQuota.TornFailure | job_ftch/application/llm_quota.py:233-257 | after which writes of a quota failure it does, exactly, in every reachable state |
| LlmQuota.TornSave | job_ftch/application/llm_quota.py:140-152 | a crash in a `_save_state` of its own never does |
| LlmQuota.TornWindowWrite | job_ftch/application/llm_quota.py:234-257 | a reachable loss: dying after the first write of the first failure, a later failure is written with a pause that is already over |
| IngestResume.CheckpointIsExact | scripts/run_ingest_batch.py:736-749 | a checkpoint lists exactly the recorded results |
| IngestResume.CheckpointDuplicates | scripts/run_ingest_batch.py:736-743 | when a checkpoint lists a URL twice, exactly |
| IngestResume.CheckpointDistinct | scripts/run_ingest_batch.py:736-743 | with distinct URLs a checkpoint has no duplicates |
| IngestResume.CheckpointRoundTrip | scripts/run_ingest_batch.py:497-516 | loading a checkpoint gives back the recorded results in the listed order |
| IngestResume.ResumeProbesExactlyTheMissing | scripts/run_ingest_batch.py:701-722 | resuming keeps every result and probes exactly the selected URLs without one |
| IngestResume.RetryKeepsParsedAndUnselected | scripts/run_ingest_batch.py:710-722 | `--retry-failures` keeps exactly the parsed and the unselected results |
| IngestResume.PlanIsFiled | scripts/run_ingest_batch.py:701-722 | whatever the file holds, pending is the selected URLs without a kept result |
| IngestBatch.Batch.StartNextTasks | scripts/run_ingest_batch.py:774-784 | keeps the partition; a free slot afterwards means nothing is unstarted |
| IngestBatch.Batch.RecordResult | scripts/run_ingest_batch.py:788-794 | one more result, one more checkpoint, the partition kept |
| IngestBatch.Batch.AbandonOverdue | scripts/run_ingest_batch.py:799-809 | an overdue probe leaves the table for good; what is logged is a watchdog result of its URL with the time since its start |
| IngestBatch.Batch.FinalizeRunning | scripts/run_ingest_batch.py:859-871 | a probe in flight when the budget is spent: a budget result of its URL, with the time since its start, or of the batch if it has not started |
| IngestBatch.Batch.FinalizeUnstarted | scripts/run_ingest_batch.py:872-878 | a URL not started by then: a budget result with the time since the start of the batch |
| IngestBatch.Batch.FinalizeAll | scripts/run_ingest_batch.py:859-880 | a spent budget gives every in-flight and unstarted URL its result in one step |
| IngestBatch.Batch.WaitForOne | scripts/run_ingest_batch.py:892-908 | a wait without a result brings the nearest watchdog closer; a completion is passed on with its status |
| IngestBatch.Batch.Turn | scripts/run_ingest_batch.py:881-911 | a turn records a result or shortens the time to the next deadline |
| IngestBatch.Batch.Run | scripts/run_ingest_batch.py:786-912 | the loop terminates, and with at least one slot every pending position has its result; with one slot, no budget and completions only, the k-th result is the k-th answer for the k-th URL |
| IngestBatch.ProbeBatch | scripts/run_ingest_batch.py:701-912 | each pending position is recorded exactly once; every selected URL has a result exactly when there is a slot or nothing was pending |
| IngestBatch.ResultsAreFinal | scripts/run_ingest_batch.py:788-794 | with distinct pending URLs no later completion overwrites a result |
| IngestBatch.ResultsFinalExactly | scripts/run_ingest_batch.py:722-794 | all results of every log a run can have are final exactly when no URL is pending twice |
| IngestBatch.PendingTwiceOverwrites | scripts/run_ingest_batch.py:722-792 | of two positions with one URL the later result replaces the earlier |
| IngestBatch.OverwritingRun | scripts/run_ingest_batch.py:701-912 | whenever a URL is pending twice there is a run of the batch with two different results of it, one of them overwritten |
| IngestBatch.ProbeTwice | scripts/run_ingest_batch.py:722-912 | the batch on one URL selected twice: two different results, of which the last is kept and listed twice |
| IngestBatch.CheckpointsGrow | scripts/run_ingest_batch.py:745-794 | the recorded URLs only grow from checkpoint to checkpoint |
| IngestBatch.ResumeAfterCrash | scripts/run_ingest_batch.py:701-794 | killed after any checkpoint, a resumed run keeps every result and probes exactly what is missing |
| IngestSessions.FileIsLastSave | scripts/run_ingest_batch.py:745-749 | the file a session leaves is the checkpoint after its last result |
| IngestSessions.DuplicatesExactly | scripts/run_ingest_batch.py:701-743 | when the file a session leaves lists a URL twice, exactly; after a complete session that depends on the selection and the old file alone |
| IngestSessions.NeverListedTwice | scripts/run_ingest_batch.py:701-794 | over every chain of crashed or finished sessions on selections without duplicates, resumed or retried or not, the file never lists a URL twice |
| IngestSessions.KeptExactly | scripts/run_ingest_batch.py:701-722 | what becomes of a saved result in a session: kept unchanged exactly when it resumes and does not retry it, else gone until its URL is probed again |
| IngestSessions.RecordedForGood | scripts/run_ingest_batch.py:701-794 | a result stays in the file over every chain of sessions that keep it |
| IngestSessions.ProbedOnce | scripts/run_ingest_batch.py:701-794 | over a chain of resumed sessions no URL gets a result twice |
| TermNormalization.NormalizeIdempotent | job_ftch/application/ontology_compiler.py:484-489 | normalising twice is normalising once |
| TermNormalization.SameNameSameWords | job_ftch/application/ontology_compiler.py:484-489 | two spellings are one name exactly when they have the same words |
| TermNormalization.InsufficientIsNormal | job_ftch/application/ontology_compiler.py:899-916 | "insufficient" before a normal name is a normal name |
| Dedup.BestHolds | job_ftch/application/ontology_compiler.py:680-698 | the dictionary of deduplication holds one input of each key and nothing else |
| Dedup.DedupedIsSorted | job_ftch/application/ontology_compiler.py:698-715 | deduplication gives each key once, in key order |
| Dedup.DedupedIdempotent | job_ftch/application/ontology_compiler.py:679-715 | deduplicating twice is deduplicating once |
| OntologySanitize.DedupeTerms | job_ftch/application/ontology_compiler.py:679-698 | computes the deduplicated terms |
| OntologySanitize.DedupeRelations | job_ftch/application/ontology_compiler.py:701-715 | computes the deduplicated relations |
| OntologySanitize.Sanitize | job_ftch/application/ontology_compiler.py:733-753 | computes the sanitised ontology |
| OntologySanitize.NoClash | job_ftch/application/ontology_compiler.py:735-746 | after deduplication the polarity check never acts |
| OntologySanitize.SanitizedIsClean | job_ftch/application/ontology_compiler.py:733-753 | names normal, unique, sorted, no structural labels; accepted terms have evidence |
| OntologySanitize.SanitizeIdempotent | job_ftch/application/ontology_compiler.py:733-753 | sanitising twice is sanitising once |
| OntologySanitize.AcceptanceIsExact | job_ftch/application/ontology_compiler.py:679-753 | a type and name is accepted exactly when some input term with it was accepted with evidence |
| OntologySanitize.AcceptanceIgnoresOrder | job_ftch/application/ontology_compiler.py:679-753 | which names are accepted does not depend on the input order |
| OntologySanitize.MostConfidentRelationKept | job_ftch/application/ontology_compiler.py:701-715 | of the relations of one key a most confident one is kept |
| OntologyRemap.IterPositiveRelations | job_ftch/application/ontology_compiler.py:853-875 | computes the positive relations, the first of each key |
| OntologyRemap.ObjectsArePositive | job_ftch/application/ontology_compiler.py:853-875 | their objects are exactly the names of objects of positive requires/supports relations with two names |
| OntologyRemap.RemapNegativeSkills | job_ftch/application/ontology_compiler.py:878-920 | computes the remapped terms |
| OntologyRemap.RemapClears | job_ftch/application/ontology_compiler.py:892-917 | no negative skill is left that a positive relation names; all other terms stay |
| OntologyRemap.RemapRemembers | job_ftch/application/ontology_compiler.py:899-916 | for every negative skill taken out an "insufficient ..." term remains |
| OntologyRestore.WalkCandidates | job_ftch/application/ontology_compiler.py:1024-1186 | computes the terms restored from candidates |
| OntologyRestore.RecoverObjects | job_ftch/application/ontology_compiler.py:1187-1226 | computes the terms recovered from relation objects |
| OntologyRestore.RestoreProjection | job_ftch/application/ontology_compiler.py:942-1230 | computes the restored ontology |
| OntologyEvidence.SkillEvidenceFrom | job_ftch/application/ontology_compiler.py:996-1019 | the evidence collected for a skill is exactly that of its purely positive candidates |
| OntologyEvidence.WalkIsSound | job_ftch/application/ontology_compiler.py:1024-1186 | terms restored from candidates are new, accepted and rest on evidence of their own sign; a negative one never has the type and name of a positive candidate |
| OntologyEvidence.BoundEvidenceIsPositive | job_ftch/application/ontology_compiler.py:923-939 | evidence bound to a relation object cites a positive shot whenever there is one |
| OntologyEvidence.RecoverIsSound | job_ftch/application/ontology_compiler.py:1187-1226 | recovering keeps the table and adds only new positive skills |
| OntologyEvidence.RecoverCovers | job_ftch/application/ontology_compiler.py:1187-1226 | no recoverable relation object is missed |
| OntologyEvidence.RestorationIsSound | job_ftch/application/ontology_compiler.py:942-1230 | restored terms have new, pairwise distinct keys, are accepted with evidence, and rest on evidence of their own sign |
| OntologyEvidence.RestoredSurvive | job_ftch/application/ontology_compiler.py:733-753 | a restored term survives the next sanitising unchanged exactly when its name is no structural label |
| OntologyEvidence.LabelIsLost | job_ftch/application/ontology_compiler.py:733-753 | a concrete relation object named like a label, restored and lost again |
| OntologyEvidence.PositiveEvidenceWins | job_ftch/application/ontology_compiler.py:853-1230 | after restoring and sanitising no negative skill is the object of a positive relation of the ontology or any candidate chunk |
| OntologyEvidence.OverlapsTakenOut | job_ftch/application/ontology_compiler.py:878-920 | the ontology's own negative skills are taken out exactly when a positive relation names them on either side |
| OntologyEvidence.RejectionIsKept | job_ftch/application/ontology_compiler.py:899-916 | a negative skill taken out leaves an "insufficient ..." term in the final result |
| OntologyEvidence.ExplicitSkillsKept | job_ftch/application/ontology_compiler.py:1081-1186 | every explicit positive skill of the candidates is in the final result, and never newly as negative |
| OntologyEvidence.BlankSubjectDoesNotCount | job_ftch/application/ontology_compiler.py:866-869 | a relation without a subject leaves the negative skill it names in place |
| OntologyEvidence.BlankSubjectExample | job_ftch/application/ontology_compiler.py:866-869 | a concrete such ontology |
| OntologyMaterialize.Materialize | job_ftch/application/ontology_compiler.py:1233-1322 | computes the materialised lists |
| OntologyMaterialize.ListedExactly | job_ftch/application/ontology_compiler.py:1275-1306 | each list names exactly the accepted terms of its type and role |
| OntologyMaterialize.SidesAreDisjoint | job_ftch/application/ontology_compiler.py:1278-1297 | for a sanitised ontology no role and no skill is on both sides |
| OntologyMaterialize.KeywordsAreExact | job_ftch/application/ontology_compiler.py:1277-1321 | keyword lists without duplicates, by weight then name, weights 1 to 5, the last term's weight, every target role among them |
| OntologyMaterialize.ListsAscend | job_ftch/application/ontology_compiler.py:1308-1314 | for a sanitised ontology the role and skill lists are strictly ascending, so removing duplicates changes nothing |
| OntologyMaterialize.ListedNegativeSkills | job_ftch/application/ontology_compiler.py:942-1322 | end of the pipeline: a listed negative skill that a positive relation names is an "insufficient ..." one or its term is not negative |
| OntologyGraph.Build | job_ftch/application/ontology_graph_builder.py:57-178 | computes the graph |
| OntologyGraph.GraphIsWhole | job_ftch/application/ontology_graph_builder.py:70-178 | of any ontology: every edge ends at nodes, all evidence names an edge, node ids are unique and of their node's kind |
| OntologyGraph.EdgesAreExact | job_ftch/application/ontology_graph_builder.py:88-169 | one assertion per named term, then one edge per relation |
| OntologyGraph.EdgeIdsDistinct | job_ftch/application/ontology_graph_builder.py:50-54 | edge ids are distinct exactly when no two assertions and no two relations agree in what is hashed |
| OntologyGraph.CleanEdgesDistinct | job_ftch/application/ontology_graph_builder.py:88-169 | of a sanitised ontology all edge ids are distinct |
| OntologyGraph.RelationsJoinClaims | job_ftch/application/ontology_graph_builder.py:140-169 | relations join claim nodes only and never the nodes of terms |
| OntologyGraph.EveryTermHasItsNode | job_ftch/application/ontology_graph_builder.py:88-106 | no term of a sanitised ontology overwrites the node of another |
| OntologyGraph.EvidenceIsExact | job_ftch/application/ontology_graph_builder.py:122-138 | the evidence records are exactly those of the named terms |
| OntologyGraph.EvidenceIdsDistinct | job_ftch/application/ontology_graph_builder.py:122-138 | of a sanitised ontology the evidence ids are distinct exactly when no term lists a shot twice |
| OntologyGraph.RepeatedShot | job_ftch/application/ontology_graph_builder.py:122-138 | a concrete sanitised ontology with repeated evidence |
| OntologyPipeline.EndIsConsistent | job_ftch/application/ontology_compiler.py:1439-1447 | the final ontology is clean, its own and the candidates' positive relations name no negative skill, and the lists made from it agree with each other |
| OntologyPipeline.Compile | job_ftch/application/ontology_compiler.py:1417-1447 | from any compiled ontology and candidates: a consistent ontology, its lists, and a whole graph with distinct edge ids |
| OntologySnapshot.DiffValues | job_ftch/application/ontology_snapshot.py:118-130 | computes the change list |
| OntologySnapshot.DiffIsExact | job_ftch/application/ontology_snapshot.py:118-130 | a change is reported exactly where both sides are objects all the way down and the values there differ, with those two values |
| OntologySnapshot.DiffIsComplete | job_ftch/application/ontology_snapshot.py:118-130 | no changes exactly when the values are equal up to null-valued against absent keys |
| OntologySnapshot.DiffIsSymmetric | job_ftch/application/ontology_snapshot.py:118-130 | the other way round gives the same list with before and after exchanged |
| OntologySnapshot.DiffInOrder | job_ftch/application/ontology_snapshot.py:118-123 | the changes are in strict order of their keys |
| OntologySnapshot.OneChangePerPlace | job_ftch/application/ontology_snapshot.py:118-123 | no place is reported twice |
| OntologySnapshot.TrueForOneGoesUnseen | job_ftch/application/ontology_snapshot.py:125-130 | true in place of 1 is no change |
| OntologySnapshot.PathsAgreeExactly | job_ftch/application/ontology_snapshot.py:118-130 | two places print as one path exactly when their keys have the same parts between slashes |
| OntologySnapshot.PathsOfPlainKeys | job_ftch/application/ontology_snapshot.py:118-130 | without slashes in keys a path determines its place, the root and an empty key aside |
| OntologySnapshot.KeyPrintsAsParts | job_ftch/application/ontology_snapshot.py:118-130 | a key prints like the list of its parts, which is another list exactly when it has a slash |
| OntologySnapshot.OnePathPerPlace | job_ftch/application/ontology_snapshot.py:118-130 | no two changes of a list have one path, if their keys have no slash |
| OntologySnapshot.PathsCollide | job_ftch/application/ontology_snapshot.py:118-130 | a value under a key with a slash and one two keys down are both reported, under one path |
| OntologySnapshot.DiffSnapshots | job_ftch/application/ontology_snapshot.py:70-85 | fails exactly for snapshots of different owners; else the versions and the change list |
| OntologySnapshot.MatchedIsExact | job_ftch/application/ontology_snapshot.py:100-107 | a record's matched terms are its changed terms, each once, in order |
| OntologySnapshot.ReportIsExact | job_ftch/application/ontology_snapshot.py:88-108 | the report lists exactly the records of the previous version, by id |
| OntologySnapshot.ReportKeepsTies | job_ftch/application/ontology_snapshot.py:107 | records with one id stay in the given order |
| OntologySnapshot.ChangedTermsAreExact | job_ftch/application/ontology_snapshot.py:118-150 | from snapshots to terms: a term is changed exactly when a place reached on both sides differs and holds it as its whole text |
| OntologySnapshot.ListTermGoesUnseen | job_ftch/application/ontology_snapshot.py:118-150 | a term that changes inside a list: a change is reported and no term |
| Geo.NormalizeChunk | job_ftch/application/geo.py:165-188 | terminates for every order of the noise words with a result that order allows |
| Geo.ResultsAreClean | job_ftch/application/geo.py:165-188 | no result is a noise word or starts or ends with one |
| Geo.Collect | job_ftch/application/geo.py:125-133 | the collected names are what some possible results of the chunks spell, in the order of the chunks |
| Geo.FirstSpellingsInOrder | job_ftch/application/geo.py:125-133 | the list begins with the names of the results before a first spelling and then has that spelling |
| Geo.OnlyFirstSpellings | job_ftch/application/geo.py:125-133 | every name in the list is the first spelling of itself among the results |
| Geo.DecideCountry | job_ftch/application/geo.py:135-144 | one known city and one country: the city's country, corrected in place; else the first country |
| Geo.Decide | job_ftch/application/geo.py:135-162 | the country is always found again in the list; the city is the one known city or the first plain name before the country |
| Geo.CorrectionIsClean | job_ftch/application/geo.py:138-144 | after a correction the list has no duplicates, still the city, and no other country |
| Geo.CorrectionKeepsSpellings | job_ftch/application/geo.py:138-144 | spellings stay different exactly when no other name is a spelling of the new country |
| Geo.CorrectionKeepsResults | job_ftch/application/geo.py:125-144 | the same condition told from the results of the chunks |
| Geo.CorrectionCollides | job_ftch/application/geo.py:125-144 | with a city, another country and an unknown spelling of the city's country, the correction puts two spellings of one name into the list, whatever else the tables hold |
| Geo.RussiaTwice | job_ftch/application/geo.py:27-144 | a concrete input on rows of the code's tables |
| Geo.NormalizeSources | job_ftch/application/geo.py:125-162 | the whole pass: city and country decided on the names of the chunks in their order; distinct clean names, a country that is in the list, a city that is in the list and no country |

## Left out

- Hash digests are taken to be injective: a key, node id, edge id or evidence id is what is hashed.
- The outbox is taken by its contract; `enqueue_outbox` is one step although the SQL store inserts and then selects.
- An operator's verdict is taken to be truthful and to come only when the attempt is over; store calls do not fail.
- A rejection, `TransientSendError` and `FatalTargetError` are taken to mean that the card did not arrive; an unknown exception may mean either. Whether its text marks it as fatal or retryable is a flag of the event.
- Message ids in digits outside ASCII, the waiting times between cards, log lines and message texts.
- ChannelPublisher.Publisher.RecordDelivery: does not model the JSON encoding of the ledgers in the run-state store.
- Quota calls are atomic with respect to each other, and the three settings are the same through a history. Crashes between their key writes are covered one call at a time (`TornClear`, `TornFailure`, `TornSave`), not in histories.
- PublishReruns.RunAgain: both runs are alone once the first has read its lists; what interleaved writes do to the lists is `RunAmongOthers`.
- PublishAccounting.InOutboxExactly: does not say what becomes of a job that shares an identity with an earlier job of the batch, whose reservations the run itself may have left uncertain; the near-duplicate part of its condition is about the run's own deliveries.
- PublishAccounting.NearDuplicateSentExactly: is restricted in the same way.
- Geo.RussiaTwice: gives the splitting pattern for its one input only, and lower-casing and case folding for the letters it meets.
- LlmQuota.EveryHistoryIsConsistent: starts from an empty store written only by these calls; unreadable stored values count as absent in the code.
- IngestSessions.NeverListedTwice: a checkpoint is written whole or not at all; a torn file is not modelled.
- The probes themselves, the stall-watchdog thread, the browser teardown, the gate and the slow-retry queue. A probe is taken to return a result, `asyncio.wait` to let every created probe start and to last at least its timeout when nothing completes.
- IngestBatch.Batch.Turn: reads the clock once per expression over the table, where the code reads it once per entry.
- The LLM calls, prompts and reattachment of evidence that feed the ontology passes; any candidates and ontology are inputs. `_restore_negative_projection_from_candidates`, whose result is sanitised and then restored again.
- Aliases, rationales, reject reasons, summaries and warnings of the ontology, which no modelled pass reads; the term statistics of the materialisation; the attributes of graph nodes beyond the term they are read off.
- Confidences and weights are real numbers, so the rounding of a product in floating point is not modelled.
- OntologyRestore.RestoreProjection: reads the three skill tables, the relation tables and the accepted roles as functions of the candidates, where the code fills dictionaries; the loops that fill `by_key` are the code's.
- Case folding, character classes and lower-casing are parameters; `TermNormalization.LawfulChar` lists the facts of Unicode that are used, and `AsciiIsLawful` shows that they can be met.
- OntologySnapshot.DiffValues: keeps the list of keys of a change, `Path` is its printed form; the text of rendered objects is a parameter, NaN and the precision of floats are not modelled.
- Geo.NormalizeChunk: takes the tables of noise words, countries, cities and regions and the splitting pattern as parameters; `Geo.Lawful` lists the facts about the tables that are used, that no listed place name is or borders on a noise word, that every city's country is a listed country, and that no city is a country or region.
- Dedup settlement, enrichment, pricing and usage, the plugin registry, the wiring and the site.
