# Verified model of the video-processing pipeline

This project models, in Dafny, how an uploaded video becomes a processed one: the upload notifier and its webhook, the
RabbitMQ subscriptions with their retries, the processing table, the BullMQ flow of a video, the orchestrator that
aggregates its children, the terminal events, the audit log, the result view, and the ffmpeg-to-S3 stream of a worker.
It proves what holds in every reachable state, with any number of replicas, any interleaving of single effects, any
redelivery of messages, and a crash at any point.

`dafny verify dfyconfig.toml` checks everything.

## How it is organised

| file | what it holds |
|---|---|
| `Text.dfy`, `Seqs.dfy` | strings and array methods as the services use them |
| `Schema.dfy` | zod schemas as data, with one parser; parsing is idempotent for every schema |
| `Contracts.dfy`, `ContractLaws.dfy` | result types, their schemas, exactly what those accept, and the read-back |
| `Events.dfy` | event names and envelopes, and what `publish` sends |
| `Aggregation.dfy`, `AggregationLaws.dfy` | `aggregateProcessingResults`, for any duplicate-free list of heights |
| `Rows.dfy` | the processing table as atomic statements; the repository class; claim and finish under interference |
| `Broker.dfy`, `BrokerLaws.dfy` | one subscription: main, in-flight, retry and dead-letter copies; the consumer callback |
| `Topology.dfy` | queue and exchange names, bindings, routing |
| `S3Keys.dfy`, `Utf8.dfy`, `UploadGate.dfy` | object keys, percent-decoding, the lambda and the webhook |
| `Jobs.dfy` | job ids and the flow |
| `Service.dfy` | the upload handler and the orchestrator processor as code over the repository class |
| `Pipeline.dfy`, `PipelineLaws.dfy`, `Guarantees.dfy` | the whole service as one step machine, its invariant, and its guarantees |
| `Progress.dfy` | attempts end; what handlers, flows and attempts reach when nothing crashes or fails |
| `Settling.dfy` | exactly which videos can still settle, and the runs that leave one stuck |
| `ResultView.dfy` | the view the HTTP API builds from a row |
| `AuditLog.dfy` | the log table and its consumer |
| `Lifecycle.dfy` | the processor wrapper that announces steps |
| `FfmpegTask.dfy`, `UploadStream.dfy` | settling of an ffmpeg run and of the upload around it |

Handlers and attempts can stop between any two of their effects: a crash, a failed statement or a lost confirm. A
delivery may go back to its queue while the handler that had it continues.

## Assumptions about the environment

- One SQL statement is atomic; a confirmed publish is enqueued; the broker returns unacknowledged deliveries.
- Adding a flow is atomic, and adding a job whose id exists in its queue changes nothing. A parent becomes runnable
  once all its children succeeded or some child exhausted its attempts. Children that ended stay as they ended.
  Jobs are removed only by `removeUnprocessedChildren`, which may take any of the waiting children. Every start of an
  orchestrator attempt uses up one of the three attempts of its job, a restart after a crash included.
- `videoId` is in one canonical spelling, as `randomUUID` issues it. The database compares UUIDs while job ids compare
  text; `Jobs.SpellingMatters` shows why this is needed.
- `messageId` identifies an event, as `randomUUID` issues it (only `AuditLog.OwnRow` uses this).
- ffmpeg emits `start` together with its process, starts none after an `error` without a process, and exits before it
  closes.
- Whether a text is a URL or a date-time, and the wording of schema errors, are parameters (`Schema.Zod`), as is the
  address that `getPublicUrl` gives a key.

## What callers should know about the code

- `finishProcessing` hands back its argument as it is when its own update wins and the parsed column otherwise. Taken
  alone it can therefore answer two callers differently; it answers all alike exactly when the argument that was stored
  is in normal form (`Rows.FinishAgain`, with a differing pair in `Rows.FinishCanDiffer`). In the service it always is,
  so every attempt that returns gives exactly the stored result, which is exactly what was published
  (`Guarantees.StoredIsNormal`, `Guarantees.ReturnedWasPublished`, `Guarantees.Agreement`).
- A wrapped processor ends as the bare one exactly when no payload builder that the call uses throws and what the
  processor raised, if anything, is an `Error` (`Lifecycle.WrappingIsTransparent`). A success whose completed payload
  cannot be built is reported as failed and retried (`Lifecycle.CompletedBuilderFails`); a raised text becomes an
  `Error`, and a raised value that cannot be shown as text leaves the failure unannounced
  (`Lifecycle.OtherValuesConverted`).
- A flow has three orchestrator attempts. When all of them stop before they announce a result, the video never settles:
  its row stays in progress, or stays terminal without an event, and uploading it again changes nothing
  (`Settling.GetsStuck`, `Settling.StuckForGood`). `Settling.SettlesIff` and `Settling.FlowSettlesIff` say exactly when
  a video can still settle.
- The result schema alone does not make a ready view complete (`Guarantees.SchemaAloneIsNotEnough`): for a row the
  schema accepts, the view shows every height exactly when no height occurs twice among the stored renditions
  (`ResultView.CompleteIff`), and shows the video's own objects exactly when their keys are stored
  (`ResultView.OwnAddressIff`). Rows the service stores meet both (`Guarantees.ViewRefines`).

## Model

| member | source | states |
|---|---|---|
| Guarantees.NoLostVideo | apps/processing-service/src/broker/handlers/upload-events.ts:7-19 | in every reachable state a row that is pending or in progress has its orchestrator job, or its upload message is still in the main queue, in flight, in the retry queue or dead-lettered |
| Guarantees.NoLostUpload | packages/broker/src/rabbitmq-broker.ts:161-205 | every upload message ever accepted is still queued unless its video has a flow or a terminal row |
| Guarantees.Agreement | apps/processing-service/src/worker.ts:30-52 | any two terminal events of a video are equal; the payload is exactly the result stored in its terminal row, and the name is `processing.completed` exactly when the row is completed and `processing.failed` exactly when it is failed |
| Guarantees.ReturnedWasPublished | apps/processing-service/src/worker.ts:41-52 | an attempt that returned has published the stored result and returns exactly that result |
| Guarantees.StoredIsNormal | apps/processing-service/src/db/repositories/processing-repository.ts:101-108 | in every reachable state a stored result is valid and its own normal form, so reading it back changes nothing |
| Guarantees.AttemptsNeverThrow | apps/processing-service/src/db/repositories/processing-repository.ts:71-109 | aggregation, the read-back of the stored result and the validation in publish never throw in an attempt, whatever ran before it |
| Guarantees.CompletedVerdictSound | apps/processing-service/src/worker.ts:16-28 | a row is completed only if the metadata job and the encode job of every height succeeded for that video |
| Guarantees.FailedVerdictSound | apps/processing-service/src/worker.ts:19-24 | a row is failed only with a non-empty failure list, each entry of which has the key of a child job of that video that used up its three attempts, and that job's trimmed reason, or the fixed text when the reason is blank |
| Guarantees.FlowUnique | apps/processing-service/src/processing-flow.ts:26-60 | in every reachable state there is at most one job of each kind and height for a video, only for claimed videos, and the job found under an id is of the kind and video that id was made from |
| Guarantees.RowsSound | apps/processing-service/src/db/repositories/processing-repository.ts:73-87 | in every reachable state a row is terminal exactly when it has a result and a finish time, with matching status and video id |
| Guarantees.TerminalForGood | apps/processing-service/src/db/repositories/processing-repository.ts:52-87 | along any run rows only move forward and a terminal row never changes |
| Guarantees.OneClaimPerVideo | apps/processing-service/src/db/repositories/processing-repository.ts:52-60 | over any run of the whole service at most one handler's update claims a video, and exactly one if its row left pending |
| Guarantees.ViewRefines | apps/processing-service/src/http/lib/build-video-result.ts:11-62 | in every reachable state the view shows the row's status, finish time and metadata, and is ready exactly for a completed row; then each height has the address of its own object, otherwise every rendition is pending without one |
| Guarantees.ServiceHeights | packages/contracts/domain/processing.ts:14 | the heights of the service, which are duplicate-free as the guarantees ask |
| Guarantees.SchemaAloneIsNotEnough | packages/contracts/domain/processing-result.ts:50-52 | the schema accepts a completed result with one height three times, whose view would be ready with a pending rendition |
| ResultView.ViewOfRow | apps/processing-service/src/http/lib/build-video-result.ts:15-35 | for any row or none: the view's id, status, finish time and labels are the row's, its metadata are those of a completed result the schema accepts, and it is ready exactly when the row is completed and holds such a result |
| ResultView.CompleteIff | packages/contracts/domain/processing-result.ts:50-52 | a ready view shows every height exactly when no height occurs twice among the stored renditions |
| ResultView.OwnAddressIff | apps/processing-service/src/http/lib/build-video-result.ts:15-35 | a ready view shows at a height the address of the video's own object, whatever form addresses have, exactly when the rendition stored for that height has its key |
| Settling.UploadSettles | apps/processing-service/src/broker/handlers/upload-events.ts:7-19 | for every accepted upload, some continuation settles its video with at most one more attempt, undisturbed or after one redelivery, or its flow used up its three attempts, or it has no flow and its message lies in the dead-letter queue |
| Settling.SettlesIff | apps/processing-service/src/processing-flow.ts:50-60 | from every reachable state, without another upload of it, a video can still come to a terminal row whose result was announced if and only if it has no flow but a waiting message or a running handler, or it has a flow that settled already, has an attempt that can go on, or has an attempt left |
| Settling.FlowSettlesIff | apps/processing-service/src/processing-flow.ts:54-58 | for a video with a flow the same condition decides, whatever is uploaded again |
| Settling.Settles | apps/processing-service/src/worker.ts:41-52 | whenever the condition holds, a continuation with at most one more attempt does it; it is undisturbed, except that a delivery nobody handles any more has to be taken back by the broker first |
| Settling.StuckForGood | apps/processing-service/src/processing-flow.ts:54-58 | a flow whose three attempts stopped before announcing never settles, whatever happens later |
| Settling.LostForGood | packages/broker/src/rabbitmq-broker.ts:161-178 | a video without a flow, without a running handler and with no message but dead-lettered ones never settles unless it is uploaded again |
| Settling.GetsStuck | apps/processing-service/src/processing-flow.ts:54-58 | two reachable states in which an accepted upload never settles: one with a row in progress, one with a terminal row that was not announced |
| Settling.AttemptsCharged | apps/processing-service/src/processing-flow.ts:11-15 | in every reachable state the attempts of a video number what its orchestrator job was charged with, at most three |
| Progress.FlowSettles | apps/processing-service/src/processing-flow.ts:17-60 | undisturbed, a flow with an attempt left becomes runnable and one attempt settles it |
| Progress.GoodStep | apps/processing-service/src/worker.ts:19-24 | every step keeps that a flow misses a child only after one of its children used up its attempts |
| Progress.AttemptEnds | apps/processing-service/src/worker.ts:41-52 | along any run an attempt makes at most six steps, its stopping included |
| Progress.CanGoOn | apps/processing-service/src/worker.ts:41-52 | an attempt that has not ended always has a step to make |
| PipelineLaws.Step | apps/processing-service/src/worker.ts:39-56 | every step of handlers, children, attempts and queues keeps the invariant, and facts about rows, ended jobs, messages and published events are never undone |
| PipelineLaws.CollectedVerdict | apps/processing-service/src/worker.ts:26-27 | when all children succeeded, aggregating what the workers returned, in any order, gives a completed result whose renditions are one per height at their own keys |
| PipelineLaws.PurgedVerdict | apps/processing-service/src/worker.ts:19-24 | aggregating a non-empty list of failed children gives a valid failed result in normal form with one entry for each, under its key and with its reason |
| Service.ProcessingService.HandleVideoUploaded | apps/processing-service/src/broker/handlers/upload-events.ts:7-19 | with any statements of other replicas in between, the flow is added exactly when the claim was active, and on return the flow exists or the row is terminal |
| Service.ProcessingService.Orchestrate | apps/processing-service/src/worker.ts:41-52 | with any statements of other replicas in between: an attempt succeeds exactly when the row is terminal at its end, and then has published the normal form of the stored result once, under the name of its status, and returns that result up to normalisation; an attempt that found the row in progress stored the failures reported to it, each under its key with its reason, or else exactly the assembled children, or else some failure |
| Service.ProcessingService.PublishResult | apps/processing-service/src/worker.ts:30-37 | sends the normalised result as `processing.completed` or `processing.failed` by its status, exactly when the result is valid |
| Rows.ProcessingRepository.Execute | apps/processing-service/src/db/repositories/processing-repository.ts:41-60 | each writing statement changes only the row its conditions select, to the values written out, and reports whether it did |
| Rows.ProcessingRepository.ClaimPending | apps/processing-service/src/db/repositories/processing-repository.ts:38-69 | the three statements with other replicas' statements in between end as the specification function says |
| Rows.ProcessingRepository.FinishProcessing | apps/processing-service/src/db/repositories/processing-repository.ts:71-109 | update, else select and parse the stored result, else an error, as the specification function says |
| Rows.StatementStep | apps/processing-service/src/db/repositories/processing-repository.ts:41-87 | one statement moves a row at most one status forward and keeps rows sound |
| Rows.StatementRuns | apps/processing-service/src/db/repositories/processing-repository.ts:41-87 | the same over every interleaving of statements |
| Rows.ClaimLinearizable | apps/processing-service/src/db/repositories/processing-repository.ts:38-69 | true: the row was in progress at an instant inside the call; false: the row is terminal at its end and no later statement changes it |
| Rows.ClaimAlone | apps/processing-service/src/db/repositories/processing-repository.ts:38-69 | without interference the call starts an absent or pending row, leaves every other row alone, and is true exactly when the row was not terminal |
| Rows.FinishAlone | apps/processing-service/src/db/repositories/processing-repository.ts:71-109 | without interference the call writes its argument into a row in progress and otherwise changes nothing |
| Rows.OneClaim | apps/processing-service/src/db/repositories/processing-repository.ts:52-60 | over any run of statements one update claims a video exactly when the run takes it out of pending, never two |
| Rows.FinishSettles | apps/processing-service/src/db/repositories/processing-repository.ts:71-109 | whatever runs in between, the call returns exactly when the row is terminal at its end, always for a claimed video, and returns the stored result up to normalisation, itself exactly when its own update stored it or it is in normal form |
| Rows.FinishAgain | apps/processing-service/src/db/repositories/processing-repository.ts:71-109 | the call that stored its argument returned it, every later call returns its normal form, and the two agree exactly when the argument is in normal form |
| Rows.FinishCanDiffer | apps/processing-service/src/db/repositories/processing-repository.ts:71-109 | two calls for one video that return different results |
| Jobs.JobIdsDistinct | packages/contracts/infra/bullmq.ts:7-11 | the three id formats are injective and disjoint, for all video ids and heights |
| Jobs.KeyFormats | packages/contracts/infra/bullmq.ts:1-11 | the queue and the id of each kind of job, and the keys children are reported under, spelled out |
| Jobs.FlowAdded | apps/processing-service/src/processing-flow.ts:26-60 | adding a flow leaves every existing job alone, adds only this video's jobs, and afterwards every job of the flow exists |
| Jobs.SpellingMatters | packages/contracts/infra/bullmq.ts:7-11 | two spellings of one UUID give different job ids |
| AggregationLaws.CompletedIff | apps/processing-service/src/lib/aggregate-processing-results.ts:17-143 | total, and completed exactly when no child failed and the children are, as a multiset, one metadata result and one rendition per height, all of this video |
| AggregationLaws.CompletesWhenAssembled | apps/processing-service/src/lib/aggregate-processing-results.ts:127-142 | the completed result is determined by those children, renditions in the order of the heights |
| AggregationLaws.AssembledWhenCompletes | apps/processing-service/src/lib/aggregate-processing-results.ts:127-142 | a completed result lists exactly the children that were given |
| AggregationLaws.DeadBranches | apps/processing-service/src/lib/aggregate-processing-results.ts:102-142 | the missing-metadata answer is never given, and the count-mismatch answer and the throw cannot be reached once every height has one result |
| AggregationLaws.NeverThrows | apps/processing-service/src/lib/aggregate-processing-results.ts:131-141 | aggregation always returns a result of the given video |
| AggregationLaws.OrderIndependent | apps/processing-service/src/lib/aggregate-processing-results.ts:22-57 | reordering the entries never changes the verdict; a completed result is identical, a failed one lists the same failures |
| AggregationLaws.OutputValid | apps/processing-service/src/lib/aggregate-processing-results.ts:22-53 | the pipeline schema accepts the output exactly when the video id is a UUID and no reported child key is blank, and leaves it unchanged exactly when no reported text has white space at its ends |
| AggregationLaws.FailuresReported | apps/processing-service/src/lib/aggregate-processing-results.ts:22-31 | failed children are reported one by one in order, whatever else was returned: each under its key, with its trimmed reason or, when that is blank, the fixed text |
| AggregationLaws.Verdict | apps/processing-service/src/lib/aggregate-processing-results.ts:58-142 | without failed children the result is exactly the assembled children, or a failure when they cannot be assembled |
| AggregationLaws.RejectionsReported | apps/processing-service/src/lib/aggregate-processing-results.ts:33-53 | children whose results the schema rejects are reported, each under its key with the explanation, and nothing else |
| AggregationLaws.MismatchReported | apps/processing-service/src/lib/aggregate-processing-results.ts:58-85 | results of another video, and then a wrong number of metadata results, are reported with their count |
| AggregationLaws.HeightsReported | apps/processing-service/src/lib/aggregate-processing-results.ts:87-117 | then exactly the heights without exactly one rendition are reported, each with its count |
| Schema.ParseIdempotent | packages/contracts/domain/processing-result.ts:14-67 | for every well-formed schema, a value that parsing returned is accepted again unchanged |
| ContractLaws.StoredResultReadsBack | packages/contracts/domain/processing-result.ts:38-67 | a result written as JSON reads back exactly when it is valid, and reads back normalised: texts and labels trimmed, nothing else changed |
| ContractLaws.TidyTwice | packages/contracts/domain/processing-result.ts:38-67 | reading back twice is reading back once, and the normal form is valid |
| ContractLaws.ReadChildIsValid | packages/contracts/domain/processing-result.ts:14-36 | whatever JSON the child schema accepts becomes a valid child result in normal form |
| ContractLaws.ChildReadsBack | packages/contracts/domain/processing-result.ts:14-36 | a child result reads back exactly when it is valid, and reads back normalised |
| ContractLaws.MetadataAccepted | packages/contracts/domain/video-metadata.ts:3-38 | for any JSON: the metadata schema accepts exactly objects of the known fields, each of its kind down to the fields of thumbnails and tracks, and changes only the labels of tracks, by trimming them |
| ContractLaws.ChildAccepted | packages/contracts/domain/processing-result.ts:14-36 | for any JSON: the child schema accepts exactly a metadata or a transcode result, member by member, and what is read are its members, trimmed |
| ContractLaws.ResultAccepted | packages/contracts/domain/processing-result.ts:38-67 | for any JSON: the pipeline schema accepts exactly a completed or a failed result, member by member, and what is read is that result in normal form |
| Events.PublishSendsParsedPayload | packages/broker/src/rabbitmq-broker.ts:94-99 | publish sends exactly when the payload schema accepts and the envelope is well formed, and sends the normalised payload under the given name |
| Events.TerminalPayloadIsTidy | packages/contracts/events/event-payload-schemas.ts:87-91 | the schema of either terminal event accepts exactly the valid results and yields their normal form |
| Broker.Subscription.OnMessage | packages/broker/src/rabbitmq-broker.ts:180-205 | for every way the callback can end, what becomes of the delivery and its message: handled and gone; gone beside one new copy with one more retry, in the retry queue while retries are left and dead-lettered after; or back in the main queue after a fault |
| Broker.Subscription.RetryOrDeadLetter | packages/broker/src/rabbitmq-broker.ts:161-178 | the rejected message goes out as one copy with one more retry, to the retry queue while retries are left and then to the dead-letter queue, and the delivery is gone once that is confirmed; a lost confirm requeues it, with or without the copy |
| BrokerLaws.Conservation | packages/broker/src/rabbitmq-broker.ts:161-205 | until a handler run for it succeeds a message has a live copy in main, in flight, retry or dead-letter, at most one more for each fault; with no fault its copies that are not gone number one plus its deliveries between confirm and acknowledgement; retry counts are at most maxRetries, in the dead-letter queue exactly one more; contents never change |
| BrokerLaws.RoutedBesideCopy | packages/broker/src/rabbitmq-broker.ts:171-177 | a delivery and its retry copy exist side by side without any fault |
| BrokerLaws.RetryBound | packages/broker/src/rabbitmq-broker.ts:161-203 | with n messages and f faults the handler runs at most (maxRetries + 1) * (n + f) times, and likewise for each message |
| BrokerLaws.RunTerminates | packages/broker/src/rabbitmq-broker.ts:147-205 | a run has at most 5 * (maxRetries + 1) steps for each message and fault besides arrivals and faults |
| BrokerLaws.Quiescent | packages/broker/src/rabbitmq-broker.ts:161-205 | when nothing is left to do every message was handled or is dead-lettered, the latter after exactly maxRetries + 1 runs if it saw no fault |
| BrokerLaws.SoundStep | packages/broker/src/rabbitmq-broker.ts:147-205 | every step keeps conservation, the retry counts and both run accounts |
| Topology.NamesDistinct | packages/broker/src/rabbitmq-broker.ts:129-135 | all queue and exchange names derived for all subscriptions differ, whatever the consumers are called |
| Topology.NameFormats | packages/broker/src/rabbitmq-broker.ts:129-135 | the names of all queues and exchanges, spelled out |
| Topology.RetryIsolated | packages/broker/src/rabbitmq-broker.ts:139-159 | along all hops: a rejected message reaches only its own retry queue, from there, when its time is over, only its own main queue, and in the end only its own dead-letter queue, where it stays |
| Topology.PublishReaches | packages/broker/src/rabbitmq-broker.ts:156 | an event reaches exactly the main queues subscribed to it |
| AuditLog.LogTable.AppendProcessingStepLog | apps/processing-service/src/db/repositories/processing-log-repository.ts:11-28 | inserts one row with the event's fields, each in its place, unless a row with its event id exists |
| AuditLog.AppendsOnce | apps/processing-service/src/db/repositories/processing-log-repository.ts:27 | any sequence of inserts leaves one row for the first event with each id, in order |
| AuditLog.AuditedOnce | apps/processing-service/src/broker/handlers/processing-events.ts:11-31 | for any redelivery pattern the log has one row per event id, equals one insert of each handled event, and contains the id of every event whose handling succeeded |
| AuditLog.OwnRow | apps/processing-service/src/db/schema/processing-logs.ts:18 | when message ids identify events, a handled event's row is its own |
| Text.TrimDrops | packages/contracts/domain/processing-result.ts:29 | trimming takes away white space at the two ends and nothing else |
| Text.SpacesByCode | packages/contracts/domain/processing-result.ts:29 | the white space that trimming removes, by code points |
| Text.DecimalReads | packages/contracts/infra/s3-keys.ts:7-12 | a number in a key or id is written in decimal, without a leading zero |
| S3Keys.IssuedKeyRecognised | packages/contracts/infra/s3-keys.ts:15-30 | every percent-encoding (section 2.1 of RFC 3986) of an issued key parses to that key and video, for UUIDs of versions 1 to 8 and the usual variant |
| S3Keys.RecognisedIff | packages/contracts/infra/s3-keys.ts:15-30 | a key is recognised exactly when it decodes to the key that would be issued for such a UUID, in any letter case |
| S3Keys.KeyFormats | packages/contracts/infra/s3-keys.ts:4-13 | the keys of originals, renditions, thumbnails and audio tracks, spelled out |
| Utf8.DecodeIff | packages/contracts/infra/s3-keys.ts:18-19 | percent-decoding gives exactly the text spelled by plain characters and escaped UTF-8 bytes (section 3 of RFC 3629), and throws on anything else |
| Utf8.KeyDecodeIff | packages/contracts/infra/s3-keys.ts:18-19 | a key is decoded like that with every plus sign read as a space |
| S3Keys.RecognisedTwice | packages/contracts/infra/s3-keys.ts:18-30 | a recognised key is recognised again as itself |
| S3Keys.DerivedKeysDistinct | packages/contracts/infra/s3-keys.ts:7-12 | rendition, thumbnail and audio keys differ across kind, video, index, height and time |
| S3Keys.NoFeedbackLoop | packages/contracts/infra/s3-keys.ts:7-30 | no percent-encoding of a derived key parses as an original upload |
| UploadGate.Handler | apps/upload-service/src/lambda/upload-notifier.ts:18-47 | posts, in order, what the records call for up to the first undecodable key or refused request, whichever requests are refused, and throws exactly when there is one |
| UploadGate.PostsAreNotices | apps/upload-service/src/lambda/upload-notifier.ts:18-47 | the recognised uploads are posted in order from the first on, and all of them when nothing ends the run |
| UploadGate.PostsUpTo | apps/upload-service/src/lambda/upload-notifier.ts:18-47 | when a record ends the run exactly the uploads up to it are posted |
| UploadGate.PostedIsPublished | apps/upload-service/src/http/routes/upload.ts:38-56 | whatever the lambda posts the webhook publishes with the same key and video, unless the service's own bucket name is blank |
| UploadGate.WebhookPublishes | apps/upload-service/src/http/routes/upload.ts:38-56 | for any request: it is published exactly when its key is recognised as one of the video it names, with the service's own bucket, the key as it was sent and the video; it is ignored exactly when the key is not an upload's or names another video |
| UploadGate.UploadArrives | apps/upload-service/src/http/routes/upload.ts:18-56 | every percent-encoding of an issued key becomes an event with exactly that key and video |
| UploadGate.DerivedIsSkipped | apps/upload-service/src/lambda/upload-notifier.ts:19-24 | the workers' own objects are never posted |
| Lifecycle.Dispatcher.Process | packages/queue/src/processing-lifecycle.ts:31-59 | outcome and dispatches of one wrapped call, with the conversion of what was raised; whichever calls of the dispatcher throw, neither changes |
| Lifecycle.Dispatcher.RunJob | packages/queue/src/processing-lifecycle.ts:31-59 | a job's dispatches are those of its failed attempts, then started and completed if one succeeds, within its attempts |
| Lifecycle.WrappingIsTransparent | packages/queue/src/processing-lifecycle.ts:31-59 | the wrapped outcome is the bare one exactly when the builders the call uses do not throw and what was raised, if anything, is an Error |
| Lifecycle.CompletedBuilderFails | packages/queue/src/processing-lifecycle.ts:38-58 | a success whose completed payload cannot be built is reported as failed and thrown |
| Lifecycle.FailureAnnounced | packages/queue/src/processing-lifecycle.ts:48-57 | a failed attempt is announced as failed exactly when its builders build and the raised value can be shown as text |
| Lifecycle.FailuresAnnounced | packages/queue/src/processing-lifecycle.ts:31-59 | the dispatches of failed attempts are started and failed for each exactly when every raised value can be shown as text |
| Lifecycle.OtherValuesConverted | packages/queue/src/processing-lifecycle.ts:9-10 | a raised text ends as an Error, and a raised value that cannot be shown ends as what showing it raised, unannounced |
| FfmpegTask.PipeTask.OnWritableError | packages/ffmpeg/src/pipe-ffmpeg-to-writable.ts:61-67 | kills the process and defers the rejection to its start or close |
| FfmpegTask.PipeTask.OnError | packages/ffmpeg/src/pipe-ffmpeg-to-writable.ts:76-86 | destroys the writable, and settles a rejection that waited for the start |
| FfmpegTask.PipeTask.RejectAfterProcessExit | packages/ffmpeg/src/pipe-ffmpeg-to-writable.ts:32-59 | rejects at once unless a start or a close has to be awaited |
| FfmpegTask.SettledByFirst | packages/ffmpeg/src/pipe-ffmpeg-to-writable.ts:61-86 | for every order of events the promise resolves exactly when end comes before any error, and rejects only with the first error |
| FfmpegTask.RejectsOnceDead | packages/ffmpeg/src/pipe-ffmpeg-to-writable.ts:32-67 | after an error the promise is rejected only once no process is alive or to come, and by the time the process closed or failed to start |
| FfmpegTask.SideEffects | packages/ffmpeg/src/pipe-ffmpeg-to-writable.ts:61-86 | the writable is ended exactly when `end` came first and destroyed exactly when an ffmpeg error did, the listener is off exactly when the promise is settled, and only a writable error has the process killed |
| FfmpegTask.SettledForGood | packages/ffmpeg/src/pipe-ffmpeg-to-writable.ts:32-86 | a settled promise never changes, and after a rejection no process is ever alive |
| UploadStream.NothingLeftBehind | packages/storage/src/s3.ts:165-186 | the upload helper returns exactly when writer and upload both succeeded, and throws the first error, only after the abort with both settled and no process of a failed writer alive |
| UploadStream.ErrorStopsWriter | packages/storage/src/s3.ts:154-160 | an error on either side has reached the writer through the aborted stream |

## Left out

- The internals of BullMQ, RabbitMQ, Postgres, S3 and ffmpeg: they appear as the assumptions above.
- How often a terminal event is published: an attempt that returned has published, several may have, and none has when
  the last attempt stops between storing and publishing; what is claimed is that all published events agree.
- Restarts of a stalled job that the job store grants without charging an attempt.
- The payload schemas of the processing-step events; the audit log takes events that were accepted.
- Connecting, `getChannel` and `close` of the broker: races between closing and connecting are not handled by the code.
- `pipeFfmpegToWritable` when `pipe` throws: that path does not wait for a late process start.
- The microtask between an event and the continuation it resumes: the model resumes at once.
- Wall-clock times, log text, zod error wording and the retry delay; `updatedAt` is set but nothing is claimed about it.
- Ids, creation times and the queries of the repository that only read (`getStatusWithLogs`, `findByVideoId`).
- HTTP routing, health endpoints, environment parsing, infrastructure and build configuration.
- ffmpeg options, probing, track labels and thumbnail times; presigned URLs and file download.
- `getPublicUrl`: a parameter of the view, so the view theorem holds for every way of forming addresses.
- The metadata fields of the view, which default one by one to null: the view keeps the metadata as one value.
- The bucket and key that ride along in job data: jobs carry the video id only.
- Update in place in the step machines: `Pipeline` and `AuditLog` work on values so that every interleaving can be
  quantified over; the classes in `Rows`, `Broker`, `Service` and `AuditLog` carry the code in its imperative form.
