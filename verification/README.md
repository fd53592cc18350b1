# Verification of the build service

This project models the build worker of the service and proves properties of the model with Dafny. The
worker takes build requests from RabbitMQ, claims each one in a leased stage ledger, acknowledges it
early, builds and pushes a container image, and ends the request as a terminal ledger row with two
published events, as a delayed copy in a numbered retry queue, or as a copy in the dead-letter queue.

## Layout

- `Options.dfy`, `Text.dfy`: the optional value, and the string operations the service uses.
- `Config.dfy`, `Events.dfy`: configuration values, requests, events and event ids.
- `Ledger.dfy`: what each atomic ledger statement does to one row, and the two ledgers as classes that
  update a map in place. `LedgerRefinement.dfy` relates the two; `LedgerHistory.dfy` is about whole
  histories of statements; `LeaseRenewal.dfy` is the renewal loop against claims by others.
- `Stage.dfy`: the life of one delivery as control points, one per external call. `Paths.dfy` proves what
  all sequences of calls of one delivery have in common. `Scripts.dfy` is a second reading of the same
  source: what each call says, field by field, and which calls follow which, without the control points'
  own functions; its theorems say that the two readings agree.
- `Consumer.dfy`: the consumer as a class. Its methods follow the source statement by statement, and a
  ghost monitor makes sure that every external call they make is the one that is due in `Stage`.
- `Protocol.dfy`: any number of deliveries, workers and processes over one broker and one ledger; a step
  is the clock, an injected request, a delivery, one external call of one delivery, a renewal, the expiry
  of a delayed copy, or the stop of a process. The `Protocol*.dfy` files prove invariants of all runs;
  `ProtocolDrive.dfy`, `ProtocolWitnesses.dfy`, `ProtocolTight.dfy` and `ProtocolProgress.dfy` construct
  runs that show what is possible. `ProtocolProvenance.dfy` says where everything published and stored
  comes from, `ProtocolContents.dfy` what the queues hold.
- `Topology.dfy`: the queues that are declared on connecting.
- `ImageComponent.dfy`, `ImageReference.dfy`: how text becomes a repository path and an image reference.
- `Builder.dfy`: sequences of build runs against one registry.

## Assumptions

- There is one clock, shared by all processes, and it never goes back.
- Each ledger statement is atomic; a statement that reports an error has changed nothing. Every call of
  the broker, the ledger, git, the file system, Docker and Nixpacks may fail.
- A publication succeeds or fails; none fails and is delivered all the same. An Ack or Nack that returns
  without an error has reached the broker, although AMQP does not confirm it, and a message is not
  delivered again before the handling of its first delivery has ended.
- RabbitMQ keeps the headers of a message that it dead-letters, and its identity is tracked in the model
  through all copies. A delivery that was not acknowledged comes back to the main queue.
- Attempt headers of incoming requests are at least 0 and the maximum number of attempts is at most
  2^31, so that attempts fit the 32-bit header; `Stage.HeaderRoundTrip` says what happens beyond.
- The text of hosts, prefixes and names is a sequence of characters; a commit is a sequence of bytes.
- Lowering a character leaves `[a-z0-9._-]` and `/` alone, is idempotent, and neither makes nor
  removes white space.
- Inspecting a tag in the registry succeeds exactly when the tag is there, a successful push adds it, and
  nothing removes it.

## Facts about the code that the proofs bring out

- COMPLETED and FAILED are not absorbing, and there are two ways out of a verdict. A Release reopens a
  completed row whose success was announced (`ProtocolWitnesses.CompletedIsReopened`), and an exhausted
  retry overwrites it and announces a failure (`ProtocolWitnesses.SuccessThenFailure`).
  `ProtocolVerdicts.TerminalRowChangesExactly` says which steps change a verdict, and
  `ProtocolVerdicts.FrozenExactly` when no continuation can any more.
- Renew, Complete, Fail and Release do not check who owns the lease. Exclusion therefore needs every
  holder to be timely, and `ProtocolExclusion.LateHolderCanBeJoined` shows that it is lost in any state in
  which one is not and its row is still the one it left; `ProtocolSharing.TimelyExactly` is the exact
  statement.
- Even then exclusion does not last until runBuildEvent returns, since the lease is given up before the
  delayed copy is sent: `ProtocolSharing.SharedAfterRelease` is such a run. It lasts exactly until a
  Release is answered (`ProtocolSharing.SharedOnlyAfterRelease`,
  `ProtocolSharing.JoinableExactlyAfterRelease`).
- The service's own README (README.md:41) says that claim and build failures are retried through the TTL
  queues. In the code a failed claim is handed back to the broker at once
  (`Paths.RefusedClaimsAreHandedBack`), and a failed build is recorded and acknowledged without any
  retry (`Paths.BuildFailuresAreNotRetried`). What is retried is a failure to announce the start, to
  persist a result, or to publish one. The model follows the code.
- A failed retry or dead-letter copy after the early acknowledgement loses the request
  (`ProtocolWitnesses.LostAfterAck`); `ProtocolConservation.OnlyTheseStepsDrop` lists all steps that do.
- Host and commit normalisation are not idempotent: `ImageReference.HostFixedExactly` and
  `ImageReference.ShortShaFixedExactly` give the exact inputs.

## Model

| member | source | states |
|---|---|---|
| Config.IntOrDefault | config.go:85-91 | The value is the parsed one when that is at least 1, and otherwise the default; a usable default never gives less than 1 |
| Config.DurationsOrDefault | config.go:92-107 | The schedule is never empty and all its delays are positive; it is the parsed list exactly when every part parses to a positive duration, and the fallback otherwise |
| Text.TrimSpaceExactly | builder.go:257 | strings.TrimSpace: what is cut off at either end is white space, and what is left neither starts nor ends with any |
| Text.TrimBytesExactly | builder.go:104 | The same for text as bytes, where white space is its UTF-8 encodings (also line 295) |
| Text.EncodesSpaceExactly | builder.go:295 | The byte sequences taken for white space are exactly the UTF-8 encodings of the characters taken for it |
| Text.DecimalReadsBack | build_consumer.go:530 | A number in a queue name or status is written as the decimal numeral that stands for it, without leading zeros (also events.go:64) |
| Events.EventIdInjective | events.go:181-184 | Two event ids agree before hashing exactly when deployment and status (with the retry attempt) agree, for deployment ids with any characters |
| Ledger.PostgresStageLedger.Claim | ledger.go:76-120 | A claim inserts, refuses or takes over the row as the statement function says; a failed one leaves all rows alone |
| Ledger.PostgresStageLedger.Renew | ledger.go:121-124 | Extends the lease of a row in progress and of no other |
| Ledger.PostgresStageLedger.Set | ledger.go:125-132 | Writes state and result and clears the lease of an existing row |
| Ledger.PostgresStageLedger.Complete | ledger.go:133-135 | Set to COMPLETED |
| Ledger.PostgresStageLedger.Fail | ledger.go:136-138 | Set to FAILED |
| Ledger.PostgresStageLedger.Release | ledger.go:139-142 | Puts an existing row in progress without a lease, from any state |
| Ledger.PostgresStageLedger.RecordRetry | ledger.go:143-147 | Increments and returns the counter of an existing row, and errs without one |
| Ledger.MemoryStageLedger.Claim | ledger.go:158-180 | The claim of the in-memory ledger on its map |
| Ledger.MemoryStageLedger.Renew | ledger.go:181-186 | Extends the lease of any record, made up if missing |
| Ledger.MemoryStageLedger.Set | ledger.go:187-197 | Writes state and result and keeps the lease |
| Ledger.MemoryStageLedger.Complete | ledger.go:198-200 | Set to COMPLETED |
| Ledger.MemoryStageLedger.Fail | ledger.go:201-203 | Set to FAILED |
| Ledger.MemoryStageLedger.Release | ledger.go:204-210 | Puts the record in progress without a lease |
| Ledger.MemoryStageLedger.RecordRetry | ledger.go:211-216 | Increments and returns the counter |
| LedgerRefinement.MemKeyInjective | ledger.go:157 | Map keys of stages without NUL never collide, whatever the deployment ids contain |
| LedgerRefinement.MemKeyCollision | ledger.go:157 | With a NUL in the stage they can |
| LedgerRefinement.TablesStayCoupled | ledger.go:76-216 | One safe call gets the same observation from both ledgers and keeps every key of both tables coupled, with equal leases on rows in progress only |
| LedgerRefinement.LedgersAgree | ledger.go:76-216 | On a safe history of any length both ledgers give the same disposition, attempt, retry count, result and error at every call |
| LedgerRefinement.FreshLedgersAgree | ledger.go:76-216 | From empty ledgers this holds for every history whose calls other than Claim are on keys claimed before |
| LedgerRefinement.SafeExactlyWhenIndistinguishable | ledger.go:121-216 | A call leaves the two ledgers indistinguishable for ever if and only if it is safe: on a claimed key, or a Claim, a Release or a Renew without time on an unclaimed one |
| LedgerHistory.EveryHistoryIsAccounted | ledger.go:76-147 | After every history, attempt is the number of acquisitions, retry count the number of successful RecordRetry calls, the result the latest one written; a terminal row has no lease, and the lease of a row in progress is exactly the one its latest acquisition or renewal set, or none if that was a Release |
| LedgerHistory.TerminalRowIsLatestResult | ledger.go:104-109 | A terminal row is what the latest Complete or Fail wrote, in state and in value |
| LedgerHistory.AcquisitionBudget | ledger.go:104-119 | Acquisitions are at most one more than Releases and take-overs of expired leases together |
| LedgerHistory.AcquisitionsAreSpaced | ledger.go:110-124 | With no Release between, an acquisition comes at least the lease duration after any earlier grant or renewal of the key |
| LedgerHistory.RefusedClaimsChangeNothing | ledger.go:104-112 | A claim that is told busy, completed or failed changes no state, lease or result |
| LedgerHistory.RedeliveriesReadOneRow | ledger.go:104-109 | Any number of later claims of a terminal deployment read the very row of the latest Complete or Fail, and leave the table as it is |
| LeaseRenewal.RenewalKeepsOthersOut | build_consumer.go:501-523 | If the lease is at least 3ns, ticks come every third of it, every renewal takes effect within a slack of its tick that two periods leave of the lease, the first two are outlasted, and no two in a row fail, then every claim by others is answered busy for as long as the loop runs, and each renewal leaves a whole lease |
| LeaseRenewal.ShortLeaseIsTakenOver | build_consumer.go:506-509 | The first tick of a lease below 3ns comes after a minute, and a claim made when the lease ends is granted |
| Stage.HeaderRoundTrip | build_consumer.go:581 | An attempt written to the header is read back exactly when it fits 32 bits; of the headers of others every type of number is read and text is no attempt (also lines 647-657) |
| Consumer.BuildConsumer.AcceptDelivery | build_consumer.go:269-315 | Each delivery gets exactly one Ack or Nack; it becomes a job, in the channel or parked, exactly when its claim was granted and its early Ack went through, read off the calls made; all calls are those due |
| Consumer.BuildConsumer.ClaimAndSettle | build_consumer.go:279-308 | True exactly when the calls made are a granted claim and an Ack that went through; otherwise a stored result is replayed or the delivery is handed back |
| Consumer.BuildConsumer.Acknowledge | build_consumer.go:305-308 | The early Ack: the delivery is a job if it goes through, and back on its queue if it fails |
| Consumer.BuildConsumer.Replay | build_consumer.go:290-302 | The stored result is published and the delivery settled, or it is handed back |
| Consumer.BuildConsumer.ProcessMalformed | build_consumer.go:330-358 | Copies a malformed message to the dead-letter queue and acknowledges it, or else drops it |
| Consumer.BuildConsumer.Worker | build_consumer.go:316-328 | Every waiting job is run once, still waits, or is the one received just as the service stopped; without a stop none is lost and the worker never idles while one waits; each run ends settled, moved or dropped |
| Consumer.BuildConsumer.RunBuildEvent | build_consumer.go:391-403 | A job ends settled, moved with exactly one copy sent, or dropped with none, and makes no Ack or Nack |
| Consumer.BuildConsumer.HandleClaimedBuildEvent | build_consumer.go:411-466 | The stage body: settled, or an error that goes to scheduleRetry; on every way out its work directory is given up and no renewal is left running |
| Consumer.BuildConsumer.WorkInDirectory | build_consumer.go:418-466 | The part after the start was announced: a directory that cannot be made is a failure, and one that was made is removed at the end |
| Consumer.BuildConsumer.InNewDirectory | build_consumer.go:422-466 | The directory that was made is given up when the stage body returns |
| Consumer.BuildConsumer.FailBeforeBuild | build_consumer.go:418-434 | A failure before the build is settled once recorded and announced, and otherwise goes to scheduleRetry |
| Consumer.BuildConsumer.CloneAndBuild | build_consumer.go:427-466 | The part inside the work directory, with the failure of a clone recorded and announced |
| Consumer.BuildConsumer.BuildAndSettle | build_consumer.go:440-466 | Every call from the build to the return is made while the lease is renewed, and none before or after; a failed build is acked |
| Consumer.BuildConsumer.CompleteSuccess | build_consumer.go:449-466 | The calls made are Complete with both events of the request and its result under their own keys, then that service event, then that progress event, each after the one before succeeded; acknowledged exactly if all three did |
| Consumer.BuildConsumer.CompleteFailure | build_consumer.go:683-710 | The calls made are Fail with both events of the request and the reason, without a result and under their own keys, then that service event, then that progress event, each after the one before succeeded; acknowledged exactly if all three did |
| Consumer.BuildConsumer.ScheduleRetry | build_consumer.go:538-612 | Returns no error exactly when one copy of the message was sent, to a retry queue or the dead-letter queue; with an error none was |
| Consumer.BuildConsumer.Republish | build_consumer.go:573-611 | Gives up the lease of a counted retry, then sends the delayed copy, on the consumer channel if the publisher fails |
| Consumer.BuildConsumer.CountAttempt | build_consumer.go:539-559 | The attempt is the larger of the count the ledger answered and the header, or one more than the header when it errs |
| Consumer.BuildConsumer.EmitExhausted | build_consumer.go:671-681 | Goes on to the dead-letter copy only after the failure was persisted and announced |
| Consumer.BuildConsumer.CopyToDlqWithAttempt | build_consumer.go:622-635 | Sends the message, unchanged but for two headers, to the dead-letter queue |
| Consumer.BuildConsumer.PublishBundle | build_consumer.go:476-500 | Replays a stored pair, service event first |
| Paths.OneVerdictPerDelivery | build_consumer.go:269-358 | Whatever the outcomes, a delivery gets one Ack or Nack call and a job none after its early Ack |
| Paths.JobSendsAtMostOneCopy | build_consumer.go:391-403 | A job moves its message exactly when it sent one copy, and never sends two (also lines 538-612) |
| Paths.DeliveryAndJob | build_consumer.go:269-403 | The calls of acceptDelivery, the job being taken and the calls of runBuildEvent make one path, over the whole of which there is one Ack or Nack, and one copy exactly if the message ends moved |
| Paths.RetryCopiesAreProper | build_consumer.go:573-611 | For incoming attempts of at least 0 and counters of at least 1, every copy that scheduleRetry tries to send has the same body and other headers; a retry copy carries an attempt from 1 to the maximum less 1 and goes to the queue of that number, or the last one (also lines 625-635) |
| Paths.ExhaustionIsOrdered | build_consumer.go:560-567 | A counted failure at the limit makes a prefix of Fail, build.failed, deployment.build.failed, dead-letter copy, each only after the one before succeeded, with no Release and no retrying event, and moves the message only at the end (also lines 671-710) |
| Paths.BuildFailuresAreNotRetried | build_consumer.go:444-448 | A failed build makes a prefix of Fail, build.failed, deployment.build.failed, and is then settled, even if one of them fails, with no retry and no copy (also lines 683-710) |
| Paths.RefusedClaimsAreHandedBack | build_consumer.go:280-289 | After a claim that failed, or was answered busy, or with a terminal row without a result, all that follows is one Nack with requeue |
| Paths.ReplayIsExact | build_consumer.go:290-302 | After a claim answered with a terminal row that holds a result: the stored pair is published in order, then acknowledged, or handed back after the failed call; nothing else is done |
| Scripts.JobsAreAcknowledged | build_consumer.go:279-308 | A delivery reaches the jobs channel if and only if its first two calls are a granted claim and an Ack without error; an Ack that fails after a granted claim ends it and the message is on its queue again |
| Scripts.JobsFollowTheirScript | build_consumer.go:411-466 | Every job: up to its first error its calls are start event, directory, clone, build, Complete, service event, progress event, with every exchange, key and field written out, and the rest of the job starts from what that error leads to |
| Scripts.FailuresFollowTheirScript | build_consumer.go:683-710 | The same for the three calls of completeFailure at each of its sites: an error leads to a retry before the build, to nothing after it, and to the loss of an exhausted request |
| Scripts.RetriesFollowTheirScript | build_consumer.go:538-612 | The same for scheduleRetry: the attempt is what the ledger and the header say; below the limit come retrying event, Release, delayed copy and, if that failed, the copy again; at the limit the failure of the exhausted request is due |
| Scripts.MalformedFollowTheirScript | build_consumer.go:330-358 | A message that does not decode, names no deployment or has no address is copied to the dead-letter queue under its own attempt and that reason, then acknowledged, or not requeued if the copy failed |
| Scripts.CopiesAreLabelled | build_consumer.go:577-583 | A copy is the message with exactly two more headers, the attempt as 32 bits keep it and the reason (also lines 625-635) |
| Scripts.CallsAreGenuine | events.go:63-179 | On every path every event published is told of the own request with the fields its type asks for, a success of the own build, or is half of the bundle the claim was answered with; every result stored is the own one |
| Protocol.StepFrames | build_consumer.go:269-403 | A step moves no request but the one it names |
| ProtocolLedger.LedgerFollowsLog | ledger.go:76-147 | In every run the table is what the logged statements make of an empty ledger, in clock order |
| ProtocolLedger.RowsAreAccounted | migrations/001_stage_ledger.sql:2-11 | In every reachable state all rows satisfy the schema's checks and the accounting of their history |
| ProtocolConservation.RequestsAreConserved | build_consumer.go:269-403 | In every reachable state each well-formed request is in exactly one of main queue, pipeline, retry queue, dead-letter queue, settled or dropped, with its body unchanged; a malformed one too, but for a redelivery after its dead-letter copy |
| ProtocolConservation.OnlyTheseStepsDrop | build_consumer.go:343-357 | A step drops a request if and only if it is one of those listed: no copy of a malformed message, a failed publication after the early Ack, or a stop with a job pending (also lines 391-403, 560-611) |
| ProtocolConservation.EveryDeliveryGetsOneVerdict | build_consumer.go:269-358 | In every run the deliveries of a request are as many as its Ack and Nack calls, those cut short by a stop, and the one still unsettled |
| ProtocolContents.QueuesHoldWhatWasSent | build_consumer.go:577-635 | In every reachable state a request is the message it came as or the copy last sent to a retry queue, in the queue it was sent to; in the dead-letter queue it is the copy sent there |
| ProtocolTraces.RunsFollowPaths | build_consumer.go:269-403 | In every reachable state the effects of a delivery in progress since it was delivered, renewals aside, are a path from its start to where it stands |
| ProtocolTraces.EndsCompletePaths | build_consumer.go:269-403 | In every run the step by which a delivery ends completes a path from its start to that end, so what is proved of all paths holds in all runs |
| ProtocolProvenance.RunsAreDocumented | build_consumer.go:269-403 | In every run every call lies on a path of its own request or renews the lease of its running build, and every ledger call is answered by the ledger of the calls before it (also lines 501-523) |
| ProtocolProvenance.JobsWereAcknowledged | build_consumer.go:305-328 | In every run a job is taken only for a delivery whose calls so far are a granted claim and an Ack without error |
| ProtocolProvenance.ResultsAreOwn | build_consumer.go:448-457 | In every run a success written to the ledger is that of a build of the writing request, with its events under their own keys, and a failure is that of the writing request (also lines 683-695) |
| ProtocolProvenance.PublicationsAreGenuine | build_consumer.go:449-500 | In every run every publication, first or replayed, goes to the exchange and key of its event type, has the id, status and fields of the request it is told of, and tells of a success only what a build of that request gave (also events.go:63-179) |
| ProtocolExclusion.AtMostOneHolder | build_consumer.go:279-303 | Over all interleavings with timely holders, no two deliveries of one deployment are between their claim and an answered Release or their end, and each holder's row is the one it left (also lines 391-403, 588-591) |
| ProtocolExclusion.ClaimAgainstHolder | ledger.go:104-112 | A claim against a timely holder is refused and changes nothing |
| ProtocolExclusion.LateHolderCanBeJoined | ledger.go:110-142 | From any state with a holder whose lease ran out before its result and whose row is still the one it left, three steps lead to two holders |
| ProtocolExclusion.JoinedIfTakeable | ledger.go:104-119 | In every state that conserves its requests, a second delivery of a deployment gets past its claim beside one that is past its own if and only if the row is in progress without a live lease |
| ProtocolSharing.SharedOnlyAfterRelease | build_consumer.go:391-403 | In every timely run, up to the return of runBuildEvent: two deliveries of one deployment are both past their claim only if one of them has nothing left but to send its delayed copy, after an answered Release |
| ProtocolSharing.JoinableExactlyAfterRelease | build_consumer.go:588-611 | In every timely run, a delivery past its claim can be joined by a second one if and only if its Release was answered and the row is free; after a Release that failed it cannot |
| ProtocolSharing.TimelyExactly | ledger.go:110-142 | In every timely run: the last state is timely if and only if no holder in it can be joined by a second holder |
| ProtocolSharing.SharedAfterRelease | build_consumer.go:588-611 | If more than one attempt is allowed, then for every acceptable request whose header is below the limit there is a timely run with two deliveries of its deployment past their claim, the first still in its job |
| ProtocolSharing.ExclusionFailsWhenLate | ledger.go:110-142 | A state with a late holder can be reached, and two holders from it, for every acceptable request |
| ProtocolRetry.ReleaseBudget | build_consumer.go:538-591 | While RecordRetry does not err, a deployment is released at most maximum less 1 times by all workers, and acquired at most maximum times plus once for each expired lease |
| ProtocolRetry.ReopenedExactlyByRelease | ledger.go:139-142 | A step reopens a terminal row if and only if it is the Release of a job with a counted retry to send |
| ProtocolRetry.SpentRowsStayTerminal | build_consumer.go:538-591 | While RecordRetry does not err: once the retries are used up and all recorded ones have made their Release, a terminal row never returns to IN_PROGRESS, in any continuation; its verdict may still change |
| ProtocolDrive.WalkArrives | build_consumer.go:269-403 | A run that moves one delivery only does what its task and its ledger row determine, and leaves every other request where it is |
| ProtocolVerdicts.TerminalRowChangesExactly | ledger.go:125-142 | A step changes state or result of a terminal row if and only if it is an answered Release of the deployment, or an answered Complete or Fail that writes something else |
| ProtocolVerdicts.FrozenExactly | build_consumer.go:391-466 | A terminal row keeps its state and result in every continuation if and only if no delivery of its deployment stands at a point from which it can overturn them, with no assumption on time, ledger answers or other deliveries (also lines 538-612, 683-710) |
| ProtocolWitnesses.CompletedIsReopened | build_consumer.go:454-464 | If more than one attempt is allowed, then for every acceptable request whose header is below the limit there is a run whose last step reopens a COMPLETED row whose success was announced (also lines 588-591) |
| ProtocolWitnesses.SuccessThenFailure | build_consumer.go:454-464 | For every acceptable request there is a run in which its success is announced and then its failure, the row ending FAILED (also lines 560-567, 697-707) |
| ProtocolWitnesses.LostAfterAck | build_consumer.go:391-403 | For every acceptable request there is a run that ends with the request lost, in no queue, although its delivery was acknowledged |
| ProtocolChain.RetryChainsTerminate | build_consumer.go:538-582 | However RecordRetry fails, at most 2 * (maximum less 1) retry copies are sent for one request, each with an attempt below the maximum and in the queue of its number (also lines 647-657) |
| ProtocolPublishing.PersistBeforePublish | build_consumer.go:449-465 | In every run and on every path, a terminal service event is published only after the ledger was told that very event in a write of the same kind, and a terminal progress event only after its service event was published (also lines 476-500, 671-710) |
| ProtocolPublishing.ReplaySource | build_consumer.go:290-302 | In every run, what a redelivery replays is the latest Complete or Fail of its deployment, with the ids of its first publication, and its claim leaves the ledger alone |
| ProtocolOutcomes.EndsAreTold | build_consumer.go:442-465 | In every reachable state, a well-formed request in the dead-letter queue has itself written a failure of its deployment, then published build.failed and then deployment.build.failed for it; a settled one has had a result of its deployment written and announced by both events, or a build of its own failed (also lines 476-500, 560-567, 683-710) |
| ProtocolProgress.NothingGetsStuck | build_consumer.go:269-403 | From every reachable state, every well-formed request that is not lost has a continuation that settles it or moves it to the dead-letter queue |
| ProtocolEvents.HeadersNeverAhead | build_consumer.go:538-572 | While RecordRetry works and chains start at header zero, no circulating attempt exceeds the durable counter (also lines 647-657) |
| ProtocolEvents.RetryingEventsAreDistinct | events.go:63-65 | In the same runs no two retrying events have the same id |
| ProtocolExecutions.ExactlyMaxAttempts | build_consumer.go:538-582 | In the same runs, a request that is alone on its deployment and ends in the dead-letter queue was executed exactly the maximum number of times |
| ProtocolExecutions.ExecutionsAreBounded | build_consumer.go:538-582 | However RecordRetry fails and however often it is redelivered, a request is executed at most 2 * maximum - 1 times |
| ProtocolTight.BoundsAreAttained | build_consumer.go:538-582 | For every acceptable request with no attempts behind it there is a run with exactly 2 * (maximum - 1) retry copies and 2 * maximum - 1 executions |
| Topology.DeclareRetryTopology | build_consumer.go:525-537 | On success the dead-letter queue and all numbered retry queues are declared with their arguments, and nothing that was there is changed |
| Topology.DeclareTopology | build_consumer.go:138-150 | On success the main queue is declared and bound as well |
| Topology.RetriesComeHome | build_consumer.go:525-537 | The queue of every attempt from 0 on is declared, holds a message for that attempt's delay exactly when the delay fits 32 bits of milliseconds, and hands it back to the main queue (also lines 573-594) |
| Topology.DeclaredExactly | build_consumer.go:573-594 | The queue an attempt is sent to is one of the declared retry queues if and only if the attempt is not negative |
| Topology.RetryQueuesDiffer | build_consumer.go:530 | Different numbers name different queues (also lines 594) |
| ImageComponent.SanitizeImageComponent | builder.go:256-292 | The loop over buffer and flag computes the runs of the text, or the fallback |
| ImageComponent.RunsOfSegments | builder.go:262-287 | However a text is read as alternating gaps and alphanumeric runs, the result is the runs joined by the first character of each inner gap if that is a dot or an underscore, and a dash otherwise |
| ImageComponent.EveryTextIsSegmented | builder.go:262-287 | Every text can be read that way |
| ImageComponent.ComponentOfSegments | builder.go:256-292 | The same for a value: it is trimmed, each character is lowered, and the fallback stands for a value without runs |
| ImageComponent.ComponentShape | builder.go:262-287 | The grammar [a-z0-9]+([._-][a-z0-9]+)* by positions |
| ImageComponent.ResultsAreExactlyComponents | builder.go:256-292 | The results other than the fallback are exactly the strings of that grammar, and each of them is its own result |
| ImageComponent.FallbackExactly | builder.go:257-260 | The fallback is used exactly when nothing alphanumeric is left (also lines 287-291) |
| ImageComponent.SanitizingIsIdempotent | builder.go:256-292 | Sanitising again changes nothing, for every fallback that is itself a component, as both of the source are |
| ImageReference.HostExactly | builder.go:235-237 | Of a host its characters between white space are left, each lowered, without one slash at the end |
| ImageReference.NormalizeRepositoryPrefix | builder.go:239-254 | The loop keeps the components of the parts, in order, joined by slashes |
| ImageReference.PartsBecomeComponents | builder.go:239-254 | Part by part, a prefix keeps the runs of a part in its place and loses a part without any |
| ImageReference.PrefixFixedExactly | builder.go:239-254 | A prefix is left alone exactly when it is empty or components joined by single slashes |
| ImageReference.PrefixIsIdempotent | builder.go:239-254 | Every normalised prefix is such a one, so normalising again changes nothing |
| ImageReference.ReferenceLayout | builder.go:211-233 | Host, kept prefix parts, project, service and the first twelve bytes of the trimmed commit, each in its place, and which missing value is reported when |
| ImageReference.PathIsGrammatical | builder.go:222-232 | The path is a <name> of the OCI Distribution Specification and splits back into its components, for all inputs |
| ImageReference.TagIsGrammatical | builder.go:294-300 | The tag is a valid tag there when the commit is what git prints |
| ImageReference.ShortShaIsPrefix | builder.go:294-300 | A short commit is a prefix of the trimmed one, of twelve bytes or all of it |
| ImageReference.ReferencesAgreeExactly | builder.go:211-233 | For one registry configuration two references agree if and only if sanitised project and sanitised service do and the trimmed commits agree in their first twelve bytes, whatever characters host and commit hold |
| ImageReference.HostFixedExactly | builder.go:235-237 | Normalising a host again changes nothing if and only if no slash stands last behind another slash or a space |
| ImageReference.ShortShaFixedExactly | builder.go:294-300 | The short commit is the first twelve bytes of the trimmed one; shortening again changes nothing if and only if that cut leaves no white space at the end, for all bytes |
| ImageReference.NormalizingAgainCanMatter | builder.go:235-237 | Inputs for which each of the two does change (also lines 294-300) |
| Builder.CommandBuilder.BuildAndPush | builder.go:53-93 | Each run keeps to the order and causes of its commands and to its verdict; its commit is the trimmed output of its own git command, its tag the reference of that commit, and without an error the commit is not empty and the tag is in the registry |
| Builder.CommandBuilder.BuildReference | builder.go:67-92 | The part after the reference is known: past the login the local image is removed on every way out |
| Builder.CommandBuilder.InspectBuildPush | builder.go:77-92 | Builds only a tag that is not in the registry, and pushes only what was built |
| Builder.CommandBuilder.BuildImage | builder.go:112-140 | Nixpacks first, and docker build exactly when it failed and there is a Dockerfile |
| Builder.CommandBuilder.HasDockerfile | builder.go:199-209 | A plain file counts, a directory or nothing does not, and any other trouble is an error |
| Builder.CommandBuilder.RegistryDockerEnv | builder.go:142-166 | Logs in with the configured credentials, or leaves no command behind; incomplete ones are refused before the login |
| Builder.CommandBuilder.ValidateRegistryConfig | builder.go:186-197 | Accepts exactly complete credentials, and names the first that is missing |
| Builder.CommandBuilder.ResolveCommitSha | builder.go:95-110 | The commit is the trimmed output of git; an error exactly if git failed or printed nothing but white space |
| Builder.PushedAtMostOnce | builder.go:77-92 | Over any sequence of runs a tag is pushed once if it came to be in the registry, and otherwise never (also lines 168-184) |
| Builder.LogsInAsConfigured | builder.go:158-163 | Every login is to the normalised host with the configured user name and password, which are complete |
| Builder.LaterRunsReuse | builder.go:77-80 | After a run without error, a later one for the same project and service, in which git prints a commit of the same first twelve bytes and that gets past the login, returns the same tag, builds nothing, pushes nothing and succeeds |
| Builder.RemovesItsImageOnce | builder.go:71-75 | A run that gets past the login ends by removing its local image, once, and no other run removes one |

## Left out

- The consumer without a ledger: the constructor never yields one, so those branches are not modelled.
- processDelivery and handleBuildEvent for well-formed messages: acceptDelivery calls them for malformed ones only, so the busy-lease error and the nil channel cannot arise there.
- The error value errStoredResultPublish: the code tests for it but never produces it.
- JSON encoding: bodies decode or do not; stored results are kept as values, and one that is missing is handed back to the broker like one that does not decode.
- Events.EventIdInjective: speaks of the text before SHA-256; the hash itself is not modelled.
- Timestamps of events and rows, the last_error column, redaction and sanitising of stored text and of error reasons: reasons are passed on as they are.
- The SQL driver, transactions and the width of the integer columns: each statement is one step on unbounded integers.
- Connecting, reconnecting, publisher confirms, health checks, and the limit of 15 seconds on calls and of two hours on a build: a call that runs out of time is a call that fails.
- Git clone, GitHub tokens and temporary directories: the clone is a call with any outcome, and that removing the work directory may itself fail is not modelled.
- One worker per process: the runs of `Protocol` let any number of jobs run at once, which includes all runs of the service. The order in which parked jobs reach the channel is arbitrary.
- Renewals after the stage body has returned: a renewal that is under way when it is cancelled is not modelled.
- startLeaseRenewal is modelled on values, by its ticks and the claims between them, since its goroutine shares no variable with the job.
- The delay of a copy in a retry queue is proved for the declared queues; in `Protocol` a delayed copy may come back at any time.
- The exit of a build run by a panic, and image tags pushed by others between inspection and push: runs of `Builder` follow one another.
- Unicode case tables: lowering is any function that meets the assumption above.
- The demonstration consumer in the rabbitMQConsumer directory, main.go and the container files: wiring only.
