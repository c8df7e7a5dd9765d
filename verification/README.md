# Payment processing: a verified model

The service takes payment requests over HTTP, stores each payment together with an outbox row, relays
the rows to RabbitMQ, charges every payment once at a (random) gateway, and posts a webhook with the
outcome. All of it is at-least-once: workers may crash anywhere, commits and publishes may raise after
taking effect, and no row update is fenced. This project models that protocol and proves what it
guarantees, for every interleaving of any number of API calls, relay workers and consumers.

The model is written at two levels.

* **Step machines.** `Relay` (outbox rows, claimed snapshots, purge), `Ledger` (payments, charges,
  inbox, webhooks), `Creation` (concurrent create calls) and `Protocol` (all of them plus the three
  queues and the consumers). A step is one committed unit of work or one broker action; `Enabled` and
  `Apply` define it, `IsRun` is a finite run from the empty service. Every outside choice (random draw,
  clock reading, HTTP answer, commit or publish outcome, crash) is a parameter of the step. A clock
  reading is any time not after the step that commits it.
* **Code.** Classes with the loops and updates of the original (`OutboxTable.Store`,
  `PublishOutbox.Publisher`, `ProcessPayment.Consumer`, `Creation.Service`, `Dispatch.Dispatcher`,
  `PollLoop.OutboxRelay`, `Payments.Payment`), each proved against a specification function; the relay
  loop and the message handler are also proved to take only steps of their machine
  (`PublishMeaning.PollExtendsRun`, the ghost `model` of `ProcessPayment.Consumer`), and the dispatcher and
  the message format to be what `Protocol` assumes (`Refinement`).

Where to look first: `NoLoss.NoPaymentIsLost`, `Projection.OneOutcomePerPayment`,
`RelayLease.TimelyRowHistory`, `RelayTimes.LeaseHolds`, `LedgerSafety.ChargingRefinesRegister`,
`LedgerSafety.FirstDrawDecides`, `LedgerSerial.AcceptanceLaw`, `Deliveries.DeliveriesAreBounded`,
`Creation.CallsAgreeWithStore`, `ProcessPayment.Consumer.Execute`, `PublishMeaning.PollExtendsRun`.

## Promises that hold only under a condition

* A PROCESSED outbox row is final in a run whose workers respect their lease, except in exactly one
  case: the marking commit raised after taking effect, and the same worker then released the row as a
  failed delivery. `RelayLease.TimelyRowHistory` states the equivalence, `FinalRowsStay` the guarantee
  without that case, and `AmbiguousMarkReopensRow` and `LateReleaseReopensRow` are concrete runs that
  show neither condition can be dropped.
* The relay loop survives errors only up to 1024 consecutive raising polls. The next one computes
  `2 ** 1024`, which Python cannot convert to a float, outside the guarded call, and the loop ends.
  `PollLoop.OutboxRelay.Run` ends as `Died` exactly in that case, `TooManyRaises` is the input, and
  `StreakIsConsecutive` says what the streak is. A restart does not reset it.
* At most one accepted webhook per message holds exactly when at most one run has entered the gap between
  acceptance and the inbox entry (`LedgerSerial.AcceptanceLaw`, `AtMostOneExactly`). Runs of the message that
  do not overlap enter it again only after one stopped in it (`DuplicatesComeFromStops`). `StopDuplicates` and
  `OverlapDuplicates` are concrete runs of the two ways to a second webhook.

The repository's README says that a message is dead-lettered when the handler dies before forwarding it.
The code does that only when forwarding raises (`Dispatch.Dispatcher.DispatchNext`); after a process
crash the delivery is unacknowledged and goes back to `payments.new` (`Protocol`, step `Die`). The model
follows the code.

## Assumptions

A unit of work is atomic, row locks and the unique key work, and uuids are fresh. Queues are durable and
bound as declared; dead-lettering is an atomic move; a retry message may return to `payments.new` at any
later moment. Decoding a JSON body gives back the encoded tree. Times and delays are reals.

## Model

| member | source | states |
|---|---|---|
| NoLoss.NoPaymentIsLost | src/application/use_cases/create_payment.py:51-63 | in every reachable state of the whole service, a committed payment is final with a webhook answered 200..299, or has an outbox row that is not PROCESSED, or a copy of its message in a queue or with a consumer |
| NoLoss.StepKeepsInv | src/presentation/amqp/dispatcher.py:36-62 | every step keeps the global invariant: an accepted row's message survives until its payment is settled, consumers and handler runs match, messages are about their row's payment |
| NoLoss.CarriedMoves | src/presentation/amqp/dispatcher.py:38-62 | one step of anybody: a delivery stays with its consumer, or the broker has the message back, or exactly one retry copy or dead letter of it has been added, or its payment is settled |
| NoLoss.CarriedStaysLive | src/presentation/amqp/dispatcher.py:38-62 | so a copy stays live or the payment is settled |
| NoLoss.QueuedMoves | src/infrastructure/messaging/topology.py:24-48 | per copy: a queued message leaves payments.new only to its consumer, payments.new.retry only to payments.new, and the dead letters never |
| NoLoss.ReachableInv | src/presentation/amqp/dispatcher.py:36-62 | the global invariant holds in every state of every run |
| Projection.RelayRun | src/application/use_cases/publish_outbox.py:62-135 | a run of the service is, state by state and step by step with the resting steps left out, a run of the relay machine |
| Projection.FinalRowsStay | src/infrastructure/persistence/repositories/outbox_queue.py:57-92 | service-wide, timely and without ambiguous marks: final rows stay until purged |
| Projection.RowHistory | src/application/use_cases/publish_outbox.py:109-135 | service-wide and timely: the exact history of a row under every kind of service step |
| Projection.OneHolder | src/infrastructure/persistence/repositories/outbox_claim.py:23-28 | service-wide and timely: no record is held twice |
| Projection.PublishedForever | src/infrastructure/persistence/repositories/outbox_queue.py:57-92 | service-wide, late workers included: a publication time stays until the purge |
| Projection.LedgerRun | src/application/use_cases/process_payment.py:30-41 | likewise a run of the ledger machine |
| Projection.OutcomeNeverChanges | src/domain/payment.py:154-159 | service-wide, between any two times: a seen outcome and a final payment stay |
| Projection.AcceptanceLaw | src/application/use_cases/process_payment.py:36-41 | service-wide: the exact number of accepted webhooks of a message |
| Projection.DuplicatesComeFromStops | src/infrastructure/persistence/repositories/inbox.py:16-26 | service-wide, without overlaps: one accepted webhook plus one per run that stopped in the gap |
| Projection.CreationRun | src/application/use_cases/create_payment.py:37-77 | likewise a run of the creation machine: processing is seen there only as progress of a payment's status |
| Projection.OneOutcomePerPayment | src/application/payments/webhook_payload.py:10-18 | service-wide, every webhook of a payment says SUCCEEDED exactly when the one stored charge did, with the amount some create call passed and the stored processing time |
| Projection.FirstDrawDecides | src/infrastructure/gateway/random_emulator.py:29-36 | service-wide, the final status is the first draw that took effect, however many were made |
| Projection.EveryPaymentWasAsked | src/application/use_cases/create_payment.py:37-63 | service-wide, every payment has the terms a create call passed |
| Projection.DeliveryIsPossible | src/presentation/amqp/subscriber.py:24-35 | every queued message can be handled: its id was always about the same payment |
| Refinement.ForwardRefines | src/presentation/amqp/failures.py:25-78 | the dispatcher's forwarding of a real envelope is the protocol's forwarding step, copies, identity and acknowledgement alike |
| Refinement.HandlerErrorIsRouted | src/presentation/amqp/dispatcher.py:36-44 | the dispatcher acknowledges exactly a normal end of the handler and forwards exactly the error it raised |
| Refinement.ResentExactly | src/application/retry/policy.py:33-45 | what is resent: transient and unknown errors with attempts left |
| Refinement.RelayMayFail | src/application/use_cases/publish_outbox.py:70-79 | the relay machine rules out no crash and no outcome of a publish or a marking commit |
| Refinement.HandlerMayFail | src/application/use_cases/process_payment.py:30-41 | the ledger machine rules out no stop, error, commit outcome, draw or answer |
| Refinement.ConsumerMayFail | src/presentation/amqp/dispatcher.py:46-62 | the protocol rules out no crash, lost connection or forwarding outcome |
| Refinement.PublishRefines | src/application/outbox/codec.py:16-27 | the envelope the relay encodes carries exactly the protocol's message |
| RelaySafety.ReachableInv | src/infrastructure/persistence/repositories/outbox_queue.py:27-92 | rows, in-flight snapshots and purged rows satisfy the relay invariant in every run, however late the workers |
| RelaySafety.StepKeepsInv | src/application/use_cases/publish_outbox.py:89-135 | each committed step keeps it, including unfenced late marks and releases |
| RelaySafety.RowsStayWellFormed | src/application/use_cases/publish_outbox.py:114-135 | PROCESSING exactly when claimed, a retry time only on NEW rows, retry counts below the limit until FAILED, which is exactly at it |
| RelaySafety.PublishedMeansAccepted | src/application/use_cases/publish_outbox.py:101-112 | a publication time, PROCESSED or a purge proves that the broker took the message; an unaccepted row is still there and not PROCESSED |
| RelaySafety.PublishedForever | src/infrastructure/persistence/repositories/outbox_queue.py:57-92 | a publication time is never cleared by any later step, until the row is purged |
| RelaySafety.PurgeRespectsRetention | src/application/outbox/purge.py:23-30 | only the purge removes rows, and only published ones strictly older than the retention period |
| RelaySafety.NoRowIsStranded | src/infrastructure/persistence/repositories/outbox_claim.py:18-28 | whatever crashed, a NEW or PROCESSING row is claimable once the retry cap and the claim timeout have passed, and stays so |
| RelaySafety.StrandedRowCanBeClaimed | src/application/use_cases/publish_outbox.py:89-99 | an idle worker can then actually claim it |
| RelaySafety.ClaimWaits | src/infrastructure/persistence/repositories/outbox_claim.py:18-28 | a row is taken only when its retry time or the previous lease is over, never out of PROCESSED or FAILED, and is stamped with the claim's own clock reading |
| RelayTimes.LeaseHolds | src/infrastructure/persistence/repositories/outbox_queue.py:46-55 | over runs: between two claims of a row that nobody marked or released lies at least the claim timeout |
| RelayTimes.LeaseEnds | src/infrastructure/persistence/repositories/outbox_claim.py:23-28 | over runs: an untouched claimed row can be claimed again exactly from then on |
| RelayTimes.RetryWaits | src/application/use_cases/publish_outbox.py:114-135 | over runs: an untouched released row can be claimed again exactly when the backoff of its attempt is over, and never after its last attempt |
| RelayTimes.RetentionEnds | src/application/outbox/purge.py:23-30 | over runs: an untouched published row can be purged exactly when the retention period since its mark is over |
| RelayTimes.ClaimableExactly | src/infrastructure/persistence/repositories/outbox_claim.py:13-28 | which rows a claim may take, by their columns |
| RelayTimes.PurgeableExactly | src/infrastructure/persistence/repositories/outbox_queue.py:116-133 | which rows a purge may take, by their columns |
| RelayTimes.ClaimWrites | src/infrastructure/persistence/repositories/outbox_queue.py:46-55 | what a claim writes, column by column, and that the worker gets exactly that |
| RelayTimes.MarkWrites | src/infrastructure/persistence/repositories/outbox_queue.py:57-72 | what a mark writes |
| RelayTimes.ReleaseWrites | src/application/use_cases/publish_outbox.py:114-135 | what a release writes, with the wait as a range of the doubled delay |
| RelayTimes.InsertWrites | src/infrastructure/persistence/repositories/outbox_writer.py:24-35 | what a new row is |
| RelayLease.OneHolder | src/infrastructure/persistence/repositories/outbox_claim.py:23-28 | in a timely run no record is held twice |
| RelayLease.TimelyRowHistory | src/application/use_cases/publish_outbox.py:109-135 | in a timely run FAILED is final, PROCESSED is left exactly after an ambiguous marking commit, and the retry count grows by one per recorded failure and never otherwise |
| RelayLease.FinalRowsStay | src/infrastructure/persistence/repositories/outbox_queue.py:57-92 | in a timely run without ambiguous marks PROCESSED and FAILED rows never change until purged, and never come back |
| RelayLease.StepKeepsOwned | src/infrastructure/persistence/repositories/outbox_queue.py:34-55 | exclusive ownership is kept by every timely step, because a held row is not eligible |
| RelayLease.AmbiguousMarkReopensRow | src/application/use_cases/publish_outbox.py:70-79 | a timely run in which a published row returns to NEW |
| RelayLease.LateReleaseReopensRow | src/infrastructure/persistence/repositories/outbox_queue.py:74-92 | a run without ambiguous commits in which a late release reopens another worker's published row |
| OutboxTable.Store.ClaimBatch | tests/application/fakes/memory.py:138-164 | the claim loop returns what the SQL claim may return; row by row, a due unlocked row is stamped with now and returned, or left because the limit was reached, and all others are unchanged |
| OutboxTable.SelectIsClaim | src/infrastructure/persistence/repositories/outbox_queue.py:34-55 | selecting in creation order up to the limit gives distinct eligible unlocked rows, oldest first, with no older one left behind |
| OutboxTable.ClaimSize | src/infrastructure/persistence/repositories/outbox_queue.py:34-44 | a claim takes exactly min(limit, claimable) rows |
| ClaimLocks.OverlappingClaimsAreDisjoint | src/infrastructure/persistence/repositories/outbox_queue.py:34-42 | with any number of claim transactions open at once, each skipping the rows the others have locked, no two share a row |
| ClaimLocks.CommitIsAStep | src/infrastructure/persistence/repositories/outbox_queue.py:34-55 | committing an open claim, however late and whatever others wrote meanwhile, is one claim step of the relay machine at that moment |
| OutboxTable.Store.MarkProcessed | src/infrastructure/persistence/repositories/outbox_queue.py:57-72 | updates the row with this id and nothing else, or nothing |
| OutboxTable.Store.Release | src/infrastructure/persistence/repositories/outbox_queue.py:74-92 | likewise for a release |
| OutboxTable.Store.CountPending | src/infrastructure/persistence/repositories/outbox_queue.py:104-109 | counts the NEW and PROCESSING ids of the table |
| OutboxTable.Store.CountFailed | src/infrastructure/persistence/repositories/outbox_queue.py:111-114 | counts the FAILED ids |
| OutboxTable.Store.DeleteProcessedBefore | src/infrastructure/persistence/repositories/outbox_queue.py:116-133 | deletes only PROCESSED rows published before the cutoff, exactly those while there is room, and returns how many |
| OutboxTable.SplitIsPurge | tests/application/fakes/memory.py:229-247 | the keep-or-drop loop means that at the level of the table |
| PublishOutbox.Publisher.Execute | src/application/use_cases/publish_outbox.py:62-99 | one poll claims, then purges or delivers the batch as `DeliverAll` says, and exports the counts of the resulting table; with every commit and the counting free to raise: a raising claim ends the poll at once, anything later still refreshes the gauges |
| PublishOutbox.Publisher.PublishBatch | src/application/use_cases/publish_outbox.py:70-84 | the delivery loop with its error handling computes `DeliverAll` |
| PublishMeaning.BatchSettles | src/application/use_cases/publish_outbox.py:101-135 | a batch that returns leaves each record published, or NEW with one more retry after the right delay, or FAILED |
| PublishMeaning.Untouched | src/application/use_cases/publish_outbox.py:70-84 | rows outside the batch are not touched |
| PublishMeaning.BatchCounts | src/application/use_cases/publish_outbox.py:73-84 | published plus recorded errors is the batch size, and accepted messages go out in claim order |
| PublishMeaning.BatchRaises | src/application/use_cases/publish_outbox.py:73-79 | a batch raises exactly when the release of some unpublished record does |
| PublishMeaning.BatchConservesLoad | src/infrastructure/persistence/repositories/outbox_queue.py:104-114 | pending rows drop by exactly the published and the newly failed ones |
| PublishMeaning.BatchLeads | src/application/use_cases/publish_outbox.py:70-87 | the batch, exceptions included, is a run of the relay machine with the same table and accepted messages |
| PublishMeaning.PollExtendsRun | src/application/use_cases/publish_outbox.py:62-99 | from the postcondition of `Publisher.Execute`: a whole poll, busy or idle, wherever it raises, continues any run of the relay machine and ends with the table and accepted messages of the code and the worker idle |
| PublishMeaning.PollLeads | src/application/use_cases/publish_outbox.py:62-87 | the machine steps of such a poll |
| PublishMeaning.PollSettles | src/application/use_cases/publish_outbox.py:62-135 | a returning poll, from the table it found: every claimed row settled, no other row touched, result plus errors the batch size, accepted messages in claim order, pending plus failed rows fewer by the result |
| PublishMeaning.PollKeepsRows | src/application/use_cases/publish_outbox.py:101-135 | the rows any poll leaves are well formed, and published only if the broker took them |
| PublishMeaning.ClaimIsAStep | src/application/use_cases/publish_outbox.py:89-99 | the claim of the code is a claim step of the machine |
| PublishMeaning.PurgeIsAStep | src/application/outbox/purge.py:23-30 | the purge of the code is a purge step of the machine |
| LedgerSafety.ReachableInv | src/application/use_cases/process_payment.py:30-41 | in every run, what each handler holds at each point agrees with the stored payment, charge, webhooks and inbox |
| LedgerSafety.StepKeepsInv | src/application/payments/charge.py:24-57 | every step of every handler keeps that |
| LedgerSafety.ChargingRefinesRegister | src/infrastructure/gateway/sql_cache.py:29-52 | any number of racing, crashing charges refine one write-once register per payment, and every result and status shows its value |
| LedgerSafety.ChargeIsFirstDraw | src/infrastructure/gateway/random_emulator.py:29-36 | in every run a charge is stored exactly when a draw has taken effect, and it is the first one |
| LedgerSafety.FirstDrawDecides | src/application/payments/charge.py:44-57 | a final payment has SUCCEEDED exactly when that draw was a success |
| LedgerSafety.AnswerDecides | src/infrastructure/webhooks/errors.py:16-23 | in every run: after a status in 200..299 the handler goes on, after 400..499 it raises a permanent error, after anything else or no answer a transient one |
| LedgerSafety.OutcomeNeverChanges | src/domain/payment.py:154-159 | a seen outcome and a final payment, with its processing time, are the same at all later times |
| LedgerSafety.WebhooksAgree | src/application/payments/webhook_payload.py:10-18 | all webhooks ever sent for a payment are equal and say, field by field, the stored charge, amount and processing time |
| LedgerSafety.RememberedMeansNotified | src/application/payments/inbox.py:14-21 | an inbox entry implies a final payment and an accepted webhook |
| LedgerSerial.AcceptanceLaw | src/application/use_cases/process_payment.py:36-41 | in every run, overlapping or not: accepted webhooks of a message = runs that stopped in the gap + inbox writes that took effect + runs in the gap |
| LedgerSerial.AtMostOneExactly | src/application/use_cases/process_payment.py:36-41 | at most one accepted webhook exactly when at most one run has entered the gap |
| LedgerSerial.InboxIsRemembered | src/infrastructure/persistence/repositories/inbox.py:20-26 | the inbox holds exactly the messages whose write took effect |
| LedgerSerial.DuplicatesComeFromStops | src/infrastructure/persistence/repositories/inbox.py:16-26 | for runs of a message that do not overlap: at most one plus the stopped runs, and exactly that once remembered |
| LedgerSerial.StopDuplicates | src/application/use_cases/process_payment.py:39-41 | a run without overlap in which the receiver accepts two webhooks because a handler stopped in the gap |
| LedgerSerial.OverlapDuplicates | src/application/use_cases/process_payment.py:36-39 | a run without stops in which it accepts two because two handlers checked the inbox first |
| ProcessPayment.Consumer.Execute | src/application/use_cases/process_payment.py:30-41 | from any reachable tables, by ledger steps only: the tables, the request and the error as a function of what was found and of the world; normal exactly when the payment can be charged and its receiver answers 200..299 and that can be stored; a remembered message has no effect |
| ProcessPayment.Consumer.ChargeAndNotify | src/application/use_cases/process_payment.py:38-41 | the same for an unseen message |
| ProcessPayment.Consumer.ExecuteTwice | src/application/payments/inbox.py:14-21 | handling a message again after a normal return sends nothing and returns normally |
| ProcessPayment.Consumer.ChargePayment | src/application/payments/charge.py:24-35 | returns exactly when the payment is final or its outcome can be stored, with the stored charge or else this draw and this clock reading; which error otherwise |
| ProcessPayment.Consumer.Complete | src/application/payments/charge.py:44-57 | completing under the lock returns the completed record, and writes it only if it was pending and the commit took effect |
| ProcessPayment.Consumer.Charge | src/infrastructure/gateway/random_emulator.py:29-36 | the stored charge if there is one, else this draw if it could be stored |
| ProcessPayment.Consumer.PutIfAbsent | src/infrastructure/gateway/sql_cache.py:29-52 | stores the given result only where there is none, and returns what is stored |
| ProcessPayment.Consumer.DeliverWebhook | src/application/payments/deliver_webhook.py:17-23 | one request about the given record, field by field; success exactly for 200..299, permanent exactly for 400..499, transient otherwise |
| ProcessPayment.Consumer.RememberMessage | src/infrastructure/persistence/repositories/inbox.py:20-26 | adds the message to the inbox set |
| ProcessPayment.Consumer.HasSeen | src/infrastructure/persistence/repositories/inbox.py:16-18 | reads it |
| Creation.CallsAgreeWithStore | src/application/use_cases/create_payment.py:65-77 | a finished call succeeded exactly when its input is what is stored, with the stored id; the missing-duplicate conflict never happens |
| Creation.OnePaymentPerKey | src/infrastructure/persistence/models/payment.py:18 | at most one payment per key and exactly one event per payment, for any interleaving |
| Creation.SameKeySameId | src/application/use_cases/create_payment.py:60-63 | all successes with one key return one id |
| Creation.PaymentAndEventAppearTogether | src/application/use_cases/create_payment.py:52-59 | payment and outbox row are inserted in one step or not at all |
| Creation.ReachableInv | src/infrastructure/persistence/repositories/payment.py:26-33 | the tables and all calls in flight stay consistent in every run |
| Creation.Service.Execute | src/application/use_cases/create_payment.py:37-77 | one call: validation, atomic insert of what was passed or nothing, replay or conflict from the stored payment |
| Creation.PaymentsAreAsked | src/application/use_cases/create_payment.py:37-63 | in every run, every payment carries the terms some call passed |
| Creation.Service.GetByKey | src/infrastructure/persistence/repositories/payment.py:56-62 | finds the one payment with the key |
| Creation.MatchIsSameTerms | src/application/use_cases/create_payment.py:19-29 | a match is exactly: this command would have stored the same terms |
| Dispatch.Dispatcher.DispatchNext | src/presentation/amqp/dispatcher.py:36-62 | one delivery is consumed and becomes an ack, a retry copy, a dead letter, or a copy plus a dead letter when the publish was ambiguous |
| Dispatch.ForwardingRule | src/presentation/amqp/failures.py:25-71 | case by case: which copy goes where, and that exactly a confirmed copy is acknowledged |
| Dispatch.FailureIsConserved | src/presentation/amqp/failures.py:25-71 | a failed delivery leaves one copy, two exactly after an ambiguous publish |
| Dispatch.CopiesKeepIdentity | src/presentation/amqp/failures.py:39-71 | copies keep the body and both ids; a retry counts one up |
| Dispatch.LifeIsBounded | src/application/retry/policy.py:33-38 | a message with count r is dispatched at most max(1, max_attempts - r) times for all outcomes, and carries its identity to the end |
| Dispatch.BoundIsReached | src/application/retry/policy.py:33-38 | that bound is reached, and then the message is dead-lettered |
| Deliveries.RetriesStayBelowLimit | src/presentation/amqp/failures.py:39-60 | service-wide: every message anywhere has a retry count of at least 0 and at most max(0, max_attempts - 1) |
| Deliveries.DeliveriesAreBounded | src/application/retry/policy.py:33-38 | service-wide, in every run: deliveries of a message are at most max(1, max_attempts) for each accepted publish and each delivery the broker had to take back |
| Wire.EncodedIdentity | src/application/outbox/codec.py:16-57 | the consumer reads back the payment id, the outbox id and retry count zero |
| Wire.RetryKeepsIdentity | src/presentation/amqp/identity.py:24-45 | the retry header changes the count and no id |
| Wire.UuidReadsBack | src/presentation/amqp/identity.py:28-31 | the text form of an id parses to it |
| Wire.UuidShape | src/application/outbox/codec.py:16-27 | that form is 36 characters with hyphens in the usual places |
| Wire.HeaderNamesRow | src/application/outbox/codec.py:35-49 | the header alone identifies the row |
| Wire.FallbackIdentity | src/application/outbox/codec.py:29-49 | where ids are found when they are not in their first place |
| Wire.RetryCountRule | src/presentation/amqp/identity.py:40-45 | a missing or unreadable retry count is zero |
| Retry.PolicyRule | src/application/retry/policy.py:33-49 | exactly transient and unknown errors are retried while attempts are left, after the capped doubled delay in whole seconds |
| Retry.TtlShape | src/application/retry/policy.py:47-49 | retry delays never shrink and stay between one second and the cap |
| Retry.DefaultRetries | src/application/retry/policy.py:9-11 | one second, two seconds, then the dead-letter queue |
| Retry.WebhookFailures | src/infrastructure/webhooks/errors.py:16-23 | through to the queues: 200..299 is no failure, 400..499 is dead-lettered at once, any other answer is retried up to the limit |
| Backoff.DelayShape | src/application/retry/backoff.py:18-23 | the delay is monotone, within the cap, and initial * 2^(k-1) exactly until the cap binds |
| Backoff.UncappedIsPower | src/application/retry/backoff.py:21 | doubling step by step is the power in the code |
| Backoff.JitterRange | src/application/retry/backoff.py:24 | jitter keeps between half and all of the delay |
| Backoff.TotalDelayClosedForm | src/application/retry/backoff.py:18-23 | the total over n attempts: a geometric series, then the cap per attempt |
| PollLoop.OutboxRelay.Run | src/presentation/outbox_relay.py:41-58 | the pause after every poll, when a stop ends the loop, exactly when an overflowing backoff kills it, and the failure counter as the number of consecutive raising polls over all runs |
| PollLoop.PauseRange | src/presentation/backoff.py:27-36 | after the k-th raise in a row the relay waits between half and all of the doubled interval, or of thirty seconds when that is less |
| PollLoop.StreakSurvivesRestart | src/presentation/outbox_relay.py:30-36 | a loop stopped and started again goes on counting failures |
| PollLoop.TooManyRaises | src/application/retry/backoff.py:18-23 | 1025 raising polls do kill the loop, and no fewer |
| PollLoop.StreakIsConsecutive | src/presentation/backoff.py:31-36 | that counter, which `Run` leaves as `Streak`, is at least k exactly when the last k polls raised |
| Payments.FirstCompletionWins | src/domain/payment.py:148-159 | the first completion decides status and time, later ones change nothing, terminal states have no transition |
| Payments.Payment.Complete | src/domain/payment.py:154-159 | the aggregate completes as specified and the transition table never refuses it |
| Payments.RecordRoundTrip | src/infrastructure/persistence/mappers/payment.py:10-37 | storing and loading a payment is the identity |
| Payments.RowRoundTrip | src/infrastructure/persistence/mappers/payment.py:21-37 | loading reads every field from its column, and storing a loaded row gives it back |
| Payments.KeyRule | src/domain/ids.py:21-29 | which idempotency keys are accepted |
| Payments.SaveTouchesTwoColumns | src/application/payments/charge.py:49-56 | a processing save changes only the status and the processing time, and nothing on a final payment |
| Money.AcceptanceRule | src/domain/money.py:29-44 | exactly which amounts and currencies are accepted, and what the others are refused with |
| Money.CreateKeepsValue | src/domain/money.py:29-44 | an accepted amount is a positive number of cents equal to the number passed |
| Money.EqualExactlyWhenSameNumber | src/domain/money.py:54-57 | accepted amounts are equal money exactly when they denote the same number in the same currency |
| Money.StoredAmountReadsBack | src/infrastructure/persistence/mappers/payment.py:26-29 | a stored amount reads back as the same money |

## Left out

- Interference inside one call of a class: the classes run one call at a time against the tables they find; what other workers do between two of its steps is in the step machines.
- Claim order in `Relay`: a claim step may take any eligible rows up to the batch size, which includes what the code takes; the order is proved of the loop (`OutboxTable`).
- Releases and claims whose commit raises after taking effect are the step followed by a crash of the worker.
- `OutboxQueue.unclaim`, which no use case calls.
- Column widths: an amount of more than ten integer digits, which the database refuses, is accepted by the model.
- Other spellings of a uuid that Python accepts (`urn:`, braces, underscores) are invalid in `Wire.ParseUuid`; the relay never writes them. JSON numbers with a fraction and the text of lists and dictionaries are not modelled.
- WebhookUrl parsing and address checks: whether a URL is allowed is an input of `Creation.Service.Execute`, and a refusal while sending is a failing handler step.
- The text of the webhook payload: amount, status and time are compared as values, not as the strings sent.
- Request ids, logging, metrics other than the two gauges and the error count, HTTP routes, authentication, health checks.
- Task handling of the poll loop (start, stop, cancellation); a stop is a flag of the poll during which it is requested.
- Float rounding; the distribution of random draws.
- Liveness beyond `RelaySafety.NoRowIsStranded` and `Dispatch.LifeIsBounded`: nothing forces a worker to poll.
