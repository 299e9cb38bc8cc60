# Verification of the Resilient Hybrid Messaging Gateway

A Dafny 4.11 model of the gateway's delivery engine, with proofs about every run of it. Check it with
`dafny verify dfyconfig.toml`.

The gateway accepts messages, sends each through a primary channel, waits for an acknowledgement until a deadline,
then escalates to a fallback channel, with bounded and delayed retries, and keeps an audit log of events. All state is
in two tables, changed by transactions: requests and three scheduler passes. A transaction commits as a whole or is
rolled back as a whole, but a call made to a channel is not undone.

## How it is built

| file | part of the system |
|---|---|
| `MessageStates.dfy`, `StateMachine.dfy`, `Messages.dfy` | states, transition table, guarded mutation, records |
| `RetryPolicies.dfy` | backoff and jitter |
| `Channels.dfy`, `Events.dfy`, `Storage.dfy` | channels and their call ledger, audit events, session, repository, recorder |
| `Processor.dfy`, `Scheduler.dfy`, `Service.dfy` | the imperative code, branch by branch, as classes over mutable records |
| `Lifecycle.dfy`, `Operations.dfy`, `Sweeps.dfy` | the same operations as functions on one message, as steps on the store, and the fallback loop over any list |
| `Outcomes.dfy` | what every operation leaves of every message, written out column by column and event by event |
| `Audit.dfy` | replay of an audit log, written from the event payloads alone |
| `Invariants.dfy`, `History.dfy` | what every operation keeps |
| `Runs.dfy`, `Theorems.dfy`, `Spacing.dfy`, `Progress.dfy`, `Passes.dfy` | results about all runs |
| `Requests.dfy` | runs whose processings come from submissions, and what a request can still recover |
| `WorstCase.dfy`, `Counterexamples.dfy` | runs that reach the bounds, and runs that break a documented promise |
| `Metrics.dfy` | counts and health |

The proof has three layers. (1) The classes in `Processor.dfy`, `Scheduler.dfy` and `Service.dfy` are proved against
functions: every request and pass ends in `Committed` or `Aborted` of its operation, for every order in which the
database returns the lines of a query and for every point at which a statement or a channel can fail. (2) A run is any
sequence of such committed and aborted steps, with a clock that never goes back. (3) The theorems hold at every state
of every run, for every retry policy. A run admits a processing of any message at any time. `Requests.IsRequestRun` keeps
to what the API can do: every processing has an earlier submission of its own that was answered with its message. All
runs that are exhibited are of this kind.

Environment as parameters: channel answers are an arbitrary function of the call (`Channels.Env`), a channel may be
missing or throw; clock readings and random draws are arguments, and so is the database's `now()` in a transaction,
which need not agree with the clock; `Session.budget` is the number of statements the connection still serves, so that
arbitrary budgets give failures at arbitrary points; a fresh uuid is an argument, and a clash is the integrity error the
database would raise.

`p.maxRetries` is any integer. `MaxSends(p)` is `max(1, p.maxRetries)`; the shipped fallback policy has 2.

## Where the code and its documentation differ

The model follows the code.

- `RetryPolicy` documents `max_retries` as attempts after the initial one. The processor counts a failure before it
  asks the policy, so a message gets `max_retries` fallback sends in all (`WorstCase.BoundsAreReached`,
  `Theorems.SendsAreAccounted`).
- `check_deadlines` and `_escalate_message` say that a message without fallback channels becomes a dead letter. The
  transition table forbids that move, so such a message stays overdue until it is acknowledged, and no longer
  (`Passes.OverdueUntilAcknowledged`; `Counterexamples.OverdueForGood` is a run that ends in one).
  `Passes.DeadlineEffect` and `Passes.OverdueIff` give the exact condition under which a deadline pass acts.
- The project README says undeliverable messages go to `DEAD_LETTER`. A missing primary channel, or a failed send
  without fallback channels, gives `FAILED`; a missing primary channel does so even when fallback channels exist
  (`Theorems.ProcessingOutcome`; `Counterexamples.FailedWithFallbacksLeft` is a run in which this happens).
- `can_record_acknowledgement` is never asked by the processor: the acknowledgement time is that of the last
  acknowledgement committed, in every state (`Theorems.LastAcknowledgementWins`).
- A message whose processing was rolled back stays `PENDING`, and no scheduler pass looks for it
  (`Theorems.OnlyProcessingLeavesPending`). Only a submission with its key can have it processed again, so it can be
  recovered if and only if it has a key (`Requests.RecoverableIff`). `Counterexamples.AcceptedButStuck` is a run that
  ends in a message without a key that no request can ever get out of `PENDING`.
- A rolled-back send leaves no trace, so the retry limit does not bound the calls to a fallback channel: for every n
  there is a run with n fallback passes that called the channel of a message, no retry counted and none of the calls in
  its audit log (`WorstCase.LostRun`).
- The snapshot of `metrics.py` has a median acknowledgement time that no code computes; it is always 0.
- A message in a terminal state is not quite final: an acknowledgement still overwrites its time, and then the on-update
  default of `updated_at` fires, because the record is written back with the old value. It changes exactly when the
  acknowledgement brings another time and the database's `now()` differs from the stored value
  (`Theorems.LateAcknowledgementStamps`; `Counterexamples.TouchedAfterTheEnd` is a run).
- Jittered delays need not grow once the cap is near: `RetryPolicies.JitteredOrder` says exactly when they do.
- The answer to a submission shows the record as it was before processing, so it reads `PENDING`
  (`Service.Api.PostMessage`).

## Model

| member | source | states |
|---|---|---|
| Theorems.SendsAreAccounted | app/workers/scheduler.py:119-143 | in every run, a message's recorded sends <= its calls to channels <= recorded sends + rolled-back transactions that could have called a channel for it; at most one recorded primary send and MaxSends fallback sends |
| Theorems.AuditRebuildsRow | app/workers/events.py:22-42 | in every committed store the audit log alone gives state, retry count, next retry, acknowledgement time, last error and external id, along a legal path of at most 3 MaxSends + 3 moves |
| Theorems.PathPassesThrough | app/workers/events.py:45-66 | over any stretch of a run the path of the log is extended at its end and passes through the state of every earlier committed store |
| Theorems.CommittedRows | app/workers/processor.py:133-178 | the record invariant of every committed row, state by state (sent, escalated, error, retry and deadline fields) |
| Theorems.NothingStuckInTransit | app/services/message_service.py:61-68 | no committed message is QUEUED, SENDING or FALLBACK_SENDING, so a retry pass never calls a channel |
| Theorems.MovesArePaidFor | app/workers/processor.py:369-400 | every operation lowers a measure of state and retry count by at least the number of moves it makes, although the table has a cycle |
| Theorems.RunHistory | app/repositories/message_repository.py:88-115 | over any stretch of a run: identity, policy, key and deadline constant, log extended at its end, acknowledgement kept, terminal messages frozen but for the acknowledgement time and the time of the last change, which moves only together with the log |
| Theorems.WithoutFallbackChannels | app/workers/processor.py:259-263 | a message without fallback channels is never escalated or sent by fallback, and no pass or admin step changes it |
| Theorems.OnlyProcessingLeavesPending | app/workers/processor.py:44-69 | over any stretch of a run a PENDING message is still PENDING if and only if no processing of it was committed: no pass and no admin step takes it on |
| Requests.KeylessProcessedOnce | app/api/routes/messages.py:21-29 | in every run of requests a message without a key is handed to processing at most once |
| Requests.KeylessRollbackStrands | app/api/routes/messages.py:21-29 | if that processing is rolled back, the message is PENDING at every later state, whatever requests, passes and admin steps follow |
| Requests.ResubmissionRecovers | app/services/message_service.py:27-31 | a PENDING message with a key is processed by one more request with that key, which creates nothing |
| Requests.RecoverableIff | app/api/routes/messages.py:21-29 | some continuation takes a PENDING message out of PENDING if and only if it has a key or no processing of it has begun |
| Requests.RequestContinues | app/api/routes/messages.py:21-29 | a submission and the processing of the PENDING message it is answered with continue a run of requests |
| Counterexamples.AcceptedButStuck | app/api/routes/messages.py:21-29 | a run that accepts a message without a key and rolls its processing back; in every run of requests that goes on from it the message is PENDING |
| Theorems.ProcessingOutcome | app/workers/processor.py:102-178 | the primary channel is handed recipient, content, id and priority of the message; each end of processing, if and only if: SENT_TO_CHANNEL with the external id answered, ESCALATION_PENDING, FAILED, or an exception exactly when the channel raises |
| Outcomes.ProcessOutcome | app/workers/processor.py:44-178 | in each case every column, every event with its payload, and the text of last_error, among them the channel's own error or "unknown error" |
| Outcomes.FallbackOutcome | app/workers/processor.py:284-400 | the call a fallback channel is handed, and in each case every column, every event, the text of last_error and the time of the next retry |
| Outcomes.EveryOutcome | app/workers/processor.py:44-444 | for every operation and a message in any state: whether it acts, through which channel, at which clock, and what it leaves |
| Theorems.EveryStepIsAnOutcome | app/workers/processor.py:44-444 | in every run a committed step leaves every message as that table says and makes the calls it says |
| Counterexamples.FailedWithFallbacksLeft | app/workers/processor.py:102-111 | a run that fails a message with fallback channels because its primary channel is missing; it is FAILED and never escalated in every run that goes on from it |
| Theorems.LastAcknowledgementWins | app/workers/processor.py:215-241 | over any stretch of a run the acknowledgement time, in the row and in the log, is that of the last acknowledgement committed, or the old one if there was none |
| Theorems.AcknowledgementStep | app/workers/processor.py:215-241 | a committed acknowledgement overwrites the time in every state, moves only a sent message, and records the state a late one found |
| Theorems.LateAcknowledgementStamps | app/infrastructure/models.py:35-37 | in a run the updated_at of a message in a terminal state changes exactly at acknowledgements with another time and another database now(), and then to that |
| Counterexamples.TouchedAfterTheEnd | app/workers/processor.py:229-233 | a run in which a second acknowledgement changes two columns of an ACKNOWLEDGED message |
| Spacing.AttemptsAreSpaced | app/workers/processor.py:369-378 | in every run fallback attempt j starts no earlier than attempt i plus the backoffs i to j-1, and there are as many starts as the audit log records |
| Spacing.FallbackStarts | app/workers/processor.py:284-400 | a fallback attempt ends the message or defers it by the backoff of the failures before it |
| Progress.EscalatedMessagesSettle | app/workers/scheduler.py:162-193 | as many rounds of a fallback pass and a not too early retry pass as there are sends left (one more from ESCALATION_DEFERRED) settle an escalated message, whatever is interleaved |
| Progress.SentMessagesSettle | app/workers/processor.py:180-195 | a sent, unacknowledged message with a fallback channel is settled by one deadline pass past its deadline and MaxSends such rounds, unless it was acknowledged before that pass |
| Progress.EscalatedEffects | app/workers/processor.py:295-400 | all ways any operation can take an escalated message on |
| WorstCase.BoundsAreReached | app/workers/processor.py:370-400 | for every policy there is a run with exactly MaxSends fallback sends and 3 MaxSends + 3 moves |
| WorstCase.LostRun | app/workers/scheduler.py:119-143 | for every n there is a run in which n rolled-back fallback passes called a channel for a message that is still ESCALATION_PENDING, with no failure counted and no fallback send recorded |
| MessageStates.TableAdmitsUnboundedWalks | app/domain/message_state.py:20-49 | the table alone allows legal walks of every length |
| MessageStates.LegalMoves | app/domain/message_state.py:20-49 | the legal moves are twelve, and failing from every state that is not terminal |
| Passes.DeadlineEffect | app/workers/processor.py:246-282 | a deadline pass changes a message exactly when it is sent, unacknowledged, older than its deadline in seconds, and has a fallback channel, and how |
| Passes.EscalatedExactlyWhenOverdue | app/domain/message.py:40-41 | the same for every message at every committed deadline pass of every run, counted from the time of creation |
| Passes.OverdueIff | app/repositories/message_repository.py:117-125 | some deadline pass escalates a sent message if and only if it is unacknowledged and has a fallback channel |
| Passes.OverdueUntilAcknowledged | app/workers/processor.py:259-263 | over any stretch of a run an overdue message without fallback channels is still overdue if and only if no committed step acknowledges it |
| Counterexamples.OverdueForGood | app/workers/processor.py:259-263 | a run that sends a message without fallback channels; past its deadline it stays overdue in every run that goes on from it until an acknowledgement |
| Passes.AcknowledgedIsNeverOverdue | app/workers/processor.py:229-233 | after an acknowledgement in any state no deadline pass ever touches the message |
| Passes.DeadlinePassClears | app/workers/processor.py:180-195 | after a deadline pass only due messages without fallback channels are overdue, others are unchanged, and a second pass does nothing |
| Passes.DeadlinePassesCompose | app/workers/processor.py:190-195 | passes at t1 <= t2 leave the logs and rows of the pass at t2, but for the escalation time |
| Passes.RetryPassClears | app/repositories/message_repository.py:134-144 | after a retry pass every deferred message has its next_retry_at in the future, exactly the due ones have moved, and no channel was called |
| Passes.ReopenedExactlyWhenDue | app/workers/scheduler.py:169-188 | at every committed retry pass of every run a deferred message is re-opened if and only if its next_retry_at has come |
| Passes.PassesCommute | app/workers/scheduler.py:162-190 | a deadline pass and a retry pass give the same store in either order |
| Sweeps.SweepIsPointwise | app/workers/scheduler.py:126-138 | the fallback loop over any list of ids, with repetitions and strangers, leaves tables and calls of the pointwise pass over its members |
| Passes.OneMessagePerKey | app/services/message_service.py:27-56 | in every run a key stays with one message, resubmission changes nothing, at most one primary send is recorded |
| Runs.RunInv | app/infrastructure/models.py:15-55 | all invariants hold at every state of every run with arbitrary rollbacks |
| Invariants.EscalationActs | app/workers/processor.py:259-282 | an escalation acts exactly on sent or deferred messages with a fallback channel |
| Invariants.ProcessInv | app/workers/processor.py:71-178 | queueing and delivery keep the invariant on row, log and remaining moves |
| Invariants.FallbackInv | app/workers/processor.py:284-400 | a fallback attempt keeps the invariant on row, log and remaining moves |
| Invariants.EffectInv | app/workers/processor.py:44-444 | every operation keeps the invariant with the same budget of moves |
| History.EffectLater | app/workers/processor.py:44-444 | every operation extends the log and keeps what must not change |
| History.EffectAttempts | app/workers/processor.py:121-131 | an operation records an answered call exactly when it made one |
| Audit.PathOfReplay | app/workers/events.py:45-66 | replaying a log whose moves are all legal leads along a path of the table |
| RetryPolicies.JitterBounds | app/domain/retry_policy.py:55-67 | a delay is between d and 1.1 d, and at most 1.1 times the cap |
| RetryPolicies.DelaySpelledOut | app/domain/retry_policy.py:55-65 | a delay is the smaller of cap and initial backoff times multiplier to the k, stretched by the drawn share of a tenth |
| RetryPolicies.ShippedDelays | app/domain/retry_policy.py:79-84 | the fallback policy allows two sends and waits 10 to 11 seconds in between |
| RetryPolicies.BackoffMonotone | app/domain/retry_policy.py:55-59 | delays without jitter never shrink |
| RetryPolicies.CapReached | app/domain/retry_policy.py:55-59 | the cap is reached at the latest when linear growth would reach it, and kept |
| RetryPolicies.CapIsReachedEventually | app/domain/retry_policy.py:55-59 | with a multiplier above one backoff is capped from some retry on |
| RetryPolicies.JitteredOrder | app/domain/retry_policy.py:61-65 | jittered delays k and k+1 are always in order if and only if the backoff grows by a tenth |
| RetryPolicies.OrderedBelowCap | app/domain/retry_policy.py:55-65 | a multiplier of 1.1 or more keeps the order below the cap |
| RetryPolicies.GeometricTotal | app/domain/retry_policy.py:55-59 | below the cap the delays add up to the geometric sum |
| RetryPolicies.RetryPolicy.NextRetryAt | app/domain/retry_policy.py:40-67 | the loop and jitter compute now plus the delay |
| StateMachine.ApplyTransition | app/domain/state_machine.py:13-38 | moves exactly along the table, with the timestamps of the target state, and otherwise changes nothing |
| StateMachine.RecordAcknowledgement | app/domain/state_machine.py:41-53 | records exactly in non-terminal states, at the given time or at two readings of the clock |
| Messages.MessageRecord.ArmDeadline | app/domain/message.py:40-41 | sets the deadline to now plus the policy's seconds, and nothing else |
| Storage.MessageRepository.Create | app/repositories/message_repository.py:17-43 | inserts one line unless its id or key is taken |
| Storage.MessageRepository.GetByIdempotencyKey | app/repositories/message_repository.py:52-59 | finds the owner of a key, or there is none |
| Storage.MessageRepository.Update | app/repositories/message_repository.py:88-115 | replaces one line, with the on-update default of updated_at, keeps its log, raises if the line is missing or the key clashes |
| Storage.MessageRepository.ListDueForEscalation | app/repositories/message_repository.py:117-125 | exactly the sent, unacknowledged messages whose deadline is before now, once each, in any order |
| Storage.MessageRepository.ListByState | app/repositories/message_repository.py:127-132 | exactly the matching messages, once each, in any order |
| Storage.MessageRepository.ListDueForRetry | app/repositories/message_repository.py:134-144 | exactly the messages whose next_retry_at is not after now, once each, in any order |
| Storage.EventRecorder.Record | app/workers/events.py:22-42 | appends one event to the log of an existing message |
| Processor.MessageProcessor.ProcessNewMessage | app/workers/processor.py:44-69 | queues a pending message, leaves every other message alone |
| Processor.MessageProcessor.AttemptDelivery | app/workers/processor.py:71-178 | ends with exactly the specified effect and calls, or raises after at most one call, with a cause |
| Processor.MessageProcessor.CheckDeadlines | app/workers/processor.py:180-195 | for every order of the query result, the pointwise deadline pass |
| Processor.MessageProcessor.AcknowledgeMessage | app/workers/processor.py:197-244 | on-time and late acknowledgement of one message, with the change of updated_at a late one makes |
| Processor.MessageProcessor.EscalateMessage | app/workers/processor.py:246-282 | writes back the record in hand, escalated, or nothing; raises only if the connection or the write of that record fails |
| Processor.MessageProcessor.AttemptFallback | app/workers/processor.py:284-400 | ends with exactly the specified effect and calls, or raises after at most one call, with a cause |
| Processor.MessageProcessor.MarkFailed | app/workers/processor.py:402-422 | fails the record in hand where the table allows it; raises only if the connection or the write fails |
| Processor.MessageProcessor.MarkDeadLetter | app/workers/processor.py:424-444 | buries the record in hand where the table allows it; raises only if the connection or the write fails |
| Scheduler.MessageScheduler.CheckDeadlinesOnce | app/workers/scheduler.py:91-100 | commits the deadline pass or changes nothing |
| Scheduler.MessageScheduler.AttemptFallbacksOnce | app/workers/scheduler.py:119-143 | commits the pointwise fallback pass, or rolls back and keeps only calls, with a cause |
| Scheduler.MessageScheduler.SweepFallbacks | app/workers/scheduler.py:128-138 | the loop over any list of records: repeated, deleted or no longer pending messages do no harm |
| Scheduler.MessageScheduler.AttemptRetriesOnce | app/workers/scheduler.py:162-193 | commits the pointwise retry pass, or rolls back and keeps only calls, with a cause |
| Service.MessageService.CreateMessage | app/services/message_service.py:27-56 | returns the owner of a known key, else inserts one new PENDING message with the sender, recipient, content and policy asked for and an armed deadline |
| Requests.CreatedAsRequested | app/services/message_service.py:33-52 | a submission without a known key stores what was asked for and nothing else |
| Requests.Born | app/services/message_service.py:33-52 | every message of every run carries what the submission that created it asked for |
| Service.MessageService.ProcessMessage | app/services/message_service.py:61-68 | queue and delivery as one step |
| Service.Api.PostMessage | app/api/routes/messages.py:16-31 | two transactions: submission, then processing if and only if the record was PENDING, of the owner of the key or else of the new message, which is also the one answered with |
| Service.Api.PostAcknowledge | app/api/routes/messages.py:49-68 | commits the acknowledgement of an existing message, or nothing |
| Service.Api.PostEscalate | app/api/routes/admin.py:151-201 | escalates only from SENT_TO_CHANNEL, else refuses without effect |
| Service.Api.PostRetryFallback | app/api/routes/admin.py:205-252 | attempts a fallback only from ESCALATION_PENDING, and commits it or rolls back; a refusal leaves the tables alone |
| Metrics.CountByState | app/api/routes/admin.py:138-147 | one count for every state, and the counts add up to the number of messages |
| Metrics.CountsAddUp | app/observability/metrics.py:75-81 | per-state counts sum to the total in every store |
| Metrics.MessageMetrics.DeliverySuccessRate | app/observability/metrics.py:40-45 | the share of successes as a percentage for every snapshot, 100 exactly when something succeeded and nothing failed |
| Metrics.MetricsCollector.Collect | app/observability/metrics.py:63-107 | all counters of the snapshot and the average acknowledgement time, or an exception exactly if one of its 18 statements fails; 24-hour successes and failures together never exceed the total |
| Metrics.MetricsCollector.CalculateAckLatency | app/observability/metrics.py:137-157 | the loop over the acknowledged messages, in any order, computes their average latency |
| Metrics.AnyLatencyFirst | app/observability/metrics.py:149-157 | the total latency does not depend on the order of summation |
| Metrics.AverageWithin | app/observability/metrics.py:149-157 | the average lies among the times from creation to acknowledgement |
| Metrics.WhatIsCounted | app/observability/metrics.py:109-135 | the messages each number counts, with their states and the 24 hours written out |
| Metrics.CheckHealth | app/observability/metrics.py:189-239 | healthy exactly when all queries were answered and at most 100 messages are dead |
| Metrics.TerminalCountsGrow | app/domain/message_state.py:20-49 | terminal counts never shrink over a run |
| Metrics.UnhealthyForGood | app/observability/metrics.py:216-226 | once there are too many dead letters for a healthy report there are too many in every later state of the run |

## Left out

- Spacing.AttemptsAreSpaced: assumes non-negative policy settings, because with negative delays nothing is spaced; it speaks of committed attempts, since a rolled-back attempt may be repeated at once.
- Isolation levels, row locks, the session identity map and concurrent sessions: transactions are serial.
- Scheduler loops, sleep intervals, start and stop: passes happen at arbitrary times of a monotone clock.
- Channel implementations, routing, request validation, admin keys, health probes, Redis, logging, configuration and migrations.
- Float and microsecond rounding: times and delays are reals. Event ids and event timestamps: the order of the log stands for them.
- The `isoformat` text of times in event payloads: the events hold the time itself.
- Insertion defaults of columns the service always sets (`created_at`, `updated_at`), and the `metadata` field, which is not stored.
- Primary retries: described in the project README, but no code carries them out; `PRIMARY_RETRY_POLICY` is unused.
