# Theater seat watcher: a model of the live booking engine

The program watches a theatre's catalogue for new sessions, chooses adjacent seats, reserves them through a
provider's checkout, sends the buyer a payment link, and books again when an unpaid hold has run out. This project
models what it does and proves that it keeps its promises.

**The engine.** `Rows` holds the booking tables: candidates, renewal cycles, checkout intents, budget allocations,
orders and outbox messages, each keyed by its unique constraint. `Planning`, `Scheduling`, `Checkout`, `Mailbox` and
`Environment` say what each short transaction does to them. `Engine` is the transition system: `Flight` is where the
booking thread stands between two commits, `Step` is one commit, one answer from outside, or an interruption, and `log`
records every opened write, every call of the provider and every authorised retry. A crash or an exception may come
between any two commits, and users, catalogue and delivery may step in anywhere. `Invariants`, `Preservation`,
`PlanProof` and the `Engine…` modules carry the inductive invariant; `Guarantees`, `History`, `Writes`, `WritePairs`,
`LostAgain`, `Repairs`, `Stops`, `StalePlans`, `MessageRuns` and `LateLinks` state what follows from it for every
reachable state and every run. `Walks` builds runs step by step; `LostWrite`, `LostStop`, `SharedBatch`, `LateRun` and
`ZeroQuote` are such runs. Proofs `hide` the functions whose definitions they do not need, which keeps them quick.

**The imperative form.** `Store.dfy` is the database as one object whose methods change its tables in place, each proved
equal to the transaction it stands for. `Worker.dfy` holds the loops of the booking worker over that object: every
method is proved to be a run of the transition system, so that everything proved about runs holds for the loops.
`Outbox.dfy` is the delivery worker, with everybody else committing between its deliveries.

**What is left behind.** The functions above compute a transaction; eight modules say, over the rows before and after and
without those functions, what it must do. `Admission` says when a plan is admitted, `Acceptance` which answers of the
provider are accepted, `Verdicts`, `Settlements` and `Recoveries` what becomes of the rows after each evaluation, each
result and each recovery, `Uptake` what a claim takes up, `Deliveries` what becomes of a message, and `Snapshots` what a
snapshot adds. Lemmas prove both descriptions the same, in every reachable state and in both directions.

**The other parts.** `Topology`, `Inference`, `Profiles`, `Ranking` and `Evaluation` choose seats from geometry and
prices; `Discovery` turns catalogue snapshots into candidate slots; `Runtime` is the process lease, the backoff of a
polling worker and the rate limiter.

Seven promises do not hold as one might expect them. For each there is a run or an input that breaks it, and the exact
condition under which it holds is proved.

- A repeated provider write leaves its intent `retry_allowed`. If the thread loses it between the call and the next
  commit, the provider can be called a third time with one authorised retry (`LostAgain.LostIsWrittenAgain`, and the run
  of `LostWrite.ThreeWritesOneAuthorisation`). Between two consecutive calls of a checkout a retry is authorised if and
  only if no such loss happened there (`WritePairs.ConsecutiveWrites`).
- `stopped` is not kept by every step. `Stops.StopEndsExactly` lists the steps that end it and proves that no other one
  does: a wait, a refusal, a blocked or doubtful checkout of the candidate itself, or a recovery decision about it.
  With the last one a candidate that its user has stopped books on (`LostStop.StopIsLost`).
- The limits on a batch are those of the subscription that plans. A batch holds the candidates of all buyers, so that a
  limit of one buyer holds for the batch if and only if nobody else in it has a higher one (`SharedBatch.TotalExactly`,
  `SharedBatch.SessionsExactly`). Each subscription's own holdings always stay within its limits (`Guarantees.OwnLimits`).
- A payment link is known to be current when its message is claimed. The delivery worker looks only at the clock and
  the recipient again before it sends. Links sent in time are always current if and only if they last no longer than
  the renewal interval (`LateRun.InTimeExactly`); otherwise one of a superseded cycle is sent (`LateRun.SupersededInTime`).
- A planned checkout can be submitted if and only if it was quoted at more than zero (`Guarantees.RequestIsConstructible`).
  One that was not is never submitted, and every pass that comes to it ends there (`ZeroQuote.ZeroQuoteStays`).
- Two rows of a hall can have the same inferred segment id when a block or row contains a colon; a profile can be
  inferred exactly when that does not happen (`Profiles.InferProfile`, `Profiles.CollidingRows`).
- A subscription that only sets its baseline can hide new sessions from another one that is processed later
  (`Discovery.BaselineFirst`, `Discovery.LostDiscovery`).

Identifiers and currencies are integers and times are integers. Amounts are compared by minor units and then by
currency. Scores are exact real numbers. A payment address is either opaque text or the parts a URL splitter reports,
with its host already folded to lower case. The fingerprint of a hall or a catalogue stands for what it digests.

## Model

| member | source | states |
|---|---|---|
| `EngineRuns.RunKeeps` | src/theater_tickets/workers/booking.py:438-456 | the invariant of tables, booking thread and write log holds after every run: any interleaving of worker commits, provider answers, crashes, exceptions, user actions, discovery and delivery |
| `PlanProof.PlanKeeps` | src/theater_tickets/application/planning.py:54-216 | one planning transaction keeps the invariant, whatever its outcome |
| `PlanProof.AddCaps` | src/theater_tickets/application/planning.py:138-173 | a plan that passes its checks keeps every count, sum and session limit of buyer and batch |
| `PlanProof.AddSeats` | src/theater_tickets/application/planning.py:119-137 | a plan that passes its checks gives no two slots of a buyer and session the same seat |
| `Admission.PlanAnswers` | src/theater_tickets/application/planning.py:66-173 | said over the rows alone: a claimable request is refused for its session exactly if the session has no place in the batch and the distinct sessions there number at least the limit, then for its budget exactly if a count or a sum would exceed a limit, and is planned otherwise; refused for a taken seat, turned away, or an error exactly otherwise |
| `Admission.PlanLeaves` | src/theater_tickets/application/planning.py:78-216 | the rows after each answer: the new cycle, intent and reservation and the moved candidate of a plan; the one candidate moved by a refusal; nothing else |
| `Preservation.ClaimKeeps` | src/theater_tickets/adapters/persistence/renewals.py:63-150 | claiming due candidates keeps the invariant |
| `Preservation.DueIsAtRest` | src/theater_tickets/adapters/persistence/renewals.py:65-98 | once elapsed reservations are returned, a due candidate holds none |
| `Preservation.ReleaseKeeps` | src/theater_tickets/adapters/persistence/renewals.py:243-268 | returning elapsed reservations keeps the invariant |
| `Preservation.ScheduleKeeps` | src/theater_tickets/adapters/persistence/renewals.py:152-185 | a confirmed, unscheduled cycle is always current, and scheduling it keeps the invariant |
| `Preservation.WaitKeeps` | src/theater_tickets/adapters/persistence/renewals.py:187-210 | waiting for availability or budget keeps the invariant |
| `Preservation.MarkKeeps` | src/theater_tickets/adapters/persistence/renewals.py:212-223 | blocking a candidate keeps the invariant and its reservation |
| `Preservation.ReleaseClaimKeeps` | src/theater_tickets/adapters/persistence/renewals.py:231-241 | returning an unused claim keeps the invariant |
| `Preservation.RecoverClaimsKeeps` | src/theater_tickets/adapters/persistence/renewals.py:51-61 | making crashed claims runnable again keeps the invariant |
| `Preservation.StageKeeps` | src/theater_tickets/adapters/persistence/checkout.py:35-66 | recording a stage that may follow keeps the invariant, for first and repeated writes |
| `Preservation.ApplyKeeps` | src/theater_tickets/adapters/persistence/reconciliation.py:54-95 | a recovery decision keeps the invariant and the reservation of the interrupted checkout |
| `Preservation.RejectKeeps` | src/theater_tickets/adapters/persistence/booking.py:287-334 | a definite refusal keeps the invariant while it returns reservation and seat |
| `Preservation.AttentionKeeps` | src/theater_tickets/adapters/persistence/booking.py:336-360 | an outcome in doubt keeps the invariant, also when it blocks sibling slots |
| `Preservation.RecordKeeps` | src/theater_tickets/adapters/persistence/outbox.py:48-144 | recording an order keeps the invariant although it rewrites the reservation to the final price |
| `Environment.ActKeeps` | src/theater_tickets/adapters/persistence/repositories.py:105-245 | stopping, pausing, deleting, subscribing and discovering keep the invariant at any moment |
| `Mailbox.DeliverMoves` | src/theater_tickets/adapters/persistence/outbox.py:213-325 | no delivery transaction touches a final message, loses a message, or changes a booking row |
| `EngineProof.ValidatedIsPayable` | src/theater_tickets/adapters/quicktickets/checkout.py:192-261 | what the validator accepts for an intent's request meets every amount, seat and handoff check of the recorder; `Acceptance.AcceptedExactly` says what it accepts |
| `Acceptance.AcceptedExactly` | src/theater_tickets/adapters/quicktickets/checkout.py:192-275 | an observation is accepted if and only if it is confirmed, complete and transferable, for the seats asked for, at an amount between the quoted and, unless unlimited, the reserved one in the same currency, with dates in order and the address of one order page on the payment host; the order has its values |
| `Acceptance.ComplaintExactly` | src/theater_tickets/adapters/quicktickets/checkout.py:192-261 | a confirmed observation that is not accepted is ambiguous, with the error of the first thing amiss |
| `Acceptance.AnswerConcludes` | src/theater_tickets/adapters/quicktickets/checkout.py:140-190 | for every answer or failure of the transport the result, its error and the state the intent is left in |
| `Acceptance.StripIsExact` | src/theater_tickets/adapters/quicktickets/checkout.py:222-256 | the stripped text is the one between leading and trailing blanks that neither begins nor ends with one |
| `EngineWork.AcceptedReady` | src/theater_tickets/workers/booking.py:217-239 | a validated order is always recorded, and its cycle may then be scheduled |
| `Guarantees.RunnableIsSettled` | src/theater_tickets/adapters/persistence/renewals.py:87-98 | a queued, waiting or claimed candidate has only confirmed or rejected checkouts |
| `Guarantees.PlannedOverSettled` | src/theater_tickets/application/planning.py:78-115 | a new cycle is never planned over an unsettled or still reserved checkout |
| `Guarantees.PendingNeverWritten` | src/theater_tickets/adapters/persistence/checkout.py:48-53 | a pending checkout has no write mark and never reached the provider |
| `Guarantees.OneReservation` | src/theater_tickets/application/planning.py:175-216 | a candidate holds at most one reservation, of its current cycle |
| `Guarantees.ReservationReturned` | src/theater_tickets/adapters/persistence/booking.py:299-312 | a reservation is inactive exactly when its cycle is released, and then its checkout was refused or its paid hold had run out by then |
| `Guarantees.BuyerLimits` | src/theater_tickets/application/planning.py:152-166 | the active orders and amounts of a buyer with one subscription never exceed its limits |
| `Guarantees.BatchLimits` | src/theater_tickets/application/planning.py:138-173 | whoever shares a batch, what is held in it and the sessions ever used in it stay within any bound that every subscription with candidates there respects |
| `Guarantees.OwnLimits` | src/theater_tickets/application/planning.py:138-173 | the active orders, amounts and amounts per batch of each subscription stay within its own limits, whoever else books for the buyer or in the batch |
| `SharedBatch.TotalExactly` | src/theater_tickets/application/planning.py:167-173 | for all limits: in a shared batch the amount held always stays within the limit of a buyer's only subscription if and only if nobody else in the batch may book for more |
| `SharedBatch.SessionsExactly` | src/theater_tickets/application/planning.py:138-151 | for all limits: the sessions used in a shared batch always stay within the limit of a buyer's only subscription if and only if nobody else in the batch may use more |
| `Guarantees.ConfirmedHasOrder` | src/theater_tickets/adapters/persistence/outbox.py:71-143 | confirmed iff it has an order, whose seats are the intent's and whose total lies between the expected and, unless unlimited, the reserved amount |
| `Guarantees.OnePaymentMessage` | src/theater_tickets/adapters/persistence/outbox.py:121-138 | every order has exactly one payment message, and none is without an order |
| `MessageRuns.OneSummaryEach` | src/theater_tickets/adapters/persistence/outbox.py:146-188 | in every reachable state two summaries of one batch and buyer are one message |
| `Guarantees.RecordReplays` | src/theater_tickets/adapters/persistence/outbox.py:86-95 | recording the same order again returns the same message and changes nothing |
| `Guarantees.ValidatedIsRecorded` | src/theater_tickets/adapters/persistence/outbox.py:71-102 | in every reachable state a validated order without a predecessor is recorded, unless its reservation was returned by a refusal |
| `Guarantees.RequestsAreRebuilt` | src/theater_tickets/adapters/persistence/reconciliation.py:107-176 | a request rebuilt at any later point of a run equals the one first planned and submitted |
| `Guarantees.RequestIsConstructible` | src/theater_tickets/application/checkout.py:97-110 | in every reachable state the request of a checkout passes all checks of its construction if and only if it was quoted at more than zero; every checkout whose write was started does |
| `Guarantees.ZeroQuoteEndsThePass` | src/theater_tickets/workers/booking.py:328-334 | a checkout quoted at zero never reaches the provider, and every pass that comes to it ends there, before due candidates are claimed |
| `ZeroQuote.ZeroQuoteIsPlanned` | src/theater_tickets/application/planning.py:66-76 | a reachable state in which a pass comes to a checkout quoted at zero |
| `ZeroQuote.ZeroQuoteStays` | src/theater_tickets/application/checkout.py:105-106 | over every continuation of a run it is never submitted, and ends every pass that comes to it |
| `Guarantees.SeatsOfSlotsDiffer` | src/theater_tickets/application/planning.py:119-137 | unrefused checkouts of different slots of one buyer and session name different seats |
| `Guarantees.OrderFixesSeat` | src/theater_tickets/adapters/persistence/booking.py:313-326 | after a confirmed order every later checkout and order of the slot names its seat |
| `Guarantees.CyclesAreConsecutive` | src/theater_tickets/application/planning.py:175-216 | cycles are exactly 1 to the current number, each with one checkout and one reservation, within the cycle limit |
| `Guarantees.CyclesAreSpaced` | src/theater_tickets/application/renewals.py:96-101 | a cycle is never planned before the previous hold plus the interval |
| `Guarantees.OneCyclePerStep` | src/theater_tickets/application/renewals.py:72-79 | however late, one step plans at most one new cycle |
| `Guarantees.ClaimedIsTaskOrStopped` | src/theater_tickets/adapters/persistence/renewals.py:119-150 | every claimed candidate becomes exactly one task or is stopped |
| `StalePlans.ChangedPlanIsRefused` | src/theater_tickets/application/planning.py:78-115 | once a user has paused, resumed or deleted a subscription, an evaluation that read it before plans nothing, whatever happens in between |
| `Verdicts.EvaluationEnds` | src/theater_tickets/workers/booking.py:95-200 | in every reachable state, the rows after each evaluation and the transaction of the scheduler that follows: waiting for budget, availability or a taken seat until the retry or stopped by the end of the watch, stopped by a session limit, queued again when superseded or paused, blocked, or a new cycle that is submitted |
| `Settlements.ResultEnds` | src/theater_tickets/workers/booking.py:217-250 | in every reachable state, the rows after each result of a checkout and the transaction that follows: bought, with one message and the hold scheduled; given up, with reservation and free seat returned; or in doubt, with the sibling slots the error concerns |
| `Settlements.RecordedExactly` | src/theater_tickets/adapters/persistence/outbox.py:71-102 | in every reachable state an order is recorded, or refused for exactly one reason, by what it says and what is there; recording a known one changes nothing |
| `Recoveries.DecisionLeaves` | src/theater_tickets/adapters/persistence/reconciliation.py:54-95 | in every reachable state, the rows after the decision about an interrupted checkout: written again exactly if it never was or is not there, found exactly if the provider has what was asked for, blocked otherwise |
| `Recoveries.FoundEnds` | src/theater_tickets/adapters/persistence/booking.py:514-527 | in every reachable state, an order that recovery has found is bought and its hold scheduled |
| `Uptake.ClaimEnds` | src/theater_tickets/adapters/persistence/renewals.py:63-150 | in every reachable state, the rows after a claim: each elapsed cycle is closed and its reservation returned, each chosen candidate is claimed or, if its watch or its cycles are over, stopped; each one claimed has its task |
| `Uptake.ResumableExactly` | src/theater_tickets/adapters/persistence/booking.py:127-153 | in every reachable state, which checkouts a pass may resume, said column by column |
| `History.RunPersists` | src/theater_tickets/adapters/persistence/outbox.py:86-95 | over any continuation of a run orders, due times, release times, requests, settings and final messages never change, and no reservation comes back |
| `Writes.RepeatedWriteIsAuthorised` | src/theater_tickets/adapters/quicktickets/checkout.py:135-141 | a second provider call of a checkout follows an authorised retry after its first opening |
| `WritePairs.ConsecutiveWrites` | src/theater_tickets/adapters/persistence/checkout.py:48-66 | over every run: between two consecutive provider calls of a checkout a retry was authorised if and only if no repeated write in doubt was lost there |
| `WritePairs.RepeatedExactly` | src/theater_tickets/adapters/persistence/checkout.py:48-66 | whenever a checkout is written again, what came last before was an authorisation or a loss, never both and never neither |
| `WritePairs.LostIsNotAuthorised` | src/theater_tickets/adapters/persistence/reconciliation.py:42-52 | after a loss no step authorises a retry of the checkout before it has been written again |
| `WritePairs.WritesAreAuthorised` | src/theater_tickets/adapters/persistence/checkout.py:48-66 | in every run a checkout is written at most once more often than retries of it were authorised and repeated writes of it were lost |
| `Writes.AuthorisedByAbsence` | src/theater_tickets/application/reconciliation.py:149-180 | every authorisation of a retry, the first as well as any later one, is the provider's answer that there is no order |
| `Writes.WrittenAtMostOnce` | src/theater_tickets/application/reconciliation.py:170-180 | if that answer never comes, no checkout is written twice |
| `Writes.OpenedStaysResumable` | src/theater_tickets/adapters/persistence/checkout.py:51-53 | recording the start of a write leaves the checkout resumable exactly when it was a repeated write |
| `LostAgain.LostIsWrittenAgain` | src/theater_tickets/adapters/persistence/booking.py:127-153 | whenever a crash or an exception loses a repeated write in doubt and its checkout is still resumable, some continuation calls the provider for it again and authorises no retry of it |
| `LostWrite.ThreeWritesOneAuthorisation` | src/theater_tickets/adapters/persistence/checkout.py:51-53 | a concrete run calls the provider three times with one authorised retry |
| `Repairs.RepairLoop` | src/theater_tickets/adapters/persistence/booking.py:529-557 | the repair loop is never turned away, and its result does not depend on the order of its rows |
| `Repairs.RepairIsIdempotent` | src/theater_tickets/adapters/persistence/booking.py:529-546 | after a repair nothing is left to repair |
| `Repairs.StartupRepairs` | src/theater_tickets/application/reconciliation.py:114-117 | startup schedules every confirmed cycle that lost its schedule |
| `Repairs.CrashBeforeScheduling` | src/theater_tickets/adapters/persistence/booking.py:514-557 | a crash between recording an order and scheduling its renewal, then a repair, gives the tables of the run without the crash |
| `Repairs.StoppedStaysStopped` | src/theater_tickets/adapters/persistence/outbox.py:139-144 | recording an order and any repair after it leave a stopped candidate as it is; a recovery decision before the recording may not (`Stops.StopEndsExactly`) |
| `Stops.StopEndsExactly` | src/theater_tickets/adapters/persistence/renewals.py:187-223 | in every reachable state a step takes a candidate out of its stop exactly if it is one of these: its blocking, its wait unless that would outlast the watch, the refusal of its checkout unless in the last cycle, its checkout left in doubt, or a recovery decision about its checkout other than allowing a retry |
| `Stops.StopLasts` | src/theater_tickets/adapters/persistence/repositories.py:232-245 | a stop lasts over every run without such a step |
| `LostStop.StopIsLost` | src/theater_tickets/adapters/persistence/reconciliation.py:84-88 | a reachable run in which a user stops a candidate during the provider call, the process crashes, and recovery finds the order and makes the candidate due again |
| `BookingStore.Store.SumReserved` | src/theater_tickets/application/planning.py:251-273 | the aggregate loop computes the sum of the listed reservations |
| `BookingStore.Store.CheckLimits` | src/theater_tickets/application/planning.py:138-173 | refused for its session, for its budget, or not at all, exactly as the rows held in the batch and for the buyer say |
| `BookingStore.Store.PlanCycle` | src/theater_tickets/application/planning.py:54-216 | the transaction in place: its answer and the rows it leaves, said over the rows alone and equal to `Planning.Plan`; a raised error changes nothing |
| `BookingStore.Store.ReleaseElapsedAllocations` | src/theater_tickets/adapters/persistence/renewals.py:243-268 | the loop closes exactly the elapsed cycles and returns their reservations |
| `BookingStore.Store.ClaimDueCandidates` | src/theater_tickets/adapters/persistence/renewals.py:63-150 | the first `limit` candidates that may run, by due time, ticket number and identifier, all of them if fewer; what the claim leaves of cycles, reservations and candidates; the tasks, in the same order, of those that are not stopped |
| `BookingStore.Store.ScheduleHold` | src/theater_tickets/adapters/persistence/renewals.py:152-185 | the new tables and the refusals of a schedule |
| `BookingStore.Store.Wait` | src/theater_tickets/adapters/persistence/renewals.py:187-210 | the new tables of a wait, or of the stop it turns into |
| `BookingStore.Store.BlockTask` | src/theater_tickets/adapters/persistence/renewals.py:212-223 | the candidate is blocked, and its cycle too unless it was only claimed |
| `BookingStore.Store.Stop` | src/theater_tickets/adapters/persistence/renewals.py:225-229 | one candidate stops and nothing else changes |
| `BookingStore.Store.Release` | src/theater_tickets/adapters/persistence/renewals.py:231-241 | only an unused claim goes back to the queue |
| `BookingStore.Store.RecoverRenewals` | src/theater_tickets/adapters/persistence/renewals.py:51-61 | exactly the claimed candidates are queued again, due at once |
| `BookingStore.Store.RecordMilestone` | src/theater_tickets/adapters/persistence/checkout.py:35-66 | one intent changes as the stage says; only the first write opens it |
| `BookingStore.Store.RecordConfirmedOrder` | src/theater_tickets/adapters/persistence/outbox.py:48-144 | every check, the replay and the new tables of a recorded order |
| `BookingStore.Store.EnqueueBatchSummary` | src/theater_tickets/adapters/persistence/outbox.py:146-188 | a known buyer gets the identifier of the only summary of the batch, whether it was there before or is new; an unknown one gets none |
| `BookingStore.Store.RejectCheckout` | src/theater_tickets/adapters/persistence/booking.py:287-334 | intent, cycle, reservation and candidate after a definite refusal |
| `BookingStore.Store.CheckoutNeedsAttention` | src/theater_tickets/adapters/persistence/booking.py:336-360 | intent, cycle, candidate and sibling slots after an outcome in doubt |
| `BookingStore.Store.ApplyOutcome` | src/theater_tickets/adapters/persistence/reconciliation.py:54-95 | intent, cycle and candidate after a recovery decision |
| `BookingStore.Store.ListUnfinished` | src/theater_tickets/adapters/persistence/reconciliation.py:42-52 | exactly the pending, open, unknown and validated checkouts, oldest first, each with whether its write was started |
| `BookingStore.Store.ListResumableCheckouts` | src/theater_tickets/adapters/persistence/booking.py:127-153 | the first `limit` resumable checkouts in order of creation, all of them if fewer |
| `BookingStore.Store.RecoverUnscheduled` | src/theater_tickets/adapters/persistence/booking.py:529-557 | exactly the confirmed cycles with an order and no due time are scheduled, and none of them is turned away |
| `BookingStore.Store.RecoverSending` | src/theater_tickets/adapters/persistence/outbox.py:213-230 | exactly the messages left half sent go back to the queue, due at once |
| `BookingStore.Store.ClaimDueMessages` | src/theater_tickets/adapters/persistence/outbox.py:232-278 | the first `limit` due messages by due time and creation are claimed, all of them if fewer are due; the items are exactly those that may be sent, in order of creation, as they are at the claim |
| `BookingStore.Store.BuildItem` | src/theater_tickets/adapters/persistence/outbox.py:327-400 | a claimed message is rejected, superseded, expired or kept for sending |
| `BookingStore.Store.FinishMessage` | src/theater_tickets/adapters/persistence/outbox.py:446-470 | only a message being sent is finished |
| `BookingStore.Store.ScheduleRetry` | src/theater_tickets/adapters/persistence/outbox.py:292-316 | only a message being sent goes back for a retry |
| `BookingStore.Store.SetSubscriptionEnabled` | src/theater_tickets/adapters/persistence/repositories.py:213-221 | a plan made with the settings read before is refused from now on; a paused subscription is neither claimed, resumed nor planned |
| `BookingStore.Store.Delete` | src/theater_tickets/adapters/persistence/repositories.py:223-230 | nothing is claimed, resumed or planned for a deleted subscription |
| `BookingWorker.Worker.Submit` | src/theater_tickets/adapters/quicktickets/checkout.py:130-190 | at most one provider call, its start committed before and its outcome after it: a run of the transition system, whose result and intent state are those of the answer, accepted if and only if it meets the request; a dry run changes nothing |
| `BookingWorker.Worker.Settle` | src/theater_tickets/workers/booking.py:217-250 | what is committed for a confirmed, refused or doubtful result: a run of the transition system |
| `BookingWorker.Worker.EvaluateTask` | src/theater_tickets/workers/booking.py:95-200 | from the evaluation to the plan it leads to: a run of the transition system, and for each evaluation and each answer of the plan the verdict it leads to |
| `BookingWorker.Worker.DispatchVerdict` | src/theater_tickets/workers/renewals.py:37-83 | the scheduler transaction for each result is a step of the transition system and is never turned away |
| `BookingWorker.Worker.ProcessTasks` | src/theater_tickets/workers/renewals.py:31-83 | the renewal loop processes each claimed task once and ends: a run of the transition system |
| `BookingWorker.Worker.ResumeAll` | src/theater_tickets/workers/booking.py:328-368 | the resume loop continues each resumable checkout once, up to the first whose request cannot be built: a run of the transition system |
| `BookingWorker.Worker.RunBookingDue` | src/theater_tickets/workers/booking.py:438-445 | one pass, resumed checkouts before due candidates, is a run of the transition system that ends idle, also when it is cut short |
| `BookingWorker.Worker.RecoverOne` | src/theater_tickets/application/reconciliation.py:118-180 | the decision about one interrupted checkout and its transactions: a run of the transition system that writes it again, buys what was found, or blocks it, as its row and the answer of the provider say |
| `BookingWorker.Worker.FinalizeOne` | src/theater_tickets/adapters/persistence/booking.py:514-527 | an order found by recovery is bought: recorded at its final price with one message, and its hold scheduled |
| `BookingWorker.Worker.RecoverStartup` | src/theater_tickets/application/reconciliation.py:114-132 | startup handles every unfinished checkout once and ends idle: a run of the transition system |
| `OutboxDelivery.OutboxWorker.DeliverOne` | src/theater_tickets/workers/outbox.py:53-119 | whatever others commit before the send, and between the send and its record, a claimed item is sent exactly if it is in time and to its own buyer; its message leaves `sending` unless the store fails; every other message and all orders stay |
| `OutboxDelivery.OutboxWorker.RunOnce` | src/theater_tickets/workers/outbox.py:42-51 | all due messages up to the limit are claimed, and what may be sent was due and current then; each is sent at most once, in time and to its own buyer, with others committing between deliveries; a pass that returns leaves nothing in `sending`, and one that is cut short is marked for recovery |
| `LateLinks.PassIsRun` | src/theater_tickets/workers/outbox.py:42-119 | the tables after a pass, with everybody else in between, are those of a run of the transition system: recovery, claim, and for each item the steps of others and one transaction of its own |
| `LateLinks.OthersRun` | src/theater_tickets/workers/outbox.py:53-61 | whatever booking, recovery, users and discovery do over a run is within what the delivery pass allows for |
| `LateLinks.InTimeIsCurrent` | src/theater_tickets/workers/outbox.py:56-61 | a link sent in time is of the current cycle if it expires no later than its hold is renewed |
| `LateLinks.EarlyIsCurrent` | src/theater_tickets/workers/outbox.py:56-61 | whenever it expires, a link is of the current cycle until its hold is renewed |
| `LateRun.InTimeExactly` | src/theater_tickets/workers/outbox.py:53-81 | every link that is claimed as current and sent in time, over any run of the others in between, is current when it is sent if and only if links last no longer than the renewal interval |
| `LateRun.SupersededInTime` | src/theater_tickets/workers/outbox.py:53-81 | for all longer lifetimes, a reachable run in which a link is claimed as current, superseded by a new cycle, and still sent in time |
| `LateRun.RenewedInFullBatch` | src/theater_tickets/application/planning.py:138-151 | a reachable run in which a candidate is renewed although the batch already has as many sessions as its subscription allows |
| `OutboxDelivery.RecoveredIsDue` | src/theater_tickets/adapters/persistence/outbox.py:213-230 | what an interrupted pass left half sent is due again at once |
| `OutboxDelivery.RetryDelayDoubles` | src/theater_tickets/workers/outbox.py:92-101 | the wait doubles from 30 seconds to half an hour |
| `OutboxDelivery.PaymentIsClaimed` | src/theater_tickets/adapters/persistence/outbox.py:356-400 | in every reachable state a claimed payment message is superseded by a newer cycle, expired or sent, never rejected |
| `Deliveries.ClaimSortsMail` | src/theater_tickets/adapters/persistence/outbox.py:327-400 | what a claim makes of each message: rejected, superseded, expired or being sent, by buyer, order, cycle and expiry; the others stay |
| `Deliveries.TermsExactly` | src/theater_tickets/adapters/persistence/outbox.py:232-278 | which messages are due, in which order they are claimed and sent, what an item says, and until when it is sent |
| `Deliveries.DeliveryEnds` | src/theater_tickets/workers/outbox.py:53-119 | with everybody else in between, the message after its delivery: sent, rejected when late or not the buyer's own chat, or waiting for the time the transport names or the doubled delay; every other message stays |
| `Deliveries.WaitExactly` | src/theater_tickets/workers/outbox.py:92-101 | the delay after n attempts is 30 seconds times two to the n - 1, and half an hour from the seventh on |
| `Inference.ShortGap` | src/theater_tickets/domain/seating/topology.py:173-182 | the scan of neighbouring gaps finds the smallest positive distance of any two seats of the row |
| `Inference.SplitRow` | src/theater_tickets/domain/seating/topology.py:183-190 | a row is cut exactly where neighbours are more than one and a half times that distance apart |
| `Inference.CutsExactly` | src/theater_tickets/domain/seating/topology.py:183-190 | within a group no gap is longer than one and a half times any distance of two seats of the row, and between groups one is |
| `Inference.InferSegments` | src/theater_tickets/domain/seating/topology.py:166-199 | every row of placed seats is sorted and split, row by row in the order of names |
| `Profiles.InferProfile` | src/theater_tickets/domain/seating/topology.py:155-208 | a profile is inferred exactly for one hall with placed seats, none repeated, whose rows differ in their texts |
| `Profiles.SegmentsPartition` | src/theater_tickets/domain/seating/topology.py:166-199 | the segments hold exactly the placed seats |
| `Profiles.ConstructibleExactly` | src/theater_tickets/domain/seating/topology.py:68-83 | the inferred segments pass every construction check exactly under that condition |
| `Profiles.InferredMatches` | src/theater_tickets/domain/seating/topology.py:107-123 | an inferred profile matches the inventory it came from |
| `Profiles.InferredMatchesExactly` | src/theater_tickets/domain/seating/topology.py:107-123 | an inferred profile matches an inventory if and only if that has the same places of the same hall, each once, in any order and at any price: it is rejected as soon as a place is added, removed, moved or named differently |
| `Profiles.CollidingRows` | src/theater_tickets/domain/seating/topology.py:192-199 | two rows of valid seats whose texts collide |
| `Ranking.QualityBounded` | src/theater_tickets/domain/seating/candidates.py:148-169 | the score of a window lies between zero and one |
| `Ranking.QualityExactly` | src/theater_tickets/domain/seating/candidates.py:148-169 | the score of every candidate is the weighted sum of its row and aisle scores, of its nearness, which falls from one at the view axis linearly to zero at the width, and of its cheapness, which falls from one linearly to zero at the price limit |
| `Ranking.WindowExactly` | src/theater_tickets/domain/seating/candidates.py:131-171 | a window is ranked exactly when its seats are free, affordable and scored, and the score is good enough |
| `Ranking.WindowIsValid` | src/theater_tickets/domain/models.py:187-200 | every window of a matching inventory makes a valid seat group of seats that follow each other in one segment |
| `Ranking.AutomaticGroups` | src/theater_tickets/domain/seating/candidates.py:115-128 | the loops return exactly the ranked windows, one per place |
| `Ranking.ManualGroups` | src/theater_tickets/domain/seating/candidates.py:87-112 | the loop returns exactly the ranked preferred groups of the asked size |
| `Ranking.RankGroups` | src/theater_tickets/domain/seating/candidates.py:67-84 | the result is exactly the candidates of the profile's mode in key order, each as often as preferred groups ask for it, or the reason there is none |
| `Ranking.BetterIsFirst` | src/theater_tickets/domain/seating/candidates.py:148-191 | of two listed groups, the one that is in no respect worse, and nearer to the axis within the width, cheaper, or of a higher row or aisle score with a weight that counts, comes first |
| `Ranking.PreferredIsFirst` | src/theater_tickets/domain/seating/candidates.py:182-191 | preferred groups come before others, and those of a smaller priority first |
| `Ranking.EqualsAreInOrder` | src/theater_tickets/domain/seating/candidates.py:182-191 | groups of the same quality and total are in the order of segment names and of their places |
| `Ranking.InventoryOrder` | src/theater_tickets/domain/seating/candidates.py:71-77 | listing the same seats in another order changes neither the match nor the candidates |
| `Ranking.RankingIsUnique` | src/theater_tickets/domain/seating/candidates.py:182-191 | in every mode no two candidates have the same key, so that the ranking is determined |
| `Ranking.ListingIsIrrelevant` | src/theater_tickets/domain/seating/candidates.py:67-84 | in every mode, listing the same seats in another order gives the same ranking |
| `Evaluation.FirstIsFirst` | src/theater_tickets/application/booking.py:221-242 | the search for a single place finds the first eligible one, and fails only when there is none |
| `Evaluation.EvaluateUnnumbered` | src/theater_tickets/application/booking.py:245-276 | the cheapest free place without a number that the limits allow |
| `Evaluation.InferredSelection` | src/theater_tickets/application/booking.py:279-299 | the fallback is the inferred profile with preferences centred between the outermost places; it is valid, matches its inventory, and exists exactly when one can be inferred |
| `Evaluation.EvaluateAdjacent` | src/theater_tickets/application/booking.py:183-205 | a group is chosen if and only if there is a ranked one, and then the first by key; it respects the limits, so that the branch after the ranking is never taken |
| `Evaluation.BestIsUnbeaten` | src/theater_tickets/application/booking.py:183-205 | no ranked group is in no respect worse than the chosen one and better in one that counts |
| `Evaluation.InferredPrefersTheMiddle` | src/theater_tickets/application/booking.py:279-299 | with the fallback, of two windows that cost the same the one nearer to the middle between the outermost places is the better one, and of two equally near ones the cheaper |
| `Evaluation.Evaluate` | src/theater_tickets/application/booking.py:148-210 | each refusal exactly in its case: paused, another session, started, not matching, too many tickets, no sale, a foreign inventory, no automatic profile, several places without numbers; otherwise the first free place the slot may take, the cheapest place without number, or the first group by key, exactly when there is one; a chosen group is free and within the limits |
| `Evaluation.ChosenPassesPlan` | src/theater_tickets/application/planning.py:66-76 | a chosen group passes every input check of a plan exactly when a positive amount is reserved for it |
| `Evaluation.ChosenKeepsSeat` | src/theater_tickets/application/planning.py:119-126 | a place chosen for a slot passes the target seat check of a plan |
| `Discovery.SlotsExactly` | src/theater_tickets/application/discovery.py:137-181 | slots are added for exactly the listed, matching sessions of the batch that the buyer has none for: slot 0, or 1 to the number of tickets |
| `Snapshots.LookAdds` | src/theater_tickets/application/discovery.py:38-191 | what one look adds, said over the catalogue alone: the listed sessions of the theatre, the baseline, the batch of the sessions unseen until then, and, unless it is the first look, a repeated one or of a paused subscription, the slots |
| `Discovery.HistoryIsSound` | src/theater_tickets/application/discovery.py:38-191 | over every history a session is in at most one batch, and a buyer and session have no slot or exactly the slots one complete look of theirs asks for, slot 0 or 1 to the number of tickets, each of the subscription of that look |
| `Discovery.ReprocessingAddsNothing` | src/theater_tickets/application/discovery.py:101-102 | the current snapshot seen again changes nothing |
| `Discovery.OrderDoesNotMatter` | src/theater_tickets/application/discovery.py:104-129 | for two subscriptions of different buyers that have baselines, both orders give the same catalogue |
| `Discovery.OrderInHistory` | src/theater_tickets/application/discovery.py:104-129 | so it does after every history in which a snapshot always lists the same sessions |
| `Discovery.BaselineFirst` | src/theater_tickets/application/discovery.py:77-99 | when one has no baseline, the order matters exactly if the other would have found a slot in a new batch |
| `Discovery.LostDiscovery` | src/theater_tickets/application/discovery.py:77-99 | two histories that differ in the order of their last two looks only, and in their slots |
| `Discovery.Service.ProcessSnapshot` | src/theater_tickets/application/discovery.py:38-191 | the transaction in place: the new catalogue and the slots that were added |
| `Discovery.Service.AddTickets` | src/theater_tickets/application/discovery.py:160-183 | the loop over ticket numbers adds exactly the slots of one session |
| `Runtime.LeaseIsExclusive` | src/theater_tickets/adapters/persistence/runtime.py:46-97 | over every sequence of acquire, heartbeat and release under a clock that does not go back, a grant that has not run out is the one in the row |
| `Runtime.OneOwner` | src/theater_tickets/adapters/persistence/runtime.py:46-97 | at each instant at most one owner holds a grant that has not run out |
| `Runtime.LeaseStore.AcquireLock` | src/theater_tickets/adapters/persistence/runtime.py:46-68 | the lease is given exactly if no other owner holds an unexpired grant, and from then on nobody else holds one |
| `Runtime.LeaseStore.Beat` | src/theater_tickets/adapters/persistence/runtime.py:70-88 | a grant is extended exactly if its owner still holds it, and nobody else holds one then |
| `Runtime.LeaseStore.ReleaseLock` | src/theater_tickets/adapters/persistence/runtime.py:90-97 | the owner holds nothing any more, every other owner holds what it held, and a lease that was held is free |
| `Runtime.Polling.Fail` | src/theater_tickets/workers/runtime.py:87-118 | the n-th failure without a wait of its own since the last success waits the initial time doubled n - 1 times, up to the maximum |
| `Runtime.Polling.Succeed` | src/theater_tickets/workers/runtime.py:116-117 | a success makes the count of failures and the doubling start again |
| `Runtime.RateLimitedDoesNotAdvance` | src/theater_tickets/workers/runtime.py:174-180 | failures that name their wait do not advance the doubling |
| `Runtime.Limiter.Reserve` | src/theater_tickets/adapters/quicktickets/client.py:178-184 | the wait is the least one that keeps the interval to the last slot; every reserved slot keeps it to all earlier ones |
| `Runtime.WindowBound` | src/theater_tickets/adapters/quicktickets/client.py:178-184 | a window holds at most its length divided by the interval, plus one, slots |
| `Runtime.Limiter.Request` | src/theater_tickets/adapters/quicktickets/client.py:135-176 | at most one read more than the retries, each in its own slot; only timeouts, rate limits and server errors are retried, and the first other answer, or the last one, is what is returned |

## Left out

- ListUnfinished: breaks ties of creation time, which the source leaves to a random row identifier, arbitrarily; so do ListResumableCheckouts and ClaimDueMessages where the source leaves them open.
- BuildItem: malformed payloads and orders without link or expiry are not modelled, because nothing writes them.
- OwnLimits: says nothing about sessions of a batch, because the source counts those of every buyer; SharedBatch bounds them.
- ScheduleHold: takes the foreign keys of the tables for granted, as every method of the store that rewrites a checkout does.
- RunBookingDue: runs without steps of users, discovery or delivery in between, which the runs of the transition system cover, and without its dry runs and summaries.
- BuyerLimits: is stated for one subscription of a buyer; the invariant bounds several of them by any limit that all of them respect.
- InferProfile: orders texts by character code and compares fingerprints by what they digest.
- PaymentIsClaimed: takes the buyer's row as present, because nothing deletes buyers.
- Limiter.Request: does not model the sleep between attempts or the parsing of the wait a response names.
- LeaseIsExclusive: assumes that the clocks of all owners agree and do not go back.
- Dry-run candidates, reports and their worker: they never reach the provider.
- Texts of messages, links to the previous message and the expiry of old messages: they change no state that the engine reads.
- Buyer profiles in requests, logging, status pages, stop reasons and error codes kept for display: nothing in the engine decides by them.
- Time zones: every timestamp is an aware one, so the checks that refuse naive timestamps are not modelled.
- Surrogate keys: cycles, intents, allocations and orders are keyed by candidate and cycle number, since each cycle has one intent with attempt number one.
- The filters of a subscription on event, title, date and time are one class per session in discovery, and one answer in an evaluation.
- Provider answers, profile files, HTML, JSON, browser and HTTP: any answer may come at any time.
- Manual resolution of a checkout and release of a cycle's allocation by number: no caller uses them.
- Progress: a crash after a refusal or a request for user action was recorded leaves the candidate submitting, and nothing proved here says that it moves on.
- Cancellation of tasks in the runtime supervisor, wake events and start-to-start intervals of the polling loop.
