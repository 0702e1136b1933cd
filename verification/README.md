# Slot: booking, payment and notification, verified

Slot lets a client book a time slot of a master, pay for it and be told about every change. Three
services do this without a distributed transaction: each owns a database, writes what must leave it
into an outbox in the same transaction as the change, and a relay carries the outbox out. This
project models that protocol and five smaller pieces of logic around it, and proves what they keep.

How a piece of the source becomes Dafny:

- A database is a value that changes only at commit. Redis, NotifyGate, PayStub and (seen from
  payments) booking are values that do not roll back.
- A function of the source that changes tables exists twice: as a specification function from
  tables to tables, and as a method of a class with fields (`BookingDesk.Session`,
  `OutboxRelay.Relay`, `PaymentsDesk.Session`, `NotifierConsumer.Consumer`) whose `ensures`
  clauses equate its whole effect with that function.
- The interleaved machines (`BookingHistory`, `NotifierRuns`, `Delivery`, `Ledger`) take the same
  effects one at a time, from any number of requests, relays and consumers, with a crash possible
  between any two. A run is a sequence of states; the main theorems are about every state of
  every run. `NotifierAlone`, `RelayAlone`, `LedgerAlone` and `LedgerPass` prove that an
  uninterrupted cycle, pass or call is one of these runs (`Paths` has what they share).
- Time is a number of microseconds, an identifier is a natural number, and the caller passes both.

| files | what they hold |
|---|---|
| `BookingDomain`, `BookingService`, `BookingHistory`, `BookingDesk`, `BookingEvents` | slots, bookings, status changes, the outbox and its messages |
| `Batches`, `OutboxRelay`, `RelayAlone` | the booking relay |
| `NotifierDomain`, `Notifier`, `NotifierOutcomes`, `NotifierConsumer`, `NotifierRuns`, `NotifierAlone` | the consumer: claim rows, idempotency keys, dead letters |
| `NotifierRetries`, `NotifierSettles`, `NotifierRaises` | bounded retries, exactly when everything gets settled, and what an entry that raises does to the others |
| `NotifierFinished`, `NotifierOverwrites`, `NotifierForgets` | finished notifications, overwritten ones, a forgetful gateway |
| `Delivery`, `DeliveryMarks`, `DeliveryForgets` | booking, relays and consumers together, end to end |
| `PaymentsService`, `PaymentsDesk`, `WebhookTraces` | payments, provider events, the command relay |
| `Ledger`, `LedgerRules`, `LedgerRuns`, `LedgerEvents`, `LedgerMarks`, `LedgerStages`, `LedgerCharges`, `LedgerRefunds`, `LedgerSerial`, `LedgerOverlap`, `LedgerAlone`, `LedgerPass` | payments together with booking and the provider |
| `Strings`, `Decimal`, `Base64Url`, `Json`, `Token` | the signed token |
| `Price` | kopecks and roubles |
| `Flakiness` | the verdict on a test and its way out of quarantine |
| `SchemaDiff` | the gate between two versions of an event schema |
| `AcceptedRisks`, `DependencyAudit`, `AuditLimits` | the dependency gate |

## Assumptions about the surroundings

- PayStub returns the first charge (refund) for a repeated key, per endpoint, as
  `contracts/paystub/openapi.yaml:25-31` and `:54-60` promise. What it answers is arbitrary.
- NotifyGate returns the first message for a repeated key. `contracts/notifygw/openapi.yaml:13-14`
  promises this for 24 hours. `Delivery` is about a gateway that forgets no key; what is left when it
  may forget any key at any time is in `NotifierForgets` and `DeliveryForgets`.
- The stores answer, the ids NotifyGate gives out fit their column, and a text of an error can be
  stored. A payload may hold whatever it likes: which texts can be sent to the notifier's database is
  left open (`Common.Codec.sendable`), and the widths of its columns are those of
  `services/notifier/src/notifier/models.py:30-34`.
- No stream entry is trimmed before it is acknowledged (the publisher trims at
  `services/booking/src/booking/outbox.py:24`).
- `book_slot` is one atomic transaction; `change_status` is a read that may be stale followed by
  an atomic conditional update. Identifiers are never used twice, and are ordered by creation
  where a method hands them out.
- What an identifier or an instant looks like when printed is left open (`Common.Codec`); the end
  to end theorems ask only that identifiers print differently and that a printed instant is read back.

## Where the code differs from what is written about it

- After a failure in a relay batch the rollback also removes the marks of the messages that went
  out before it: the count returned is of deliveries, and these messages are delivered again
  (`OutboxRelay.PassMarksAllOrNothing`, `PaymentsDesk.PassMarksAllOrNothing`).
- `services/payments/src/payments/booking_client.py:21` reads a refusal as "expired or cancelled".
  `LedgerRefunds.WrongRefundExactly` says exactly when that is wrong; it never is when confirms for
  one booking do not overlap (`LedgerSerial.SerialRefundOnlyWhenOver`). `LedgerOverlap` walks through
  a run from the empty databases in which a confirmed booking is refunded.
- A notification that is sent can be overwritten as dead and the reverse. `NotifierOverwrites` gives
  a run for each and says exactly which steps do it.
- `services/notifier/src/notifier/consumer.py:278` says that one poisonous message must not stop the
  rest. Three kinds do: JSON that is no object, JSON that exhausts the parser's stack, and an event of
  a known type whose id the database does not take (a NUL character; the insert raises, and beyond the
  limit so does the dead letter, each time after one more entry in the dead stream). An id like that
  in an event of an unknown type is harmless when handled in time, which an entry that cannot be
  inserted can prevent. `NotifierSettles` says for every vocabulary of payloads whether everything
  gets settled, if and only if; `NotifierRaises` shows the inputs and what happens to the others.
- The schema gate says that a value list may only grow, but it lets a list appear where there was
  none, which rejects old messages (`SchemaDiff.NewListRejectsOldValue`, and the exact condition in
  `SchemaDiff.OldMessagesStayAccepted`). And it does not compose: two releases can pass one after the
  other that do not pass together (`SchemaDiff.TwoPassesDoNotMakeOne`), exactly when
  `SchemaDiff.PassingComposesExactly` says.
- `tools/accepted_risks.py:21-22` caps an acceptance shorter "when no fix exists at all". The gate asks
  the `no_fix` flag of the entry and never the fix versions the scanner reports:
  `AuditLimits.UnfixableAcceptedForNinetyDays` is an input, `AuditLimits.FlagDecidesTheLimit` the
  exact condition.
- Not every flakiness policy keeps a released test out of quarantine; `Flakiness.WhenReleaseIsSafe`
  says exactly which do. The default one does.

## Model

| member | source | states |
|---|---|---|
| BookingDomain.WalkNeverRepeats | services/booking/src/booking/domain.py:29-36 | a path through the transition table never repeats a status, never returns to pending, and has at most two changes, which can only be confirmed then cancelled |
| BookingDomain.WalksExactly | services/booking/src/booking/domain.py:29-36 | the paths of a booking are nothing yet, confirmed, confirmed then cancelled, cancelled, and expired, and no others |
| BookingService.AvailableExactlyWhenBookable | services/booking/src/booking/service.py:41-103 | a slot is listed as available exactly when booking it at that instant succeeds |
| BookingService.ListMineIsWhatOneMayOpen | services/booking/src/booking/service.py:119-150 | the list of one's own bookings is exactly the set of bookings one may open |
| BookingService.PayableExactly | services/booking/src/booking/service.py:153-169 | one may pay exactly for a booking of one's own that is pending and still holds its slot; otherwise one's own booking is called not payable and a stranger's not found |
| BookingService.OpenToItsTwoSides | services/booking/src/booking/auth.py:143-152 | a booking is open to its client and to the master of its slot, each in that role; to everybody else it is not there |
| BookingService.EverySlotHasItsPlace | services/booking/src/booking/service.py:49-60 | every slot is in the list of its master and of no other, there on its own day and on no other, under the same flag; nothing else is listed |
| BookingService.NewSlotIsOpen | services/booking/src/booking/domain.py:81-92 | a slot that may be created is stored as given, listed for its master and its day only, and can be booked by anybody exactly until it starts; bookings, outbox and the listing of every other slot stay as they were; a refused one changes nothing |
| BookingService.BookingHoldsForItsTime | services/booking/src/booking/service.py:63-169 | after booking a slot its client can pay exactly until the time is up, and anyone can book the slot anew exactly from then on until it starts |
| BookingHistory.BookSlotKeeps | services/booking/src/booking/service.py:63-103 | booking a slot keeps one active booking per slot and an outbox that tells every history; a refusal leaves the whole database as it was |
| BookingHistory.CommitChangeKeeps | services/booking/src/booking/service.py:180-206 | a conditional update from any allowed stale read keeps the same invariants, so it can never violate the active-slot index |
| BookingHistory.OnePayablePerSlot | services/booking/src/booking/service.py:153-169 | two payable bookings of one slot are the same booking, and it is the one that makes the slot unavailable |
| BookingHistory.OneRowPerTransition | services/booking/src/booking/service.py:209-241 | no transition of a booking is recorded by two outbox rows |
| BookingHistory.StepKeeps | services/booking/src/booking/service.py:63-241 | every single step of any interleaving of requests keeps the invariants |
| BookingHistory.EveryRunKeeps | services/booking/src/booking/models.py:45-50 | in every reachable state each slot has one active booking at most, and the outbox rows of each booking, in commit order, spell its path from pending to its status |
| BookingHistory.ReadAnswers | services/booking/src/booking/service.py:180-189 | what a request is told by the status it reads: the status asked for is a success, one that may follow is tried, any other is refused, and a missing booking is not found |
| BookingHistory.RepeatIsSafe | services/booking/src/booking/service.py:185-188 | in every run: once a change has succeeded, asking for it again succeeds and leaves the database alone for as long as the outbox tells of no other change of the booking |
| BookingHistory.LostRequestsMayBeRepeated | services/booking/src/booking/service.py:185-188 | a request whose caller is gone leaves the database alone and may be made again |
| BookingDesk.Session.CreateSlot | services/booking/src/booking/service.py:26-38 | a naive, empty or past slot is refused without effect, any other is added under an id not used before |
| BookingDesk.Session.BookSlot | services/booking/src/booking/service.py:63-103 | a missing, started or held slot is refused in that order without effect; otherwise the booking is added as pending from now, every other pending one on the slot is expired, nothing else changes, and tables and answer are those of the specification |
| BookingDesk.Session.ExpireStale | services/booking/src/booking/service.py:71-84 | every stale booking of the slot is expired and told once, under fresh ids, and nothing else changes |
| BookingDesk.Session.UpdateStatus | services/booking/src/booking/service.py:191-206 | the row changes exactly if it still has the status that was read; change and outbox row come together |
| BookingDesk.Session.ChangeStatus | services/booking/src/booking/service.py:180-206 | by the status the booking has: a repeated change succeeds without effect, a forbidden one is refused, a missing booking is not found, and an allowed one changes that row and adds the one outbox row that tells of it |
| BookingDesk.InsertMeetsIndex | services/booking/src/booking/models.py:45-50 | inserting a pending booking violates the index exactly when the slot is taken |
| BookingEvents.ReadsWhatWasWritten | services/booking/src/booking/events.py:44-63 | the notifier reads every field of a published message as it was meant and meets no surprise |
| BookingEvents.RendersTheNotice | services/notifier/src/notifier/domain.py:84-89 | every status a client is told about has its message in the notifier, and the text sent is, word for word, the notice of that very change |
| BookingEvents.MessagesTellApart | services/booking/src/booking/events.py:44-63 | a message leaves nothing out of the change it tells: equal messages come from equal outbox events |
| NotifierDomain.ReadsExactly | services/notifier/src/notifier/domain.py:66-81 | exactly which payloads are an event, which are unreadable and which raise, and what the event then holds |
| BookingEvents.PublishedIsHarmless | services/booking/src/booking/events.py:44-63 | whatever booking publishes belongs to a vocabulary of which nothing ever gets stuck, for every limit and batch size, as long as printed ids can be sent to the database |
| BookingEvents.PublishedIsSettled | services/notifier/src/notifier/consumer.py:108-196 | so with nobody else writing to the stream everything is acknowledged after as many idle cycles as deliveries were left, whatever the gateway answers |
| Batches.FirstNIsPrefix | services/booking/src/booking/outbox.py:66-72 | a batch is an initial segment of the eligible ids in ascending order, as long as the limit allows |
| OutboxRelay.Relay.PublishPending | services/booking/src/booking/outbox.py:57-88 | the batch is, in order, the unpublished and unlocked rows with fewer than the limit of such rows before them; what is handed over is a prefix of it; the table is marked for the whole batch or changed in one counter only |
| OutboxRelay.Relay.PublishBatch | services/booking/src/booking/outbox.py:74-88 | the loop with rollback and break, including a publish that took effect but failed to answer |
| OutboxRelay.PassMarksAllOrNothing | services/booking/src/booking/outbox.py:78-88 | after a failure only the attempts of the failing row grow, by one; otherwise exactly the batch gets its mark, with the time of the pass; nothing else changes in any row |
| RelayAlone.PassIsARun | services/booking/src/booking/outbox.py:57-88 | an uninterrupted pass is a run of the interleaved machine with at most two steps more than its batch is long |
| NotifierConsumer.Consumer.HandleEntry | services/notifier/src/notifier/consumer.py:163-196 | by reading, number of delivery, type, widths and row: raised, given up, ignored, a duplicate that only gets acknowledged, or one request to the gateway under the event id, recorded as sent with its id or counted as a failure; with every store as it is afterwards |
| NotifierFinished.NeverAskedAgain | services/notifier/src/notifier/consumer.py:182-226 | in every run, with any number of consumers: once the row of an event is sent or dead and no consumer is just about to send for it, no continuation makes another request under its key |
| NotifierConsumer.Consumer.Reclaimed | services/notifier/src/notifier/consumer.py:121-147 | abandoned entries are claimed in order, each with its counter raised by one |
| NotifierConsumer.Consumer.RunOnce | services/notifier/src/notifier/consumer.py:108-113 | a cycle handles abandoned entries, then new ones, and counts each outcome |
| NotifierRuns.StepKeeps | services/notifier/src/notifier/consumer.py:163-281 | every single effect of every consumer keeps the evidence for every entry |
| NotifierRuns.NoSilentLoss | services/notifier/src/notifier/consumer.py:163-281 | in every run an acknowledged entry is of an unknown type, or accepted by the gateway under its event id, or in the dead stream itself or by its event id, and is never one that raises at each delivery; a delivered one is acknowledged or pending |
| NotifierRuns.MessagesComeFromEntries | services/notifier/src/notifier/consumer.py:185-188 | every message the gateway holds is the one some entry asks for, and no two are held under one key |
| NotifierOverwrites.OverwrittenExactly | services/notifier/src/notifier/consumer.py:240-276 | exactly which step takes a notification from sent to dead (a consumer that gave up an entry of its event, whose id can be sent) and which from dead to sent (a consumer the gateway answered); no other step changes it |
| NotifierOverwrites.SentStaysExactly | services/notifier/src/notifier/consumer.py:252-276 | over any stretch of any run a notification stays sent if and only if nobody gives up an entry of its event |
| NotifierOverwrites.DeadStaysExactly | services/notifier/src/notifier/consumer.py:240-249 | over any stretch of any run a notification stays dead if and only if no consumer records a sent message of its event |
| NotifierOverwrites.DoneStaysDone | services/notifier/src/notifier/consumer.py:224-226 | in no run does a notification that was sent or given up return to sending |
| NotifierOverwrites.TextsStay | services/notifier/src/notifier/consumer.py:198-221 | in every run a notification, once claimed, keeps its event and its text |
| NotifierOverwrites.SentBecomesDead | services/notifier/src/notifier/consumer.py:170-173 | a run in which a sent notification is overwritten as dead by a second entry of the same event, for every limit of deliveries |
| NotifierOverwrites.DeadBecomesSent | services/notifier/src/notifier/consumer.py:185-196 | a run in which a slow sender overwrites as sent a notification that was given up |
| NotifierAlone.HandleIsARun | services/notifier/src/notifier/consumer.py:163-196 | handling one entry without interruption is a run of at most six effects of the interleaved machine |
| NotifierAlone.CycleIsARun | services/notifier/src/notifier/consumer.py:108-113 | a whole cycle is a run of the interleaved machine |
| NotifierRetries.CallsAreBounded | services/notifier/src/notifier/consumer.py:170-173 | from the empty system on, whatever arrives and whatever the gateway answers, no entry causes more gateway calls than the limit of deliveries |
| NotifierSettles.SettledOrStuck | services/notifier/src/notifier/consumer.py:121-196 | in whatever state arrivals and cycles have led to: after as many idle cycles as deliveries were left, whatever the gateway answers, everything is acknowledged if and only if no entry is there that raises at every further delivery |
| NotifierSettles.EverythingIsSettledExactly | services/notifier/src/notifier/consumer.py:108-281 | for every vocabulary of payloads, limit and batch size: every stream made of it is settled after as many idle cycles as deliveries were left if and only if no payload raises at every delivery, and either none is of an unknown type with an id that cannot be sent, or the limit is not zero and the batch is one entry or no payload raises only within the limit |
| NotifierSettles.HandlingsAreBoundedExactly | services/notifier/src/notifier/consumer.py:108-196 | under the same condition, and only then, no stream causes more deliveries to be handled than the limit plus one for each entry that arrived |
| NotifierRetries.LiveStaysBounded | services/notifier/src/notifier/consumer.py:108-196 | whatever arrives in whatever cycles, an entry that was handed out is pending until it is acknowledged, with no more calls than deliveries, and no acknowledgement is taken back |
| NotifierRaises.HopelessIsNeverAcknowledged | services/notifier/src/notifier/consumer.py:163-281 | a payload that makes the parser raise what nobody catches, or of a known type with an id that cannot be sent, is acknowledged in no run of any number of consumers |
| NotifierRaises.OneOfEachKind | services/notifier/src/notifier/domain.py:66-89 | the inputs: JSON that is no object, JSON nested too deeply, an event with an id that cannot be sent, of a known and of an unknown type, and one with a client id that is too long |
| NotifierRaises.BehindTheRaiser | services/notifier/src/notifier/consumer.py:111-113 | the first entry of a cycle that raises ends it: what was claimed behind it has its delivery counter raised and is not handled |
| NotifierRaises.HeadBlocksTheRest | services/notifier/src/notifier/consumer.py:121-147 | while an entry that raises at every delivery is first in the pending list, idle cycles settle nothing, ask the gateway nothing, raise the counters of it and of those claimed with it by one each time, and put it into the dead stream once for each delivery beyond the limit if it can be read |
| NotifierRaises.GivenUpUnsent | services/notifier/src/notifier/consumer.py:170-173 | so a message in order that was claimed with it is lost: after as many of these cycles as the limit, the next cycle that finds it idle by itself acknowledges it into the dead stream, and the gateway was not asked for it once more |
| NotifierRaises.NeverAskedFor | services/notifier/src/notifier/consumer.py:108-173 | from the empty system, for every such entry followed by any message in order: events after which the message is dead and the gateway was never asked to send it |
| Delivery.EveryRunKeeps | services/booking/src/booking/outbox.py:57-110 | in every run of requests, relays and consumers the stream holds only payloads of committed rows, and a marked row is in the stream |
| Delivery.EveryMessageTellsAChange | services/notifier/src/notifier/consumer.py:185-188 | every message NotifyGate holds is keyed by a committed row of a transition the booking made, with that row's client and text |
| Delivery.EachChangeIsToldOnce | services/notifier/src/notifier/consumer.py:198-226 | each change of each booking yields at most one message |
| DeliveryForgets.EveryMessageTellsAChange | contracts/notifygw/openapi.yaml:13-14 | if the gateway may forget any key at any time, still every message it holds tells of a change the booking made, to its client |
| DeliveryForgets.EachChangeIsToldPerMemory | contracts/notifygw/openapi.yaml:13-14 | then the messages that tell of one change are, in every run, exactly as many as its key was forgotten, and one more while it is known |
| Delivery.NoChangeIsLost | services/booking/src/booking/outbox.py:74-88 | the payload of a marked row is in the stream, and there unhandled, pending, accepted by the gateway or dead-lettered |
| DeliveryMarks.MarkedExactlyByCommit | services/booking/src/booking/outbox.py:66-88 | in every run a row is marked if and only if a pass that held it was committed; until then it stays for the next relay |
| DeliveryMarks.NextBatchExactly | services/booking/src/booking/outbox.py:66-72 | in every state the next relay takes, in order, the rows not published and in no other pass with fewer than its limit of such rows before them |
| DeliveryMarks.UntilThenTaken | services/booking/src/booking/outbox.py:66-88 | in every run a row that no committed pass has held is in the next batch whose limit reaches it, unless a relay holds it just now |
| DeliveryMarks.DeadRelaysHoldNothing | services/booking/src/booking/outbox.py:57-72 | what only a relay that died held can be taken at once |
| DeliveryMarks.RowsStay | services/booking/src/booking/models.py:61-72 | in every run rows stay in place with their events, and no mark is ever taken back |
| NotifierForgets.OneMessagePerMemory | contracts/notifygw/openapi.yaml:13-14 | if the gateway may forget any key at any time, the messages held for an event are, in every run, one for each time its key was forgotten and one more while it is known |
| NotifierForgets.SecondMessageExactly | contracts/notifygw/openapi.yaml:13-14 | so an event has a second message if and only if its key was forgotten and asked for again; without forgetting there is at most one |
| PaymentsDesk.Session.CreatePayment | services/payments/src/payments/service.py:26-75 | a refused amount, a conflict on other terms, or a payment that has its charge or gets it: the provider is asked at most once, under the id and for the sum of the payment; tables, provider and answer are fixed for every reply |
| PaymentsDesk.Session.InsertPayment | services/payments/src/payments/service.py:38-60 | the insert fails on the amount first, on a second payment of the booking next, and otherwise adds one row |
| PaymentsDesk.Session.HandleWebhook | services/payments/src/payments/service.py:85-137 | by type, novelty of the event and status of the payment: which answer, what is recorded, and that only a pending payment moves, to succeeded with its confirm command or to failed without one |
| PaymentsDesk.Session.ConfirmBooking | services/payments/src/payments/relay.py:90-104 | a refusal flags the payment and writes one refund command; any other answer leaves the tables |
| PaymentsDesk.Session.RefundPayment | services/payments/src/payments/relay.py:107-126 | what was refunded is not asked for again, what has no charge fails, and otherwise the provider is asked once for that charge in full, and the refund recorded if it answers |
| PaymentsDesk.Session.ProcessPending | services/payments/src/payments/relay.py:38-72 | the batch is, in order, the unpublished and unlocked commands of whatever topic with fewer than the limit of such commands before them; what the pass leaves of it is fixed for every reply |
| PaymentsDesk.PassMarksAllOrNothing | services/payments/src/payments/relay.py:60-72 | after a failure the tables are as before but for one counter; otherwise exactly the batch is marked |
| PaymentsDesk.InsertMeetsConstraint | services/payments/src/payments/models.py:34-39 | a second payment for a booking is what the constraint refuses, and nothing else |
| WebhookTraces.RepeatsAreHarmless | services/payments/src/payments/service.py:101-119 | processing a sequence of deliveries gives the same tables as processing it without repeats if and only if no event id is first delivered with an ignored type and later with a handled one |
| WebhookTraces.FirstWordCounts | services/payments/src/payments/service.py:107-137 | for every sequence of deliveries a payment has succeeded if and only if the first event about it, of the two known types and delivered first after its row existed, is "charge.succeeded", failed if and only if it is "charge.failed", and is pending until then |
| WebhookTraces.OtherTypesChangeNothing | services/payments/src/payments/domain.py:25-28 | an event of any other type leaves every table as it was |
| WebhookTraces.RecordedWhenHandled | services/payments/src/payments/service.py:107-112 | an event id is recorded exactly when a delivery of it had a handled type |
| LedgerRules.SettleKeeps | services/payments/src/payments/relay.py:90-126 | settling one command with an outcome its neighbour gave keeps commands, payments and provider records consistent |
| LedgerRules.SettleAllKeeps | services/payments/src/payments/relay.py:58-72 | committing a whole pass does too, and touches nothing but its batch, the payments' refund state and the new refund commands |
| LedgerRuns.StepKeeps | services/payments/src/payments/relay.py:38-148 | every step of callers, provider events, relays and booking keeps the ledger consistent |
| LedgerRuns.AnswersStayTrue | services/booking/src/booking/service.py:180-206 | booking answers "confirmed" only if it was, and "conflict" only if it is no longer pending |
| LedgerEvents.StatusExactly | services/payments/src/payments/service.py:101-137 | in every run a payment has succeeded if and only if a new "charge.succeeded" named it while it was pending, and failed if and only if a "charge.failed" did |
| LedgerEvents.ConfirmExactlyWhenPaid | services/payments/src/payments/service.py:124-135 | in every run the command to confirm is there if and only if the provider said so of its payment, and it names the booking of that payment |
| LedgerEvents.RefundOnlyWhenPaid | services/payments/src/payments/relay.py:90-104 | in every run a refund is ordered only for a payment of which the provider said that it succeeded |
| LedgerMarks.NextBatchExactly | services/payments/src/payments/relay.py:50-56 | in every state the next relay takes, in order, the commands not marked and in no other pass with fewer than its limit of such commands before them, whatever they order |
| LedgerMarks.MarkedExactlyByCommit | services/payments/src/payments/relay.py:58-72 | in every run a command is marked as delivered if and only if a pass that held it was committed |
| LedgerMarks.UntilThenTaken | services/payments/src/payments/relay.py:50-72 | so one that no committed pass has held is in the next batch whose limit reaches it, unless a relay is at it just now |
| LedgerMarks.DeadRelaysHoldNothing | services/payments/src/payments/relay.py:46-56 | what only a relay that died held can be taken at once |
| LedgerStages.SucceededPaymentHasOneStage | services/payments/src/payments/relay.py:38-126 | in every reachable state a succeeded payment has exactly one confirm command and is in exactly one of four stages: confirm waits, booking was confirmed, refund waits, money returned |
| LedgerStages.OtherPaymentsHaveNothing | services/payments/src/payments/service.py:117-137 | a payment that has not succeeded has no command and no refund |
| LedgerCharges.OnePaymentOneCreator | services/payments/src/payments/service.py:26-75 | calls for one booking that finish at any two moments of a run agree on the payment; if both report that they created it they are one call, which was there all the time between |
| LedgerCharges.DeadCallsMayBeRepeated | services/payments/src/payments/service.py:44-60 | a call that dies between its insert and its charge leaves the payment, and repeated on the same terms finds it |
| LedgerCharges.StepKeeps | services/payments/src/payments/service.py:26-75 | every step keeps requests, charges and callers consistent and the terms of every payment |
| LedgerCharges.OneRequestPerKey | services/payments/src/payments/paystub.py:39-68 | all requests under one key of one endpoint are identical, over every run |
| LedgerCharges.RefundEqualsCharge | services/payments/src/payments/relay.py:107-126 | every refund request is for the charge the provider created for that payment, and for its whole amount |
| LedgerCharges.ChargeIsWrittenOnce | services/payments/src/payments/service.py:62-74 | a stored charge, and booking, amount and currency of a payment, never change in any run |
| LedgerRefunds.WrongRefundExactly | services/payments/src/payments/relay.py:95-104 | in any run a refund is out for a booking that is neither cancelled nor expired if and only if some confirm of it that had read "pending" met it confirmed at its update, and nobody has cancelled it since |
| LedgerRefunds.RefundOnlyWhenOver | services/payments/src/payments/relay.py:95-104 | as long as no such update has happened, a refund command exists only for a booking that is cancelled or expired, and it stays so in every later state |
| LedgerRefunds.ConfirmedUntilCancelled | services/booking/src/booking/domain.py:29-36 | in any run a confirmed booking stays confirmed exactly until a step cancels it |
| LedgerSerial.SerialRefundOnlyWhenOver | services/payments/src/payments/relay.py:95-104 | if confirms for one booking never overlap, a refund command exists only for a booking that is cancelled or expired for good |
| LedgerSerial.SerialNeverMisleads | services/booking/src/booking/service.py:180-201 | because then no confirm that read "pending" ever meets its booking confirmed |
| LedgerRefunds.RefundNeverWhilePending | services/payments/src/payments/relay.py:95-104 | without that assumption a refund still means the booking is no longer pending |
| LedgerOverlap.OverlapRefundsAConfirmedBooking | services/payments/src/payments/booking_client.py:14-24 | a run from the empty databases in which two overlapping confirms lead to the refund of a confirmed booking |
| LedgerAlone.CreateIsARun | services/payments/src/payments/service.py:26-75 | a call of create_payment without interruption is a run of the interleaved machine with the same result |
| LedgerPass.PassIsARun | services/payments/src/payments/relay.py:38-126 | a pass of the payments relay without interruption, with booking answering for itself and any replies of the provider, is a run of the interleaved machine that leaves what `ProcessPending` leaves |
| Base64Url.DecodeEncode | services/web/src/web/domain.py:77-84 | unpadded base64url (sections 3.2 and 5 of RFC 4648) of any bytes is read back by the lenient decoder once padding is added |
| Base64Url.EncodesPlainly | services/web/src/web/domain.py:77-84 | the encoding holds no padding and no separator |
| Base64Url.AlphabetOfTheStandard | services/web/src/web/domain.py:77-84 | the 64 letters are those of section 5 of RFC 4648 |
| Base64Url.VectorsOfTheStandard | services/web/src/web/domain.py:77-84 | the test vectors of section 10 of RFC 4648, without padding |
| Base64Url.DecoderSkipsStrangers | services/booking/src/booking/auth.py:108-116 | the decoder booking uses skips a character that is in neither alphabet |
| Base64Url.DecoderReadsBothAlphabets | services/booking/src/booking/auth.py:108-116 | and reads the letters of the standard alphabet like those of the safe one |
| Json.ReadsNumber | services/booking/src/booking/auth.py:108-116 | every whole number printed is read back, whatever follows it |
| Json.NoLeadingZeros | services/booking/src/booking/auth.py:108-116 | a number with a superfluous zero in front is no number (section 6 of RFC 8259) |
| Token.SameNames | services/web/src/web/domain.py:58-67 | the login form accepts exactly the names that, without surrounding spaces, booking accepts |
| Token.ReadsTheClaims | services/booking/src/booking/auth.py:108-140 | booking reads back exactly the three claims that web printed |
| Token.TokenRoundTrip | services/booking/src/booking/auth.py:94-140 | for every accepted name, role, secret and issue time the token has three parts, and is verified as that identity before the second it names and as expired from then on |
| Token.SessionLength | services/web/src/web/domain.py:91-95 | the session lasts twelve hours less a part of a second |
| Token.TokensTellApart | services/web/src/web/domain.py:87-99 | different names, roles or expiry seconds give different tokens |
| Token.AnswersExactly | services/booking/src/booking/auth.py:87-140 | somebody is let in if and only if the token has three parts, the version, the signature of its payload under this secret, and claims that name them, in one of the two roles, before the second of expiry; from then on, and only then, it is expired; a signature that is no ASCII raises |
| Token.NamesExactly | services/web/src/web/domain.py:58-67 | the names are the texts of one to 64 of the allowed characters, and the form says which rule another one breaks |
| Strings.StripsSpacesOnly | services/web/src/web/domain.py:58-60 | what is stripped from a name is the white space at its ends and nothing else |
| Strings.SpacesOfPython | services/web/src/web/domain.py:58-60 | white space is what Python counts as such |
| Token.HowClaimsLook | services/web/src/web/domain.py:87-95 | the payload is the three claims sorted by name, without spaces, with the role in words |
| Token.OnlySignedTokens | services/booking/src/booking/auth.py:87-105 | a token that is accepted or called expired is the version, a payload and the signature of that payload, and an accepted subject is an identifier |
| Token.OtherSecret | services/booking/src/booking/auth.py:103-104 | a token signed with another secret is refused exactly when the two signatures of its payload differ |
| Price.PriceRoundTrip | services/web/src/web/domain.py:115-128 | for every sum up to 10^15 kopecks reading what is shown gives the sum back, with every float operation off by a relative error of up to 2^-53 (section 4.3 of IEEE 754-2019) |
| Price.ShownPriceIsExact | services/web/src/web/domain.py:126-128 | what the page shows is the exact sum, zero and negative ones included |
| Price.HowPricesLook | services/web/src/web/domain.py:126-128 | 1250 kopecks are shown as 12.50, five as 0.05 |
| Price.OnlyPositivePrices | services/web/src/web/domain.py:115-123 | only a positive whole number of kopecks is ever accepted, and which complaint is made follows from what the text is |
| Price.RoundsToNearest | services/web/src/web/domain.py:115-120 | rounding goes to the nearest whole number, and to the even one in the middle |
| Price.TypedPriceIsExact | services/web/src/web/domain.py:115-123 | a price typed with two decimals, with a point or a comma, is charged to the kopeck |
| Flakiness.FlippedOnSameCommit | services/quality-hub/src/quality_hub/flakiness.py:144-152 | the loop over sets of outcomes finds exactly whether a commit both passed and did not |
| Flakiness.SkippedRunsDoNotMatter | services/quality-hub/src/quality_hub/flakiness.py:134-136 | skipped runs inserted anywhere change neither verdict nor quarantine state |
| Flakiness.OldRunsDoNotMatter | services/quality-hub/src/quality_hub/flakiness.py:155-193 | runs older than the last window of conclusive ones do not change the verdict |
| Flakiness.VerdictsExactly | services/quality-hub/src/quality_hub/flakiness.py:180-193 | the verdict is broken if and only if the window is long enough and nothing in it passed; a pass and a failure on one commit mean flaky before anything else; too few runs come next, the share of flips last |
| Flakiness.RateExactly | services/quality-hub/src/quality_hub/flakiness.py:164-177 | the rate is the share of neighbours with different outcomes among all pairs of neighbours, and zero without a pair |
| Flakiness.StateExactly | services/quality-hub/src/quality_hub/flakiness.py:198-237 | an entry is released if and only if the last runs it takes for that are there and all passed, and otherwise expired exactly from its deadline on |
| Flakiness.DefaultByNumbers | services/quality-hub/src/quality_hub/flakiness.py:66-82 | by default that means twenty passes in a row, and fourteen days |
| Flakiness.FlakyByNumbers | services/quality-hub/src/quality_hub/flakiness.py:180-193 | at the default thresholds, over five or more runs on different commits that do not all fail, flaky means 100 k >= 15 (n - 1) |
| Flakiness.SingleRegression | services/quality-hub/src/quality_hub/flakiness.py:72-74 | a single regression is stable exactly from eight runs on |
| Flakiness.WhenReleaseIsSafe | services/quality-hub/src/quality_hub/flakiness.py:212-217 | for every policy: runs that earn a release are called stable behind any history if and only if 1 <= window <= stable_runs_to_release, min_runs <= window and the threshold is positive |
| Flakiness.DefaultReleaseIsSafe | services/quality-hub/src/quality_hub/flakiness.py:66-82 | the default policy is one of them |
| SchemaDiff.Resolve | tools/event_schema_diff.py:32-40 | the loop that follows a reference ends where the specification does, or fails where it enters a value that is no object |
| SchemaDiff.BreakingChanges | tools/event_schema_diff.py:48-71 | the comparison raises exactly where Python does, for any JSON in place of properties, required names and lists of values, and otherwise lists exactly the problems of each property |
| SchemaDiff.PassesExactly | tools/event_schema_diff.py:28-70 | no problem is listed if and only if every property is there, still required if it was, with the same type, format, const and items once references are followed, and with every value among the new ones |
| SchemaDiff.ComplaintsExactly | tools/event_schema_diff.py:54-70 | which complaint is made of a property, and for which of the four keys |
| SchemaDiff.RaisesExactly | tools/event_schema_diff.py:54-70 | at which properties the comparison raises: by what the new properties, the two schemas and the two lists of values are |
| SchemaDiff.NothingToBreak | tools/event_schema_diff.py:50-54 | a document without properties is passed by every other one that can be read |
| SchemaDiff.ReferencesAreFollowed | tools/event_schema_diff.py:32-40 | a reference into the definitions stands for the definition, or for nothing if there is none; any other reference stays |
| SchemaDiff.PassesIsReflexive | tools/event_schema_diff.py:48-71 | a document has no breaking changes against itself exactly if comparing it with itself does not raise |
| SchemaDiff.PassingComposesExactly | tools/event_schema_diff.py:48-71 | given that one release passes after another: whatever passes after it passes after the first one too, if and only if no list of values with more than single characters became a text (or nothing can pass after it at all) |
| SchemaDiff.TwoPassesDoNotMakeOne | tools/event_schema_diff.py:68-70 | the input: three documents of which each passes after the one before, and the third not after the first |
| SchemaDiff.ConsumersKeepTheirFields | services/notifier/src/notifier/domain.py:16 | over any chain of gated releases every property is kept with its type, format, const and items, and with its values as long as no list of values is a text, and a message complete for the last release has every field a consumer of the first one relies on |
| SchemaDiff.OldMessagesStayAccepted | tools/event_schema_diff.py:68-70 | between two releases that pass, every value accepted before is accepted after if and only if no property gets a list of values that had none, or something that is no list for one |
| SchemaDiff.NewListRejectsOldValue | tools/event_schema_diff.py:68-70 | two releases that pass although a value accepted before is rejected after |
| AcceptedRisks.FieldProblems | tools/accepted_risks.py:73-89 | exactly the missing, mistyped and unknown fields are reported |
| AcceptedRisks.ContentProblems | tools/accepted_risks.py:92-113 | exactly the broken rules are reported; an end before the beginning hides the other dates |
| AcceptedRisks.Parse | tools/accepted_risks.py:116-150 | the risks are the well-formed entries that repeat no earlier one, in order, and exactly the justified complaints are made |
| AcceptedRisks.Load | tools/accepted_risks.py:116-156 | a missing file and an `accepted` that is no list are complained about, and otherwise exactly what the entries give rise to |
| AcceptedRisks.NoProblems | tools/accepted_risks.py:15-156 | nothing is complained about if and only if the file is there, a list, every entry has its five texts, two dates and at most a flag and nothing else, a reason of sixty characters, a secure link and an end within 90 days (30 if flagged) that is not past, and no two are about the same advisory in the same package |
| AcceptedRisks.RisksAreTheEntries | tools/accepted_risks.py:116-150 | and then the risks are the entries, field by field and in order |
| DependencyAudit.KeyExactly | tools/dependency_audit.py:96-101 | the key of a record is the first of its CVE numbers, or its own name if it has none |
| DependencyAudit.AtMostExactly | tools/dependency_audit.py:96-101 | first means by the first character that differs, and a text before its continuations |
| DependencyAudit.KeyIsShared | tools/dependency_audit.py:96-101 | records with the same identifiers, one of them a CVE number, have the same key, and it is one of them |
| DependencyAudit.SettledExactly | tools/dependency_audit.py:182-202 | a finding need not stop a change if and only if it is not critical, high or unknown and at most thirty days old, or an accepted risk names its package and one of its identifiers |
| DependencyAudit.Deduplicate | tools/dependency_audit.py:117-134 | every key keeps its last record from GitHub, or its first one when none is from there |
| DependencyAudit.FindingsOf | tools/dependency_audit.py:110-135 | a usable report gives exactly one finding for each package, version and vulnerability, and an unusable one none at all |
| DependencyAudit.EveryRecordIsRepresented | tools/dependency_audit.py:132-134 | no record of a report is lost: a finding has its key, package and version, and comes from GitHub if the record does |
| DependencyAudit.RunGate | tools/dependency_audit.py:254-303 | the exit code is two without projects, and zero if and only if the file of risks is valid, every project was scanned with every record readable, every severity could be found out, every finding is settled and every acceptance covers a finding |
| DependencyAudit.GateIsSound | tools/dependency_audit.py:254-291 | behind a zero every single record has exactly one finding in its project, which is mild and young or covered by an unexpired acceptance of at most 90 days, or 30 when flagged |
| AuditLimits.FlagDecidesTheLimit | tools/accepted_risks.py:21-22 | for every finding: what passing gates admit for it with a given flag spans at most 30 days where no fix exists if and only if the flag is on, or a fix exists, or no entry can cover it |
| AuditLimits.UnfixableAcceptedForNinetyDays | tools/accepted_risks.py:104-108 | the input: a gate that passes although an advisory without any fix version is accepted for 90 days |
| AuditLimits.LongAcceptanceNeedsNoFlag | tools/accepted_risks.py:92-113 | an acceptance of 31 to 90 days that is otherwise in order is acceptable if and only if its flag is off |

## Left out

- HTTP, forms, pages, cookies, FastAPI and Pydantic: requests arrive as calls with typed arguments.
- SQLAlchemy, Postgres and Redis internals: tables, the partial unique index, row locks with SKIP LOCKED, the stream and its pending list are values and predicates. Column widths are modelled for the notifier's table only, where a value that is too long by spaces alone, which Postgres cuts, counts as too long; 32-bit amounts are not modelled.
- Time zones: instants are numbers; the conversion `to_utc` is not modelled.
- Order of lists a person sees: `list_slots`, `list_my_bookings`, the findings and problems of the two gates are sets or sequences in no stated order. The wording of messages, `last_error`, logs, heartbeats and sleeps are left out.
- The status of a refund that PayStub returns is ignored, as in the code. A body that cannot be read after a success counts as no answer.
- TryRefund in `Ledger` reads the payment and calls the provider in one step: the row of the command is locked and nobody else writes the refund columns.
- Payloads of payment commands are typed: a malformed payment id in an outbox row, which the service itself never writes, is not modelled. A webhook's reference is the payment it names, if it names any; its signature check is not part of this model.
- Liveness under failures that never end is not claimed, except for the bounded retries above. The provider forgets no key.
- Token.TokenRoundTrip: HMAC is any function of secret and message, and JSON outside the fragment that web prints is left to an arbitrary reader, which never exhausts the parser's stack. The limit of 4300 digits on a number and the rounding of `timestamp()` (exact to the microsecond before the year 2255) are not modelled.
- SchemaDiff.BreakingChanges: whether Python can sort the values of a list that were removed is a parameter. The literals NaN and Infinity, which are not JSON, are not values here.
- Price.PriceRoundTrip: rounding is a bound on the relative error between 0.001 and 10^18; overflow and underflow beyond it are not modelled.
- Flakiness.FlakyByNumbers: the flip rate is a real number; the correctly rounded quotient compares with 0.15 in the same way for every window below 10^15 runs.
- DependencyAudit.RunGate: the severity of an advisory is a function of its name, so two findings of one advisory in one audit have the same; a TOML file or a scanner output that cannot be parsed at all is outside.
- `junit.py`, `import_boundaries.py`, `changed_services.py`, `mutation_gate.py` and the export scripts: plumbing with no property of its own.
