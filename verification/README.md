# Verified models of the car-care platform's protocols

This project models, in Dafny, the parts of the platform whose correctness is not settled by
reading one function, and proves what they promise for every input, every run and every
interleaving:

- **Delivery** (`packages/platform-messaging`): outbox rows, relay workers with leases, the
  confirming publishers on a channel, quorum queues with a dead-letter queue, and inbox
  consumers, as one step system. `Publisher`, `Subscriber`, `Outbox`, `Delivery` are the parts;
  `PublisherOutcomes`, `OutboxLeases`, `SubscriberProofs`, `DeliveryProofs`, `DeliveryOutcomes`,
  `DeliveryLeases`, `DeliveryLoss` and `DeliveryStuck` hold the laws, on `DeliveryRuns`. The objects the source mutates (`ConfirmingPublisher`, `OutboxTable`,
  `OutboxRelay`, `InboxConsumer`) are classes proved against the step functions.
- **Canonical JSON** (`services/billing`): the fingerprint text determines the value up to key
  order, over nested values, with string tokens as in section 7 of RFC 8259 and the code-unit
  key order of section 3.2.3 of RFC 8785; `CanonicalJsonReader` reads it back.
- **The customer booking session** (`apps/customer-web/src/state`): `Scheduling`, `BookingDraft`,
  `Records` (the numbered collections), `Booking` (the session and its commands), and the laws
  over every run of commands in `BookingProofs`, `BookingContents`, `BookingOutcomes`,
  `BookingEdits`, `BookingRepeat` and `BookingOrders` (with `OrderLists`).
- **The operator's intents and uploads** (`apps/operator-web`): `Operator`, `OperatorSession`,
  `OperatorProofs`, `OperatorLaws`, `OperatorRounds`, `Upload`, and `UploadRuns` for runs that overlap.
- **Money text and the rate budget**: `Money`, `RateBudget`, on `Text` and `Decimal`.

Some results are about where the code stops meeting a promise, each with its exact condition:

- A row whose last attempt was leased by a worker that dies is neither published nor parked, for
  ever: `DeliveryStuck.StuckIff` says when, `DeliveryStuck.StuckRowIsReachable` that it happens
  under every attempt ceiling.
- `acceptJob` forgets its key on a retryable refusal, so the next press sends a second key while
  the first is unanswered: `OperatorLaws.MintsOverIff` says when, and
  `OperatorLaws.MintedOverIffOffer` that it is so for offers and for nothing else. The offer is
  still accepted at most once, because the server knows its state
  (`OperatorLaws.OfferAcceptedOnce`).
- An amount with a whole part of more than 16 digits is printed but not parsed back
  (`Money.RoundTripIff`).
- A session order whose number is ahead of the counter can fall out of the list and have its id
  given to another order (`BookingOrders.OrderIdReturnsIff`).
- A lease does not keep out another process under the same worker id that still has the row among
  its records (`DeliveryLeases.LeaseIsGoodIff`).
- The address sheet cuts after it trims, so it can accept an address that the next step refuses
  (`BookingEdits.SheetCompletesIff`).
- Clipping a text twice can shorten it again, so a repeated booking may lose a trailing white
  space of the car name, colour or note (`BookingRepeat.RepeatKeepsTextsIff`).

The relay runner makes a new publisher for every pass, and with that wiring no event is lost
whatever is retried (`DeliveryProofs.NoLoss`). A caller that kept one publisher over its passes
could lose one; `DeliveryLoss.LossIff` is the exact condition.

`dafny verify dfyconfig.toml` checks everything.

## Model

| member | source | states |
|---|---|---|
| `Publisher.DisciplinedPublishingIsSound` | packages/platform-messaging/src/publisher.ts:80-129 | over every history of a channel and all the publishers on it: if no publisher publishes an id again while its earlier publication is unconfirmed, a promise resolves only if that very publication was acked and not returned |
| `Publisher.PerPassPublishingIsSound` | services/catalog/src/outbox/relay.runner.ts:149-153 | with a publisher object per pass, so that none publishes an id twice, the same holds for every history, retries after timeouts included |
| `Publisher.SettledForever` | packages/platform-messaging/src/publisher.ts:85-99 | a settled promise keeps its outcome whatever follows, so a late confirm never turns a timeout into success |
| `Publisher.FalseSuccess` | packages/platform-messaging/src/publisher.ts:47-58 | through a publisher that still awaits the same id, returning both and acking both resolves the returned one |
| `Publisher.SafeIffNoneUnconfirmed` | packages/platform-messaging/src/publisher.ts:80-129 | publishing an id through a publisher is safe against everything the broker may do if and only if that publisher holds no unconfirmed publication of it |
| `Publisher.ConfirmingPublisher.constructor` | packages/platform-messaging/src/publisher.ts:41-58 | a publisher attached to a channel with any history, closed ones included, starts with no marks and no promises |
| `Publisher.ConfirmingPublisher.PublishConfirmed` | packages/platform-messaging/src/publisher.ts:80-114 | a closed channel, noticed or not, rejects and opens no promise; otherwise the history grows by this publication and one promise opens |
| `Publisher.ConfirmingPublisher.OnReturn` | packages/platform-messaging/src/publisher.ts:47-54 | the history grows by this return, of whatever publication on the channel; the set gains its id and no promise changes |
| `Publisher.ConfirmingPublisher.OnConfirm` | packages/platform-messaging/src/publisher.ts:115-126 | the history grows by this confirm; an open promise gets NACK, UNROUTABLE with the mark used up, or success, and a settled one and all others stay |
| `Publisher.ConfirmingPublisher.OnTimeout` | packages/platform-messaging/src/publisher.ts:86-91 | the history grows by this timeout; an open promise is rejected, no mark and no other promise changes |
| `Publisher.ConfirmingPublisher.OnClose` | packages/platform-messaging/src/publisher.ts:55-57 | the history grows by the close; no promise changes |
| `Publisher.ConfirmingPublisher.KeepsItsPromise` | packages/platform-messaging/src/publisher.ts:80-129 | if no publisher publishes an id twice, a resolved promise of the object belongs to a publication of its id that was acked and not returned |
| `Publisher.ConfirmingPublisher.Finish` | packages/platform-messaging/src/publisher.ts:93-99 | the first settlement wins, every other promise is untouched |
| `PublisherOutcomes.OutcomeIff` | packages/platform-messaging/src/publisher.ts:80-129 | over every history of a channel, which outcome each promise has, told from the events alone: resolved if and only if the first event that settles it is an ack and no return of its id heard by its publisher is then still to be used up; NACK, UNROUTABLE and TIMEOUT if and only if their own event comes first; open if and only if none came |
| `PublisherOutcomes.MarkedIff` | packages/platform-messaging/src/publisher.ts:47-122 | a publisher's returned set holds an id if and only if it heard a return of the id that no later publication or ack of it has used up |
| `PublisherOutcomes.ObjectOutcomeIff` | packages/platform-messaging/src/publisher.ts:80-129 | the same of the promises a publisher object keeps |
| `Subscriber.ApplyOnceKeepsStore` | services/reporting/src/inbox/prisma-inbox.store.ts:19-62 | the inbox transaction keeps one row per effect and one effect per event id; it reports a conflict exactly against a row with another hash |
| `SubscriberProofs.StepKeepsSub` | packages/platform-messaging/src/inbox-consumer.ts:154-216 | every step of broker and consumers keeps: one place per copy, a delivery count within the limit, acks only over a committed row, dead letters only for their cause; nothing recorded is undone |
| `SubscriberProofs.RunKeepsSub` | packages/platform-messaging/src/inbox-consumer.ts:154-216 | the same over every run, with crashes and handlers that outlive their channel |
| `SubscriberProofs.EffectHappensOnce` | packages/platform-messaging/src/inbox-consumer.ts:173-216 | over every run an event's effect happens once if its inbox row exists and never otherwise; a copy is acked only after the row with its own hash is committed |
| `SubscriberProofs.HeaderCountsDeliveries` | packages/platform-messaging/src/inbox-consumer.ts:65-69 | what the consumer reads off a delivery, the absent header of the first one included, is the number of deliveries before it, over any run and restart |
| `SubscriberProofs.RedeliveryIsBounded` | packages/platform-messaging/src/topology.ts:127-151 | a copy is handed out at most limit + 1 times over any run; after that, when nobody holds it, it is in the dead-letter queue unless its own inbox row is committed; a malformed copy is never acked; the limit never dead-letters early |
| `SubscriberProofs.BudgetNeverGrows` | packages/platform-messaging/src/topology.ts:60-68 | the remaining deliveries drop by exactly the deliveries made and never go below zero, whatever restarts |
| `SubscriberProofs.UninterruptedHandling` | packages/platform-messaging/src/inbox-consumer.ts:154-216 | an uninterrupted handler, in small steps, does to store and queue what one handling does |
| `SubscriberProofs.DroppedIsGivenBack` | packages/platform-messaging/src/inbox-consumer.ts:195-216 | a rollback, a throw after the commit, a lost channel or a crash gives the copy back at once and counted: ready again, or dead by the limit if and only if this was the last delivery |
| `SubscriberProofs.InboxConsumer.Handle` | packages/platform-messaging/src/inbox-consumer.ts:154-216 | one settlement per message; an ack only with the committed row; the counters rise exactly with applied effects, conflicts, dead letters and transient failures |
| `Outbox.PublishedForever` | services/catalog/src/outbox/prisma-outbox.store.ts:82-118 | no statement of any worker ever changes a published row |
| `Outbox.LostLeaseStaysLost` | services/catalog/src/outbox/prisma-outbox.store.ts:82-118 | a worker that lost a lease and did not lease that row again cannot change the row, whatever it and any number of others did since |
| `Outbox.AttemptsAreBounded` | services/catalog/src/outbox/prisma-outbox.store.ts:38-80 | the attempt counter rises by the number of lease statements that picked the row and never passes the ceiling; a row is parked only at the ceiling |
| `Outbox.AbandonedIff` | services/catalog/src/outbox/prisma-outbox.store.ts:38-118 | an unpublished row held with no attempt left stays exactly as it is if and only if no mark comes in its holder's name |
| `Outbox.RecoverableIff` | services/catalog/src/outbox/prisma-outbox.store.ts:49-59 | a row neither published nor parked can be taken by some lease statement if and only if it has an attempt left, and while it is held only by one past its expiry |
| `OutboxLeases.HeldIff` | services/catalog/src/outbox/prisma-outbox.store.ts:38-118 | lease exclusivity over every sequence of statements: an unpublished held row stays exactly as it is, holder, expiry and attempts, if and only if no mark comes in its holder's name and no lease comes after its expiry |
| `OutboxLeases.LeaseLife` | services/catalog/src/outbox/prisma-outbox.store.ts:38-118 | a lease that took a row gives it to its worker until now + leaseMs; whatever others do until then, the worker's mark finds it and publishes it, gives it back, or parks it if and only if the attempts reached the ceiling |
| `OutboxLeases.TakesIff` | services/catalog/src/outbox/prisma-outbox.store.ts:49-59 | a lease changes a row, and a held row's holder, if and only if it picks it, an attempt is left, it is pending, and any lease on it has run out |
| `OutboxLeases.EndsIff` | services/catalog/src/outbox/prisma-outbox.store.ts:82-118 | over every sequence of statements a pending row is published by an attempt if and only if its holder's mark for it came, and parked if and only if its holder's failure came with no attempt left |
| `Outbox.Tally` | packages/platform-messaging/src/outbox-relay.ts:62-119 | for a full pass, published + failed <= leased <= published + failed + leaseLost, and published + leaseLost <= leased |
| `Outbox.PassExtends` | packages/platform-messaging/src/outbox-relay.ts:74-118 | one more record: the table and the counters after it, with other workers' statements in between |
| `Outbox.OutboxTable.Perform` | services/catalog/src/outbox/prisma-outbox.store.ts:82-118 | a mark reports ownership exactly when the guard matched |
| `Outbox.OutboxRelay.MarkOne` | packages/platform-messaging/src/outbox-relay.ts:85-116 | the worker's own mark, judged after whatever others did meanwhile |
| `Outbox.OutboxRelay.RunPass` | packages/platform-messaging/src/outbox-relay.ts:62-119 | the loop's table and counters are those of the pass, also when aborted; the inequalities above |
| `DeliveryProofs.StepKeeps` | packages/platform-messaging/src/outbox-relay.ts:62-133 | every step of the whole system keeps its invariant: attempts are owned and routed once, copies in queues carry their row's bytes, a published row was routed |
| `DeliveryProofs.PerPassIsCareful` | services/catalog/src/outbox/relay.runner.ts:149-153 | as the relay is wired, no pass publishes an event that its own publisher awaits |
| `DeliveryProofs.RunKeeps` | packages/platform-messaging/src/outbox-relay.ts:62-133 | the same over every run |
| `DeliveryProofs.NoLoss` | packages/platform-messaging/src/outbox-relay.ts:62-119 | for every run of the relay as it is wired, retries before a late confirm included: a row marked published was taken by a queue, and in every queue that took it the event is applied, ready, unacked or dead-lettered; each copy is in exactly one place and stems from one lease attempt |
| `DeliveryProofs.NoLossWithOnePublisher` | packages/platform-messaging/src/outbox-relay.ts:53-60 | the same for a caller that keeps one publisher over its passes, as long as it resends nothing unconfirmed |
| `DeliveryLoss.LossIff` | packages/platform-messaging/src/publisher.ts:80-129 | from any state the invariant allows, a send can end in a row marked published that no queue took if and only if the lease is held, no queue is bound, and the very publisher that sends it awaits an earlier publication of the event |
| `DeliveryLoss.PerPassNeverLoses` | services/catalog/src/outbox/relay.runner.ts:149-153 | with a publisher per pass no send can |
| `DeliveryLoss.ReusedPublisherLosesEvent` | packages/platform-messaging/src/outbox-relay.ts:53-60 | a caller that keeps one publisher reaches such a loss by a timeout and a retry in the next pass |
| `DeliveryStuck.StuckIff` | services/catalog/src/outbox/prisma-outbox.store.ts:38-118 | in the whole system an unpublished row held with no attempt left can change in some run if and only if a live process in its holder's name still has it among its records |
| `DeliveryStuck.StuckRowIsReachable` | packages/platform-messaging/src/outbox-relay.ts:62-74 | for every attempt ceiling the shipped relay reaches a row that is neither published nor parked and stays so in every continuation |
| `DeliveryLeases.LeaseHoldsIff` | packages/platform-messaging/src/outbox-relay.ts:9-15 | in every run of the whole system that ends before the lease does, a held unpublished row is untouched if and only if no process of its holder's name marks it |
| `DeliveryLeases.LeaseIsGoodIff` | packages/platform-messaging/src/outbox-relay.ts:62-74 | a process that still has a record finds the row as it leased it, in every run until the lease runs out, if and only if no other process under its worker id had the row among its records when it was leased |
| `DeliveryLeases.TakeoverIff` | services/catalog/src/outbox/prisma-outbox.store.ts:49-59 | an idle process can lease a pending held row with an attempt left if and only if its lease has run out |
| `DeliveryOutcomes.PublishesIff` | packages/platform-messaging/src/outbox-relay.ts:74-118 | in every run of the relay as it is wired, marking a sent record publishes its row if and only if the lease is held and its publication's first settling event is an ack with no return of the event pending; otherwise a held row is given back, or parked with no attempt left |
| `DeliveryOutcomes.AckDecides` | packages/platform-messaging/src/outbox-relay.ts:74-118 | with a queue bound before the process started, a record marked under its lease is published if and only if it was acked before anything else settled it, and then every queue it was routed to has the event |
| `DeliveryOutcomes.UnsentIsNotPublished` | packages/platform-messaging/src/outbox-relay.ts:77-96 | a record that meets a closed channel is given back or parked, never published |
| `CanonicalJsonProofs.SameTextIffSameValue` | services/billing/src/application/canonical-json.ts:6-21 | two printable values with unique keys print alike if and only if they are equal after forgetting key order and dropping undefined entries; array order matters |
| `CanonicalJsonProofs.Readable` | services/billing/src/application/canonical-json.ts:6-21 | a printed value followed by a delimiter determines the value and the rest of the text |
| `CanonicalJsonProofs.SameText` | services/billing/src/application/canonical-json.ts:14-19 | values equal up to key order print to the same text |
| `CanonicalJsonProofs.QuotedReadable` | services/billing/src/application/canonical-json.ts:7-8 | a string token, with its escapes and lone surrogates, determines the string and what follows |
| `CanonicalJsonProofs.SortOrders` | services/billing/src/application/canonical-json.ts:15-17 | entries with distinct keys come out in strictly ascending code-unit order: one key ends where the next goes on, or has the smaller unit where they first differ |
| `CanonicalJsonProofs.BeforeIff` | services/billing/src/application/canonical-json.ts:17-17 | the comparison of keys is that order |
| `CanonicalJsonReader.PrintReads` | services/billing/src/application/canonical-json.ts:6-21 | an independent reader of JSON text gets every printed value back, up to key order and undefined entries, and meets the keys of every object, at every depth, in strictly ascending order |
| `CanonicalJsonReader.ShortestSpelling` | services/billing/src/application/canonical-json.ts:7-8 | no spelling of a character that the grammar allows is shorter than the printed one, except a bare surrogate outside a pair, which is always escaped, with lower-case digits |
| `CanonicalJsonProofs.FailsAtFirstFault` | services/billing/src/application/canonical-json.ts:9-20 | printing fails if and only if some leaf is at fault, with the error of the first one in the order of the text |
| `CanonicalJsonProofs.SortKeepsMeaning` | services/billing/src/application/canonical-json.ts:14-19 | sorting changes no entry's meaning |
| `CanonicalJsonProofs.PrintsExactlyPrintable` | services/billing/src/application/canonical-json.ts:6-21 | printing fails exactly on a non-finite number or an unsupported value somewhere inside |
| `CanonicalJsonProofs.PlainIsNumberPrinter` | services/billing/src/application/canonical-json.ts:9-12 | what is asked of the number printer can be met |
| `RateBudget.SlidingBound` | packages/security-kit/src/rate-budget.ts:16-22 | no half-open interval of window length admits more than 2 * limit - 1 takes, for every run under a clock that never runs backwards |
| `RateBudget.SlidingBoundIsTight` | packages/security-kit/src/rate-budget.ts:16-22 | some run reaches that bound |
| `RateBudget.WindowAllowsExactlyLimit` | packages/security-kit/src/rate-budget.ts:16-22 | inside one window exactly the takes up to the limit are allowed |
| `RateBudget.FreshWindow` | packages/security-kit/src/rate-budget.ts:16-22 | of all takes from the first one until its window expires exactly `limit` are allowed |
| `RateBudget.RefusedUntilExpiry` | packages/security-kit/src/rate-budget.ts:16-22 | once the limit is used up, however many takes are tried, none is allowed up to the expiry and the first one after it is |
| `RateBudget.LostExpiryKeepsCount` | packages/security-kit/src/rate-budget.ts:16-22 | a counter that lost its expiry gets a new one and keeps its count: until then only the rest of the limit is allowed |
| `RateBudget.RedisRateBudget.Take` | packages/security-kit/src/rate-budget.ts:49-82 | a bad policy is refused and consumes nothing; otherwise one step of the script for that key alone, with the remaining count and the least wait past which the window is over |
| `Money.ParsedExactly` | apps/admin-web/src/domain/finance.ts:32-46 | an input is accepted as given minor units if and only if it is well formed, not too precise, below 10^18, and worth exactly that |
| `Money.RefusedAs` | apps/admin-web/src/domain/finance.ts:32-46 | what is refused is missing, too precise, or invalid exactly when the text is blank, when it is well formed with too many fraction digits, and otherwise |
| `Money.RoundTripIff` | apps/admin-web/src/domain/finance.ts:15-46 | parsing the printed number gives back the amount if and only if its whole part has at most 16 digits; otherwise it is refused |
| `Money.UngroupGroup` | apps/admin-web/src/domain/finance.ts:18-22 | removing separators undoes the grouping |
| `Money.GroupedByThrees` | apps/operator-web/src/money.ts:27-27 | separators stand exactly before every third digit from the right |
| `Money.MajorReads` | apps/operator-web/src/money.ts:21-32 | reading the printed amount gives exactly the units, with their sign; a fraction, of as many digits as the scale, is printed if and only if it is not zero |
| `Money.SpellsIffReads` | apps/operator-web/src/money.ts:57-66 | text reads as digits exactly when it spells them in any of the three scripts with separators anywhere |
| `Money.CashAcceptedIff` | apps/operator-web/src/money.ts:68-72 | accepted means one to nine digits worth exactly the total, in any spelling, and the reverse |
| `Money.PrintedTotalIsAccepted` | apps/operator-web/src/money.ts:22-32 | a whole-unit total of at most nine digits is accepted as printed and in every respelling |
| `Money.FractionIsRefused` | apps/operator-web/src/money.ts:68-72 | a total with a fraction is never accepted |
| `Upload.UploadLaw` | apps/operator-web/src/media.ts:101-142 | in every protocol log: a finalize follows a stored copy with no UPLOAD_MISSING since, names the one reserved object, and never reuses a key answered UPLOAD_MISSING; one reservation key, at most one reservation |
| `Upload.LegalIsProtocol` | apps/operator-web/src/media.ts:70-85 | what the intent remembers is what its log says |
| `Upload.UploadIntent.ValidIsProtocol` | apps/operator-web/src/media.ts:70-85 | a valid intent has a protocol log, and its fields agree with it |
| `Upload.UploadIntent.PutWithFallback` | apps/operator-web/src/media.ts:87-99 | at most two PUTs, first on the URL in hand if it is still good and else on a fresh one, no finalize, success exactly when a copy is stored; otherwise the last answer says failed or unknown |
| `Upload.UploadIntent.ReserveOnce` | apps/operator-web/src/media.ts:101-116 | an existing reservation is kept; a failed one ends the run without PUT or finalize |
| `Upload.UploadIntent.Round` | apps/operator-web/src/media.ts:117-140 | one finalize and two PUTs at most; no outcome means the server said UPLOAD_MISSING |
| `Upload.UploadIntent.RunUpload` | apps/operator-web/src/media.ts:101-142 | at most 2 finalizes and 4 PUTs; the run goes on until an answer ends it, with the outcome that answer stands for: available exactly on the server's AVAILABLE for the reserved object, failed by UPLOAD_MISSING only the second time |
| `Upload.UploadIntent.Resume` | apps/operator-web/src/media.ts:101-142 | any number of runs one after another keep one protocol log and one object |
| `UploadRuns.StepKeeps` | apps/operator-web/src/media.ts:87-142 | every step of any number of suspended runs of one intent keeps the invariant of its fields, runs and log |
| `UploadRuns.OverlappingRunsLaw` | apps/operator-web/src/app.ts:789-847 | over every interleaving of runs of one intent: one reservation key, one object, a finalize only after a stored copy and never with a key answered UPLOAD_MISSING, available only when the server told that run so, at most 2 finalizes and 4 PUTs per run |
| `UploadRuns.StepEnds` | apps/operator-web/src/media.ts:101-142 | whatever overlaps, a run ends exactly when an answer that it cannot recover from ends it, with the outcome a run alone would have, and moves no other run |
| `OperatorProofs.StepKeeps` | apps/operator-web/src/app.ts:387-509 | every press, timer, reply, reload, throw and server action keeps the app's invariant |
| `OperatorProofs.RunKeeps` | apps/operator-web/src/app.ts:387-509 | the same over every interleaving |
| `OperatorLaws.StepHistory` | services/dispatch/src/application/idempotency.ts:30-65 | every step keeps the server's record: granted keys are recorded and stand for an effect, refusals are not recorded, a key and an offer have at most one effect |
| `OperatorLaws.IntentLaw` | apps/operator-web/src/app.ts:387-509 | in every reachable state: one call outstanding, one request per key, `done` once per key and only after ok and an effect, one effect per key and per offer, an earlier key of an intent with two effects definitively answered, and an effect that was answered refused only under a key sent more than once |
| `OperatorLaws.OfferAcceptedOnce` | services/dispatch/src/application/dispatch.service.ts:261-280 | over every run an offer is accepted at most once, under however many keys and whatever the app forgot |
| `OperatorLaws.ResendOrMint` | apps/operator-web/src/app.ts:465-482 | a press resends the identical intent while its outcome is open, and mints a key only when every earlier key of that intent has its definitive answer |
| `OperatorLaws.DroppedIff` | apps/operator-web/src/app.ts:602-608 | an intent counts as dropped if and only if a retryable refusal answered its acceptOffer in the run |
| `OperatorLaws.MintsOverIff` | apps/operator-web/src/app.ts:567-609 | in every reachable state of rest, the next press mints a second key over an unanswered one if and only if a retryable refusal dropped the intent in the run and it is not pending again |
| `OperatorLaws.SecondKeyIsAReplay` | services/dispatch/src/application/dispatch.service.ts:263-266 | for every offer there is a run in which that happens after the server applied the acceptance; the second key is answered with the acceptance already held and there is still one effect |
| `OperatorLaws.MintedOverIffOffer` | apps/operator-web/src/app.ts:436-609 | a second key over an unanswered one is possible if and only if the intent accepts an offer |
| `OperatorLaws.LateEffectIff` | services/dispatch/src/application/idempotency.ts:30-65 | since a refusal is not recorded, the next thing the server handles can give a key that was answered refused its effect if and only if the key is not recorded, another request of it is still unhandled, and its offer, if any, is still open |
| `OperatorLaws.ServedOnce` | services/dispatch/src/application/idempotency.ts:30-65 | one request at the server: a recorded key is granted again without effect, a granted new key is recorded and takes effect unless its offer is held already, a refusal records nothing but itself |
| `OperatorRounds.RoundLaw` | apps/operator-web/src/app.ts:484-504 | in every run from a state of rest, at each moment of a round of resending: what was sent is the pending intents in order, each with its key and request, one more than got replies; an intent left `pending` if and only if its reply was ok or a definitive refusal; `done` ran for exactly those answered ok |
| `OperatorRounds.RoundEnds` | apps/operator-web/src/app.ts:484-504 | when the round is over the whole list was resent, every intent got its reply, and the lock is released |
| `OperatorRounds.PressLaw` | apps/operator-web/src/app.ts:465-482 | in every run from a state of rest a press sends one request, the pending one again or a new one; its reply decides whether it stays pending and touches no other intent; `done` ran once if and only if the reply was ok and the reload returned |
| `OperatorSession.OperatorApp.Mutate` | apps/operator-web/src/app.ts:465-482 | the history grows by this press; busy changes nothing |
| `OperatorSession.OperatorApp.OnSendReply` | apps/operator-web/src/app.ts:435-458 | the history grows by this reply of `send`, or of `acceptJob` for an offer |
| `OperatorSession.OperatorApp.Finish` | apps/operator-web/src/app.ts:437-442 | the history grows by the end of the call: `done` after a success, and the lock released |
| `OperatorSession.OperatorApp.ResolvePending` | apps/operator-web/src/app.ts:484-490 | the history grows by this timer: nothing changes while a call is out or nothing is pending; otherwise the lock is taken, the first pending intent is resent, and the rest is queued in order |
| `OperatorSession.OperatorApp.OnResolveReply` | apps/operator-web/src/app.ts:489-499 | the history grows by this reply inside the loop |
| `OperatorSession.OperatorApp.OnErrorHandled` | apps/operator-web/src/app.ts:494-497 | the history grows by the loop going on after an error was handled |
| `OperatorSession.OperatorApp.Fail` | apps/operator-web/src/app.ts:477-481 | a throw of the reload, the error handler or `done` is in the history and releases the lock |
| `OperatorSession.OperatorApp.KeepsIntentLaw` | apps/operator-web/src/app.ts:387-509 | the object keeps the intent law whatever happened to it |
| `Scheduling.TimesAreAvailable` | apps/customer-web/src/state/scheduling.ts:117-128 | the times of a day are exactly the available ones, each once, in order |
| `Scheduling.EarliestSlotIsLeast` | apps/customer-web/src/state/scheduling.ts:131-142 | at every instant some slot is offered, and the earliest slot is available and the least by day and time |
| `Scheduling.FindEarliestSlot` | apps/customer-web/src/state/scheduling.ts:131-137 | the loop over the days finds that slot |
| `Scheduling.SelectedStaysVisible` | apps/customer-web/src/state/scheduling.ts:148-157 | collapsing the grid never hides the selected time |
| `Scheduling.CollapsedIff` | apps/customer-web/src/state/scheduling.ts:148-157 | the grid shows its first six times only, unless all are asked for, there are no more, or the selected one comes later |
| `BookingDraft.EntryIsFurthest` | apps/customer-web/src/state/bookingDraft.ts:207-224 | for any requested number, the guard picks the furthest step within it that has nothing missing before it |
| `BookingDraft.ClampedIs` | apps/customer-web/src/state/bookingDraft.ts:207-224 | what is not a finite number asks for the first step, a fraction for the step it is in, and nothing goes beyond Review |
| `BookingDraft.FurthestIsUnique` | apps/customer-web/src/state/bookingDraft.ts:207-224 | there is one such step |
| `BookingDraft.EntryIsFixpoint` | apps/customer-web/src/state/bookingDraft.ts:207-224 | the guard lets the customer enter at the step it chose |
| `BookingDraft.EntryIsMonotone` | apps/customer-web/src/state/bookingDraft.ts:207-224 | asking for more never gets less; the result is the smaller of the request and the first missing step |
| `BookingDraft.ConfirmedPlateShape` | apps/customer-web/src/state/bookingDraft.ts:189-191 | a confirmed plate is Latin, trimmed, no longer than typed, and a fixpoint of confirming |
| `BookingDraft.ConfirmedPlateKeeps` | apps/customer-web/src/state/bookingDraft.ts:189-191 | a confirmed plate has the typed characters other than white space, in order and with Latin digits, with single spaces inside and none around |
| `BookingDraft.AcceptedPlateIff` | apps/customer-web/src/state/bookingDraft.ts:159-162 | a plate as typed is acceptable if and only if it is empty or two to twenty letters, digits of any of three scripts, white spaces and hyphens with a digit among them |
| `BookingDraft.ConfirmedPlateAccepted` | apps/customer-web/src/state/bookingDraft.ts:159-162 | an acceptable plate stays acceptable when confirmed if and only if more or fewer than one character is left |
| `BookingDraft.ConfirmedPhoneStable` | apps/customer-web/src/state/bookingDraft.ts:179-194 | confirming a number twice is confirming it once, and neither gains nor loses acceptance |
| `BookingDraft.ConfirmedPhoneParts` | apps/customer-web/src/state/bookingDraft.ts:192-194 | a confirmed number is the typed one character by character, without white space, parentheses and hyphens, with Latin digits |
| `BookingDraft.ConfirmedNameStable` | apps/customer-web/src/state/bookingDraft.ts:168-197 | under the 60-character cap a confirmed name is the trimmed one, stable, and as acceptable as before |
| `Records.SaveKeeps` | apps/customer-web/src/state/savedVehicles.ts:193-229 | saving keeps ids distinct, gives out only new numbers, and respects the capacity |
| `Records.SaveChangesOne` | apps/customer-web/src/state/savedVehicles.ts:122-229 | no record moves or changes its id, at most one changes and it is the reported one; refused for capacity exactly when full and nothing matches, and then nothing changes; otherwise stored as given |
| `Records.SaveTwice` | apps/customer-web/src/state/savedVehicles.ts:193-229 | saving the same thing twice leaves what saving it once left |
| `Records.DeleteKeeps` | apps/customer-web/src/state/savedVehicles.ts:292-300 | deleting keeps the other ids and frees no number |
| `Records.WithoutMember` | apps/customer-web/src/state/savedVehicles.ts:298-298 | deleting takes away exactly the record with that id |
| `Records.NeverReissued` | apps/customer-web/src/state/savedVehicles.ts:167-168 | an id that left a collection never comes back |
| `Booking.CollisionShrinks` | apps/customer-web/src/state/bookingConfirmation.ts:145-153 | every collision uses up one listed id, so the search for an order id ends |
| `Booking.NextNumber` | apps/customer-web/src/state/bookingConfirmation.ts:145-153 | the least number after the sequence whose order id is not listed |
| `Booking.NextOrderId` | apps/customer-web/src/state/bookingConfirmation.ts:145-153 | the loop ends and returns that number and its id, skipping only taken ids |
| `BookingProofs.EmptySessionOk` | apps/customer-web/src/fixtures/customerHomeScenarios.ts:40-60 | the app's empty session satisfies the invariant |
| `BookingProofs.ApplyKeeps` | apps/customer-web/src/state/CustomerSessionProvider.tsx:66-71 | every command keeps the session invariant and only gives out new ids |
| `BookingProofs.RunKeeps` | apps/customer-web/src/state/customerSession.ts:90-130 | over every run: garage <= 30, addresses <= 20, orders <= 80, receipts <= 10 and without a gap, ids distinct, a slot on the highlighted day, names capped, no add-on twice |
| `BookingProofs.RecordIdsNeverReissued` | apps/customer-web/src/state/customerSession.ts:94-100 | a car or address id that deletion took away is never used again in any run |
| `BookingOrders.OrderIdReturnsIff` | apps/customer-web/src/state/bookingConfirmation.ts:145-153 | a listed order can leave the list and have its id given out again if and only if its number is still ahead of the counter after the 80 - i confirmations that push it out |
| `BookingOrders.TooCloseToReturn` | apps/customer-web/src/state/bookingConfirmation.ts:145-153 | an order whose number is at most 80 - i ahead of the counter never returns |
| `BookingOrders.LoneNumberReturnsIff` | apps/customer-web/src/state/bookingConfirmation.ts:145-153 | with no other listed number between the counter and it, an order's id can return if and only if its number is more than 80 - i ahead |
| `BookingOrders.OrderIdNeverReissued` | apps/customer-web/src/state/bookingConfirmation.ts:271-271 | an order id whose number is not ahead of the counter never comes back once it is gone |
| `BookingOrders.AlwaysAnotherOrder` | apps/customer-web/src/state/bookingConfirmation.ts:163-365 | from every session some commands make exactly one more order |
| `OrderLists.LeavesList` | apps/customer-web/src/state/bookingConfirmation.ts:326-326 | the order at position i leaves the list at exactly the (80 - i)th confirmation |
| `OrderLists.ComesUp` | apps/customer-web/src/state/bookingConfirmation.ts:145-153 | a free number ahead of the counter is given out in the end |
| `BookingOrders.SnapshotsNeverChange` | apps/customer-web/src/state/customerSession.ts:50-55 | from any session and over any run, whatever is listed under a listed order's id is the very same order, unless that id is one that can return |
| `BookingProofs.DraftCommandsKeepBooks` | apps/customer-web/src/state/scheduleStep.ts:30-133 | the draft, journey and review-edit commands change nothing that is recorded |
| `BookingEdits.EditFrames` | apps/customer-web/src/state/vehicleStep.ts:40-57 | each edit touches one part of the draft, and an edit that is refused, exactly for its own reason, nothing at all |
| `BookingEdits.VehicleEdits` | apps/customer-web/src/state/vehicleStep.ts:40-57 | a chosen size forgets the car's link, name and colour; the plate field takes Latin digits up to its cap |
| `BookingEdits.EditorSets` | apps/customer-web/src/state/savedVehicles.ts:235-253 | the editor's car: texts trimmed and cut, an acceptable plate in Latin digits with single spaces, the link as given |
| `BookingEdits.CareEdits` | apps/customer-web/src/state/extrasStep.ts:26-43 | an add-on is switched on at the end or off, the others keep their order; a package drops exactly the add-ons it includes |
| `BookingEdits.SheetSets` | apps/customer-web/src/state/locationStep.ts:319-333 | an accepted address sheet: texts trimmed and cut, an empty title and a missing point get their fallbacks |
| `BookingEdits.SheetCompletesIff` | apps/customer-web/src/state/locationStep.ts:319-337 | an accepted sheet completes the location step if and only if the cut leaves a character other than white space from the fourth on |
| `BookingEdits.ContactEdits` | apps/customer-web/src/state/contactStep.ts:51-69 | a contact field takes what is typed up to its cap and leaves the others |
| `BookingEdits.ScheduleEdits` | apps/customer-web/src/state/scheduleStep.ts:58-96 | a day clears the time, a time is taken on the highlighted day, the earliest is the least available slot |
| `BookingEdits.EditChanges` | apps/customer-web/src/state/scheduleStep.ts:58-101 | an edit changes the draft only, and collapses the times exactly for an accepted day or the earliest slot |
| `BookingEdits.ChooseCarFills` | apps/customer-web/src/state/savedVehicles.ts:267-275 | choosing a saved car takes over that record and nothing else; an unknown id changes nothing |
| `BookingEdits.ChooseAddressFills` | apps/customer-web/src/state/savedAddresses.ts:234-241 | the same for a saved address |
| `BookingEdits.BookCarStarts` | apps/customer-web/src/state/savedVehicles.ts:278-286 | booking a saved car starts the journey with that record in the draft; an unknown id changes nothing |
| `BookingEdits.DeleteCarUnlinks` | apps/customer-web/src/state/savedVehicles.ts:292-300 | deleting a car takes its record away and unlinks the draft from it, and changes nothing else |
| `BookingProofs.CreatedIff` | apps/customer-web/src/state/bookingConfirmation.ts:163-235 | an order is created if and only if the command is for the current draft unchanged, every prerequisite holds at its instant, and the catalog answered |
| `BookingProofs.CreatedNeedsEveryStep` | apps/customer-web/src/state/bookingConfirmation.ts:189-213 | a created order's draft meets every step, and its slot is offered at that instant |
| `BookingProofs.JourneyCanFinish` | apps/customer-web/src/state/bookingConfirmation.ts:186-355 | from every session and at every instant, one choice per step leads to a confirmation that creates an order |
| `BookingProofs.OnlyCreationRecords` | apps/customer-web/src/state/bookingConfirmation.ts:163-365 | replay, conflict, stale, refusal and failure leave orders, collections, counters, receipts, profile and draft as they were |
| `BookingProofs.ConfirmKeeps` | apps/customer-web/src/state/bookingConfirmation.ts:322-355 | a confirmation, whatever it comes to, keeps the session invariant and only gives out new ids |
| `BookingContents.CreatedRecords` | apps/customer-web/src/state/bookingConfirmation.ts:217-355 | what a creation records: the new order is listed first, with the draft's own choices, slot and texts, the command's instant, the quote's total and minutes, the total as the amount, due in cash if and only if paid so, and the saved car's id; car and address are saved as the draft describes them, in one record each; tracking if and only if cash; the draft starts over |
| `BookingContents.QuotedForGood` | apps/customer-web/src/state/bookingConfirmation.ts:293-305 | over every run, as long as the order is listed it has those choices and asks for the quoted total |
| `BookingOutcomes.EveryOutcome` | apps/customer-web/src/state/bookingConfirmation.ts:163-235 | each outcome, if and only if: replay or conflict by a kept receipt, stale unless it confirms the current draft as it stands, refused at the first step with something missing and led there, failed without an answer of the catalog, created otherwise; nothing else changes the session |
| `BookingProofs.ConfirmedOnce` | apps/customer-web/src/state/bookingConfirmation.ts:173-184 | after a creation, whatever commands follow, the same key changes nothing: replay with the recorded order (or conflict for another payload) while among the last ten generations, then stale |
| `BookingProofs.FindKept` | apps/customer-web/src/state/bookingConfirmation.ts:336-339 | a receipt is found exactly while its generation is among the last ten |
| `BookingRepeat.ResumeEntersAllowed` | apps/customer-web/src/state/bookingEntry.ts:69-78 | the step resuming chooses passes the guard at that instant |
| `BookingRepeat.RepeatEntersAllowed` | apps/customer-web/src/state/bookingEntry.ts:123-152 | the same for repeating, with any offered slot |
| `BookingRepeat.OpenEditEntersAllowed` | apps/customer-web/src/state/reviewStep.ts:33-43 | the same for opening an edit from Review |
| `BookingRepeat.LeaveEditEntersAllowed` | apps/customer-web/src/state/reviewStep.ts:76-84 | the same for leaving it |
| `BookingRepeat.SubmitEntersAllowed` | apps/customer-web/src/state/reviewStep.ts:55-68 | the same for submitting any step while editing |
| `BookingRepeat.StartNeverReplaces` | apps/customer-web/src/state/bookingEntry.ts:32-66 | starting never replaces a car, address, contact or still offered slot, and leaves an offered day highlighted |
| `BookingEdits.StartFills` | apps/customer-web/src/state/bookingEntry.ts:32-66 | starting fills an undescribed car from the first saved car, an empty address from the first saved address, an empty contact from the profile, and a day that is no longer offered with the earliest; everything else stays |
| `BookingEdits.RepeatFills` | apps/customer-web/src/state/bookingEntry.ts:80-152 | the draft of a repeated order: its choices where still known, its texts and place, no car link, the offered slot and its day |
| `BookingOutcomes.RepeatOpens` | apps/customer-web/src/state/bookingEntry.ts:123-152 | repeating a listed order opens the journey in repeat mode, times collapsed, at the furthest step allowed; an unlisted id changes nothing |
| `BookingOutcomes.ResumeIff` | apps/customer-web/src/state/bookingEntry.ts:69-78 | a draft is resumed if and only if it was touched, at the furthest step allowed up to where it was left |
| `BookingOutcomes.SubmitMovesOn` | apps/customer-web/src/state/vehicleStep.ts:69-82 | submitting a step moves on by one exactly when its input is complete, and else changes nothing |
| `BookingOutcomes.SubmitEndsEdit` | apps/customer-web/src/state/reviewStep.ts:55-68 | while editing from Review it ends the edit at the furthest step allowed |
| `BookingOutcomes.ReviewEditOpens` | apps/customer-web/src/state/reviewStep.ts:23-43 | an edit opens for exactly the six steps before Review, at the furthest step allowed; any other target changes nothing |
| `BookingRepeat.RepeatCopies` | apps/customer-web/src/state/bookingEntry.ts:80-152 | repeating a listed order copies that very order |
| `BookingRepeat.StillListed` | apps/customer-web/src/state/bookingEntry.ts:135-137 | after any run, an order whose number is not ahead of the counter and whose id is listed is listed itself |
| `BookingRepeat.RepeatAfterConfirm` | apps/customer-web/src/state/bookingEntry.ts:80-152 | an order made by a confirmation and still listed after any run is repeated straight into Review at any instant, except into the first step exactly when its plate collapsed to one character |
| `BookingRepeat.RepeatThenConfirm` | apps/customer-web/src/state/bookingConfirmation.ts:273-306 | repeating such an order and confirming at once books the same details and add-ons again under an unused id with the earliest slot, car name, colour and note clipped once more |
| `BookingRepeat.RepeatKeepsTextsIff` | apps/customer-web/src/state/bookingConfirmation.ts:277-289 | car name, colour and note of the repeated booking are the same if and only if the first confirmation did not cut them right after a white space |
| `BookingDraft.ClipAgainIff` | apps/customer-web/src/state/savedVehicles.ts:59-59 | clipping twice is clipping once if and only if the first clip cut cleanly |
| `BookingProofs.SaveCarTwice` | apps/customer-web/src/state/savedVehicles.ts:144-173 | saving a car twice from the editor is saving it once |
| `BookingEdits.GarageSaves` | apps/customer-web/src/state/savedVehicles.ts:144-229 | the garage editor writes one record: the edited car, or else the first one of the same size with the same plate (without a plate, the same name and colour), or else a new one; refused exactly for its plate, or when full with none alike |
| `BookingProofs.SaveAddressTwice` | apps/customer-web/src/state/savedAddresses.ts:178-202 | saving an address twice from the account editor is saving it once |
| `BookingEdits.AccountSaves` | apps/customer-web/src/state/savedAddresses.ts:125-202 | the account editor writes one record: the edited address, or else the first one with the same text, or else a new one; refused exactly for a short text, an unknown id, or when full with none alike |
| `BookingProofs.SaveAddressChangesOne` | apps/customer-web/src/state/savedAddresses.ts:125-158 | ids and positions stay, at most one record changes, missing exactly for an unknown id, and missing or full changes nothing |

## Left out

- Publisher.PerPassPublishingIsSound: assumes what the broker guarantees, a return before the confirm of the same publication and one confirm per publication.
- DeliveryProofs.NoLoss: queues stay bound once bound, and every bound queue takes every event.
- DeliveryProofs.NoLossWithOnePublisher: the wiring it speaks of is not the shipped one; `DeliveryLoss.LossIff` shows that its discipline is needed.
- Outbox.OutboxRelay.RunPass: a store statement that throws in the middle of a pass is not part of the method; in the step system the process then aborts its pass or dies.
- SubscriberProofs.RedeliveryIsBounded: the broker counts a lost channel as a delivery attempt, as a quorum queue does.
- RateBudget.RedisRateBudget.Take: the keyed digest of scope and subject is taken as the pair itself, without collisions.
- CanonicalJsonProofs.SameTextIffSameValue: the runtime's printing of finite numbers is a parameter known to be injective and made of number characters; sparse arrays and objects with prototypes are not modelled.
- OperatorLaws.IntentLaw: the server grants or refuses a request freely where neither its record of the key nor the state of an offer decides; its other guards, such as task revisions, are not modelled. Each request is handled at most once. A page reload, which loses the pending map, ends a run.
- OperatorLaws.LateEffectIff: speaks of the record of keys and offers only; a guard that is not modelled may still refuse the late request.
- BookingProofs.RecordIdsNeverReissued: holds from a session in which no listed car or address already carries a number beyond its counter, as in every session the app starts with; saving does not look for such a number.
- BookingProofs.ConfirmedOnce: the fingerprint is the draft without its `touched` mark, that is, `JSON.stringify` of the listed fields is taken as injective; add-ons are always a list.
- CanonicalJsonReader.PrintReads: the reader is told how to read the number tokens, and takes text without insignificant white space only, which is what is printed.
- OperatorRounds.RoundLaw: the uploads that `resolvePending` resumes and its reload come after the lock is released and are not part of the round.
- An unreachable Redis, which makes `take` throw without an answer.
- UploadRuns.OverlappingRunsLaw: the server answers every reservation of one key with the same object, and the stored copy before a finalize may be older than an UPLOAD_MISSING that another run was answered; for runs one after another `Upload.UploadLaw` excludes that.
- SHA-256 of a message body is taken as free of collisions.
- Instants are a service-zone day number and a minute of day: date formatting and time-zone data are not modelled.
- Counters are unbounded integers; the loss of precision of JavaScript numbers beyond 2^53 is not modelled.
- Message texts, notices, announcements and their sequence numbers; the address sheet's map, pin and geolocation helpers.
- `viewOrder` and the back buttons of the journey, which change no state.
- `formatMoney`'s currency suffix and its dash for a malformed one, `sumMoney`, and the reconciliation form of the finance console.
- `assertTopology`'s declarations on the channel and the reconnecting consumer loop.
- Nest wiring, HTTP clients, gateway routes, event-contract parsers, authentication and observability: configuration or single-branch checks.
