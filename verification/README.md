# Durable delivery and one-shot login: a verified model

Two protocols of the application template, written in Dafny and proved with its verifier.
`dafny verify dfyconfig.toml` checks the whole project.

**Durable delivery.** Applications commit a message intent with their own state; a publisher
pump leases, publishes, retries and dead-letters it; fenced consumers execute it and commit a
receipt with their writes. Four tables are the shared state: messages, receipts, dead letters
and execution rows (`Schema.Ledger`). Every database transaction is one function on the ledger
(`Intents`, `Publisher`, `Consumer`), and the classes of `Delivery` are the in-place
transactions, proved against those functions. `Protocol` lets any number of publishers,
consumers, operators and batch workers take these transactions as steps in any order, with a
crash possible anywhere and an arbitrary integer clock at each step: nothing makes the clock
monotone unless a theorem says so. claim_execution is two steps, the lock-free eligibility read
and the upsert with its second look at the inbox, so anything may happen between them.

**One-shot login.** Two surfaces share one key-value store with create-if-absent and
get-and-delete: the authorization code flow of section 4.1 of RFC 6749 with the proof key of
section 4.2 of RFC 7636. `Login` holds the operations on values, `Auth` the store and the
service, `Sessions` the runs.

| files | what they hold |
|---|---|
| `Clock`, `Schema`, `Ordering`, `Wrappers` | instants with `-infinity`, the four tables, ORDER BY created_at, id LIMIT n |
| `Intents`, `Publisher`, `Consumer`, `Sweeping` | the transactions as functions, and what reconcile does and leaves alone |
| `Effects` | each transaction on the columns of the tables: when it takes effect, what it changes, and that it changes nothing else |
| `Delivery` | the classes over one database |
| `Protocol` | worlds, steps, runs |
| `Fencing`, `Heartbeat`, `Publishing`, `Retries`, `Progress`, `Schedules` | theorems over all runs |
| `Pump`, `Consume` | the two driving loops over the classes, proved to be runs of the protocol |
| `Settling`, `DeadLetters` | every message is settled in the end; none is dead-lettered early, and none executed while dead-lettered |
| `Consumption` | what one call of consume does, and that left alone it delivers |
| `Observation` | the gauges and their agreement with the runtime |
| `Limits` | where the code does less than might be expected |
| `Login`, `LoginEffects`, `Auth`, `Sessions` | the login protocol |

## What the code does not do

The model follows the code; `Limits` proves these, each with its exact condition and a run.

- Repeated claims are said to be bounded (`docs/durable-delivery-luna.md`). `claim_delivery`
  never reads max_attempts, so a message whose lease ends between a pump's reconcile and its
  claims is claimed once more than allowed (`Limits.ClaimOverruns`); a claim overruns exactly
  when its row is one a reconcile at that clock would have buried
  (`Retries.OverrunsExactlyWhenExhausted`). Without such a lapse of its own lease the bound
  holds for a message, whatever happens to others (`Retries.BoundedRetry`).
- The exhausted statement of reconcile has no receipt or execution guard, so an acknowledged
  or executing message can be dead-lettered (`Limits.AcknowledgedIsBuried`); exactly when it is
  out of attempts and waiting for a publisher (`Sweeping.ProtectedUnlessExhausted`).
- `finish_delivery(error="")` publishes without published_at, and the message is out of reach
  of claim, reconcile and replay for ever (`Limits.LostWithoutATime`,
  `Limits.EmptyErrorLosesTheMessage`). The row keeps its shape
  exactly when the error is not the empty string or a time was recorded before
  (`Limits.ShapeKeptExactly`). The pump passes type names, which are not empty.
- A handler that commits its session itself can have those writes repeated when it is executed
  again (`Limits.SelfCommittedWritesRepeat`). Once the receipt is in, the writes applied are
  those of the completing execution exactly when no earlier execution committed any
  (`Limits.WritesRepeatExactly`). The receipt and the completing transaction are exactly-once
  either way, and nothing of the message is committed after it (`Fencing.CompletionIsLast`).
- `mark_failed` of the older path has no dead letters (`Limits.MarkFailedKeepsExactly`).

## Model

| member | source | states |
|---|---|---|
| Fencing.ExactlyOnce | app/app/infrastructure/messaging/durable_tasks.py:86-149 | in every run and for any clocks, a message has exactly one completing transaction if its receipt is in and none otherwise; if its handler leaves the commit to the runtime, that is its only transaction and the applied writes are those of one execution |
| Fencing.FencedHistory | app/app/infrastructure/messaging/durable_tasks.py:187-192 | in every run the committed transactions of a resource, intermediate ones included, have non-decreasing epochs, and those at one epoch belong to one lease (one owner, one message) |
| Fencing.CompletionIsLast | app/app/infrastructure/messaging/durable_tasks.py:187-201 | in every run the completing transaction of a message is the last of all its transactions, handlers' own commits included |
| Fencing.RunKeepsFence | app/app/infrastructure/messaging/durable_tasks.py:109-149 | the inductive invariant behind both: every session's lease is on its row or superseded, no two sessions share an epoch, and once the receipt is in every session that could still commit the message is superseded |
| Fencing.DeadForever | app/app/infrastructure/messaging/durable_tasks.py:151-177 | a released or superseded lease, after any further run and at any clock: guard, renewal and commit fail, and a late release leaves the successor's row unchanged |
| Fencing.EndsLease | app/app/infrastructure/messaging/durable_tasks.py:112-119 | releasing a lease, and every later acquisition of its resource, makes it dead |
| Fencing.SerializationDomain | app/app/infrastructure/messaging/durable_tasks.py:107 | in every reachable state two messages share an execution row if and only if topic and aggregate key are both equal |
| Schema.ResourceKeyInjective | app/app/application/dto/outbox.py:25-26 | topic + ":" + key determines both, for arbitrary keys, because the topic alphabet has no colon |
| Schema.ColonTopicsWouldCollide | app/app/application/dto/outbox.py:25 | with a colon allowed in topics two domains would share a row |
| Heartbeat.NobodyElseGetsIn | app/app/infrastructure/messaging/durable_tasks.py:203-206 | over any number of heartbeats, each less than a lease after the one before, and beyond the last one: no other claim on the resource succeeds, no reconcile requeues the message, whatever the other processes do; and the lease commits, with its writes and receipt, if and only if the commit reads a clock before the last deadline, otherwise it leaves no trace |
| Heartbeat.NoLateCommit | app/app/infrastructure/messaging/durable_tasks.py:57-61 | in every run whatever is committed, intermediate commits included, read a clock before the expiry then on its own row, which was exactly its lease |
| Heartbeat.HeartbeatKeepsExclusivity | app/app/infrastructure/messaging/durable_tasks.py:151-164 | the lease stays on its row until its moving deadline, and no reading so far has reached that deadline, also between and after heartbeats |
| Heartbeat.HeldIsExclusive | app/app/infrastructure/messaging/durable_delivery.py:22-23 | while a lease is held, acquisitions of the resource change nothing, reconcile leaves the message's row alone, and the guard passes |
| Schedules.NotBefore | app/app/infrastructure/messaging/delivery_schedule.py:10-13 | in every run, batch path included and whatever the clock does, a message that was claimed, leased or received was begun by a claim, a batch claim or an eligibility read whose own clock reading had reached its schedule |
| Schedules.RunKeepsSchedule | app/app/infrastructure/repositories/outbox.py:69-84 | the invariant behind it: everything begun and every pending eligibility read is due by some reading so far, and every attempt, receipt, execution row and session is of a message begun |
| Publishing.RunKeepsPub | app/app/infrastructure/messaging/durable_delivery.py:59-101 | in every reachable state of the durable path: delivering iff owner and expiry are set, published implies a time, pending out of attempts implies an open dead letter, tickets carry the row's true attempt count, and that count is the number of claims since enqueue or replay |
| Publishing.RunKeepsShapes | app/app/infrastructure/repositories/outbox.py:75-145 | the row shape alone, delivering iff owner and expiry are set and published only with a time, also holds with the batch path and without fresh owners, unless a finish passes the empty string |
| Publishing.PublisherFencing | app/app/infrastructure/messaging/durable_delivery.py:76-99 | a finish from a claim that was since finished, replayed or re-claimed raises and changes no table, after any further run and at any clock |
| Publishing.SpendsTicket | app/app/infrastructure/messaging/durable_delivery.py:200-206 | a finish, a replay and a claim by anyone else each end the claim's ownership |
| Retries.BoundedRetry | app/app/infrastructure/messaging/durable_delivery.py:117-133 | in every run where the message's own lease never ends between a reconcile that did not skip it and the claim that takes it over, it is claimed at most max_attempts times between enqueue or replay and the next replay, at any clock and whatever happens to other messages |
| Retries.RunIsWithin | app/app/infrastructure/messaging/durable_delivery.py:100-101 | the invariant behind it: attempts within the bound, and a registered delivery with no attempt left outlives every reconcile that has seen it |
| Retries.OverrunsExactlyWhenExhausted | app/app/infrastructure/messaging/durable_delivery.py:48-62 | a claim goes over max_attempts if and only if it takes a lapsed delivery that is out of attempts, which is a row reconcile would have buried at that clock |
| Progress.NothingIsStuck | app/app/infrastructure/messaging/durable_delivery.py:114-175 | once the clock is past the schedule and past what the status waits for (backoff if pending, that and the lease if in delivery, receipt time and execution if published, however far away its backoff), one reconcile leaves every registered message that is not complete for its policy, hints included, dead-lettered or claimable |
| Progress.NeverStuck | app/app/infrastructure/messaging/durable_delivery.py:80-95 | in every reachable state of the durable path that moment is at most 256 seconds (pending) or one lease (in delivery or published) after the latest reading, apart from the message's schedule |
| Settling.EveryMessageSettles | app/app/tasks/durable_delivery.py:18-35 | from every reachable state, with arbitrary steps of consumers, publishers, operators and batch workers between pumps and arbitrary publish outcomes, more pumps than the message has attempts left settle it, completed or dead-lettered, if each starts past its deadlines and either ends before its limit, at any moving clocks and any locks on other rows, or stands at one clock with a limit beyond the messages that come first |
| Settling.TimelyPumpsSettle | app/app/infrastructure/messaging/durable_delivery.py:80-95 | on the durable path, more pumps than attempts left, each starting more than 256 seconds (if it finds the message pending) or one lease (in delivery or published) after every reading so far, settle a due message that their limit reaches: no assumption on the states they find |
| Settling.SettledOrCounted | app/app/infrastructure/messaging/durable_delivery.py:59-62 | in every run without a replay of the message, batch workers included, a completed or dead-lettered message stays settled, and the attempt count grows by at least the claims of it, on the durable path by exactly them |
| Settling.EnoughClaimsSettle | app/app/infrastructure/messaging/durable_delivery.py:162-174 | under any interleaving at all: once a run has claimed the message as often as it had attempts left, a reconcile past its deadlines finds it settled or settles it |
| Settling.RoundAdvances | app/app/infrastructure/messaging/durable_delivery.py:100-101 | any steps of other processes followed by one such pump settle the message or use up one of its attempts |
| DeadLetters.NoEarlyDeadLetter | app/app/infrastructure/messaging/durable_delivery.py:100-101 | in every run of the durable path, at every step: a message whose dead letter opens was out of attempts, and had been claimed at least max_attempts times since enqueue or its last replay |
| DeadLetters.ErrorIsRetried | app/app/infrastructure/messaging/durable_delivery.py:80-95 | a publish error with attempts left opens no letter, and the message may be claimed again exactly when its backoff is over and its schedule has come |
| DeadLetters.DeadLetteredIsNotExecuted | app/app/infrastructure/messaging/durable_tasks.py:92-97 | from a state where a message is dead-lettered and nobody has begun to execute it, every run without its replay gives it no read, no lease, no commit and no receipt |
| DeadLetters.RunKeepsJournal | app/app/infrastructure/messaging/delivery_schema.py:8-16 | in every run only stored messages have dead letters |
| Sweeping.ReconcileIdempotent | app/app/infrastructure/messaging/durable_delivery.py:114-175 | a second reconcile at the same clock returns 0 and changes no row and no dead letter |
| Sweeping.ReconcileTouches | app/app/infrastructure/messaging/durable_delivery.py:118-151 | reconcile changes a message or its dead letter if and only if one of its two selections names it |
| Sweeping.ProtectedUnlessExhausted | app/app/infrastructure/messaging/durable_delivery.py:145-149 | an acknowledged, executing or dead-lettered message is touched if and only if the unguarded first statement selects it, and a dead-lettered one never |
| Sweeping.CountIsMadePending | app/app/infrastructure/messaging/durable_delivery.py:174-175 | the returned count is the number of messages made pending |
| Pump.RunPump | app/app/tasks/durable_delivery.py:18-35 | the loop leaves the ledger and claims the messages of its specification and returns their number; with the clock of the loop fixed, whatever rows others hold throughout and whatever publish outcomes, these are the first min(limit, n) messages claimable after its reconcile, in (created_at, id) order |
| Pump.PumpIsSortedTake | app/app/tasks/durable_delivery.py:21-34 | claim, publish and finish, repeated at one clock with any fixed set of rows held by others, refine a sorted take: each message once, strictly ascending, nothing left out that comes earlier |
| Pump.TurnTakesFirst | app/app/infrastructure/messaging/durable_delivery.py:57-62 | one iteration takes the earliest claimable message and, whether publish succeeds or fails, leaves exactly the others claimable |
| Pump.TurnRecordsOutcome | app/app/tasks/durable_delivery.py:22-34 | what one turn leaves of the message it claims: published at its finish, or pending with the exception's name and backoff, its letter open only after the last attempt; and still in delivery if the finish came after the lease |
| Pump.TurnsAreARun | app/app/tasks/durable_delivery.py:21-34 | the loop is a run of the protocol: same ledger, and no other process's session, read or commit is touched |
| Pump.PumpIsARun | app/app/tasks/durable_delivery.py:18-35 | so is the whole pump, its reconcile included, so the theorems over runs speak about it |
| Ordering.TakeIsSorted | app/app/infrastructure/messaging/durable_delivery.py:57 | repeatedly taking the earliest row is the sorted prefix of the set |
| Consume.RunConsume | app/app/infrastructure/messaging/durable_tasks.py:179-226 | over the in-place transactions, whatever other processes, heartbeat, handler and clocks do, the call does exactly what its specification says and stays a run of the protocol; unless the process is killed its lease is dead for good afterwards; success is answered only with the receipt in |
| Consume.ClaimExecution | app/app/infrastructure/messaging/durable_tasks.py:86-149 | with any other steps between the read and the upsert, a lease is given only for the message read, only while its receipt is not in, and never for a message dead-lettered at the read |
| Consume.CommitSession | app/app/infrastructure/messaging/durable_tasks.py:187-201 | a commit goes through if and only if the guard finds the lease current, and the last one puts the receipt in |
| Consume.CleanUp | app/app/infrastructure/messaging/durable_tasks.py:218-226 | the clean-up commits nothing, loses no receipt and leaves the lease dead |
| Consumption.LeftAloneItDelivers | app/app/infrastructure/messaging/durable_tasks.py:179-226 | a ready message, an undisturbed call and readings within one lease: the call succeeds, the receipt is in, one transaction with all the handler's writes is added and the resource is free at once |
| Observation.CandidatesAddUp | app/app/infrastructure/messaging/delivery_observation.py:121-124 | counts per topic of the rows a reconcile selects add up to the rows it requeues (the number it returns) plus those it buries for want of an acknowledgement |
| Observation.PublishableAddUp | app/app/infrastructure/messaging/delivery_observation.py:108-112 | counts per topic of the ready rows add up to the rows claim_delivery may pick, less the complete and the executing |
| Observation.PublishableIsReady | app/app/infrastructure/messaging/delivery_observation.py:108-112 | per topic the publishable set is exactly the claimable set without complete and executing messages |
| Observation.CandidatesAreOverdue | app/app/infrastructure/messaging/delivery_observation.py:121-124 | per topic the candidate set is exactly what reconcile's topic statement selects |
| Observation.MessagesAddUp | app/app/infrastructure/messaging/delivery_observation.py:67-72 | counts per topic and the unregistered messages add up to the whole outbox |
| Observation.ReceiptsAddUp | app/app/infrastructure/messaging/delivery_observation.py:95-105 | for a receipt topic messages equals incomplete plus retained receipts; for a hint nothing is retained, awaited or a candidate |
| Observation.ExtremesAreAttained | app/app/infrastructure/messaging/delivery_observation.py:103-104 | the latest receipt is a retained one and none is later; the oldest age is that of a due incomplete message and none is older, and a clock set back never makes it negative |
| Observation.AgeSinceBoth | app/app/infrastructure/messaging/delivery_observation.py:125-127 | an age is at least a exactly when creation and schedule are both that long ago |
| Observation.GaugesCount | app/app/infrastructure/messaging/delivery_observation.py:105-120 | the remaining gauges in the tables' own terms; every incomplete message is either scheduled for later or due |
| Observation.ValidPoliciesMeans | app/app/infrastructure/messaging/delivery_observation.py:45-59 | policies are accepted exactly with at most 16 of them, topic alphabet, no shared topic and at most 128 topics |
| Observation.CollectSnapshot | app/app/infrastructure/messaging/delivery_observation.py:41-161 | succeeds exactly for valid policies; then every topic is observed once under its own policy, unregistered messages plus the messages gauges are the whole outbox, and for every policy the candidates gauges add up to what its reconcile requeues (the number it returns) plus what it buries for want of an acknowledgement, the publishable gauges to what its claim_delivery may pick less the complete and the executing |
| Protocol.IntentLedger | app/app/infrastructure/repositories/outbox.py:15-52 | over all runs a deduplication key keeps one id and one intent; every later enqueue repeats that intent, and gets that id and changes nothing, or is rejected |
| Protocol.RunExtends | app/app/infrastructure/repositories/outbox.py:157-174 | over all runs intents and receipts never change or go, and execution rows stay with growing epochs |
| Intents.IntentFaithful | app/app/application/dto/outbox.py:37-44 | two valid events are one stored intent if and only if topic, key, payload, headers and not-before all agree: the reserved header is neither forged nor lost |
| Intents.DueIsTheEventsSchedule | app/app/infrastructure/messaging/delivery_schedule.py:10-13 | a stored intent is due exactly when its event has no not-before or that time has come |
| Intents.EnqueueKeeps | app/app/infrastructure/repositories/outbox.py:18-52 | a successful enqueue returns the id its key maps to, stores exactly the event's intent there, and disturbs nothing |
| Effects.EnqueueEffect | app/app/infrastructure/repositories/outbox.py:15-52 | a valid event under a new key becomes one pending row created now, which later claims may take exactly from its not-before on; nothing else changes |
| Effects.EnqueueRefuses | app/app/infrastructure/repositories/outbox.py:49-51 | enqueue refuses exactly an invalid event, a key in use for anything else and a taken identifier |
| Effects.ValidEventMeans | app/app/application/dto/outbox.py:25-73 | what a valid event is, a schedule counting as one of at most 32 headers |
| Publisher.BackoffBounds | app/app/infrastructure/messaging/durable_delivery.py:95 | the backoff doubles from 1 second at no attempt up to 256 at the eighth and stays there: the outer bound of 300 is never reached |
| Delivery.OutboxRepository.Enqueue | app/app/infrastructure/repositories/outbox.py:15-52 | the in-place insert is the ledger function: a new row, the stored id, or an error that changes nothing |
| Delivery.OutboxRepository.ClaimInboxOnce | app/app/infrastructure/repositories/outbox.py:157-174 | answers whether the receipt is new and never replaces one |
| Delivery.OutboxRepository.ClaimBatch | app/app/infrastructure/repositories/outbox.py:54-101 | leases the sorted take of what is due and open, or refuses bad parameters |
| Delivery.OutboxRepository.MarkPublished | app/app/infrastructure/repositories/outbox.py:103-121 | only the holder of an unexpired lease publishes |
| Delivery.OutboxRepository.MarkFailed | app/app/infrastructure/repositories/outbox.py:123-155 | only the holder of an unexpired lease, with valid retry parameters, frees the row |
| Effects.ClaimBatchEffect | app/app/infrastructure/repositories/outbox.py:66-98 | a batch claim takes waiting rows in order up to the limit, skips none before one it takes, and leases exactly those |
| Effects.MarkPublishedEffect | app/app/infrastructure/repositories/outbox.py:103-121 | publishes exactly for the owner before the expiry |
| Effects.MarkFailedEffect | app/app/infrastructure/repositories/outbox.py:123-155 | frees the row exactly for the owner before the expiry with valid parameters |
| Delivery.DurableDelivery.Open | app/app/infrastructure/messaging/durable_delivery.py:25-38 | a policy is accepted exactly within its ranges |
| Delivery.DurableDelivery.ClaimDelivery | app/app/infrastructure/messaging/durable_delivery.py:40-74 | leases the earliest claimable row nobody has locked and returns its ticket |
| Delivery.DurableDelivery.FinishDelivery | app/app/infrastructure/messaging/durable_delivery.py:76-101 | only the current owner finishes: the row, its backoff and its dead letter change together or nothing does |
| Delivery.DurableDelivery.Reconcile | app/app/infrastructure/messaging/durable_delivery.py:114-175 | the statements, topic loop and row loop equal one simultaneous sweep of the ledger as it was before, and the count is the number requeued |
| Delivery.DurableDelivery.Replay | app/app/infrastructure/messaging/durable_delivery.py:177-208 | reopens exactly a dead-lettered message inside the policy; otherwise an error and no change |
| Effects.ClaimEffect | app/app/infrastructure/messaging/durable_delivery.py:48-62 | a claim takes the first waiting row if any is waiting, for exactly one lease and one more attempt; nothing else changes |
| Effects.FinishEffect | app/app/infrastructure/messaging/durable_delivery.py:76-101 | a finish takes effect exactly for the owner before the expiry; status, times, backoff, error, and a letter only for an error on the last attempt |
| Effects.ReconcileEffect | app/app/infrastructure/messaging/durable_delivery.py:114-175 | message by message: dead-lettered with its code, pending with no wait, or untouched, each under its exact condition |
| Effects.RequeuedIsWaiting | app/app/infrastructure/messaging/durable_delivery.py:166-171 | an unanswered message with attempts left may be claimed at the very reading of the reconcile, however far away its old backoff was |
| Effects.ReplayEffect | app/app/infrastructure/messaging/durable_delivery.py:177-208 | replay succeeds exactly for a registered message with an open letter, which starts over with no wait but its schedule |
| Delivery.DurableTasks.ClaimExecution | app/app/infrastructure/messaging/durable_tasks.py:86-149 | read, upsert and second look in place equal the ledger functions |
| Delivery.DurableTasks.CheckLease | app/app/infrastructure/messaging/durable_tasks.py:57-61 | passes exactly for the current owner, message and epoch before the expiry |
| Delivery.DurableTasks.Renew | app/app/infrastructure/messaging/durable_tasks.py:151-164 | only the current owner at its epoch moves the expiry |
| Delivery.DurableTasks.Release | app/app/infrastructure/messaging/durable_tasks.py:166-177 | the row stays with its epoch and is released for good; another owner's row is not touched |
| Delivery.DurableTasks.CommitWithReceipt | app/app/infrastructure/messaging/durable_tasks.py:198-201 | the receipt goes in exactly if the guard lets the commit through, whether or not it is new |
| Effects.EligibleEffect | app/app/infrastructure/messaging/durable_tasks.py:92-97 | the read finds exactly a registered message whose schedule came, without receipt and without an open letter |
| Effects.AcquireEffect | app/app/infrastructure/messaging/durable_tasks.py:107-149 | the lease is granted exactly on a free resource without the receipt, with the next epoch, for exactly one lease |
| Effects.GuardEffect | app/app/infrastructure/messaging/durable_tasks.py:57-61 | check, renewal and last commit go through exactly for the current lease before its expiry; a lease that ran out is refused even if nobody took it over |
| Effects.ReleaseEffect | app/app/infrastructure/messaging/durable_tasks.py:166-177 | release touches only the lease's own row, whose epoch stays |
| Limits.ShapeKeptExactly | app/app/infrastructure/messaging/durable_delivery.py:80-94 | a finish keeps the row's shape if and only if the error is not the empty string or a publish time is there already |
| Limits.LostWithoutATime | app/app/infrastructure/messaging/durable_delivery.py:142-144 | a message published without a time keeps that row in every later run, batch workers included, and no claim, reconcile or replay reaches it at any clock |
| Limits.EmptyErrorLosesTheMessage | app/app/infrastructure/messaging/durable_delivery.py:92-94 | a run that ends so, whatever follows it |
| Limits.ClaimOverruns | app/app/infrastructure/messaging/durable_delivery.py:53-54 | a run with two claims under max_attempts = 1 |
| Limits.AcknowledgedIsBuried | app/app/infrastructure/messaging/durable_delivery.py:121-133 | a run that dead-letters an acknowledged message |
| Limits.ConsumedIsComplete | app/app/infrastructure/messaging/durable_tasks.py:198-201 | a run that settles a message by its receipt alone |
| Limits.WritesRepeatExactly | app/app/infrastructure/messaging/durable_tasks.py:191-201 | in every run with the receipt in, the writes applied are those of the completing execution if and only if no execution at an earlier epoch committed any; otherwise there are more |
| Limits.SelfCommittedWritesRepeat | app/app/infrastructure/messaging/durable_tasks.py:191-201 | a run with one receipt and one effect in which a self-committing handler's writes are applied twice |
| Limits.MarkFailedKeepsExactly | app/app/infrastructure/repositories/outbox.py:134-145 | the older failure path keeps "out of attempts means dead-lettered" if and only if an attempt is left or the message is in the journal |
| Login.KeysDoNotCollide | app/core/config.py:376-377 | for any identifiers a caller supplies, two keys are equal if and only if surface, kind and identifier are |
| Sessions.LoginConservation | app/app/application/services/auth_service.py:80-187 | in every run and on each surface, sessions created plus logins in progress plus waiting transactions never exceed logins begun |
| Sessions.OneSessionPerLogin | app/app/application/services/auth_service.py:137-177 | every session comes from a transaction of its surface whose state was presented, no two from the same one, and is for a member of an organization the surface allows |
| Sessions.TakenOnce | app/app/application/services/auth_service.py:137-159 | over every run no two successful callbacks ever take the same transaction, abandoned and failed logins included, and each took one that was begun |
| Sessions.ReturnedSessionIsCurrent | app/app/application/services/auth_service.py:307-333 | a returned session is of this surface, was created for this identifier, and the reading is before the provider's expiry and before login time plus session lifetime; after a change of settings it still is for today's audience and policy version |
| Sessions.SessionIsReadBack | app/app/application/services/auth_service.py:166-187 | a successful callback yields a usable session: after any run that does not log it out, remove it or read it late, every read before min(provider expiry, login time plus lifetime) returns it, for this app, surface, client and policy version, with the claims' subject and the drawn token |
| Sessions.LoginCanComplete | app/app/application/services/auth_service.py:96-109 | a begun login can be completed: after any run that spares its transaction, a callback gets it, with its nonce and verifier, exactly with its state |
| Sessions.CallbackNeedsItsTransaction | app/app/application/services/auth_service.py:137-159 | a callback passes if and only if a transaction of this surface waits under its identifier with the presented state, and it never passes twice |
| Sessions.KeysTellTheKind | app/app/application/services/auth_service.py:152-153 | what is under a transaction key is a transaction of that surface, under a session key a session of that surface |
| Sessions.SurfacesDoNotInterfere | app/core/config.py:376-377 | whatever identifier it carries, a step of one surface or kind leaves every entry of the others alone |
| Sessions.RunKeepsLogin | app/app/application/services/auth_service.py:104-187 | the inductive invariant behind the login theorems |
| Auth.AuthService.BeginLogin | app/app/application/services/auth_service.py:80-128 | stores one transaction if absent; when the provider gives no URL it is gone again |
| Auth.AuthService.TakeTransaction | app/app/application/services/auth_service.py:137-159 | takes the transaction out whether or not the checks pass |
| Auth.AuthService.CreateSession | app/app/application/services/auth_service.py:195-234 | creates a session exactly for unexpired claims of an allowed organization under a free key |
| Auth.AuthService.CompleteLogin | app/app/application/services/auth_service.py:130-186 | succeeds if and only if the transaction answers, the exchange succeeds and the session can be created; the transaction is spent in any case, the error names the half that failed, and no other entry changes |
| Auth.AuthService.GetBrowserSession | app/app/application/services/auth_service.py:307-333 | returns an accepted session and deletes a rejected one |
| Auth.AuthService.DeleteSession | app/app/application/services/auth_service.py:335-339 | removes at most that session |
| Auth.AuthService.CancelLogin | app/app/application/services/auth_service.py:367-371 | removes at most that transaction |
| LoginEffects.KeyFormat | app/core/config.py:376-377 | the four key prefixes, spelled out |
| LoginEffects.BeginEffect | app/app/application/services/auth_service.py:85-114 | begins exactly in an allowed mode under a new key |
| LoginEffects.TakeEffect | app/app/application/services/auth_service.py:137-159 | what waits under a usable cookie is gone and handed out exactly with its surface and state |
| LoginEffects.CreateEffect | app/app/application/services/auth_service.py:195-234 | stored exactly with time left, an allowed organization and a free key, every checked field fixed |
| LoginEffects.GetEffect | app/app/application/services/auth_service.py:307-333 | answers exactly with an unexpired session of this app, surface, client and policy version, and removes anything else |
| LoginEffects.RemoveEffect | app/app/application/services/auth_service.py:335-371 | logout and cancellation remove exactly their entry |

## Left out

- PostgreSQL isolation levels and row locks: a transaction is one atomic step at the granularity above; rows another transaction holds are a `locked` set that the step skips.
- Clocks within a transaction: each step of the durable path reads the clock once, though the source's statements may read it several times; the batch path has its two clocks, transaction start and statement time.
- Message columns that decide nothing: updated_at, and how payload, time stamps and uuids are written; the 256 KiB size check.
- A malformed not-before header, which makes the source's cast fail, is never due; the error it raises to every claim is not modelled.
- DurableTasks inheriting from DurableDelivery: the two classes share the database and the policy instead.
- Handlers that enqueue in their own session: a session's writes are a count, and an enqueue is a step of its own.
- Cancellation of a task in the middle of a database call: `Consume.RunConsume` ends the work between transactions; `Protocol` lets a process stop after any of them.
- The batch path in the retry bound, in the rule that a pending message out of attempts is dead-lettered, and in the time bounds: it has no dead letters, counts attempts the same way and may delay a message for a day; `Limits.MarkFailedKeepsExactly` says what it breaks. Row shapes and settling hold with it.
- Fencing.ExactlyOnce: about database writes of the session; effects a handler has on other systems are outside it, as docs/durable-delivery-luna.md says.
- Heartbeat.NobodyElseGetsIn: assumes that each heartbeat reads a clock no earlier than any reading before it, as a lease by wall clock must.
- Observation.CollectSnapshot: receipt times are finite, as the only writer of receipts records its own clock, so the error for a non-finite one is not modelled; active executions are counted at the snapshot's own clock, where the source reads the clock again for each topic; not modelled are the order of the topics in the answer, seconds as floating point, rendering and timeouts.
- The loop that checks the observation policies is the predicate `Observation.ValidPolicies`.
- Broker, Celery and asyncio: a publish is an arbitrary outcome, and a delivery to a consumer is a consumer that starts.
- Login: URL building and token verification are outcomes; identifiers and secrets are given; return paths, roles, user records, cookies and the forgery check of a request are not modelled; the store's time limits are removals at any time.
- Other parts of the application: settings, key caches, service identity, downstream clients, schedulers, readiness, provisioning and migrations.
