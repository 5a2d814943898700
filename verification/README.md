# Verified model of the order protocol

A point-of-sale system in which tills keep working while they are offline. Each till stamps its commands
with the version it predicts the order will have, keeps them in a durable queue and replays them when it
can; the server decides each request on the order as it reads it and commits under a version guard; every
commit leaves one event in an outbox, which workers publish to a topic, from which the kitchen builds its
tickets. This project models that path and the caches, printers and loaders beside it, and proves what
they keep over every run.

`dafny verify dfyconfig.toml` verifies everything.

## How it is laid out

| file | what it models |
|---|---|
| `Domain`, `ProjectQueue`, `TillRules` | the shared rules, the till's projection, what a till sends and accepts |
| `Server`, `ServerInvariants` | one request taken atomically (`Serial`), and the money and history it keeps |
| `Answers`, `LineChanges` | what a request is answered and leaves behind, case by case; what an item command does to the lines, and to the money, on the server and on the till |
| `MutationHandler` | the handler as imperative code over the tables, proved equal to `Serial` |
| `Transactions`, `VersionGuard`, `ExactlyOnce` | the same requests as interleaved transactions; what the version guard does and does not protect; idempotency |
| `Refusals` | a refused request is over for good |
| `Chains`, `Reach` | what `decide` sees of an order; which queues can never put a request ahead of it |
| `Views`, `QueueChain` | why a till that projects from old, new or torn snapshots keeps its queue sound |
| `Shops`, `TillMoves`, `ServedRequests`, `NeverAhead` | tills, displays and the concurrent server in one machine; never ahead as long as stamps are sound |
| `CarefulTills`, `Overtaking`, `LostSnapshot` | what a till has to take care of for that; why it cannot do with less; the run of a till that does not |
| `Intents`, `AppliedOnce`, `AppliedTwice` | what becomes of an operator's intents: served in order, applied once; and the run in which a rebase applies one twice |
| `Convergence` | an offline queue replayed with lost answers and crashes |
| `OrderStore`, `LocalStore`, `SyncEngine` | the till's screen, disk and engine as imperative code |
| `SyncSteps`, `QueueRuns` | the same disk write by write, with a crash between any two |
| `DeviceMoves` | those writes as moves of the machine with everybody in it |
| `Outbox`, `TopicOrder`, `OutboxPublisher` | the outbox under any number of workers, and one publishing pass as code |
| `Kitchen`, `EventFlow`, `DisplayCommands` | the ticket projection as code and over whole logs, the way from the outbox to it, and the way back from a display |
| `FlagCache`; `TicketHash`, `PrintJobs`, `FakePrinter`; `Loader` | three smaller machines |

## How it fits together

- **Server.** `Server.Serial` is the specification of one request. `MutationHandler` proves that the handler,
  with its signals, rollbacks and second looks, computes it. `Transactions.SerialRefinement` proves that
  interleaved transactions refine it if no client is ahead of the order. `VersionGuard` shows that this
  hypothesis is exactly what the guard needs, with the payment that goes wrong without it.
  What `Serial` and the rules under it come to is said once more without them: `Domain.TakesExactly` and
  `RefusesExactly` name the statuses, `Domain.TotalAddsUp` and `SameLinesSameTotal` say what a total is,
  `Answers` lists the answers and what each leaves behind, and `LineChanges` follows each line.
- **Tills.** The machine of `Shops` runs `Transactions.Step` itself next to the tills and displays. A till shows
  one snapshot and has saved another; it may lose what it shows at any moment. `Reach.Sound` says of a queue,
  from the order as it is committed, that no row of it can ever get ahead. `SoundStampsAreNeverAhead`: if every
  stamp leaves its queue sound, nothing is ever ahead and the server's run is serial. `Overtaking.SafeIffSound`:
  if one does not, some continuation posts a request that is ahead. Between the two stands what a till can
  check: `CarefulTills.NoRequestIsAhead` needs only that a row is stamped while the version shown is the one
  saved. `LostSnapshot` is the run of a till that does not wait for that, as the code does not.
- **Intents.** On top of never-ahead, `Intents` follows an intent through its ids: commits come in staging order
  and nothing leaves a disk before it is served. `AppliedOnce` needs one guard more, which the code's rebase does
  not have: a row that is still pending must not get a new id. `AppliedTwice` is the run in which it does.
- **One device.** `SyncSteps` takes the disk write by write, `SyncEngine` is the code over it, and `DeviceMoves`
  proves that every write, every answer and every turn of a rebase is a move of `Shops`; so the theorems about
  the machine are about that code. `Convergence` is the case with nobody else about.
- **Events.** `TopicOrder` needs no lease to hold for per-order order. `Kitchen` needs only that order, and
  `EventFlow` joins the two.

Ids are natural numbers, SHA-256 is its canonical form, tables are maps or sequences in key order, the topic
is a sequence. What comes from outside (answers, clocks, crashes, what is due, locked or stale) is a
parameter of each step or a script.

## What the theorems assume

- `CarefulTills`: a row is stamped only while the version shown is the one saved, and a rebase starts only when
  what is shown is saved; nothing is staged for an order while its rebase is running. What is learned may come
  late and, in a refusal, torn between two versions; a reload may come at any moment; what is saved of an order
  may be pruned once nothing is queued for it. Mutation ids are fresh. Storage writes succeed. The labels PENDING
  and SYNCING are one, as the send gate treats them.
- `AppliedOnce`: queues are halted for refusals only, and no row that is still pending is re-issued.
- `Convergence`: the menu equals the product table, nobody else writes the order and no staged row is refused.
- `EventFlow`: nothing is dead-lettered. `TopicOrder.EventsLandInOrder` says what holds when something is.
- `TopicOrder.AttemptsAreFailedSends`: outcome writes land inside the lease and nothing is replayed;
  `BothExactlyWhen` says step by step what happens otherwise and `LateOutcomeIsBoth` is such a run.
- `FlagCache`: the counter is never lost.
- `PrintJobs`: runs for one ticket follow each other.

Where the code and its comments differ, the model follows the code. The comment on `refetch`
(`apps/web/src/stores/order.ts:442-475`) does not say that what it shows is not yet on disk: `adopt` comes before
`saveOrder`, and nothing keeps a row staged in between from being written first. `LosingASnapshotGetsAhead` is the
run in which the tab dies there; `SafeAfterReload` says exactly when it does harm. `rebase`
(`apps/web/src/sync/engine.ts:320-332`) gives a fresh id to whatever row is at the head, also to one that is pending
because its answer was lost: `OneTapTwice`, and `ReplacedMayBeAppliedIff` for exactly when. The comment on
`publishOnce` (`apps/worker/src/modules/events/outbox-publisher.ts:102-107`) says a send that lands late can only
repeat an event that is on the topic already. That holds while nothing was dead-lettered: a dead event's last send
may land behind its successors (`GivenUpMayLandLate` is such a run), which is why `EventsLandInOrder` speaks of
events that were never dead-lettered. `alreadyAppliedOutcome` does not compare hashes when it finds the id recorded
(`apps/api/src/modules/orders/application/mutation-handler.ts:446-455`), so `EachIdOnce` says that a stored
result only goes to the request it is stored for, and not that every reused id is refused.

## Model

| member | source | states |
|---|---|---|
| Domain.DecideFollowsTable | packages/domain/src/decide.ts:50-157 | what `decide` lets through on an existing order is a step of the transition table, or stays at OPEN, and never leaves a terminal status; `TakesExactly` below says which that is |
| Domain.TakesExactly | packages/domain/src/decide.ts:50-157 | with the statuses named: PAY applies exactly to an open or a ready order, SEND_TO_KITCHEN exactly to an open one, START_PREPARING exactly to one at the kitchen, MARK_READY exactly to one being prepared, CANCEL exactly to one neither paid nor cancelled, an addition exactly to an open one, a removal or a change exactly to an open one that holds the product; and the status each leads to |
| Domain.RefusesExactly | packages/domain/src/decide.ts:50-157 | when a command is already done and needs nothing, and the reason of each refusal, with what comes first when two hold |
| Domain.TotalAddsUp | packages/domain/src/pricing.ts:4-6 | the total of two lists of lines one after the other is the sum of their totals |
| Domain.TotalOfOne | packages/domain/src/pricing.ts:4-6 | and that of one line is its quantity at its price |
| Domain.SameLinesSameTotal | packages/domain/src/pricing.ts:4-6 | so the same lines, each as often, have the same total in any order |
| ServerInvariants.SerialKeepsGood | apps/api/src/modules/orders/application/mutation-handler.ts:87-249 | after any request, however it is answered: total equals the sum over the lines, products are unique with positive quantities, PAID iff exactly one payment of exactly the total; each order's events number its versions 1..version once each and spell a path of the transition table, and the lines sent to the kitchen are the order's lines from then on |
| ServerInvariants.SerialShape | apps/api/src/modules/orders/application/mutation-handler.ts:87-194 | a request is answered APPLIED exactly when it commits through the guarded write; any other answer changes no order, line, payment or event |
| Answers.AnswersExactly | apps/api/src/modules/orders/application/mutation-handler.ts:129-249 | every request is answered by the first of these that holds: another restaurant's order, an id known already, no order, a rule against it, nothing left to do, a version that has passed, an unknown product; else APPLIED, with the order as the command leaves it and one version on |
| Answers.AppliedWrites | apps/api/src/modules/orders/application/mutation-handler.ts:171-194 | what APPLIED leaves behind: the order as answered, its result under the id, one event named after the command, and a payment of the order's total exactly for a PAY; no other order, result, payment or event changes |
| Answers.OthersWrite | apps/api/src/modules/orders/application/mutation-handler.ts:362-464 | any other answer writes at most the result of an acknowledgement not recorded yet |
| Answers.LogsExactly | apps/api/src/modules/orders/application/mutation-handler.ts:389-403 | the conflict log gains a row exactly when the answer is a conflict, with the command, the version it was made at and the version and status the order really had |
| Answers.RacedIsKnown | apps/api/src/modules/orders/application/mutation-handler.ts:362-404 | an id that was recorded while its transaction ran is answered as one known from the start |
| Answers.LostCreationIsLate | apps/api/src/modules/orders/application/mutation-handler.ts:201-236 | a creation that finds the order there after all rolls back to what the checks would say to it now |
| Answers.SecondLookAnswers | apps/api/src/modules/orders/application/mutation-handler.ts:423-464 | what was to be acknowledged is decided again: acknowledged if nothing is left to do, else answered by a result recorded meanwhile, else refused with what stands against it now, or as a conflict of versions if it would apply again |
| ServerInvariants.ChangedLinesStayGood | apps/api/src/modules/orders/application/mutation-handler.ts:255-304 | upsert, delete and update keep one line a product with a positive quantity |
| LineChanges.ServerLines | apps/api/src/modules/orders/application/mutation-handler.ts:255-304 | line by line: an addition counts on top of the quantity there is, at the first price, or goes last as a new line at the catalogue's; a change sets the quantity, a removal takes the line out; every other line and its place stay |
| LineChanges.TillLines | apps/web/src/domain/project-queue.ts:82-150 | the same for the till's projection, with its own menu, and the status, version and total it shows |
| LineChanges.MoneyMoves | packages/domain/src/pricing.ts:4-6 | what each change of a line is worth: quantity added at the line's price, the line taken out, the difference of the quantities |
| LineChanges.MoneyOfNewLine | packages/domain/src/pricing.ts:4-6 | and a new line is worth its quantity at its price |
| ServerInvariants.OpenMeansNeverSent | packages/domain/src/status.ts:7-14 | an order that is OPEN has been OPEN at every earlier version, so it has never been to the kitchen |
| MutationHandler.Database.LoadOrderSnapshot | apps/api/src/modules/orders/application/order-snapshot.ts:8-40 | the row and then its lines, as the order's snapshot; nothing if there is no row |
| MutationHandler.Database.GuardedVersionBump | apps/api/src/modules/orders/application/mutation-handler.ts:344-360 | bumps exactly when the row stands at the version the client sent, and then writes version and status only |
| MutationHandler.Database.RecalculateTotal | apps/api/src/modules/orders/application/mutation-handler.ts:329-338 | the total is the sum over the lines (`Domain.TotalAddsUp`, `TotalOfOne`), whatever it was |
| MutationHandler.Database.ApplyChange | apps/api/src/modules/orders/application/mutation-handler.ts:255-323 | the lines, the total and the payment each command leaves behind, and the refusals of an unknown product and a second payment for one id |
| MutationHandler.Database.CreateEffect | apps/api/src/modules/orders/application/mutation-handler.ts:201-236 | a creation inserts the order at version 1 or reports whose order stands in its way, with nothing left behind when it fails |
| MutationHandler.Database.ChangeEffect | apps/api/src/modules/orders/application/mutation-handler.ts:237-249 | a change bumps under the guard first and rolls everything back when any part of it is refused |
| MutationHandler.Database.ConflictOutcome | apps/api/src/modules/orders/application/mutation-handler.ts:362-404 | a refusal is answered from the stored result of the same id if there is one, else with the state as committed; exactly then one row of the conflict log says what was refused and where the order stood |
| MutationHandler.Database.AlreadyAppliedOutcome | apps/api/src/modules/orders/application/mutation-handler.ts:423-464 | the decision is taken again on the locked row and the result recorded only if nothing is recorded yet |
| MutationHandler.Database.ApplyMutation | apps/api/src/modules/orders/application/mutation-handler.ts:87-249 | the whole handler, rollbacks included, does to the tables and answers exactly what the one-step specification `Server.Serial` says, and logs a conflict exactly if it answers one; `Answers` says what that is |
| Transactions.WritingIsSerial | apps/api/src/modules/orders/application/mutation-handler.ts:171-194 | a transaction that read, decided and then wrote under the guard, with anything in between, wrote what the atomic step would write now |
| Transactions.SettlingIsSerial | apps/api/src/modules/orders/application/mutation-handler.ts:423-464 | an acknowledgement under the row lock leaves the database as the atomic step would |
| Transactions.StepKeepsOk | apps/api/src/modules/orders/application/mutation-handler.ts:129-249 | every statement of every open transaction keeps what the others rely on: what each has read is still the order at that version or the order has moved on |
| Transactions.SerialRefinement | apps/api/src/modules/orders/application/mutation-handler.ts:129-249 | over every interleaving, with processes dying anywhere: if no request is stamped above the committed version when it arrives, the database is at every point the one obtained by taking the effective requests one at a time, with money and history in order |
| VersionGuard.GuardIsSerialIff | apps/api/src/modules/orders/application/mutation-handler.ts:344-360 | for any existing order, whatever its status and the catalogue: the guard makes the write serial against all other requests if and only if the client's version is not above the one read, or is one the order can no longer reach (no room at PAID or CANCELLED, one step from READY, two from PREPARING, three once sent, four for an open order that can hold nothing) |
| VersionGuard.AheadPaymentTakesStaleTotal | apps/api/src/modules/orders/application/mutation-handler.ts:306-318 | a concrete request stamped ahead pays 0 for an order of 900 |
| ExactlyOnce.EachIdOnce | apps/api/src/modules/orders/application/mutation-handler.ts:87-194 | over every interleaving and for any versions clients send: an id commits at most once, with one event, one version and at most one payment, one caller hears APPLIED, and an ALREADY_APPLIED is the result stored for that very request or true of the order it carries |
| Refusals.RefusalIsFinal | apps/api/src/modules/orders/application/mutation-handler.ts:362-404 | over every interleaving with no request ahead: a request that has been refused (conflict, unknown product, other tenant, reused id) has not been committed by any of its attempts and never will be, though others may still be in flight or sent again |
| ProjectQueue.ProjectAppends | apps/web/src/domain/project-queue.ts:153-162 | a row staged last is projected onto the projection of the rows before it |
| Chains.ReactIsDecide | packages/domain/src/decide.ts:50-157 | table, status and products held are all that `decide` looks at |
| Chains.ApplyOneShape | apps/web/src/domain/project-queue.ts:56-150 | one projected row, as what it does to that shape and to the version shown |
| Chains.ProjectionLabel | apps/web/src/domain/project-queue.ts:153-176 | the version stamped on the next row, computed from the rows and the shapes alone |
| Reach.SoundAppend | apps/web/src/domain/project-queue.ts:164-176 | one more row keeps a queue sound exactly when it is stamped no higher than the version the order has once the whole queue is behind it |
| Reach.TransferSound | apps/web/src/domain/project-queue.ts:164-176 | a sound queue stays sound whatever others commit, though rows it counted on may since have been satisfied by somebody else |
| Views.SteadyExtends | apps/web/src/domain/project-queue.ts:153-176 | a row stamped at the projection from any of the snapshots a till may hold, torn ones too, keeps the queue good for all of them |
| Views.SteadyCommits | apps/web/src/domain/project-queue.ts:153-176 | and so does a commit of somebody else, from which a new snapshot may come |
| QueueChain.StageKeepsQueue | apps/web/src/stores/order.ts:368-391 | staging at the version projected from a snapshot of the version saved, whole or torn, keeps the queue's invariant, also while the head has been served and its answer lost |
| QueueChain.LearnKeepsQueue | apps/web/src/stores/order.ts:188-193 | saving any newer snapshot of the order, whole or torn, keeps it, whatever is queued |
| QueueChain.DropKeepsQueue | apps/web/src/sync/engine.ts:186-194 | so does deleting the head once its answer is cached |
| QueueChain.SettleKeepsQueue | apps/api/src/modules/orders/application/mutation-handler.ts:423-464 | so does an acknowledgement of a row that was stamped as one that will apply |
| QueueChain.QueueIsSound | apps/web/src/sync/engine.ts:97-106 | a queue with the invariant is sound: none of its rows can get ahead of the order |
| TillMoves.StageKeeps | apps/web/src/stores/order.ts:540-578 | what holds of a till without any care survives staging, in the machine with everybody else in it |
| TillMoves.DropKeeps | apps/web/src/sync/engine.ts:186-194 | under the answer that deletes the head |
| TillMoves.HaltKeeps | apps/web/src/persistence/local-store.ts:383-397 | under a refusal |
| TillMoves.ReissueKeeps | apps/web/src/sync/engine.ts:316-348 | and a re-issue with a fresh id at the version the rebase is at |
| TillMoves.TicketIsNotAhead | apps/web/src/stores/kitchen.ts:186-194 | the version a display stamps is the `sourceEventVersion` of the ticket built from any log of the outbox's events, in any order, with repeats and gaps, and is not above the committed version |
| DisplayCommands.CurrentDisplayIsServed | apps/web/src/stores/kitchen.ts:186-194 | and nothing is lost by that stamp: if every event of the order has come in order, what a display sends for the ticket (START_PREPARING where the order is at the kitchen, MARK_READY where it is being prepared) is applied, one status and one version on |
| ServedRequests.CommitMakes | apps/api/src/modules/orders/application/mutation-handler.ts:171-191 | a commit makes the next version of its order: stamped with the last one, moving it as the shared rules say, its result stored for its id |
| ServedRequests.ProgressServes | apps/api/src/modules/orders/application/mutation-handler.ts:129-194 | a statement group comes to nothing, a new version or an acknowledgement, and reports success only for a stored result |
| NeverAhead.StepKeeps | apps/web/src/sync/engine.ts:220-249 | every move of any till, display or transaction keeps the invariant of all of them, if a move that stamps leaves its queue sound |
| NeverAhead.SoundStampsAreNeverAhead | apps/web/src/sync/engine.ts:220-249 | with any number of tills and displays, snapshots shown but not saved, reloads, torn snapshots, lost answers, refusals, discards, rebases and pruning: as long as every stamp leaves its queue sound, no posted request carries a version its order has not reached, and the concurrent server's database is the one of the serial run, with money and history in order |
| NeverAhead.ServerRun | apps/web/src/sync/engine.ts:220-249 | what the tills and displays make the server do is a run that meets the hypothesis of the serial refinement, as long as the invariant holds |
| CarefulTills.NoRequestIsAhead | apps/web/src/stores/order.ts:540-578 | the same for every run in which a till stamps a row only while the version it shows is the one it has saved, and starts a rebase only when what it shows is saved; displays need no care |
| Overtaking.SafeIffSound | apps/web/src/stores/order.ts:540-578 | the converse, after any sound run: a stamp leaves every continuation with sound stamps free of requests ahead if and only if it leaves its queue sound |
| Overtaking.SafeIffWithinReach | apps/web/src/domain/project-queue.ts:174-176 | for a staged command, in terms of what the till computes: if and only if the projected version is within what the queue reaches |
| Overtaking.SafeAfterReload | apps/web/src/stores/order.ts:445-475 | at a reload: the next command is safe if and only if the version projected from the snapshot that was saved is within what the queue reaches; so losing one while nothing is queued does no harm |
| LostSnapshot.LosingASnapshotGetsAhead | apps/web/src/stores/order.ts:445-475 | a whole run: a tab shows version 3, stages on it, dies before saving it, comes back with version 2, stages again, and ends with a request on its way at version 4 of an order that has had three |
| Intents.IntentsAreServedInOrder | apps/web/src/sync/engine.ts:186-194 | with the server in the machine and sound stamps: the commits of one till's intents for one order come in staging order, across discards and rebases; each intent is on disk, was given up, or has an id the server has served with a version the request made or that satisfied it; the disk has each intent in one row, in staging order |
| Intents.RowsStayUntilServed | apps/web/src/sync/engine.ts:186-194 | a row leaves the disk only when the server has served its id, by a discard, or for its replacement with the same intent |
| AppliedOnce.EachIntentOnce | apps/web/src/sync/engine.ts:316-353 | however often an intent is sent, refused and re-issued: it is applied at most once, and a till's intents are applied in staging order, as long as no rebase re-issues a row that is still pending |
| AppliedTwice.ReplacedMayBeAppliedIff | apps/web/src/sync/engine.ts:320-332 | exactly what that guard is for: once a row has been replaced, its own request has been or may still be applied if and only if it was sent and is not over |
| AppliedTwice.OneTapTwice | apps/web/src/sync/engine.ts:320-332 | a whole run with every other move guarded and no request ahead: a refused tea is re-issued, applied, its answer lost, re-issued again, and applied under two ids of one intent |
| Convergence.SameLines | apps/api/src/modules/orders/application/mutation-handler.ts:255-304 | the server's line arithmetic and the till's give the same lines |
| Convergence.RowAsProjected | apps/web/src/domain/project-queue.ts:56-150 | a row staged on the order as it stands is committed or acknowledged as projected: same snapshot, lines, total and version |
| Convergence.OfflineConvergence | apps/web/src/sync/engine.ts:154-249 | a queue staged on the order with no row refused, with any attempts lost, unanswered or cut off by crashes, is emptied by one clean pass, and leaves the server's order and the cache equal to the projection |
| OrderStore.Screen.Adopt | apps/web/src/stores/order.ts:188-193 | a snapshot is shown exactly if it is of another order or not older than the one shown; so what is shown never goes back while the screen stays on one order |
| OrderStore.Screen.OnCanonical | apps/web/src/stores/order.ts:213-227 | an answer is cached always and shown only on its own screen, and never moves the pointer |
| OrderStore.Screen.StageCommand | apps/web/src/stores/order.ts:540-578 | a command is staged iff the terminal is the one on screen, the screen is still on the order meant, none of the terminal's rows for it on disk is halted, and the plan made from the projection of exactly those rows asks for something; then as one row behind all others, at that projection's version |
| OrderStore.Screen.StepQuantity | apps/web/src/stores/order.ts:637-657 | the step is staged under the same conditions, and is computed on that projection at staging time |
| OrderStore.Screen.StageCreation | apps/web/src/stores/order.ts:478-519 | a creation re-points the screen and is stamped 0 |
| OrderStore.NextStampFollows | apps/web/src/domain/project-queue.ts:164-176 | successive stamps: one on after a row the projection takes, the same after one it does not |
| OrderStore.StepAsksForOneMore | apps/web/src/stores/order.ts:643-656 | a step asks for the line's quantity plus the step, or for its removal below one |
| OrderStore.StepNeedsALine | apps/web/src/stores/order.ts:643-656 | and for nothing where the projection has no line of the product |
| LocalStore.Store.SavePending | apps/web/src/persistence/local-store.ts:226-252 | a new row goes behind every other with a stamp past all of them; one saved again keeps its place |
| LocalStore.Store.Stamp | apps/web/src/persistence/local-store.ts:91-95 | the stamp is past the newest row's and not behind the clock |
| LocalStore.Store.NormalizeSyncing | apps/web/src/persistence/local-store.ts:350-361 | every row keeps its place and its contents; a row's label changes exactly if it is the terminal's and SYNCING, and then to PENDING |
| LocalStore.Store.HaltQueue | apps/web/src/persistence/local-store.ts:383-397 | every row keeps its place and its contents; the head is CONFLICT; a row is BLOCKED by the call exactly if it is of the head's order and terminal and comes after it; no other label changes |
| LocalStore.Store.DiscardOrderQueue | apps/web/src/persistence/local-store.ts:406-421 | exactly the rows of that terminal for that order are gone; the rest are as they were, in their order |
| LocalStore.Store.Reissue | apps/web/src/persistence/local-store.ts:444-468 | the row's place is taken by the same intent under the new id at the new version, pending; no other row changes, none is lost and none is there twice |
| LocalStore.Store.CacheOrder | apps/web/src/persistence/local-store.ts:102-122 | a snapshot is written only if it is not older than the one held |
| LocalStore.CacheIsMonotone | apps/web/src/persistence/local-store.ts:102-122 | an answer is kept exactly if nothing newer of its order is held, and no other order's snapshot changes; so whatever order answers come in, no cached version goes back |
| QueueRuns.StampIsLast | apps/web/src/persistence/local-store.ts:91-95 | the stamp is strictly past every row on disk |
| QueueRuns.NoIntentIsLost | apps/web/src/sync/engine.ts:186-217 | one device alone, cut off between any two writes, between a conflict's canonical order and the halt too: each intent was given up, acknowledged or is on disk in exactly one row; disk order is strict staging order; requests of one terminal for one order go out in staging order |
| QueueRuns.AttemptLeavesOthers | apps/web/src/persistence/local-store.ts:383-397 | whatever an attempt comes to, groups of other orders and terminals are untouched |
| QueueRuns.RefusalHalts | apps/web/src/sync/engine.ts:196-217 | a refusal puts the group on hold |
| QueueRuns.HaltedGroupIsSilent | apps/web/src/sync/engine.ts:118-120 | from then on, through any passes, restarts and work elsewhere, no row of the group is sent and none leaves the disk until it is discarded or rebased |
| SyncEngine.Engine.Attempt | apps/web/src/sync/engine.ts:154-218 | the writes of an attempt in their order, up to wherever it is cut off |
| SyncEngine.AttemptLabelsExactly | apps/web/src/sync/engine.ts:154-218 | what an attempt sends and the labels it leaves: PENDING when it was offline or failed, CONFLICT with every row behind it BLOCKED when it was refused, SYNCING when the tab died, and every other row as it was; sent once unless the tab died before |
| SyncEngine.EveryTableHasAPast | apps/web/src/persistence/local-store.ts:226-252 | any table the disk can hold is the end of some run of a device, so an engine may open on it |
| SyncEngine.GroupByOrder | apps/web/src/sync/engine.ts:123-136 | the queue split by order, each group in queue order |
| SyncEngine.ListedAsTheyAppear | apps/web/src/sync/engine.ts:122-136 | and the orders in which the groups are worked are those of their first rows |
| SyncEngine.Engine.Pass | apps/web/src/sync/engine.ts:220-249 | each answer goes to one permitted attempt at a row of the terminal, in turn; the pass goes on until every group is empty or on hold, or until the first answer that is offline, a failure or a crash, and its outcome says which; `drained` exactly if the terminal's queue is empty; halted groups and other terminals are untouched |
| SyncEngine.Engine.Rebase | apps/web/src/sync/engine.ts:316-353 | one request a row, in the group's order, each stamped with the version the answer before it carried (0 for a creation), until one is not accepted; the outcome names that answer, `drained` exactly if the group is empty; the row it stopped at, re-issued, and all behind it are on disk, one row each, under the labels that answer leaves; and if it starts at a version that is held, no row is re-issued at a version above the one the disk holds at that moment |
| DeviceMoves.StageIsMove | apps/web/src/stores/order.ts:540-578 | staging on the device at the version projected from its rows is the machine's `Stage` |
| DeviceMoves.AttemptIsPost | apps/web/src/sync/engine.ts:154-160 | the request an attempt sends is the one the till posts |
| DeviceMoves.AttemptIsMoves | apps/web/src/sync/engine.ts:186-217 | what the engine does with the server's answer, whatever has happened since the request, and wherever it is cut off, is a run of the till's moves: save, then drop or halt |
| DeviceMoves.AttemptElsewhere | apps/web/src/sync/engine.ts:186-217 | the device's other tills keep their rows, and those on the same order save what the answer carried |
| DeviceMoves.DiscardIsMove | apps/web/src/persistence/local-store.ts:406-421 | a discard on the device is the machine's `Discard` |
| DeviceMoves.ReissueIsMove | apps/web/src/persistence/local-store.ts:444-468 | a re-issue at the version the rebase is at is the machine's `Reissue` |
| DeviceMoves.TurnIsMoves | apps/web/src/sync/engine.ts:316-348 | one turn of a rebase, with anybody doing anything between the request and its answer, is a run of the machine's moves, and the next version is the one the answer carried |
| DeviceMoves.AttemptIsReplay | apps/web/src/sync/engine.ts:154-218 | an attempt in `Convergence` is the engine's attempt with the answer the server gives |
| Outbox.OneClaimablePerOrder | apps/worker/src/modules/events/outbox-publisher.ts:283-300 | at most one event of an order can be claimed, the earliest that waits |
| Outbox.ReplayStartsOver | apps/api/src/modules/debug/application/replay-last-event.ts:40-66 | a row put back is as if it had never been tried |
| TopicOrder.EventsLandInOrder | apps/worker/src/modules/events/outbox-publisher.ts:267-336 | with any workers, expired leases, crashes, late or repeated landings, late outcome writes and replays: whenever an event lands, every earlier event of its order that was never dead-lettered has landed before it; no row is marked published that is not on the topic |
| TopicOrder.QuietKeepsBus | apps/api/src/modules/debug/application/replay-last-event.ts:40-66 | putting a published row back does not disturb that |
| TopicOrder.AttemptsAreFailedSends | apps/worker/src/modules/events/outbox-publisher.ts:350-395 | if outcomes are written inside the lease and nothing is replayed: one live lease an order, attempts equal failed sends and stay within the bound, dead-lettered iff at the bound, never both published and dead |
| TopicOrder.LateOutcomeIsBoth | apps/worker/src/modules/events/outbox-publisher.ts:328-336 | a concrete run with a late outcome write leaves a row published and dead-lettered: the outcome writes are not guarded on the claim |
| TopicOrder.BothExactlyWhen | apps/worker/src/modules/events/outbox-publisher.ts:328-395 | step by step, for any workers: a row becomes published and dead-lettered at once exactly when a late mark meets a dead row or a failure at the bound meets a published one |
| TopicOrder.GivenUpMayLandLate | apps/worker/src/modules/events/outbox-publisher.ts:102-107 | a run for any two events of one order: the first is dead-lettered while its last send is in the air, the second is published, and the first lands behind it |
| OutboxPublisher.Publisher.ClaimBatch | apps/worker/src/modules/events/outbox-publisher.ts:283-320 | the first claimable rows of those due, up to the limit, leased to the worker, and copies of them in creation order |
| OutboxPublisher.FirstDueAreTaken | apps/worker/src/modules/events/outbox-publisher.ts:283-320 | a claimable row that is due is left only if the batch is full without it, of rows due before it |
| OutboxPublisher.Publisher.ReleaseClaims | apps/worker/src/modules/events/outbox-publisher.ts:350-367 | row by row: exactly the rows named that the worker still holds and that are not published lose their lease; nothing else about any row changes |
| OutboxPublisher.Publisher.RecordFailure | apps/worker/src/modules/events/outbox-publisher.ts:370-395 | the count is written from the claimed copy, and the row is dead at the bound |
| OutboxPublisher.Publisher.ReplayLastEvent | apps/api/src/modules/debug/application/replay-last-event.ts:40-66 | the latest published row that is not dead becomes claimable again with its attempts at zero; nothing else changes |
| OutboxPublisher.Publisher.PublishOnce | apps/worker/src/modules/events/outbox-publisher.ts:111-196 | the table after a pass, row by row as each was sent, charged or given back, the counts reported, why it stopped and whether the session survived; the four members below say what these are in terms of what each look and each send brought |
| OutboxPublisher.FateOfEachRow | apps/worker/src/modules/events/outbox-publisher.ts:141-196 | a row is given back if and only if at it or at an earlier row the session was dead or died, a look found a pause or the lease over, before or after the delay, or a send overran; any other is sent if the send was acknowledged and charged if it was not, so none is sent or charged from a paused look on |
| OutboxPublisher.ReasonIsTheFirst | apps/worker/src/modules/events/outbox-publisher.ts:248-268 | the reason reported is the one met first, a dead session before a pause before the lease; and none is reported exactly if nothing stopped the pass |
| OutboxPublisher.SessionSurvivesExactly | apps/worker/src/shared/broker-session.ts:71-96 | the session survives a pass exactly if nothing of what the pass got to ended it |
| OutboxPublisher.CountsExactly | apps/worker/src/modules/events/outbox-publisher.ts:115-125 | claimed, published, failed, dead-lettered, abandoned and reclaimed are the numbers of the rows these are true of |
| OutboxPublisher.OutcomeOfEach | apps/worker/src/modules/events/outbox-publisher.ts:172-192 | each claimed row meets its own fate, an abandoned one keeps its attempts, and no other row is touched |
| OutboxPublisher.AbandonedIsSuffix | apps/worker/src/modules/events/outbox-publisher.ts:131-141 | after the first row given up none is attempted |
| OutboxPublisher.EveryRowIsCounted | apps/worker/src/modules/events/outbox-publisher.ts:118-125 | claimed = published + failed + abandoned |
| OutboxPublisher.BrokerSession.Publish | apps/worker/src/shared/broker-session.ts:83-96 | the session is dead before the caller sees any error but a record rejection |
| OutboxPublisher.BrokenOncePerPass | apps/worker/src/shared/broker-session.ts:71-96 | so a pass charges at most one attempt that is not the record's fault, none in a dead session, and ends with the session dead |
| OutboxPublisher.OutageCost | apps/worker/src/shared/broker-session.ts:71-96 | over an outage of any length such charges are at most one a session |
| Kitchen.KitchenProjection.ApplyKitchenEvent | apps/worker/src/modules/kitchen/projection.ts:33-56 | one event: a duplicate changes nothing, any other is marked seen and moves at most its own ticket, with the outcome reported |
| Kitchen.ReportsExactly | apps/worker/src/modules/kitchen/projection.ts:33-56 | what is reported of an event and what it comes with: exactly `Applied` changes a ticket, its own and to the event's version; a duplicate was seen before, a stale event is no newer than its ticket, and a kitchen event that is only recorded found no ticket |
| Kitchen.NoTicketGoesBack | apps/worker/src/modules/kitchen/projection.ts:58-122 | over any log at all, with gaps, repeats and in any order, and wherever it is cut: no ticket disappears, no ticket's version falls, and a ticket at the same version is the same |
| Kitchen.TicketShowsAnEvent | apps/worker/src/modules/kitchen/projection.ts:58-122 | and every ticket shows the state and the version of an event of its order that has come |
| Kitchen.KitchenProjection.CreateTicket | apps/worker/src/modules/kitchen/projection.ts:58-87 | the ticket is created or overwritten only by a newer event |
| Kitchen.KitchenProjection.AdvanceTicket | apps/worker/src/modules/kitchen/projection.ts:95-122 | a ticket is moved by a newer event only, and a missing one is told apart from a stale event; `NoTicketGoesBack` says what that guard is for |
| Kitchen.CameAndTicket | apps/worker/src/modules/kitchen/projection.ts:33-122 | on any log that brings each order's events in order, repeats allowed, the ticket is the one the first events of its order add up to |
| Kitchen.TicketFits | apps/worker/src/modules/kitchen/projection.ts:17-26 | along an order's history the ticket's state follows its status, and READY outlives the payment |
| Kitchen.TicketAgreesWithOrder | apps/worker/src/modules/kitchen/projection.ts:33-122 | a ticket exists iff the send event came; it shows the order's frozen lines and table and the version of the last kitchen event that came; on a fully consumed log its state is the order's |
| Kitchen.ReadIsInOrder | apps/worker/src/modules/events/outbox-publisher.ts:88-91 | a consumer that reads on or resumes anywhere it has been still gets each order's events in order |
| EventFlow.KitchenFollowsOrders | apps/worker/src/modules/kitchen/projection.ts:33-122 | the last property for the topic of any run of the publishing workers in which nothing was dead-lettered |
| FlagCache.FlagStore.WriteFlag | apps/api/src/modules/config/application/flag-store.ts:56-72 | patches only the fields named and only that flag |
| FlagCache.LastWriteWins | apps/api/src/modules/config/application/flag-store.ts:56-72 | after any writes a field of a flag is what the last write naming it said, and off or 0 if none did; a flag is there exactly if one has been written |
| FlagCache.LoadFlags | apps/api/src/modules/config/application/resolve-flags.ts:51-62 | a hit is returned as it is; a miss reads the table and fills under the version it observed; a failed read fills nothing |
| FlagCache.AnswersAreFresh | apps/api/src/modules/config/infrastructure/redis-flag-cache.ts:71-99 | with any readers, late fills, expiries and concurrent toggles: every answer is the table as it once stood, and includes every flag write whose invalidation completed before the call began |
| PrintJobs.PrintStore.ProcessPrintJob | apps/worker/src/modules/printing/print-processor.ts:41-98 | one attempt: what happens to the row, what is reported and whether the device is called; `OneAttempt` says what becomes of the row |
| PrintJobs.OneAttempt | apps/worker/src/modules/printing/print-processor.ts:68-123 | an unfinished job the device answered, with paper or as a duplicate, is PRINTED with one attempt more; one it did not answer has one attempt more and is never PRINTED, dead exactly at the bound; a worker that dies records nothing; and a finished job stays as it is |
| PrintJobs.PrintedExactlyWhenTold | apps/worker/src/modules/printing/print-processor.ts:76-98 | over every run: a job is PRINTED if and only if the device has said, in answer to a call for its ticket, that the ticket came out or had come out; that call is the last one, and the only one so answered |
| PrintJobs.PrintStore.ResetDeadLetteredJob | apps/worker/src/modules/printing/print-processor.ts:133-146 | dead rows of the order and no others start over |
| PrintJobs.PrintStore.Reconcile | apps/worker/src/modules/printing/reconcile.ts:54-105 | enqueues a prefix of the orphans found, all of them unless the queue stops taking jobs |
| PrintJobs.PrintStore.RetryDeadLetteredTicket | apps/worker/src/modules/printing/reconcile.ts:122-149 | the order's dead rows start over, and its ticket is enqueued exactly if there was one to reset and the ticket is still there |
| PrintJobs.FinalIsFinal | apps/worker/src/modules/printing/print-processor.ts:68-74 | PRINTED is never left, DEAD_LETTER only by a reset of that order, and neither calls the device |
| PrintJobs.PrintedForGood | apps/worker/src/modules/printing/print-processor.ts:68-70 | whatever comes after, a printed job stays as it is |
| PrintJobs.CallsAreBounded | apps/worker/src/modules/printing/print-processor.ts:105-123 | between resets the device is called at most `maxAttempts` times for a ticket, not counting calls whose worker died before recording one; dead exactly at the bound |
| PrintJobs.OneJobInEveryRun | apps/worker/src/modules/printing/reconcile.ts:60-74 | an order printed as one ticket has one job |
| PrintJobs.SweepSparesFinalJobs | apps/worker/src/modules/printing/reconcile.ts:60-74 | in any table: the sweep never enqueues an order whose jobs are all printed or dead; and it enqueues a finished ticket only for another job of that order that is neither and is stale |
| PrintJobs.EveryOrphanIsFound | apps/worker/src/modules/printing/reconcile.ts:60-74 | and every orphan is among those found |
| PrintJobs.NeverTriedIsFound | apps/worker/src/modules/printing/reconcile.ts:60-74 | in every run: a ticket that was not cancelled, of an order nothing was ever printed or tried for, is found |
| PrintJobs.StuckIsFound | apps/worker/src/modules/printing/reconcile.ts:60-74 | and so is one whose order has a stale job that is pending or failed |
| PrintJobs.SweepSparesFinishedInEveryRun | apps/worker/src/modules/printing/reconcile.ts:60-74 | in every run in which an order is printed as one ticket, the sweep never enqueues a printed or dead-lettered one |
| FakePrinter.Printer.Accept | apps/api/src/modules/printer/application/fake-printer.ts:38-59 | a remembered key gets its first receipt and no paper; any other prints |
| FakePrinter.ReprintsAreSpacedOut | apps/api/src/modules/printer/application/fake-printer.ts:48-56 | a key is on paper again only after 500 others, no two alike, came out since |
| TicketHash.HashIgnoresLineOrder | apps/worker/src/modules/printing/ticket-hash.ts:26-36 | tickets with the same lines in any order hash the same |
| TicketHash.HashTellsTicketsApart | apps/worker/src/modules/printing/ticket-hash.ts:26-36 | equal hashes mean the same order and table and the same lines as often; with one line a product, the other way round too |
| Loader.RefetchUntil | apps/web/src/realtime/refetch-until.ts:40-77 | stops at the first satisfying read or after the budget, returns the freshest success, reports convergence truly, and has no value iff no read succeeded |
| Loader.NoExpectationIsStranded | apps/web/src/realtime/coalescing-loader.ts:55-92 | results are applied in read order, an expectation is judged only by reads issued after it was raised, and an idle loader has given every expectation a round with a read in it, whatever failed |
| Loader.EachRoundIsApplied | apps/web/src/realtime/coalescing-loader.ts:55-73 | over any run: for each finished round the freshest read that succeeded is applied, and nothing for one in which none did; once each, in the order of the rounds |

## Left out

- 32-bit widths of versions, quantities and cents: all integers are unbounded.
- Timestamps: `createdAt` of queue rows is kept as the strict order it is for; lines are kept in creation order, which is taken as strict; other timestamps are not modelled.
- The fallback name of a line whose product the menu does not have yet: it is empty here and the product's id in the code.
- Event payloads beyond the table and the lines, which is all the kitchen reads; trace ids; conflict resolution reports.
- The storage-less path (`sendUnstored`) and failing storage writes: durability has no subject without them.
- Kitchen displays' own pending table and retry buttons: a display is a source of requests stamped with the version of a ticket it was shown; a retry is the same request arriving again.
- Shops: keeps tills, displays and their moves as values; `OrderStore`, `LocalStore` and `SyncEngine` hold the imperative code of a till, one device at a time, `DeviceMoves` ties the two, and two tabs of one terminal are not modelled.
- Intents.IntentsAreServedInOrder: an acknowledgement without a commit has no place in the order of commits; it is true of the version it returns.
- AppliedTwice.ReplacedMayBeAppliedIff: speaks of the replaced row's own request; whether its replacement is applied as well is up to the command and the order.
- MutationHandler.Database.LoadOrderSnapshot: nothing comes between its two statements there, nor between those of `ConflictOutcome`; whatever may is a step of `Transactions`.
- SyncEngine.Engine.Pass: takes its queue as it was when it began, like the code; rows staged meanwhile and the coalescing of triggers in `run` belong to the machine in `SyncSteps`, where any attempt may follow any write.
- SyncEngine.Engine.Rebase: the case in which the swap itself does not commit is left to the storage assumption.
- LocalStore.Store.Reissue: is for a row that is on disk, which its one caller has just read there.
- OutboxPublisher.Publisher.PublishOnce: one worker alone, the environment as a script; interleaving workers are in `TopicOrder`.
- TopicOrder: `next_attempt_at`, backoff, batch limit and `SKIP LOCKED` only restrict which claimable rows a claim takes, so a claim there takes any of them; a replay there takes any published row and not only the newest.
- PrintJobs.CallsAreBounded: two workers printing one ticket at once are not modelled, and a worker that dies between the device's answer and its record is counted apart, because the code counts only recorded attempts.
- PrintJobs.PrintStore.Reconcile: an order with several jobs would appear once a job in the query; here it appears once.
- Loader: the loop of `createCoalescingLoader` is a machine of values whose last check and clearing of `running` are one step; when a round's reads stop is free there and settled in `RefetchUntil`.
- FlagCache: timestamps of flag rows, and the rollout bucket a flag is resolved with.
- Routing, validation beyond the version and quantity rules, presence, sockets, metrics, the simulator, `/debug` pages, the service worker and process start-up and shutdown.
