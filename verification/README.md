# RAISE: bookings, kitchen timing and live updates, verified

RAISE takes a table booking and its food order by conversation, holds the table when the guest
confirms, tells the kitchen when to start, and shows the restaurant what is coming. Many requests
run at once against one Postgres database. Each reads a snapshot, checks it in code, and then runs
one transaction of conditional updates. This project models that behaviour in Dafny and proves
what holds over every interleaving, and exactly when the things that do not always hold do hold.

Run `dafny verify dfyconfig.toml`.

## How the model is laid out

| file | models |
|---|---|
| `Domain.dfy` | the rows of the database and the tenant-scoped lookups |
| `TimingEngine.dfy` | the arithmetic of the two kitchen targets |
| `Protocol.dfy` | the committed rows and all requests in flight as one transition system; `Run` executes any sequence of actions |
| `RowHistory.dfy`, `Identity.dfy`, `Completeness.dfy`, `AuditLog.dfy` | invariants of every run that need no assumption |
| `Exclusivity.dfy`, `TableCounts.dfy`, `AllergyGate.dfy`, `EtaToken.dfy` | invariants that need a named assumption on the other requests, the exact condition, and a counterexample without it |
| `Answers.dfy`, `OrderTiming.dfy` | each request's answers and writes, and what its targets mean for each line of the order, in terms of the rows alone |
| `Deployment.dfy` | the invariants together, from an empty deployment on |
| `Tenancy.dfy` | non-interference between restaurants |
| `TargetHistory.dfy` | which request wrote the targets on a row, and what it had read |
| `RowLocks.dfy`, `Releases.dfy` | statement-level transactions with row locks, and why a batch may be treated as one step |
| `Backend.dfy`, `Services.dfy` | the services as classes over mutable tables, each proved to be a run of the protocol |
| `Ordering.dfy`, `KitchenQueue.dfy`, `Dashboard.dfy` | the kitchen queue, the dashboard list and the client's fold of live events |
| `Notifications.dfy` | claim-then-send |
| `Drift.dfy`, `DriftAlerts.dfy` | thresholds and rounding, and the chain from an ETA change to the one alert that is sent |
| `Tickets.dfy`, `Gateway.dfy`, `Reconnect.dfy` | socket tickets, the gateway's rooms and the client's reconnect machine |

A request is a task: what was asked for, and a phase that holds what its earlier reads returned.
One step runs one transaction of a task or, where the code reads in one statement and writes
conditionally in a later one (food-out, recompute, acknowledge, proposals, adding a dish), one of
the two halves. A task can crash between any two steps. The methods in `Services.dfy` take the
actions that other requests perform between their own transactions as a parameter, so each is
proved for every interleaving. What is proved of runs then holds of the services.

## Assumptions, by name

Each is a predicate on a step, used only where the table below says so.

- `Exclusivity.ProposalsStandBack`: a table is proposed only while the visit is a draft and no
  confirm holds a snapshot of it. The `propose_table` tool does not check this.
- `AllergyGate.FlagsStandStill`: an order does not get its first allergy flag while a food-out
  request is past its gate, or after the food is out, unless the flags are already acknowledged.
  The intake tools do not check this.
- `EtaToken.StampGrows`: a write to a visit row stamps it later than before.
- `Tickets.Plausible`, `Gateway.Plausible`: the clock does not go back, a minted ticket value is
  new, a socket connects once. `Tickets.SweepInvisibleIff` says what one sweep can change on a
  clock that does go back.
- `Tenancy.Scoped`: new ids are fresh, as uuids are, and a request names its own restaurant.
- `Reconnect.CanRun`: the browser runs only pending callbacks and hands on messages of open
  sockets only. `Reconnect.EverySocketHasItsOwnTicket` alone also assumes that the ticket endpoint
  does not hand out a value twice.
- `Services.TimingService.RowLocked`: while an ETA change holds the lock on its row nobody else
  writes that row.

## Where code and comments differ, and one gap

The model follows the code.

- `apps/api/prisma/schema.prisma:202-208` says `draftExpiresAt` is null once a visit is confirmed.
  `confirm` never clears it, and neither does anything else (`RowHistory.ExpiryIsNeverCleared`).
- `apps/api/src/visits/visits.service.ts:34-44` promises that every repeated confirm returns the
  confirmed state. Once the kitchen has started, a repeat is refused with `not_draft`
  (`Identity.RepeatedConfirmIff`, `Identity.LateRepeatIsRefused`).
- `apps/api/src/kitchen/kitchen.service.ts:149-153` and `:161-164` describe the allergy check and
  the write as one atomic UPDATE that pins the acknowledgment. They are a read, and then a write
  conditional on the status alone (`AllergyGate.WithoutTheRelyAFlagSlipsOut`).
- `apps/api/src/kitchen/kitchen.service.ts:198-205` says flags cannot change while the kitchen
  holds the ticket. No intake tool looks at the visit's status.
- `apps/restaurant/src/lib/dashboard-events.ts:63-79` drops `visit.food_out` unread, so a client
  that was in step with the server no longer is (`Dashboard.FoodOutLeavesTheClientBehind`).

## Model

| member | source | states |
|---|---|---|
| Services.VisitsService.Confirm | apps/api/src/visits/visits.service.ts:45-166 | whatever other requests do between its pre-read, its transaction and its re-read, confirm's rows and answer are those of a run of the protocol |
| Services.VisitsService.CheckDraft | apps/api/src/visits/visits.service.ts:46-95 | the pre-read's checks decide, in the source's order, between an answer and the table id to claim |
| Services.VisitsService.Book | apps/api/src/visits/visits.service.ts:98-137 | the statements of the transaction, with their rollback, amount to one atomic step: all of its writes and the audit event, or none |
| Services.TableReassignmentService.Reassign | apps/api/src/dashboard/table-reassignment.service.ts:33-85 | reassign is a run of the protocol under every interleaving |
| Services.TableReassignmentService.CheckVisit | apps/api/src/dashboard/table-reassignment.service.ts:34-48 | only an active visit at another table goes on, with the table it was read at |
| Services.TableReassignmentService.MoveTable | apps/api/src/dashboard/table-reassignment.service.ts:51-68 | claim, move and release with rollback amount to one atomic step |
| Services.KitchenService.MarkFoodOut | apps/api/src/kitchen/kitchen.service.ts:155-192 | the gate's read, the conditional write and the explaining read are separate steps of a run, with any actions of others between them |
| Services.KitchenService.FoodOutGate | apps/api/src/kitchen/kitchen.service.ts:207-223 | the gate passes exactly a visit that exists and has no flag or an acknowledgment |
| Services.KitchenService.SendOut | apps/api/src/kitchen/kitchen.service.ts:160-187 | the write needs kitchen_started and brings its event with it |
| Services.KitchenService.AcknowledgeAllergies | apps/api/src/kitchen/kitchen.service.ts:113-143 | read, then unique insert; who loses the race reports the row that is there |
| Services.TimingService.AcceptKitchenStart | apps/api/src/timing/timing.service.ts:197-227 | accept is a run of the protocol under every interleaving |
| Services.TimingService.StartKitchen | apps/api/src/timing/timing.service.ts:199-222 | the write needs confirmed and brings its event with it |
| Services.TimingService.Recompute | apps/api/src/timing/timing.service.ts:60-68 | a recompute is a read step and a write step of a run, with any actions of others in between; if it is applied, the row holds its targets and they suit every line of the order it read |
| Services.TimingService.ReadTargets | apps/api/src/timing/timing.service.ts:109-157 | which visits get targets, and the reason code of the others |
| Services.TimingService.WriteTargets | apps/api/src/timing/timing.service.ts:167-187 | the targets are written only while the visit is confirmed; the answer reports the start target its earlier read returned |
| Services.TimingService.RecomputeForEtaChange | apps/api/src/timing/timing.service.ts:81-101 | claim, read under the lock, commit, with others running before the read and again before the commit, is the protocol's run, where the claim is made at the commit; if it is applied, the row holds the new ETA and targets that suit, for it, every line of the order as read |
| Services.TimingService.WriteEta | apps/api/src/timing/timing.service.ts:87-100 | new ETA, then the targets as read, are one step; without targets the ETA is still written |
| Services.IntakeTools.ProposeTable | apps/api/src/intake/tools/tool-handlers.ts:196-208 | a read that the table is free, later a write that checks nothing |
| Services.IntakeTools.AddOrderItem | apps/api/src/intake/tools/tool-handlers.ts:120-154 | the dish is looked up in one step and the line inserted in another |
| Services.IntakeTools.UpdateOrderItem | apps/api/src/intake/tools/tool-handlers.ts:165-183 | changes the given fields of one line of this visit, or nothing |
| Services.IntakeTools.RemoveOrderItem | apps/api/src/intake/tools/tool-handlers.ts:187-192 | removes one line of this visit, or nothing |
| Answers.BookingsWereAvailable | apps/api/src/visits/visits.service.ts:83-137 | over any run, a confirm that goes on to its claim or answers alreadyConfirmed: false found, at its own read step, a complete draft the customer may take, every line of which was on the menu and available |
| Answers.ConfirmReadIff | apps/api/src/visits/visits.service.ts:46-95 | the pre-read goes on exactly for such a draft, with its table; each of the seven refusals has its own exact cause |
| Answers.ConfirmNamesTheLinesIff | apps/api/src/visits/visits.service.ts:84-95 | items_unavailable names exactly the lines whose dish is off the menu, another restaurant's, or unavailable |
| Answers.ConfirmCommitIff | apps/api/src/visits/visits.service.ts:98-137 | the claim succeeds exactly for a draft and a free table; every written field and the event, and otherwise nothing |
| Answers.ConfirmRereadIff | apps/api/src/visits/visits.service.ts:150-160 | after a lost claim: repeated success exactly for the customer on a confirmed row |
| Answers.ReassignReadIff | apps/api/src/dashboard/table-reassignment.service.ts:34-48 | the exact cause of each answer of the read, with the remembered table |
| Answers.ReassignCommitIff | apps/api/src/dashboard/table-reassignment.service.ts:51-68 | table_taken, stale_update and success under exact conditions, and every table afterwards |
| Answers.AcceptIff | apps/api/src/timing/timing.service.ts:199-222 | starts the kitchen exactly for a confirmed visit, with its event |
| Answers.AcceptRereadIff | apps/api/src/timing/timing.service.ts:204-209 | which statuses count as already accepted, and which refuse |
| Answers.ServeGateIff | apps/api/src/kitchen/kitchen.service.ts:207-223 | food may go out exactly if the flags are acknowledged or no line has one |
| Answers.ServeClaimIff | apps/api/src/kitchen/kitchen.service.ts:160-187 | the write happens exactly for a visit being cooked, with its event |
| Answers.ServeRereadIff | apps/api/src/kitchen/kitchen.service.ts:169-174 | already served exactly in food_out and completed |
| Answers.AcknowledgeReadIff | apps/api/src/kitchen/kitchen.service.ts:115-120 | an existing acknowledgment is reported with its own time |
| Answers.AcknowledgeInsertIff | apps/api/src/kitchen/kitchen.service.ts:122-143 | the first row wins and is kept; a later insert writes nothing and reports it |
| Answers.RecomputeReadIff | apps/api/src/timing/timing.service.ts:109-157 | exactly which visits get targets and which get each rejection; the targets suit every line of the order |
| Answers.RecomputeWriteIff | apps/api/src/timing/timing.service.ts:169-187 | written exactly while confirmed: both targets and nothing else of the row but its stamp |
| Answers.EtaReadIff | apps/api/src/timing/timing.service.ts:103-157 | targets exactly for an order that can be timed, and they suit it for the new ETA |
| Answers.EtaCommitIff | apps/api/src/timing/timing.service.ts:87-100 | the claim needs confirmed and the caller's stamp; then the ETA is written, with the targets if there are any |
| Answers.EtaRereadIff | apps/api/src/timing/timing.service.ts:92-98 | stale_update exactly if the visit is still confirmed |
| Answers.ProposeIff | apps/api/src/intake/tools/tool-handlers.ts:196-208 | the read asks for a free table of the restaurant; the write moves whatever visit it finds |
| Answers.SetPartyWrites | apps/api/src/intake/tools/tool-handlers.ts:95-109 | given fields are written, all others stay |
| Answers.AddItemIff | apps/api/src/intake/tools/tool-handlers.ts:120-154 | exactly available dishes are added, at the end of the order |
| Answers.UpdateItemIff | apps/api/src/intake/tools/tool-handlers.ts:165-183 | given fields of that line are written; its other fields and all other lines stay |
| Answers.RemoveItemIff | apps/api/src/intake/tools/tool-handlers.ts:187-192 | that line goes, the others stay in order |
| Answers.RefreshWrites | apps/api/src/intake/intake.service.ts:152-158 | a turn moves the expiry and nothing else |
| Answers.OpenDraftOpens | apps/api/src/intake/intake.service.ts:31-44 | a new visit is an empty draft with an expiry |
| OrderTiming.TargetsExistIff | apps/api/src/timing/timing.service.ts:117-157 | an order has targets if and only if it has a line, every line's dish is on the menu with a positive prep time, and both buffers are stored and not negative |
| OrderTiming.TargetsSuitTheOrder | apps/api/src/timing/timing-engine.ts:61-82 | started then, every line of the order is ready a prep buffer before the ETA and some line only just; at food-out every line is an expo buffer past ready and some line only just; exact in whole milliseconds, to one millisecond otherwise |
| OrderTiming.SuitedTargetsAreUnique | apps/api/src/timing/timing-engine.ts:61-82 | in whole milliseconds no other pair of targets does that |
| OrderTiming.RowTargetsSuitTheOrderRead | apps/api/src/timing/timing.service.ts:109-173 | over any run the targets on a row suit, line by line, the order as their writer read it |
| RowLocks.CommittedRowsMoveByWholeBatches | apps/api/src/visits/visits.service.ts:98-137 | for any interleaved statements of any number of transactions: only a commit moves the committed rows, and it moves them as the whole batch run at once would |
| RowLocks.ConfirmCommitIsItsBatch | apps/api/src/visits/visits.service.ts:102-123 | the protocol's confirm step succeeds exactly when its three updates, run at once, all match, and leaves the same rows |
| RowLocks.ConfirmTransactionIsOneStep | apps/api/src/visits/visits.service.ts:98-137 | a confirm that commits statement by statement is one step of the protocol |
| RowLocks.ReassignCommitIsItsBatch | apps/api/src/dashboard/table-reassignment.service.ts:51-68 | the same for reassign, with or without its release |
| RowLocks.ReassignTransactionIsOneStep | apps/api/src/dashboard/table-reassignment.service.ts:51-68 | a reassign that commits is one step of the protocol; if its release matched nothing, an old table that became held since stays held |
| RowLocks.EtaTransactionIsOneStep | apps/api/src/timing/timing.service.ts:87-100 | an ETA change that commits statement by statement is one step of the protocol, for any targets its read returned |
| RowLocks.EtaTargetsCannotMiss | apps/api/src/timing/timing.service.ts:169-173 | under the claimed row lock the second update always matches |
| Releases.UnmatchedReleaseKeepsCount | apps/api/src/dashboard/table-reassignment.service.ts:66-67 | whatever the release met, the commit leaves no restaurant with more booked visits than held tables |
| Releases.ReleaseAlwaysMatches | apps/api/src/dashboard/table-reassignment.service.ts:59-67 | where booked visits and held tables match, the release cannot miss |
| RowHistory.OnlyOwnRow | apps/api/src/visits/visits.service.ts:102-123 | a transaction touches no visit row but its own, and moves that row along one lifecycle edge at most, erasing nothing |
| RowHistory.StepIsRowMove | apps/api/src/timing/timing.service.ts:169-202 | targets change only while confirmed; the customer changes only when a draft is confirmed |
| RowHistory.CannotUncookFood | apps/api/src/timing/timing.service.ts:109-202 | over any run a visit that left confirmed keeps both targets and never returns, stale recomputes included |
| RowHistory.RunKeepsFields | apps/api/src/intake/tools/tool-handlers.ts:95-109 | over any run a field once set is never null again, and no visit returns to draft |
| RowHistory.ExpiryIsNeverCleared | apps/api/prisma/schema.prisma:202-208 | no run ever clears the expiry of a visit, in any status |
| Identity.RunKeepsBound | apps/api/src/visits/visits.service.ts:46-106 | the identity check made on the snapshot is still valid whenever the claim succeeds |
| Identity.CustomerIsPermanent | apps/api/src/visits/visits.service.ts:61-106 | once a visit has a customer no run gives it another |
| Identity.ConfirmSuccessesAgree | apps/api/src/visits/visits.service.ts:46-160 | all confirms of a visit that ever report success name the customer on its row |
| Identity.OneFreshConfirm | apps/api/src/visits/visits.service.ts:98-148 | at most one confirm of a visit ever answers alreadyConfirmed: false |
| Identity.RepeatedConfirmIff | apps/api/src/visits/visits.service.ts:34-160 | after a booking every further step of every confirm of the visit, late or racing, changes nothing; it reports the booking if and only if it reads, for the bound customer, while the visit is still confirmed |
| Identity.LateRepeatIsRefused | apps/api/src/visits/visits.service.ts:53-59 | a concrete run in which the repeat is refused |
| Identity.StrangersAreRefused | apps/api/src/visits/visits.service.ts:53-160 | another customer's confirm that the booking overtook, or that comes later, is only ever answered not-found or not_draft |
| Completeness.TaskStepKeepsTables | apps/api/src/dashboard/table-reassignment.service.ts:53-67 | no request creates, deletes, renames or moves a table between restaurants |
| Completeness.StepKeepsComplete | apps/api/src/visits/visits.service.ts:73-123 | completeness of the booked rows and of every pending snapshot is kept by every step |
| Completeness.BookedVisitsAreComplete | apps/api/src/visits/visits.service.ts:185-205 | in every reachable state each visit past draft has a party size, an ETA, both time stamps and a table of its own restaurant |
| AuditLog.TaskStepLogsItsEdge | apps/api/src/visits/visits.service.ts:102-134 | a step appends exactly the event of the status it wrote, with its actor, or neither |
| AuditLog.StatusIsTheReplay | apps/api/src/kitchen/kitchen.service.ts:160-187 | in every reachable state a visit's status is the replay of its log, the log is a prefix of confirmed, kitchen_started, food_out, and the confirming actor is the customer on the row |
| Exclusivity.ConfirmKeepsExclusiveIff | apps/api/src/visits/visits.service.ts:102-123 | a confirm keeps booked visits and held tables matched if and only if the row still names the table of the snapshot |
| Exclusivity.ReassignKeepsExclusive | apps/api/src/dashboard/table-reassignment.service.ts:51-68 | a reassignment always keeps the match |
| Exclusivity.ProposalKeepsExclusiveIff | apps/api/src/intake/tools/tool-handlers.ts:204-206 | a proposal keeps the match if and only if the visit is not booked or already sits there |
| Exclusivity.StepKeepsExclusiveIff | apps/api/src/visits/visits.service.ts:98-137 | a step breaks the match if and only if it is a confirm that wins with a table its row no longer names, or a proposal that moves a booked visit |
| Exclusivity.StepKeepsExclusive | apps/api/src/visits/visits.service.ts:98-137 | every step that respects ProposalsStandBack keeps the match and the freshness of snapshots |
| Exclusivity.TablesAreExclusive | apps/api/src/visits/visits.service.ts:98-137 | over every such run, with any number of stale confirms and reassignments, booked visits and held tables match one to one |
| TableCounts.HeldTablesNeverFewer | apps/api/src/dashboard/table-reassignment.service.ts:51-68 | over every run at all, a restaurant has no more booked visits than held tables |
| TableCounts.BookedAndHeldBalance | apps/api/src/visits/visits.service.ts:98-137 | the one-to-one match, counted per restaurant: equal numbers |
| TableCounts.WithoutTheRelyTwoBookingsShareATable | apps/api/src/visits/visits.service.ts:114-117 | a concrete run, from a matched state, in which a proposal between pre-read and commit puts two bookings on one table |
| AllergyGate.AcknowledgmentsStay | apps/api/src/kitchen/kitchen.service.ts:122-135 | an acknowledgment row is never changed or removed |
| AllergyGate.ServedThroughTheGate | apps/api/src/kitchen/kitchen.service.ts:155-167 | the only way to food_out is a food-out request past its gate |
| AllergyGate.GateKeptIff | apps/api/src/kitchen/kitchen.service.ts:194-223 | a step keeps the gate's invariant if and only if it respects FlagsStandStill |
| AllergyGate.FoodOutIsCleared | apps/api/src/kitchen/kitchen.service.ts:145-167 | over every run that respects it, a visit whose food is out has no flag or has an acknowledgment |
| AllergyGate.WithoutTheRelyAFlagSlipsOut | apps/api/src/kitchen/kitchen.service.ts:157-167 | a concrete run in which a flag written in the window goes out unacknowledged |
| EtaToken.RunSameOrNewer | apps/api/prisma/schema.prisma:213 | over a run with growing stamps the row is unwritten or carries a later stamp |
| EtaToken.TokenIsSpentOnce | apps/api/src/timing/timing.service.ts:70-91 | of all ETA changes carrying one token at most one ever writes |
| EtaToken.TokenStillMatchesIff | apps/api/src/timing/timing.service.ts:88-91 | right after a write the same token matches again if and only if the write was stamped with the token itself |
| EtaToken.TokenNamesTheRow | apps/api/src/timing/timing.service.ts:70-80 | the writers form a chain: each replaces exactly the row version its caller saw |
| EtaToken.LostEtaClaimWritesNothing | apps/api/src/timing/timing.service.ts:92-98 | stale_update and visit_not_confirmed from a lost claim leave every row alone |
| TargetHistory.PendingWasRead | apps/api/src/timing/timing.service.ts:109-157 | what a recompute or ETA change carries to its write is what its own read step, at a point of the run, left |
| TargetHistory.TargetsAreTheLastWriters | apps/api/src/timing/timing.service.ts:109-173 | over any run the targets on a row are those its last writer worked out, for its own ETA, from the order, dishes and buffers at its own read |
| EtaToken.EtaChangeCommitsItsOwnTargets | apps/api/src/timing/timing.service.ts:87-100 | an ETA change that claims the row commits its own ETA with the targets of its own read step; with visit_not_ready the ETA is committed and the targets stay |
| EtaToken.StaleRecomputeIff | apps/api/src/timing/timing.service.ts:109-173 | with the order unchanged, the targets a plain recompute writes are those of the row's ETA if and only if that is the ETA it read, or truncation at the epoch hides the difference |
| EtaToken.LateRecomputeLeavesOldTargets | apps/api/src/timing/timing.service.ts:109-173 | a concrete run that ends with the later ETA and the earlier target |
| Deployment.EveryReachableState | apps/api/src/visits/visits.service.ts:45-166 | from an empty deployment, with no assumption: completeness, audit trail, customer binding, enough held tables and an expiry on every visit in every reachable state |
| Deployment.EveryQuietlyReachableState | apps/api/src/visits/visits.service.ts:45-166 | with both intake assumptions, every booked visit alone holds its table, its status is the last logged one, and food that is out has an acknowledgment or not one flag on any line |
| Tenancy.ViewShows | apps/api/prisma/migrations/20260914062421_cp2_staff_customer_auth/migration.sql:127-150 | a restaurant sees, table by table, its own rows whole and no other |
| Tenancy.ViewShowsEvents | apps/api/prisma/migrations/20260914062421_cp2_staff_customer_auth/migration.sql:127-150 | and its own audit entries, each as often as it was written |
| Tenancy.TaskStepConfined | apps/api/src/prisma/tenant-prisma.service.ts:35-40 | a transaction of r does to r's rows what it would do if no other rows existed, and nothing to the rest |
| Tenancy.RunCommutesWithView | apps/api/prisma/migrations/20260914062421_cp2_staff_customer_auth/migration.sql:127-150 | a run of r's requests on the whole deployment is, seen by r, the same run on r's rows alone |
| Tenancy.SameTenantSameAnswers | apps/api/src/prisma/tenant-prisma.service.ts:35-40 | deployments that agree on r give all of r's requests the same answers and still agree on r |
| Tenancy.OtherTenantsUntouched | apps/api/prisma/migrations/20260914062421_cp2_staff_customer_auth/migration.sql:127-150 | a run of r's requests leaves the rows and requests of every other restaurant as they were |
| TimingEngine.Longest | apps/api/src/timing/timing-engine.ts:73 | one of the prep times, and none is longer |
| TimingEngine.SlowestDishDecides | apps/api/src/timing/timing-engine.ts:54-60 | a start suits every dish if and only if it suits the slowest |
| TimingEngine.KitchenStartIsLatestIff | apps/api/src/timing/timing-engine.ts:73-82 | the kitchen start is the latest instant that suits every dish, if and only if the exact value is not before the epoch or is a whole millisecond |
| TimingEngine.BeforeTheEpochStartsTooLate | apps/api/src/timing/timing-engine.ts:80-82 | a concrete order for which it is not |
| TimingEngine.PermutationInvariant | apps/api/src/timing/timing-engine.ts:61-78 | the order of the dishes makes no difference, rejected inputs included |
| TimingEngine.MoreDishesStartEarlier | apps/api/src/timing/timing-engine.ts:73-74 | added dishes only move the kitchen start earlier |
| TimingEngine.FoodOutIgnoresTheOrderIff | apps/api/src/timing/timing-engine.ts:73-82 | for any order that is exact if and only if the plain sum is whole and truncating the start loses nothing that stays lost, and true within two milliseconds always |
| TimingEngine.FoodOutIgnoresTheOrder | apps/api/src/timing/timing-engine.ts:73-82 | in whole milliseconds food-out is the ETA less the prep buffer plus the expo buffer, whatever is ordered |
| TimingEngine.FoodOutLosesAMillisecond | apps/api/src/timing/timing-engine.ts:80-82 | a concrete order after the epoch for which it is a millisecond off |
| TimingEngine.ShiftEtaIff | apps/api/src/timing/timing-engine.ts:73-82 | moving the ETA by d moves both targets by exactly d if and only if each of the two sums is a whole millisecond or stays on its side of the epoch |
| TimingEngine.ShiftAcrossTheEpochLosesAMillisecond | apps/api/src/timing/timing-engine.ts:80-82 | a concrete order and shift for which they do not |
| TimingEngine.ShiftEta | apps/api/src/timing/timing-engine.ts:73-82 | in whole milliseconds moving the ETA by d always moves both targets by exactly d |
| TimingEngine.ShiftEtaAfterTheEpoch | apps/api/src/timing/timing-engine.ts:73-82 | so it does for later ETAs whenever the kitchen starts after the epoch |
| TimingEngine.SameTargetsIff | apps/api/src/timing/timing-engine.ts:73-82 | two ETAs give an order the same targets if and only if they are equal or one millisecond apart across the epoch |
| KitchenQueue.ListQueue | apps/api/src/kitchen/kitchen.service.ts:64-102 | the queue is exactly the due tickets, each once, earliest kitchen start first |
| KitchenQueue.OnQueueIff | apps/api/src/kitchen/kitchen.service.ts:67-78 | a visit is on the queue if and only if it is confirmed or being cooked, has a table, and its kitchen start has come |
| KitchenQueue.TicketShowsItsRow | apps/api/src/kitchen/kitchen.service.ts:80-101 | each field of a ticket, from the visit, table and acknowledgment rows |
| KitchenQueue.TicketShowsItsLines | apps/api/src/kitchen/kitchen.service.ts:88-95 | each field of each line with the name and prep time of its dish, and no line missing |
| KitchenQueue.TicketShowsEveryFlag | apps/api/src/kitchen/kitchen.service.ts:96-99 | a ticket shows every flag of every line, each once |
| KitchenQueue.QueueIgnoresAcknowledgments | apps/api/src/kitchen/kitchen.service.ts:96-100 | other acknowledgments change nothing in the queue but allergyAcknowledgedAt |
| KitchenQueue.AcceptedTicketStays | apps/api/src/kitchen/kitchen.service.ts:67-78 | after any run an accepted ticket that was due is still due under the same target, unless its food is out |
| KitchenQueue.DueTicketLeavesOnlyByRetiming | apps/api/src/timing/timing.service.ts:169-173 | a due confirmed ticket leaves the queue in one step only by a recompute or ETA change past now |
| KitchenQueue.MissingTicketWasRetimed | apps/api/src/kitchen/kitchen.service.ts:67-78 | over runs: a due confirmed ticket that is off the queue, its food not out, was retimed past now by some step of the run |
| Dashboard.ListInboundVisits | apps/api/src/dashboard/dashboard.service.ts:14-41 | the list is exactly the booked visits of the restaurant, each once, soonest arrival first |
| Dashboard.OnDashboardIff | apps/api/src/dashboard/dashboard.service.ts:15-21 | a visit is listed if and only if it has a table and is neither a draft, completed, cancelled nor a no-show |
| Dashboard.DashboardShowsItsRow | apps/api/src/dashboard/dashboard.service.ts:23-40 | each field of a listed visit, from the visit and table rows |
| Dashboard.DashboardShowsItsLines | apps/api/src/dashboard/dashboard.service.ts:29-37 | each field of each line with the name of its dish, and no line missing |
| Dashboard.AcceptEventSyncs | apps/restaurant/src/lib/dashboard-events.ts:45-51 | from a synced list the accept event gives the server's new list |
| Dashboard.RecomputeEventSyncs | apps/restaurant/src/lib/dashboard-events.ts:33-43 | so does the event of a plain recompute |
| Dashboard.EtaEventSyncsIff | apps/restaurant/src/lib/dashboard-events.ts:33-43 | the event of an ETA change does if and only if the ETA did not change |
| Dashboard.FoodOutLeavesTheClientBehind | apps/restaurant/src/lib/dashboard-events.ts:63-79 | after food-out a synced client is never synced, for its event is dropped |
| Dashboard.OtherRestaurantsAreFollowed | apps/api/src/realtime/visits.gateway.ts:147-156 | no step of another restaurant is announced here or changes what is shown here |
| Dashboard.SilentStepIff | apps/restaurant/src/lib/dashboard-events.ts:23-61 | after a step that announces nothing the client's list is still the server's if and only if nothing shown has changed |
| Dashboard.SetPartyIsSilentIff | apps/api/src/intake/tools/tool-handlers.ts:95-109 | after an intake edit of a booked visit the client keeps up if and only if party size and ETA stay |
| Dashboard.FoldRefinesTheReadModel | apps/restaurant/src/lib/dashboard-events.ts:23-61 | over any run of accepts, plain recomputes and steps that show nothing, folding the announced events gives exactly the server's list, order included |
| Dashboard.DuplicateChangesNothing | apps/restaurant/src/lib/dashboard-events.ts:23-61 | a message delivered twice is a message delivered once |
| Dashboard.DifferentVisitsCommute | apps/restaurant/src/lib/dashboard-events.ts:23-61 | messages about different visits commute, resyncs included |
| Dashboard.ResyncIff | apps/restaurant/src/lib/dashboard-events.ts:23-61 | null is returned exactly for unknown events, reassignments and visits not in the list |
| Drift.ThresholdMinutes | apps/api/src/notifications/drift-policy.ts:13-24 | the threshold is positive whatever the environment holds |
| Drift.ThresholdIs | apps/api/src/notifications/drift-policy.ts:15-20 | a positive override counts as it stands, anything else is ten minutes |
| Drift.AttemptedIff | apps/api/src/notifications/drift-policy.ts:27-30 | an alert is attempted exactly from the threshold on, early or late, and its minutes are within half a minute of the drift |
| Drift.RoundedWithinHalfAMinute | apps/api/src/notifications/notification.service.ts:123 | the reported minutes are within thirty seconds of the drift; exactly thirty only on one side |
| Drift.RoundingAsymmetry | apps/api/src/notifications/notification.service.ts:123 | opposite drifts are reported as opposites, except on exact half minutes |
| Drift.AlertReportsTheThreshold | apps/api/src/notifications/notification.service.ts:121-129 | with a threshold of n whole minutes an alert is attempted exactly from n minutes on, and reports at least n |
| Drift.ReportsAtLeastIff | apps/api/src/notifications/drift-policy.ts:13-30 | a threshold never reports fewer minutes than itself if and only if it is whole or its fraction is above one half |
| Drift.OneAndAHalfMinutesUnderreports | apps/api/src/notifications/drift-policy.ts:27-30 | a threshold and a drift for which it does |
| DriftAlerts.EtaChangeReportsTheReplacedTarget | apps/api/src/timing/timing.service.ts:165-186 | the previous target an ETA change reports is the one it replaces |
| DriftAlerts.RecomputeReportsWhatItRead | apps/api/src/timing/timing.service.ts:165-186 | a plain recompute reports the start target its own read step returned |
| DriftAlerts.RecomputeReportsTheReplacedTargetIff | apps/api/src/timing/timing.service.ts:165-186 | that is the target it replaces if and only if nobody wrote targets between its read and its write, or the last who did carried the same start |
| DriftAlerts.CrossedRecomputeReportsAnOlderTarget | apps/api/src/timing/timing.service.ts:165-186 | a concrete run of two recomputes in which it is not |
| DriftAlerts.OnlyEtaChangesDrift | apps/api/src/notifications/notification.subscriber.ts:61-70 | a drift is handed on exactly by an ETA change that commits targets over earlier ones, and it is the difference of the two starts |
| DriftAlerts.DriftIsEtaChangeLessLeadChange | apps/api/src/notifications/notification.subscriber.ts:61-70 | over any run the drift is the ETA less the ETA of the last retiming, less the change of longest prep plus buffer between the two reads: exactly in whole milliseconds, within two milliseconds always |
| DriftAlerts.UnchangedLeadDriftsWithTheEtaIff | apps/api/src/notifications/notification.subscriber.ts:61-70 | with the lead unchanged it is the ETA change if and only if the replaced start was a whole millisecond or both lie on one side of the epoch |
| DriftAlerts.OneAlertPerVisit | apps/api/src/notifications/notification.service.ts:115-129 | over any schedule at most one drift alert of a visit is sent |
| DriftAlerts.SentAlertMeasuresTheChange | apps/api/src/notifications/notification.service.ts:115-129 | a drift alert that is sent is the only one of its visit and goes back to an ETA change of the run; its minutes are within half a minute, and two milliseconds, of ETA change less lead change, and reach any threshold that never under-reports |
| Notifications.NotificationService.ClaimThenSend | apps/api/src/notifications/notification.service.ts:49-84 | with any steps of other processes between its statements, and any of them failing, claimThenSend is a schedule of the claim protocol; claimed, sent and recorded leaves sent, a failed send or record with its mark through leaves failed, else the row stays pending; it throws exactly if the insert or the update to failed does |
| Notifications.NextKeepsInv | apps/api/src/notifications/notification.service.ts:60-83 | every step of any process, crashes and failed writes included, keeps the protocol's invariant |
| Notifications.SendsAtMostOnce | apps/api/src/notifications/notification.service.ts:41-84 | over any schedule no (visit, type) is sent twice, only the claimer sends, and sent means delivered |
| Notifications.RowMovesOnce | apps/api/src/notifications/notification.service.ts:70-83 | a claim row is never removed, and its status moves only from pending, in a step of its claimer |
| Notifications.StatusIsWhatTheEventsSay | apps/api/src/notifications/notification.service.ts:60-83 | over any schedule, from the events alone: a row is sent if and only if its claimer delivered and recorded it, failed if and only if its update to failed went through, and pending otherwise |
| Notifications.SendsAreSecondStatements | apps/api/src/notifications/notification.service.ts:70-71 | a process sends if and only if it owns the row and takes its second statement, with that statement's outcome |
| Notifications.ClaimedIff | apps/api/src/notifications/notification.service.ts:60-68 | a key has a row if and only if some insert for it went through |
| Notifications.SettledRowsStay | apps/api/prisma/schema.prisma:335-357 | a row marked sent or failed is final |
| Notifications.FailedAfterDeliveryIff | apps/api/src/notifications/notification.service.ts:70-83 | over any schedule a row marked failed was delivered all the same if and only if its claimer delivered and then failed to record it |
| Notifications.DeliveredYetFailed | apps/api/src/notifications/notification.service.ts:70-83 | a concrete schedule in which that happens |
| Notifications.RunsAreRooted | apps/api/src/notifications/notification.service.ts:49-84 | every process, row and send goes back to an attempt started for its key |
| Tickets.RealtimeTicketService.Mint | apps/api/src/realtime/realtime-ticket.service.ts:28-33 | sweeps the expired, then adds the ticket for twenty seconds |
| Tickets.RealtimeTicketService.Consume | apps/api/src/realtime/realtime-ticket.service.ts:36-42 | answers with the claim up to and including the expiry instant, and removes the ticket either way |
| Tickets.RealtimeTicketService.SweepExpired | apps/api/src/realtime/realtime-ticket.service.ts:44-49 | exactly the expired tickets go |
| Tickets.SweepingIsInvisible | apps/api/src/realtime/realtime-ticket.service.ts:28-49 | every sequence of operations gets the answers of a history that forgets nothing |
| Tickets.TicketSucceedsAtMostOnce | apps/api/src/realtime/realtime-ticket.service.ts:35-42 | of two presentations of a ticket the later gets nothing |
| Tickets.FreshTicketIsHonoured | apps/api/src/realtime/realtime-ticket.service.ts:28-42 | the first presentation within the lifetime succeeds, whatever is minted, swept and presented in between |
| Tickets.PresentationSucceedsIff | apps/api/src/realtime/realtime-ticket.service.ts:28-49 | over any run of the service a presentation gets a claim if and only if the ticket was minted for that claim at most twenty seconds before and nobody presented it yet |
| Gateway.VisitsGateway.HandleConnection | apps/api/src/realtime/visits.gateway.ts:47-69 | who gets in, by raw conditions: origin allowed, ticket in the store up to its expiry instant, fewer than fifty sockets in its room; the close code otherwise; and ticket store and both maps afterwards |
| Gateway.VisitsGateway.HandleDisconnect | apps/api/src/realtime/visits.gateway.ts:71-76 | the socket leaves both maps |
| Gateway.VerdictIff | apps/api/src/realtime/visits.gateway.ts:47-64 | each of 4403, 4401 and 4429 exactly under its own condition, and no other way to be refused |
| Gateway.JoinSeats | apps/api/src/realtime/visits.gateway.ts:66-68 | joining puts the socket in that room and moves nobody else |
| Gateway.LeaveVacates | apps/api/src/realtime/visits.gateway.ts:71-76 | leaving empties the socket's place and no other |
| Gateway.LiveIff | apps/api/src/realtime/visits.gateway.ts:47-76 | over any run a socket is live if and only if it was admitted and has not disconnected since |
| Gateway.FreshTicketGetsIn | apps/api/src/realtime/visits.gateway.ts:47-69 | over runs: a ticket minted at most twenty seconds ago and not presented since puts its socket in its room if fewer than fifty are there |
| Gateway.VisitsGateway.EmitToRestaurant | apps/api/src/realtime/visits.gateway.ts:147-156 | exactly the open sockets of the room are sent to, each once |
| Gateway.NextIsTheService | apps/api/src/realtime/visits.gateway.ts:47-76 | the steps of the realtime runs do to store and rooms what the methods promise |
| Gateway.NextKeepsSound | apps/api/src/realtime/visits.gateway.ts:47-76 | minting, connecting and disconnecting keep the invariant of maps, cap and tickets |
| Gateway.RoomsAreSound | apps/api/src/realtime/visits.gateway.ts:42-76 | in every run the maps are exact inverses, rooms hold at most fifty, and live sockets map one to one to presented tickets minted for their restaurant |
| Gateway.EmitStaysInTheRestaurant | apps/api/src/realtime/visits.gateway.ts:147-156 | whoever is in a room came in with a ticket minted for that restaurant |
| Reconnect.DashboardSocket.Retry | apps/restaurant/src/lib/use-dashboard-socket.ts:61-69 | one timer, with the capped exponential base and its jitter, unless disposed |
| Reconnect.DashboardSocket.Attempt | apps/restaurant/src/lib/use-dashboard-socket.ts:71-84 | disposed: nothing; not configured: stopped; otherwise one ticket request |
| Reconnect.DashboardSocket.OnTicket | apps/restaurant/src/lib/use-dashboard-socket.ts:90-95 | a ticket that arrives after disposal opens no socket |
| Reconnect.DashboardSocket.OnOpen | apps/restaurant/src/lib/use-dashboard-socket.ts:97-104 | an open resets the attempts, unless disposed |
| Reconnect.DashboardSocket.OnMessage | apps/restaurant/src/lib/use-dashboard-socket.ts:106-108 | text reaches the handler, disposed or not |
| Reconnect.DashboardSocket.OnClose | apps/restaurant/src/lib/use-dashboard-socket.ts:110-121 | origin refusal stops, anything else retries, disposal does nothing |
| Reconnect.DashboardSocket.Cleanup | apps/restaurant/src/lib/use-dashboard-socket.ts:129-134 | the known timer is cleared and the known socket closed |
| Reconnect.StoppedIff | apps/restaurant/src/lib/use-dashboard-socket.ts:73-120 | over any run from the mount, the dashboard is stopped if and only if it is not configured or some close before the unmount carried 4403 |
| Reconnect.CloseLeaves | apps/restaurant/src/lib/use-dashboard-socket.ts:110-121 | while mounted every other close code leaves exactly one timer and status reconnecting; 4403 leaves stopped and nothing pending |
| Reconnect.TicketFailureLeaves | apps/restaurant/src/lib/use-dashboard-socket.ts:81-88 | so does a failed ticket request: one timer, reconnecting |
| Reconnect.TimerLeaves | apps/restaurant/src/lib/use-dashboard-socket.ts:68-84 | the timer leaves one ticket request and nothing else; not configured, it stops |
| Reconnect.TicketLeaves | apps/restaurant/src/lib/use-dashboard-socket.ts:90-95 | the ticket opens the one socket and leaves nothing else pending |
| Reconnect.SocketCallbacksLeave | apps/restaurant/src/lib/use-dashboard-socket.ts:97-124 | the open makes the socket live, resets the back-off and has the list fetched again; a failed socket is closed |
| Reconnect.UnmountLeaves | apps/restaurant/src/lib/use-dashboard-socket.ts:129-134 | no timer is left, and every socket is being closed |
| Reconnect.DelayIs | apps/restaurant/src/lib/use-dashboard-socket.ts:63-68 | the delay of the n-th attempt lies between half and the whole of 1, 2, 4, 8, 16 and then 30 seconds |
| Reconnect.NextKeepsInv | apps/restaurant/src/lib/use-dashboard-socket.ts:55-135 | every callback the browser may run keeps one continuation, the known handles and the back-off |
| Reconnect.ExactlyOneContinuation | apps/restaurant/src/lib/use-dashboard-socket.ts:55-135 | in every run exactly one of timer, ticket request and unclosed socket exists until stop or disposal; delays lie in bounds |
| Reconnect.EverySocketHasItsOwnTicket | apps/restaurant/src/lib/use-dashboard-socket.ts:80-95 | the answers are the minted tickets in order, each to its own request; every socket was opened by one of them; if the endpoint does not repeat itself, different sockets carry different tickets |
| Reconnect.BasesNeverDecrease | apps/restaurant/src/lib/use-dashboard-socket.ts:61-66 | between opens the base delay never goes down, from one second to thirty |
| Reconnect.DelayInBounds | apps/restaurant/src/lib/use-dashboard-socket.ts:63-66 | every delay lies between half a second and thirty |
| Reconnect.StoppedIsFinal | apps/restaurant/src/lib/use-dashboard-socket.ts:113-119 | once stopped no callback but the unmount can run |
| Reconnect.DisposedIsFinal | apps/restaurant/src/lib/use-dashboard-socket.ts:106-134 | after disposal no later callback sets a timer, asks for a ticket, opens a socket, hands on a message or changes what is shown |

## Left out

- Controllers, guards, decorators, Next.js routes and React components: they only forward ids.
- JWT, argon2, SMS, speech and dialogue providers: foreign code. A conversation is any sequence of tool calls.
- Message wording: reasons are kept as codes.
- Fields no modelled rule reads: special needs, prices, seat counts, transcripts.
- Double rounding and the range of `Date`: minutes are exact reals, instants unbounded whole milliseconds.
- An unparsable ETA given to `setPartyDetails`: the request is refused before anything is read or written.
- Foreign keys: the dish and the table a row names are taken to exist where the code dereferences them. An insert for a visit that is not there is answered as not found, item ids are distinct, and cascading deletes are not modelled.
- Reads that join several tables: each is one snapshot.
- A transaction made unusable by a constraint error: the unique insert of an acknowledgment is success or conflict.
- Deadlocks, timeouts, redelivery and liveness.
- Statuses nothing writes (table_set, guest_arrived, completed, cancelled, no_show, seated): in the datatypes, with no transition into them.
- When events are emitted relative to the commit: the dashboard and drift results speak of the events of committed steps.
- The order the database picks among equal sort keys: `IsQueue` and `IsInbound` allow any.
- `parseDashboardEvent`, the subprotocol header and `requireEnv`: one-branch checks.
- Which domain event leads to which notification, drift alerts apart, and the booking confirmation's null checks: plain routing.
- The recap of an expired draft and the draft token's grace period: arithmetic on two constants.
- Dashboard.FoldRefinesTheReadModel: confirms, reassignments, ETA changes, food-out and intake or menu edits that change what is shown are outside a followed run. The client fetches the list again on the first two and falls behind on the others, as ResyncIff, EtaEventSyncsIff, FoodOutLeavesTheClientBehind and SilentStepIff say.
- RowLocks.ConfirmTransactionIsOneStep: the audit event is an insert that conflicts with nothing and is not part of the locked rows.
