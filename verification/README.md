# Coffee supply chain: custody, ledger, sessions, caches, reports and tenancy

A Dafny model of the server that tracks coffee from a farmer's delivery to a sale. Coffee moves
through batches, processing records, warehouse shelves, ownership transfers and lots; each event is
appended to a per-batch hash chain; callers are confined to one cooperative by filters in the
handlers and by row-level security policies in the database. The proofs are about every reachable
state and every interleaving, not about single calls.

How the files fit together:

* **Custody** (`Custody*.dfy`, `SoldReports.dfy`). `CustodyModel` holds the tables and each
  transaction body as a function from state to state; `CustodyInvariant`, `CustodyKeeps` and
  `CustodyLots` prove what each body keeps, and `CustodyEffects` exactly when it goes through and the
  tables it leaves. `CustodySystem` makes it concurrent: a request reads the tables first (`Begin`)
  and is turned into a task that carries what it saw; its transaction (`Finish`) runs after any number
  of other steps. `CustodyRequests` says exactly which requests are accepted. `CustodyRuns` and
  `SoldReports` draw the consequences over whole runs, and `CustodyWitness` builds, request by request,
  reachable states: those in which a tempting conclusion fails, and a batch's way to export. `CustodyStore` is the imperative side: the services' statements on
  a mutable table store, proved against the functions. `StoreProtocol` takes the store route apart
  into its statements, and `ShelfLoads` compares the load a session sums with the load there is.
* **Ledger** (`Ledger*.dfy`). The hashed text and its injectivity, the verification loop, what the
  last hash commits to, the reading order, the backfill, and the append protocol statement by
  statement under the advisory lock and the immutability trigger.
* **Sessions** (`Sessions.dfy` over serial histories, `SessionRaces.dfy` with each handler's read and
  update apart), **caches** (`TtlCache.dfy`, `Permissions.dfy`), **reports**
  (`ActivityFeed.dfy`, `FarmerStatement.dfy`), **codes** (`EntityCodes.dfy`, `CodeCounters.dfy`).
* **Tenancy** (`RowVisibility.dfy`, `TenantIsolation.dfy`, `TenantWrites.dfy`, `TenantRuns.dfy`).
  The policies in three-valued logic against the handlers' filters, then reads and writes end to end.
* **Custody under the policies** (`Policy*.dfy`). The same machine with every request, of SUPER_ADMINs,
  clerks and farmers, reading and writing through the policies and its rows checked on the way back:
  what every run keeps, the exact conditions of the two results that need whole tables, and reachable
  states that fail them.
* `Common`, `Roles`, `Seqs`, `Sums`, `Sorting`: options and results, lists of ids, SQL sums, stable sorting.

Two deployments are modelled. `src/repositories/prisma.client.ts:18-24` connects as the restricted role
only if its address is configured; otherwise it connects as the superuser that runs the migrations,
whom policies do not bind. `CustodySystem`, `CustodyRuns`, `CustodyWitness` and `SoldReports` are about the second: requests
see whole tables. `PolicyModel`, `PolicySystem`, `PolicyRuns`, `PolicyLots` and `PolicyWitness` are about
the first.

What is assumed, and said so in the contracts: the bodies run by `withTransaction` are atomic
(except where `StoreProtocol`, `LedgerProtocol`, `CodeCounters` and `SessionRaces` take them apart); a new row's id
is new; weights are integer hundredths, as the columns are; `Platform` supplies SHA-256, the ISO form of an instant and the lock key.
SHA-256 is not assumed free of collisions: theorems that need it exhibit the colliding texts.

Where the code disagrees with what its comments say, the model follows the code:

* `src/modules/batchGroups/batchGroup.routes.ts:287-288` says the transfers confirmed are exactly
  those the lot's sale opened. Any PENDING transfer of a member is taken; a lot can be marked SOLD
  with a member unsold (`CustodyWitness.LotSoldWithoutEveryMember`, exact condition in
  `CustodyLots.LotSoldMeansMembersSold`).
* `src/modules/reports/dashboard.service.ts:138-147` says the sold figure and the movement chart
  cannot differ. They differ exactly when a batch of positive weight was sold twice, which can
  happen (`SoldReports.KpiAgainstChart`, `SoldReports.SecondSaleGoesThrough`).
* `src/modules/reports/dashboard.service.ts:181-184` says that capping each stream keeps a busy one
  from crowding out the others. It does not: exactly when, and at a concrete input, in
  `ActivityFeed.BusyStreamCrowdsOut` and `ActivityFeed.TwoDeliveriesHideABatch`.
* `prisma/migrations/20260808090000_rls_predicates_never_null/migration.sql:8-13` presents the change
  as keeping outcomes. A session with a cooperative and no role sees more afterwards
  (`RowVisibility.VersionsAgree`); no session the application opens is of that kind.
* `src/modules/permissions/permission.service.ts:50-53`: invalidating the cache can be undone by a
  load already in flight (`TtlCache.InvalidationIsEffective`, `TtlCache.ThreatArises`).
* `src/modules/warehouses/warehouse.routes.ts:157-161` says the lock protects the limit. Under the
  policies it protects the stock of the warehouse's own cooperative (`PolicyRuns.SiteRunKeeps`); a clerk's
  check does not count coffee a SUPER_ADMIN put there for another one (`PolicyWitness.ClerkOverfills`,
  exact condition in `PolicyRuns.ClerkCheckIsSound`).
* `src/modules/batchGroups/batchGroup.routes.ts:188-191` and `268-270` say that a sale opens and confirms a
  transfer for every member. Under the policies it does so for the members the caller sees
  (`PolicyWitness.ClerkSellsInPart`, exact conditions in `PolicyLots.SellThroughView` and
  `PolicyLots.ConfirmThroughView`).
* `src/modules/auth/auth.service.ts:267-275` compares passwords outside login and outside the lockout
  (`Sessions.BoundIsForLogins`).

## Model

| member | source | states |
|---|---|---|
| CustodySystem.RunKeeps | src/modules/warehouses/warehouse.routes.ts:138-208 | Where requests see whole tables, in every reachable state, with any number of them in flight on stale reads: references are intact, shelved coffee is IN_STORAGE, on one shelf, within its batch's weight and within capacity, batch totals equal assigned deliveries, every status is backed by its records, and SOLD or EXPORTED means a confirmed transfer |
| CustodySystem.StepKeeps | src/modules/coffeeBatches/coffeeBatch.service.ts:130-178 | Any single step, of any handler's first phase, any transaction or an operator's soft delete, keeps that invariant, moves each status by at most one step of the table, and only lets tables grow |
| CustodySystem.FinishKeeps | src/modules/batchGroups/batchGroup.routes.ts:298-305 | Each of the fifteen transaction bodies does so, acting on values that are stale but still safe |
| CustodySystem.BeginSafe | src/modules/processing/processing.routes.ts:36-67 | What an accepted request carries is safe when read |
| CustodySystem.SafetyLasts | src/modules/warehouses/warehouse.routes.ts:138-152 | and stays safe however the tables grow meanwhile |
| CustodyRequests.AcceptedExactly | src/modules/batchGroups/batchGroup.routes.ts:104-296 | Each of the fifteen requests is accepted exactly under conditions on the tables, written out: for a sale an open lot of the caller with members, every one IN_STORAGE or IN_TRANSIT and none with a PENDING transfer; for a new lot two or more distinct live batches of the caller, none SOLD, EXPORTED or REJECTED. What it carries into its transaction is what it read |
| CustodyRequests.RefusedWith | src/middleware/scopeHelpers.ts:41-49 | Refusals come in order: malformed, not found, of another cooperative, and bad request for the rest |
| CustodyInvariant.TransitionKeeps | src/modules/coffeeBatches/coffeeBatch.service.ts:130-178 | The one place that writes a status keeps the invariant, closing the open row when a batch leaves the shelf |
| CustodyEffects.TransitionExactly | src/modules/coffeeBatches/coffeeBatch.service.ts:13-178 | A status change goes through exactly for a live batch that has the status already or may take one of the twelve arrows of the lifecycle, into IN_PROCESSING and PROCESSED only with a processing record; the batch then has the status, its open rows are closed if it left the shelf, and nothing else changed; otherwise not-found or bad request |
| CustodyEffects.UpdateStatusExactly | src/modules/coffeeBatches/coffeeBatch.service.ts:180-202 | The status endpoint accepts exactly those changes other than to SOLD and IN_STORAGE, with the same effect, EXPORTED from SOLD included |
| CustodyKeeps.AssignAccepted | src/modules/deliveries/delivery.service.ts:95-114 | An assignment succeeds exactly when the batch exists, no id is repeated and every delivery exists, is unassigned and is of the batch's cooperative; the new state then attaches exactly those and adds their weight |
| CustodyKeeps.AssignKeeps | src/modules/deliveries/delivery.service.ts:108-114 | Assignment conserves weight and keeps the rest of the invariant |
| CustodyEffects.AssignExactly | src/modules/deliveries/delivery.service.ts:95-114 | The same delivery by delivery: those named are in the batch, no other delivery or batch changed, and the batch is heavier by their weights |
| CustodyKeeps.StoreKeeps | src/modules/warehouses/warehouse.routes.ts:155-208 | Storing keeps the invariant although capacity and batch total were read before the transaction |
| CustodyEffects.StoreExactly | src/modules/warehouses/warehouse.routes.ts:163-207 | A store goes through exactly when the batch has no open row, the weight is within its total and the space left, and the batch is live and PROCESSED, IN_TRANSIT or IN_STORAGE; it adds one open row, makes the batch IN_STORAGE and changes nothing else |
| CustodyKeeps.ProcessKeeps | src/modules/processing/processing.routes.ts:57-67 | A processing record, with the transition decided on a stale status, keeps it |
| CustodyEffects.ProcessExactly | src/modules/processing/processing.routes.ts:57-67 | The record is added; a batch read as REGISTERED becomes IN_PROCESSING, failing if it has moved on past that; read with any other status no batch changes |
| CustodyKeeps.RemoveKeeps | src/modules/warehouses/warehouse.routes.ts:261-264 | Checking out keeps it, even when the row was closed since it was read |
| CustodyEffects.RemoveExactly | src/modules/warehouses/warehouse.routes.ts:261-264 | A check-out stamps its row with the instant, so that it is open no longer, and changes no other column, row or table |
| CustodyEffects.RemoveFrees | src/modules/warehouses/warehouse.routes.ts:189-194 | which lowers the load of its warehouse by its weight, if it was open, and leaves its batch on no shelf |
| CustodyEffects.RestoredAfterRemoval | src/modules/warehouses/warehouse.routes.ts:155-208 | so that the batch may be stored again wherever there is room |
| CustodyKeeps.OpenTransfersKeeps | src/modules/batchGroups/batchGroup.routes.ts:241-249 | Opening transfers keeps it |
| CustodyEffects.OpenExactly | src/modules/batchGroups/batchGroup.routes.ts:241-249 | One PENDING row for each member, and nothing else |
| CustodyKeeps.ConfirmKeeps | src/modules/ownershipTransfers/ownershipTransfer.service.ts:34-66 | Confirming one transfer keeps it, a second one on a SOLD batch included |
| CustodyEffects.ConfirmExactly | src/modules/ownershipTransfers/ownershipTransfer.service.ts:34-66 | It goes through exactly for a PENDING transfer of a live batch in IN_STORAGE, IN_TRANSIT or SOLD; the transfer is stamped CONFIRMED, the batch SOLD, its open rows closed, and nothing else changed |
| CustodyEffects.CreationsExactly | src/modules/batchGroups/batchGroup.routes.ts:134-150 | Farmers, warehouses, batches, deliveries and lots: one row, as asked for, in one table; a farmer is deleted by a flag |
| CustodyLots.ConfirmEachExact | src/modules/batchGroups/batchGroup.routes.ts:298-302 | The loop over pending transfers succeeds exactly when each was PENDING on a live batch in IN_STORAGE, IN_TRANSIT or SOLD at the start, although iterations see each other's effects, and equals confirming all at once |
| CustodyLots.ConfirmSaleExact | src/modules/batchGroups/batchGroup.routes.ts:298-305 | The whole sale: exact success condition and exact new tables |
| CustodyLots.ConfirmSaleEffect | src/modules/batchGroups/batchGroup.routes.ts:298-305 | Afterwards the batches of those transfers are SOLD with nothing on a shelf, the transfers CONFIRMED, and every other batch, transfer and row unchanged |
| CustodyLots.LotSoldMeansMembersSold | src/modules/batchGroups/batchGroup.routes.ts:287-305 | A lot's SOLD is true of every member exactly when each member was SOLD already or had one of the transfers confirmed |
| CustodyRuns.StatusFollowsTable | src/modules/coffeeBatches/coffeeBatch.service.ts:13-22 | Over any run a batch enters REGISTERED and each state to the next is a step of the lifecycle table |
| CustodyRuns.FinalStatuses | src/modules/coffeeBatches/coffeeBatch.service.ts:13-22 | EXPORTED and REJECTED never change, SOLD only becomes EXPORTED, REGISTERED is never returned to |
| CustodyRuns.StatusIsEvidence | src/modules/coffeeBatches/coffeeBatch.service.ts:138-178 | In every reachable state: past REGISTERED and not REJECTED there is a processing record; IN_STORAGE and beyond has been stored; SOLD or EXPORTED if and only if a transfer is CONFIRMED; outside IN_STORAGE nothing is on a shelf |
| CustodyRuns.ShelvesTellTheTruth | prisma/migrations/20260809120000_warehouse_inventory_single_active_batch/migration.sql:37-39 | Where requests see whole tables, the shelf invariants, capacity included, spelled out row by row in every reachable state |
| CustodyRuns.WeightConservation | src/modules/deliveries/delivery.service.ts:95-114 | All delivered weight equals the sum of batch totals plus deliveries not assigned yet, in every reachable state |
| CustodyRuns.AssignmentIsFinal | src/modules/deliveries/delivery.service.ts:102-114 | An assigned delivery never changes again and its batch never gets lighter |
| CustodyRuns.RunGrows | src/modules/coffeeBatches/coffeeBatch.service.ts:157-175 | Over any stretch of a run no row is lost, no closed row reopened, no settled transfer rewritten |
| CustodyRuns.TenantsStayApart | src/middleware/scopeHelpers.ts:41-49 | As long as no SUPER_ADMIN has made a request, no inventory row and no lot mixes cooperatives |
| CustodyRuns.SellOpensEveryMember | src/modules/batchGroups/batchGroup.routes.ts:241-249 | Where requests see whole tables, putting a lot up for sale leaves every member with a PENDING transfer |
| CustodyRuns.ConfirmedLotIsSold | src/modules/batchGroups/batchGroup.routes.ts:278-305 | Where requests see whole tables: if every member had a PENDING transfer when confirmation was requested and it commits any number of steps later, every member is SOLD |
| CustodyWitness.LotSoldWithoutEveryMember | src/modules/batchGroups/batchGroup.routes.ts:290-303 | Without the hypothesis on members it fails on whole tables too: a reachable state in which confirming is accepted, commits and marks the lot SOLD with a member still on the shelf |
| CustodyWitness.ReachTwoBatches | src/modules/coffeeBatches/coffeeBatch.service.ts:180-200 | From empty tables, intake, assignment, processing and completion of two batches go through request by request |
| CustodyWitness.ReachExported | src/modules/coffeeBatches/coffeeBatch.service.ts:13-22 | A run takes a batch from the shelf through IN_TRANSIT and SOLD to EXPORTED |
| CustodyStore.Store.TransitionBatchStatus | src/modules/coffeeBatches/coffeeBatch.service.ts:130-178 | The service's statements on the tables, with the record count and the row closing, refine the transition function; an error changes nothing |
| CustodyStore.Store.AssignDeliveriesToBatch | src/modules/deliveries/delivery.service.ts:95-114 | Find, compare counts, update, sum in a loop, increment: succeeds exactly under the condition above and yields that state |
| CustodyStore.Store.RecordProcessing | src/modules/processing/processing.routes.ts:57-67 | Record, then conditional transition; a failing transition also undoes the record |
| CustodyStore.Store.CurrentLoad | src/modules/warehouses/warehouse.routes.ts:189-194 | The summing loop computes the weight of the warehouse's open rows |
| CustodyStore.Store.StoreBatch | src/modules/warehouses/warehouse.routes.ts:163-207 | The three refusals in order, then transition and row, refine the store transaction |
| CustodyStore.Store.ConfirmTransferInTx | src/modules/ownershipTransfers/ownershipTransfer.service.ts:34-66 | Stamp the transfer, then drive the batch to SOLD |
| CustodyStore.Store.ConfirmSale | src/modules/batchGroups/batchGroup.routes.ts:298-305 | All or nothing: succeeds exactly when the lot exists and every transfer is confirmable, then leaves the closed form; otherwise the tables are as before |
| StoreProtocol.RunKeeps | src/modules/warehouses/warehouse.routes.ts:155-208 | Statement by statement (lock, look for an open row, sum, insert, commit), stores and check-outs interleaved at will, each on the rows its session sees: no batch has two open rows, the stock of a warehouse's own cooperative fits, and while all sessions see whole tables the whole stock fits |
| StoreProtocol.UnmixedShelvesFit | src/modules/warehouses/warehouse.routes.ts:188-203 | With restricted sessions too, a warehouse in which nothing of any weight belongs to another cooperative is within capacity |
| ShelfLoads.LoadInView | src/modules/warehouses/warehouse.routes.ts:189-194 | The load summed over the rows in view never exceeds the load, and equals it exactly when everything of any weight is in view |
| ShelfLoads.CheckIsSound | src/modules/warehouses/warehouse.routes.ts:195-197 | In a warehouse not overfull, whatever weight the check lets through on the rows in view does fit, exactly when everything of any weight is in view |
| StoreProtocol.CommitIsAtomic | src/modules/warehouses/warehouse.routes.ts:161-207 | A store that commits would pass its open-row check on all rows and its capacity check on the rows its session sees at the instant of the commit, so the route's checks amount to one atomic step |
| StoreProtocol.CommitKeeps | prisma/migrations/20260809120000_warehouse_inventory_single_active_batch/migration.sql:37-39 | The commit itself keeps lock, index and measurement consistent for every other store in flight |
| StoreProtocol.StoreGoesThrough | src/modules/warehouses/warehouse.routes.ts:155-208 | Whoever finds the lock free, the batch on no shelf and space in view gets through to the commit, whatever other stores hold, and adds exactly the row asked for |
| StoreProtocol.CheckOutCloses | src/modules/warehouses/warehouse.routes.ts:261-264 | A check-out in between closes its row and takes its weight off the load, and changes nothing else |
| StoreProtocol.RollbackLeavesNothing | src/modules/warehouses/warehouse.routes.ts:161-207 | A store rolled back leaves no row and no lock |
| SoldReports.KpiCountsSoldStatuses | src/modules/reports/dashboard.service.ts:148-160 | In every reachable state the sold figure is the weight of the cooperative's live batches with status SOLD or EXPORTED, each once |
| SoldReports.KpiAgainstChart | src/modules/reports/dashboard.service.ts:138-147 | The sold figure never exceeds the chart's total, and equals it exactly when no batch of positive weight has two confirmed transfers |
| SoldReports.SecondSaleGoesThrough | src/modules/coffeeBatches/coffeeBatch.service.ts:138-138 | Opening and confirming another transfer on a SOLD batch is accepted, so the two figures part |
| SoldReports.FiguresPart | src/modules/ownershipTransfers/ownershipTransfer.routes.ts:34-89 | A run from empty tables leads to a state whose chart total exceeds its sold figure |
| SoldReports.ItemsAgainstOwners | src/modules/reports/dashboard.service.ts:148-160 | Counting owners once against counting every item: at most as much, equal exactly when no owner of positive weight has two |
| LedgerHash.JoinInjective | src/blockchain/blockchain.service.ts:34-41 | The five joined parts can be read back from the text, even if the payload hash held pipes |
| LedgerHash.PreimageInjective | src/blockchain/blockchain.service.ts:27-42 | Two rows with the same hashed text agree in predecessor, payload hash, event, batch and time; "genesis" is never a hash |
| LedgerHash.PreimageLayout | src/blockchain/blockchain.service.ts:34-41 | The hashed text is predecessor or "genesis", payload hash, event, batch and ISO time, with pipes between |
| LedgerChain.VerifyChain | src/blockchain/blockchain.service.ts:116-144 | Valid exactly when every link and hash holds; otherwise the answer names the first bad row |
| LedgerChain.TailCommits | src/blockchain/blockchain.service.ts:27-42 | Two lists of a batch that verify and end in one hash have equal length and agree in every hashed column, or two colliding texts exist among them |
| LedgerChain.ChainIsLinear | src/blockchain/blockchain.service.ts:123-143 | In a verified chain no two rows name the same predecessor |
| LedgerChain.EditBreaks | src/blockchain/blockchain.service.ts:123-143 | Editing a hashed column of row i without rehashing breaks the chain at exactly i |
| LedgerChain.RehashBreaksNext | src/blockchain/blockchain.service.ts:123-143 | Editing and rehashing row i breaks it at exactly i + 1, and goes unnoticed when i is the last |
| LedgerChain.RemovalBreaks | src/blockchain/blockchain.service.ts:123-143 | Removing a row that is not the last breaks it at its successor |
| LedgerChain.Unnoticed | src/blockchain/blockchain.service.ts:116-144 | Cutting a tail and editing columns outside the hash, the payload included, still verify |
| LedgerOrder.VerifiesInEveryOrder | src/blockchain/blockchain.service.ts:117-121 | An intact chain verifies under every answer the database may give to the ordering by submitted time exactly when its timestamps strictly increase |
| LedgerOrder.OneOrderVerifies | src/blockchain/blockchain.service.ts:123-143 | Of all orders of the same rows only that of chaining verifies |
| LedgerOrder.Backfill | prisma/migrations/20260804200000_blockchain_hash_chain/migration.sql:30-57 | After the migration's loop every batch's chain verifies and nothing but the two chain columns changed |
| LedgerProtocol.RunKeeps | src/blockchain/blockchain.service.ts:63-108 | Lock, read, insert, commit, settle of any number of calls, aborts and attempts to rewrite the table, whatever the clock does: each row chained to a newest one of its batch committed before it, locks exclusive, what each call read still current |
| LedgerProtocol.EveryChainVerifies | src/blockchain/blockchain.service.ts:74-107 | In every reachable state verifyChain answers valid for each batch whose timestamps strictly increase, whatever order the database answers in |
| LedgerProtocol.VerifiesExactlyWhenTimed | src/blockchain/blockchain.service.ts:77-121 | In every reachable state, whatever the clock did, every answer of the database verifies exactly when the batch's timestamps strictly increase in the order of the commits, or two colliding texts exist among its rows |
| LedgerProtocol.ClockSetBack | src/blockchain/blockchain.service.ts:83-90 | A reachable state with a second event stamped earlier than the first, in which some answer fails to verify |
| LedgerProtocol.NoFork | src/blockchain/blockchain.service.ts:70-90 | As long as the timestamps before the last strictly increase, each event names the one before it and no two events of a batch share a predecessor |
| LedgerProtocol.PayloadsAreGenuine | src/blockchain/blockchain.service.ts:68-90 | Stored payloads match their hashes in every reachable state, although verifyChain never looks |
| LedgerProtocol.LedgerIsImmutable | prisma/migrations/20260804200000_blockchain_hash_chain/migration.sql:65-95 | Over any run ledger columns never change, rows are never removed, and a settled row never changes again |
| LedgerProtocol.EventIsRecorded | src/blockchain/blockchain.service.ts:63-90 | In any run, a call that came with a batch, an event type and a payload and has committed left one row, which to the end of the run holds that batch, type and payload, the payload's hash and the instant given at its insert |
| LedgerProtocol.OnlyCommitsAppend | src/blockchain/blockchain.service.ts:74-91 | A commit adds the one row its call inserted; no other step adds or removes any |
| LedgerProtocol.SettlementIsRecorded | src/blockchain/blockchain.service.ts:96-107 | A submission that went through makes a PENDING row CONFIRMED with its transaction hash and instant, a refused one FAILED with the message; no other column and no other row changes |
| LedgerProtocol.SettlementIsPossible | src/blockchain/blockchain.service.ts:96-107 | Either outcome can be recorded for every call that has committed: the trigger never stops it |
| LedgerProtocol.ReachAppend | src/blockchain/blockchain.service.ts:74-91 | In every reachable state in which its batch's lock is free, a call of any batch, event and payload can go through to its commit |
| LedgerProtocol.LocksAreGivenBack | src/blockchain/blockchain.service.ts:75-75 | In every reachable state each lock is held by a call still in its transaction on that batch |
| Sessions.GuessesAreBounded | src/modules/auth/auth.service.ts:131-206 | From any consistent state the wrong passwords compared at login are at most the account's remaining budget for the window |
| Sessions.LockoutBound | src/modules/auth/auth.service.ts:140-163 | In any serial history, any half-open window of k times 15 minutes without a successful login, password change or reset, login compares at most 5k wrong passwords with the account's |
| Sessions.LockHolds | src/modules/auth/auth.service.ts:140-163 | Login compares none with a locked account's until the lock runs out |
| Sessions.RetriesChangeNothing | src/modules/auth/auth.service.ts:267-275 | Any number of password changes given a wrong current password are all compared with it and leave every field, counter and lock included, as it was |
| Sessions.BoundIsForLogins | src/modules/auth/auth.service.ts:267-275 | So login and change together have no bound, at a single instant and on a locked account |
| Sessions.BoundIsMet | src/modules/auth/auth.service.ts:140-163 | The bound is tight: for every k and c a history from the start has a window of k periods, the account never cleared, in which login compares 5k wrong passwords and password changes are given c more |
| Sessions.CountersStayOk | src/modules/auth/auth.service.ts:151-163 | The failure counter stays in 0 to 4 and is 0 whenever a lock is set |
| Sessions.SupersededNeverAccepted | src/modules/auth/auth.service.ts:223-249 | A refresh token minted before its user logged in, refreshed, changed password, logged out, was reset or deactivated is never accepted afterwards |
| Sessions.AcceptedOnce | src/modules/auth/auth.service.ts:223-249 | No refresh token is accepted twice |
| Sessions.HashesStayMinted | src/modules/auth/auth.service.ts:196-206 | Every stored hash is that of a token minted for that very user |
| Sessions.LoginExactly | src/modules/auth/auth.service.ts:131-221 | A login signs in exactly with the right password of an account that exists, is not deleted, not locked, ACTIVE or PENDING_VERIFICATION, whose temporary password has not run out, and, only under maintenance, is SUPER_ADMIN or allowed in; it then clears counter and lock and stores the hash of a fresh token, and nothing else |
| Sessions.LoginRefusals | src/modules/auth/auth.service.ts:131-188 | Which reply every other login gets; only a wrong password on an open account leaves a trace, the fifth a lock of fifteen minutes |
| Sessions.RefreshExactly | src/modules/auth/auth.service.ts:223-257 | A refresh goes through exactly with a genuine token that is its live user's current one, and changes only the stored hash |
| Sessions.ChangeExactly | src/modules/auth/auth.service.ts:267-315 | A change goes through exactly with the right current and a different new password; every column afterwards, and the reply of each refusal |
| Sessions.ChangedPasswordCounts | src/modules/auth/auth.service.ts:267-315 | After a change the new password signs in, exactly if the account is ACTIVE or PENDING_VERIFICATION, and the old one never does |
| Sessions.ResetPasswordCounts | src/modules/farmers/farmer.service.ts:160-185 | After a reset of an account that is ACTIVE or PENDING_VERIFICATION the temporary password signs in exactly until it runs out, and no other password does |
| Sessions.IssuedPasswordCounts | src/modules/farmers/farmer.service.ts:110-148 | The same of the password a farmer's login is issued with, and of the one an account is registered with |
| Sessions.WritesExactly | src/modules/auth/auth.service.ts:317-322 | Logout, reset, deactivation, status change and maintenance permission, column by column |
| SessionRaces.AcceptancesOverlap | src/modules/auth/auth.service.ts:231-249 | With reads and updates of any number of handlers interleaved, of two calls that both rotate one token the later to write had read before the earlier wrote; a call begun after that is refused |
| SessionRaces.OverlapIsEnough | src/modules/auth/auth.service.ts:231-249 | Two calls that read while the token is live are both accepted |
| SessionRaces.OverlappingFailuresCountOnce | src/modules/auth/auth.service.ts:150-160 | Two wrong passwords compared by overlapping logins raise the counter by one |
| SessionRaces.UndisturbedIsSerial | src/modules/auth/auth.service.ts:131-315 | A run in which every update finds the row as its call read it is the serial history of its updates, so that what is proved of serial histories holds of its log |
| SessionRaces.ReadThenUpdate | src/modules/auth/auth.service.ts:131-315 | Read and update with nothing in between are the serial step |
| Sessions.AuthService.SignIn | src/modules/auth/auth.service.ts:131-221 | The login statements on the users table refine the login step, whose exact condition, effect and refusals are the rows above |
| Sessions.AuthService.Rotate | src/modules/auth/auth.service.ts:223-260 | Refresh rotates the stored hash exactly when signature and hash match |
| Sessions.AuthService.ReplacePassword | src/modules/auth/auth.service.ts:267-315 | Changing the password refines its step: counters, lock, temporary flags and status |
| Sessions.AuthService.SignOut | src/modules/auth/auth.service.ts:317-322 | Logout clears the stored hash |
| TtlCache.BoundedStaleness | src/modules/permissions/permission.service.ts:40-53 | Under any interleaving of loads, writes and invalidations, an answer is what the database held at some instant less than the time to live before the call read the clock, or during the call |
| TtlCache.InvalidationIsEffective | src/modules/permissions/permission.service.ts:51-53 | From any state, whatever the cache held: after an invalidation every later call reflects a given version or a newer one exactly when no load in flight holds an older version that has not expired |
| TtlCache.WriteThenInvalidate | src/modules/permissions/permission.service.ts:87-99 | A write, any run at all, then the invalidation: later calls reflect the write or a newer one exactly under that condition |
| TtlCache.FillIsServed | src/modules/permissions/permission.service.ts:40-49 | What a load returned answers every call of the next `ttl`, counted from the start of the loading call, at once, unless the entry is dropped or filled again |
| TtlCache.LateFillIsServed | src/modules/system/system.service.ts:34-66 | If one does, a run exists in which the next call is served the old value |
| TtlCache.ThreatArises | src/modules/permissions/permission.service.ts:40-53 | Such a load arises from the start: miss, read, write, invalidate |
| TtlCache.AnswersStayUpToDate | src/modules/permissions/permission.service.ts:40-53 | Once no such load exists, none appears later |
| TtlCache.Cache.BeginGet | src/modules/permissions/permission.service.ts:40-44 | The getter up to its await is a step of that protocol: an entry in time is answered, otherwise a load starts, and the cache stays as it is |
| TtlCache.Cache.FinishGet | src/modules/permissions/permission.service.ts:45-49 | and so is the fill after it: the entry is what was loaded, until `ttl` after the instant read before the await |
| TtlCache.Cache.InvalidateEntry | src/modules/system/system.service.ts:44-67 | Invalidation is that step: no entry is left, and nothing else changes |
| Permissions.LoadMatrix | src/modules/permissions/permission.service.ts:23-38 | The matrix built row by row holds a permission for a role exactly when the table has that row |
| Permissions.EditTakesEffect | src/modules/permissions/permission.service.ts:60-99 | After an edit a freshly loaded matrix answers for that role the known keys asked for, for other roles as before, and always yes for SUPER_ADMIN |
| ActivityFeed.FeedLosesNothing | src/modules/reports/dashboard.service.ts:186-283 | Capping each stream at the limit before merging yields the newest `limit` items of the uncapped union, newest first, as a multiset |
| ActivityFeed.FeedInOrder | src/modules/reports/dashboard.service.ts:186-283 | Ties included: the feed is the top `limit` of the uncapped union by time, newer first, and at one instant by the order of the streams |
| ActivityFeed.BusyStreamCrowdsOut | src/modules/reports/dashboard.service.ts:181-184 | For every input the feed shows one kind only exactly when every item of another kind has `limit` items of that kind before it in that order |
| ActivityFeed.TwoDeliveriesHideABatch | src/modules/reports/dashboard.service.ts:186-283 | Two deliveries and an older batch with room for two: the batch is not shown |
| FarmerStatement.FoldDeliveries | src/modules/reports/farmerStatement.service.ts:84-107 | The fold leaves one entry per delivering farmer that summarises exactly that farmer's deliveries; counts, kilos and values sum to the input's |
| FarmerStatement.AddDelivery | src/modules/reports/farmerStatement.service.ts:98-106 | One turn of the loop: an entry that sums up a farmer's deliveries (count, kilos, value, grades and their order) sums up one delivery more afterwards |
| FarmerStatement.DistributionCounts | src/modules/reports/farmerStatement.service.ts:111-113 | A grade distribution lists exactly the farmer's grades with their counts, in descending order, and sums to the row's count |
| FarmerStatement.GetFarmerStatement | src/modules/reports/farmerStatement.service.ts:46-139 | One right row per delivering farmer with a most common grade of maximal count, sorted by weight; total count and kilos exact; total value within 0.005 a farmer of the exact sum over priced deliveries |
| FarmerStatement.RowTotals | src/modules/reports/farmerStatement.service.ts:127-133 | Row totals against the entries they round: equal counts and kilos, value off by at most half a hundredth a row |
| FarmerStatement.RoundingError | src/modules/reports/farmerStatement.service.ts:42-44 | Rounding takes the nearest hundredth, halves upwards |
| EntityCodes.CodeReadsBack | src/utils/entityCode.ts:23-29 | Formatting and parsing a code is the identity for every year and every number, past the padding too |
| EntityCodes.CodesDiffer | src/utils/entityCode.ts:23-29 | Two codes of any kinds with the same text are the same code |
| EntityCodes.CodeLooks | src/utils/entityCode.ts:23-29 | Numbers are padded to the width of their kind and no further |
| EntityCodes.FirstCodes | src/utils/entityCode.ts:5-6 | The first codes of a year are the documented ones |
| EntityCodes.FarmerCodeIsRecognised | src/auth/identifier.ts:13-46 | However a generated farmer code is typed, in any case and with spaces around, it is looked up as issued, and it classifies as a farmer code exactly when its year has four digits |
| EntityCodes.OnlyFarmerCodesLookSo | src/auth/identifier.ts:13-46 | Any text typed is taken for a farmer code exactly if it is looked up as FARM, four digits and a number |
| EntityCodes.EmailsHaveAnAt | src/auth/identifier.ts:41-46 | Trimmed or not, a sign-in is taken for an e-mail address exactly if it has an at sign |
| CodeCounters.RunKeeps | prisma/migrations/20260805100000_atomic_entity_codes/migration.sql:18-31 | Draws committing on their own or inside transactions that hold the counter row, in any interleaving with commits and rollbacks: committed codes are distinct and behind their counters, open transactions strictly ahead |
| CodeCounters.CodesNeverCollide | prisma/migrations/20260805100000_atomic_entity_codes/migration.sql:1-13 | No two rows ever carry the same code text |
| CodeCounters.NumbersAreConsecutive | prisma/migrations/20260805100000_atomic_entity_codes/migration.sql:18-31 | The codes handed out by committed draws are, in every reachable state, those of every number the counters have passed since the start, each once: none skipped by a rollback, none beyond |
| CodeCounters.DeletedCodesStayRetired | prisma/migrations/20260805100000_atomic_entity_codes/migration.sql:9-11 | A code that went out of use is never issued again |
| CodeCounters.DeleteRetires | prisma/migrations/20260805100000_atomic_entity_codes/migration.sql:9-11 | Deleting a row puts its code out of use |
| CodeCounters.SeededIsReady | prisma/migrations/20260808140000_farmer_login_accounts/migration.sql:29-49 | Counters raised to the high-water marks are ahead of every existing farmer code, so numbering continues without a clash |
| CodeCounters.HighWaterAttained | prisma/migrations/20260808140000_farmer_login_accounts/migration.sql:29-49 | and the mark is no higher than it need be: it is the number of a code of that year, or 0 |
| CodeCounters.Counters.NextEntityCode | src/utils/entityCode.ts:17-30 | One scope's counter goes up by one, no other changes, and the text reads back to that number |
| CodeCounters.Counters.SeedFarmers | prisma/migrations/20260808140000_farmer_login_accounts/migration.sql:29-49 | The loop over years raises each year's counter to the larger of its value and the year's highest number, whatever rows are malformed, and touches no other scope |
| RowVisibility.PolicyAgainstFilter | prisma/migrations/20260807120000_row_level_security/migration.sql:133-172 | On any tables, an unfiltered query under the policies and the filtered query without them list the same batches exactly when the caller is not a farmer with a stray batch |
| RowVisibility.ListExactly | src/modules/coffeeBatches/coffeeBatch.service.ts:55-73 | The list, batch by batch: live, of the cooperative a SUPER_ADMIN asked for or the caller's own, of the status asked for, and for a farmer one holding a delivery of theirs; refused exactly without a cooperative or, for a farmer, a profile |
| RowVisibility.GetExactly | src/modules/coffeeBatches/coffeeBatch.controller.ts:61-80 | By id: not-found exactly for a batch missing or deleted; otherwise the batch itself exactly for a SUPER_ADMIN, staff of its cooperative and a farmer of it with a delivery in the batch, and forbidden for everyone else |
| RowVisibility.FarmerSees | prisma/migrations/20260807120000_row_level_security/migration.sql:120-256 | A farmer's session sees their own row and deliveries in the cooperative, the batches that hold some of these, no warehouse and no lot |
| RowVisibility.ChildrenSeen | prisma/migrations/20260807120000_row_level_security/migration.sql:236-256 | Processing records, inventory rows and transfers are seen exactly with their batch |
| RowVisibility.AnonymousSeesNothing | prisma/migrations/20260807120000_row_level_security/migration.sql:60-118 | A session without an identity sees no row of any table |
| RowVisibility.ThreeReadingsAgree | src/modules/coffeeBatches/coffeeBatch.service.ts:55-86 | In every reachable state filtered without policies, unfiltered under them and filtered under them agree for every scoped caller, and a caller the filters refuse sees no batch |
| RowVisibility.ByIdUnderPolicies | src/modules/coffeeBatches/coffeeBatch.controller.ts:61-80 | By id a scoped caller gets the batch exactly when the list shows it; otherwise, under the policies, the answer is not-found, never forbidden |
| RowVisibility.ViewIsClosed | prisma/migrations/20260807120000_row_level_security/migration.sql:229-256 | A scoped view never shows a row without the batch, farmer or member rows it refers to |
| RowVisibility.VersionsAgree | prisma/migrations/20260808090000_rls_predicates_never_null/migration.sql:15-21 | The pinned predicates show a superset of batches, and the same ones exactly when the session is system, has a role, or has no batch of its cooperative it did not contribute to |
| RowVisibility.ChangeIsUnobservable | prisma/migrations/20260808090000_rls_predicates_never_null/migration.sql:1-21 | For every authenticated, anonymous or system session all tables look the same before and after |
| TenantIsolation.ViewIsLocal | prisma/migrations/20260807120000_row_level_security/migration.sql:120-256 | What a scoped session sees does not depend on any row of another cooperative |
| TenantIsolation.FarmerViewIsOwn | prisma/migrations/20260807120000_row_level_security/migration.sql:133-172 | A farmer's view does not depend on other farmers' deliveries either |
| TenantIsolation.StaffSeeTheSlice | prisma/migrations/20260807120000_row_level_security/migration.sql:120-256 | A clerk sees the rows of the cooperative, all of them and no others |
| TenantWrites.BeginThroughPolicies | src/middleware/scopeHelpers.ts:22-49 | On tables whose lots do not mix cooperatives, every request is accepted on the caller's view exactly when it is accepted on the whole tables, with the same values |
| TenantWrites.FinishThroughPolicies | prisma/migrations/20260807120000_row_level_security/migration.sql:229-256 | Each transaction body run on the view succeeds exactly when it does on the whole tables, and leaves the view of what it would leave there |
| TenantWrites.FinishElsewhere | src/middleware/scopeHelpers.ts:41-49 | A scoped caller's transaction leaves every other cooperative's rows exactly as they were |
| TenantRuns.PoliciesAreTransparent | prisma/migrations/20260807120000_row_level_security/migration.sql:120-256 | Over any run without SUPER_ADMIN requests, a clerk working through the policies gets the same answers and leaves the same rows as one working without them, stale reads included |
| TenantRuns.OtherTenantsSeeNothing | src/middleware/scopeHelpers.ts:22-49 | Over any such run, what a caller of one cooperative commits changes nothing in any session of another, clerk or farmer |
| TenantRuns.WritesPassTheChecks | prisma/migrations/20260807120000_row_level_security/migration.sql:133-172 | Every row an accepted request adds or changes was in view before, if it existed, and is in view afterwards |
| TenantRuns.WhoMayWrite | prisma/migrations/20260807120000_row_level_security/migration.sql:150-278 | Batches, processing records, transfers, inventory rows and lot members pass the write checks exactly when the batch is in view and the caller is not a farmer; ledger and scan rows exactly when the batch is in view, farmer or not |
| TenantRuns.ReachMixed | src/modules/warehouses/warehouse.routes.ts:138-152 | A run leads to a warehouse filled by a SUPER_ADMIN with another cooperative's batch |
| TenantRuns.HiddenLoadOverfills | src/modules/warehouses/warehouse.routes.ts:188-203 | From that reachable state a clerk's store that the whole tables refuse passes under the policies and overfills the warehouse |
| PolicyModel.FinishAsClerk | prisma/migrations/20260807120000_row_level_security/migration.sql:133-256 | On any tables, a clerk's transaction run on its view and written back does what it would do on the whole tables without a capacity check, and goes through exactly when that does and the check passes on the rows in view; its row checks never refuse |
| PolicyModel.FinishAsAdmin | prisma/migrations/20260807120000_row_level_security/migration.sql:105-107 | A SUPER_ADMIN's is the one on whole tables |
| PolicyModel.UnrestrictedSeesAll | prisma/migrations/20260807120000_row_level_security/migration.sql:105-107 | A system or SUPER_ADMIN session sees every row |
| PolicyModel.SliceWriteBack | prisma/migrations/20260807120000_row_level_security/migration.sql:133-172 | A step that touches nothing outside a cooperative is restored in full from the view it leaves |
| PolicySystem.LaxKeeps | src/modules/warehouses/warehouse.routes.ts:155-208 | With the capacity check set aside, every transaction keeps every other part of the invariant |
| PolicyRuns.MoveKeeps | src/repositories/prisma.client.ts:68-91 | Any step under the policies, of any caller, keeps all but capacity, lets tables only grow and statuses only follow the lifecycle table |
| PolicyRuns.SiteRunKeeps | src/repositories/prisma.client.ts:68-91 | In every state reachable under the policies, SUPER_ADMINs, clerks and farmers in flight on stale reads: the invariant without capacity; each warehouse's own cooperative's stock within capacity; and the whole stock while no SUPER_ADMIN has made a request |
| PolicyRuns.OnlyOwnStockFits | src/modules/warehouses/warehouse.routes.ts:188-203 | In every such state a warehouse holding its own cooperative's coffee only, as far as it weighs anything, is within capacity |
| PolicyRuns.ClerkCheckIsSound | src/modules/warehouses/warehouse.routes.ts:188-203 | In a warehouse not overfull, every weight a clerk's check lets through leaves it so, exactly when it holds coffee of the clerk's cooperative only |
| PolicyRuns.ClerkStoreDecides | src/modules/warehouses/warehouse.routes.ts:163-207 | A clerk's store goes through exactly when it would without a limit and its weight fits on top of the stock in view, and then adds its weight to the whole load |
| PolicyRuns.OtherSessionsSeeNothing | prisma/migrations/20260807120000_row_level_security/migration.sql:133-256 | However a run has mixed cooperatives, a clerk's transaction changes nothing in any session of another cooperative |
| PolicyRuns.ReadingsAgree | src/modules/coffeeBatches/coffeeBatch.service.ts:55-86 | In every state reachable under the policies, mixed or not, the three readings of the batch list agree for every scoped caller |
| PolicyLots.SellThroughView | src/modules/batchGroups/batchGroup.routes.ts:199-249 | Under the policies, after a sale is opened every member has a PENDING transfer exactly when the members out of the caller's view had one already |
| PolicyLots.ConfirmThroughView | src/modules/batchGroups/batchGroup.routes.ts:278-305 | Under the policies, a confirmed lot is SOLD of every member exactly when each was SOLD already, or is in the caller's view and had a transfer PENDING when confirmation was requested |
| PolicyLots.LotInViewIsSold | src/modules/batchGroups/batchGroup.routes.ts:278-305 | In particular when every member is in view and PENDING |
| PolicyWitness.RunIsMirrored | src/repositories/prisma.client.ts:18-24 | Every state reachable on whole tables is reachable under the policies, with a SUPER_ADMIN making the requests |
| PolicyWitness.ClerkOverfills | src/modules/warehouses/warehouse.routes.ts:188-207 | A run under the policies in which a clerk's store leaves 20 in a warehouse for 10 |
| PolicyWitness.ClerkSellsInPart | prisma/migrations/20261004120000_batch_groups/migration.sql:79-83 | A run under the policies in which every member of a mixed lot is PENDING, a clerk's confirmation commits and marks the lot SOLD, and a member stays in storage |

## Left out

- Atomic transaction bodies: apart from the store route, the ledger append and code allocation, each `withTransaction` body is one step; under the database's default isolation two status changes of one batch could interleave, which the custody theorems do not cover.
- StoreProtocol.RunKeeps: covers the inventory rows of the store route; the status write inside the same transaction is part of the atomic steps of CustodySystem and PolicySystem only.
- LedgerProtocol.EventIsRecorded: what the caller asked to record; which events each handler records after its commit, and with what payload, is not modelled.
- Payloads are texts: the database's JSON column, which may reorder keys, and `JSON.stringify` are not modelled.
- The real ledger client: it always throws; the settle step takes either outcome.
- Sessions.LockoutBound: of serial histories; of interleaved ones it holds through SessionRaces.UndisturbedIsSerial, and SessionRaces.OverlappingFailuresCountOnce shows what an overlap undoes. No bound in terms of the number of overlapping calls is given.
- Sessions.AcceptedOnce: the token hash is taken as injective and the token ids as distinct (section 4.1.7 of RFC 7519); signatures and expiry are one flag, bcrypt is equality.
- A login's write that does not depend on the fields read (last login time) and the profile fields of users, farmers and buyers.
- Cooperative and buyer existence checks, permission checks per route, the processing date check, request validation: they refuse more requests and write nothing.
- FarmerStatement.GetFarmerStatement: sums are exact integers (hundredths, and ten-thousandths for values); binary floating point is not modelled, nor are names and the date window.
- ActivityFeed.FeedLosesNothing: instants are numbers; comparing their ISO texts gives the same order for years 0 to 9999.
- Dashboard series, grade split, yield, inventory and sales reports, PDF and QR rendering: single-expression reads.
- TtlCache.BoundedStaleness: one cached value; the per-user map is one such value per key, and the clock is monotone.
- CodeCounters.RunKeeps: numbers are unbounded, so the loss of precision past 2^53 in the conversion from BIGINT is not modelled; only the farmer seeding block is, not those for batches and deliveries, which differ in the prefix and fail on malformed rows.
- EntityCodes.FarmerCodeIsRecognised: upper-casing is that of ASCII letters, all a farmer code has; e-mail and phone lookups are not modelled.
- TenantRuns.PoliciesAreTransparent: clerks only, since SUPER_ADMIN is not restricted and farmers make no writes; policies on users, notifications, audit logs and buyers are not modelled, those on the ledger and on QR scans only in TenantRuns.WhoMayWrite.
- Connection pooling, the propagation of the request context and the choice of database role are taken as given: a session has the context of its request.
- Notifications, audit logs, Express wiring and error texts: they do not feed back into the tables.
- The demonstration seed as a starting state: it bypasses the operations; runs start from empty tables, or for codes from seeded counters.
- Soft deletion of a batch is an operator's step that may happen at any time: no handler sets the flag.
