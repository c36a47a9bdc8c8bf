# Rock Paper Money: verified model

This project models the durable core of a paid two-player rock-paper-scissors
service and proves its safety properties. It covers four linked pieces.

* **The room aggregate** (`Game`, `Room`, `GameRuns`): joining, moves, resolution,
  forfeits, deadline verdicts, next rounds and leaving, with the validated
  `Restore` that reads a saved state back.
* **The transactional protocol** (`Tables`, `Ledger`, `Money`, `Keys`, `Outbox`,
  `Store`, `Repository`): the PostgreSQL rows of rooms, rounds, moves, requests,
  presence, connections, deadlines, accounts, transactions, history, receipts and
  outbox. `Store` says what each transaction commits or why it fails; the class
  `Repository` performs the same transactions statement by statement and is proved
  against it. `Invariant` and `Preservation` hold the invariant over all tables,
  and `Safety`, `Simulation`, `PresenceRuns`, `ConnectionRuns`, `DeadlineRuns`,
  `InactivityRuns`, `Idempotency`, `Answers` and `Reconciliation` prove what follows over whole runs, in which any transactions
  follow each other in any order. `DeadlineWorker` and `OutboxWorker` are the
  worker loops.
* **The in-memory repository** (`Memory`, `MemoryRepository`, `MemoryInvariant`,
  `MemoryRuns`, `MemoryPresence`, `MemoryIdempotency`): the synchronous form of the same game and money, with 64-bit
  wallets and conservation of coins. `Refinement` proves that recording an action
  and reconciling the room does what this repository does at once, and
  `DelayedReconciliation` exactly what a late reconciliation changes; `BoundaryRuns`
  and `LateRuns` are concrete runs from the empty database.
* **Revision delivery** (`Frames`, `Delivery`, `Hub`, `HubRuns`, `Client`): socket
  frames, the one-slot queue, the hub's room with its interleaved offers, and the
  browser's gap-detecting connection, up to the client behind a consumer.

`dafny verify dfyconfig.toml` checks everything. The model follows the Go, SQL and
JavaScript code; `INFRASTRUCTURE.md` of the repository still describes an older
server-sent-events design.

## Where the code falls short of the obvious claim

The code is modelled as it is; these boundaries are stated exactly.

* A disconnect draw with one recorded move or two unequal ones saves a round that
  `Restore` rejects, and the room can never be loaded again; an aggregate forfeit
  with two moves does the same (`BoundaryRuns.RoomIsLost`; exactly when, by
  `Simulation.DeadlineSpoilsExactly` and `GameRuns.RestoreRoundTrip`; for ever, by
  `Simulation.UnloadableForever`).
* The deadline worker's loop does not end while an open room waits for its guest
  and its host has been gone for longer than the grace period
  (`BoundaryRuns.WorkerNeverStops`; exactly when, by
  `DeadlineWorker.RunEndsIffNobodyIsAbandoned`).
* A consumer that joins an existing hub room offers itself the snapshot it saw after
  releasing the lock, so it can end on an older revision than the room's
  (`HubRuns.LateOfferEvictsNewer`, `HubRuns.OfferIsGivenUp`; exactly when, by
  `HubRuns.ConsumerEndsOnNewest` and `HubRuns.ApartOffersDecideByOrder`).
* The in-memory overflow check looks at the recharged wallet only, so a payout can
  overflow (`MemoryOverflow.PayoutOverflows`, exactly when by
  `MemoryRuns.WinningOverflows`; `MemoryRuns.CoinsAreConserved` gives the bound under
  which nothing does).
* Reconciling late is not the same as reconciling at once. A room with both requests
  recorded can still be left, and then never advances
  (`LateRuns.LeavingLosesTheNextRound`; exactly when, by
  `DelayedReconciliation.LateRequestsWait`). And a round with both moves recorded is
  forfeited or drawn against them by a disconnect deadline that is processed first
  (backend/internal/room/adapter/postgres/deadlines.go:281-309), so that a player whose
  move wins loses the 75 coins
  (`LateRuns.DeadlineTakesTheWin`; exactly when, by
  `DelayedReconciliation.LateMovesDecideAlike`).
* A second next-round request is recorded even if a player cannot pay the next round;
  the room then waits until both can, while the in-memory repository refuses that
  request (`Refinement.RequestAcceptedIffPayable`).

Two more boundaries are met at the repository only, since its callers guard them.

* The database does not compare an expected round of zero
  (`Refinement.RoundZeroIsNotCompared`); the HTTP router rejects such a request at
  backend/internal/room/adapter/http/router.go:415 before the service is called.
* A reconciliation that is rolled back because its notification is too long is still
  reported as settled or advanced (`Repository.Repository.ReconcileRoom`); generated
  codes are six characters long, and then the notification always fits
  (`Preservation.ShortCodesReconcile`).

## Model

| member | source | states |
|---|---|---|
| `Safety.ExactlyOnceSettlement` | backend/internal/room/adapter/postgres/reconciliation.go:73-170 | after any run of create, join, move, next-round, leave, recharge, reconcile, deadline, presence and cleanup transactions, a settlement is posted exactly once for a resolved round and never otherwise, likewise the stake for a funded one; a history row exists iff the round is resolved; no committed round is "settling" |
| `Safety.ResolvedForever` | backend/internal/room/adapter/postgres/repository.go:771-816 | a resolved round keeps its status, its result and its history row in every later state |
| `Safety.LedgerAgreesWithItsCache` | backend/internal/room/adapter/postgres/repository.go:683-831 | in every reachable state each balance equals the sum of its postings, each transaction sums to 0, all balances sum to 0, only the mint is negative, an escrow holds 100 iff its round is funded and unresolved and else 0, and the house holds 25 per decisive history row |
| `Safety.ClosedRoomsHoldNoCoins` | backend/internal/room/domain/room.go:283-295 | no escrow of a closed room holds coins |
| `Safety.WinsAgreeWithHistory` | backend/internal/room/adapter/postgres/repository.go:771-831 | the wins on a stored seat equal the number of history rows of the room that its role won |
| `Safety.EveryRevisionIsAnnounced` | backend/internal/room/adapter/postgres/commands.go:436-441 | outbox rows, pending or cleaned up, are exactly the revisions 1..n of each room; a published or cleaned row was accepted by the publisher |
| `Safety.RevisionsAreAnnouncedAtOnce` | backend/internal/room/adapter/postgres/commands.go:436-441 | a transaction leaves every outbox row there was as it is; a row it adds was never tried and can be claimed from the transaction's time on and not before |
| `Preservation.NextKeepsOk` | backend/internal/room/adapter/postgres/migrations/005_coin_wallets.sql:1-68 | every transaction, committed or failed, keeps the invariant over all tables: row constraints, ledger, links between rounds, escrows and history, presence, deadlines, outbox |
| `Preservation.RunKeepsOk` | backend/internal/room/adapter/postgres/migrations/006_realtime_infrastructure.sql:18-86 | the same for every run of transactions |
| `Preservation.ReconcileKeepsOk` | backend/internal/room/adapter/postgres/reconciliation.go:73-141 | a claimed resolution commits iff its hint fits; a claimed advance commits iff moreover the aggregate loads and both players can pay the next stake; what commits keeps the invariant |
| `Preservation.ResolveKeepsOk` | backend/internal/room/adapter/postgres/reconciliation.go:94-121 | reconciling two recorded moves always loads, resolves and settles: the rows, the ledger and the history change as the moves decide |
| `Preservation.AdvanceKeepsOk` | backend/internal/room/adapter/postgres/reconciliation.go:99-130 | reconciling two requests succeeds iff both balances cover the stake, otherwise reports insufficient funds; the next round is active, funded and empty |
| `Preservation.JoinKeepsOk` | backend/internal/room/adapter/postgres/commands.go:84-127 | a committed join keeps the invariant over all tables |
| `Preservation.DeadlineKeepsOk` | backend/internal/room/adapter/postgres/deadlines.go:212-346 | processing the next deadline never fails in a reachable database and keeps the invariant |
| `Preservation.CloseKeepsOk` | backend/internal/room/adapter/postgres/deadlines.go:105-174 | closing keeps the invariant and fails only when the end would come before the connection started |
| `Simulation.EveryTransactionFollowsTheAggregate` | backend/internal/room/adapter/postgres/commands.go:129-247 | whatever transaction runs, each stored room takes one step that the aggregate allows: unchanged, an action the aggregate would accept, or the operation that belongs to the transaction |
| `Simulation.OnlyDeadlinesSpoil` | backend/internal/room/domain/room.go:397-450 | outside the deadline worker a room is loadable after a transaction iff it was before or its round advanced |
| `Simulation.DeadlineSpoilsExactly` | backend/internal/room/adapter/postgres/deadlines.go:302-330 | a round settled by a deadline can be loaded again iff the verdict does not contradict the recorded moves (a forfeit with two moves, a drawn disconnect with one move or two unequal ones) |
| `Simulation.UnloadableForever` | backend/internal/room/adapter/postgres/repository.go:507-515 | a room that cannot be loaded stays so in every later run: same round, players, moves and result, already settled |
| `Refinement.CommandRefines` | backend/internal/room/adapter/memory/repository.go:130-269 | each command the database performs, an action followed by its reconciliation, succeeds in memory too and leaves the same rooms, coins, history and accepted recharges |
| `Refinement.AnswersAgree` | backend/internal/room/adapter/memory/repository.go:111-128 | a whole command on both sides: both refuse it, both replay it, both report the conflict, both fail it or both perform it, with the same error unless it is a failure told differently; both answer the same view or balance, replays included, and what memory answers of a room is the room the database then stores; rooms, coins, history and receipts stay related |
| `Refinement.RunsAgree` | backend/internal/room/adapter/memory/repository.go:111-128 | whole runs of such commands, in any order, repeats, conflicts and failures included, keep both repositories related |
| `Refinement.RunsFromEmptyAgree` | backend/internal/room/adapter/memory/repository.go:51-54 | both repositories start related, so every such run from the empty states keeps them related |
| `Refinement.FailuresAgree` | backend/internal/room/adapter/memory/repository.go:130-269 | a command that the database fails while it runs (unknown room, short balance, unfinished game, and so on) fails in memory too, changes nothing but empty wallets, and gives the same error iff it is not one of the listed commands that the two check in another order |
| `Refinement.MemoryAcceptsNoMore` | backend/internal/room/adapter/postgres/commands.go:18-325 | conversely, what memory accepts the database accepts, unless its notification is too long |
| `Refinement.RequestAcceptedIffPayable` | backend/internal/room/adapter/memory/repository.go:221-247 | a next-round request that the database records is accepted in memory iff it names a round and, when it is the second one, both players can pay |
| `DelayedReconciliation.LateMovesDecideAlike` | backend/internal/room/adapter/postgres/deadlines.go:281-309 | however late two recorded moves are reconciled and whatever else runs before, deadlines included: the round waits unchanged iff it has no history row, and once it has one, that row is what the moves decide iff no disconnect deadline of the room, next to be processed with its player still away, came before and forfeited or drew otherwise |
| `DelayedReconciliation.OverrulesIffContradicts` | backend/internal/room/adapter/postgres/deadlines.go:254-346 | a deadline overrules waiting moves iff it settles this room with a verdict that contradicts them; the room can then not be loaded any more |
| `DelayedReconciliation.LateRequestsWait` | backend/internal/room/adapter/postgres/reconciliation.go:122-141 | however late two recorded requests are reconciled and whatever else runs before, deadlines included: the room ends closed in that round iff a leave took effect while they waited, in a later round iff a reconciliation did, and waits unchanged iff neither |
| `DelayedReconciliation.LeavingBeatsTheAdvance` | backend/internal/room/adapter/postgres/commands.go:249-325 | a room with both requests recorded can be left and then never advances, whereas after the reconciliation the same leave is refused |
| `LateRuns.LeavingLosesTheNextRound` | backend/internal/room/adapter/postgres/commands.go:249-325 | a run from the empty database to a room with both requests recorded and payable: leaving before reconciling closes it for good, in the other order the next round starts and the leave is refused |
| `LateRuns.DeadlineTakesTheWin` | backend/internal/room/adapter/postgres/deadlines.go:281-309 | a run from the empty database to a round that the host has won by the recorded moves, after which the host's only connection is closed: at any time from the end of the grace period on, the end of the round included, the deadline pays the guest 75, and reconciling first pays them to the host |
| `Refinement.MoveRefines` | backend/internal/room/adapter/postgres/reconciliation.go:73-141 | recording a move and reconciling does what the synchronous submit-and-settle does, for the first and the second move alike |
| `Refinement.RequestRefines` | backend/internal/room/adapter/postgres/reconciliation.go:122-130 | recording a next-round request and reconciling, when the reconciliation succeeds, does what the synchronous request-and-fund does |
| `Refinement.JoinRefines` | backend/internal/room/adapter/postgres/commands.go:84-127 | a committed join and the synchronous join give related states |
| `Refinement.CreateRefines` | backend/internal/room/adapter/postgres/commands.go:18-82 | a committed creation and the synchronous creation give related states |
| `Refinement.LeaveRefines` | backend/internal/room/adapter/postgres/commands.go:249-325 | a committed leave and the synchronous leave give related states |
| `Refinement.RechargeRefines` | backend/internal/room/adapter/postgres/commands.go:327-377 | a committed recharge and the in-memory recharge give related states while all recharges fit in 64 bits |
| `Refinement.MoveOrderIsIrrelevant` | backend/internal/room/adapter/memory/repository.go:190-219 | two moves submitted in either order are both accepted and give the same repository and the same answer |
| `Refinement.RequestOrderIsIrrelevant` | backend/internal/room/adapter/memory/repository.go:221-247 | two next-round requests in either order give the same answer, including the refusal when a player cannot pay, and the same repository when the second one is accepted |
| `Refinement.RoundZeroIsNotCompared` | backend/internal/room/adapter/postgres/commands.go:197-199 | at the repository, database and aggregate of a room agree on whether a next-round request is stale iff its expected round is not 0; 0 passes as the current round in the database |
| `DeadlineRuns.ProcessingAdvances` | backend/internal/room/adapter/postgres/deadlines.go:231-280 | processing the first due deadline either takes it off the due list without adding any, or, exactly when it is blocked, changes nothing |
| `DeadlineRuns.DrainEndsIffNothingBlocked` | backend/internal/worker/deadlines.go:36-59 | undisturbed, the drain loop empties the due list iff no due deadline sits on an active unfunded current round of an open room, and then within one pass per due deadline |
| `DeadlineRuns.BlockedRoomWaits` | backend/internal/room/adapter/postgres/deadlines.go:231-246 | in a reachable database only the host's disconnect deadline on round 1 of a room without a guest can block |
| `DeadlineRuns.HostGoneBlocksTheWorker` | backend/internal/room/adapter/postgres/deadlines.go:134-164 | when a host is present in an open room without a guest, closing an open connection of its seat while no other one is live makes the drain loop endless once the grace period is over |
| `BoundaryRuns.WorkerNeverStops` | backend/internal/worker/deadlines.go:36-59 | a run from the empty database (recharge, create, open, close) after which the drain loop never ends from the end of the grace period on |
| `BoundaryRuns.RoomIsLost` | backend/internal/room/adapter/postgres/deadlines.go:302-330 | a run from the empty database (recharges, create, join, two connections, one move, both closed, deadline) after which the room cannot be loaded |
| `DeadlineRuns.LeastApplicableDeadlineSettles` | backend/internal/room/adapter/postgres/deadlines.go:356-406 | the settling deadline is the least applicable due one of its room by due time, disconnect before inactivity, id; the due ones before it do not apply and are cancelled; the others of the settled round are cancelled; the settling one itself is completed if it is of the settled round, and otherwise stays pending as it was; nothing else changes |
| `DeadlineRuns.EarliestDeadlineSettles` | backend/internal/room/adapter/postgres/deadlines.go:356-361 | in plain fields: no other applicable due deadline of the room is due earlier than the one that settles; at the same time a disconnect goes before running out of time, and of one kind the smaller id |
| `DeadlineRuns.EarliestDeadlineIsNext` | backend/internal/room/adapter/postgres/deadlines.go:219-252 | the worker takes up the deadline due earliest over all rooms, with the same order among equals: no other room and no other room's deadline changes, and that deadline is not due any more unless it is blocked |
| `InactivityRuns.EveryStakeIsGuarded` | backend/internal/room/adapter/postgres/repository.go:755-767 | in every reachable state, cleanups included: while the funded current round is undecided and a move is missing, a pending inactivity deadline of that round is there, so no stake stays in escrow because nobody moves |
| `InactivityRuns.EveryFundedRoundWasScheduled` | backend/internal/room/adapter/postgres/repository.go:755-767 | in every state reached without a deadline cleanup, each funded round has a deadline row of kind inactivity whose generation is the round |
| `InactivityRuns.JoinSchedules` | backend/internal/room/adapter/postgres/repository.go:755-767 | a committed join adds one pending inactivity deadline for round 1, due 30 seconds later, and changes no other deadline |
| `InactivityRuns.AdvanceSchedules` | backend/internal/room/adapter/postgres/repository.go:755-767 | a committed advance adds the same for the next round |
| `InactivityRuns.ResolvingCancels` | backend/internal/room/adapter/postgres/reconciliation.go:94-121 | resolving two moves cancels exactly the pending deadlines of that round |
| `DeadlineRuns.SettlesExactly` | backend/internal/room/adapter/postgres/deadlines.go:231-330 | a round is settled iff the first due deadline is claimed and the first applicable deadline of its room reaches a verdict; it is that room's round, by that deadline, and no other room changes |
| `Preservation.SettledAddsHistory` | backend/internal/room/adapter/postgres/deadlines.go:319-334 | a settling deadline pays its round out as the verdict says and adds its one history row, and no other deadline moves money |
| `DeadlineRuns.OutcomeOfADeadline` | backend/internal/room/adapter/postgres/deadlines.go:281-309 | forfeit iff the deadline's role has no live lease and the other has one, draw iff neither has; out of time: draw on no move, win of the sole mover on one; a role with a live lease never forfeits |
| `DeadlineRuns.MovesOutliveInactivity` | backend/internal/room/adapter/postgres/deadlines.go:307-322 | an inactivity deadline that comes first settles its round iff not both moves are recorded; with both it is only cancelled, with those before it, rooms and coins are unchanged, and the round can still be reconciled |
| `DeadlineWorker.RunEndsIffNobodyIsAbandoned` | backend/internal/worker/deadlines.go:29-64 | after reaping, the loop ends iff no open room waits for its guest with a host gone for more than the grace period, a condition on the state before the pass |
| `DeadlineWorker.Worker.RunOnce` | backend/internal/worker/deadlines.go:29-64 | the pass ends without error in the state after reaping every overdue connection, processing exactly the counted deadlines and cleaning up; nothing due and no overdue lease is left; settled = new history rows, processed = settled + no-ops, stale = no-ops, cleaned = rows removed |
| `PresenceRuns.GenerationsGrow` | backend/internal/room/adapter/postgres/deadlines.go:145-157 | over any run a role's generation never decreases, and it increases whenever the role went from present to absent |
| `PresenceRuns.DeadlinesKeepIdentity` | backend/internal/room/adapter/postgres/deadlines.go:339-341 | over any run a deadline is never redefined and a concluded one never becomes pending again |
| `PresenceRuns.OneDeadlinePerGeneration` | backend/internal/room/adapter/postgres/migrations/006_realtime_infrastructure.sql:71-72 | at most one disconnect deadline carries the current generation of a role |
| `PresenceRuns.ReturnRetiresDeadline` | backend/internal/room/adapter/postgres/deadlines.go:386-397 | a disconnect deadline older than the role's return never settles a round, whatever happens later |
| `PresenceRuns.JoinRetiresDeadlines` | backend/internal/room/adapter/postgres/commands.go:104-118 | a disconnect deadline of the room from before a join never settles a round, whatever happens later |
| `PresenceRuns.JoinPresence` | backend/internal/room/adapter/postgres/commands.go:104-118 | after a join both seats have a presence: one that was there in its next generation, a new one in the first and absent |
| `PresenceRuns.PresentRoleIsConnected` | backend/internal/room/adapter/postgres/deadlines.go:52-75 | in every reachable state a present role has a connection that was not closed |
| `PresenceRuns.ReapedPresenceIsLive` | backend/internal/room/adapter/postgres/deadlines.go:176-210 | after an undisturbed reap no lease is overdue and every present role holds a lease that still runs |
| `PresenceRuns.RenewalLasts` | backend/internal/room/adapter/postgres/deadlines.go:82-99 | a renewal commits iff its lease is not over, the session is valid and the connection is open; then the role is live and the connection not overdue at any time before the new lease ends and overdue from then on, and nothing else changes |
| `PresenceRuns.LeaseKeepsRoleLive` | backend/internal/room/adapter/postgres/deadlines.go:176-210 | through any run that does not close the connection by request or renew it for less, and reaps only before the lease ends, an opened or renewed connection stays open and keeps its role live until the lease ends |
| `PresenceRuns.ReapingSparesLeases` | backend/internal/room/adapter/postgres/deadlines.go:176-210 | reaping before a lease ends leaves the connection as it is, and from its end on closes it as of that end |
| `ConnectionRuns.OpenCommits` | backend/internal/room/adapter/postgres/deadlines.go:14-49 | opening commits iff the lease is not over, the room is there, the account has a seat, the session is valid and the id is new |
| `ConnectionRuns.OpeningShows` | backend/internal/room/adapter/postgres/deadlines.go:40-80 | opening registers the connection; its role is present in the generation it had and live until the lease ends; if it was absent the pending disconnect deadlines of that generation in the current round are cancelled, and every other deadline stays |
| `ConnectionRuns.ClosingShows` | backend/internal/room/adapter/postgres/deadlines.go:105-174 | a close applies once and a reaping one only to an overdue connection; the role goes absent iff it was present and no other connection of it is live, and then starts the next generation with a deadline 20 seconds later |
| `ConnectionRuns.CleanupTakesConcluded` | backend/internal/room/adapter/postgres/deadlines.go:430-448 | cleaning up takes exactly the concluded deadlines and closed connections from before the given time, and nothing else |
| `Reconciliation.TransitionEndsTheWait` | backend/internal/room/adapter/postgres/reconciliation.go:21-71 | a successful transition takes exactly its own room off the set of eligible rounds and touches no other room |
| `Idempotency.EffectHappensOnce` | backend/internal/room/adapter/postgres/commands.go:404-434 | over any run, receipt cleanups included, the effects under one key happen at most once and a receipt is there exactly if one happened, unchanged, as long as no cleanup comes 604800 seconds or more after a command with that key before it |
| `Idempotency.FirstAnswerIsRepeated` | backend/internal/room/adapter/postgres/commands.go:404-434 | until a cleanup comes 604800 seconds or more after the first call, later calls with the same account, operation and hash get the first answer and others a conflict, none with an effect |
| `Idempotency.CleanupTakesExpired` | backend/internal/room/adapter/postgres/commands.go:404-410 | a receipt cleanup takes exactly the receipts that expire at its time or earlier, and nothing else |
| `Idempotency.ReceiptStays` | backend/internal/room/adapter/postgres/commands.go:404-434 | a receipt stays as it is and stops every effect of its key through any run whose cleanups come before it expires |
| `Idempotency.NoEffectNoChange` | backend/internal/room/adapter/postgres/commands.go:258-325 | a refused, failing, conflicting or replayed command leaves the whole database as it was, without a receipt |
| `Idempotency.RechargeIsCreditedOnce` | backend/internal/room/adapter/postgres/commands.go:350-354 | even across receipt cleanups an account is credited at most once per key |
| `MemoryIdempotency.EffectHappensOnce` | backend/internal/room/adapter/memory/repository.go:111-128 | in memory the effects under one key happen at most once over any run, and a receipt is there exactly if one happened; a receipt never changes |
| `MemoryIdempotency.FirstAnswerIsRepeated` | backend/internal/room/adapter/memory/repository.go:114-121 | in memory later calls with the same account, operation and hash get the first answer and others a conflict, none with an effect |
| `MemoryIdempotency.NoEffectNoChange` | backend/internal/room/adapter/memory/repository.go:122-125 | in memory a refused, failing, conflicting or replayed command leaves rooms, coins, history, recharges and receipts as they were; only empty wallets may be new |
| `MemoryIdempotency.RechargeIsCreditedOnce` | backend/internal/room/adapter/memory/repository.go:381-398 | once a recharge was accepted, the same one answers the balance of the day and another amount a conflict, whatever happened in between and without the receipt; neither credits anything |
| `Idempotency.RechargeCredits` | backend/internal/room/adapter/postgres/commands.go:355-364 | the one recharge moves its positive amount from the mint to the account and touches no other balance |
| `Answers.AnswersTellTheState` | backend/internal/room/adapter/postgres/commands.go:18-377 | a command that takes effect answers what its transaction leaves: a recharge the old balance plus its amount, which is the account's balance; a creation, join or leave the stored room in its next revision; an action the code, its round, whether that round is resolved, and the next revision |
| `GameRuns.RestoreRoundTrip` | backend/internal/room/domain/room.go:124-163 | from any restorable state (a fresh or a loaded room), after any operations, reading back the saved state gives the same aggregate, unless exactly the current round was resolved by a forfeit with two moves or by a deadline draw with one move or two unequal ones |
| `GameRuns.DeadlineDrawSpoilsPartialMove` | backend/internal/room/domain/room.go:353-361 | a concrete run (one move, deadline draw) whose saved state is rejected |
| `GameRuns.MovesCommuteWithResolution` | backend/internal/room/domain/room.go:182-257 | two accepted moves can be swapped, and equal recording both, restoring and resolving the committed moves |
| `GameRuns.ResolutionComesFromMoves` | backend/internal/room/domain/room.go:239-257 | conversely, a recorded pair that resolves is a pair of moves the aggregate accepts, with the same result |
| `GameRuns.RequestsCommuteWithAdvance` | backend/internal/room/domain/room.go:208-281 | the same for two next-round requests and the committed advance |
| `GameRuns.WinsCountResolutions` | backend/internal/room/domain/room.go:409-417 | from a new room, over any run: round - 1 (+ 1 if resolved) = number of resolutions; each player's wins = resolutions won; wins + draws = resolutions |
| `GameRuns.MovesStaySecret` | backend/internal/room/domain/room.go:379-395 | two runs that differ only in the valid moves chosen show equal views and equal errors and resolve at the same step |
| `GameRuns.ViewTellsActions` | backend/internal/room/domain/room.go:379-395 | after every accepted operation the view shows each player as having moved or asked iff that player did so in the round, and a win more iff that player just won it |
| `GameRuns.NewcomersHaveNotActed` | backend/internal/room/domain/room.go:379-395 | a host or guest who enters is shown without wins, move or request |
| `GameRuns.RefusedOperations` | backend/internal/room/domain/room.go:165-377 | a closed room refuses every operation; operations on another round, by a stranger, on a resolved or still waiting round, requests before the result and invalid moves are refused as well |
| `Frames.FramesKeepMovesSecret` | backend/internal/realtime/websocket.go:397-417 | the socket frames of two such runs are equal until the round resolves |
| `Frames.FramesTellMovesByRole` | backend/internal/realtime/websocket.go:397-417 | a frame shows no move and no result before the round is resolved and afterwards each recorded move under its player's role |
| `Frames.FramesTellTheRoom` | backend/internal/realtime/websocket.go:397-417 | a frame says of the room what the aggregate has: round, ready, resolved, closed, forfeit, result, and for each player its role, its wins and whether it moved and asked |
| `Frames.SnapshotFrame` | backend/internal/realtime/websocket.go:397-417 | the loops over players and moves build exactly the specified frame |
| `Game.RulesAreFair` | backend/internal/room/domain/room.go:42-57 | equal moves draw, swapping the players swaps the winner, the moves beat each other in a cycle, paper beats rock |
| `Tables.SaveThenLoad` | backend/internal/room/adapter/postgres/repository.go:467-641 | loading saved rows reads back the saved state, so it gives the answer that restoring that state gives |
| `Tables.SaveKeepsOtherRounds` | backend/internal/room/adapter/postgres/repository.go:602-639 | saving changes no row of another round except that an advance writes the requests of the round it leaves; seats keep player and account |
| `MemoryRuns.CoinsAreConserved` | backend/internal/room/adapter/memory/repository.go:407-465 | over any run whose accepted recharges fit in int64 the wallets of users, escrows and house sum to those recharges and each lies in 0..2^63-1, so no credit or debit wraps |
| `MemoryRuns.NextKeepsOk` | backend/internal/room/adapter/memory/repository.go:149-398 | every operation keeps the repository invariant: funded and unresolved rounds hold 100, others 0, seats have different owners, house = 25 per decisive round |
| `MemoryRuns.WinningOverflows` | backend/internal/room/adapter/memory/repository.go:441-465 | for every result: after settling, the wallet of host, guest or house is negative iff it held more than 2^63-1 minus its own credit; no other wallet changes and the escrow is empty |
| `MemoryOverflow.PayoutOverflows` | backend/internal/room/adapter/memory/repository.go:392-397 | a run from the empty repository (the host recharges 2^63-1, creates, is joined, wins) that ends with a negative wallet |
| `MemoryInvariant.FundMoves` | backend/internal/room/adapter/memory/repository.go:413-439 | a funded round takes 50 from each owner, who had it, and puts 100 into the empty escrow; nothing else moves |
| `MemoryInvariant.PayOutMoves` | backend/internal/room/adapter/memory/repository.go:441-465 | settling empties the escrow into the winner's 75 and the house's 25, or 50 each on a draw, and adds one history entry |
| `MemoryPresence.RefreshShows` | backend/internal/room/adapter/memory/repository.go:300-329 | refreshing shows the caller's player as seen now, starts the next generation of every player ever seen and hands out one lease for each, in seat order; nothing else changes |
| `MemoryPresence.RefreshRetiresLeases` | backend/internal/room/adapter/memory/repository.go:331-341 | a lease from before a refresh never forfeits its player, whatever happens later |
| `MemoryPresence.JoinShows` | backend/internal/room/adapter/memory/repository.go:149-188 | a join shows both players as seen now, each in its next generation |
| `MemoryPresence.JoinRetiresLeases` | backend/internal/room/adapter/memory/repository.go:331-341 | a lease from before a join never forfeits its player, whatever happens later |
| `MemoryPresence.ForfeitedExactly` | backend/internal/room/adapter/memory/repository.go:331-372 | in a running round of two a player is forfeited iff the lease is the newest and of this round, the player's deadline has passed, and the other was seen after it and is not overdue; the other then wins |
| `Outbox.RunKeepsBoxOk` | backend/internal/room/adapter/postgres/outbox.go:29-97 | over any events a known row is still there or was published: no pending row is ever deleted |
| `Outbox.LostClaimStaysLost` | backend/internal/room/adapter/postgres/outbox.go:65-89 | a stale token can neither mark nor release a row, whatever happens in between |
| `Outbox.ReclaimLosesFirstClaim` | backend/internal/room/adapter/postgres/outbox.go:37-49 | claiming a row again takes it from the earlier token |
| `Outbox.LeaseDecidesClaimability` | backend/internal/room/adapter/postgres/outbox.go:37-49 | over any events in which its holder neither marks nor releases it and every claim comes before the lease ends, a claimed row stays the holder's; it can be claimed again when the lease is over and not before |
| `Outbox.PendingRowSurvives` | backend/internal/room/adapter/postgres/outbox.go:65-97 | a pending row survives every event, and only a mark by the holder after an accepted publication ends its being pending |
| `Outbox.RetryTimeDecidesClaimability` | backend/internal/room/adapter/postgres/outbox.go:78-89 | a released row can be claimed from its retry time on and not before, and until then nobody can claim, mark or release it, whatever happens; its attempts stay counted |
| `Outbox.NewRowIsClaimable` | backend/internal/room/adapter/postgres/commands.go:436-441 | a new row was never tried, can be claimed at once and replaces no other |
| `Outbox.AttemptsCountClaims` | backend/internal/room/adapter/postgres/outbox.go:37-49 | over any events the attempts of a row count its claims |
| `Outbox.PublishedRowStays` | backend/internal/room/adapter/postgres/outbox.go:91-97 | a published row keeps its time until a cleanup of earlier ones takes it, and exactly that removes it |
| `OutboxWorker.BackoffIsMonotone` | backend/internal/worker/outbox.go:115-127 | min(base * 2^(n-1), max) grows with the attempts and never exceeds the maximum |
| `OutboxWorker.Worker.RetryDelay` | backend/internal/worker/outbox.go:115-127 | the doubling loop computes min(base * 2^(max(n,1)-1), max) and no intermediate value exceeds int64 |
| `OutboxWorker.Worker.RunOnce` | backend/internal/worker/outbox.go:82-113 | a pass claims, publishes in order, marks what was accepted, releases the first refused record with its delay and stops; otherwise it removes old published rows; the report counts the accepted prefix, the attempts on rows claimed before, and the rows removed |
| `OutboxWorker.Worker.MarkPublished` | backend/internal/room/adapter/postgres/outbox.go:65-76 | marks and frees the row iff the token holds it, otherwise reports a lost claim and changes nothing; requires that the publisher accepted it |
| `OutboxWorker.Worker.Release` | backend/internal/room/adapter/postgres/outbox.go:78-89 | reschedules and frees the row iff the token holds it |
| `OutboxWorker.Worker.ClaimBatch` | backend/internal/room/adapter/postgres/outbox.go:37-49 | the claimed rows carry the new token, its lease and one more attempt |
| `Delivery.LatestOfferSurvives` | backend/internal/realtime/websocket.go:345-362 | when offers come in revision order, whatever is read in between, the reader sees strictly increasing offered revisions and the last offer is read or waiting |
| `HubRuns.ConsumerEndsOnNewest` | backend/internal/realtime/hub.go:47-168 | over any interleaving of registrations, installs, reads, releases and the single selects of all offers: once no offer to it is under way, a consumer ends on the room's revision iff, since that was installed, no older snapshot was sent to it after it and its offer was not given up; it has that revision, read or waiting, iff it was not taken out unread or given up |
| `HubRuns.ApartOffersDecideByOrder` | backend/internal/realtime/hub.go:47-59 | when the offers to a consumer do not overlap it ends on the room's revision iff its own late offer did not begin after that newer snapshot was offered to it |
| `HubRuns.PromptConsumerKeepsUp` | backend/internal/realtime/websocket.go:345-362 | a consumer whose own offer is done before anything newer is installed is offered and reaches strictly increasing revisions, up to the room's |
| `HubRuns.LateOfferEvictsNewer` | backend/internal/realtime/hub.go:47-59 | a run of the hub in which a consumer that saw revision 1 when it registered offers it to itself after revision 2 was offered, and is left with revision 1 |
| `HubRuns.LateOfferCanBeHarmless` | backend/internal/realtime/hub.go:47-59 | a run in which a newer snapshot is installed before the late offer, which is made first: the consumer still ends on the newest revision |
| `HubRuns.OfferIsGivenUp` | backend/internal/realtime/websocket.go:345-362 | a run of the hub in which the offer of revision 3 finds the slot filled again by the late offer and gives up at its third select |
| `HubRuns.ReceiveAllOfConsumer` | frontend/src/realtime.js:52-68 | the client that receives everything a quiet consumer was sent ends on the room's revision, is reconnecting or was stopped, if that revision was not missed, and falls behind if it was |
| `Delivery.SnapshotQueue.Offer` | backend/internal/realtime/websocket.go:345-362 | the three selects: the snapshot is sent unless the slot was full and another sender filled it again before the last select; an eviction is counted iff this offer dropped an unread snapshot |
| `Delivery.SnapshotQueue.Receive` | backend/internal/realtime/websocket.go:344 | takes what waits and leaves the slot empty |
| `Hub.LocalRoom.Register` | backend/internal/realtime/hub.go:47-54 | under the lock a consumer is registered under a new id and sees the current snapshot; one step of the interleaved room |
| `Hub.LocalRoom.OfferSeen` | backend/internal/realtime/hub.go:55-57 | after the lock, it is offered what it saw, which fills its queue; three selects of the interleaved room |
| `Hub.LocalRoom.InstallNewer` | backend/internal/realtime/hub.go:143-163 | under the lock the newer snapshot becomes the room's, a gap is counted iff a hint skipped a revision; one step of the interleaved room |
| `Hub.LocalRoom.OfferNewest` | backend/internal/realtime/hub.go:164-166 | one consumer is offered the installed snapshot; three selects of the interleaved room |
| `Hub.LocalRoom.Acquire` | backend/internal/realtime/hub.go:47-59 | undisturbed, a consumer that joins an existing room starts with the current snapshot |
| `Hub.LocalRoom.Reconcile` | backend/internal/realtime/hub.go:119-168 | installs a loaded snapshot iff it is newer and was asked for and offers it to every consumer; delivered revisions strictly increase; the whole is a run of install and select steps |
| `Hub.LocalRoom.HandleEvent` | backend/internal/realtime/hub.go:107-117 | foreign hints change nothing; a newer hint or a reconnect brings the room to at least the loaded revision |
| `Hub.LocalRoom.Release` | backend/internal/realtime/hub.go:170-183 | removes one consumer and nothing else |
| `Client.ReceiveAll` | frontend/src/realtime.js:52-68 | once the frames of a socket are through, in whatever order and with whatever gaps, the client has reached every revision among them, or is reconnecting, or was stopped |
| `Client.FramesAreMappable` | frontend/src/realtime.js:10-25 | the browser maps every frame the server builds for an account iff its revision is a safe integer, and reads back revision, account and role |
| `Client.RoomConnection.OnMessage` | frontend/src/realtime.js:52-68 | a frame is delivered iff it is newer and next in line or the first of its socket; a gap closes the socket and schedules a reconnect; delivered revisions strictly increase |
| `Client.RoomConnection.ScheduleReconnect` | frontend/src/realtime.js:36-42 | one timer at a time, none after stopping, each with the next delay |
| `Client.RoomConnection.OnClose` | frontend/src/realtime.js:70 | a closed socket has a reconnect pending unless the client was stopped |
| `Client.RoomConnection.Stop` | frontend/src/realtime.js:74-78 | stopping cancels the timer and closes the socket |
| `Client.DelaysGrowToTenSeconds` | frontend/src/realtime.js:28 | reconnect delays grow from one second to ten, reached with the fifth attempt |
| `Keys.PayloadIsHint` | backend/internal/room/adapter/postgres/reconciliation.go:172-179 | the parser accepts "code:round" as that code and round exactly for admissible codes and positive 64-bit rounds within the size bound |
| `Keys.HintIsUnique` | backend/internal/room/adapter/postgres/listener.go:45-67 | a payload is the hint of at most one code and round |
| `Keys.ParseRoomHint` | backend/internal/room/adapter/postgres/listener.go:45-67 | returns the code and the round of a hint, and nothing iff the payload is no hint |
| `Keys.ParseUint` | backend/internal/room/adapter/postgres/listener.go:62-65 | accepts exactly the decimal digits of a 64-bit number and returns its value |
| `Keys.TailIsInjective` | backend/internal/room/adapter/postgres/repository.go:650-652 | "code:round" determines code and round whatever colons the code contains |
| `Keys.AccountNamesAreInjective` | backend/internal/room/adapter/postgres/repository.go:648-652 | account ids of users, escrows, house and mint never collide |
| `Keys.BusinessTextsAreInjective` | backend/internal/room/adapter/postgres/repository.go:743 | stake, settlement and recharge keys never collide while account ids hold no colon |
| `Keys.ColonsBreakRechargeKeys` | backend/internal/room/adapter/postgres/commands.go:351 | two recharge keys have the same text iff account and command agree, or one account is the other, a colon and a text that the other command starts with, before a colon |
| `Keys.ShortCodesFit` | backend/internal/room/adapter/postgres/reconciliation.go:172-176 | the hint of a code of up to 107 characters fits its bound for every 64-bit round |
| `Preservation.ShortCodesReconcile` | backend/internal/room/application/service.go:302-311 | with such a code, as the generated ones of six letters, a claimed resolution always commits, and a claimed advance commits iff the aggregate loads and both players can pay |
| `Ledger.PostKeepsSound` | backend/internal/room/adapter/postgres/repository.go:794-810 | posting a new balanced transaction changes each cached balance by exactly what it posts and keeps the ledger sound |
| `Money.StakeMoves` | backend/internal/room/adapter/postgres/repository.go:744-768 | a stake moves 50 from each player to the escrow under its unused key |
| `Money.SettleMoves` | backend/internal/room/adapter/postgres/repository.go:794-815 | a settlement always succeeds on a funded unsettled round, empties the escrow by the result and adds the history row |
| `Money.EffectsAreBalanced` | backend/internal/room/adapter/postgres/repository.go:818-831 | the settlement postings sum to zero and give every account exactly its share |
| `Money.RechargeMoves` | backend/internal/room/adapter/postgres/commands.go:350-364 | a recharge is positive, uses a new key and moves its amount from the mint to the account |
| `Room.Room.Join` | backend/internal/room/domain/room.go:165-180 | seats the guest, or fails as specified and changes nothing |
| `Room.Room.SubmitMove` | backend/internal/room/domain/room.go:182-206 | records the move and resolves on the second one, or fails unchanged |
| `Room.Room.RequestNextRound` | backend/internal/room/domain/room.go:208-234 | records the request and starts the next round on the second one, or fails unchanged |
| `Room.Room.ResolveCommittedMoves` | backend/internal/room/domain/room.go:239-257 | resolves two recorded moves, or fails unchanged |
| `Room.Room.AdvanceCommittedNextRound` | backend/internal/room/domain/room.go:261-281 | starts the next round on two recorded requests, or fails unchanged |
| `Room.Room.Leave` | backend/internal/room/domain/room.go:283-295 | closes the room, or fails unchanged, in particular during an unfinished round of two |
| `Room.Room.Forfeit` | backend/internal/room/domain/room.go:299-325 | the other player wins, or fails unchanged |
| `Room.Room.ResolveInactivity` | backend/internal/room/domain/room.go:328-351 | draw on no move, win of the one mover found by the loop, refused with two moves |
| `Room.Room.ResolveDeadlineDraw` | backend/internal/room/domain/room.go:354-361 | a draw whatever moves are there, or fails unchanged |
| `Room.Room.PublicView` | backend/internal/room/domain/room.go:379-395 | moves and result are shown iff the round is resolved |
| `Room.Restore` | backend/internal/room/domain/room.go:124-163 | accepts exactly the restorable states, and rebuilds the same state |
| `Room.ValidResolvedMoves` | backend/internal/room/domain/room.go:433-450 | holds iff the result is the one the recorded moves give |
| `Repository.Repository.Load` | backend/internal/room/adapter/postgres/repository.go:467-516 | the aggregate the rows stand for, or why there is none; roles by seat |
| `Repository.Repository.DecodeAggregateRows` | backend/internal/room/adapter/postgres/repository.go:518-551 | the loops collect exactly the rows, seats in order |
| `Repository.Repository.Save` | backend/internal/room/adapter/postgres/repository.go:553-641 | the statement leaves exactly the rows of the saved aggregate; other rooms are untouched |
| `Repository.Repository.LockWalletBalances` | backend/internal/room/adapter/postgres/repository.go:659-681 | succeeds iff the ids are distinct and all accounts exist, with their balances |
| `Repository.Repository.Post` | backend/internal/room/adapter/postgres/repository.go:744-759 | a used key posts nothing; else each account gets the sum of its postings |
| `Repository.Repository.FundRound` | backend/internal/room/adapter/postgres/repository.go:683-769 | both stakes, the funded mark and the inactivity deadline, or the error |
| `Repository.Repository.SettleRound` | backend/internal/room/adapter/postgres/repository.go:771-816 | payout and history row, nothing on a recorded round, or the error |
| `Repository.Repository.Create` | backend/internal/room/adapter/postgres/commands.go:32-81 | room, round 1, host seat, revision 1 and outbox row, or the error |
| `Repository.Repository.SubmitMove` | backend/internal/room/adapter/postgres/commands.go:129-145 | records the move under the caller's role in the current round, once |
| `Repository.Repository.RequestNextRound` | backend/internal/room/adapter/postgres/commands.go:147-160 | records the request likewise on a resolved round |
| `Repository.Repository.Join` | backend/internal/room/adapter/postgres/commands.go:84-127 | aggregate, stakes, seat, presence, save and revision together, or the error |
| `Repository.Repository.Leave` | backend/internal/room/adapter/postgres/commands.go:249-325 | closes the room and announces it, or the error |
| `Repository.Repository.Recharge` | backend/internal/room/adapter/postgres/commands.go:341-364 | the mint pays the account once per key, else a unique violation |
| `Repository.Repository.Execute` | backend/internal/room/adapter/postgres/commands.go:258-325 | replay, conflict, refusal and rollback of the whole transaction, or effect and receipt together |
| `Repository.Repository.FindReceipt` | backend/internal/room/adapter/postgres/commands.go:412-434 | replay iff account, operation and hash match, conflict iff they do not |
| `Repository.Repository.ClaimRoomTransition` | backend/internal/room/adapter/postgres/reconciliation.go:143-170 | claims iff the round is eligible and then changes only its status |
| `Repository.Repository.ReconcileRoom` | backend/internal/room/adapter/postgres/reconciliation.go:73-141 | commits the whole transition or nothing; the report counts the claim, and a transition undone only because its hint was too long is still counted |
| `Repository.Repository.ReconcileBatch` | backend/internal/room/adapter/postgres/reconciliation.go:21-71 | the batch is one reconcile transaction per claim and nothing else; attempts = wins = min(batch, eligible), no no-ops; eligible rooms drop by the successes; failed iff a failure is counted |
| `Repository.Repository.Drain` | backend/internal/worker/reconciliation.go:164-174 | the drain is one reconcile transaction per claim; without a failure exactly min(E, B*M) claims, max(0, E - B*M) rooms left, and settled + advanced = claims |
| `Repository.Repository.OpenConnection` | backend/internal/room/adapter/postgres/deadlines.go:14-80 | registers the connection; a role that was absent becomes present, its waiting disconnect deadline is cancelled, the revision grows |
| `Repository.Repository.RenewConnection` | backend/internal/room/adapter/postgres/deadlines.go:82-99 | extends an open lease of a valid session, else unauthorized |
| `Repository.Repository.CloseConnection` | backend/internal/room/adapter/postgres/deadlines.go:105-174 | closes once; the last live connection of a role starts a new generation and its deadline |
| `Repository.Repository.ReapExpiredConnections` | backend/internal/room/adapter/postgres/deadlines.go:176-210 | closes each overdue connection at the end of its lease and counts all of them; whoever is then present holds a live lease |
| `Repository.Repository.NextApplicableDeadline` | backend/internal/room/adapter/postgres/deadlines.go:356-406 | finds the least applicable due deadline and cancels exactly those before it, or cancels all |
| `Repository.Repository.ActiveRoles` | backend/internal/room/adapter/postgres/deadlines.go:408-428 | true exactly for the seats with an open connection whose lease runs |
| `Repository.Repository.ApplyVerdict` | backend/internal/room/adapter/postgres/deadlines.go:281-324 | forfeit, draw or inactivity on the aggregate as the leases say; nothing when the absent role is live |
| `Repository.Repository.ProcessNextDeadline` | backend/internal/room/adapter/postgres/deadlines.go:212-346 | never fails on a valid database; claims, skips, decides, settles and concludes as specified |
| `Repository.Repository.CleanupDeadlines` | backend/internal/room/adapter/postgres/deadlines.go:430-448 | removes exactly the concluded deadlines and closed connections before the time, and counts them |
| `Repository.Repository.CleanupCommandReceipts` | backend/internal/room/adapter/postgres/commands.go:404-410 | removes exactly the expired receipts |
| `Repository.Repository.Balance` | backend/internal/room/adapter/postgres/repository.go:371-388 | creates the wallet if missing and returns its balance |
| `Reconciliation.ReconciliationReport.Add` | backend/internal/worker/reconciliation.go:34-47 | adds all counters and keeps the larger backlog |
| `MemoryRepository.Repository.FundRound` | backend/internal/room/adapter/memory/repository.go:413-439 | stakes and escrow, or the error, with the wallets that a failed attempt created |
| `MemoryRepository.Repository.SettleRound` | backend/internal/room/adapter/memory/repository.go:441-465 | payout and history entry, nothing on an empty escrow |
| `MemoryRepository.Repository.PlayerForAccount` | backend/internal/room/adapter/memory/repository.go:488-498 | a seat the account owns, none iff it owns none |
| `MemoryRepository.Repository.Create` | backend/internal/room/adapter/memory/repository.go:130-147 | room and wallet, or the error |
| `MemoryRepository.Repository.JoinFunded` | backend/internal/room/adapter/memory/repository.go:149-188 | join, stakes, ownership and presence of both players, or the error |
| `MemoryRepository.Repository.SubmitMoveAndSettle` | backend/internal/room/adapter/memory/repository.go:190-219 | move, funding and settlement at once, or the error |
| `MemoryRepository.Repository.RequestNextRoundAndFund` | backend/internal/room/adapter/memory/repository.go:221-247 | request, and advance with the stakes on the second one, or the error |
| `MemoryRepository.Repository.Leave` | backend/internal/room/adapter/memory/repository.go:249-269 | the closed room, or the error |
| `MemoryRepository.Repository.Recharge` | backend/internal/room/adapter/memory/repository.go:381-398 | credits once per account and key with the per-wallet overflow check |
| `MemoryRepository.Repository.RefreshPresence` | backend/internal/room/adapter/memory/repository.go:300-329 | the player was seen, every player seen before starts a new generation, and each gets a lease; unauthorized without a seat |
| `MemoryRepository.Repository.ForfeitExpired` | backend/internal/room/adapter/memory/repository.go:331-372 | forfeits iff the presence expired and the last other player proved presence later |
| `MemoryRepository.Repository.ExecuteCommand` | backend/internal/room/adapter/memory/repository.go:111-128 | first answer, conflict, or effect and receipt |

## Left out

- PostgreSQL itself: a transaction is one atomic step, so lock queues, deadlocks, isolation anomalies and snapshot rules inside one statement are not modelled; unique keys, checks and foreign keys are error results or proved invariants.
- Deletion of web sessions and its cascade into room connections: it would remove connections without a presence step, so the presence properties assume that only `CleanupDeadlines` removes them. Whether a session is valid is a parameter.
- The older PostgreSQL paths (Create, JoinFunded, SubmitMoveAndSettle, RequestNextRoundAndFund, write, RefreshPresence, ForfeitExpired): the server uses the command paths; the old ones change revisions without outbox rows.
- Clocks: times are whole seconds and every `now` is a parameter, the database's `now()` included. Created-at columns, and with them the age of the oldest backlog, claim lag and durations in reports, are left out.
- Rounds, revisions and wins are unbounded, and so are the PostgreSQL balances and posting amounts, which are `bigint` columns; `uint64` wrap-around of rounds, `bigint` overflow of balances and the `int32` cast of wins are not modelled. 64-bit width is modelled for in-memory wallets, retry delays and parsed rounds.
- Presence rows are keyed by role instead of player; a player holds one seat. The presence leases that a join answers with are left out.
- Store.Effect: the best-effort reconciliation after a recorded action is a transaction of its own, which may or may not follow.
- Repository.Repository.SelectEligible: does not order the candidates by age; any order is allowed, and the properties hold for all of them.
- Repository.Repository.ReapExpiredConnections: closes the overdue connections in any order instead of by lease end.
- Repository.Repository.ReconcileRoom: the claim's rollback is explicit; the row lock taken before the save has no counterpart.
- Repository.Repository.SaveVerdict: the deadline path's outbox insert ignores conflicts; it is modelled as a plain insert, which is proved never to conflict.
- OutboxWorker.Worker.RunOnce: one undisturbed pass; which claimable rows it claims, and their order, is a parameter. Passes that interleave, and claims that are lost, are covered by the run theorems of `Outbox`. The backlog gauges are left out.
- DeadlineWorker.Worker.RunOnce: one undisturbed pass; steps that interleave with it are covered by the run theorems.
- Refinement.RunsAgree: does not compare revisions, presence, deadlines and the outbox; each recorded action is reconciled at once (`DelayedReconciliation` says what a delay changes); it covers commands that are refused, repeated or fail, and those that the database performs with account ids other than "house" and without a colon, a non-zero expected round, a reconciliation that does not fail, and recharges that fit in 64 bits together. The two do differ on the others: `Refinement.RequestAcceptedIffPayable` and `MemoryRuns.WinningOverflows` say when, and a notification that is too long fails in the database only. A recharge whose key was used and whose receipt is gone is left out.
- Refinement.CommandRefines: the same exclusions, for one command without its receipt.
- MemoryRepository.Repository.JoinFunded: credentials are folded into the owners (digests are taken as injective), and a stored room is a value in the map, so aliasing of room pointers is not captured.
- MemoryRuns.CoinsAreConserved: Events and Analytics of the in-memory repository do not touch wallets and are left out.
- Keys.ParseRoomHint: letters and digits in room codes are ASCII.
- Hub.LocalRoom.Acquire: one lifetime of a hub room; subscriptions and cancellation are left out. `HubRuns` interleaves what happens in between.
- Hub.LocalRoom.Release: the teardown of an emptied room, racing with a new acquisition, is left out.
- Hub.LocalRoom.Reconcile: two reconciliations of one room do not overlap, as its lock ensures; the loader's answer is a parameter.
- Delivery.SnapshotQueue.Offer: at most one other sender and the reader interfere; any interleaving of the selects is in `HubRuns`.
- OutboxWorker.Worker.ClaimBatch: which claimable rows are claimed, and their order, is a parameter.
- DeadlineRuns.HostGoneBlocksTheWorker: one direction for one close; `DeadlineWorker.RunEndsIffNobodyIsAbandoned` has both.
- Client.RoomConnection.OnMessage: a callback that throws is left out, and mapping a room is a parameter of the frame.
- `false` entries in the next-round request map: every producer writes `true`, so a set stands for the map.
- HTTP routing, sessions, hashing, random codes and tokens, Redis, socket I/O, tickers, metrics, migrations, problem reports and the React views.
