// The asynchronous form refines the synchronous one: recording an action in
// the database and then reconciling the room does what the in-memory
// repository does at once.
module Refinement {
  import opened Prelude
  import opened Game
  import opened GameRuns
  import opened Ledger
  import opened Money
  import opened Tables
  import opened RowInvariant
  import opened OutboxWorker
  import opened Store
  import opened Invariant
  import opened Preservation
  import opened Simulation
  import opened Memory
  import opened MemoryInvariant
  import I = Idempotency
  import MR = MemoryRuns
  import MI = MemoryIdempotency
  import A = Answers
  import Keys

  // The accounts of the seats, by player.
  function SeatOwners(seats: map<Role, Seat>): map<string, string> {
    (if Host in seats then map[seats[Host].playerId := seats[Host].account] else map[]) +
    (if Guest in seats then map[seats[Guest].playerId := seats[Guest].account] else map[])
  }

  ghost predicate RelatedRoom(code: string, rows: RoomRows, r: StoredRoom) {
    && rows.currentRound in rows.rounds
    && r.room == Persisted(code, rows)
    && r.owners == SeatOwners(rows.seats)
    && forall n :: n in r.funded <==> n in rows.rounds && rows.rounds[n].funded
  }

  // The same coins on both sides.
  ghost predicate RelatedMoney(balances: map<AccountId, int>, wallets: map<string, int>) {
    && Lookup(wallets, HouseWallet) == Lookup(balances, House)
    && (forall a | SafeAccount(a) :: Lookup(wallets, a) == Lookup(balances, User(a)))
    && (forall key :: Lookup(wallets, EscrowWallet(key)) == Lookup(balances, Escrow(key)))
  }

  predicate RelatedRow(row: HistoryRow, p: Played) {
    row.result == p.result && row.winner == p.winner && row.forfeited == p.forfeited && row.houseEarnings == p.houseEarnings
  }

  ghost predicate RelatedHistory(rows: map<RoundKey, HistoryRow>, history: seq<Played>) {
    && (forall key :: key in rows <==> key in HistoryKeys(history))
    && (forall p | p in history :: p.key in rows && RelatedRow(rows[p.key], p))
  }

  ghost predicate RelatedRecharges(log: seq<Transaction>, recharges: map<string, Recharged>) {
    forall a, k | SafeAccount(a) :: RechargeName(a, k) in recharges <==> RechargeKey(a, k) in Ledger.Keys(log)
  }

  // Same rooms, same coins, same history; revisions, presence, deadlines and
  // the outbox are not compared.
  ghost predicate Related(db: Db, m: Memory.State) {
    && m.rooms.Keys == db.rooms.Keys
    && (forall c | c in db.rooms :: RelatedRoom(c, db.rooms[c], m.rooms[c]))
    && RelatedMoney(db.funds.book.balances, m.wallets)
    && RelatedHistory(db.funds.history, m.history)
    && RelatedRecharges(db.funds.book.log, m.recharges)
  }

  lemma {:induction false} EmptyIsRelated()
    ensures Related(EmptyDb(), EmptyState)
  {
    forall key ensures Lookup(EmptyState.wallets, EscrowWallet(key)) == 0 { SafeIsNoEscrow(HouseWallet, key); }
  }

  // A command as the database runs it: an action is recorded, and then its
  // room is reconciled.
  ghost function Reconciled(db: Db, code: string, now: int): Db
    requires code in db.rooms
  {
    match Reconcile(db, code, db.rooms[code].currentRound, now) case None => db case Some(attempt) => Committed(db, attempt)
  }

  ghost function Performed(db: Db, account: string, key: string, call: Call, now: int): Db {
    match Store.Effect(db, account, key, call, now)
    case Failed(_) => db
    case Done(after, _) =>
      if (call.CallMove? || call.CallNextRound?) && call.code in after.rooms then Reconciled(after, call.code, now) else after
  }

  // ---- Money ----

  lemma {:induction false} RelatedStakes(
    balances: map<AccountId, int>, wallets: map<string, int>, after: map<AccountId, int>, paid: map<string, int>,
    key: RoundKey, host: string, guest: string)
    requires RelatedMoney(balances, wallets) && SafeAccount(host) && SafeAccount(guest)
    requires forall a :: Lookup(after, a) == Lookup(balances, a) - (if a == User(host) || a == User(guest) then RoundStake else 0)
                                             + (if a == Escrow(key) then RoundStake * 2 else 0)
    requires forall w :: Lookup(paid, w) == Lookup(wallets, w) - (if w == host || w == guest then RoundStake else 0)
                                            + (if w == EscrowWallet(key) then RoundStake * 2 else 0)
    ensures RelatedMoney(after, paid)
  {
    forall k ensures Lookup(paid, EscrowWallet(k)) == Lookup(after, Escrow(k)) {
      SafeIsNoEscrow(host, k);
      SafeIsNoEscrow(guest, k);
      if k != key && EscrowWallet(k) == EscrowWallet(key) { EscrowsDiffer(k, key); }
    }
    SafeIsNoEscrow(HouseWallet, key);
    forall a | SafeAccount(a) ensures Lookup(paid, a) == Lookup(after, User(a)) { SafeIsNoEscrow(a, key); }
  }

  lemma {:induction false} RelatedPayout(
    balances: map<AccountId, int>, wallets: map<string, int>, after: map<AccountId, int>, paid: map<string, int>,
    key: RoundKey, host: string, guest: string, o: Game.Outcome)
    requires RelatedMoney(balances, wallets) && SafeAccount(host) && SafeAccount(guest)
    requires forall a :: Lookup(after, a) == Lookup(balances, a) + SettlementShare(o, host, guest, key, a)
    requires forall w :: Lookup(paid, w) == Lookup(wallets, w) + Share(o, host, guest, key, w)
    ensures RelatedMoney(after, paid)
  {
    forall k ensures Lookup(paid, EscrowWallet(k)) == Lookup(after, Escrow(k)) {
      SafeIsNoEscrow(host, k);
      SafeIsNoEscrow(guest, k);
      SafeIsNoEscrow(HouseWallet, k);
      if k != key && EscrowWallet(k) == EscrowWallet(key) { EscrowsDiffer(k, key); }
    }
    SafeIsNoEscrow(HouseWallet, key);
    forall a | SafeAccount(a) ensures Lookup(paid, a) == Lookup(after, User(a)) { SafeIsNoEscrow(a, key); }
  }

  // ---- Rooms ----

  // One room changed on both sides.
  lemma {:induction false} RelatedRoomsAfter(db: Db, m: Memory.State, code: string, rows: RoomRows, r: StoredRoom)
    requires m.rooms.Keys == db.rooms.Keys && forall c | c in db.rooms :: RelatedRoom(c, db.rooms[c], m.rooms[c])
    requires RelatedRoom(code, rows, r)
    ensures var rooms, stored := db.rooms[code := rows], m.rooms[code := r];
            stored.Keys == rooms.Keys && forall c | c in rooms :: RelatedRoom(c, rooms[c], stored[c])
  {}

  lemma {:induction false} OneOwner(seats: map<Role, Seat>, role: Role, account: string)
    requires role in seats && seats[role].account == account
    requires Host in seats && Guest in seats ==> seats[Host].playerId != seats[Guest].playerId && seats[Host].account != seats[Guest].account
    ensures var owners, id := SeatOwners(seats), seats[role].playerId;
            id in owners && owners[id] == account && forall i | i in owners && owners[i] == account :: i == id
  {
    assert role == Host || role == Guest;
  }

  // The account's seat is the player it acts for in memory.
  lemma {:induction false} SameSeat(code: string, rows: RoomRows, m: Memory.State, account: string)
    requires RowsOk(rows) && MemoryOk(m) && code in m.rooms && RelatedRoom(code, rows, m.rooms[code]) && RoleOf(rows, account).Some? && account != ""
    ensures RoleOf(rows, account).value in rows.seats
    ensures var id := rows.seats[RoleOf(rows, account).value].playerId;
            WorkingCopy(m, code, account) == Ok(Working(id, Persisted(code, rows)))
  {
    hide RowsOk, MemoryOk, RoomOk, Restorable, RoleOf, Persisted;
    SeatOfRole(rows, account);
    var role := RoleOf(rows, account).value;
    OneOwner(rows.seats, role, account);
    MR.RoomOfMemory(m, code);
    MR.RoomIsRestorable(code, m.rooms[code]);
    assert Owns(m.rooms[code], account, rows.seats[role].playerId);
  }

  lemma {:induction false} RelatedSeats(code: string, rows: RoomRows, r: StoredRoom)
    requires RowsOk(rows) && RelatedRoom(code, rows, r) && RoomOk(code, r) && Full(rows)
    ensures |r.room.players| == 2
    ensures OwnerOf(r, r.room.players[0].id) == rows.seats[Host].account && OwnerOf(r, r.room.players[1].id) == rows.seats[Guest].account
    ensures SafeAccount(rows.seats[Host].account) && SafeAccount(rows.seats[Guest].account)
    ensures rows.seats[Host].account != rows.seats[Guest].account
  {
    hide RoundsOk, ActionsOk, WinsOk, SafeAccount, Restorable;
    assert r.room.players == SeatPlayers(rows.seats);
    assert r.room.players[0].id in r.owners && r.room.players[1].id in r.owners;
  }

  // ---- One command at a time ----

  ghost predicate Aligned(db: Db, m: Memory.State) {
    DbOk(db) && MemoryOk(m) && Related(db, m)
  }

  lemma {:induction false} AlignedParts(db: Db, m: Memory.State)
    requires Aligned(db, m)
    ensures DbOk(db) && MemoryOk(m) && Related(db, m)
    ensures RelatedMoney(db.funds.book.balances, m.wallets) && RelatedHistory(db.funds.history, m.history)
    ensures RelatedRecharges(db.funds.book.log, m.recharges)
  {}

  lemma {:induction false} AlignedRoom(db: Db, m: Memory.State, code: string)
    requires Aligned(db, m) && code in db.rooms
    ensures code in m.rooms && RelatedRoom(code, db.rooms[code], m.rooms[code]) && RowsOk(db.rooms[code]) && RoomOk(code, m.rooms[code]) && code != ""
    ensures WellFormed(Persisted(code, db.rooms[code])) && Restorable(Persisted(code, db.rooms[code]))
    ensures Load(db, code) == Ok(Persisted(code, db.rooms[code]))
  {
    hide DbOk, MemoryOk, RowsOk;
    StoredIsWellFormed(db, code);
    MR.RoomOfMemory(m, code);
    MR.RoomIsRestorable(code, m.rooms[code]);
  }

  // The parts of the relation, put together again.
  lemma {:induction false} RelatedAgain(db: Db, m: Memory.State, after: Db, n: Memory.State, code: string)
    requires Related(db, m) && code in after.rooms && code in n.rooms
    requires after.rooms == db.rooms[code := after.rooms[code]] && n.rooms == m.rooms[code := n.rooms[code]]
    requires RelatedRoom(code, after.rooms[code], n.rooms[code])
    requires RelatedMoney(after.funds.book.balances, n.wallets) && RelatedHistory(after.funds.history, n.history)
    requires RelatedRecharges(after.funds.book.log, n.recharges)
    ensures Related(after, n)
  {
    hide RelatedRoom, RelatedMoney, RelatedHistory, RelatedRecharges;
  }

  lemma {:induction false} LeaveRefines(db: Db, m: Memory.State, code: string, account: string, now: int)
    requires Aligned(db, m) && account != "" && Store.LeaveRoom(db, code, account, now).Done?
    ensures var n := Memory.LeaveRoom(m, code, account);
            n.answer.Ok? && Related(Store.LeaveRoom(db, code, account, now).db, n.state)
  {
    hide DbOk, MemoryOk, RowsOk, RoomOk, Restorable, WellFormed, Saved, Persisted, RoleOf, ViewOf, RelatedMoney, RelatedHistory, RelatedRecharges, RelatedRoom;
    hide WorkingCopy;
    AlignedRoom(db, m, code);
    var rows := db.rooms[code];
    SameSeat(code, rows, m, account);
    RelatedIsPersisted(code, rows, m.rooms[code]);
    LeftRows(code, rows, rows.seats[RoleOf(rows, account).value].playerId);
    SavedClosed(code, rows, rows.revision + 1);
    ClosedRelated(code, rows, m.rooms[code]);
    RelatedAgain(db, m, Store.LeaveRoom(db, code, account, now).db, Memory.LeaveRoom(m, code, account).state, code);
  }

  lemma {:induction false} RelatedIsPersisted(code: string, rows: RoomRows, r: StoredRoom)
    requires RelatedRoom(code, rows, r)
    ensures rows.currentRound in rows.rounds && r.room == Persisted(code, rows)
  {}

  lemma {:induction false} ClosedRelated(code: string, rows: RoomRows, r: StoredRoom)
    requires RelatedRoom(code, rows, r)
    ensures RelatedRoom(code, rows.(closed := true, revision := rows.revision + 1), r.(room := r.room.(closed := true), revision := r.revision + 1))
  {}

  // ---- Moves ----

  // Recording a move while the other player has not moved is submitting it.
  lemma {:induction false} RecordedRelated(code: string, rows: RoomRows, r: StoredRoom, after: RoomRows, t: RoomState)
    requires RelatedRoom(code, rows, r) && after.rounds == rows.rounds && after.seats == rows.seats && after.currentRound == rows.currentRound
    requires t == Persisted(code, after)
    ensures RelatedRoom(code, after, r.(room := t, revision := r.revision + 1))
  {}

  // What recording a move commits.
  lemma {:induction false} MoveRefines(db: Db, m: Memory.State, code: string, account: string, key: string, move: Move, now: int)
    requires Aligned(db, m) && account != "" && IsValidMove(move) && RecordMove(db, code, account, move, now).Done?
    ensures var n := SubmitMoveAndSettle(m, code, account, move);
            n.answer.Ok? && Related(Performed(db, account, key, CallMove(code, move), now), n.state)
  {
    hide DbOk, MemoryOk, RowsOk, RoomOk, Restorable, WellFormed, Persisted, RoleOf, RelatedMoney, RelatedHistory, RelatedRecharges, RelatedRoom;
    hide WorkingCopy, RecordMove, Reconcile, Finished, SubmitMove, Eligible, ViewOf;
    MoveEffect(db, code, account, move, now);
    AlignedRoom(db, m, code);
    var rows := db.rooms[code];
    var after := RecordMove(db, code, account, move, now).db;
    SameSeat(code, rows, m, account);
    RelatedIsPersisted(code, rows, m.rooms[code]);
    var s, id := Persisted(code, rows), rows.seats[RoleOf(rows, account).value].playerId;
    var t := SubmitMove(s, id, move).value;
    MR.SubmittedShape(s, id, move);
    if t.resolved {
      SecondMoveRefines(db, m, code, after, s, id, move, now);
    } else {
      NotBothMoved(code, after, s, id, move);
      ReconciledWasEligible(after, code, after.rooms[code].currentRound, now);
      MR.AlreadyFunded(m, code, t, false);
      RecordedRelated(code, rows, m.rooms[code], after.rooms[code], t);
      RelatedAgain(db, m, after, Finished(m, code, t, false).state, code);
    }
  }

  // With one move missing there is nothing to reconcile.
  lemma {:induction false} NotBothMoved(code: string, db: Db, s: RoomState, id: string, move: Move)
    requires DbOk(db) && code in db.rooms && WellFormed(s) && SubmitMove(s, id, move).Ok? && !SubmitMove(s, id, move).value.resolved
    requires db.rooms[code].currentRound in db.rooms[code].rounds && Persisted(code, db.rooms[code]) == s.(moves := s.moves[id := move])
    ensures SubmitMove(s, id, move).value == Persisted(code, db.rooms[code])
    ensures Eligible(db, code, db.rooms[code].currentRound).None?
  {
    hide DbOk, RowsOk;
    StoredIsWellFormed(db, code);
    var rows := db.rooms[code];
    PersistedIsWellFormed(code, rows);
  }

  // Paying out an open escrow, on both sides.
  lemma {:induction false} RelatedSettlement(f: Funds, wallets: map<string, int>, history: seq<Played>, stored: StoredRoom, t: RoomState, host: string, guest: string)
    requires FundsOk(f) && RelatedMoney(f.book.balances, wallets) && RelatedHistory(f.history, history)
    requires (forall w | w in wallets :: wallets[w] >= 0) && Total(wallets) <= MaxInt64
    requires |t.players| == 2 && IsDecided(t.result) && host != guest && SafeAccount(host) && SafeAccount(guest)
    requires host == OwnerOf(stored, t.players[0].id) && guest == OwnerOf(stored, t.players[1].id)
    requires {host, guest, HouseWallet} <= wallets.Keys
    requires var key := RoundKey(t.code, t.round); CanSettle(f, key, host, guest) && Lookup(wallets, EscrowWallet(key)) == RoundStake * 2
    ensures var key := RoundKey(t.code, t.round);
            var settled, paid := Settle(f, key, host, guest, t.result, t.forfeited != ""), Memory.SettleRound(wallets, history, stored, t);
            && settled.Ok? && RelatedMoney(settled.value.book.balances, paid.wallets)
            && RelatedHistory(settled.value.history, paid.history)
            && forall a, k :: RechargeKey(a, k) in Ledger.Keys(settled.value.book.log) <==> RechargeKey(a, k) in Ledger.Keys(f.book.log)
  {
    hide FundsOk, RelatedMoney, SafeAccount, Settle, Memory.SettleRound, CanSettle, RelatedHistory, RowOf, SettlementEffects, OwnerOf, EscrowWallet;
    var key := RoundKey(t.code, t.round);
    SafeNames(host, guest, key);
    Money.SettleMoves(f, key, host, guest, t.result, t.forfeited != "");
    PayOutMoves(wallets, history, stored, t);
    var settled, paid := Settle(f, key, host, guest, t.result, t.forfeited != "").value, Memory.SettleRound(wallets, history, stored, t);
    CanSettleKey(f, key, host, guest);
    SettledBalances(f.book.balances, settled.book.balances, wallets, paid.wallets, key, host, guest, t.result);
    SettledRowsRelated(f.history, history, key, host, guest, t.result, t.forfeited != "");
  }

  lemma {:induction false} SafeNames(host: string, guest: string, key: RoundKey)
    requires SafeAccount(host) && SafeAccount(guest)
    ensures host != HouseWallet && guest != HouseWallet && HouseWallet != EscrowWallet(key) && host != EscrowWallet(key) && guest != EscrowWallet(key)
  {
    SafeIsNoEscrow(host, key);
    SafeIsNoEscrow(guest, key);
    SafeIsNoEscrow(HouseWallet, key);
  }

  lemma {:induction false} CanSettleKey(f: Funds, key: RoundKey, host: string, guest: string)
    requires CanSettle(f, key, host, guest) && FundsOk(f)
    ensures key !in f.history && {House, Escrow(key), User(host), User(guest)} <= f.book.balances.Keys
  {}

  lemma {:induction false} SettledBalances(
    balances: map<AccountId, int>, after: map<AccountId, int>, wallets: map<string, int>, paid: map<string, int>,
    key: RoundKey, host: string, guest: string, o: Game.Outcome)
    requires RelatedMoney(balances, wallets) && SafeAccount(host) && SafeAccount(guest)
    requires after.Keys == balances.Keys && {House, User(host), User(guest), Escrow(key)} <= balances.Keys
    requires forall a | a in balances :: after[a] == balances[a] + SettlementShare(o, host, guest, key, a)
    requires paid.Keys == wallets.Keys && {HouseWallet, host, guest, EscrowWallet(key)} <= wallets.Keys
    requires forall w | w in wallets :: paid[w] == wallets[w] + Share(o, host, guest, key, w)
    ensures RelatedMoney(after, paid)
  {
    RelatedPayout(balances, wallets, after, paid, key, host, guest, o);
  }

  lemma {:induction false} SettledRowsRelated(rows: map<RoundKey, HistoryRow>, history: seq<Played>, key: RoundKey, host: string, guest: string, o: Game.Outcome, forfeited: bool)
    requires RelatedHistory(rows, history) && key !in rows
    ensures var effects := SettlementEffects(o, host, guest, key);
            RelatedHistory(rows[key := RowOf(o, host, guest, forfeited)], [Played(key, o, effects.winner, forfeited, effects.houseEarnings)] + history)
  {
    var effects := SettlementEffects(o, host, guest, key);
    var p := Played(key, o, effects.winner, forfeited, effects.houseEarnings);
    HistoryMore(p, history);
  }

  // ---- The second move ----

  // Both moves are recorded now, and reconciling resolves the round as
  // submitting the second move does.
  lemma {:induction false} BothMoved(code: string, db: Db, s: RoomState, id: string, move: Move)
    requires DbOk(db) && code in db.rooms && WellFormed(s) && SubmitMove(s, id, move).Ok? && SubmitMove(s, id, move).value.resolved
    requires db.rooms[code].currentRound in db.rooms[code].rounds && Persisted(code, db.rooms[code]) == s.(moves := s.moves[id := move])
    requires Full(db.rooms[code])
    ensures Eligible(db, code, db.rooms[code].currentRound) == Some(Resolving)
    ensures var u := Persisted(code, db.rooms[code]);
            && |u.players| == 2 && u.players[0].id in u.moves && u.players[1].id in u.moves
            && SubmitMove(s, id, move).value == Decide(u, MovesOutcome(u), "") && u.round == db.rooms[code].currentRound
  {
    hide DbOk;
    StoredIsWellFormed(db, code);
    PersistedIsWellFormed(code, db.rooms[code]);
  }

  lemma {:induction false} ResolvedState(db: Db, code: string, now: int)
    requires DbOk(db) && code in db.rooms && Eligible(db, code, db.rooms[code].currentRound) == Some(Resolving)
    requires Keys.HintFits(code, db.rooms[code].currentRound)
    ensures var rows := db.rooms[code];
            var after := Reconciled(db, code, now);
            && rows.currentRound in rows.rounds
            && var u := Persisted(code, rows);
               && |u.players| == 2 && u.players[0].id in u.moves && u.players[1].id in u.moves && Full(rows)
               && code in after.rooms && after.rooms == db.rooms[code := after.rooms[code]]
               && RelatedShape(code, rows, after.rooms[code], Decide(u, MovesOutcome(u), ""))
               && Ok(after.funds) == Settle(db.funds, RoundKey(code, rows.currentRound), rows.seats[Host].account, rows.seats[Guest].account, MovesOutcome(u), false)
               && CanSettle(db.funds, RoundKey(code, rows.currentRound), rows.seats[Host].account, rows.seats[Guest].account)
               && IsDecided(MovesOutcome(u))
  {
    hide DbOk, RowsOk, WellFormed, Persisted, Saved, Decide, DecidedRows, Settle, Load, MovesOutcome, CanSettle, Keys.HintFits, Eligible, RowOf, SaveAndSettle;
    hide ResolveCommittedMoves, SeatsHold, WithCancelled, RelatedShape, SeatOwners;
    var rows := db.rooms[code];
    var round := rows.currentRound;
    StoredIsWellFormed(db, code);
    ResolvableMoves(db, code, round);
    ResolveKeepsOk(db, code, round, now);
    ReconcileKeepsOk(db, code, round, now);
    ReconcileSteps(db, TxReconcile(code, round, now), code, round, now);
    var u := Persisted(code, rows);
    var t := Decide(u, MovesOutcome(u), "");
    var deadlines := WithCancelled(db.deadlines, RoundDeadlines(db, code, round), now);
    DecidedFields(u, MovesOutcome(u));
    SettledRows(db, code, t, deadlines, now);
    TransitionHolds(rows, u);
    ResolvedIsWellFormed(u);
    SaveThenLoad(code, rows, t, t.round, rows.revision + 1);
    SavedShape(code, rows, t, t.round, rows.revision + 1);
    FundsOfRooms(db, code);
    OpenRoundCanSettle(db.rooms, db.funds, code);
  }

  lemma {:induction false} FundsOfRooms(db: Db, code: string)
    requires DbOk(db)
    ensures Linked(db.rooms, db.funds) && FundsOk(db.funds)
  {
    hide RowsOk, ConnectionsOk, PresentOk, DeadlinesOk, Linked, FundsOk;
  }

  lemma {:induction false} ResolvedIsWellFormed(s: RoomState)
    requires WellFormed(s) && ResolveCommittedMoves(s, s.round).Ok?
    ensures WellFormed(ResolveCommittedMoves(s, s.round).value)
  {}

  lemma {:induction false} DecidedFields(s: RoomState, o: Game.Outcome)
    requires |s.players| == 2
    ensures var t := Decide(s, o, "");
            t.round == s.round && t.result == o && t.forfeited == "" && t.resolved && t.code == s.code && |t.players| == 2
            && t.players[0].id == s.players[0].id && t.players[1].id == s.players[1].id
  {}

  // The rows stand for `t`, with the same seats and the same funded rounds.
  ghost predicate RelatedShape(code: string, rows: RoomRows, after: RoomRows, t: RoomState) {
    && after.currentRound in after.rounds && Persisted(code, after) == t
    && SeatOwners(after.seats) == SeatOwners(rows.seats)
    && forall n :: n in after.rounds && after.rounds[n].funded <==> n in rows.rounds && rows.rounds[n].funded
  }

  lemma {:induction false} SavedShape(code: string, rows: RoomRows, t: RoomState, previousRound: nat, revision: nat)
    requires SeatsHold(rows, t) && t.round in rows.rounds && Persisted(code, Saved(rows, t, previousRound, revision)) == t
    ensures RelatedShape(code, rows, Saved(rows, t, previousRound, revision), t)
  {
    hide Persisted, SavedMoves, SavedRequests, ForfeitedRole;
  }

  lemma {:induction false} ShapeIsRelated(code: string, rows: RoomRows, after: RoomRows, r: StoredRoom, t: RoomState)
    requires RelatedRoom(code, rows, r) && RelatedShape(code, rows, after, t)
    ensures RelatedRoom(code, after, r.(room := t, revision := r.revision + 1))
  {}

  lemma {:induction false} SecondMoveRefines(db: Db, m: Memory.State, code: string, recorded: Db, s: RoomState, id: string, move: Move, now: int)
    requires Aligned(db, m) && DbOk(recorded) && code in db.rooms && code in recorded.rooms && code in m.rooms
    requires db.rooms[code].currentRound in db.rooms[code].rounds && s == Persisted(code, db.rooms[code]) && WellFormed(s) && Restorable(s)
    requires m.rooms[code].room == s && SubmitMove(s, id, move).Ok? && SubmitMove(s, id, move).value.resolved
    requires recorded.rooms[code].rounds == db.rooms[code].rounds && recorded.rooms[code].seats == db.rooms[code].seats
    requires recorded.rooms[code].currentRound == db.rooms[code].currentRound && recorded.funds == db.funds
    requires recorded.rooms == db.rooms[code := recorded.rooms[code]] && Full(recorded.rooms[code])
    requires Persisted(code, recorded.rooms[code]) == s.(moves := s.moves[id := move])
    requires Keys.HintFits(code, recorded.rooms[code].currentRound)
    ensures |SubmitMove(s, id, move).value.players| == 2
    ensures var n := Finished(m, code, SubmitMove(s, id, move).value, true);
            n.answer.Ok? && Related(Reconciled(recorded, code, now), n.state)
  {
    hide DbOk, MemoryOk, RowsOk, RoomOk, Restorable, WellFormed, Persisted, RelatedMoney, RelatedHistory, RelatedRecharges, RelatedRoom, RelatedShape;
    hide Reconcile, Finished, SubmitMove, Eligible, Decide, MovesOutcome, Settle, Memory.SettleRound, Keys.HintFits, CanSettle, SafeAccount, OwnerOf;
    hide EscrowWallet, Reconciled;
    hide Aligned, Related, Full, SeatOwners, Changed, FundsOk, Linked;
    AlignedParts(db, m);
    AlignedRoom(db, m, code);
    var rows := db.rooms[code];
    var r := m.rooms[code];
    MR.SubmittedShape(s, id, move);
    BothMoved(code, recorded, s, id, move);
    ResolvedState(recorded, code, now);
    var u := Persisted(code, recorded.rooms[code]);
    var t := SubmitMove(s, id, move).value;
    DecidedFields(u, MovesOutcome(u));
    PersistedNames(code, rows);
    PersistedNames(code, recorded.rooms[code]);
    SameFullness(rows, recorded.rooms[code]);
    RelatedSeats(code, rows, r);
    MR.OpenEscrow(m, code);
    SeatsInMemory(m, code);
    FundsOfRooms(db, code);
    MR.FinishedShape(m, code, t);
    RelatedSettlement(db.funds, m.wallets, m.history, r, t, rows.seats[Host].account, rows.seats[Guest].account);
    RecordedShape(code, rows, recorded.rooms[code], Reconciled(recorded, code, now).rooms[code], t);
    ShapeIsRelated(code, rows, Reconciled(recorded, code, now).rooms[code], r, t);
    RechargesKept(db.funds.book.log, Reconciled(recorded, code, now).funds.book.log, m.recharges);
    RelatedAgain(db, m, Reconciled(recorded, code, now), Finished(m, code, t, true).state, code);
  }

  lemma {:induction false} PersistedNames(code: string, rows: RoomRows)
    requires rows.currentRound in rows.rounds
    ensures Persisted(code, rows).code == code && Persisted(code, rows).round == rows.currentRound
  {}

  lemma {:induction false} SameFullness(rows: RoomRows, after: RoomRows)
    requires after.seats == rows.seats && Full(after)
    ensures Full(rows)
  {}

  lemma {:induction false} SeatsInMemory(m: Memory.State, code: string)
    requires MemoryOk(m) && code in m.rooms && |m.rooms[code].room.players| == 2
    ensures var r := m.rooms[code];
            && {OwnerOf(r, r.room.players[0].id), OwnerOf(r, r.room.players[1].id), HouseWallet} <= m.wallets.Keys
            && r.room.round in r.funded && r.room.round + 1 !in r.funded
            && Owners(r, r.room.players) == [OwnerOf(r, r.room.players[0].id), OwnerOf(r, r.room.players[1].id)]
  {
    hide SafeAccount, EscrowWallet;
    MR.SeatedOwners(m.rooms, m.wallets, code);
  }

  lemma {:induction false} RecordedShape(code: string, rows: RoomRows, recorded: RoomRows, after: RoomRows, t: RoomState)
    requires RelatedShape(code, recorded, after, t) && recorded.seats == rows.seats && recorded.rounds == rows.rounds
    ensures RelatedShape(code, rows, after, t)
  {}

  lemma {:induction false} RechargesKept(log: seq<Transaction>, after: seq<Transaction>, recharges: map<string, Recharged>)
    requires RelatedRecharges(log, recharges)
    requires forall a, k :: RechargeKey(a, k) in Ledger.Keys(after) <==> RechargeKey(a, k) in Ledger.Keys(log)
    ensures RelatedRecharges(after, recharges)
  {}

  // ---- Requests for the next round ----

  // Whether the requests of both players are there decides what is next.
  lemma {:induction false} AskedOutcome(code: string, db: Db, s: RoomState, id: string)
    requires DbOk(db) && code in db.rooms && WellFormed(s) && RequestNextRound(s, id, s.round).Ok?
    requires db.rooms[code].currentRound in db.rooms[code].rounds && Persisted(code, db.rooms[code]) == s.(requests := s.requests + {id})
    requires Full(db.rooms[code])
    ensures var t, u := RequestNextRound(s, id, s.round).value, Persisted(code, db.rooms[code]);
            if t.round > s.round then Eligible(db, code, db.rooms[code].currentRound) == Some(Advancing) <==> !db.rooms[code].closed
            else t == u && Eligible(db, code, db.rooms[code].currentRound).None?
    ensures !db.rooms[code].closed
    ensures NextRound(Persisted(code, db.rooms[code])) == NextRound(s)
  {
    hide DbOk;
    StoredIsWellFormed(db, code);
    PersistedIsWellFormed(code, db.rooms[code]);
  }

  lemma {:induction false} AdvancedState(db: Db, code: string, now: int)
    requires DbOk(db) && code in db.rooms && Eligible(db, code, db.rooms[code].currentRound) == Some(Advancing)
    requires var r := Reconcile(db, code, db.rooms[code].currentRound, now); r.Some? && r.value.Done?
    ensures var rows := db.rooms[code];
            var after, key := Reconciled(db, code, now), RoundKey(code, rows.currentRound + 1);
            && rows.currentRound in rows.rounds && Full(rows)
            && code in after.rooms && after.rooms == db.rooms[code := after.rooms[code]]
            && after.rooms[code].currentRound in after.rooms[code].rounds
            && Persisted(code, after.rooms[code]) == NextRound(Persisted(code, rows))
            && after.rooms[code].seats == rows.seats
            && after.rooms[code].rounds == rows.rounds[rows.currentRound + 1 := FreshRound.(funded := true)]
            && after.funds.history == db.funds.history
            && Ok(after.funds.book) == Stake(db.funds.book, key, rows.seats[Host].account, rows.seats[Guest].account)
            && Sound(db.funds.book) && StakeKey(key) !in Ledger.Keys(db.funds.book.log)
  {
    hide DbOk, RowsOk, WellFormed, Persisted, Saved, NextRound, AdvancedRows, Load, Keys.HintFits, Eligible, FundRound, Stake, WithDeadline;
    hide AdvanceCommittedNextRound, SeatsHold, CanStake;
    var rows := db.rooms[code];
    var round := rows.currentRound;
    StoredIsWellFormed(db, code);
    AdvanceableRequests(db, code, round);
    AdvanceKeepsOk(db, code, round, now);
    ReconcileSteps(db, TxReconcile(code, round, now), code, round, now);
    LoadIsPersisted(db, code);
    var s := Persisted(code, rows);
    var t := NextRound(s);
    TransitionHolds(rows, s);
    NextIsWellFormed(s);
    SavedAdvanced(code, rows, rows.revision + 1);
    RowsPositive(rows);
    var saved := SaveAndBump(db, code, t, s.round, now).value;
    SaveThenLoad(code, rows, t, s.round, rows.revision + 1);
    FundedNext(saved, code, t.round, WithRoundFunded(saved.rooms[code], t.round), now);
    FundedPersisted(code, saved.rooms[code]);
    FundsOfRooms(db, code);
    AdvancedFacts(rows, WithRoundFunded(saved.rooms[code], t.round));
    SoundFunds(db.rooms, db.funds, RoundKey(code, t.round));
  }

  lemma {:induction false} NextIsWellFormed(s: RoomState)
    requires WellFormed(s) && AdvanceCommittedNextRound(s, s.round).Ok?
    ensures WellFormed(NextRound(s)) && NextRound(s).code == s.code && NextRound(s).round == s.round + 1
  {}

  lemma {:induction false} FundedPersisted(code: string, rows: RoomRows)
    requires rows.currentRound in rows.rounds
    ensures Persisted(code, WithRoundFunded(rows, rows.currentRound)) == Persisted(code, rows)
  {}

  // Both stakes of a round, on both sides.
  lemma {:induction false} RelatedFunding(b: Book, wallets: map<string, int>, stored: StoredRoom, key: RoundKey, joining: Option<string>, host: string, guest: string)
    requires Sound(b) && StakeKey(key) !in Ledger.Keys(b.log) && Stake(b, key, host, guest).Ok? && host != guest
    requires RelatedMoney(b.balances, wallets) && SafeAccount(host) && SafeAccount(guest)
    requires (forall w | w in wallets :: wallets[w] >= 0) && Total(wallets) <= MaxInt64
    requires Owners(stored, stored.room.players) + (match joining case Some(a) => [a] case None => []) == [host, guest]
    requires key.round !in stored.funded && Lookup(wallets, EscrowWallet(key)) == 0
    ensures var funding, book := Fund(wallets, stored, key.code, key.round, joining), Stake(b, key, host, guest).value;
            && funding.err.None? && RelatedMoney(book.balances, funding.wallets)
            && forall a, k :: RechargeKey(a, k) in Ledger.Keys(book.log) <==> RechargeKey(a, k) in Ledger.Keys(b.log)
  {
    hide RelatedMoney, SafeAccount, EscrowWallet, Sound, Owners;
    SafeNames(host, guest, key);
    StakeIffCanStake(b, key, host, guest);
    SameCoins(b.balances, wallets, host);
    SameCoins(b.balances, wallets, guest);
    CanFund(wallets, stored, key, joining, host, guest);
    StakeMoves(b, key, host, guest);
    FundMoves(wallets, stored, key.code, key.round, joining, host, guest);
    var funding, book := Fund(wallets, stored, key.code, key.round, joining), Stake(b, key, host, guest).value;
    StakedBalances(b.balances, book.balances, wallets, funding.wallets, key, host, guest);
  }

  lemma {:induction false} SameCoins(balances: map<AccountId, int>, wallets: map<string, int>, a: string)
    requires RelatedMoney(balances, wallets) && SafeAccount(a)
    ensures Lookup(wallets, a) == Lookup(balances, User(a))
  {}

  lemma {:induction false} CanFund(wallets: map<string, int>, stored: StoredRoom, key: RoundKey, joining: Option<string>, host: string, guest: string)
    requires Owners(stored, stored.room.players) + (match joining case Some(a) => [a] case None => []) == [host, guest]
    requires Lookup(wallets, host) >= RoundStake && Lookup(wallets, guest) >= RoundStake
    ensures Fund(wallets, stored, key.code, key.round, joining).err.None?
  {
    hide Owners;
  }

  lemma {:induction false} StakedBalances(
    balances: map<AccountId, int>, after: map<AccountId, int>, wallets: map<string, int>, paid: map<string, int>,
    key: RoundKey, host: string, guest: string)
    requires RelatedMoney(balances, wallets) && SafeAccount(host) && SafeAccount(guest)
    requires after.Keys == balances.Keys + {User(host), User(guest), Escrow(key)}
    requires forall a | a in after :: after[a] == Lookup(balances, a) - (if a == User(host) || a == User(guest) then RoundStake else 0)
                                                  + (if a == Escrow(key) then RoundStake * 2 else 0)
    requires paid.Keys == wallets.Keys + {host, guest, EscrowWallet(key)}
    requires forall w | w in paid :: paid[w] == Lookup(wallets, w) - (if w == host || w == guest then RoundStake else 0)
                                                + (if w == EscrowWallet(key) then RoundStake * 2 else 0)
    ensures RelatedMoney(after, paid)
  {
    RelatedStakes(balances, wallets, after, paid, key, host, guest);
  }

  lemma {:induction false} AdvancedRelated(code: string, rows: RoomRows, after: RoomRows, r: StoredRoom)
    requires RelatedRoom(code, rows, r) && after.currentRound in after.rounds && after.seats == rows.seats
    requires after.rounds == rows.rounds[rows.currentRound + 1 := FreshRound.(funded := true)]
    ensures var t := Persisted(code, after);
            RelatedRoom(code, after, r.(room := t, funded := r.funded + {rows.currentRound + 1}, revision := r.revision + 1))
  {}

  lemma {:induction false} SecondRequestRefines(db: Db, m: Memory.State, code: string, recorded: Db, s: RoomState, id: string, now: int)
    requires Aligned(db, m) && DbOk(recorded) && code in db.rooms && code in recorded.rooms && code in m.rooms
    requires db.rooms[code].currentRound in db.rooms[code].rounds && s == Persisted(code, db.rooms[code]) && WellFormed(s) && Restorable(s)
    requires m.rooms[code].room == s && RequestNextRound(s, id, s.round).Ok? && RequestNextRound(s, id, s.round).value.round > s.round
    requires recorded.rooms[code].rounds == db.rooms[code].rounds && recorded.rooms[code].seats == db.rooms[code].seats
    requires recorded.rooms[code].currentRound == db.rooms[code].currentRound && recorded.funds == db.funds
    requires recorded.rooms == db.rooms[code := recorded.rooms[code]] && Full(recorded.rooms[code])
    requires Persisted(code, recorded.rooms[code]) == s.(requests := s.requests + {id})
    requires var r := Reconcile(recorded, code, recorded.rooms[code].currentRound, now); r.Some? ==> r.value.Done?
    ensures var n := Finished(m, code, RequestNextRound(s, id, s.round).value, false);
            n.answer.Ok? && Related(Reconciled(recorded, code, now), n.state)
  {
    hide DbOk, MemoryOk, RowsOk, RoomOk, Restorable, WellFormed, Persisted, RelatedMoney, RelatedHistory, RelatedRecharges, RelatedRoom;
    hide Reconcile, RequestNextRound, NextRound, Eligible, Stake, Sound, Fund, SafeAccount, OwnerOf, EscrowWallet, Reconciled, Owners, ViewOf;
    hide Aligned, Related;
    AlignedParts(db, m);
    AlignedRoom(db, m, code);
    var rows, r := db.rooms[code], m.rooms[code];
    MR.AskedShape(s, id, s.round);
    AskedOutcome(code, recorded, s, id);
    ReconciledWasEligible(recorded, code, rows.currentRound, now);
    AdvancedState(recorded, code, now);
    PersistedNames(code, rows);
    var after := Reconciled(recorded, code, now);
    var t := NextRound(s);
    NextNumber(s);
    SameFullness(rows, recorded.rooms[code]);
    RelatedSeats(code, rows, r);
    SeatsInMemory(m, code);
    MR.NextEscrow(m, code);
    var host, guest := rows.seats[Host].account, rows.seats[Guest].account;
    var key := RoundKey(code, t.round);
    RelatedFunding(db.funds.book, m.wallets, r, key, None, host, guest);
    AdvancedRelated(code, rows, after.rooms[code], r);
    RechargesKept(db.funds.book.log, after.funds.book.log, m.recharges);
    RelatedAgain(db, m, after, Finished(m, code, t, false).state, code);
  }

  lemma {:induction false} NextNumber(s: RoomState)
    ensures NextRound(s).round == s.round + 1
  {}

  lemma {:induction false} RequestRefines(db: Db, m: Memory.State, code: string, account: string, key: string, round: nat, now: int)
    requires Aligned(db, m) && account != "" && round != 0 && RecordRequest(db, code, account, round, now).Done?
    requires var after := RecordRequest(db, code, account, round, now).db;
             code in after.rooms && var r := Reconcile(after, code, after.rooms[code].currentRound, now); r.Some? ==> r.value.Done?
    ensures var n := RequestNextRoundAndFund(m, code, account, round);
            n.answer.Ok? && Related(Performed(db, account, key, CallNextRound(code, round), now), n.state)
  {
    hide DbOk, MemoryOk, RowsOk, RoomOk, Restorable, WellFormed, Persisted, RoleOf, RelatedMoney, RelatedHistory, RelatedRecharges, RelatedRoom;
    hide WorkingCopy, RecordRequest, Reconcile, Finished, RequestNextRound, Eligible, ViewOf, NextRound, Aligned, Related;
    AlignedParts(db, m);
    RequestEffect(db, code, account, round, now);
    AlignedRoom(db, m, code);
    var rows := db.rooms[code];
    var after := RecordRequest(db, code, account, round, now).db;
    SameSeat(code, rows, m, account);
    RelatedIsPersisted(code, rows, m.rooms[code]);
    var s, id := Persisted(code, rows), rows.seats[RoleOf(rows, account).value].playerId;
    var t := RequestNextRound(s, id, round).value;
    MR.AskedShape(s, id, round);
    if t.round > s.round {
      SecondRequestRefines(db, m, code, after, s, id, now);
    } else {
      AskedOutcome(code, after, s, id);
      ReconciledWasEligible(after, code, after.rooms[code].currentRound, now);
      RecordedRelated(code, rows, m.rooms[code], after.rooms[code], t);
      RelatedAgain(db, m, after, Memory.Changed(m, code, m.rooms[code].(room := t)).state, code);
    }
  }

  // ---- Creating, joining, recharging ----

  lemma {:induction false} CreateRefines(db: Db, m: Memory.State, code: string, playerId: string, account: string, now: int)
    requires Aligned(db, m) && SafeAccount(account) && New(code, playerId).Ok? && CreateRoom(db, code, playerId, account, now).Done?
    ensures var n := Memory.Create(m, Fresh(code, playerId), account);
            n.answer.Ok? && Related(CreateRoom(db, code, playerId, account, now).db, n.state)
  {
    hide DbOk, MemoryOk, RelatedHistory, ViewOf;
    var after := CreateRoom(db, code, playerId, account, now).db;
    var n := Memory.Create(m, Fresh(code, playerId), account).state;
    EnsureKeepsTotal(m.wallets, account);
    var rows := RoomRows(false, 1, 1, map[Host := Seat(playerId, account, 0)], map[1 := FreshRound], map[], {}, map[]);
    var r := StoredRoom(Fresh(code, playerId), 1, map[playerId := account], map[], {});
    NewRoomRelated(code, rows, r, playerId, account);
    EnsuredMoney(db.funds.book, m.wallets, account);
    RelatedRoomsAfter(db, m, code, rows, r);
    assert after.funds.book.log == db.funds.book.log;
  }

  lemma {:induction false} NewRoomRelated(code: string, rows: RoomRows, r: StoredRoom, playerId: string, account: string)
    requires rows == RoomRows(false, 1, 1, map[Host := Seat(playerId, account, 0)], map[1 := FreshRound], map[], {}, map[])
    requires r == StoredRoom(Fresh(code, playerId), 1, map[playerId := account], map[], {})
    ensures RelatedRoom(code, rows, r)
  {
    var s := Persisted(code, rows);
    assert s.moves == map[] && s.requests == {} && s.players == [Player(playerId, 0)];
  }

  lemma {:induction false} EnsuredMoney(b: Book, wallets: map<string, int>, a: string)
    requires RelatedMoney(b.balances, wallets)
    ensures RelatedMoney(WithAccount(b, User(a)).balances, EnsureWallet(wallets, a))
  {
    EnsureKeepsTotal(wallets, a);
    assert forall k :: Lookup(WithAccount(b, User(a)).balances, k) == Lookup(b.balances, k);
  }

  lemma {:induction false} RechargeRefines(db: Db, m: Memory.State, account: string, key: string, amount: int)
    requires Aligned(db, m) && SafeAccount(account) && amount > 0 && RechargeAccount(db, account, key, amount).Done?
    requires RechargeTotal(m) + amount <= MaxInt64
    ensures var n := Memory.Recharge(m, account, amount, key);
            n.answer.Ok? && Related(RechargeAccount(db, account, key, amount).db, n.state)
  {
    hide DbOk, MemoryOk, Money.Recharge, Memory.Recharge, Ledger.Keys;
    hide RelatedRoom, RelatedMoney, RelatedHistory, RelatedRecharges, SafeAccount, RechargeName;
    var after := RechargeAccount(db, account, key, amount).db;
    AlignedParts(db, m);
    RechargedBook(db, account, key, amount);
    assert RechargeName(account, key) !in m.recharges by { RechargeIsNew(db.funds.book.log, m.recharges, account, key); }
    WalletRecharged(m, account, key, amount);
    var n := Memory.Recharge(m, account, amount, key).state;
    RechargedMoney(db.funds.book.balances, after.funds.book.balances, m.wallets, n.wallets, account, amount);
    RechargedNames(db.funds.book.log, after.funds.book.log, m.recharges, account, key, amount);
  }

  lemma {:induction false} RechargedBook(db: Db, account: string, key: string, amount: int)
    requires DbOk(db) && RechargeAccount(db, account, key, amount).Done?
    ensures var b := db.funds.book;
            var after := RechargeAccount(db, account, key, amount).db;
            && after == db.(funds := db.funds.(book := after.funds.book))
            && Mint in b.balances && RechargeKey(account, key) !in Ledger.Keys(b.log)
            && Ledger.Keys(after.funds.book.log) == Ledger.Keys(b.log) + {RechargeKey(account, key)}
            && after.funds.book.balances.Keys == b.balances.Keys + {User(account)}
            && forall a | a in after.funds.book.balances :: after.funds.book.balances[a]
                 == Lookup(b.balances, a) + (if a == User(account) then amount else 0) - (if a == Mint then amount else 0)
  {
    hide DbOk, Linked, Ledger.Keys;
    FundsOfRooms(db, "");
    RechargeMoves(db.funds.book, account, key, amount);
  }

  lemma {:induction false} RechargeIsNew(log: seq<Transaction>, recharges: map<string, Recharged>, account: string, key: string)
    requires RelatedRecharges(log, recharges) && SafeAccount(account) && RechargeKey(account, key) !in Ledger.Keys(log)
    ensures RechargeName(account, key) !in recharges
  {
    hide Ledger.Keys, SafeAccount, RechargeName;
  }

  lemma {:induction false} WalletRecharged(m: Memory.State, account: string, key: string, amount: int)
    requires MemoryOk(m) && amount > 0 && RechargeTotal(m) + amount <= MaxInt64 && RechargeName(account, key) !in m.recharges
    ensures var n := Memory.Recharge(m, account, amount, key);
            && n.answer.Ok?
            && n.state == m.(wallets := n.state.wallets, recharges := m.recharges[RechargeName(account, key) := Recharged(account, amount)])
            && forall w :: Lookup(n.state.wallets, w) == Lookup(m.wallets, w) + if w == account then amount else 0
  {
    hide MemoryOk, RechargeName, RechargeTotal, Memory.Moved;
    WalletFits(m, account);
    EnsureKeepsTotal(m.wallets, account);
    MovedExactly(EnsureWallet(m.wallets, account), account, amount);
  }

  lemma {:induction false} WalletFits(m: Memory.State, account: string)
    requires MemoryOk(m)
    ensures 0 <= Lookup(m.wallets, account) <= RechargeTotal(m)
  {
    WalletBelowTotal(m.wallets, account);
  }

  lemma {:induction false} RechargedMoney(
    balances: map<AccountId, int>, after: map<AccountId, int>, wallets: map<string, int>, paid: map<string, int>, account: string, amount: int)
    requires RelatedMoney(balances, wallets) && SafeAccount(account) && Mint in balances
    requires after.Keys == balances.Keys + {User(account)}
    requires forall a | a in after :: after[a] == Lookup(balances, a) + (if a == User(account) then amount else 0) - (if a == Mint then amount else 0)
    requires forall w :: Lookup(paid, w) == Lookup(wallets, w) + if w == account then amount else 0
    ensures RelatedMoney(after, paid)
  {
    forall k ensures Lookup(paid, EscrowWallet(k)) == Lookup(after, Escrow(k)) { SafeIsNoEscrow(account, k); }
  }

  lemma {:induction false} RechargedNames(log: seq<Transaction>, after: seq<Transaction>, recharges: map<string, Recharged>, account: string, key: string, amount: int)
    requires RelatedRecharges(log, recharges) && SafeAccount(account)
    requires Ledger.Keys(after) == Ledger.Keys(log) + {RechargeKey(account, key)}
    ensures RelatedRecharges(after, recharges[RechargeName(account, key) := Recharged(account, amount)])
  {
    hide Ledger.Keys;
    forall a, k | SafeAccount(a) && RechargeName(a, k) == RechargeName(account, key) ensures a == account && k == key {
      Keys.FirstColonSplits(a, k, account, key);
    }
  }

  lemma {:induction false} JoinedState(code: string, rows: RoomRows, playerId: string, account: string)
    requires RowsOk(rows) && code != "" && WellFormed(Persisted(code, rows)) && Join(Persisted(code, rows), playerId).Ok?
    requires RoleOf(rows, account).None? && 1 in rows.rounds && rows.currentRound == 1
    ensures var after := JoinedTo(code, rows, playerId, account);
            && after.currentRound in after.rounds && after.currentRound == 1
            && Persisted(code, after) == Join(Persisted(code, rows), playerId).value
            && SeatOwners(after.seats) == SeatOwners(rows.seats)[playerId := account]
            && after.rounds == rows.rounds[1 := FreshRound.(funded := true)] && !rows.rounds[1].funded
  {
    hide WellFormed, Saved, Persisted, Join, RoleOf, JoinedPresence, CanSeatGuest, RowsOk, SeatsHold, SeatOwners;
    CanSeatHere(code, rows, playerId);
    JoinedToRows(code, rows, playerId, account);
    assert rows.(currentRound := 1) == rows;
    var s := Persisted(code, rows);
    var seated := SeatGuest(WithRoundFunded(rows, 1), playerId, account, JoinedPresence(rows.presence));
    JoinHolds(rows, s, playerId, account);
    PersistedNames(code, rows);
    JoinedIsWellFormed(s, playerId);
    SaveThenLoad(code, seated, Join(s, playerId).value, 1, rows.revision + 1);
    SavedRound(seated, Join(s, playerId).value, 1, rows.revision + 1);
    SavedRoundNumber(seated, Join(s, playerId).value, 1, rows.revision + 1);
    JoinedOwners(rows, seated, Join(s, playerId).value, playerId, account, rows.revision + 1);
  }

  lemma {:induction false} JoinedIsWellFormed(s: RoomState, playerId: string)
    requires WellFormed(s) && Join(s, playerId).Ok?
    ensures var t := Join(s, playerId).value; WellFormed(t) && t.code == s.code && t.round == s.round
  {}

  lemma {:induction false} JoinedOwners(rows: RoomRows, seated: RoomRows, t: RoomState, playerId: string, account: string, revision: nat)
    requires 1 in rows.rounds && seated == SeatGuest(WithRoundFunded(rows, 1), playerId, account, JoinedPresence(rows.presence))
    requires SeatsHold(seated, t) && Guest !in rows.seats && Host in rows.seats
    ensures SeatOwners(Saved(seated, t, 1, revision).seats) == SeatOwners(rows.seats)[playerId := account]
  {
    hide SavedMoves, SavedRequests, RoundRowOf, JoinedPresence;
    var after := Saved(seated, t, 1, revision);
    assert after.seats[Host].playerId == rows.seats[Host].playerId && after.seats[Host].account == rows.seats[Host].account;
    assert after.seats[Guest].playerId == playerId && after.seats[Guest].account == account;
  }

  lemma {:induction false} EnsuredWallet(balances: map<AccountId, int>, wallets: map<string, int>, a: string)
    requires RelatedMoney(balances, wallets)
    ensures RelatedMoney(balances, EnsureWallet(wallets, a))
  {
    EnsureKeepsTotal(wallets, a);
  }

  // A new guest is nobody the room knows, in memory either.
  lemma {:induction false} NewInMemory(code: string, rows: RoomRows, r: StoredRoom, playerId: string, account: string)
    requires RelatedRoom(code, rows, r) && RoomOk(code, r) && RowsOk(rows)
    requires WellFormed(r.room) && Join(r.room, playerId).Ok? && RoleOf(rows, account).None?
    ensures playerId !in r.owners && account !in r.owners.Values
    ensures r.funded == {} && Host in rows.seats && OwnerOf(r, r.room.players[0].id) == rows.seats[Host].account && |r.room.players| == 1
    ensures rows.seats[Host].account != account
  {
    assert r.room.players[0].id in r.owners;
    assert r.room.players == SeatPlayers(rows.seats);
  }

  lemma {:induction false} JoinedRelated(code: string, rows: RoomRows, r: StoredRoom, after: RoomRows, n: StoredRoom, playerId: string, account: string)
    requires RelatedRoom(code, rows, r) && r.funded == {}
    requires after.currentRound in after.rounds && n.room == Persisted(code, after) && n.owners == r.owners[playerId := account]
    requires SeatOwners(after.seats) == SeatOwners(rows.seats)[playerId := account]
    requires 1 in rows.rounds && after.rounds == rows.rounds[1 := FreshRound.(funded := true)] && n.funded == {1}
    ensures RelatedRoom(code, after, n)
  {}

  lemma {:induction false} JoinRefines(db: Db, m: Memory.State, code: string, playerId: string, account: string, now: int, deadline: int)
    requires Aligned(db, m) && SafeAccount(account) && JoinRoom(db, code, playerId, account, now).Done?
    ensures var n := JoinFunded(m, code, playerId, account, now, deadline);
            n.answer.Ok? && Related(JoinRoom(db, code, playerId, account, now).db, n.state)
  {
    hide DbOk, MemoryOk, RowsOk, RoomOk, Restorable, WellFormed, Persisted, RelatedMoney, RelatedHistory, RelatedRecharges, RelatedRoom, Aligned, Related;
    hide JoinRoom, Join, RoleOf, JoinedTo, Stake, Fund, SafeAccount, EscrowWallet, OwnerOf, Owners, ViewOf, WithDeadline, Refreshed, CanSeatGuest, SeatOwners, Sound;
    AlignedParts(db, m);
    RoomsOfDb(db);
    JoinShape(db, code, playerId, account, now);
    AlignedRoom(db, m, code);
    var rows, r := db.rooms[code], m.rooms[code];
    RelatedIsPersisted(code, rows, r);
    NewInMemory(code, rows, r, playerId, account);
    JoinedState(code, rows, playerId, account);
    JoinSteps(db, TxCommand(account, Command("", "", ""), CallJoin(code, playerId), now), code, playerId, account, now);
    MR.JoinShape(code, r, playerId, account);
    FundsOfRooms(db, code);
    var key := RoundKey(code, 1);
    SoundFunds(db.rooms, db.funds, key);
    EnsuredWallet(db.funds.book.balances, m.wallets, account);
    ReadyToJoin(m, code, account);
    var wallets := EnsureWallet(m.wallets, account);
    RelatedFunding(db.funds.book, wallets, r, key, Some(account), rows.seats[Host].account, account);
    var after := JoinRoom(db, code, playerId, account, now).db;
    var n := JoinFunded(m, code, playerId, account, now, deadline).state;
    assert r.funded + {1} == {1};
    JoinedRelated(code, rows, r, after.rooms[code], n.rooms[code], playerId, account);
    RechargesKept(db.funds.book.log, after.funds.book.log, m.recharges);
    RelatedAgain(db, m, after, n, code);
  }

  lemma {:induction false} ReadyToJoin(m: Memory.State, code: string, account: string)
    requires MemoryOk(m) && code in m.rooms && m.rooms[code].funded == {} && SafeAccount(account)
    ensures var wallets := EnsureWallet(m.wallets, account);
            (forall w | w in wallets :: wallets[w] >= 0) && Total(wallets) <= MaxInt64 && Lookup(wallets, EscrowWallet(RoundKey(code, 1))) == 0
  {
    EnsureKeeps(m.rooms, m.wallets, m.history, account);
    MR.FirstEscrow(m, code);
    SafeIsNoEscrow(account, RoundKey(code, 1));
  }

  // ---- Commands that fail ----

  predicate HasSeat(rows: RoomRows, playerId: string) {
    (Host in rows.seats && rows.seats[Host].playerId == playerId) || (Guest in rows.seats && rows.seats[Guest].playerId == playerId)
  }

  // Both repositories refuse the command, each for its own reason: the database
  // looks at the room first, memory at who asks. An expected round of zero is
  // stale in memory only.
  ghost predicate ToldDifferently(db: Db, account: string, call: Call) {
    && !call.CallRecharge? && call.code in db.rooms && db.rooms[call.code].currentRound in db.rooms[call.code].rounds
    && var rows := db.rooms[call.code];
       var seated, over := RoleOf(rows, account).Some?, rows.rounds[rows.currentRound].status.Resolved?;
       match call
       case CallJoin(_, playerId) => if HasSeat(rows, playerId) then rows.closed else seated && (rows.closed || playerId == "" || Full(rows))
       case CallMove(_, _) => !seated && (rows.closed || over)
       case CallNextRound(_, round) =>
         var stale := round != 0 && round != rows.currentRound;
         if !seated then rows.closed || stale || !over else !rows.closed && if round == 0 then over else stale && !over
       case _ => false
  }

  // The room as both repositories see it.
  lemma {:induction false} SeenAlike(db: Db, m: Memory.State, code: string)
    requires Aligned(db, m) && code in db.rooms
    ensures code in m.rooms && RowsOk(db.rooms[code]) && RelatedRoom(code, db.rooms[code], m.rooms[code]) && RoomOk(code, m.rooms[code])
    ensures var rows, s := db.rooms[code], m.rooms[code].room;
            && rows.currentRound in rows.rounds && Load(db, code) == Ok(s) && WellFormed(s) && Restore(s) == Ok(s)
            && s == Persisted(code, rows) && s.closed == rows.closed && s.round == rows.currentRound
            && (s.resolved <==> rows.rounds[rows.currentRound].status.Resolved?) && (!s.resolved <==> rows.rounds[rows.currentRound].status.Active?)
            && |s.players| == (if Full(rows) then 2 else 1) && (Full(rows) ==> rows.rounds[rows.currentRound].funded)
            && (!Full(rows) ==> !s.resolved)
  {
    hide DbOk, MemoryOk, RoomOk, WinsOk, ActionsOk, Restorable, WellFormed;
    AlignedRoom(db, m, code);
    RelatedIsPersisted(code, db.rooms[code], m.rooms[code]);
    assert RoundOk(db.rooms[code].rounds[db.rooms[code].currentRound]);
  }

  // An account without a seat acts for nobody in memory.
  lemma {:induction false} NoSeat(rows: RoomRows, m: Memory.State, code: string, account: string)
    requires code in m.rooms && RelatedRoom(code, rows, m.rooms[code]) && RoleOf(rows, account).None? && account != ""
    ensures WorkingCopy(m, code, account) == Err(Unauthorized)
    ensures account !in m.rooms[code].owners.Values
  {
    hide Persisted;
  }

  lemma {:induction false} SeatsAct(code: string, rows: RoomRows, role: Role)
    requires RowsOk(rows) && role in rows.seats && rows.currentRound in rows.rounds
    ensures var s, id := Persisted(code, rows), rows.seats[role].playerId;
            && HasPlayer(s, id)
            && (id in s.moves <==> RoundRole(rows.currentRound, role) in rows.moves)
            && (id in s.requests <==> RoundRole(rows.currentRound, role) in rows.requests)
  {
    hide RoundsOk, ActionsOk, WinsOk;
    assert role == Host || role == Guest;
  }

  // The next revision of a room can always be announced.
  lemma {:induction false} AnnouncesNext(db: Db, code: string, rows: RoomRows, now: int)
    requires DbOk(db) && code in db.rooms && rows.revision == db.rooms[code].revision + 1
    ensures Bump(WithRoom(db, code, rows), code, rows.revision, now).Ok?
  {
    hide RowsOk, ConnectionsOk, PresentOk, DeadlinesOk, Linked, FundsOk, Announced;
    RoomBump(db, code, rows, now);
  }

  // Why the database refuses a move, or takes it.
  lemma {:induction false} MoveReason(db: Db, code: string, account: string, move: Move, now: int)
    requires DbOk(db) && code in db.rooms && db.rooms[code].currentRound in db.rooms[code].rounds
    requires var rows := db.rooms[code]; RoleOf(rows, account).Some? ==> (Full(rows) ==> rows.rounds[rows.currentRound].funded)
    ensures var rows, r := db.rooms[code], RecordMove(db, code, account, move, now);
            r.Failed? && !r.error.HintTooLong? ==>
              r.error == if rows.closed then RoomClosed
                         else if !rows.rounds[rows.currentRound].status.Active? then RoundResolved
                         else if RoleOf(rows, account).None? then Unauthorized
                         else if !Full(rows) then RoomNotReady else DuplicateMove
    ensures var rows, r := db.rooms[code], RecordMove(db, code, account, move, now);
            r.Failed? && r.error.DuplicateMove? ==>
              RoleOf(rows, account).Some? && RoundRole(rows.currentRound, RoleOf(rows, account).value) in rows.moves
  {
    hide DbOk, RoleOf, Keys.HintFits;
    var rows := db.rooms[code];
    if RoleOf(rows, account).Some? {
      var moved := rows.(moves := rows.moves[RoundRole(rows.currentRound, RoleOf(rows, account).value) := move]);
      AnnouncesNext(db, code, moved.(revision := rows.revision + 1), now);
    }
  }

  lemma {:induction false} MoveRefused(s: RoomState, id: string, move: Move)
    requires WellFormed(s) && HasPlayer(s, id) && IsValidMove(move)
    ensures var r := SubmitMove(s, id, move);
            if s.closed then r == Err(RoomClosed)
            else if |s.players| != 2 then r == Err(RoomNotReady)
            else if s.resolved then r == Err(RoundResolved)
            else id in s.moves ==> r == Err(DuplicateMove)
  {}

  lemma {:induction false} MoveFails(db: Db, m: Memory.State, code: string, account: string, move: Move, now: int)
    requires Aligned(db, m) && SafeAccount(account) && IsValidMove(move)
    requires var r := RecordMove(db, code, account, move, now); r.Failed? && !r.error.HintTooLong?
    ensures var n := SubmitMoveAndSettle(m, code, account, move);
            n.answer.Err? && (n.answer.error == RecordMove(db, code, account, move, now).error <==> !ToldDifferently(db, account, CallMove(code, move)))
  {
    hide DbOk, MemoryOk, RowsOk, RoomOk, Restorable, WellFormed, Persisted, RoleOf, RelatedRoom, WorkingCopy, Finished, SafeAccount, Related, SubmitMove;
    hide Load, Restore, Full, HasPlayer;
    AccountIsNamed(account);
    AlignedParts(db, m);
    if code in db.rooms {
      hide RecordMove, Aligned;
      var rows := db.rooms[code];
      SeenAlike(db, m, code);
      MoveReason(db, code, account, move, now);
      if RoleOf(rows, account).Some? {
        SameSeat(code, rows, m, account);
        SeatsAct(code, rows, RoleOf(rows, account).value);
        MoveRefused(m.rooms[code].room, rows.seats[RoleOf(rows, account).value].playerId, move);
      } else {
        NoSeat(rows, m, code, account);
      }
    } else {
      UnknownRoom(db, m, code, account);
    }
  }

  lemma {:induction false} UnknownRoom(db: Db, m: Memory.State, code: string, account: string)
    requires Related(db, m) && code !in db.rooms
    ensures code !in m.rooms && WorkingCopy(m, code, account) == Err(RoomNotFound)
  {}

  // Why the database refuses a request for the next round, or takes it.
  lemma {:induction false} RequestReason(db: Db, code: string, account: string, round: nat, now: int)
    requires DbOk(db) && code in db.rooms && db.rooms[code].currentRound in db.rooms[code].rounds
    requires var rows := db.rooms[code]; rows.rounds[rows.currentRound].status.Resolved? ==> Full(rows) && rows.rounds[rows.currentRound].funded
    ensures var rows, r := db.rooms[code], RecordRequest(db, code, account, round, now);
            r.Failed? && !r.error.HintTooLong? ==>
              r.error == if rows.closed then RoomClosed
                         else if round != 0 && round != rows.currentRound then StaleRound
                         else if !rows.rounds[rows.currentRound].status.Resolved? then RoundNotResolved
                         else if RoleOf(rows, account).None? then Unauthorized else NextRoundRequested
    ensures var rows, r := db.rooms[code], RecordRequest(db, code, account, round, now);
            r.Failed? && r.error.NextRoundRequested? ==>
              RoleOf(rows, account).Some? && RoundRole(rows.currentRound, RoleOf(rows, account).value) in rows.requests
  {
    hide DbOk, RoleOf, Keys.HintFits;
    var rows := db.rooms[code];
    if RoleOf(rows, account).Some? {
      var asked := rows.(requests := rows.requests + {RoundRole(rows.currentRound, RoleOf(rows, account).value)});
      AnnouncesNext(db, code, asked.(revision := rows.revision + 1), now);
    }
  }

  lemma {:induction false} RequestRefused(s: RoomState, id: string, round: nat)
    requires WellFormed(s) && HasPlayer(s, id)
    ensures var r := RequestNextRound(s, id, round);
            if s.closed then r == Err(RoomClosed)
            else if !s.resolved then r == Err(RoundNotResolved)
            else if round != s.round then r == Err(StaleRound)
            else id in s.requests ==> r == Err(NextRoundRequested)
    ensures s.round > 0
  {}

  lemma {:induction false} RequestFails(db: Db, m: Memory.State, code: string, account: string, round: nat, now: int)
    requires Aligned(db, m) && SafeAccount(account)
    requires var r := RecordRequest(db, code, account, round, now); r.Failed? && !r.error.HintTooLong?
    ensures var n := RequestNextRoundAndFund(m, code, account, round);
            n.answer.Err? && (n.answer.error == RecordRequest(db, code, account, round, now).error <==> !ToldDifferently(db, account, CallNextRound(code, round)))
  {
    hide DbOk, MemoryOk, RowsOk, RoomOk, Restorable, WellFormed, Persisted, RoleOf, RelatedRoom, WorkingCopy, Finished, SafeAccount, Related, RequestNextRound;
    hide Load, Restore, Full, HasPlayer;
    AccountIsNamed(account);
    AlignedParts(db, m);
    if code in db.rooms {
      hide RecordRequest, Aligned;
      var rows := db.rooms[code];
      SeenAlike(db, m, code);
      RequestReason(db, code, account, round, now);
      if RoleOf(rows, account).Some? {
        SameSeat(code, rows, m, account);
        SeatsAct(code, rows, RoleOf(rows, account).value);
        RequestRefused(m.rooms[code].room, rows.seats[RoleOf(rows, account).value].playerId, round);
      } else {
        NoSeat(rows, m, code, account);
      }
    } else {
      UnknownRoom(db, m, code, account);
    }
  }

  lemma {:induction false} LeaveFails(db: Db, m: Memory.State, code: string, account: string, now: int)
    requires Aligned(db, m) && SafeAccount(account) && Store.LeaveRoom(db, code, account, now).Failed?
    ensures Memory.LeaveRoom(m, code, account).answer == Err(Store.LeaveRoom(db, code, account, now).error)
  {
    hide DbOk, MemoryOk, RowsOk, RoomOk, Restorable, WellFormed, Persisted, RoleOf, RelatedRoom, WorkingCopy, SafeAccount, Related, Saved, ViewOf, Load, Restore;
    AccountIsNamed(account);
    AlignedParts(db, m);
    if code in db.rooms {
      hide Aligned;
      var rows := db.rooms[code];
      SeenAlike(db, m, code);
      if RoleOf(rows, account).Some? {
        SameSeat(code, rows, m, account);
        var s := m.rooms[code].room;
        var left := Leave(s, rows.seats[RoleOf(rows, account).value].playerId);
        if left.Ok? { SavesNext(db, code, left.value, s.round, now); }
      } else {
        NoSeat(rows, m, code, account);
      }
    } else {
      UnknownRoom(db, m, code, account);
    }
  }

  lemma {:induction false} SavesNext(db: Db, code: string, s: RoomState, previousRound: nat, now: int)
    requires DbOk(db) && code in db.rooms
    ensures SaveAndBump(db, code, s, previousRound, now).Ok?
  {
    hide DbOk;
    var revision := db.rooms[code].revision + 1;
    AnnouncesNext(db, code, Saved(db.rooms[code], s, previousRound, revision), now);
  }

  lemma {:induction false} CreateFails(db: Db, m: Memory.State, code: string, playerId: string, account: string, now: int)
    requires Aligned(db, m) && SafeAccount(account) && New(code, playerId).Ok? && CreateRoom(db, code, playerId, account, now).Failed?
    ensures Memory.Create(m, Fresh(code, playerId), account).answer == Err(CreateRoom(db, code, playerId, account, now).error)
  {
    hide RowsOk, ConnectionsOk, PresentOk, DeadlinesOk, Linked, FundsOk, Announced, MemoryOk, RelatedRoom, RelatedMoney, RelatedHistory, RelatedRecharges, SafeAccount;
    hide WellFormed, Restorable, ViewOf;
    SameCoins(db.funds.book.balances, m.wallets, account);
    if code !in db.rooms {
      var rows := RoomRows(false, 1, 1, map[Host := Seat(playerId, account, 0)], map[1 := FreshRound], map[], {}, map[]);
      CreatedAnnounced(WithRoom(db, code, rows).(funds := db.funds.(book := WithAccount(db.funds.book, User(account)))), db, code, now);
    }
  }

  lemma {:induction false} BumpsByBox(db: Db, other: Db, code: string, revision: nat, now: int)
    requires other.box == db.box && Bump(db, code, revision, now).Ok?
    ensures Bump(other, code, revision, now).Ok?
  {}

  // What joining changes before the aggregate is saved, or why it cannot.
  lemma {:induction false} SeatReason(db: Db, code: string, playerId: string, account: string, now: int)
    requires DbOk(db) && code in db.rooms && RowsOk(db.rooms[code]) && code != "" && db.rooms[code].currentRound in db.rooms[code].rounds
    requires WellFormed(Persisted(code, db.rooms[code])) && Join(Persisted(code, db.rooms[code]), playerId).Ok?
    ensures Host in db.rooms[code].seats
    ensures var rows, r := db.rooms[code], SeatJoining(db, code, Persisted(code, db.rooms[code]).round, playerId, account, now);
            if RoleOf(rows, account).Some? then r == Err(AccountSeated)
            else if CanStake(db.funds.book, rows.seats[Host].account, account)
            then r.Ok? && r.value.box == db.box && r.value.rooms[code].revision == rows.revision
            else r == Err(InsufficientFunds)
  {
    hide DbOk, RowsOk, WellFormed, Persisted, Join, RoleOf, Stake, CanStake, JoinedPresence, WithDeadline, Sound;
    var rows := db.rooms[code];
    CanSeatHere(code, rows, playerId);
    if RoleOf(rows, account).None? {
      RoleOfNone(rows, account);
      FundedFirst(db, code, account, now);
      FundsOfRooms(db, code);
      SoundFunds(db.rooms, db.funds, RoundKey(code, 1));
      StakeIffCanStake(db.funds.book, RoundKey(code, 1), rows.seats[Host].account, account);
    }
  }

  lemma {:induction false} JoinReason(db: Db, code: string, playerId: string, account: string, now: int)
    requires DbOk(db) && code in db.rooms && Load(db, code).Ok?
    ensures var rows, s, r := db.rooms[code], Load(db, code).value, JoinRoom(db, code, playerId, account, now);
            r.Failed? ==>
              if Join(s, playerId).Err? then r.error == Join(s, playerId).error
              else if RoleOf(rows, account).Some? then r.error == AccountSeated
              else Host in rows.seats && r.error == InsufficientFunds && !CanStake(db.funds.book, rows.seats[Host].account, account)
  {
    hide DbOk, RowsOk, WellFormed, Persisted, Join, RoleOf, Load, CanStake, SeatJoining, Bump, Saved, ViewOf;
    StoredIsWellFormed(db, code);
    LoadIsPersisted(db, code);
    var s := Load(db, code).value;
    if Join(s, playerId).Ok? {
      SeatReason(db, code, playerId, account, now);
      var r := SeatJoining(db, code, s.round, playerId, account, now);
      if r.Ok? {
        var seated := r.value;
        var revision := db.rooms[code].revision + 1;
        AnnouncesNext(db, code, db.rooms[code].(revision := revision), now);
        BumpsByBox(WithRoom(db, code, db.rooms[code].(revision := revision)),
                   WithRoom(seated, code, Saved(seated.rooms[code], Join(s, playerId).value, s.round, revision)), code, revision, now);
      }
    }
  }

  lemma {:induction false} FundRefused(wallets: map<string, int>, stored: StoredRoom, code: string, round: nat, host: string, account: string)
    requires Owners(stored, stored.room.players) == [host] && round !in stored.funded
    requires Lookup(wallets, host) < RoundStake || Lookup(wallets, account) < RoundStake
    ensures Fund(EnsureWallet(wallets, account), stored, code, round, Some(account)).err == Some(InsufficientFunds)
  {
    hide Owners;
  }

  lemma {:induction false} SeatedAlike(code: string, rows: RoomRows, r: StoredRoom, playerId: string, account: string)
    requires RowsOk(rows) && RelatedRoom(code, rows, r) && RoomOk(code, r) && account != ""
    ensures playerId in r.owners <==> HasSeat(rows, playerId)
    ensures HasPlayer(r.room, playerId) <==> HasSeat(rows, playerId)
    ensures HasSeat(rows, playerId) ==> playerId != ""
    ensures account in r.owners.Values <==> RoleOf(rows, account).Some?
    ensures Host in rows.seats && OwnerOf(r, r.room.players[0].id) == rows.seats[Host].account && SafeAccount(rows.seats[Host].account)
  {
    hide RoundsOk, ActionsOk, WinsOk, SafeAccount, Restorable;
    assert r.room.players == SeatPlayers(rows.seats);
    assert r.room.players[0].id in r.owners;
    if RoleOf(rows, account).Some? { SeatOfRole(rows, account); assert rows.seats[RoleOf(rows, account).value].playerId in r.owners; }
  }

  lemma {:induction false} JoinRefused(s: RoomState, id: string)
    requires WellFormed(s)
    ensures var r := Join(s, id);
            if s.closed then r == Err(RoomClosed)
            else if id == "" then r == Err(MissingPlayerId)
            else if HasPlayer(s, id) then r == Err(DuplicatePlayer)
            else if |s.players| == 2 then r == Err(RoomFull) else r.Ok?
  {}

  lemma {:induction false} JoinUnpaid(db: Db, m: Memory.State, code: string, playerId: string, account: string, now: int, deadline: int)
    requires Aligned(db, m) && SafeAccount(account) && code in db.rooms && code in m.rooms && RelatedRoom(code, db.rooms[code], m.rooms[code])
    requires RowsOk(db.rooms[code]) && RoomOk(code, m.rooms[code]) && WellFormed(m.rooms[code].room) && Restore(m.rooms[code].room) == Ok(m.rooms[code].room)
    requires Join(m.rooms[code].room, playerId).Ok? && RoleOf(db.rooms[code], account).None? && !HasSeat(db.rooms[code], playerId)
    requires Host in db.rooms[code].seats && !CanStake(db.funds.book, db.rooms[code].seats[Host].account, account)
    ensures JoinFunded(m, code, playerId, account, now, deadline).answer == Err(InsufficientFunds)
  {
    hide DbOk, MemoryOk, RowsOk, RoomOk, Restorable, WellFormed, Persisted, RoleOf, RelatedRoom, RelatedMoney, Related, SafeAccount, Fund, Owners;
    hide OwnerOf, Join, Restore, HasSeat;
    var rows, r := db.rooms[code], m.rooms[code];
    AccountIsNamed(account);
    AlignedParts(db, m);
    SeatedAlike(code, rows, r, playerId, account);
    MR.JoinShape(code, r, playerId, account);
    SameCoins(db.funds.book.balances, m.wallets, rows.seats[Host].account);
    SameCoins(db.funds.book.balances, m.wallets, account);
    FundRefused(m.wallets, r, code, 1, rows.seats[Host].account, account);
  }

  lemma {:induction false} JoinFails(db: Db, m: Memory.State, code: string, playerId: string, account: string, now: int, deadline: int)
    requires Aligned(db, m) && SafeAccount(account) && JoinRoom(db, code, playerId, account, now).Failed?
    ensures var n := JoinFunded(m, code, playerId, account, now, deadline);
            n.answer.Err? && (n.answer.error == JoinRoom(db, code, playerId, account, now).error <==> !ToldDifferently(db, account, CallJoin(code, playerId)))
  {
    hide JoinFunded, JoinRoom, Aligned, ToldDifferently, SafeAccount;
    AccountIsNamed(account);
    if code in db.rooms {
      JoinFailsHere(db, m, code, playerId, account, now, deadline);
    } else {
      JoinFailsNowhere(db, m, code, playerId, account, now, deadline);
    }
  }

  lemma {:induction false} JoinFailsNowhere(db: Db, m: Memory.State, code: string, playerId: string, account: string, now: int, deadline: int)
    requires Aligned(db, m) && account != "" && code !in db.rooms && JoinRoom(db, code, playerId, account, now).Failed?
    ensures var n := JoinFunded(m, code, playerId, account, now, deadline);
            n.answer.Err? && (n.answer.error == JoinRoom(db, code, playerId, account, now).error <==> !ToldDifferently(db, account, CallJoin(code, playerId)))
  {
    hide DbOk, MemoryOk, RelatedRoom, Related, Load, Join, Fund, ViewOf;
    AlignedParts(db, m);
    UnknownRoom(db, m, code, account);
  }

  lemma {:induction false} JoinFailsHere(db: Db, m: Memory.State, code: string, playerId: string, account: string, now: int, deadline: int)
    requires Aligned(db, m) && account != "" && SafeAccount(account) && code in db.rooms && JoinRoom(db, code, playerId, account, now).Failed?
    ensures var n := JoinFunded(m, code, playerId, account, now, deadline);
            n.answer.Err? && (n.answer.error == JoinRoom(db, code, playerId, account, now).error <==> !ToldDifferently(db, account, CallJoin(code, playerId)))
  {
    hide DbOk, MemoryOk, RowsOk, RoomOk, Restorable, WellFormed, Persisted, RoleOf, RelatedRoom, SafeAccount, Related, Load, Restore, Full, Join;
    hide Fund, HasSeat, HasPlayer, CanStake, ViewOf, JoinRoom, Aligned;
    AlignedParts(db, m);
    var rows, s := db.rooms[code], m.rooms[code].room;
    SeenAlike(db, m, code);
    SeatedAlike(code, rows, m.rooms[code], playerId, account);
    JoinReason(db, code, playerId, account, now);
    JoinRefused(s, playerId);
    if Join(s, playerId).Ok? && RoleOf(rows, account).None? {
      JoinUnpaid(db, m, code, playerId, account, now, deadline);
    }
  }

  // The database fails a command of an account that is neither refused nor
  // answered by a receipt, and not because its hint is too long. A recharge
  // fails only if its key was used and its receipt is gone, and is left out.
  ghost predicate Fails(db: Db, account: string, key: string, call: Call, now: int) {
    && SafeAccount(account) && Refusal(account, call).None? && !call.CallRecharge?
    && Store.Effect(db, account, key, call, now).Failed? && !Store.Effect(db, account, key, call, now).error.HintTooLong?
  }

  // What the database fails, memory fails as well, and neither changes anything
  // but that memory may have made empty wallets. They give the same reason
  // unless the command is one of those told differently.
  lemma {:induction false} FailuresAgree(db: Db, m: Memory.State, account: string, key: string, call: Call, now: int, deadline: int)
    requires Aligned(db, m) && Fails(db, account, key, call, now)
    ensures Refusal(account, call).None?
    ensures var n := Memory.Effect(m, account, key, call, now, deadline);
            && n.answer.Err? && Aligned(db, n.state)
            && (n.answer.error == Store.Effect(db, account, key, call, now).error <==> !ToldDifferently(db, account, call))
  {
    hide Aligned, CreateRoom, JoinRoom, RecordMove, RecordRequest, Store.LeaveRoom, RechargeAccount, SafeAccount, ToldDifferently;
    hide Memory.Create, JoinFunded, SubmitMoveAndSettle, RequestNextRoundAndFund, Memory.LeaveRoom, Memory.Recharge;
    match call {
      case CallCreate(code, playerId) => CreateFails(db, m, code, playerId, account, now);
      case CallJoin(code, playerId) => JoinFails(db, m, code, playerId, account, now, deadline);
      case CallMove(code, move) => MoveFails(db, m, code, account, move, now);
      case CallNextRound(code, round) => RequestFails(db, m, code, account, round, now);
      case CallLeave(code) => LeaveFails(db, m, code, account, now);
      case CallRecharge(_) =>
    }
    ToldAlike(db, account, call);
    FailingKeepsAligned(db, m, account, key, call, now, deadline);
  }

  // What memory accepts the database accepts, once its hint fits.
  lemma {:induction false} MemoryAcceptsNoMore(db: Db, m: Memory.State, account: string, key: string, call: Call, now: int, deadline: int)
    requires Aligned(db, m) && SafeAccount(account) && Refusal(account, call).None? && !call.CallRecharge?
    ensures Memory.Effect(m, account, key, call, now, deadline).answer.Ok? ==>
              var r := Store.Effect(db, account, key, call, now); r.Done? || r.error.HintTooLong?
  {
    hide Aligned, Store.Effect, Memory.Effect, SafeAccount, Refusal, ToldDifferently;
    if Fails(db, account, key, call, now) { FailuresAgree(db, m, account, key, call, now, deadline); }
  }

  lemma {:induction false} ToldAlike(db: Db, account: string, call: Call)
    ensures call.CallCreate? || call.CallLeave? ==> !ToldDifferently(db, account, call)
  {}

  lemma {:induction false} EffectKeepsMemoryOk(m: Memory.State, account: string, key: string, call: Call, now: int, deadline: int)
    requires MemoryOk(m) && SafeAccount(account) && Refusal(account, call).None? && (call.CallRecharge? ==> RechargeTotal(m) + call.amount <= MaxInt64)
    ensures MemoryOk(Memory.Effect(m, account, key, call, now, deadline).state)
  {
    hide MemoryOk, RechargeTotal, SafeAccount, Create, JoinFunded, SubmitMoveAndSettle, RequestNextRoundAndFund, Memory.LeaveRoom, Memory.Recharge;
    BoundedTotal(m);
    match call {
      case CallCreate(code, playerId) => MR.CreateKeepsOk(m, code, playerId, account);
      case CallJoin(code, playerId) => MR.JoinKeepsOk(m, code, playerId, account, now, deadline);
      case CallMove(code, move) => MR.MoveKeepsOk(m, code, account, move);
      case CallNextRound(code, round) => MR.RequestKeepsOk(m, code, account, round);
      case CallLeave(code) => MR.LeaveKeepsOk(m, code, account);
      case CallRecharge(amount) =>
        MR.RechargeGrows(m, account, amount, key);
        MR.RechargeKeepsOk(m, account, amount, key);
    }
  }

  lemma {:induction false} BoundedTotal(m: Memory.State)
    requires MemoryOk(m)
    ensures RechargeTotal(m) <= MaxInt64
  {}

  lemma {:induction false} FailingKeepsAligned(db: Db, m: Memory.State, account: string, key: string, call: Call, now: int, deadline: int)
    requires Aligned(db, m) && SafeAccount(account) && Refusal(account, call).None? && !call.CallRecharge?
    requires Memory.Effect(m, account, key, call, now, deadline).answer.Err?
    ensures Aligned(db, Memory.Effect(m, account, key, call, now, deadline).state)
  {
    hide DbOk, MemoryOk, Memory.Effect, RelatedRoom, RelatedHistory, RelatedRecharges;
    MI.FailedEffect(m, account, key, call, now, deadline);
    EffectKeepsMemoryOk(m, account, key, call, now, deadline);
  }

  lemma {:induction false} FundsIffPayable(wallets: map<string, int>, stored: StoredRoom, code: string, round: nat, host: string, guest: string)
    requires Owners(stored, stored.room.players) == [host, guest] && round !in stored.funded
    ensures Fund(wallets, stored, code, round, None).err.None? <==> Lookup(wallets, host) >= RoundStake && Lookup(wallets, guest) >= RoundStake
  {
    hide Owners, EscrowWallet, Memory.Moved;
  }

  lemma {:induction false} SecondRequestPaid(db: Db, m: Memory.State, code: string, id: string)
    requires Aligned(db, m) && code in db.rooms && code in m.rooms && WellFormed(m.rooms[code].room)
    requires RequestNextRound(m.rooms[code].room, id, m.rooms[code].room.round).Ok? && Full(db.rooms[code])
    requires RequestNextRound(m.rooms[code].room, id, m.rooms[code].room.round).value.round > m.rooms[code].room.round
    ensures var t := RequestNextRound(m.rooms[code].room, id, m.rooms[code].room.round).value;
            Finished(m, code, t, false).answer.Ok? <==> CanStake(db.funds.book, db.rooms[code].seats[Host].account, db.rooms[code].seats[Guest].account)
  {
    hide DbOk, MemoryOk, RowsOk, RoomOk, Restorable, WellFormed, Persisted, RelatedRoom, RelatedMoney, Related, SafeAccount, Fund, Owners, OwnerOf;
    hide RequestNextRound, ViewOf, Load, Aligned;
    AlignedParts(db, m);
    AlignedRoom(db, m, code);
    var rows, r := db.rooms[code], m.rooms[code];
    MR.RoomIsRestorable(code, r);
    MR.AskedShape(r.room, id, r.room.round);
    NextNumber(r.room);
    RelatedSeats(code, rows, r);
    SeatsInMemory(m, code);
    SameCoins(db.funds.book.balances, m.wallets, rows.seats[Host].account);
    SameCoins(db.funds.book.balances, m.wallets, rows.seats[Guest].account);
    FundsIffPayable(m.wallets, r, code, r.room.round + 1, rows.seats[Host].account, rows.seats[Guest].account);
  }

  // A request that the database records is accepted in memory if and only if
  // it names a round and, when it is the second one, both players can pay the
  // next round: the database records it all the same.
  lemma {:induction false} RequestAcceptedIffPayable(db: Db, m: Memory.State, code: string, account: string, round: nat, now: int)
    requires Aligned(db, m) && SafeAccount(account) && RecordRequest(db, code, account, round, now).Done?
    ensures code in db.rooms && Full(db.rooms[code])
    ensures var after, seats := RecordRequest(db, code, account, round, now).db, db.rooms[code].seats;
            RequestNextRoundAndFund(m, code, account, round).answer.Ok? <==>
              && round != 0
              && (Eligible(after, code, db.rooms[code].currentRound) == Some(Advancing) ==> CanStake(db.funds.book, seats[Host].account, seats[Guest].account))
  {
    hide DbOk, MemoryOk, RowsOk, RoomOk, Restorable, WellFormed, Persisted, RoleOf, RelatedRoom, WorkingCopy, RecordRequest, Finished, RequestNextRound, Eligible, ViewOf;
    hide NextRound, Aligned, Related, CanStake, SafeAccount, Load;
    AccountIsNamed(account);
    AlignedParts(db, m);
    RequestEffect(db, code, account, round, now);
    AlignedRoom(db, m, code);
    var rows := db.rooms[code];
    var after := RecordRequest(db, code, account, round, now).db;
    SameSeat(code, rows, m, account);
    RelatedIsPersisted(code, rows, m.rooms[code]);
    var s, id := Persisted(code, rows), rows.seats[RoleOf(rows, account).value].playerId;
    AskedOutcome(code, after, s, id);
    MR.AskedShape(s, id, s.round);
    ZeroIsStale(s, id);
    if RequestNextRound(s, id, s.round).value.round > s.round { SecondRequestPaid(db, m, code, id); }
  }

  lemma {:induction false} ZeroIsStale(s: RoomState, id: string)
    requires WellFormed(s)
    ensures RequestNextRound(s, id, 0).Err? && s.round > 0
  {}

  // ---- Runs ----

  // A command the database performs, and that reconciling does not hold up:
  // in memory it succeeds as well, and leaves the same game and the same money.
  // An expected round of zero is not compared by the database, so it is left
  // out; and the accepted recharges must fit in 64 bits.
  ghost predicate Smooth(db: Db, m: Memory.State, account: string, key: string, call: Call, now: int) {
    && SafeAccount(account) && Refusal(account, call).None? && Store.Effect(db, account, key, call, now).Done?
    && (call.CallRecharge? ==> RechargeTotal(m) + call.amount <= MaxInt64)
    && (call.CallNextRound? ==>
          && call.round != 0
          && var after := Store.Effect(db, account, key, call, now).db;
             call.code in after.rooms ==>
               var r := Reconcile(after, call.code, after.rooms[call.code].currentRound, now); r.Some? ==> r.value.Done?)
  }

  lemma {:induction false} CommandRefines(db: Db, m: Memory.State, account: string, key: string, call: Call, now: int, deadline: int)
    requires Aligned(db, m) && Smooth(db, m, account, key, call, now)
    ensures Refusal(account, call).None?
    ensures var n := Memory.Effect(m, account, key, call, now, deadline);
            n.answer.Ok? && Related(Performed(db, account, key, call, now), n.state)
  {
    hide Aligned, Related, CreateRoom, JoinRoom, RecordMove, RecordRequest, Store.LeaveRoom, RechargeAccount, Reconcile, SafeAccount;
    hide Memory.Create, JoinFunded, SubmitMoveAndSettle, RequestNextRoundAndFund, Memory.LeaveRoom, Memory.Recharge;
    AccountIsNamed(account);
    match call {
      case CallCreate(code, playerId) => CreateRefines(db, m, code, playerId, account, now);
      case CallJoin(code, playerId) => JoinRefines(db, m, code, playerId, account, now, deadline);
      case CallMove(code, move) => MoveRefines(db, m, code, account, key, move, now);
      case CallNextRound(code, round) =>
        RequestedRoom(db, m, code, account, round, now);
        RequestRefines(db, m, code, account, key, round, now);
      case CallLeave(code) => LeaveRefines(db, m, code, account, now);
      case CallRecharge(amount) => RechargeRefines(db, m, account, key, amount);
    }
  }

  lemma {:induction false} AccountIsNamed(account: string)
    ensures SafeAccount(account) ==> account != ""
  {}

  lemma {:induction false} RequestedRoom(db: Db, m: Memory.State, code: string, account: string, round: nat, now: int)
    requires Aligned(db, m) && RecordRequest(db, code, account, round, now).Done?
    ensures code in RecordRequest(db, code, account, round, now).db.rooms
  {
    hide DbOk, MemoryOk, Related, WellFormed, Persisted, RequestNextRound, RowsOk;
    RequestEffect(db, code, account, round, now);
  }

  lemma {:induction false} PerformedIsOk(db: Db, account: string, key: string, call: Call, now: int)
    requires DbOk(db) && Refusal(account, call).None?
    ensures DbOk(Performed(db, account, key, call, now))
  {
    hide DbOk, Store.Effect, Reconcile, Eligible;
    if Store.Effect(db, account, key, call, now).Done? {
      EffectKeepsOk(db, account, key, call, now);
      var after := Store.Effect(db, account, key, call, now).db;
      if (call.CallMove? || call.CallNextRound?) && call.code in after.rooms {
        NextKeepsOk(after, TxReconcile(call.code, after.rooms[call.code].currentRound, now));
      }
    }
  }

  // ---- Answers ----

  // Both repositories answer the same room or the same balance. The database
  // answers a recorded action with its round alone; memory then shows that
  // round, or the next one if the action started it.
  predicate Alike(a: Response, b: Response) {
    match a
    case RoomResponse(view, _) => b.RoomResponse? && b.view == view
    case BalanceResponse(balance) => b == BalanceResponse(balance)
    case RecordedResponse(code, round, resolved, _) =>
      && b.RoomResponse? && b.view.code == code
      && if resolved then (b.view.round == round && b.view.resolved) || b.view.round == round + 1 else b.view.round == round
  }

  // The answer shows the room as the database stores it.
  ghost predicate Shows(db: Db, code: string, response: Response) {
    && code in db.rooms && db.rooms[code].currentRound in db.rooms[code].rounds
    && response.RoomResponse? && response.view == ViewOf(Stored(db, code))
  }

  // What memory answers is what it then holds, a room in its next revision.
  lemma {:induction false} MemoryTells(m: Memory.State, account: string, key: string, call: Call, now: int, deadline: int)
    requires Refusal(account, call).None? && Memory.Effect(m, account, key, call, now, deadline).answer.Ok?
    ensures var n := Memory.Effect(m, account, key, call, now, deadline);
            if call.CallRecharge? then n.answer.value == BalanceResponse(Lookup(n.state.wallets, account))
            else call.code in n.state.rooms
                 && n.answer.value == RoomResponse(ViewOf(n.state.rooms[call.code].room), n.state.rooms[call.code].revision)
                 && n.answer.value.revision == if call.code in m.rooms then m.rooms[call.code].revision + 1 else 1
  {
    hide Fund, Memory.SettleRound, ViewOf, Refreshed, WorkingCopy, SubmitMove, RequestNextRound, Leave, Join, Restorable;
  }

  lemma {:induction false} MoveShows(m: Memory.State, code: string, account: string, move: Move)
    requires SubmitMoveAndSettle(m, code, account, move).answer.Ok?
    ensures code in m.rooms
    ensures var n := SubmitMoveAndSettle(m, code, account, move).state;
            code in n.rooms && n.rooms[code].room.code == m.rooms[code].room.code && n.rooms[code].room.round == m.rooms[code].room.round
  {
    hide Fund, Memory.SettleRound, ViewOf, WorkingCopy, SubmitMove, Restorable;
    var w := WorkingCopy(m, code, account).value;
    MR.SubmittedShape(w.state, w.id, move);
  }

  lemma {:induction false} RequestShows(m: Memory.State, code: string, account: string, round: nat)
    requires RequestNextRoundAndFund(m, code, account, round).answer.Ok?
    ensures code in m.rooms
    ensures var s, n := m.rooms[code].room, RequestNextRoundAndFund(m, code, account, round).state;
            && code in n.rooms && n.rooms[code].room.code == s.code
            && (n.rooms[code].room.round == s.round + 1 || (n.rooms[code].room.round == s.round && n.rooms[code].room.resolved))
  {
    hide Fund, ViewOf, WorkingCopy, RequestNextRound, Restorable;
    var w := WorkingCopy(m, code, account).value;
    MR.AskedShape(w.state, w.id, round);
    NextNumber(w.state);
  }

  lemma {:induction false} ViewNames(s: RoomState)
    ensures ViewOf(s).code == s.code && ViewOf(s).round == s.round && ViewOf(s).resolved == s.resolved
  {}

  lemma {:induction false} RelatedShows(db: Db, m: Memory.State, code: string)
    requires Related(db, m) && code in m.rooms
    ensures code in db.rooms && db.rooms[code].currentRound in db.rooms[code].rounds && m.rooms[code].room == Stored(db, code)
  {
    hide RelatedMoney, RelatedHistory, RelatedRecharges;
  }

  lemma {:induction false} AlignedShows(db: Db, m: Memory.State, code: string)
    requires Aligned(db, m) && code in m.rooms
    ensures code in db.rooms && m.rooms[code].room.code == code && m.rooms[code].room.round == db.rooms[code].currentRound
  {
    hide Related, DbOk, MemoryOk, RelatedMoney, RelatedHistory, RelatedRecharges;
    RelatedShows(db, m, code);
    MR.RoomOfMemory(m, code);
    PersistedNames(code, db.rooms[code]);
  }

  lemma {:induction false} ActionsAlike(db: Db, m: Memory.State, account: string, key: string, call: Call, now: int, deadline: int)
    requires Aligned(db, m) && Refusal(account, call).None? && (call.CallMove? || call.CallNextRound?)
    requires Store.Effect(db, account, key, call, now).Done? && Memory.Effect(m, account, key, call, now, deadline).answer.Ok?
    ensures Alike(Store.Effect(db, account, key, call, now).answer, Memory.Effect(m, account, key, call, now, deadline).answer.value)
  {
    hide Aligned, RecordMove, RecordRequest, SubmitMoveAndSettle, RequestNextRoundAndFund, ViewOf, Related, DbOk, MemoryOk;
    MemoryTells(m, account, key, call, now, deadline);
    var n := Memory.Effect(m, account, key, call, now, deadline).state;
    ViewNames(n.rooms[call.code].room);
    AlignedParts(db, m);
    if call.CallMove? {
      A.ActionTells(db, call.code, account, call.move, 0, now);
      MoveShows(m, call.code, account, call.move);
      AlignedShows(db, m, call.code);
    } else {
      A.ActionTells(db, call.code, account, Rock, call.round, now);
      RequestShows(m, call.code, account, call.round);
      AlignedShows(db, m, call.code);
    }
  }

  lemma {:induction false} RoomsAlike(db: Db, m: Memory.State, account: string, key: string, call: Call, now: int, deadline: int)
    requires DbOk(db) && Refusal(account, call).None? && (call.CallCreate? || call.CallJoin? || call.CallLeave?)
    requires Store.Effect(db, account, key, call, now).Done? && Memory.Effect(m, account, key, call, now, deadline).answer.Ok?
    requires Related(Performed(db, account, key, call, now), Memory.Effect(m, account, key, call, now, deadline).state)
    ensures Alike(Store.Effect(db, account, key, call, now).answer, Memory.Effect(m, account, key, call, now, deadline).answer.value)
  {
    hide DbOk, CreateRoom, JoinRoom, Store.LeaveRoom, Create, JoinFunded, Memory.LeaveRoom, ViewOf, Related, Persisted;
    MemoryTells(m, account, key, call, now, deadline);
    RelatedShows(Performed(db, account, key, call, now), Memory.Effect(m, account, key, call, now, deadline).state, call.code);
    match call {
      case CallCreate(code, playerId) => A.CreateTells(db, code, playerId, account, now);
      case CallJoin(code, playerId) => A.JoinTells(db, code, playerId, account, now);
      case CallLeave(code) => A.LeaveTells(db, code, account, now);
    }
  }

  lemma {:induction false} BalancesAlike(db: Db, m: Memory.State, account: string, key: string, call: Call, now: int, deadline: int)
    requires DbOk(db) && Refusal(account, call).None? && call.CallRecharge? && SafeAccount(account)
    requires Store.Effect(db, account, key, call, now).Done? && Memory.Effect(m, account, key, call, now, deadline).answer.Ok?
    requires Related(Performed(db, account, key, call, now), Memory.Effect(m, account, key, call, now, deadline).state)
    ensures Alike(Store.Effect(db, account, key, call, now).answer, Memory.Effect(m, account, key, call, now, deadline).answer.value)
  {
    hide DbOk, RechargeAccount, Memory.Recharge, RelatedRoom, RelatedHistory, RelatedRecharges, RelatedMoney, SafeAccount;
    MemoryTells(m, account, key, call, now, deadline);
    A.RechargeTells(db, account, key, call.amount);
    var n := Memory.Effect(m, account, key, call, now, deadline).state;
    SameCoins(Performed(db, account, key, call, now).funds.book.balances, n.wallets, account);
  }

  lemma {:induction false} ResponsesAlike(db: Db, m: Memory.State, account: string, key: string, call: Call, now: int, deadline: int)
    requires Aligned(db, m) && Refusal(account, call).None? && SafeAccount(account)
    requires Store.Effect(db, account, key, call, now).Done? && Memory.Effect(m, account, key, call, now, deadline).answer.Ok?
    requires Related(Performed(db, account, key, call, now), Memory.Effect(m, account, key, call, now, deadline).state)
    ensures Alike(Store.Effect(db, account, key, call, now).answer, Memory.Effect(m, account, key, call, now, deadline).answer.value)
    ensures !call.CallRecharge? ==>
              Shows(Performed(db, account, key, call, now), call.code, Memory.Effect(m, account, key, call, now, deadline).answer.value)
  {
    hide DbOk, Aligned, Store.Effect, Memory.Effect, Alike, Related, SafeAccount, Performed, ViewOf;
    AlignedParts(db, m);
    MemoryTells(m, account, key, call, now, deadline);
    if call.CallRecharge? {
      BalancesAlike(db, m, account, key, call, now, deadline);
    } else {
      RelatedShows(Performed(db, account, key, call, now), Memory.Effect(m, account, key, call, now, deadline).state, call.code);
      if call.CallMove? || call.CallNextRound? {
        ActionsAlike(db, m, account, key, call, now, deadline);
      } else {
        RoomsAlike(db, m, account, key, call, now, deadline);
      }
    }
  }

  // ---- Receipts ----

  // Reconciling neither reads nor writes receipts.
  lemma {:induction false} BumpFrame(db: Db, receipts: map<string, Receipt>, code: string, revision: nat, now: int)
    ensures var a, b := Bump(db, code, revision, now), Bump(db.(receipts := receipts), code, revision, now);
            b == match a case Ok(d) => Ok(d.(receipts := receipts)) case Err(e) => Err(e)
  {}

  lemma {:induction false} SaveFrame(db: Db, receipts: map<string, Receipt>, code: string, s: RoomState, previousRound: nat, now: int)
    requires code in db.rooms
    ensures var a, b := SaveAndBump(db, code, s, previousRound, now), SaveAndBump(db.(receipts := receipts), code, s, previousRound, now);
            b == match a case Ok(d) => Ok(d.(receipts := receipts)) case Err(e) => Err(e)
  {
    hide Bump, Saved;
    var rows := Saved(db.rooms[code], s, previousRound, db.rooms[code].revision + 1);
    BumpFrame(WithRoom(db, code, rows), receipts, code, db.rooms[code].revision + 1, now);
  }

  lemma {:induction false} SettleFrame(db: Db, receipts: map<string, Receipt>, code: string, s: RoomState)
    requires code in db.rooms
    ensures var a, b := Store.SettleRound(db, code, s), Store.SettleRound(db.(receipts := receipts), code, s);
            b == match a case Ok(d) => Ok(d.(receipts := receipts)) case Err(e) => Err(e)
  {
    hide Settle;
  }

  lemma {:induction false} FundFrame(db: Db, receipts: map<string, Receipt>, code: string, round: nat, now: int)
    requires code in db.rooms
    ensures var a, b := FundRound(db, code, round, None, now), FundRound(db.(receipts := receipts), code, round, None, now);
            b == match a case Ok(d) => Ok(d.(receipts := receipts)) case Err(e) => Err(e)
  {
    hide Stake;
  }

  lemma {:induction false} ResolveFrame(db: Db, receipts: map<string, Receipt>, code: string, s: RoomState, now: int)
    requires code in db.rooms && WellFormed(s)
    ensures var a, b := Resolve(db, code, s, now), Resolve(db.(receipts := receipts), code, s, now);
            b == match a case Ok(d) => Ok(d.(receipts := receipts)) case Err(e) => Err(e)
  {
    hide SaveAndBump, Store.SettleRound, ResolveCommittedMoves, WithCancelled;
    if ResolveCommittedMoves(s, s.round).Ok? {
      var t := ResolveCommittedMoves(s, s.round).value;
      SaveFrame(db, receipts, code, t, t.round, now);
      if SaveAndBump(db, code, t, t.round, now).Ok? { SettleFrame(SaveAndBump(db, code, t, t.round, now).value, receipts, code, t); }
    }
  }

  lemma {:induction false} AdvanceFrame(db: Db, receipts: map<string, Receipt>, code: string, s: RoomState, now: int)
    requires code in db.rooms && WellFormed(s)
    ensures var a, b := Advance(db, code, s, now), Advance(db.(receipts := receipts), code, s, now);
            b == match a case Ok(d) => Ok(d.(receipts := receipts)) case Err(e) => Err(e)
  {
    hide SaveAndBump, FundRound, AdvanceCommittedNextRound;
    if AdvanceCommittedNextRound(s, s.round).Ok? {
      var t := AdvanceCommittedNextRound(s, s.round).value;
      SaveFrame(db, receipts, code, t, s.round, now);
      if SaveAndBump(db, code, t, s.round, now).Ok? { FundFrame(SaveAndBump(db, code, t, s.round, now).value, receipts, code, t.round, now); }
    }
  }

  lemma {:induction false} ReconciledFrame(db: Db, receipts: map<string, Receipt>, code: string, now: int)
    requires code in db.rooms
    ensures Reconciled(db.(receipts := receipts), code, now) == Reconciled(db, code, now).(receipts := receipts)
    ensures Reconciled(db, code, now).receipts == db.receipts
  {
    hide Resolve, Advance, Persisted, Restorable, Keys.HintFits;
    if Load(db, code).Ok? {
      ResolveFrame(db, receipts, code, Load(db, code).value, now);
      ResolveFrame(db, db.receipts, code, Load(db, code).value, now);
      AdvanceFrame(db, receipts, code, Load(db, code).value, now);
      AdvanceFrame(db, db.receipts, code, Load(db, code).value, now);
    }
  }

  // The same keys were used, by the same requests, with the same answers.
  ghost predicate RelatedReceipts(receipts: map<string, Receipt>, kept: map<string, Memory.Kept>) {
    && (forall k :: k in receipts <==> k in kept)
    && forall k | k in receipts ::
         && kept[k].account == receipts[k].account && kept[k].command.operation == receipts[k].operation && kept[k].command.hash == receipts[k].hash
         && Alike(receipts[k].response, kept[k].response)
  }

  ghost predicate Together(db: Db, m: Memory.State) {
    Aligned(db, m) && RelatedReceipts(db.receipts, m.receipts)
  }

  datatype Request = Request(account: string, command: Command, call: Call, now: int, deadline: int)

  // A whole command of the database: refused, answered by its receipt, or
  // performed, and then reconciled if it recorded an action.
  ghost function Answered(db: Db, r: Request): Db {
    match Store.Execute(db, r.account, r.command, r.call, r.now)
    case Failed(_) => db
    case Done(after, reply) =>
      if !reply.replayed && (r.call.CallMove? || r.call.CallNextRound?) && r.call.code in after.rooms
      then Reconciled(after, r.call.code, r.now) else after
  }

  // Refused, repeated and failing commands are always covered, others when they
  // are performed and nothing holds up their reconciliation.
  ghost predicate Covered(db: Db, m: Memory.State, r: Request) {
    || Refusal(r.account, r.call).Some? || r.command.key in db.receipts
    || Smooth(db, m, r.account, r.command.key, r.call, r.now) || Fails(db, r.account, r.command.key, r.call, r.now)
  }

  // The command fails while it runs, for different reasons.
  ghost predicate FailsDifferently(db: Db, r: Request) {
    Refusal(r.account, r.call).None? && r.command.key !in db.receipts && ToldDifferently(db, r.account, r.call)
  }

  ghost function RunDb(db: Db, requests: seq<Request>): Db {
    if requests == [] then db else Answered(RunDb(db, requests[..|requests| - 1]), requests[|requests| - 1])
  }

  ghost function RunMemory(m: Memory.State, requests: seq<Request>): Memory.State {
    if requests == [] then m else
      var r := requests[|requests| - 1];
      Memory.Execute(RunMemory(m, requests[..|requests| - 1]), r.account, r.command, r.call, r.now, r.deadline).state
  }

  ghost predicate AllCovered(db: Db, m: Memory.State, requests: seq<Request>) {
    forall i | 0 <= i < |requests| :: Covered(RunDb(db, requests[..i]), RunMemory(m, requests[..i]), requests[i])
  }

  // Aligned repositories stay so whatever their receipts are.
  lemma {:induction false} ReceiptsAreApart(db: Db, m: Memory.State, receipts: map<string, Receipt>, kept: map<string, Memory.Kept>)
    requires Aligned(db, m)
    ensures Aligned(db.(receipts := receipts), m.(receipts := kept))
  {
    hide Invariant.RoomsOk, FundsOk, Linked, ConnectionsOk, PresentOk, DeadlinesOk, Announced, MemoryInvariant.RoomsOk, WalletsOk, HistoryOk;
  }

  lemma {:induction false} AnsweredIsPerformed(db: Db, r: Request)
    requires Refusal(r.account, r.call).None? && r.command.key !in db.receipts && Store.Effect(db, r.account, r.command.key, r.call, r.now).Done?
    ensures var response := Store.Effect(db, r.account, r.command.key, r.call, r.now).answer;
            var receipt := Receipt(r.account, r.command.operation, r.command.hash, response, r.now + ReceiptRetention);
            Answered(db, r) == Performed(db, r.account, r.command.key, r.call, r.now).(receipts := db.receipts[r.command.key := receipt])
  {
    hide Store.Effect, Reconciled;
    I.EffectKeepsReceipts(db, r.account, r.command.key, r.call, r.now);
    var effect := Store.Effect(db, r.account, r.command.key, r.call, r.now);
    var receipt := Receipt(r.account, r.command.operation, r.command.hash, effect.answer, r.now + ReceiptRetention);
    if (r.call.CallMove? || r.call.CallNextRound?) && r.call.code in effect.db.rooms {
      ReconciledFrame(effect.db, effect.db.receipts[r.command.key := receipt], r.call.code, r.now);
    }
  }

  // One command, whole: both refuse it, both answer it from the receipt or both
  // report a conflict, both fail it or both perform it, with the same answer,
  // and stay together. What memory answers of a room is the room that the
  // database then stores.
  lemma {:induction false} AnswersAgree(db: Db, m: Memory.State, r: Request)
    requires Together(db, m) && Covered(db, m, r)
    ensures var a, b := Store.Execute(db, r.account, r.command, r.call, r.now), Memory.Execute(m, r.account, r.command, r.call, r.now, r.deadline);
            && (a.Done? <==> b.answer.Ok?) && (a.Failed? ==> (b.answer.error == a.error <==> !FailsDifferently(db, r)))
            && (a.Done? ==> (b.answer.value.replayed <==> a.answer.replayed) && Alike(a.answer.response, b.answer.value.response))
            && (a.Done? && !a.answer.replayed && !r.call.CallRecharge? ==> Shows(Answered(db, r), r.call.code, b.answer.value.response))
            && Together(Answered(db, r), b.state)
  {
    hide Aligned, Smooth, Fails, ToldDifferently, Store.Effect, Memory.Effect, Refusal, Reconciled, Performed, Alike, Shows;
    if Refusal(r.account, r.call).None? && r.command.key !in db.receipts && Fails(db, r.account, r.command.key, r.call, r.now) {
      FailingIsFailed(db, r);
      FailuresAgree(db, m, r.account, r.command.key, r.call, r.now, r.deadline);
      MI.EffectKeepsReceipts(m, r.account, r.command.key, r.call, r.now, r.deadline);
    } else if Refusal(r.account, r.call).None? && r.command.key !in db.receipts {
      SmoothIsPerformed(db, m, r);
      PerformedTogether(db, m, r);
      AnsweredAlike(db, m, r);
      AnsweredIsPerformed(db, r);
      MI.EffectKeepsReceipts(m, r.account, r.command.key, r.call, r.now, r.deadline);
      ReceiptsAreApart(Performed(db, r.account, r.command.key, r.call, r.now), Memory.Effect(m, r.account, r.command.key, r.call, r.now, r.deadline).state,
                       Answered(db, r).receipts, Memory.Execute(m, r.account, r.command, r.call, r.now, r.deadline).state.receipts);
    }
  }

  lemma {:induction false} AnsweredAlike(db: Db, m: Memory.State, r: Request)
    requires Aligned(db, m) && Smooth(db, m, r.account, r.command.key, r.call, r.now) && r.command.key !in db.receipts && Refusal(r.account, r.call).None?
    requires Store.Effect(db, r.account, r.command.key, r.call, r.now).Done?
    requires var n := Memory.Effect(m, r.account, r.command.key, r.call, r.now, r.deadline);
             n.answer.Ok? && Aligned(Performed(db, r.account, r.command.key, r.call, r.now), n.state)
    ensures var answer := Memory.Effect(m, r.account, r.command.key, r.call, r.now, r.deadline).answer.value;
            && Alike(Store.Effect(db, r.account, r.command.key, r.call, r.now).answer, answer)
            && (!r.call.CallRecharge? ==> Shows(Answered(db, r), r.call.code, answer))
  {
    hide Aligned, Smooth, Store.Effect, Memory.Effect, Refusal, Reconciled, Performed, Alike, Answered, ViewOf, Persisted, SafeAccount;
    SmoothFits(db, m, r);
    AlignedParts(Performed(db, r.account, r.command.key, r.call, r.now), Memory.Effect(m, r.account, r.command.key, r.call, r.now, r.deadline).state);
    ResponsesAlike(db, m, r.account, r.command.key, r.call, r.now, r.deadline);
    AnsweredIsPerformed(db, r);
  }

  lemma {:induction false} FailingIsFailed(db: Db, r: Request)
    requires Fails(db, r.account, r.command.key, r.call, r.now)
    ensures Store.Effect(db, r.account, r.command.key, r.call, r.now).Failed?
  {
    hide Store.Effect;
  }

  lemma {:induction false} SmoothIsPerformed(db: Db, m: Memory.State, r: Request)
    requires Smooth(db, m, r.account, r.command.key, r.call, r.now)
    ensures Store.Effect(db, r.account, r.command.key, r.call, r.now).Done?
  {
    hide Store.Effect, Reconcile;
  }

  lemma {:induction false} SmoothFits(db: Db, m: Memory.State, r: Request)
    requires Smooth(db, m, r.account, r.command.key, r.call, r.now)
    ensures SafeAccount(r.account) && (r.call.CallRecharge? ==> RechargeTotal(m) + r.call.amount <= MaxInt64)
  {
    hide Store.Effect, Reconcile, RechargeTotal, SafeAccount;
  }

  lemma {:induction false} PerformedTogether(db: Db, m: Memory.State, r: Request)
    requires Aligned(db, m) && Smooth(db, m, r.account, r.command.key, r.call, r.now)
    ensures Refusal(r.account, r.call).None?
    ensures var n := Memory.Effect(m, r.account, r.command.key, r.call, r.now, r.deadline);
            n.answer.Ok? && Aligned(Performed(db, r.account, r.command.key, r.call, r.now), n.state)
  {
    hide DbOk, MemoryOk, Related, Smooth, Performed, Memory.Effect;
    CommandRefines(db, m, r.account, r.command.key, r.call, r.now, r.deadline);
    PerformedIsOk(db, r.account, r.command.key, r.call, r.now);
    SmoothFits(db, m, r);
    EffectKeepsMemoryOk(m, r.account, r.command.key, r.call, r.now, r.deadline);
  }

  // Whole runs of such commands, in any order, repeated and conflicting ones
  // included, lead both repositories to the same rooms, coins and history, and
  // to receipts for the same commands.
  lemma {:induction false} RunsAgree(db: Db, m: Memory.State, requests: seq<Request>)
    requires Together(db, m) && AllCovered(db, m, requests)
    ensures Together(RunDb(db, requests), RunMemory(m, requests))
  {
    hide Together, Covered, Answered, Memory.Execute;
    if requests != [] {
      var k := |requests| - 1;
      forall i | 0 <= i < k ensures Covered(RunDb(db, requests[..k][..i]), RunMemory(m, requests[..k][..i]), requests[..k][i]) {
        assert requests[..k][..i] == requests[..i];
      }
      RunsAgree(db, m, requests[..k]);
      AnswersAgree(RunDb(db, requests[..k]), RunMemory(m, requests[..k]), requests[k]);
    }
  }

  // Both start empty, and stay together over every such run from there.
  lemma {:induction false} RunsFromEmptyAgree(requests: seq<Request>)
    requires AllCovered(EmptyDb(), EmptyState, requests)
    ensures Together(EmptyDb(), EmptyState) && Together(RunDb(EmptyDb(), requests), RunMemory(EmptyState, requests))
  {
    hide DbOk, MemoryOk, Related, AllCovered;
    EmptyDbOk();
    EmptyIsOk();
    EmptyIsRelated();
    RunsAgree(EmptyDb(), EmptyState, requests);
  }

  // ---- The order of the two actions ----

  // The player of an account does not change while the seats stay.
  lemma {:induction false} SamePlayer(m: Memory.State, n: Memory.State, code: string, account: string)
    requires MemoryOk(m) && MemoryOk(n) && code in m.rooms && code in n.rooms && n.rooms[code].owners == m.rooms[code].owners
    requires WorkingCopy(m, code, account).Ok?
    ensures WorkingCopy(n, code, account) == Ok(Working(WorkingCopy(m, code, account).value.id, n.rooms[code].room))
  {
    hide Restorable;
    var id := WorkingCopy(m, code, account).value.id;
    MR.RoomOfMemory(m, code);
    MR.RoomOfMemory(n, code);
    MR.RoomIsRestorable(code, n.rooms[code]);
    OwnersDiffer(code, n.rooms[code]);
    assert Owns(n.rooms[code], account, id);
    forall i | Owns(n.rooms[code], account, i) ensures i == id {}
  }

  lemma {:induction false} OwnersDiffer(code: string, r: StoredRoom)
    requires RoomOk(code, r)
    ensures forall i, j | i in r.owners && j in r.owners && i != j :: r.owners[i] != r.owners[j]
  {}

  // A first move is only recorded.
  lemma {:induction false} FirstMove(m: Memory.State, code: string, account: string, move: Move)
    requires MemoryOk(m) && WorkingCopy(m, code, account).Ok? && SubmitMove(m.rooms[code].room, WorkingCopy(m, code, account).value.id, move).Ok?
    requires !SubmitMove(m.rooms[code].room, WorkingCopy(m, code, account).value.id, move).value.resolved
    ensures var r := m.rooms[code];
            var t := SubmitMove(r.room, WorkingCopy(m, code, account).value.id, move).value;
            && SubmitMoveAndSettle(m, code, account, move) == Memory.Changed(m, code, r.(room := t))
            && MemoryOk(SubmitMoveAndSettle(m, code, account, move).state)
  {
    hide MemoryOk, Restorable, SubmitMove, ViewOf, Finished;
    var id := WorkingCopy(m, code, account).value.id;
    MR.MoveKeepsOk(m, code, account, move);
    MR.SubmittedShape(m.rooms[code].room, id, move);
    MR.AlreadyFunded(m, code, SubmitMove(m.rooms[code].room, id, move).value, false);
  }

  // The aggregate side: neither first move resolves, both second moves do.
  lemma {:induction false} TwoMoves(s: RoomState, a: string, x: Move, b: string, y: Move)
    requires Restorable(s) && SubmitMove(s, a, x).Ok? && SubmitMove(SubmitMove(s, a, x).value, b, y).Ok?
    ensures SubmitMove(s, b, y).Ok? && !SubmitMove(s, a, x).value.resolved && !SubmitMove(s, b, y).value.resolved
    ensures SubmitMove(SubmitMove(s, a, x).value, b, y) == SubmitMove(SubmitMove(s, b, y).value, a, x)
    ensures SubmitMove(SubmitMove(s, a, x).value, b, y).value.resolved && |SubmitMove(SubmitMove(s, a, x).value, b, y).value.players| == 2
    ensures SubmitMove(SubmitMove(s, a, x).value, b, y).value.round == s.round && |s.players| == 2
  {
    MovesCommuteWithResolution(s, a, x, b, y);
  }

  lemma {:induction false} SubmittedRoom(m: Memory.State, code: string, account: string, move: Move)
    requires MemoryOk(m) && SubmitMoveAndSettle(m, code, account, move).answer.Ok?
    ensures WorkingCopy(m, code, account).Ok? && SubmitMove(m.rooms[code].room, WorkingCopy(m, code, account).value.id, move).Ok?
    ensures var n := SubmitMoveAndSettle(m, code, account, move).state;
            && code in n.rooms && n.rooms[code].owners == m.rooms[code].owners
            && n.rooms[code].room == SubmitMove(m.rooms[code].room, WorkingCopy(m, code, account).value.id, move).value
  {
    hide MemoryOk, Restorable, SubmitMove, ViewOf, Fund, Memory.SettleRound, WorkingCopy;
  }

  // A second move settles the round.
  lemma {:induction false} SecondMove(m: Memory.State, code: string, account: string, move: Move)
    requires MemoryOk(m) && WorkingCopy(m, code, account).Ok? && SubmitMove(m.rooms[code].room, WorkingCopy(m, code, account).value.id, move).Ok?
    requires SubmitMove(m.rooms[code].room, WorkingCopy(m, code, account).value.id, move).value.resolved
    ensures var r := m.rooms[code];
            var t := SubmitMove(r.room, WorkingCopy(m, code, account).value.id, move).value;
            && |t.players| == 2
            && var paid := Memory.SettleRound(m.wallets, m.history, r, t);
               SubmitMoveAndSettle(m, code, account, move)
               == Memory.Changed(m.(wallets := paid.wallets, history := paid.history), code, r.(room := t))
  {
    hide MemoryOk, Restorable, SubmitMove, ViewOf, Memory.SettleRound, RoomOk;
    var r := m.rooms[code];
    var id := WorkingCopy(m, code, account).value.id;
    MR.SubmittedShape(r.room, id, move);
    SeatsInMemory(m, code);
    assert r.funded + {r.room.round} == r.funded;
    MR.FinishedShape(m, code, SubmitMove(r.room, id, move).value);
  }

  lemma {:induction false} SettlesByOwners(wallets: map<string, int>, history: seq<Played>, r: StoredRoom, other: StoredRoom, t: RoomState)
    requires |t.players| == 2 && other.owners == r.owners
    ensures Memory.SettleRound(wallets, history, r, t) == Memory.SettleRound(wallets, history, other, t)
  {}

  // Whoever moves first, two moves leave the same rooms, coins and history.
  lemma {:induction false} MoveOrderIsIrrelevant(m: Memory.State, code: string, a: string, x: Move, b: string, y: Move)
    requires MemoryOk(m) && SubmitMoveAndSettle(m, code, a, x).answer.Ok?
    requires SubmitMoveAndSettle(SubmitMoveAndSettle(m, code, a, x).state, code, b, y).answer.Ok?
    ensures SubmitMoveAndSettle(m, code, b, y).answer.Ok?
    ensures SubmitMoveAndSettle(SubmitMoveAndSettle(m, code, a, x).state, code, b, y)
         == SubmitMoveAndSettle(SubmitMoveAndSettle(m, code, b, y).state, code, a, x)
  {
    hide MemoryOk, RoomOk, Restorable, SubmitMove, ViewOf, Memory.SettleRound, WorkingCopy, SubmitMoveAndSettle;
    SubmittedRoom(m, code, a, x);
    MR.MoveKeepsOk(m, code, a, x);
    var n := SubmitMoveAndSettle(m, code, a, x).state;
    SubmittedRoom(n, code, b, y);
    SamePlayer(n, m, code, b);
    var r := m.rooms[code];
    MR.RoomOfMemory(m, code);
    MR.RoomIsRestorable(code, r);
    var i, j := WorkingCopy(m, code, a).value.id, WorkingCopy(m, code, b).value.id;
    TwoMoves(r.room, i, x, j, y);
    FirstMove(m, code, a, x);
    FirstMove(m, code, b, y);
    SecondMove(n, code, b, y);
    var o := SubmitMoveAndSettle(m, code, b, y).state;
    SamePlayer(m, o, code, a);
    SecondMove(o, code, a, x);
    SettlesByOwners(m.wallets, m.history, n.rooms[code], o.rooms[code], SubmitMove(SubmitMove(r.room, i, x).value, j, y).value);
  }

  // The aggregate side: neither first request advances the room, both second ones do.
  lemma {:induction false} TwoRequests(s: RoomState, a: string, b: string, round: nat)
    requires Restorable(s) && RequestNextRound(s, a, round).Ok? && RequestNextRound(RequestNextRound(s, a, round).value, b, round).Ok?
    ensures RequestNextRound(s, b, round).Ok?
    ensures RequestNextRound(s, a, round).value.round == s.round && RequestNextRound(s, b, round).value.round == s.round
    ensures RequestNextRound(s, a, round).value.players == s.players == RequestNextRound(s, b, round).value.players
    ensures RequestNextRound(RequestNextRound(s, a, round).value, b, round) == RequestNextRound(RequestNextRound(s, b, round).value, a, round)
    ensures RequestNextRound(RequestNextRound(s, a, round).value, b, round).value.round == s.round + 1
  {
    RequestsCommuteWithAdvance(s, a, b, round);
  }

  lemma {:induction false} AskedRoom(m: Memory.State, code: string, account: string, round: nat)
    requires MemoryOk(m) && RequestNextRoundAndFund(m, code, account, round).answer.Ok?
    ensures WorkingCopy(m, code, account).Ok? && RequestNextRound(m.rooms[code].room, WorkingCopy(m, code, account).value.id, round).Ok?
    ensures var n := RequestNextRoundAndFund(m, code, account, round).state;
            && code in n.rooms && n.rooms[code].owners == m.rooms[code].owners
            && n.rooms[code].room == RequestNextRound(m.rooms[code].room, WorkingCopy(m, code, account).value.id, round).value
  {
    hide MemoryOk, Restorable, RequestNextRound, ViewOf, Fund, WorkingCopy;
  }

  lemma {:induction false} FundsByOwners(m: Memory.State, o: Memory.State, code: string, t: RoomState)
    requires code in m.rooms && code in o.rooms && o == m.(rooms := m.rooms[code := o.rooms[code]])
    requires o.rooms[code] == m.rooms[code].(room := o.rooms[code].room) && o.rooms[code].room.players == m.rooms[code].room.players
    ensures var mine, theirs := Finished(m, code, t, false), Finished(o, code, t, false);
            theirs.answer == mine.answer && (mine.answer.Ok? ==> theirs == mine)
  {
    hide ViewOf;
    var r, q := m.rooms[code], o.rooms[code];
    SameOwners(r, q, r.room.players);
    assert Fund(m.wallets, r, code, t.round, None) == Fund(m.wallets, q, code, t.round, None);
    var after := r.(room := t, funded := r.funded + {t.round}, revision := r.revision + 1);
    assert o.rooms[code := after] == m.rooms[code := after];
  }

  lemma {:induction false} SameOwners(r: StoredRoom, q: StoredRoom, players: seq<Player>)
    requires q.owners == r.owners
    ensures Owners(q, players) == Owners(r, players)
  {
    if players != [] { SameOwners(r, q, players[..|players| - 1]); }
  }

  // Whoever asks first, two requests advance and fund the room alike, and fail
  // alike when a player cannot pay.
  lemma {:induction false} RequestOrderIsIrrelevant(m: Memory.State, code: string, a: string, b: string, round: nat)
    requires MemoryOk(m) && RequestNextRoundAndFund(m, code, a, round).answer.Ok?
    requires WorkingCopy(RequestNextRoundAndFund(m, code, a, round).state, code, b).Ok?
    requires var n := RequestNextRoundAndFund(m, code, a, round).state;
             RequestNextRound(WorkingCopy(n, code, b).value.state, WorkingCopy(n, code, b).value.id, round).Ok?
    ensures RequestNextRoundAndFund(m, code, b, round).answer.Ok?
    ensures var both, other := RequestNextRoundAndFund(RequestNextRoundAndFund(m, code, a, round).state, code, b, round),
                               RequestNextRoundAndFund(RequestNextRoundAndFund(m, code, b, round).state, code, a, round);
            other.answer == both.answer && (both.answer.Ok? ==> other == both)
  {
    hide MemoryOk, RoomOk, Restorable, RequestNextRound, ViewOf, Fund, WorkingCopy;
    AskedRoom(m, code, a, round);
    MR.RequestKeepsOk(m, code, a, round);
    var n := RequestNextRoundAndFund(m, code, a, round).state;
    SamePlayer(n, m, code, b);
    var r := m.rooms[code];
    MR.RoomOfMemory(m, code);
    MR.RoomIsRestorable(code, r);
    var i, j := WorkingCopy(m, code, a).value.id, WorkingCopy(m, code, b).value.id;
    TwoRequests(r.room, i, j, round);
    MR.RequestKeepsOk(m, code, b, round);
    var o := RequestNextRoundAndFund(m, code, b, round).state;
    SamePlayer(m, n, code, b);
    SamePlayer(m, o, code, a);
    FundsByOwners(n, o, code, RequestNextRound(RequestNextRound(r.room, i, round).value, j, round).value);
  }

  // On an open resolved round the database and the room's own aggregate agree
  // on whether a player's request is stale if and only if its expected round
  // is not zero: zero passes as the current round in the database.
  lemma {:induction false} RoundZeroIsNotCompared(db: Db, code: string, account: string, expected: nat, now: int)
    requires DbOk(db) && code in db.rooms && RoleOf(db.rooms[code], account).Some? && !db.rooms[code].closed
    requires db.rooms[code].currentRound in db.rooms[code].rounds && db.rooms[code].rounds[db.rooms[code].currentRound].status.Resolved?
    ensures RoleOf(db.rooms[code], account).value in db.rooms[code].seats && WellFormed(Stored(db, code))
    ensures var id := db.rooms[code].seats[RoleOf(db.rooms[code], account).value].playerId;
            var stored, live := RecordRequest(db, code, account, expected, now), RequestNextRound(Stored(db, code), id, expected);
            && (stored == Failed(StaleRound) <==> expected != 0 && expected != db.rooms[code].currentRound)
            && (live == Err(StaleRound) <==> expected != db.rooms[code].currentRound)
            && ((stored == Failed(StaleRound) <==> live == Err(StaleRound)) <==> expected != 0)
  {
    hide DbOk, Store.Recorded;
    StoredIsWellFormed(db, code);
    SeatOfRole(db.rooms[code], account);
    NotStaleWhenRecorded(db, code, db.rooms[code].(requests := db.rooms[code].requests + {RoundRole(db.rooms[code].currentRound, RoleOf(db.rooms[code], account).value)}), now);
    assert RoundOk(db.rooms[code].rounds[db.rooms[code].currentRound]);
  }

  lemma {:induction false} NotStaleWhenRecorded(db: Db, code: string, rows: RoomRows, now: int)
    ensures Store.Recorded(db, code, rows, true, now) != Failed(StaleRound)
  {}
}
