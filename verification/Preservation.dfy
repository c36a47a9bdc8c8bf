// Every transaction keeps the invariant of the database.
module Preservation {
  import opened Prelude
  import opened Game
  import opened Ledger
  import opened Money
  import opened Tables
  import opened RowInvariant
  import opened Outbox
  import opened Store
  import opened Invariant
  import Keys

  lemma {:induction false} CreateKeepsOk(db: Db, code: string, playerId: string, account: string, now: int)
    requires DbOk(db) && CreateRoom(db, code, playerId, account, now).Done?
    ensures DbOk(CreateRoom(db, code, playerId, account, now).db)
  {
    hide RowsOk, ConnectionsOk, PresentOk, DeadlinesOk, Linked, FundsOk, BoxOk, Announced;
    hide ViewOf, WithAccount;
    var rows := RoomRows(false, 1, 1, map[Host := Seat(playerId, account, 0)], map[1 := FreshRound], map[], {}, map[]);
    WithUserKeepsFundsOk(db.funds, account);
    CreatedRowsOk(rows, playerId, account);
    CreatedLinked(db, code, rows, account);
    CreatedAnnounced(WithRoom(db, code, rows).(funds := db.funds.(book := WithAccount(db.funds.book, User(account)))), db, code, now);
    CreatedPresence(db, code, rows);
  }

  lemma {:induction false} CreatedAnnounced(created: Db, db: Db, code: string, now: int)
    requires BoxOk(db.box) && Announced(db.rooms, db.box) && code !in db.rooms && created.box == db.box
    requires code in created.rooms && created.rooms == db.rooms[code := created.rooms[code]] && created.rooms[code].revision == 1
    ensures var r := Bump(created, code, 1, now);
            r.Ok? && BoxOk(r.value.box) && Announced(r.value.rooms, r.value.box)
  {
    BumpKeeps(created, code, 1, now);
  }

  lemma {:induction false} CreatedRowsOk(rows: RoomRows, playerId: string, account: string)
    requires rows == RoomRows(false, 1, 1, map[Host := Seat(playerId, account, 0)], map[1 := FreshRound], map[], {}, map[])
    requires playerId != ""
    ensures RowsOk(rows) && !Full(rows)
  {
    assert WinsUpTo(rows.rounds, 0, Host) == 0;
  }

  lemma {:induction false} CreatedLinked(db: Db, code: string, rows: RoomRows, account: string)
    requires Linked(db.rooms, db.funds) && code !in db.rooms && !Full(rows)
    requires forall n | n in rows.rounds :: !rows.rounds[n].funded && rows.rounds[n].status.Active?
    ensures Linked(db.rooms[code := rows], db.funds.(book := WithAccount(db.funds.book, User(account))))
  {
    var other := db.rooms[code := rows];
    forall key ensures FundedRound(other, key) <==> FundedRound(db.rooms, key) {}
    forall key ensures ResolvedRound(other, key) <==> ResolvedRound(db.rooms, key) {}
    forall key | key in db.funds.history ensures RowMatches(other[key.code], key.round, db.funds.history[key]) {
      assert ResolvedRound(db.rooms, key);
    }
  }

  lemma {:induction false} CreatedPresence(db: Db, code: string, rows: RoomRows)
    requires ConnectionsOk(db.rooms, db.connections) && PresentOk(db.rooms, db.connections)
    requires DeadlinesOk(db.rooms, db.deadlines, db.nextDeadline)
    requires code !in db.rooms && rows.presence == map[]
    ensures var rooms := db.rooms[code := rows];
            && ConnectionsOk(rooms, db.connections) && PresentOk(rooms, db.connections)
            && DeadlinesOk(rooms, db.deadlines, db.nextDeadline)
  {
    var rooms := db.rooms[code := rows];
    forall c | c in db.connections ensures ConnectionOk(rooms, db.connections[c]) {}
    forall i | i in db.deadlines ensures DeadlineOk(rooms, db.deadlines[i]) {}
  }

  // A transaction that changes one room's rows, but nothing money or presence
  // depends on, and announces the new revision.
  lemma {:induction false} RoomStepKeepsOk(db: Db, code: string, after: RoomRows, now: int)
    requires DbOk(db) && code in db.rooms && RowsOk(after) && after.revision == db.rooms[code].revision + 1
    requires SameMoney(db.rooms[code], after) && KeepsPresence(db.rooms[code], after)
    ensures var r := Bump(WithRoom(db, code, after), code, after.revision, now); r.Ok? && DbOk(r.value)
  {
    hide RowsOk, ConnectionsOk, PresentOk, DeadlinesOk, Linked, FundsOk, BoxOk, Announced;
    RoomBump(db, code, after, now);
    LinkedFrame(db.rooms, db.funds, code, after);
    PresenceFrame(db, code, after);
  }

  lemma {:induction false} RevisionKeepsRowsOk(rows: RoomRows, closed: bool, revision: nat)
    requires RowsOk(rows) && revision > 0
    requires rows.currentRound in rows.rounds && (closed && Full(rows) ==> rows.rounds[rows.currentRound].status.Resolved?)
    ensures RowsOk(rows.(closed := closed, revision := revision))
  {
    assert WinsOk(rows.(closed := closed, revision := revision));
  }

  lemma {:induction false} ActionRowsOk(rows: RoomRows, moves: map<RoundRole, Move>, requests: set<RoundRole>, revision: nat)
    requires RowsOk(rows) && ActionsOk(rows.(moves := moves, requests := requests)) && revision > 0
    ensures RowsOk(rows.(moves := moves, requests := requests, revision := revision))
  {
    assert WinsOk(rows.(moves := moves, requests := requests, revision := revision));
  }

  // The rows a recorded action leaves.
  ghost predicate RecordedRows(rows: RoomRows, after: RoomRows) {
    && after == rows.(moves := after.moves, requests := after.requests, revision := rows.revision + 1)
    && ActionsOk(after)
  }

  lemma {:induction false} MoveRows(rows: RoomRows, role: Role, move: Move)
    requires RowsOk(rows) && IsValidMove(move) && role in rows.seats
    ensures RecordedRows(rows, rows.(moves := rows.moves[RoundRole(rows.currentRound, role) := move], revision := rows.revision + 1))
  {}

  lemma {:induction false} RequestRows(rows: RoomRows, role: Role)
    requires RowsOk(rows) && role in rows.seats && rows.rounds[rows.currentRound].status.Resolved?
    ensures RecordedRows(rows, rows.(requests := rows.requests + {RoundRole(rows.currentRound, role)}, revision := rows.revision + 1))
  {}

  lemma {:induction false} ActionKeepsOk(db: Db, code: string, after: RoomRows, now: int)
    requires DbOk(db) && code in db.rooms && RecordedRows(db.rooms[code], after)
    ensures var r := Bump(WithRoom(db, code, after), code, after.revision, now); r.Ok? && DbOk(r.value)
  {
    hide RowsOk, ConnectionsOk, PresentOk, DeadlinesOk, Linked, FundsOk, BoxOk, Announced;
    assert RowsOk(db.rooms[code]);
    RowsPositive(db.rooms[code]);
    ActionRowsOk(db.rooms[code], after.moves, after.requests, after.revision);
    RoomStepKeepsOk(db, code, after, now);
  }

  lemma {:induction false} RowsPositive(rows: RoomRows)
    requires RowsOk(rows)
    ensures rows.currentRound in rows.rounds && Host in rows.seats && rows.revision > 0
  {}

  lemma {:induction false} MoveKeepsOk(db: Db, code: string, account: string, move: Move, now: int)
    requires DbOk(db) && IsValidMove(move) && RecordMove(db, code, account, move, now).Done?
    ensures DbOk(RecordMove(db, code, account, move, now).db)
  {
    hide RowsOk, ConnectionsOk, PresentOk, DeadlinesOk, Linked, FundsOk, BoxOk, Announced;
    var rows := db.rooms[code];
    var role := ActionRole(db, code, account, Active, 0).value;
    MoveRows(rows, role, move);
    ActionKeepsOk(db, code, rows.(moves := rows.moves[RoundRole(rows.currentRound, role) := move], revision := rows.revision + 1), now);
  }

  lemma {:induction false} RequestKeepsOk(db: Db, code: string, account: string, round: nat, now: int)
    requires DbOk(db) && RecordRequest(db, code, account, round, now).Done?
    ensures DbOk(RecordRequest(db, code, account, round, now).db)
  {
    hide RowsOk, ConnectionsOk, PresentOk, DeadlinesOk, Linked, FundsOk, BoxOk, Announced;
    var rows := db.rooms[code];
    var role := ActionRole(db, code, account, Resolved, round).value;
    RequestRows(rows, role);
    ActionKeepsOk(db, code, rows.(requests := rows.requests + {RoundRole(rows.currentRound, role)}, revision := rows.revision + 1), now);
  }

  lemma {:induction false} LeftRows(code: string, rows: RoomRows, id: string)
    requires RowsOk(rows) && code != "" && WellFormed(Persisted(code, rows)) && Leave(Persisted(code, rows), id).Ok?
    ensures rows.currentRound in rows.rounds && !rows.closed && (Full(rows) ==> rows.rounds[rows.currentRound].status.Resolved?)
    ensures Leave(Persisted(code, rows), id) == Ok(Persisted(code, rows).(closed := true))
  {
    PersistedIsWellFormed(code, rows);
  }

  lemma {:induction false} LeaveKeepsOk(db: Db, code: string, account: string, now: int)
    requires DbOk(db) && LeaveRoom(db, code, account, now).Done?
    ensures DbOk(LeaveRoom(db, code, account, now).db)
  {
    hide RowsOk, ConnectionsOk, PresentOk, DeadlinesOk, Linked, FundsOk, BoxOk, Announced;
    hide Saved, Persisted, ViewOf, Restorable;
    var rows := db.rooms[code];
    LeftRows(code, rows, rows.seats[RoleOf(rows, account).value].playerId);
    RevisionKeepsRowsOk(rows, true, rows.revision + 1);
    SavedClosed(code, rows, rows.revision + 1);
    RowsPositive(rows);
    RoomStepKeepsOk(db, code, rows.(closed := true, revision := rows.revision + 1), now);
  }

  lemma {:induction false} RechargeKeepsOk(db: Db, account: string, key: string, amount: int)
    requires DbOk(db)
    ensures var a := RechargeAccount(db, account, key, amount); a.Done? ==> DbOk(a.db)
  {
    if Recharge(db.funds.book, account, key, amount).Ok? {
      RechargeMoves(db.funds.book, account, key, amount);
      RechargeKeepsFundsOk(db.funds, account, key, amount);
      LinkedMoreUsers(db.rooms, db.funds, Recharge(db.funds.book, account, key, amount).value, account);
    }
  }

  // ---- Settling the current round ----

  ghost predicate OpenRound(rows: RoomRows) {
    && Full(rows) && rows.currentRound in rows.rounds
    && rows.rounds[rows.currentRound].status.Active? && rows.rounds[rows.currentRound].funded
  }

  // The current round is funded and not settled, so it can be settled.
  lemma {:induction false} OpenRoundCanSettle(rooms: Rooms, funds: Funds, code: string)
    requires Linked(rooms, funds) && code in rooms && RowsOk(rooms[code]) && OpenRound(rooms[code])
    ensures var rows := rooms[code];
            CanSettle(funds, RoundKey(code, rows.currentRound), rows.seats[Host].account, rows.seats[Guest].account)
  {
    var key := RoundKey(code, rooms[code].currentRound);
    assert FundedRound(rooms, key) && !ResolvedRound(rooms, key);
  }

  lemma {:induction false} OpenRoundIsUnresolved(code: string, rows: RoomRows)
    requires RowsOk(rows) && code != "" && OpenRound(rows)
    ensures var s := Persisted(code, rows);
            !s.resolved && s.round == rows.currentRound && rows.revision > 0 && |s.players| == 2 && s.closed == rows.closed && WellFormed(s)
  {
    PersistedIsWellFormed(code, rows);
  }

  lemma {:induction false} DecidedFacts(rows: RoomRows, after: RoomRows, s: RoomState, o: Outcome, forfeited: string)
    requires DecidedRows(rows, after, o, forfeited != "") && Full(rows) && |s.players| == 2
    ensures KeepsPresence(rows, after)
    ensures SeatAccounts(after) == [rows.seats[Host].account, rows.seats[Guest].account]
    ensures var t := Decide(s, o, forfeited); t.round == s.round && t.result == o && t.forfeited == forfeited
  {}

  // Saving and settling a decided round always succeeds, writes the round's
  // one history row, and keeps the invariant.
  lemma {:induction false} SettlingKeepsOk(db: Db, code: string, o: Outcome, forfeited: string, deadlines: map<nat, Deadline>, now: int)
    requires DbOk(db) && code in db.rooms && OpenRound(db.rooms[code]) && IsDecided(o)
    requires var s := Persisted(code, db.rooms[code]); forfeited == "" || HasPlayer(s, forfeited)
    requires DeadlinesOk(db.rooms, deadlines, db.nextDeadline)
    ensures var rows := db.rooms[code];
            var s := Persisted(code, rows);
            && |s.players| == 2
            && var r := SaveAndSettle(db, code, Decide(s, o, forfeited), deadlines, now);
               && r.Ok? && DbOk(r.value)
               && DecidedRows(rows, r.value.rooms[code], o, forfeited != "")
               && Ok(r.value.funds) == Settle(db.funds, RoundKey(code, rows.currentRound), rows.seats[Host].account, rows.seats[Guest].account,
                                              o, forfeited != "")
               && r.value.funds.history == db.funds.history[RoundKey(code, rows.currentRound) :=
                    RowOf(o, rows.seats[Host].account, rows.seats[Guest].account, forfeited != "")]
  {
    hide RowsOk, ConnectionsOk, PresentOk, DeadlinesOk, Linked, FundsOk, BoxOk, Announced;
    hide Persisted, Saved, Decide, Settle, DecidedRows, KeepsPresence, SeatAccounts, RowOf;
    var rows := db.rooms[code];
    var s := Persisted(code, rows);
    OpenRoundIsUnresolved(code, rows);
    var revision := rows.revision + 1;
    SavedDecided(code, rows, o, forfeited, revision);
    var t := Decide(s, o, forfeited);
    var after := Saved(rows, t, s.round, revision);
    RoomBump(db, code, after, now);
    DecidedFacts(rows, after, s, o, forfeited);
    var key := RoundKey(code, s.round);
    var host, guest := rows.seats[Host].account, rows.seats[Guest].account;
    OpenRoundCanSettle(db.rooms, db.funds, code);
    SettleKeepsFundsOk(db.funds, key, host, guest, o, forfeited != "");
    SettleMoves(db.funds, key, host, guest, o, forfeited != "");
    var funds := Settle(db.funds, key, host, guest, o, forfeited != "").value;
    LinkedSettled(db.rooms, db.funds, code, after, o, forfeited != "", funds.book);
    PresenceFrame(db.(deadlines := deadlines), code, after);
  }

  // An eligible pair of moves always loads and always resolves.
  lemma {:induction false} ResolvableMoves(db: Db, code: string, round: nat)
    requires code in db.rooms && code != "" && RowsOk(db.rooms[code]) && Eligible(db, code, round) == Some(Resolving)
    ensures Load(db, code) == Ok(Persisted(code, db.rooms[code]))
    ensures var s := Persisted(code, db.rooms[code]);
            && WellFormed(s) && s.round == round && |s.players| == 2 && s.players[0].id in s.moves && s.players[1].id in s.moves
            && IsDecided(MovesOutcome(s)) && ResolveCommittedMoves(s, s.round) == Ok(Decide(s, MovesOutcome(s), ""))
    ensures OpenRound(db.rooms[code]) && db.rooms[code].currentRound == round
  {
    PersistedIsWellFormed(code, db.rooms[code]);
  }

  // A round with both moves recorded is resolved by its moves when it is
  // reconciled; nothing can fail.
  lemma {:induction false} ResolveKeepsOk(db: Db, code: string, round: nat, now: int)
    requires DbOk(db) && code in db.rooms && Eligible(db, code, round) == Some(Resolving)
    ensures var rows := db.rooms[code];
            var s := Persisted(code, rows);
            && Load(db, code) == Ok(s)
            && |s.players| == 2 && s.players[0].id in s.moves && s.players[1].id in s.moves
            && WellFormed(s)
            && var r := Resolve(db, code, s, now);
               && r.Ok? && DbOk(r.value)
               && DecidedRows(rows, r.value.rooms[code], MovesOutcome(s), false)
               && Ok(r.value.funds) == Settle(db.funds, RoundKey(code, round), rows.seats[Host].account, rows.seats[Guest].account, MovesOutcome(s), false)
               && r.value.funds.history == db.funds.history[RoundKey(code, round) :=
                    RowOf(MovesOutcome(s), rows.seats[Host].account, rows.seats[Guest].account, false)]
  {
    hide RowsOk, ConnectionsOk, PresentOk, DeadlinesOk, Linked, FundsOk, BoxOk, Announced;
    hide Load, SaveAndSettle, DecidedRows, Decide, MovesOutcome, ResolveCommittedMoves, WellFormed, Eligible, RowOf, Settle;
    ResolvableMoves(db, code, round);
    var s := Persisted(code, db.rooms[code]);
    var deadlines := WithCancelled(db.deadlines, RoundDeadlines(db, code, s.round), now);
    CancelledKeepsDeadlines(db.rooms, db.deadlines, db.nextDeadline, RoundDeadlines(db, code, s.round), now);
    SettlingKeepsOk(db, code, MovesOutcome(s), "", deadlines, now);
  }

  lemma {:induction false} LoadIsPersisted(db: Db, code: string)
    requires Load(db, code).Ok?
    ensures code in db.rooms && db.rooms[code].currentRound in db.rooms[code].rounds
    ensures Load(db, code).value == Persisted(code, db.rooms[code]) && WellFormed(Load(db, code).value)
  {}

  // ---- Funding a round ----

  lemma {:induction false} AnnouncedFrame(rooms: Rooms, box: Box, code: string, after: RoomRows)
    requires Announced(rooms, box) && code in rooms && after.revision == rooms[code].revision
    ensures Announced(rooms[code := after], box)
  {}

  // Both players can pay the stake of a round.
  ghost predicate CanStake(b: Book, host: string, guest: string) {
    Lookup(b.balances, User(host)) >= RoundStake && Lookup(b.balances, User(guest)) >= RoundStake
  }

  lemma {:induction false} StakeIffCanStake(b: Book, key: RoundKey, host: string, guest: string)
    requires Sound(b) && host != guest
    ensures Stake(b, key, host, guest).Ok? <==> CanStake(b, host, guest)
    ensures Stake(b, key, host, guest).Err? ==> Stake(b, key, host, guest).error == InsufficientFunds
  {}

  lemma {:induction false} SoundFunds(rooms: Rooms, funds: Funds, key: RoundKey)
    requires FundsOk(funds) && Linked(rooms, funds)
    requires key.code in rooms && (key.round !in rooms[key.code].rounds || !rooms[key.code].rounds[key.round].funded)
    ensures Sound(funds.book) && Escrow(key) !in funds.book.balances && StakeKey(key) !in Ledger.Keys(funds.book.log)
  {
    assert !FundedRound(rooms, key);
  }

  lemma {:induction false} AdvancedFacts(rows: RoomRows, after: RoomRows)
    requires RowsOk(rows) && Full(rows) && rows.rounds[rows.currentRound].status.Resolved? && AdvancedRows(rows, after)
    ensures KeepsPresence(rows, after) && Full(after)
    ensures var n := rows.currentRound + 1;
            && n !in rows.rounds && after.rounds == rows.rounds[n := FreshRound.(funded := true)]
            && after.seats == rows.seats
            && rows.seats[Host].account != rows.seats[Guest].account
  {}

  // An eligible pair of requests belongs to a resolved round with both seats taken.
  lemma {:induction false} AdvanceableRequests(db: Db, code: string, round: nat)
    requires code in db.rooms && code != "" && RowsOk(db.rooms[code]) && Eligible(db, code, round) == Some(Advancing)
    ensures var rows := db.rooms[code];
            Full(rows) && rows.currentRound == round && round in rows.rounds && rows.rounds[round].status.Resolved? && !rows.closed
    ensures var s := Persisted(code, db.rooms[code]);
            && WellFormed(s) && s.round == round && s.resolved && AdvanceCommittedNextRound(s, s.round) == Ok(NextRound(s))
            && NextRound(s).round == round + 1
    ensures Load(db, code) == Restore(Persisted(code, db.rooms[code]))
  {
    PersistedIsWellFormed(code, db.rooms[code]);
  }

  lemma {:induction false} FundedNext(saved: Db, code: string, n: nat, after: RoomRows, now: int)
    requires code in saved.rooms && n in saved.rooms[code].rounds && !saved.rooms[code].rounds[n].funded && Full(saved.rooms[code])
    requires after == WithRoundFunded(saved.rooms[code], n)
    ensures var stake := Stake(saved.funds.book, RoundKey(code, n), after.seats[Host].account, after.seats[Guest].account);
            FundRound(saved, code, n, None, now) ==
            if stake.Err? then Err(stake.error) else
              Ok(WithDeadline(WithRoom(saved, code, after).(funds := saved.funds.(book := stake.value)),
                              code, n, Inactivity, n, now + InactivityLimit))
  {}

  // The next round of a room is paid for: the stakes are in escrow, and the
  // round has its deadline.
  lemma {:induction false} NextRoundPaid(db: Db, saved: Db, code: string, after: RoomRows, now: int)
    requires DbOk(db) && code in db.rooms && Full(db.rooms[code]) && db.rooms[code].currentRound in db.rooms[code].rounds
    requires db.rooms[code].rounds[db.rooms[code].currentRound].status.Resolved?
    requires RowsOk(after) && AdvancedRows(db.rooms[code], after) && Full(after)
    requires code in saved.rooms && saved == db.(rooms := db.rooms[code := saved.rooms[code]], box := saved.box)
    requires BoxOk(saved.box) && Announced(saved.rooms, saved.box) && saved.rooms[code].revision == after.revision
    requires Stake(db.funds.book, RoundKey(code, db.rooms[code].currentRound + 1), db.rooms[code].seats[Host].account, db.rooms[code].seats[Guest].account).Ok?
    ensures var rows, n := db.rooms[code], db.rooms[code].currentRound + 1;
            var book := Stake(db.funds.book, RoundKey(code, n), rows.seats[Host].account, rows.seats[Guest].account).value;
            DbOk(WithDeadline(WithRoom(saved, code, after).(funds := db.funds.(book := book)), code, n, Inactivity, n, now + InactivityLimit))
  {
    hide RowsOk, ConnectionsOk, PresentOk, DeadlinesOk, Linked, FundsOk, BoxOk, Announced, AdvancedRows, Stake, WithDeadline, KeepsPresence, Sound;
    var rows, n := db.rooms[code], db.rooms[code].currentRound + 1;
    AdvancedFacts(rows, after);
    var key := RoundKey(code, n);
    var host, guest := rows.seats[Host].account, rows.seats[Guest].account;
    SoundFunds(db.rooms, db.funds, key);
    var book := Stake(db.funds.book, key, host, guest).value;
    StakeMoves(db.funds.book, key, host, guest);
    StakeKeepsFundsOk(db.funds, key, host, guest);
    LinkedStaked(db.rooms, db.funds, code, after, n, book);
    AnnouncedFrame(saved.rooms, saved.box, code, after);
    PresenceFrame(db, code, after);
    var funded := WithRoom(saved, code, after).(funds := db.funds.(book := book));
    assert funded.rooms == db.rooms[code := after];
    WithDeadlineKeeps(funded, code, n, Inactivity, n, now + InactivityLimit);
  }

  // A round with both requests recorded advances when it is reconciled, if and
  // only if its aggregate loads and both players can pay the next stake.
  lemma {:induction false} AdvanceKeepsOk(db: Db, code: string, round: nat, now: int)
    requires DbOk(db) && code in db.rooms && Eligible(db, code, round) == Some(Advancing)
    requires WellFormed(Persisted(code, db.rooms[code]))
    ensures var rows := db.rooms[code];
            var r := Advance(db, code, Persisted(code, rows), now);
            && Full(rows)
            && (r.Ok? <==> CanStake(db.funds.book, rows.seats[Host].account, rows.seats[Guest].account))
            && (r.Err? ==> r.error == InsufficientFunds)
            && (r.Ok? ==> DbOk(r.value) && AdvancedRows(rows, r.value.rooms[code]) && r.value.funds.history == db.funds.history)
  {
    hide RowsOk, ConnectionsOk, PresentOk, DeadlinesOk, Linked, FundsOk, BoxOk, Announced;
    hide Load, AdvancedRows, NextRound, AdvanceCommittedNextRound, WellFormed, Eligible, Persisted, Saved, Stake, WithDeadline;
    hide KeepsPresence, FundRound, CanStake, Sound;
    AdvanceableRequests(db, code, round);
    var rows := db.rooms[code];
    var s := Persisted(code, rows);
    var n := round + 1;
    var saved := Saved(rows, NextRound(s), s.round, rows.revision + 1);
    SavedAdvanced(code, rows, rows.revision + 1);
    var after := WithRoundFunded(saved, n);
    AdvancedFacts(rows, after);
    RoomBump(db, code, saved, now);
    var savedDb := SaveAndBump(db, code, NextRound(s), s.round, now).value;
    FundedNext(savedDb, code, n, after, now);
    var key := RoundKey(code, n);
    var host, guest := rows.seats[Host].account, rows.seats[Guest].account;
    SoundFunds(db.rooms, db.funds, key);
    StakeIffCanStake(db.funds.book, key, host, guest);
    if Stake(db.funds.book, key, host, guest).Ok? {
      NextRoundPaid(db, savedDb, code, after, now);
    }
  }

  // ---- Joining ----

  lemma {:induction false} JoinedFacts(rows: RoomRows, after: RoomRows, playerId: string, account: string)
    requires RowsOk(rows) && !Full(rows) && JoinedRows(rows, after, playerId, account) && after.presence == JoinedPresence(rows.presence)
    ensures KeepsPresence(rows, after) && Full(after)
    ensures rows.seats.Keys <= after.seats.Keys && (forall role | role in rows.seats :: after.seats[role] == rows.seats[role])
    ensures after.seats[Guest].account == account
    ensures rows.currentRound == 1 && after.rounds == rows.rounds[1 := FreshRound.(funded := true)]
    ensures 1 in rows.rounds && rows.rounds[1].status.Active? && !rows.rounds[1].funded
  {
    assert RoundOk(rows.rounds[1]);
  }

  lemma {:induction false} CanSeatHere(code: string, rows: RoomRows, playerId: string)
    requires RowsOk(rows) && code != "" && Join(Persisted(code, rows), playerId).Ok?
    requires WellFormed(Persisted(code, rows))
    ensures var s := Persisted(code, rows);
            && CanSeatGuest(rows, s, playerId) && !s.resolved && s.forfeited == "" && rows.closed == s.closed
            && s.round == 1 && 1 in rows.rounds && rows.rounds[1] == FreshRound && rows.currentRound == 1
            && !Full(rows) && !rows.closed && Host in rows.seats && playerId != "" && playerId != rows.seats[Host].playerId
            && Join(s, playerId).value == s.(players := s.players + [Player(playerId, 0)])
  {
    PersistedIsWellFormed(code, rows);
    assert RoundOk(rows.rounds[1]);
  }

  lemma {:induction false} FundedFirst(db: Db, code: string, account: string, now: int)
    requires code in db.rooms && Host in db.rooms[code].seats && Guest !in db.rooms[code].seats
    requires 1 in db.rooms[code].rounds && !db.rooms[code].rounds[1].funded
    ensures var rows := db.rooms[code];
            var stake := Stake(db.funds.book, RoundKey(code, 1), rows.seats[Host].account, account);
            FundRound(db, code, 1, Some(account), now) ==
            if stake.Err? then Err(stake.error) else
              Ok(WithDeadline(WithRoom(db, code, WithRoundFunded(rows, 1)).(funds := db.funds.(book := stake.value)),
                              code, 1, Inactivity, 1, now + InactivityLimit))
  {}

  lemma {:induction false} WithDeadlineFrame(db: Db, other: Db, code: string, round: nat, kind: DeadlineKind, generation: nat, dueAt: int)
    requires other.deadlines == db.deadlines && other.nextDeadline == db.nextDeadline
    ensures var a, b := WithDeadline(db, code, round, kind, generation, dueAt), WithDeadline(other, code, round, kind, generation, dueAt);
            && a == db.(deadlines := a.deadlines, nextDeadline := a.nextDeadline)
            && b == other.(deadlines := a.deadlines, nextDeadline := a.nextDeadline)
  {}

  lemma {:induction false} RoleOfNone(rows: RoomRows, account: string)
    requires RoleOf(rows, account).None? && Host in rows.seats
    ensures rows.seats[Host].account != account
  {}

  // The rows of a room that a guest just joined.
  ghost function JoinedTo(code: string, rows: RoomRows, playerId: string, account: string): RoomRows
    requires 1 in rows.rounds
  {
    var s := Persisted(code, rows.(currentRound := 1));
    Saved(SeatGuest(WithRoundFunded(rows, 1), playerId, account, JoinedPresence(rows.presence)),
          s.(players := s.players + [Player(playerId, 0)]), 1, rows.revision + 1)
  }

  // What a successful join commits.
  lemma {:induction false} JoinShape(db: Db, code: string, playerId: string, account: string, now: int)
    requires RoomsOk(db.rooms) && JoinRoom(db, code, playerId, account, now).Done?
    ensures code in db.rooms
    ensures var rows := db.rooms[code];
            && CanSeatGuest(rows, Persisted(code, rows), playerId) && WellFormed(Persisted(code, rows))
            && Join(Persisted(code, rows), playerId).Ok? && RoleOf(rows, account).None?
            && Host in rows.seats && 1 in rows.rounds && rows.currentRound == 1
            && var stake := Stake(db.funds.book, RoundKey(code, 1), rows.seats[Host].account, account);
               && stake.Ok?
               && var paid := WithDeadline(WithRoom(db, code, WithRoundFunded(rows, 1)).(funds := db.funds.(book := stake.value)),
                                           code, 1, Inactivity, 1, now + InactivityLimit);
                  Bump(WithRoom(paid, code, JoinedTo(code, rows, playerId, account)), code, rows.revision + 1, now)
                  == Ok(JoinRoom(db, code, playerId, account, now).db)
  {
    hide RowsOk, Load, WellFormed, Persisted, Saved, Stake, WithDeadline, ViewOf, Join, FundRound, RoleOf, CanSeatGuest, JoinedPresence;
    LoadIsPersisted(db, code);
    CanSeatHere(code, db.rooms[code], playerId);
    FundedFirst(db, code, account, now);
    var rows := db.rooms[code];
    assert rows.(currentRound := 1) == rows;
    var funded := FundRound(db, code, 1, Some(account), now).value;
    WithRoomTwice(funded, code, SeatGuest(WithRoundFunded(rows, 1), playerId, account, JoinedPresence(rows.presence)),
                  JoinedTo(code, rows, playerId, account));
  }

  lemma {:induction false} WithRoomTwice(db: Db, code: string, rows: RoomRows, after: RoomRows)
    ensures WithRoom(WithRoom(db, code, rows), code, after) == WithRoom(db, code, after)
  {
    assert db.rooms[code := rows][code := after] == db.rooms[code := after];
  }

  lemma {:induction false} JoinedToRows(code: string, rows: RoomRows, playerId: string, account: string)
    requires RowsOk(rows) && code != "" && WellFormed(Persisted(code, rows)) && Join(Persisted(code, rows), playerId).Ok?
    requires RoleOf(rows, account).None? && 1 in rows.rounds
    ensures var after := JoinedTo(code, rows, playerId, account);
            && RowsOk(after) && KeepsPresence(rows, after) && Full(after) && rows.revision > 0 && after.revision == rows.revision + 1
            && rows.seats.Keys <= after.seats.Keys && (forall role | role in rows.seats :: after.seats[role] == rows.seats[role])
            && after.seats[Guest].account == account
            && Host in rows.seats && rows.seats[Host].account != account && Guest !in rows.seats
            && after.rounds == rows.rounds[1 := FreshRound.(funded := true)]
            && rows.rounds[1].status.Active? && !rows.rounds[1].funded
  {
    hide RowsOk, WellFormed, Persisted, Saved, Join, KeepsPresence, JoinedRows, RoleOf, CanSeatGuest, JoinedPresence;
    CanSeatHere(code, rows, playerId);
    RoleOfNone(rows, account);
    JoinedGenerations(rows);
    var s := Persisted(code, rows);
    assert rows.(currentRound := 1) == rows;
    SavedJoinedRows(rows, s, playerId, account, JoinedPresence(rows.presence), rows.revision + 1);
    RowsPositive(rows);
    var after := JoinedTo(code, rows, playerId, account);
    JoinedFacts(rows, after, playerId, account);
    JoinedRowsOk(rows, after, playerId, account);
  }

  lemma {:induction false} JoinKeepsOk(db: Db, code: string, playerId: string, account: string, now: int)
    requires DbOk(db) && JoinRoom(db, code, playerId, account, now).Done?
    ensures DbOk(JoinRoom(db, code, playerId, account, now).db)
  {
    hide RowsOk, ConnectionsOk, PresentOk, DeadlinesOk, Linked, FundsOk, BoxOk, Announced;
    hide WellFormed, Persisted, Stake, WithDeadline, Join, JoinRoom, KeepsPresence, RoleOf, CanSeatGuest, JoinedTo;
    JoinShape(db, code, playerId, account, now);
    var rows := db.rooms[code];
    JoinedToRows(code, rows, playerId, account);
    var after := JoinedTo(code, rows, playerId, account);
    var key := RoundKey(code, 1);
    var host := rows.seats[Host].account;
    SoundFunds(db.rooms, db.funds, key);
    var book := Stake(db.funds.book, key, host, account).value;
    StakeMoves(db.funds.book, key, host, account);
    StakeKeepsFundsOk(db.funds, key, host, account);
    LinkedStaked(db.rooms, db.funds, code, after, 1, book);
    PresenceFrame(db, code, after);
    RoomBump(db, code, after, now);
    var moved := WithRoom(db, code, after).(funds := db.funds.(book := book));
    assert DeadlineOk(moved.rooms, Deadline(code, 1, Inactivity, 1, now + InactivityLimit, Pending, None));
    WithDeadlineKeeps(moved, code, 1, Inactivity, 1, now + InactivityLimit);
    var paid := WithRoom(db, code, WithRoundFunded(rows, 1)).(funds := db.funds.(book := book));
    WithDeadlineFrame(moved, paid, code, 1, Inactivity, 1, now + InactivityLimit);
    assert WithRoom(WithDeadline(paid, code, 1, Inactivity, 1, now + InactivityLimit), code, after).rooms == db.rooms[code := after];
  }

  lemma {:induction false} JoinedGenerations(rows: RoomRows)
    requires RowsOk(rows)
    ensures var presence := JoinedPresence(rows.presence);
            presence.Keys == {Host, Guest} && forall role | role in presence :: presence[role].generation > 0
  {}

  // ---- Reconciliation ----

  lemma {:induction false} EligibleRoom(db: Db, code: string, round: nat)
    requires Eligible(db, code, round).Some?
    ensures code in db.rooms
  {}

  // A claimed transition commits exactly when its hint fits and, to advance,
  // the aggregate loads and both players can pay the next stake; otherwise it
  // reports why and changes nothing.
  lemma {:induction false} ReconcileKeepsOk(db: Db, code: string, round: nat, now: int)
    requires DbOk(db) && Eligible(db, code, round).Some?
    ensures code in db.rooms
    ensures var rows, r := db.rooms[code], Reconcile(db, code, round, now);
            && r.Some? && (r.value.Done? ==> DbOk(r.value.db) && r.value.answer == Eligible(db, code, round).value)
            && match Eligible(db, code, round).value
               case Resolving => r.value.Done? <==> Keys.HintFits(code, round)
               case Advancing =>
                 && Full(rows)
                 && (r.value.Done? <==>
                       && Load(db, code).Ok? && Keys.HintFits(code, round + 1)
                       && CanStake(db.funds.book, rows.seats[Host].account, rows.seats[Guest].account))
  {
    hide RowsOk, ConnectionsOk, PresentOk, DeadlinesOk, Linked, FundsOk, BoxOk, Announced;
    hide Load, WellFormed, Persisted, Eligible, CanStake, DecidedRows, AdvancedRows, Resolve, Advance, MovesOutcome, RowOf, Keys.HintFits;
    EligibleRoom(db, code, round);
    RowsPositive(db.rooms[code]);
    if Eligible(db, code, round).value.Resolving? {
      ResolveKeepsOk(db, code, round, now);
      ResolvedRoundNumber(db, code, round, Resolve(db, code, Persisted(code, db.rooms[code]), now).value.rooms[code]);
    } else {
      AdvanceableRequests(db, code, round);
      AdvanceKeepsOk(db, code, round, now);
      var r := Advance(db, code, Persisted(code, db.rooms[code]), now);
      if Load(db, code).Ok? { LoadIsPersisted(db, code); }
      if r.Ok? { AdvancedRoundNumber(db.rooms[code], r.value.rooms[code]); }
    }
  }

  // The hint of a room with a short code always fits, as those of generated
  // codes do: it never keeps a reconciliation from committing.
  lemma {:induction false} ShortCodesReconcile(db: Db, code: string, round: nat, now: int)
    requires DbOk(db) && Eligible(db, code, round).Some? && |code| <= 107 && round + 1 < Keys.MaxRound
    ensures code in db.rooms
    ensures var rows, r := db.rooms[code], Reconcile(db, code, round, now);
            && r.Some?
            && match Eligible(db, code, round).value
               case Resolving => r.value.Done?
               case Advancing =>
                 && Full(rows)
                 && (r.value.Done? <==> Load(db, code).Ok? && CanStake(db.funds.book, rows.seats[Host].account, rows.seats[Guest].account))
  {
    hide DbOk, Eligible, Reconcile, Load, CanStake, Keys.HintFits;
    ReconcileKeepsOk(db, code, round, now);
    Keys.ShortCodesFit(code, round);
    Keys.ShortCodesFit(code, round + 1);
  }

  lemma {:induction false} ResolvedRoundNumber(db: Db, code: string, round: nat, after: RoomRows)
    requires Eligible(db, code, round).Some? && code in db.rooms
    requires exists o :: DecidedRows(db.rooms[code], after, o, false)
    ensures after.currentRound == round
  {}

  lemma {:induction false} AdvancedRoundNumber(rows: RoomRows, after: RoomRows)
    requires AdvancedRows(rows, after)
    ensures after.currentRound == rows.currentRound + 1
  {}

  // ---- Deadlines ----

  lemma {:induction false} CancelKeepsOk(db: Db, ids: set<nat>, now: int)
    requires DbOk(db)
    ensures DbOk(Cancel(db, ids, now))
  {
    hide RowsOk, ConnectionsOk, PresentOk, DeadlinesOk, Linked, FundsOk, BoxOk, Announced;
    CancelledKeepsDeadlines(db.rooms, db.deadlines, db.nextDeadline, ids, now);
  }

  lemma {:induction false} ConcludedKeepsDeadlines(rooms: Rooms, deadlines: map<nat, Deadline>, next: nat, code: string, round: nat, i: nat, now: int)
    requires DeadlinesOk(rooms, deadlines, next)
    ensures DeadlinesOk(rooms, Concluded(deadlines, code, round, i, now), next)
  {}

  // Whatever a deadline decides is a decided round.
  lemma {:induction false} VerdictDecides(db: Db, i: nat, s: RoomState, now: int)
    requires i in db.deadlines && WellFormed(s) && Verdict(db, i, s, now).Some? && Verdict(db, i, s, now).value.Ok?
    ensures var t := Verdict(db, i, s, now).value.value;
            && |s.players| == 2 && !s.resolved && IsDecided(t.result) && (t.forfeited == "" || HasPlayer(s, t.forfeited))
            && t == Decide(s, t.result, t.forfeited)
  {}

  lemma {:induction false} ClaimedRoundIsOpen(db: Db, i: nat)
    requires RoomsOk(db.rooms) && i in db.deadlines && DeadlineClaims(db, i)
    ensures db.deadlines[i].code in db.rooms && OpenRound(db.rooms[db.deadlines[i].code])
    ensures var code := db.deadlines[i].code;
            var s := Persisted(code, db.rooms[code]);
            Load(db, code) == Ok(s) && WellFormed(s) && s.round == db.deadlines[i].round && !s.resolved && |s.players| == 2 && !s.closed
  {
    PersistedIsWellFormed(db.deadlines[i].code, db.rooms[db.deadlines[i].code]);
  }

  // The room of a claimed deadline always loads, and settling it always
  // succeeds: the worker never fails.
  lemma {:induction false} DeadlineKeepsOk(db: Db, now: int)
    requires DbOk(db)
    ensures ProcessDeadline(db, now).Done? && DbOk(ProcessDeadline(db, now).db)
  {
    hide RowsOk, ConnectionsOk, PresentOk, DeadlinesOk, Linked, FundsOk, BoxOk, Announced;
    hide Load, WellFormed, Persisted, DecidedRows, Cancel, Concluded, DeadlineClaims, Verdict, SaveAndSettle, Due, Before, Applicable, Decide, RowOf;
    hide RoundStillOpen;
    if DueIds(db, now) != {} {
      var candidate := First(db, DueIds(db, now));
      var code := db.deadlines[candidate].code;
      CancelKeepsOk(db, {candidate}, now);
      if DeadlineClaims(db, candidate) {
        ClaimedRoundIsOpen(db, candidate);
        var s := Persisted(code, db.rooms[code]);
        var due, applicable := DueOfRoom(db, code, now), ApplicableOfRoom(db, code, now);
        CancelKeepsOk(db, due, now);
        if applicable != {} {
          var chosen := First(db, applicable);
          var skipped := Skipped(db, code, chosen, now);
          CancelKeepsOk(db, skipped, now);
          SettledByDeadline(db, code, chosen, skipped, s, now);
        }
      }
    }
  }

  // A deadline that settles a round pays it out as the verdict says and adds
  // the one history row of that round; no other deadline moves money.
  lemma {:induction false} SettledAddsHistory(db: Db, now: int)
    requires DbOk(db) && DueIds(db, now) != {} && ProcessDeadline(db, now).Done?
    ensures var r, code := ProcessDeadline(db, now), db.deadlines[First(db, DueIds(db, now))].code;
            if r.answer.Settled?
            then
              && code in db.rooms && OpenRound(db.rooms[code]) && r.answer.before == Persisted(code, db.rooms[code])
              && var rows, t := db.rooms[code], r.answer.after;
                 var key, host, guest := RoundKey(code, rows.currentRound), rows.seats[Host].account, rows.seats[Guest].account;
                 && key !in db.funds.history
                 && Ok(r.db.funds) == Settle(db.funds, key, host, guest, t.result, t.forfeited != "")
                 && r.db.funds.history == db.funds.history[key := RowOf(t.result, host, guest, t.forfeited != "")]
            else r.db.funds == db.funds
  {
    hide RowsOk, ConnectionsOk, PresentOk, DeadlinesOk, Linked, FundsOk, BoxOk, Announced;
    hide Load, WellFormed, Persisted, DecidedRows, Concluded, DeadlineClaims, Verdict, SaveAndSettle, Due, Before, Applicable, Decide, RowOf, Settle;
    hide RoundStillOpen, WithCancelled;
    var candidate := First(db, DueIds(db, now));
    var code := db.deadlines[candidate].code;
    if DeadlineClaims(db, candidate) {
      ClaimedRoundIsOpen(db, candidate);
      OpenRoundIsUnresolved(code, db.rooms[code]);
      var s := Persisted(code, db.rooms[code]);
      var applicable := ApplicableOfRoom(db, code, now);
      if applicable != {} {
        SettledByDeadline(db, code, First(db, applicable), Skipped(db, code, First(db, applicable), now), s, now);
      }
    }
  }

  lemma {:induction false} CancelFrame(db: Db, ids: set<nat>, now: int)
    ensures var c := Cancel(db, ids, now); c == db.(deadlines := c.deadlines)
  {}

  lemma {:induction false} SettledByDeadline(db: Db, code: string, chosen: nat, skipped: set<nat>, s: RoomState, now: int)
    requires DbOk(db) && code in db.rooms && OpenRound(db.rooms[code]) && chosen in db.deadlines
    requires s == Persisted(code, db.rooms[code]) && WellFormed(s)
    ensures var pruned := Cancel(db, skipped, now);
            var v := Verdict(db, chosen, s, now);
            && DbOk(Cancel(pruned, {chosen}, now))
            && code in pruned.rooms
            && (v.Some? && v.value.Ok? ==>
                  var r := SaveAndSettle(pruned, code, v.value.value, Concluded(pruned.deadlines, code, s.round, chosen, now), now);
                  var rows := db.rooms[code];
                  && r.Ok? && DbOk(r.value) && RoundKey(code, s.round) !in db.funds.history
                  && Ok(r.value.funds) == Settle(db.funds, RoundKey(code, s.round), rows.seats[Host].account, rows.seats[Guest].account,
                                                 v.value.value.result, v.value.value.forfeited != "")
                  && r.value.funds.history == db.funds.history[RoundKey(code, s.round) :=
                       RowOf(v.value.value.result, rows.seats[Host].account, rows.seats[Guest].account, v.value.value.forfeited != "")])
            && (v.Some? && v.value.Err? ==> Harmless(v.value.error))
  {
    hide RowsOk, ConnectionsOk, PresentOk, DeadlinesOk, Linked, FundsOk, BoxOk, Announced;
    hide WellFormed, Persisted, DecidedRows, Cancel, Concluded, SaveAndSettle, Decide, RowOf, Verdict;
    var pruned := Cancel(db, skipped, now);
    CancelKeepsOk(db, skipped, now);
    CancelFrame(db, skipped, now);
    CancelKeepsOk(pruned, {chosen}, now);
    OpenRoundIsUnresolved(code, db.rooms[code]);
    OpenRoundCanSettle(db.rooms, db.funds, code);
    VerdictErrors(db, chosen, s, now);
    var v := Verdict(db, chosen, s, now);
    if v.Some? && v.value.Ok? {
      VerdictDecides(db, chosen, s, now);
      var t := v.value.value;
      ConcludedKeepsDeadlines(pruned.rooms, pruned.deadlines, pruned.nextDeadline, code, s.round, chosen, now);
      SettlingKeepsOk(pruned, code, t.result, t.forfeited, Concluded(pruned.deadlines, code, s.round, chosen, now), now);
    }
  }

  lemma {:induction false} VerdictErrors(db: Db, i: nat, s: RoomState, now: int)
    requires i in db.deadlines && WellFormed(s) && |s.players| == 2
    ensures var v := Verdict(db, i, s, now); v.Some? && v.value.Err? ==> Harmless(v.value.error)
  {}

  // ---- Presence ----

  // A room whose presence of one role changed, with a new revision.
  function PresenceChanged(rows: RoomRows, role: Role, presence: Presence): RoomRows {
    rows.(presence := rows.presence[role := presence], revision := rows.revision + 1)
  }

  lemma {:induction false} PresenceChangedRows(rows: RoomRows, role: Role, presence: Presence)
    requires RowsOk(rows) && role in rows.seats && presence.generation > 0
    ensures RowsOk(PresenceChanged(rows, role, presence)) && SameMoney(rows, PresenceChanged(rows, role, presence))
  {
    assert WinsOk(PresenceChanged(rows, role, presence));
  }

  // Changing the presence of one role, along with connections and deadlines
  // that agree with it, keeps the invariant.
  lemma {:induction false} PresenceStepKeepsOk(
    db: Db, code: string, role: Role, presence: Presence, connections: map<string, Connection>, deadlines: map<nat, Deadline>, next: nat, now: int)
    requires DbOk(db) && code in db.rooms && role in db.rooms[code].seats && presence.generation > 0
    requires var rooms := db.rooms[code := PresenceChanged(db.rooms[code], role, presence)];
             ConnectionsOk(rooms, connections) && PresentOk(rooms, connections) && DeadlinesOk(rooms, deadlines, next)
    ensures var after := PresenceChanged(db.rooms[code], role, presence);
            var r := Bump(WithRoom(db.(connections := connections, deadlines := deadlines, nextDeadline := next), code, after), code, after.revision, now);
            r.Ok? && DbOk(r.value)
  {
    hide RowsOk, ConnectionsOk, PresentOk, DeadlinesOk, Linked, FundsOk, BoxOk, Announced, SameMoney;
    var rows := db.rooms[code];
    var after := PresenceChanged(rows, role, presence);
    PresenceChangedRows(rows, role, presence);
    LinkedFrame(db.rooms, db.funds, code, after);
    RoomBump(db.(connections := connections, deadlines := deadlines, nextDeadline := next), code, after, now);
  }

  lemma {:induction false} OpenedPresence(db: Db, code: string, role: Role, generation: nat, id: string, k: Connection)
    requires ConnectionsOk(db.rooms, db.connections) && PresentOk(db.rooms, db.connections)
    requires DeadlinesOk(db.rooms, db.deadlines, db.nextDeadline)
    requires code in db.rooms && id !in db.connections && k.code == code && k.role == role && k.closedAt.None? && k.leaseExpiresAt > k.connectedAt
    requires role in db.rooms[code].presence ==> generation == db.rooms[code].presence[role].generation
    ensures var rooms := db.rooms[code := PresenceChanged(db.rooms[code], role, Presence(generation, true))];
            var connections := db.connections[id := k];
            ConnectionsOk(rooms, connections) && PresentOk(rooms, connections) && DeadlinesOk(rooms, db.deadlines, db.nextDeadline)
  {
    var rooms := db.rooms[code := PresenceChanged(db.rooms[code], role, Presence(generation, true))];
    var connections := db.connections[id := k];
    forall c | c in connections ensures ConnectionOk(rooms, connections[c]) {}
    forall i | i in db.deadlines ensures DeadlineOk(rooms, db.deadlines[i]) {}
    forall c, r | c in rooms && r in rooms[c].presence && rooms[c].presence[r].present ensures HasOpen(connections, c, r) {
      if c == code && r == role {
        assert connections[id].closedAt.None?;
      } else {
        assert HasOpen(db.connections, c, r);
        OpenFrame(db.connections, connections, c, r);
      }
    }
  }

  // An unclosed connection that is still there and still unclosed.
  lemma {:induction false} OpenFrame(connections: map<string, Connection>, other: map<string, Connection>, code: string, role: Role)
    requires HasOpen(connections, code, role)
    requires forall c | c in connections && connections[c].code == code && connections[c].role == role && connections[c].closedAt.None? ::
               c in other && other[c].code == code && other[c].role == role && other[c].closedAt.None?
    ensures HasOpen(other, code, role)
  {
    var c :| c in connections && connections[c].code == code && connections[c].role == role && connections[c].closedAt.None?;
    assert c in other;
  }

  lemma {:induction false} OpenedAgain(db: Db, id: string, k: Connection)
    requires ConnectionsOk(db.rooms, db.connections) && PresentOk(db.rooms, db.connections)
    requires k.code in db.rooms && k.role in db.rooms[k.code].presence && id !in db.connections
    requires k.closedAt.None? && k.leaseExpiresAt > k.connectedAt
    ensures var connections := db.connections[id := k]; ConnectionsOk(db.rooms, connections) && PresentOk(db.rooms, connections)
  {
    var connections := db.connections[id := k];
    forall c, r | c in db.rooms && r in db.rooms[c].presence && db.rooms[c].presence[r].present ensures HasOpen(connections, c, r) {
      assert HasOpen(db.connections, c, r);
      OpenFrame(db.connections, connections, c, r);
    }
  }

  lemma {:induction false} RoleOfSome(rows: RoomRows, account: string)
    requires RowsOk(rows) && RoleOf(rows, account).Some?
    ensures RoleOf(rows, account).value in rows.seats
    ensures var role := RoleOf(rows, account).value; role in rows.presence ==> rows.presence[role].generation > 0
  {}

  lemma {:induction false} OpenKeepsOk(db: Db, id: string, code: string, account: string, sessionValid: bool, now: int, lease: int)
    requires DbOk(db) && OpenConnection(db, id, code, account, sessionValid, now, lease).Done?
    ensures DbOk(OpenConnection(db, id, code, account, sessionValid, now, lease).db)
  {
    hide RowsOk, ConnectionsOk, PresentOk, DeadlinesOk, Linked, FundsOk, BoxOk, Announced, RoleOf, WithCancelled;
    var rows := db.rooms[code];
    RoleOfSome(rows, account);
    var role := RoleOf(rows, account).value;
    var k := Connection(code, role, now, lease, None);
    if role in rows.presence && rows.presence[role].present {
      OpenedAgain(db, id, k);
    } else {
      var generation := if role in rows.presence then rows.presence[role].generation else 1;
      var waiting := set i | i in db.deadlines && role in rows.presence && db.deadlines[i].code == code
                       && db.deadlines[i].round == rows.currentRound && db.deadlines[i].kind == Disconnect(role)
                       && db.deadlines[i].generation == generation;
      OpenedPresence(db, code, role, generation, id, k);
      var deadlines := WithCancelled(db.deadlines, waiting, now);
      CancelledKeepsDeadlines(db.rooms[code := PresenceChanged(rows, role, Presence(generation, true))], db.deadlines, db.nextDeadline, waiting, now);
      PresenceStepKeepsOk(db, code, role, Presence(generation, true), db.connections[id := k], deadlines, db.nextDeadline, now);
    }
  }

  lemma {:induction false} RenewKeepsOk(db: Db, id: string, sessionValid: bool, now: int, lease: int)
    requires DbOk(db) && RenewConnection(db, id, sessionValid, now, lease).Done?
    ensures DbOk(RenewConnection(db, id, sessionValid, now, lease).db)
  {
    hide RowsOk, DeadlinesOk, Linked, FundsOk, BoxOk, Announced;
    var connections := db.connections[id := db.connections[id].(leaseExpiresAt := lease)];
    forall c, r | c in db.rooms && r in db.rooms[c].presence && db.rooms[c].presence[r].present ensures HasOpen(connections, c, r) {
      assert HasOpen(db.connections, c, r);
      OpenFrame(db.connections, connections, c, r);
    }
  }

  // Closing one connection leaves every role but its own as connected as before.
  lemma {:induction false} ClosedConnections(db: Db, id: string, at: int)
    requires ConnectionsOk(db.rooms, db.connections) && PresentOk(db.rooms, db.connections)
    requires id in db.connections && at >= db.connections[id].connectedAt
    ensures var connections := db.connections[id := db.connections[id].(closedAt := Some(at))];
            && ConnectionsOk(db.rooms, connections)
            && forall code, role | code in db.rooms && role in db.rooms[code].presence && db.rooms[code].presence[role].present
                    && (code != db.connections[id].code || role != db.connections[id].role) :: HasOpen(connections, code, role)
  {
    var connections := db.connections[id := db.connections[id].(closedAt := Some(at))];
    forall c, r | c in db.rooms && r in db.rooms[c].presence && db.rooms[c].presence[r].present
               && (c != db.connections[id].code || r != db.connections[id].role) ensures HasOpen(connections, c, r) {
      assert HasOpen(db.connections, c, r);
      OpenFrame(db.connections, connections, c, r);
    }
  }

  lemma {:induction false} GoneConnections(db: Db, code: string, role: Role, connections: map<string, Connection>, generation: nat)
    requires ConnectionsOk(db.rooms, connections) && code in db.rooms
    requires forall c, r | c in db.rooms && r in db.rooms[c].presence && db.rooms[c].presence[r].present && (c != code || r != role) ::
               HasOpen(connections, c, r)
    ensures var rooms := db.rooms[code := PresenceChanged(db.rooms[code], role, Presence(generation, false))];
            ConnectionsOk(rooms, connections) && PresentOk(rooms, connections)
  {
    hide HasOpen;
    var rooms := db.rooms[code := PresenceChanged(db.rooms[code], role, Presence(generation, false))];
    forall c | c in connections ensures ConnectionOk(rooms, connections[c]) {}
  }

  // A new generation has no deadline yet.
  lemma {:induction false} NewGeneration(db: Db, code: string, role: Role)
    requires DeadlinesOk(db.rooms, db.deadlines, db.nextDeadline) && code in db.rooms && role in db.rooms[code].presence
    ensures var generation := db.rooms[code].presence[role].generation + 1;
            var rooms := db.rooms[code := PresenceChanged(db.rooms[code], role, Presence(generation, false))];
            && DeadlinesOk(rooms, db.deadlines, db.nextDeadline)
            && forall i | i in db.deadlines && db.deadlines[i].code == code && db.deadlines[i].kind == Disconnect(role) ::
                 db.deadlines[i].generation < generation
  {
    var generation := db.rooms[code].presence[role].generation + 1;
    var rooms := db.rooms[code := PresenceChanged(db.rooms[code], role, Presence(generation, false))];
    forall i | i in db.deadlines ensures DeadlineOk(rooms, db.deadlines[i]) && DeadlineOk(db.rooms, db.deadlines[i]) {}
  }

  lemma {:induction false} GonePresence(db: Db, code: string, role: Role, connections: map<string, Connection>, dueAt: int)
    requires RoomsOk(db.rooms) && DeadlinesOk(db.rooms, db.deadlines, db.nextDeadline) && ConnectionsOk(db.rooms, connections)
    requires code in db.rooms && role in db.rooms[code].presence
    requires forall c, r | c in db.rooms && r in db.rooms[c].presence && db.rooms[c].presence[r].present && (c != code || r != role) ::
               HasOpen(connections, c, r)
    ensures var rows := db.rooms[code];
            var generation := rows.presence[role].generation + 1;
            var rooms := db.rooms[code := PresenceChanged(rows, role, Presence(generation, false))];
            var deadlined := WithDeadline(db, code, rows.currentRound, Disconnect(role), generation, dueAt);
            ConnectionsOk(rooms, connections) && PresentOk(rooms, connections) && DeadlinesOk(rooms, deadlined.deadlines, deadlined.nextDeadline)
  {
    hide RowsOk, ConnectionsOk, PresentOk, DeadlinesOk, WithDeadline, HasOpen;
    var rows := db.rooms[code];
    var generation := rows.presence[role].generation + 1;
    var gone := PresenceChanged(rows, role, Presence(generation, false));
    GoneConnections(db, code, role, connections, generation);
    NewGeneration(db, code, role);
    RowsPositive(rows);
    WithDeadlineKeeps(WithRoom(db, code, gone), code, rows.currentRound, Disconnect(role), generation, dueAt);
    WithDeadlineFrame(WithRoom(db, code, gone), db, code, rows.currentRound, Disconnect(role), generation, dueAt);
  }

  lemma {:induction false} LiveRoleIsOpen(db: Db, code: string, role: Role, at: int)
    requires LiveRole(db, code, role, at)
    ensures HasOpen(db.connections, code, role)
  {
    var c :| c in db.connections && db.connections[c].code == code && db.connections[c].role == role && db.connections[c].closedAt.None?;
  }

  lemma {:induction false} ClosedButLive(db: Db, connections: map<string, Connection>, code: string, role: Role)
    requires forall c, r | c in db.rooms && r in db.rooms[c].presence && db.rooms[c].presence[r].present && (c != code || r != role) ::
               HasOpen(connections, c, r)
    requires HasOpen(connections, code, role) || code !in db.rooms || role !in db.rooms[code].presence || !db.rooms[code].presence[role].present
    ensures PresentOk(db.rooms, connections)
  {}

  lemma {:induction false} ConnectionHasPresence(rooms: Rooms, connections: map<string, Connection>, id: string)
    requires ConnectionsOk(rooms, connections) && id in connections
    ensures connections[id].code in rooms && connections[id].role in rooms[connections[id].code].presence
  {}

  // Closing a connection fails only when its end would come before its start.
  lemma {:induction false} CloseKeepsOk(db: Db, id: string, at: int, expiredBy: Option<int>)
    requires DbOk(db)
    ensures var r := CloseConnection(db, id, at, expiredBy);
            (r.Done? ==> DbOk(r.db)) && (r.Failed? ==> id in db.connections && at < db.connections[id].connectedAt)
  {
    hide RowsOk, ConnectionsOk, PresentOk, DeadlinesOk, Linked, FundsOk, BoxOk, Announced, LiveRole, WithDeadline;
    var r := CloseConnection(db, id, at, expiredBy);
    if id in db.connections && at >= db.connections[id].connectedAt {
      var c := db.connections[id];
      ConnectionHasPresence(db.rooms, db.connections, id);
      var rows := db.rooms[c.code];
      var connections := db.connections[id := c.(closedAt := Some(at))];
      var closed := db.(connections := connections);
      ClosedConnections(db, id, at);
      if LiveRole(closed, c.code, c.role, at) {
        LiveRoleIsOpen(closed, c.code, c.role, at);
        ClosedButLive(db, connections, c.code, c.role);
      } else if !rows.presence[c.role].present {
        ClosedButLive(db, connections, c.code, c.role);
      } else if c.role in rows.seats {
        var generation := rows.presence[c.role].generation + 1;
        GonePresence(db, c.code, c.role, connections, at + DisconnectGrace);
        var deadlined := WithDeadline(db, c.code, rows.currentRound, Disconnect(c.role), generation, at + DisconnectGrace);
        var gone := PresenceChanged(rows, c.role, Presence(generation, false));
        PresenceStepKeepsOk(db, c.code, c.role, Presence(generation, false), connections, deadlined.deadlines, deadlined.nextDeadline, at);
        WithDeadlineFrame(db, WithRoom(closed, c.code, gone), c.code, rows.currentRound, Disconnect(c.role), generation, at + DisconnectGrace);
      }
    }
  }

  // ---- Every transaction ----

  // Cleanup removes concluded deadlines and closed connections only.
  lemma {:induction false} CleanupKeepsOk(db: Db, before: int)
    requires DbOk(db)
    ensures DbOk(CleanupDeadlines(db, before))
  {
    hide RowsOk, Linked, FundsOk, BoxOk, Announced;
    var after := CleanupDeadlines(db, before);
    forall c, r | c in db.rooms && r in db.rooms[c].presence && db.rooms[c].presence[r].present ensures HasOpen(after.connections, c, r) {
      assert HasOpen(db.connections, c, r);
      OpenFrame(db.connections, after.connections, c, r);
    }
  }

  lemma {:induction false} OutboxKeepsOk(db: Db, event: Event)
    requires DbOk(db) && !event.Inserted?
    ensures DbOk(db.(box := Outbox.After(db.box, event)))
  {
    hide RowsOk, ConnectionsOk, PresentOk, DeadlinesOk, Linked, FundsOk, BoxOk;
    StepKeepsBoxOk(db.box, event);
  }

  lemma {:induction false} EffectKeepsOk(db: Db, account: string, key: string, call: Call, now: int)
    requires DbOk(db) && Refusal(account, call).None? && Effect(db, account, key, call, now).Done?
    ensures DbOk(Effect(db, account, key, call, now).db)
  {
    hide DbOk, CreateRoom, JoinRoom, RecordMove, RecordRequest, LeaveRoom, RechargeAccount;
    match call {
      case CallCreate(code, playerId) => CreateKeepsOk(db, code, playerId, account, now);
      case CallJoin(code, playerId) => JoinKeepsOk(db, code, playerId, account, now);
      case CallMove(code, move) => MoveKeepsOk(db, code, account, move, now);
      case CallNextRound(code, round) => RequestKeepsOk(db, code, account, round, now);
      case CallLeave(code) => LeaveKeepsOk(db, code, account, now);
      case CallRecharge(amount) => RechargeKeepsOk(db, account, key, amount);
    }
  }

  // The invariant does not look at receipts.
  lemma {:induction false} ReceiptsFrame(db: Db, receipts: map<string, Receipt>)
    requires DbOk(db)
    ensures DbOk(db.(receipts := receipts))
  {}

  lemma {:induction false} CommandKeepsOk(db: Db, account: string, command: Command, call: Call, now: int)
    requires DbOk(db)
    ensures DbOk(Committed(db, Execute(db, account, command, call, now)))
  {
    hide DbOk, Effect, Refusal;
    if Refusal(account, call).None? && command.key !in db.receipts && Effect(db, account, command.key, call, now).Done? {
      EffectKeepsOk(db, account, command.key, call, now);
      ReceiptsFrame(Effect(db, account, command.key, call, now).db, Execute(db, account, command, call, now).db.receipts);
    }
  }

  lemma {:induction false} BalanceKeepsOk(db: Db, account: string)
    requires DbOk(db)
    ensures DbOk(db.(funds := db.funds.(book := WithAccount(db.funds.book, User(account)))))
  {
    hide RowsOk, ConnectionsOk, PresentOk, DeadlinesOk, Linked, FundsOk, BoxOk, Announced;
    WithUserKeepsFundsOk(db.funds, account);
    LinkedMoreUsers(db.rooms, db.funds, WithAccount(db.funds.book, User(account)), account);
  }

  lemma {:induction false} NextKeepsOk(db: Db, tx: Tx)
    requires DbOk(db)
    ensures DbOk(Next(db, tx))
  {
    hide DbOk, Execute, WithAccount, Reconcile, ProcessDeadline, OpenConnection, RenewConnection, CloseConnection, CleanupDeadlines, Outbox.After;
    match tx {
      case TxCommand(account, command, call, now) => CommandKeepsOk(db, account, command, call, now);
      case TxBalance(account) => BalanceKeepsOk(db, account);
      case TxReconcile(code, round, now) =>
        if Reconcile(db, code, round, now).Some? {
          ReconciledWasEligible(db, code, round, now);
          ReconcileKeepsOk(db, code, round, now);
        }
      case TxDeadline(now) => DeadlineKeepsOk(db, now);
      case TxOpen(id, code, account, valid, now, lease) =>
        if OpenConnection(db, id, code, account, valid, now, lease).Done? { OpenKeepsOk(db, id, code, account, valid, now, lease); }
      case TxRenew(id, valid, now, lease) => if RenewConnection(db, id, valid, now, lease).Done? { RenewKeepsOk(db, id, valid, now, lease); }
      case TxClose(id, at, expiredBy) => CloseKeepsOk(db, id, at, expiredBy);
      case TxCleanupDeadlines(before) => CleanupKeepsOk(db, before);
      case TxCleanupReceipts(now) => ReceiptsFrame(db, CleanupReceipts(db, now).receipts);
      case TxOutbox(event) => if !event.Inserted? { OutboxKeepsOk(db, event); }
    }
  }

  lemma {:induction false} ReconciledWasEligible(db: Db, code: string, round: nat, now: int)
    ensures Reconcile(db, code, round, now).Some? <==> Eligible(db, code, round).Some?
  {}

  // The invariant holds after any run of transactions, in any order, from the
  // empty database.
  lemma {:induction false} RunKeepsOk(db: Db, txs: seq<Tx>)
    requires DbOk(db)
    ensures DbOk(Store.Run(db, txs))
  {
    hide DbOk, Next;
    if txs != [] {
      RunKeepsOk(db, txs[..|txs| - 1]);
      NextKeepsOk(Store.Run(db, txs[..|txs| - 1]), txs[|txs| - 1]);
    }
  }
}
