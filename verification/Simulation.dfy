// Every transaction takes the stored state of a room one step of the aggregate:
// it keeps it, records one action, or applies one operation. From that follows
// which rooms can still be loaded.
module Simulation {
  import opened Prelude
  import opened Game
  import opened GameRuns
  import opened Ledger
  import opened Money
  import opened Tables
  import opened RowInvariant
  import opened Outbox
  import opened Store
  import opened Invariant
  import opened Preservation
  import Keys

  datatype RoomStep =
    | Kept
    | Moved(id: string, move: Move)
    | Asked(id: string)
    | Applied(op: Op)

  // A recorded action is one the aggregate would accept; an operation is
  // applied to an aggregate that passed validation.
  ghost predicate Follows(s: RoomState, t: RoomState, step: RoomStep)
    requires WellFormed(s)
  {
    match step
    case Kept => t == s
    case Moved(id, move) => SubmitMove(s, id, move).Ok? && t == s.(moves := s.moves[id := move])
    case Asked(id) => RequestNextRound(s, id, s.round).Ok? && t == s.(requests := s.requests + {id})
    case Applied(op) => Restorable(s) && Apply(s, op) == Ok(t)
  }

  // Which steps a transaction may take.
  predicate Allowed(tx: Tx, step: RoomStep) {
    match step
    case Kept => true
    case Moved(_, _) => tx.TxCommand? && tx.call.CallMove?
    case Asked(_) => tx.TxCommand? && tx.call.CallNextRound?
    case Applied(op) =>
      if op.OpJoin? then tx.TxCommand? && tx.call.CallJoin?
      else if op.OpLeave? then tx.TxCommand? && tx.call.CallLeave?
      else if op.OpResolve? || op.OpAdvance? then tx.TxReconcile?
      else tx.TxDeadline? && (op.OpForfeit? || op.OpInactivity? || op.OpDeadlineDraw?)
  }

  // The stored state of a room.
  ghost function Stored(db: Db, code: string): RoomState
    requires code in db.rooms && db.rooms[code].currentRound in db.rooms[code].rounds
  {
    Persisted(code, db.rooms[code])
  }

  ghost predicate Steps(db: Db, after: Db, tx: Tx, code: string) {
    && code in db.rooms && db.rooms[code].currentRound in db.rooms[code].rounds && WellFormed(Stored(db, code))
    && code in after.rooms && after.rooms[code].currentRound in after.rooms[code].rounds
    && exists step :: Allowed(tx, step) && Follows(Stored(db, code), Stored(after, code), step)
  }

  lemma {:induction false} StoredIsWellFormed(db: Db, code: string)
    requires DbOk(db) && code in db.rooms
    ensures code != "" && RowsOk(db.rooms[code]) && db.rooms[code].currentRound in db.rooms[code].rounds
    ensures WellFormed(Stored(db, code)) && SeatsHold(db.rooms[code], Stored(db, code)) && Stored(db, code).code == code
  {
    hide ConnectionsOk, PresentOk, DeadlinesOk, Linked, FundsOk, BoxOk, Announced;
    PersistedIsWellFormed(code, db.rooms[code]);
  }

  // A transaction that left the room's rows alone, or changed only its
  // presence and its revision.
  lemma {:induction false} KeepsRoom(db: Db, after: Db, tx: Tx, code: string)
    requires DbOk(db) && code in db.rooms && code in after.rooms
    requires after.rooms[code] == db.rooms[code].(presence := after.rooms[code].presence, revision := after.rooms[code].revision)
    ensures Steps(db, after, tx, code)
  {
    hide DbOk, RowsOk, WellFormed, SeatsHold;
    StoredIsWellFormed(db, code);
    assert Allowed(tx, Kept) && Follows(Stored(db, code), Stored(after, code), Kept);
  }

  // The room was saved with the aggregate that an operation led to.
  lemma {:induction false} SavedStep(db: Db, after: Db, tx: Tx, code: string, op: Op, rows: RoomRows, previousRound: nat, revision: nat)
    requires DbOk(db) && code in db.rooms && code in after.rooms && Load(db, code).Ok?
    requires var s := Load(db, code).value;
             && Allowed(tx, Applied(op)) && Apply(s, op).Ok?
             && SeatsHold(rows, Apply(s, op).value) && Apply(s, op).value.code == code
             && var saved := Saved(rows, Apply(s, op).value, previousRound, revision);
                after.rooms[code] == saved || (saved.currentRound in saved.rounds && after.rooms[code] == WithRoundFunded(saved, saved.currentRound))
    ensures Steps(db, after, tx, code)
  {
    hide DbOk, RowsOk, WellFormed, SeatsHold, Saved, Apply, Restorable;
    StoredIsWellFormed(db, code);
    LoadIsPersisted(db, code);
    var t := Apply(Load(db, code).value, op).value;
    SaveThenLoad(code, rows, t, previousRound, revision);
    SavedRound(rows, t, previousRound, revision);
    assert Restorable(Stored(db, code)) by { LoadedIsRestorable(db, code); }
    assert Follows(Stored(db, code), Stored(after, code), Applied(op));
  }

  lemma {:induction false} SavedRound(rows: RoomRows, s: RoomState, previousRound: nat, revision: nat)
    ensures var saved := Saved(rows, s, previousRound, revision); saved.currentRound in saved.rounds
  {}

  lemma {:induction false} SavedRoundNumber(rows: RoomRows, s: RoomState, previousRound: nat, revision: nat)
    ensures Saved(rows, s, previousRound, revision).currentRound == s.round
  {}

  lemma {:induction false} LoadedIsRestorable(db: Db, code: string)
    requires Load(db, code).Ok?
    ensures code in db.rooms && db.rooms[code].currentRound in db.rooms[code].rounds && Restorable(Stored(db, code))
  {}

  lemma {:induction false} SeatOfRole(rows: RoomRows, account: string)
    requires RowsOk(rows) && RoleOf(rows, account).Some?
    ensures var role := RoleOf(rows, account).value; role in rows.seats && rows.seats[role].account == account
    ensures Guest in rows.seats ==>
              Host in rows.seats && rows.seats[Host].playerId != rows.seats[Guest].playerId && rows.seats[Host].account != rows.seats[Guest].account
  {}

  lemma {:induction false} MoveEffect(db: Db, code: string, account: string, move: Move, now: int)
    requires DbOk(db) && IsValidMove(move) && RecordMove(db, code, account, move, now).Done?
    ensures code in db.rooms && RoleOf(db.rooms[code], account).Some?
    ensures var rows, after := db.rooms[code], RecordMove(db, code, account, move, now).db;
            var role := RoleOf(rows, account).value;
            && role in rows.seats && rows.currentRound in rows.rounds && Full(rows)
            && WellFormed(Persisted(code, rows))
            && var s, id := Persisted(code, rows), rows.seats[role].playerId;
               var moved := rows.(moves := rows.moves[RoundRole(rows.currentRound, role) := move], revision := rows.revision + 1);
               && after.rooms == db.rooms[code := moved] && after.funds == db.funds && DbOk(after)
               && SubmitMove(s, id, move).Ok?
               && Persisted(code, moved) == s.(moves := s.moves[id := move])
               && Keys.HintFits(code, rows.currentRound)
  {
    hide DbOk, RowsOk, WellFormed, Persisted, Keys.HintFits, SubmitMove;
    MoveKeepsOk(db, code, account, move, now);
    StoredIsWellFormed(db, code);
    SeatOfRole(db.rooms[code], account);
    MovedRows(code, db.rooms[code], RoleOf(db.rooms[code], account).value, move);
  }

  lemma {:induction false} RequestEffect(db: Db, code: string, account: string, round: nat, now: int)
    requires DbOk(db) && RecordRequest(db, code, account, round, now).Done?
    ensures code in db.rooms && RoleOf(db.rooms[code], account).Some?
    ensures var rows, after := db.rooms[code], RecordRequest(db, code, account, round, now).db;
            var role := RoleOf(rows, account).value;
            && role in rows.seats && rows.currentRound in rows.rounds && Full(rows)
            && WellFormed(Persisted(code, rows))
            && (round != 0 ==> round == rows.currentRound)
            && var s, id := Persisted(code, rows), rows.seats[role].playerId;
               var asked := rows.(requests := rows.requests + {RoundRole(rows.currentRound, role)}, revision := rows.revision + 1);
               && after.rooms == db.rooms[code := asked] && after.funds == db.funds && DbOk(after)
               && RequestNextRound(s, id, s.round).Ok? && s.round == rows.currentRound
               && Persisted(code, asked) == s.(requests := s.requests + {id})
  {
    hide DbOk, RowsOk, WellFormed, Persisted, Keys.HintFits, RequestNextRound;
    RequestKeepsOk(db, code, account, round, now);
    StoredIsWellFormed(db, code);
    SeatOfRole(db.rooms[code], account);
    AskedRows(code, db.rooms[code], RoleOf(db.rooms[code], account).value);
  }

  lemma {:induction false} MoveSteps(db: Db, tx: Tx, code: string, account: string, move: Move, now: int)
    requires DbOk(db) && IsValidMove(move) && RecordMove(db, code, account, move, now).Done? && tx.TxCommand? && tx.call.CallMove?
    ensures Steps(db, RecordMove(db, code, account, move, now).db, tx, code)
  {
    hide DbOk, RowsOk, WellFormed, Persisted, SubmitMove, RecordMove;
    MoveEffect(db, code, account, move, now);
    StoredIsWellFormed(db, code);
    var after := RecordMove(db, code, account, move, now).db;
    var rows := db.rooms[code];
    assert Follows(Stored(db, code), Stored(after, code), Moved(rows.seats[RoleOf(rows, account).value].playerId, move));
  }

  lemma {:induction false} MovedRows(code: string, rows: RoomRows, role: Role, move: Move)
    requires RowsOk(rows) && WellFormed(Persisted(code, rows)) && role in rows.seats && IsValidMove(move)
    requires Full(rows) && !rows.closed && rows.rounds[rows.currentRound].status.Active? && RoundRole(rows.currentRound, role) !in rows.moves
    ensures var s := Persisted(code, rows);
            var id := rows.seats[role].playerId;
            && SubmitMove(s, id, move).Ok?
            && Persisted(code, rows.(moves := rows.moves[RoundRole(rows.currentRound, role) := move], revision := rows.revision + 1))
               == s.(moves := s.moves[id := move])
  {
    hide RowsOk, WellFormed;
    UndecidedRound(rows);
    assert role == Host || role == Guest;
    var s := Persisted(code, rows);
    var t := Persisted(code, rows.(moves := rows.moves[RoundRole(rows.currentRound, role) := move], revision := rows.revision + 1));
    assert t.moves == s.moves[rows.seats[role].playerId := move];
  }

  lemma {:induction false} UndecidedRound(rows: RoomRows)
    requires RowsOk(rows) && Full(rows)
    ensures rows.currentRound in rows.rounds && rows.seats[Host].playerId != rows.seats[Guest].playerId
    ensures rows.rounds[rows.currentRound].status.Active? ==> rows.rounds[rows.currentRound].result.Unset?
  {
    assert RoundOk(rows.rounds[rows.currentRound]);
  }

  lemma {:induction false} RequestSteps(db: Db, tx: Tx, code: string, account: string, round: nat, now: int)
    requires DbOk(db) && RecordRequest(db, code, account, round, now).Done? && tx.TxCommand? && tx.call.CallNextRound?
    ensures Steps(db, RecordRequest(db, code, account, round, now).db, tx, code)
  {
    hide DbOk, RowsOk, WellFormed, Persisted, RequestNextRound, RecordRequest;
    RequestEffect(db, code, account, round, now);
    StoredIsWellFormed(db, code);
    var after := RecordRequest(db, code, account, round, now).db;
    var rows := db.rooms[code];
    assert Follows(Stored(db, code), Stored(after, code), Asked(rows.seats[RoleOf(rows, account).value].playerId));
  }

  lemma {:induction false} AskedRows(code: string, rows: RoomRows, role: Role)
    requires RowsOk(rows) && WellFormed(Persisted(code, rows)) && role in rows.seats
    requires Full(rows) && !rows.closed && rows.rounds[rows.currentRound].status.Resolved? && RoundRole(rows.currentRound, role) !in rows.requests
    ensures var s := Persisted(code, rows);
            var id := rows.seats[role].playerId;
            && s.round == rows.currentRound && RequestNextRound(s, id, s.round).Ok?
            && Persisted(code, rows.(requests := rows.requests + {RoundRole(rows.currentRound, role)}, revision := rows.revision + 1))
               == s.(requests := s.requests + {id})
  {
    assert RoundOk(rows.rounds[rows.currentRound]);
    assert role == Host || role == Guest;
    var s := Persisted(code, rows);
    var t := Persisted(code, rows.(requests := rows.requests + {RoundRole(rows.currentRound, role)}, revision := rows.revision + 1));
    assert t.requests == s.requests + {rows.seats[role].playerId};
  }

  lemma {:induction false} LeaveSteps(db: Db, tx: Tx, code: string, account: string, now: int)
    requires DbOk(db) && LeaveRoom(db, code, account, now).Done? && tx.TxCommand? && tx.call.CallLeave?
    ensures Steps(db, LeaveRoom(db, code, account, now).db, tx, code)
  {
    hide DbOk, Restorable, RowsOk, WellFormed, Saved, ViewOf, SeatsHold, Persisted;
    StoredIsWellFormed(db, code);
    LoadIsPersisted(db, code);
    var s := Load(db, code).value;
    var id := db.rooms[code].seats[RoleOf(db.rooms[code], account).value].playerId;
    var after := LeaveRoom(db, code, account, now).db;
    LeftHolds(db.rooms[code], s, id);
    SavedStep(db, after, tx, code, OpLeave(id), db.rooms[code], s.round, db.rooms[code].revision + 1);
  }

  lemma {:induction false} LeftHolds(rows: RoomRows, s: RoomState, id: string)
    requires WellFormed(s) && SeatsHold(rows, s) && Leave(s, id).Ok?
    ensures SeatsHold(rows, Leave(s, id).value) && Leave(s, id).value.code == s.code
  {}

  lemma {:induction false} JoinSteps(db: Db, tx: Tx, code: string, playerId: string, account: string, now: int)
    requires DbOk(db) && JoinRoom(db, code, playerId, account, now).Done? && tx.TxCommand? && tx.call.CallJoin?
    ensures Steps(db, JoinRoom(db, code, playerId, account, now).db, tx, code)
    ensures var after := JoinRoom(db, code, playerId, account, now).db;
            code in after.rooms && after.rooms == db.rooms[code := after.rooms[code]]
  {
    hide DbOk, Restorable, RowsOk, WellFormed, Saved, ViewOf, SeatsHold, Persisted, JoinRoom, WithDeadline, Stake, CanSeatGuest, Join, RoleOf;
    assert RoomsOk(db.rooms) by { RoomsOfDb(db); }
    JoinShape(db, code, playerId, account, now);
    StoredIsWellFormed(db, code);
    var rows := db.rooms[code];
    var s := Persisted(code, rows);
    assert rows.(currentRound := 1) == rows;
    JoinLoads(db, code, playerId, account, now);
    JoinHolds(rows, s, playerId, account);
    SavedStep(db, JoinRoom(db, code, playerId, account, now).db, tx, code, OpJoin(playerId),
              SeatGuest(WithRoundFunded(rows, 1), playerId, account, JoinedPresence(rows.presence)), 1, rows.revision + 1);
  }

  lemma {:induction false} RoomsOfDb(db: Db)
    requires DbOk(db)
    ensures RoomsOk(db.rooms)
  {}

  lemma {:induction false} JoinLoads(db: Db, code: string, playerId: string, account: string, now: int)
    requires JoinRoom(db, code, playerId, account, now).Done?
    ensures Load(db, code).Ok? && code in db.rooms
    ensures db.rooms[code].currentRound in db.rooms[code].rounds && Load(db, code).value == Stored(db, code)
    ensures Stored(db, code).code == code
  {}

  lemma {:induction false} JoinHolds(rows: RoomRows, s: RoomState, playerId: string, account: string)
    requires WellFormed(s) && CanSeatGuest(rows, s, playerId) && Join(s, playerId).Ok? && 1 in rows.rounds
    ensures Join(s, playerId).value == s.(players := s.players + [Player(playerId, 0)])
    ensures SeatsHold(SeatGuest(WithRoundFunded(rows, 1), playerId, account, JoinedPresence(rows.presence)), Join(s, playerId).value)
  {}

  lemma {:induction false} CommandSteps(db: Db, tx: Tx, code: string)
    requires DbOk(db) && code in db.rooms && tx.TxCommand?
    ensures Steps(db, Next(db, tx), tx, code)
  {
    hide DbOk, Steps, RecordMove, RecordRequest, LeaveRoom, JoinRoom, CreateRoom;
    var account, command, call, now := tx.account, tx.command, tx.call, tx.now;
    var after := Next(db, tx);
    if Refusal(account, call).Some? || command.key in db.receipts || Effect(db, account, command.key, call, now).Failed? {
      KeepsRoom(db, after, tx, code);
    } else {
      var effect := Effect(db, account, command.key, call, now).db;
      CallSteps(db, tx, code);
      ReceiptSteps(db, effect, after.receipts, tx, code);
    }
  }

  lemma {:induction false} ReceiptSteps(db: Db, after: Db, receipts: map<string, Receipt>, tx: Tx, code: string)
    requires Steps(db, after, tx, code)
    ensures Steps(db, after.(receipts := receipts), tx, code)
  {
    hide WellFormed, Persisted, Follows;
    var step :| Allowed(tx, step) && Follows(Stored(db, code), Stored(after, code), step);
    assert Follows(Stored(db, code), Stored(after.(receipts := receipts), code), step);
  }

  lemma {:induction false} CallSteps(db: Db, tx: Tx, code: string)
    requires DbOk(db) && code in db.rooms && tx.TxCommand? && Refusal(tx.account, tx.call).None?
    requires Effect(db, tx.account, tx.command.key, tx.call, tx.now).Done?
    ensures Steps(db, Effect(db, tx.account, tx.command.key, tx.call, tx.now).db, tx, code)
  {
    hide DbOk, Steps, JoinRoom;
    var account, key, call, now := tx.account, tx.command.key, tx.call, tx.now;
    var after := Effect(db, account, key, call, now).db;
    if call.CallRecharge? || call.code != code {
      OtherRooms(db, account, key, call, now, code);
      KeepsRoom(db, after, tx, code);
    } else {
      hide CreateRoom, RecordMove, RecordRequest, LeaveRoom;
      match call {
        case CallCreate(_, _) => CreateIsNew(db, code, call.playerId, account, now);
        case CallJoin(_, playerId) => JoinSteps(db, tx, code, playerId, account, now);
        case CallMove(_, move) => MoveSteps(db, tx, code, account, move, now);
        case CallNextRound(_, round) => RequestSteps(db, tx, code, account, round, now);
        case CallLeave(_) => LeaveSteps(db, tx, code, account, now);
      }
    }
  }

  lemma {:induction false} CreateIsNew(db: Db, code: string, playerId: string, account: string, now: int)
    ensures CreateRoom(db, code, playerId, account, now).Done? ==> code !in db.rooms
  {}

  lemma {:induction false} OtherRooms(db: Db, account: string, key: string, call: Call, now: int, code: string)
    requires DbOk(db) && code in db.rooms && (call.CallRecharge? || call.code != code)
    requires Effect(db, account, key, call, now).Done?
    ensures var after := Effect(db, account, key, call, now).db; code in after.rooms && after.rooms[code] == db.rooms[code]
  {
    hide DbOk, JoinRoom, Saved, ViewOf, Persisted, Restorable;
    if call.CallJoin? {
      JoinSteps(db, TxCommand(account, Command(key, "", ""), call, now), call.code, call.playerId, account, now);
    }
  }

  lemma {:induction false} ReconcileSteps(db: Db, tx: Tx, code: string, round: nat, now: int)
    requires DbOk(db) && tx.TxReconcile? && Reconcile(db, code, round, now).Some? && Reconcile(db, code, round, now).value.Done?
    ensures code in db.rooms && Steps(db, Reconcile(db, code, round, now).value.db, tx, code)
    ensures var after := Reconcile(db, code, round, now).value.db; code in after.rooms && after.rooms == db.rooms[code := after.rooms[code]]
  {
    hide DbOk, Restorable, RowsOk, WellFormed, Saved, SeatsHold, Persisted, Load, Eligible, SaveAndSettle, FundRound, Stake, Decide, NextRound, WithCancelled;
    hide ResolveCommittedMoves, AdvanceCommittedNextRound, Keys.HintFits;
    EligibleRoom(db, code, round);
    StoredIsWellFormed(db, code);
    LoadIsPersisted(db, code);
    var rows, s := db.rooms[code], Load(db, code).value;
    var after := Reconcile(db, code, round, now).value.db;
    TransitionHolds(rows, s);
    if Eligible(db, code, round).value.Resolving? {
      var t := ResolveCommittedMoves(s, s.round).value;
      SettledRows(db, code, t, WithCancelled(db.deadlines, RoundDeadlines(db, code, s.round), now), now);
      SavedStep(db, after, tx, code, OpResolve(s.round), rows, t.round, rows.revision + 1);
    } else {
      var t := AdvanceCommittedNextRound(s, s.round).value;
      var saved := SaveAndBump(db, code, t, s.round, now).value;
      SavedRound(rows, t, s.round, rows.revision + 1);
      SavedRoundNumber(rows, t, s.round, rows.revision + 1);
      FundedRows(saved, code, t.round, now);
      SavedStep(db, after, tx, code, OpAdvance(s.round), rows, s.round, rows.revision + 1);
    }
  }

  lemma {:induction false} TransitionHolds(rows: RoomRows, s: RoomState)
    requires WellFormed(s) && SeatsHold(rows, s)
    ensures var t := ResolveCommittedMoves(s, s.round); t.Ok? ==> SeatsHold(rows, t.value) && t.value.code == s.code
    ensures var t := AdvanceCommittedNextRound(s, s.round); t.Ok? ==> SeatsHold(rows, t.value) && t.value.code == s.code
  {}

  lemma {:induction false} FundedRows(db: Db, code: string, round: nat, now: int)
    requires code in db.rooms && round in db.rooms[code].rounds && FundRound(db, code, round, None, now).Ok?
    ensures var after := FundRound(db, code, round, None, now).value;
            code in after.rooms && (after.rooms[code] == db.rooms[code] || after.rooms[code] == WithRoundFunded(db.rooms[code], round))
  {
    hide WithDeadline, Stake;
  }

  // The operation a deadline applies.
  ghost function DeadlineOp(db: Db, i: nat, s: RoomState, now: int): Op
    requires i in db.deadlines && (db.deadlines[i].kind.Disconnect? ==> Seated(s, db.deadlines[i].kind.role))
  {
    match db.deadlines[i].kind
    case Inactivity => OpInactivity(s.round)
    case Disconnect(role) =>
      if LiveRole(db, db.deadlines[i].code, Other(role), now) then OpForfeit(PlayerAt(s, role).id, s.round) else OpDeadlineDraw(s.round)
  }

  lemma {:induction false} VerdictIsOp(db: Db, i: nat, s: RoomState, now: int)
    requires i in db.deadlines && WellFormed(s) && |s.players| == 2 && Verdict(db, i, s, now).Some?
    ensures Verdict(db, i, s, now).value == Apply(s, DeadlineOp(db, i, s, now))
    ensures var op := DeadlineOp(db, i, s, now); op.OpForfeit? || op.OpInactivity? || op.OpDeadlineDraw?
  {}

  lemma {:induction false} VerdictHolds(rows: RoomRows, s: RoomState, db: Db, i: nat, now: int)
    requires i in db.deadlines && WellFormed(s) && SeatsHold(rows, s) && Verdict(db, i, s, now).Some? && Verdict(db, i, s, now).value.Ok?
    ensures var t := Verdict(db, i, s, now).value.value; SeatsHold(rows, t) && t.code == s.code && t.round == s.round
  {}

  // What a settling deadline commits to its room.
  lemma {:induction false} SettledRows(db: Db, code: string, t: RoomState, deadlines: map<nat, Deadline>, now: int)
    requires code in db.rooms && SaveAndSettle(db, code, t, deadlines, now).Ok?
    ensures var after := SaveAndSettle(db, code, t, deadlines, now).value;
            && code in after.rooms && after.rooms[code] == Saved(db.rooms[code], t, t.round, db.rooms[code].revision + 1)
            && after.rooms == db.rooms[code := after.rooms[code]]
  {}

  // What is known when the deadline worker answers that it settled a round.
  lemma {:induction false} SettledAnswer(db: Db, now: int)
    requires ProcessDeadline(db, now).Done? && ProcessDeadline(db, now).answer.Settled?
    ensures var a := ProcessDeadline(db, now).answer;
            && a.deadline in db.deadlines
            && var code := db.deadlines[a.deadline].code;
               && Load(db, code) == Ok(a.before) && code in db.rooms
               && WellFormed(a.before)
               && Verdict(db, a.deadline, a.before, now) == Some(Ok(a.after))
               && exists deadlines, more ::
                    SaveAndSettle(db.(deadlines := more), code, a.after, deadlines, now) == Ok(ProcessDeadline(db, now).db)
  {
    hide Load, Persisted, Restorable, Concluded, Verdict, Before, WithCancelled, SaveAndSettle, Due, Applicable;
    var candidate := First(db, DueIds(db, now));
    var code := db.deadlines[candidate].code;
    var applicable := ApplicableOfRoom(db, code, now);
    var chosen := First(db, applicable);
    assert IsFirst(db, applicable, chosen) && chosen in DueOfRoom(db, code, now);
    var pruned := Cancel(db, Skipped(db, code, chosen, now), now);
    assert db.(deadlines := pruned.deadlines) == pruned;
  }

  lemma {:induction false} DeadlineSteps(db: Db, tx: Tx, code: string, now: int)
    requires DbOk(db) && code in db.rooms && tx.TxDeadline? && ProcessDeadline(db, now).Done?
    ensures Steps(db, ProcessDeadline(db, now).db, tx, code)
  {
    hide DbOk, Restorable, RowsOk, WellFormed, Saved, SeatsHold, Persisted, Load, SaveAndSettle, ProcessDeadline, Verdict, Steps, LiveRole;
    var r := ProcessDeadline(db, now);
    if r.answer.Settled? {
      SettledAnswer(db, now);
      var a := r.answer;
      var c := db.deadlines[a.deadline].code;
      var deadlines, more :| SaveAndSettle(db.(deadlines := more), c, a.after, deadlines, now) == Ok(r.db);
      SettledRows(db.(deadlines := more), c, a.after, deadlines, now);
      if code == c {
        StoredIsWellFormed(db, code);
        LoadIsPersisted(db, code);
        var s := a.before;
        VerdictDecides(db, a.deadline, s, now);
        VerdictIsOp(db, a.deadline, s, now);
        VerdictHolds(db.rooms[code], s, db, a.deadline, now);
        SavedStep(db, r.db, tx, code, DeadlineOp(db, a.deadline, s, now), db.rooms[code], s.round, db.rooms[code].revision + 1);
      } else {
        KeepsRoom(db, r.db, tx, code);
      }
    } else {
      UnsettledKeepsRooms(db, now);
      KeepsRoom(db, r.db, tx, code);
    }
  }

  lemma {:induction false} UnsettledKeepsRooms(db: Db, now: int)
    requires ProcessDeadline(db, now).Done? && !ProcessDeadline(db, now).answer.Settled?
    ensures var r := ProcessDeadline(db, now).db; r == db.(deadlines := r.deadlines)
  {
    hide Load, Persisted, Restorable, Concluded, Verdict, Before, WithCancelled, SaveAndSettle, Due, Applicable;
  }

  lemma {:induction false} PresenceSteps(db: Db, tx: Tx, code: string)
    requires DbOk(db) && code in db.rooms && (tx.TxOpen? || tx.TxRenew? || tx.TxClose?)
    ensures Steps(db, Next(db, tx), tx, code)
  {
    hide DbOk, Steps, OpenConnection, RenewConnection, CloseConnection;
    match tx {
      case TxOpen(id, c, account, valid, now, lease) => OpenKeepsRows(db, id, c, account, valid, now, lease, code);
      case TxRenew(id, valid, now, lease) => RenewKeepsRows(db, id, valid, now, lease, code);
      case TxClose(id, at, expiredBy) => CloseKeepsRows(db, id, at, expiredBy, code);
    }
    KeepsRoom(db, Next(db, tx), tx, code);
  }

  // Only the presence of the room and its revision may differ.
  ghost predicate RowsKept(db: Db, after: Db, code: string) {
    code in db.rooms ==>
      code in after.rooms && after.rooms[code] == db.rooms[code].(presence := after.rooms[code].presence, revision := after.rooms[code].revision)
  }

  lemma {:induction false} OpenKeepsRows(db: Db, id: string, c: string, account: string, valid: bool, now: int, lease: int, code: string)
    ensures var r := OpenConnection(db, id, c, account, valid, now, lease); r.Done? ==> RowsKept(db, r.db, code)
  {
    hide RoleOf, WithCancelled;
  }

  lemma {:induction false} RenewKeepsRows(db: Db, id: string, valid: bool, now: int, lease: int, code: string)
    ensures var r := RenewConnection(db, id, valid, now, lease); r.Done? ==> RowsKept(db, r.db, code)
  {}

  lemma {:induction false} CloseKeepsRows(db: Db, id: string, at: int, expiredBy: Option<int>, code: string)
    ensures var r := CloseConnection(db, id, at, expiredBy); r.Done? ==> RowsKept(db, r.db, code)
  {
    hide LiveRole, WithDeadline;
  }

  // Every transaction takes every room one step of the aggregate.
  lemma {:induction false} EveryTransactionFollowsTheAggregate(db: Db, tx: Tx, code: string)
    requires DbOk(db) && code in db.rooms
    ensures Steps(db, Next(db, tx), tx, code)
  {
    hide DbOk, Steps, Reconcile, ProcessDeadline;
    match tx {
      case TxCommand(_, _, _, _) => CommandSteps(db, tx, code);
      case TxReconcile(c, round, now) =>
        if Reconcile(db, c, round, now).Some? && Reconcile(db, c, round, now).value.Done? {
          ReconcileSteps(db, tx, c, round, now);
          if c != code { KeepsRoom(db, Next(db, tx), tx, code); }
        } else {
          KeepsRoom(db, db, tx, code);
        }
      case TxDeadline(now) =>
        if ProcessDeadline(db, now).Done? { DeadlineSteps(db, tx, code, now); } else { KeepsRoom(db, db, tx, code); }
      case TxOpen(_, _, _, _, _, _) => PresenceSteps(db, tx, code);
      case TxRenew(_, _, _, _) => PresenceSteps(db, tx, code);
      case TxClose(_, _, _) => PresenceSteps(db, tx, code);
      case _ => KeepsRoom(db, Next(db, tx), tx, code);
    }
  }

  // ---- Which rooms can still be loaded ----

  ghost predicate Loads(db: Db, code: string) {
    Load(db, code).Ok?
  }

  lemma {:induction false} LoadsIffRestorable(db: Db, code: string)
    requires DbOk(db) && code in db.rooms
    ensures db.rooms[code].currentRound in db.rooms[code].rounds && WellFormed(Stored(db, code))
    ensures Loads(db, code) <==> Restorable(Stored(db, code))
    ensures Stored(db, code).round == db.rooms[code].currentRound
  {
    hide DbOk, Restorable;
    StoredIsWellFormed(db, code);
  }

  // A recorded action decides nothing about loading.
  lemma {:induction false} RecordingKeepsRestorable(s: RoomState, t: RoomState, step: RoomStep)
    requires WellFormed(s) && WellFormed(t) && Follows(s, t, step) && !step.Applied?
    ensures t.round == s.round && (Restorable(t) <==> Restorable(s))
  {
    if step.Moved? {
      UnresolvedIsRestorable(s);
      UnresolvedIsRestorable(t);
    }
  }

  lemma {:induction false} FollowingKeepsRestorable(s: RoomState, t: RoomState, step: RoomStep)
    requires WellFormed(s) && WellFormed(t) && Follows(s, t, step)
    ensures Restorable(t) <==> t.round != s.round || (Restorable(s) && !(step.Applied? && Spoils(s, step.op)))
  {
    hide WellFormed, Restorable, Spoils;
    if step.Applied? {
      StepKeepsRestorable(s, step.op);
    } else {
      RecordingKeepsRestorable(s, t, step);
    }
  }

  lemma {:induction false} NoSpoilingWithoutDeadline(s: RoomState, tx: Tx, step: RoomStep)
    requires WellFormed(s) && !tx.TxDeadline? && Allowed(tx, step) && step.Applied?
    ensures !Spoils(s, step.op)
  {}

  lemma {:induction false} LoadsAfterStep(db: Db, after: Db, tx: Tx, code: string)
    requires DbOk(db) && DbOk(after) && Steps(db, after, tx, code) && !tx.TxDeadline?
    ensures Loads(after, code) <==> after.rooms[code].currentRound != db.rooms[code].currentRound || Loads(db, code)
  {
    hide DbOk, Restorable, WellFormed, Follows, Spoils, Loads, Persisted, Allowed;
    LoadsIffRestorable(db, code);
    LoadsIffRestorable(after, code);
    var s, t := Stored(db, code), Stored(after, code);
    var step :| Allowed(tx, step) && Follows(s, t, step);
    if step.Applied? { NoSpoilingWithoutDeadline(s, tx, step); }
    FollowingKeepsRestorable(s, t, step);
  }

  // Apart from the deadline worker no transaction makes a room unloadable, and
  // only advancing to the next round would make it loadable again.
  lemma {:induction false} OnlyDeadlinesSpoil(db: Db, tx: Tx, code: string)
    requires DbOk(db) && code in db.rooms && !tx.TxDeadline?
    ensures code in Next(db, tx).rooms
    ensures Loads(Next(db, tx), code) <==> Next(db, tx).rooms[code].currentRound != db.rooms[code].currentRound || Loads(db, code)
  {
    hide DbOk, Next, Loads, Follows, WellFormed, Allowed, Persisted;
    NextKeepsOk(db, tx);
    EveryTransactionFollowsTheAggregate(db, tx, code);
    LoadsAfterStep(db, Next(db, tx), tx, code);
  }

  // The disconnect deadlines whose verdict contradicts the recorded moves: a
  // forfeit although both players moved, or a draw although one player moved
  // or both moved differently.
  ghost predicate Contradicts(db: Db, i: nat, s: RoomState, now: int)
    requires i in db.deadlines && WellFormed(s)
  {
    var d := db.deadlines[i];
    d.kind.Disconnect? && |s.players| == 2 &&
    if LiveRole(db, d.code, Other(d.kind.role), now) then |s.moves| == 2
    else |s.moves| == 1 || (|s.moves| == 2 && exists a, b | a in s.moves && b in s.moves :: s.moves[a] != s.moves[b])
  }

  lemma {:induction false} ContradictsIffSpoils(db: Db, i: nat, s: RoomState, now: int)
    requires i in db.deadlines && WellFormed(s) && |s.players| == 2 && !LiveRoleOfDeadline(db, i, now)
    requires Apply(s, DeadlineOp(db, i, s, now)).Ok?
    ensures Contradicts(db, i, s, now) <==> Spoils(s, DeadlineOp(db, i, s, now))
  {
    hide LiveRole;
    MoveCount(s);
  }

  ghost predicate LiveRoleOfDeadline(db: Db, i: nat, now: int)
    requires i in db.deadlines
  {
    db.deadlines[i].kind.Disconnect? && LiveRole(db, db.deadlines[i].code, db.deadlines[i].kind.role, now)
  }

  lemma {:induction false} VerdictNeedsAbsence(db: Db, i: nat, s: RoomState, now: int)
    requires i in db.deadlines && WellFormed(s) && Verdict(db, i, s, now).Some?
    ensures !LiveRoleOfDeadline(db, i, now)
  {}

  // The round that a deadline settles can be loaded again if and only if the
  // verdict does not contradict the recorded moves.
  lemma {:induction false} DeadlineSpoilsExactly(db: Db, now: int)
    requires DbOk(db) && ProcessDeadline(db, now).Done? && ProcessDeadline(db, now).answer.Settled?
    ensures var a := ProcessDeadline(db, now).answer;
            && a.deadline in db.deadlines && WellFormed(a.before)
            && var code := db.deadlines[a.deadline].code;
               && Load(db, code) == Ok(a.before)
               && (Loads(ProcessDeadline(db, now).db, code) <==> !Contradicts(db, a.deadline, a.before, now))
  {
    hide DbOk, Restorable, WellFormed, Saved, Persisted, Load, SaveAndSettle, ProcessDeadline, Verdict, Spoils, Contradicts, DeadlineOp, Apply, Decide, LiveRole;
    SettledAnswer(db, now);
    var r := ProcessDeadline(db, now);
    var a := r.answer;
    var code := db.deadlines[a.deadline].code;
    var deadlines, more :| SaveAndSettle(db.(deadlines := more), code, a.after, deadlines, now) == Ok(r.db);
    SettledRows(db.(deadlines := more), code, a.after, deadlines, now);
    DeadlineKeepsOk(db, now);
    StoredIsWellFormed(db, code);
    LoadIsPersisted(db, code);
    LoadedIsRestorable(db, code);
    var s := a.before;
    VerdictDecides(db, a.deadline, s, now);
    VerdictIsOp(db, a.deadline, s, now);
    VerdictHolds(db.rooms[code], s, db, a.deadline, now);
    VerdictNeedsAbsence(db, a.deadline, s, now);
    DeadlineOpIsSeated(s, db, a.deadline);
    ContradictsIffSpoils(db, a.deadline, s, now);
    SaveThenLoad(code, db.rooms[code], a.after, a.after.round, db.rooms[code].revision + 1);
    LoadsIffRestorable(r.db, code);
    StepKeepsRestorable(s, DeadlineOp(db, a.deadline, s, now));
  }

  lemma {:induction false} DeadlineOpIsSeated(s: RoomState, db: Db, i: nat)
    requires i in db.deadlines && |s.players| == 2
    ensures db.deadlines[i].kind.Disconnect? ==> Seated(s, db.deadlines[i].kind.role)
  {}

  lemma {:induction false} UnloadableIsResolved(s: RoomState, t: RoomState, step: RoomStep)
    requires WellFormed(s) && WellFormed(t) && Follows(s, t, step) && !Restorable(s)
    ensures !step.Applied? && s.resolved && t == s.(requests := t.requests) && !Restorable(t)
  {
    if !s.resolved { UnresolvedIsRestorable(s); }
    RecordingKeepsRestorable(s, t, step);
  }

  // Once a room cannot be loaded it never can be again: it keeps its round, its
  // result, its moves and its players whatever happens, so no next round starts
  // and nobody can leave. Its round was settled.
  lemma {:induction false} UnloadableForever(db: Db, txs: seq<Tx>, code: string)
    requires DbOk(db) && code in db.rooms && !Loads(db, code)
    ensures db.rooms[code].currentRound in db.rooms[code].rounds
    ensures var after := Store.Run(db, txs);
            && DbOk(after)
            && code in after.rooms && after.rooms[code].currentRound in after.rooms[code].rounds
            && Stored(after, code) == Stored(db, code).(requests := Stored(after, code).requests)
            && Stored(after, code).resolved
            && !Loads(after, code)
  {
    hide DbOk, Next, Restorable, WellFormed, Follows, Load, Persisted, Loads;
    LoadsIffRestorable(db, code);
    if txs == [] {
      UnloadableNow(Stored(db, code));
    } else {
      var before := Store.Run(db, txs[..|txs| - 1]);
      var tx := txs[|txs| - 1];
      UnloadableForever(db, txs[..|txs| - 1], code);
      NextKeepsOk(before, tx);
      EveryTransactionFollowsTheAggregate(before, tx, code);
      LoadsIffRestorable(before, code);
      LoadsIffRestorable(Next(before, tx), code);
      var step :| Allowed(tx, step) && Follows(Stored(before, code), Stored(Next(before, tx), code), step);
      UnloadableIsResolved(Stored(before, code), Stored(Next(before, tx), code), step);
    }
  }

  lemma {:induction false} UnloadableNow(s: RoomState)
    requires WellFormed(s) && !Restorable(s)
    ensures s.resolved
  {
    if !s.resolved { UnresolvedIsRestorable(s); }
  }
}
