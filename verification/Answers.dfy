// What a command answers: the room, the round or the balance as its
// transaction leaves them.
module Answers {
  import opened Prelude
  import opened Game
  import opened Ledger
  import opened Money
  import opened Tables
  import opened RowInvariant
  import opened Outbox
  import opened Store
  import opened Invariant
  import opened Preservation
  import opened Simulation
  import Keys

  // The response shows the room as it is stored.
  ghost predicate TellsRoom(db: Db, code: string, response: Response) {
    code in db.rooms && db.rooms[code].currentRound in db.rooms[code].rounds &&
    var rows := db.rooms[code];
    match response
    case RoomResponse(view, revision) => view == ViewOf(Stored(db, code)) && revision == rows.revision
    case RecordedResponse(c, round, resolved, revision) =>
      c == code && round == rows.currentRound && (resolved <==> rows.rounds[round].status.Resolved?) && revision == rows.revision
    case BalanceResponse(_) => false
  }

  // The room in its next revision, as it is stored now.
  ghost predicate TellsChange(db: Db, after: Db, code: string, response: Response) {
    code in db.rooms && response.RoomResponse? && TellsRoom(after, code, response) && response.revision == db.rooms[code].revision + 1
  }

  // The round that was current, and is, in the room's next revision.
  ghost predicate TellsAction(db: Db, after: Db, code: string, response: Response, resolved: bool) {
    && code in db.rooms && response.RecordedResponse? && TellsRoom(after, code, response)
    && response.resolved == resolved && response.round == db.rooms[code].currentRound && response.revision == db.rooms[code].revision + 1
  }

  lemma {:induction false} CreateTells(db: Db, code: string, playerId: string, account: string, now: int)
    requires CreateRoom(db, code, playerId, account, now).Done?
    ensures var r := CreateRoom(db, code, playerId, account, now);
            r.answer.RoomResponse? && TellsRoom(r.db, code, r.answer) && r.answer.revision == 1
  {
    hide ViewOf;
    var rows := RoomRows(false, 1, 1, map[Host := Seat(playerId, account, 0)], map[1 := FreshRound], map[], {}, map[]);
    var s := Persisted(code, rows);
    assert s.moves == map[] && s.requests == {} && s.players == [Player(playerId, 0)];
  }

  lemma {:induction false} SavedTells(db: Db, code: string, rows: RoomRows, s: RoomState, previousRound: nat, revision: nat)
    requires WellFormed(s) && s.code == code && SeatsHold(rows, s) && code in db.rooms && db.rooms[code] == Saved(rows, s, previousRound, revision)
    ensures TellsRoom(db, code, RoomResponse(ViewOf(s), revision)) && db.rooms[code].revision == revision
  {
    hide Saved, Persisted, WellFormed, SeatsHold, ViewOf;
    SaveThenLoad(code, rows, s, previousRound, revision);
    SavedRound(rows, s, previousRound, revision);
    SavedRevision(rows, s, previousRound, revision);
  }

  lemma {:induction false} SavedRevision(rows: RoomRows, s: RoomState, previousRound: nat, revision: nat)
    ensures Saved(rows, s, previousRound, revision).revision == revision
  {}

  lemma {:induction false} LeaveTells(db: Db, code: string, account: string, now: int)
    requires DbOk(db) && LeaveRoom(db, code, account, now).Done?
    ensures code in db.rooms
    ensures var r := LeaveRoom(db, code, account, now);
            r.answer.RoomResponse? && TellsRoom(r.db, code, r.answer) && r.answer.revision == db.rooms[code].revision + 1
  {
    hide DbOk, Saved, ViewOf, Persisted, RoleOf, Load, Leave, WellFormed, SeatsHold, TellsRoom;
    StoredIsWellFormed(db, code);
    LoadIsPersisted(db, code);
    var s := Load(db, code).value;
    SeatOfRole(db.rooms[code], account);
    var id := db.rooms[code].seats[RoleOf(db.rooms[code], account).value].playerId;
    LeftHolds(db.rooms[code], s, id);
    SavedRevision(db.rooms[code], Leave(s, id).value, s.round, db.rooms[code].revision + 1);
    SavedTells(LeaveRoom(db, code, account, now).db, code, db.rooms[code], Leave(s, id).value, s.round, db.rooms[code].revision + 1);
  }

  lemma {:induction false} JoinTells(db: Db, code: string, playerId: string, account: string, now: int)
    requires DbOk(db) && JoinRoom(db, code, playerId, account, now).Done?
    ensures code in db.rooms
    ensures var r := JoinRoom(db, code, playerId, account, now);
            r.answer.RoomResponse? && TellsRoom(r.db, code, r.answer) && r.answer.revision == db.rooms[code].revision + 1
  {
    hide DbOk, RowsOk, WellFormed, Persisted, JoinRoom, Stake, CanSeatGuest, Join, RoleOf, ViewOf, WithDeadline, JoinedPresence, Saved, SeatsHold, TellsRoom;
    RoomsOfDb(db);
    JoinShape(db, code, playerId, account, now);
    StoredIsWellFormed(db, code);
    JoinLoads(db, code, playerId, account, now);
    var rows := db.rooms[code];
    var s := Persisted(code, rows);
    assert rows.(currentRound := 1) == rows;
    JoinHolds(rows, s, playerId, account);
    JoinedNames(s, playerId);
    JoinAnswer(db, code, playerId, account, now);
    var seated := SeatGuest(WithRoundFunded(rows, 1), playerId, account, JoinedPresence(rows.presence));
    SavedTells(JoinRoom(db, code, playerId, account, now).db, code, seated, Join(s, playerId).value, 1, rows.revision + 1);
  }

  lemma {:induction false} JoinedNames(s: RoomState, playerId: string)
    requires WellFormed(s) && Join(s, playerId).Ok?
    ensures Join(s, playerId).value.code == s.code
  {}

  lemma {:induction false} JoinAnswer(db: Db, code: string, playerId: string, account: string, now: int)
    requires JoinRoom(db, code, playerId, account, now).Done?
    ensures code in db.rooms && Load(db, code).Ok? && Join(Load(db, code).value, playerId).Ok?
    ensures var r := JoinRoom(db, code, playerId, account, now);
            code in r.db.rooms && r.answer == RoomResponse(ViewOf(Join(Load(db, code).value, playerId).value), r.db.rooms[code].revision)
  {
    hide Load, Join, SeatJoining, SaveAndBump, ViewOf;
  }

  lemma {:induction false} ActionTells(db: Db, code: string, account: string, move: Move, round: nat, now: int)
    requires DbOk(db)
    ensures var r := RecordMove(db, code, account, move, now);
            r.Done? ==> code in db.rooms && r.answer.RecordedResponse? && !r.answer.resolved && TellsRoom(r.db, code, r.answer)
                        && r.answer.revision == db.rooms[code].revision + 1 && r.answer.round == db.rooms[code].currentRound
    ensures var r := RecordRequest(db, code, account, round, now);
            r.Done? ==> code in db.rooms && r.answer.RecordedResponse? && r.answer.resolved && TellsRoom(r.db, code, r.answer)
                        && r.answer.revision == db.rooms[code].revision + 1 && r.answer.round == db.rooms[code].currentRound
  {
    hide DbOk, RoleOf, Keys.HintFits, Persisted;
  }

  lemma {:induction false} RechargeTells(db: Db, account: string, key: string, amount: int)
    requires DbOk(db) && RechargeAccount(db, account, key, amount).Done?
    ensures var r := RechargeAccount(db, account, key, amount);
            && r.answer == BalanceResponse(Lookup(r.db.funds.book.balances, User(account)))
            && r.answer.balance == Lookup(db.funds.book.balances, User(account)) + amount
  {
    hide RowsOk, ConnectionsOk, PresentOk, DeadlinesOk, Linked, BoxOk, Announced, Sound, Recharge, Matched;
    RechargeMoves(db.funds.book, account, key, amount);
  }

  // A command that takes effect, and is not replayed, answers what its
  // transaction leaves: the balance after the recharge, the room as it is now
  // stored, or the round that the action was recorded in; rooms in their next revision.
  lemma {:induction false} AnswersTellTheState(db: Db, account: string, command: Command, call: Call, now: int)
    requires DbOk(db)
    requires Execute(db, account, command, call, now).Done? && !Execute(db, account, command, call, now).answer.replayed
    ensures var after, response := Execute(db, account, command, call, now).db, Execute(db, account, command, call, now).answer.response;
            match call
            case CallRecharge(amount) =>
              && response == BalanceResponse(Lookup(after.funds.book.balances, User(account)))
              && response.balance == Lookup(db.funds.book.balances, User(account)) + amount
            case CallCreate(code, _) => response.RoomResponse? && TellsRoom(after, code, response) && response.revision == 1
            case CallMove(code, _) => TellsAction(db, after, code, response, false)
            case CallNextRound(code, _) => TellsAction(db, after, code, response, true)
            case CallJoin(code, _) => TellsChange(db, after, code, response)
            case CallLeave(code) => TellsChange(db, after, code, response)
  {
    hide DbOk, CreateRoom, JoinRoom, RecordMove, RecordRequest, LeaveRoom, RechargeAccount, ViewOf, Persisted, Refusal;
    match call {
      case CallCreate(code, playerId) => CreateTells(db, code, playerId, account, now);
      case CallJoin(code, playerId) => JoinTells(db, code, playerId, account, now);
      case CallMove(code, move) => ActionTells(db, code, account, move, 0, now);
      case CallNextRound(code, round) => ActionTells(db, code, account, Rock, round, now);
      case CallLeave(code) => LeaveTells(db, code, account, now);
      case CallRecharge(amount) => RechargeTells(db, account, command.key, amount);
    }
  }
}
