// The PostgreSQL repository as it runs: the tables are fields, a transaction
// changes them statement by statement, and rolls back to where it began when a
// statement fails. Every transaction is proved to commit what module Store says.
module Repository {
  import opened Prelude
  import opened Game
  import opened Ledger
  import opened Money
  import opened Tables
  import opened Outbox
  import opened Store
  import opened RowInvariant
  import opened Invariant
  import opened Preservation
  import opened Idempotency
  import opened Reconciliation
  import opened PresenceRuns
  import opened DeadlineRuns
  import opened Simulation
  import R = Room
  import Keys

  // One row of the statement that saves an aggregate.
  datatype InputRow = InputRow(role: Role, wins: int, move: Option<Move>, wantsNext: bool)

  predicate AllDistinct(ids: seq<AccountId>) {
    forall i, j | 0 <= i < j < |ids| :: ids[i] != ids[j]
  }

  lemma {:induction false} DistinctCount(ids: seq<AccountId>)
    ensures |set a | a in ids| <= |ids|
    ensures |set a | a in ids| == |ids| <==> AllDistinct(ids)
  {
    if ids != [] {
      var n := |ids| - 1;
      var all, init := set a | a in ids, set a | a in ids[..n];
      DistinctCount(ids[..n]);
      DistinctLast(ids);
      assert ids == ids[..n] + [ids[n]];
      assert all == init + {ids[n]};
      assert ids[n] in ids[..n] ==> all == init;
    }
  }

  lemma {:induction false} DistinctLast(ids: seq<AccountId>)
    requires ids != []
    ensures var n := |ids| - 1; AllDistinct(ids) <==> AllDistinct(ids[..n]) && ids[n] !in ids[..n]
  {
    var n := |ids| - 1;
    forall i | 0 <= i < n ensures ids[..n][i] == ids[i] && ids[i] in ids[..n] {}
  }

  // The players of the seats, by role.
  function RolesOf(rows: RoomRows): map<Role, string> {
    map role | role in rows.seats :: rows.seats[role].playerId
  }

  // The lists the load query returns, host first.
  function SeatRow(rows: RoomRows, role: Role): seq<(Role, Player)> {
    if role in rows.seats then [(role, Player(rows.seats[role].playerId, rows.seats[role].wins))] else []
  }

  function MoveRow(rows: RoomRows, role: Role): seq<(string, Move)> {
    var key := RoundRole(rows.currentRound, role);
    if role in rows.seats && key in rows.moves then [(rows.seats[role].playerId, rows.moves[key])] else []
  }

  function RequestRow(rows: RoomRows, role: Role): seq<string> {
    if role in rows.seats && RoundRole(rows.currentRound, role) in rows.requests then [rows.seats[role].playerId] else []
  }

  function MovesOf(list: seq<(string, Move)>): map<string, Move> {
    if list == [] then map[] else MovesOf(list[..|list| - 1])[list[|list| - 1].0 := list[|list| - 1].1]
  }

  lemma {:induction false} MovesOfRows(rows: RoomRows)
    ensures MovesOf(MoveRow(rows, Host) + MoveRow(rows, Guest)) == RoleMove(rows, Host) + RoleMove(rows, Guest)
  {
    var h, g := MoveRow(rows, Host), MoveRow(rows, Guest);
    var list := h + g;
    if |list| == 2 {
      assert list[..1] == h && h[..0] == [];
      assert MovesOf(h) == map[][h[0].0 := h[0].1];
    } else if |list| == 1 {
      assert list[..0] == [];
    }
  }

  function RolesFrom(list: seq<(Role, Player)>): map<Role, string> {
    if list == [] then map[] else RolesFrom(list[..|list| - 1])[list[|list| - 1].0 := list[|list| - 1].1.id]
  }

  lemma {:induction false} RolesOfRows(rows: RoomRows)
    ensures RolesFrom(SeatRow(rows, Host) + SeatRow(rows, Guest)) == RolesOf(rows)
  {
    var h, g := SeatRow(rows, Host), SeatRow(rows, Guest);
    var list := h + g;
    if |list| == 2 {
      assert list[..1] == h && h[..0] == [];
      assert RolesFrom(h) == map[][h[0].0 := h[0].1.id];
    } else if |list| == 1 {
      assert list[..0] == [];
    }
    forall role ensures role in RolesFrom(list) <==> role in rows.seats { assert role == Host || role == Guest; }
  }

  // The rows that the save statement is given for the roles of the aggregate.
  function InputRowOf(s: RoomState, role: Role): seq<InputRow> {
    if !Seated(s, role) then [] else
      var p := PlayerAt(s, role);
      [InputRow(role, p.wins, if p.id in s.moves then Some(s.moves[p.id]) else None, p.id in s.requests)]
  }

  // The outcome of a statement that either changes the database or fails.
  ghost predicate Carries(step: Result<Db, Error>, err: Option<Error>, after: Db) {
    match step
    case Ok(db) => err.None? && after == db
    case Err(e) => err == Some(e)
  }

  class Repository {
    var rooms: map<string, RoomRows>
    var connections: map<string, Connection>
    var deadlines: map<nat, Deadline>
    var nextDeadline: nat
    var balances: map<AccountId, int>
    var log: seq<Transaction>
    var history: map<RoundKey, HistoryRow>
    var box: Box
    var receipts: map<string, Receipt>

    function State(): Db
      reads this
    {
      Db(rooms, connections, deadlines, nextDeadline, Funds(Book(balances, log), history), box, receipts)
    }

    ghost predicate Valid()
      reads this
    {
      DbOk(State())
    }

    constructor ()
      ensures State() == EmptyDb() && Valid()
    {
      EmptyDbOk();
      rooms, connections, deadlines, nextDeadline := map[], map[], map[], 0;
      balances, log, history := map[House := 0, Mint := 0], [], map[];
      box, receipts := EmptyBox, map[];
    }

    method Rollback(before: Db)
      modifies this
      ensures State() == before
    {
      rooms, connections, deadlines, nextDeadline := before.rooms, before.connections, before.deadlines, before.nextDeadline;
      balances, log, history := before.funds.book.balances, before.funds.book.log, before.funds.history;
      box, receipts := before.box, before.receipts;
    }

    // ---- Statements ----

    method InsertRevision(code: string, revision: nat, now: int) returns (err: Option<Error>)
      modifies `box
      ensures Carries(Bump(old(State()), code, revision, now), err, State())
    {
      var key := RevisionKey(code, revision);
      if key in box.rows { return Some(UniqueViolation); }
      box := box.(rows := box.rows[key := Row(0, now, None, None)]);
      return None;
    }

    method ScheduleDeadline(code: string, round: nat, kind: DeadlineKind, generation: nat, dueAt: int)
      modifies `deadlines, `nextDeadline
      ensures State() == WithDeadline(old(State()), code, round, kind, generation, dueAt)
    {
      if exists i | i in deadlines ::
           deadlines[i].code == code && deadlines[i].round == round && deadlines[i].kind == kind && deadlines[i].generation == generation {
        return;
      }
      deadlines := deadlines[nextDeadline := Deadline(code, round, kind, generation, dueAt, Pending, None)];
      nextDeadline := nextDeadline + 1;
    }

    method EnsureAccount(a: AccountId)
      modifies `balances
      ensures Book(balances, log) == WithAccount(old(Book(balances, log)), a) && a in balances
    {
      if a !in balances { balances := balances[a := 0]; }
    }

    // The rows of the accounts named, copied one by one.
    method LockWalletBalances(ids: seq<AccountId>) returns (locked: map<AccountId, int>, err: Option<Error>)
      ensures err.None? <==> AllDistinct(ids) && forall a | a in ids :: a in balances
      ensures err.None? ==> forall a | a in ids :: a in locked && locked[a] == balances[a]
      ensures err.Some? ==> err == Some(WalletSetIncomplete)
    {
      locked := map[];
      var found := set a | a in ids && a in balances;
      var rows := found;
      while rows != {}
        invariant rows <= found && locked.Keys == found - rows
        invariant forall a | a in locked :: a in balances && locked[a] == balances[a]
        decreases |rows|
      {
        var a :| a in rows;
        locked := locked[a := balances[a]];
        rows := rows - {a};
      }
      DistinctCount(ids);
      assert locked.Keys == found && |locked| == |locked.Keys|;
      ghost var named := set a | a in ids;
      CountBelow(found, named);
      assert found == named <==> forall a | a in ids :: a in balances;
      return locked, if |locked| != |ids| then Some(WalletSetIncomplete) else None;
    }

    // Records a transaction under its business key, unless the key was used,
    // and applies its postings to the balances.
    method Post(key: BusinessKey, postings: seq<Posting>)
      requires forall i | 0 <= i < |postings| :: postings[i].account in balances
      modifies `balances, `log
      ensures Book(balances, log) == Ledger.Post(old(Book(balances, log)), key, postings)
      ensures balances.Keys == old(balances).Keys
    {
      assert key in Ledger.Keys(log) <==> exists t | t in log :: t.key == key;
      if exists t | t in log :: t.key == key { return; }
      log := log + [Transaction(key, postings)];
      ghost var start := balances;
      assert postings[..0] == [];
      for i := 0 to |postings|
        invariant balances == Credited(start, postings[..i]) && balances.Keys == start.Keys
        invariant log == old(log) + [Transaction(key, postings)]
      {
        var p := postings[i];
        assert postings[..i + 1][..i] == postings[..i];
        balances := balances[p.account := balances[p.account] + p.amount];
      }
      assert postings[..|postings|] == postings;
    }

    // ---- Rounds and money ----

    // Both stakes go to the escrow of the round.
    method TakeStakes(key: RoundKey, host: string, guest: string) returns (err: Option<Error>)
      modifies `balances, `log
      ensures match Stake(old(Book(balances, log)), key, host, guest)
              case Ok(book) => err.None? && Book(balances, log) == book
              case Err(e) => err == Some(e)
    {
      EnsureAccount(User(host));
      EnsureAccount(User(guest));
      EnsureAccount(Escrow(key));
      var ids := [User(host), User(guest), Escrow(key)];
      assert ids[0] == User(host) && ids[1] == User(guest) && ids[2] == Escrow(key);
      var locked;
      locked, err := LockWalletBalances(ids);
      if err.Some? { return; }
      for i := 0 to 2
        invariant forall j | 0 <= j < i :: balances[ids[j]] >= RoundStake
      {
        if locked[ids[i]] < RoundStake { return Some(InsufficientFunds); }
      }
      Post(StakeKey(key), StakePostings(host, guest, key));
    }

    method FundRound(code: string, round: nat, joining: Option<string>, now: int) returns (err: Option<Error>)
      requires code in rooms
      modifies this
      ensures Carries(Store.FundRound(old(State()), code, round, joining, now), err, State())
    {
      hide WithDeadline, Stake, DeadlineKnown;
      var rows := rooms[code];
      if round !in rows.rounds { rows := rows.(rounds := rows.rounds[round := FreshRound]); }
      rooms := rooms[code := rows];
      if rows.rounds[round].funded {
        ScheduleDeadline(code, round, Inactivity, round, now + InactivityLimit);
        return None;
      }
      var owners := SeatAccounts(rows);
      if joining.Some? { owners := owners + [joining.value]; }
      if |owners| != 2 { return Some(RoomNotReady); }
      err := TakeStakes(RoundKey(code, round), owners[0], owners[1]);
      if err.Some? { return; }
      rooms := rooms[code := WithRoundFunded(rows, round)];
      assert rooms == old(rooms)[code := WithRoundFunded(rows, round)];
      ScheduleDeadline(code, round, Inactivity, round, now + InactivityLimit);
      return None;
    }

    method SettleRound(code: string, s: RoomState) returns (err: Option<Error>)
      requires code in rooms
      modifies this
      ensures Carries(Store.SettleRound(old(State()), code, s), err, State())
    {
      var key := RoundKey(code, s.round);
      var owners := SeatAccounts(rooms[code]);
      if key in history { return None; }
      if |owners| != 2 { return Some(RoomNotReady); }
      var ids := [House, User(owners[0]), User(owners[1]), Escrow(key)];
      var locked;
      locked, err := LockWalletBalances(ids);
      LockedFour(ids, balances, owners[0], owners[1], key);
      if err.Some? { return; }
      if locked[Escrow(key)] != RoundStake * 2 { return Some(InvalidEscrow); }
      if exists t | t in log :: t.key == SettlementKey(key) { return None; }
      var effects := SettlementEffects(s.result, owners[0], owners[1], key);
      Post(SettlementKey(key), effects.postings);
      history := history[key := HistoryRow(owners[0], owners[1], s.result, effects.winner, s.forfeited != "", effects.houseEarnings)];
      return None;
    }

    // ---- Aggregates ----

    method DecodeAggregateRows(seats: seq<(Role, Player)>, moveRows: seq<(string, Move)>, requestRows: seq<string>)
      returns (players: seq<Player>, roles: map<Role, string>, moves: map<string, Move>, requests: set<string>)
      ensures |players| == |seats| && forall i | 0 <= i < |seats| :: players[i] == seats[i].1
      ensures roles == RolesFrom(seats) && moves == MovesOf(moveRows)
      ensures requests == set id | id in requestRows
    {
      players, roles, moves, requests := [], map[], map[], {};
      for i := 0 to |seats|
        invariant |players| == i && forall j | 0 <= j < i :: players[j] == seats[j].1
        invariant roles == RolesFrom(seats[..i])
      {
        assert seats[..i + 1][..i] == seats[..i];
        players := players + [seats[i].1];
        roles := roles[seats[i].0 := seats[i].1.id];
      }
      assert seats[..|seats|] == seats;
      for i := 0 to |moveRows|
        invariant moves == MovesOf(moveRows[..i])
      {
        assert moveRows[..i + 1][..i] == moveRows[..i];
        moves := moves[moveRows[i].0 := moveRows[i].1];
      }
      assert moveRows[..|moveRows|] == moveRows;
      for i := 0 to |requestRows|
        invariant requests == set id | id in requestRows[..i]
      {
        assert requestRows[..i + 1] == requestRows[..i] + [requestRows[i]];
        requests := requests + {requestRows[i]};
      }
      assert requestRows[..|requestRows|] == requestRows;
    }

    method Load(code: string) returns (room: R.Room?, roles: map<Role, string>, err: Option<Error>)
      ensures room != null ==> fresh(room) && room.Valid()
      ensures match Store.Load(State(), code)
              case Ok(s) => room != null && room.State() == s && err.None? && roles == RolesOf(rooms[code])
              case Err(e) => room == null && err == Some(e)
    {
      if code !in rooms || rooms[code].currentRound !in rooms[code].rounds { return null, map[], Some(NoRows); }
      var rows := rooms[code];
      var round := rows.rounds[rows.currentRound];
      var players, moves, requests;
      players, roles, moves, requests := DecodeAggregateRows(
        SeatRow(rows, Host) + SeatRow(rows, Guest), MoveRow(rows, Host) + MoveRow(rows, Guest), RequestRow(rows, Host) + RequestRow(rows, Guest));
      RolesOfRows(rows);
      MovesOfRows(rows);
      var state := RoomState(code, players, rows.currentRound, rows.closed, false, Unset, "", moves, requests);
      if round.result != Unset { state := state.(resolved := true, result := round.result); }
      if round.forfeitedRole.Some? {
        state := state.(forfeited := if round.forfeitedRole.value in roles then roles[round.forfeitedRole.value] else "");
      }
      assert state.players == SeatPlayers(rows.seats);
      assert state.requests == RoleRequest(rows, Host) + RoleRequest(rows, Guest);
      assert state == Persisted(code, rows);
      room, err := R.Restore(state);
    }

    // One input row per role: the roles of the loaded room, and the guest of an
    // aggregate that was just joined.
    method SaveInput(room: R.Room, roles: map<Role, string>) returns (input: seq<InputRow>)
      requires room.Valid() && RolesHold(room.State(), roles)
      ensures input == InputRowOf(room.State(), Host) + InputRowOf(room.State(), Guest)
    {
      var s := room.State();
      input := [];
      var order := [Host, Guest];
      for i := 0 to 2
        invariant input == (if i >= 1 then InputRowOf(s, Host) else []) + (if i >= 2 then InputRowOf(s, Guest) else [])
      {
        var role := order[i];
        var id := "";
        var ok := role in roles;
        if ok { id := roles[role]; }
        if !ok && role == Guest && |s.players| == 2 {
          id := s.players[1].id;
          ok := true;
        }
        if ok {
          var wins := WinsOf(s, id);
          input := input + [InputRow(role, wins, if id in s.moves then Some(s.moves[id]) else None, id in s.requests)];
        }
      }
    }

    method WinsOf(s: RoomState, id: string) returns (wins: int)
      requires WellFormed(s) && HasPlayer(s, id)
      ensures wins == if s.players[0].id == id then s.players[0].wins else s.players[1].wins
    {
      wins := 0;
      for j := 0 to |s.players|
        invariant forall k | 0 <= k < j && s.players[k].id == id :: wins == s.players[k].wins
      {
        if s.players[j].id == id { wins := s.players[j].wins; }
      }
    }

    method ForfeitedBy(s: RoomState, roles: map<Role, string>) returns (role: Option<Role>)
      requires WellFormed(s) && RolesHold(s, roles)
      ensures role == ForfeitedRole(s)
    {
      role := None;
      if !s.resolved { return; }
      var order := [Host, Guest];
      for i := 0 to 2
        invariant role == if i >= 1 && roles[Host] == s.forfeited then Some(Host)
                          else if i >= 2 && roles[Guest] == s.forfeited then Some(Guest) else None
      {
        if roles[order[i]] == s.forfeited { role := Some(order[i]); }
      }
    }

    // Writes the aggregate to the rows of its room with one statement.
    method Save(code: string, room: R.Room, roles: map<Role, string>, previousRound: nat, revision: nat)
      requires code in rooms && room.Valid() && RolesHold(room.State(), roles)
      modifies `rooms
      ensures rooms == old(rooms)[code := Saved(old(rooms)[code], room.State(), previousRound, revision)]
    {
      var s := room.State();
      var input := SaveInput(room, roles);
      var forfeitedRole := ForfeitedBy(s, roles);
      StatementSaves(rooms[code], s, previousRound, revision);
      rooms := rooms[code := SaveStatement(rooms[code], s, input, forfeitedRole, previousRound, revision)];
    }

    // ---- Commands ----

    // The receipt of an earlier command with the same key: its response, or a
    // conflict if it answered another request.
    method FindReceipt(account: string, command: Command) returns (replay: Option<Response>, err: Option<Error>)
      ensures replay.None? && err.None? <==> command.key !in receipts
      ensures command.key in receipts ==>
                if SameRequest(receipts[command.key], account, command)
                then replay == Some(receipts[command.key].response) && err.None?
                else replay.None? && err == Some(IdempotencyConflict)
    {
      if command.key !in receipts { return None, None; }
      var r := receipts[command.key];
      if r.account != account || r.operation != command.operation || r.hash != command.hash { return None, Some(IdempotencyConflict); }
      return Some(r.response), None;
    }

    method FinishReceipt(account: string, command: Command, response: Response, now: int)
      requires command.key !in receipts
      modifies `receipts
      ensures receipts == old(receipts)[command.key := Receipt(account, command.operation, command.hash, response, now + ReceiptRetention)]
    {
      receipts := receipts[command.key := Receipt(account, command.operation, command.hash, response, now + ReceiptRetention)];
    }

    // CreateCommand, after the receipt was looked up.
    method Create(aggregate: R.Room, account: string, now: int) returns (r: Result<Response, Error>)
      requires aggregate.Valid() && aggregate.State() == Fresh(aggregate.State().code, aggregate.State().players[0].id)
      modifies this
      ensures var s := aggregate.State(); Effected(CreateRoom(old(State()), s.code, s.players[0].id, account, now), r, State())
    {
      hide ViewOf, WithAccount;
      var s := aggregate.State();
      EnsureAccount(User(account));
      var locked, err := LockWalletBalances([User(account)]);
      assert [User(account)][0] == User(account);
      if err.Some? || locked[User(account)] < RoundStake { return Err(InsufficientFunds); }
      if s.code in rooms { return Err(DuplicateRoom); }
      rooms := rooms[s.code := RoomRows(false, 1, 1, map[Host := Seat(s.players[0].id, account, 0)], map[1 := FreshRound], map[], {}, map[])];
      err := InsertRevision(s.code, 1, now);
      if err.Some? { return Err(err.value); }
      var view := aggregate.PublicView();
      return Ok(RoomResponse(view, 1));
    }

    // recordRoomAction up to the action itself: who acts in which round.
    method LockRound(code: string, account: string, required: RoundStatus, expectedRound: nat) returns (role: Option<Role>, err: Option<Error>)
      ensures match ActionRole(State(), code, account, required, expectedRound)
              case Ok(r) => role == Some(r) && err.None?
              case Err(e) => err == Some(e)
    {
      if code !in rooms || rooms[code].currentRound !in rooms[code].rounds { return None, Some(RoomNotFound); }
      var rows := rooms[code];
      var round := rows.rounds[rows.currentRound];
      var ready := round.funded && Host in rows.seats && Guest in rows.seats;
      if rows.closed { return None, Some(RoomClosed); }
      if expectedRound != 0 && expectedRound != rows.currentRound { return None, Some(StaleRound); }
      if round.status != required { return None, Some(if required == Active then RoundResolved else RoundNotResolved); }
      role := RoleOf(rows, account);
      if role.None? { return None, Some(Unauthorized); }
      if !ready { return role, Some(RoomNotReady); }
      return role, None;
    }

    // The next revision of a room whose rows an action changed.
    method FinishAction(code: string, rows: RoomRows, resolved: bool, now: int) returns (r: Result<Response, Error>)
      modifies this
      ensures Effected(Recorded(old(State()), code, rows, resolved, now), r, State())
    {
      hide Keys.HintFits, Keys.Payload;
      var revision := rows.revision + 1;
      rooms := rooms[code := rows.(revision := revision)];
      var err := InsertRevision(code, revision, now);
      if err.Some? { return Err(err.value); }
      HintOf(code, rows.currentRound);
      if |Keys.Payload(code, rows.currentRound)| > 128 { return Err(HintTooLong); }
      return Ok(RecordedResponse(code, rows.currentRound, resolved, revision));
    }

    method SubmitMove(code: string, account: string, move: Move, now: int) returns (r: Result<Response, Error>)
      modifies this
      ensures Effected(RecordMove(old(State()), code, account, move, now), r, State())
    {
      hide ActionRole, Recorded;
      var role, err := LockRound(code, account, Active, 0);
      if err.Some? { return Err(err.value); }
      ActingRoom(State(), code, account, Active, 0);
      var key := RoundRole(rooms[code].currentRound, role.value);
      if key in rooms[code].moves { return Err(DuplicateMove); }
      r := FinishAction(code, rooms[code].(moves := rooms[code].moves[key := move]), false, now);
    }

    method RequestNextRound(code: string, account: string, round: nat, now: int) returns (r: Result<Response, Error>)
      modifies this
      ensures Effected(RecordRequest(old(State()), code, account, round, now), r, State())
    {
      hide ActionRole, Recorded;
      var role, err := LockRound(code, account, Resolved, round);
      if err.Some? { return Err(err.value); }
      ActingRoom(State(), code, account, Resolved, round);
      var key := RoundRole(rooms[code].currentRound, role.value);
      if key in rooms[code].requests { return Err(NextRoundRequested); }
      r := FinishAction(code, rooms[code].(requests := rooms[code].requests + {key}), true, now);
    }

    // The change a join makes: the aggregate, the stakes, the seat, the presence.
    method ChangeByJoin(code: string, room: R.Room, account: string, playerId: string, now: int) returns (err: Option<Error>)
      requires code in rooms && room.Valid()
      modifies this, room
      ensures match Game.Join(old(room.State()), playerId)
              case Err(e) => err == Some(e)
              case Ok(joined) =>
                && room.State() == joined && room.Valid()
                && Carries(SeatJoining(old(State()), code, joined.round, playerId, account, now), err, State())
    {
      hide Store.FundRound;
      err := room.Join(playerId);
      if err.Some? { return; }
      var role := RoleOf(rooms[code], account);
      if role.Some? { return Some(AccountSeated); }
      err := FundRound(code, room.round, Some(account), now);
      if err.Some? { return; }
      var rows := rooms[code];
      if Guest in rows.seats { return Some(RoomFull); }
      rooms := rooms[code := rows.(seats := rows.seats[Guest := Seat(playerId, account, 0)], presence := JoinedPresence(rows.presence))];
      return None;
    }

    // writeAccountCommand saves the changed aggregate and announces it.
    method SaveAndAnnounce(code: string, room: R.Room, roles: map<Role, string>, previousRound: nat, now: int) returns (err: Option<Error>)
      requires code in rooms && room.Valid() && RolesHold(room.State(), roles)
      modifies this
      ensures Carries(SaveAndBump(old(State()), code, room.State(), previousRound, now), err, State())
      ensures err.None? ==> code in rooms && rooms[code].revision == old(rooms[code].revision) + 1
    {
      hide Saved, RolesHold, WellFormed;
      var revision := rooms[code].revision + 1;
      SavedRevision(rooms[code], room.State(), previousRound, revision);
      Save(code, room, roles, previousRound, revision);
      err := InsertRevision(code, revision, now);
    }

    method Join(code: string, playerId: string, account: string, now: int) returns (r: Result<Response, Error>)
      requires Valid()
      modifies this
      ensures Effected(JoinRoom(old(State()), code, playerId, account, now), r, State())
    {
      hide DbOk, ViewOf, WellFormed, RolesHold, RolesOf, SeatJoining, Game.Join, Store.Load, SaveAndBump;
      if code !in rooms { return Err(RoomNotFound); }
      var room, roles, err := Load(code);
      if err.Some? { return Err(err.value); }
      ghost var s := room.State();
      LoadedRoles(State(), code);
      var previousRound := room.round;
      ghost var before := State();
      err := ChangeByJoin(code, room, account, playerId, now);
      JoinStops(before, code, playerId, account, now);
      if err.Some? { return Err(err.value); }
      roles := roles[Guest := playerId];
      JoinedRoles(s, roles, playerId);
      err := SaveAndAnnounce(code, room, roles, previousRound, now);
      if err.Some? { return Err(err.value); }
      var view := room.PublicView();
      return Ok(RoomResponse(view, rooms[code].revision));
    }

    method Leave(code: string, account: string, now: int) returns (r: Result<Response, Error>)
      requires Valid()
      modifies this
      ensures Effected(LeaveRoom(old(State()), code, account, now), r, State())
    {
      hide DbOk, RowsOk, ViewOf, WellFormed, RolesHold, RolesOf, RoleOf, Game.Leave, Store.Load, SaveAndBump;
      if code !in rooms { return Err(RoomNotFound); }
      var room, roles, err := Load(code);
      if err.Some? { return Err(err.value); }
      ghost var s := room.State();
      LoadedRoles(State(), code);
      var previousRound := room.round;
      var role := RoleOf(rooms[code], account);
      if role.None? { return Err(Unauthorized); }
      RoleOfSome(rooms[code], account);
      var id := rooms[code].seats[role.value].playerId;
      err := room.Leave(id);
      if err.Some? { return Err(err.value); }
      LeftRoles(s, roles, id);
      err := SaveAndAnnounce(code, room, roles, previousRound, now);
      if err.Some? { return Err(err.value); }
      var view := room.PublicView();
      return Ok(RoomResponse(view, rooms[code].revision));
    }

    // RechargeCommand, after the receipt was looked up.
    method Recharge(account: string, key: string, amount: int) returns (r: Result<Response, Error>)
      requires amount > 0 && Mint in balances
      modifies this
      ensures Effected(RechargeAccount(old(State()), account, key, amount), r, State())
    {
      EnsureAccount(User(account));
      if exists t | t in log :: t.key == RechargeKey(account, key) { return Err(UniqueViolation); }
      Post(RechargeKey(account, key), [Posting(Mint, -amount), Posting(User(account), amount)]);
      return Ok(BalanceResponse(balances[User(account)]));
    }

    // A command: its refusal, the first answer to its key, or its effect and
    // its receipt together.
    method Execute(account: string, command: Command, call: Call, now: int) returns (answer: Result<Reply, Error>)
      requires Valid()
      modifies this
      ensures Valid() && Answers(Store.Execute(old(State()), account, command, call, now), old(State()), answer, State())
    {
      hide DbOk, Effect;
      var before := State();
      CommandKeepsOk(before, account, command, call, now);
      var refusal := Refusal(account, call);
      if refusal.Some? { return Err(refusal.value); }
      var replay, err := FindReceipt(account, command);
      if err.Some? { return Err(err.value); }
      if replay.Some? { return Ok(Reply(replay.value, true)); }
      var r := Perform(account, command.key, call, now);
      EffectKeepsReceipts(before, account, command.key, call, now);
      match r {
        case Err(e) =>
          Rollback(before);
          return Err(e);
        case Ok(response) =>
          FinishReceipt(account, command, response, now);
          return Ok(Reply(response, false));
      }
    }

    method Perform(account: string, key: string, call: Call, now: int) returns (r: Result<Response, Error>)
      requires Valid() && Refusal(account, call).None?
      modifies this
      ensures Effected(Effect(old(State()), account, key, call, now), r, State())
    {
      hide DbOk, CreateRoom, JoinRoom, RecordMove, RecordRequest, LeaveRoom, RechargeAccount;
      match call {
        case CallCreate(code, playerId) =>
          var aggregate := new R.Room(Fresh(code, playerId));
          r := Create(aggregate, account, now);
        case CallJoin(code, playerId) => r := Join(code, playerId, account, now);
        case CallMove(code, move) => r := SubmitMove(code, account, move, now);
        case CallNextRound(code, round) => r := RequestNextRound(code, account, round, now);
        case CallLeave(code) => r := Leave(code, account, now);
        case CallRecharge(amount) =>
          MintExists(State());
          r := Recharge(account, key, amount);
      }
    }

    // ---- Reconciliation ----

    // claimRoomTransition: the round is marked as settling, if both moves or
    // both requests are there.
    method ClaimRoomTransition(code: string, round: nat) returns (transition: Option<Transition>)
      modifies `rooms
      ensures transition == Eligible(old(State()), code, round)
      ensures State() == if transition.None? then old(State()) else UnderClaim(old(State()), code, round)
    {
      if code !in rooms { return None; }
      var rows := rooms[code];
      ActionCounts(rows, round);
      if rows.closed || rows.currentRound != round || round !in rows.rounds { return None; }
      if rows.rounds[round].status == Active && rows.rounds[round].funded && |set k | k in rows.moves && k.round == round| == 2 {
        transition := Some(Resolving);
      } else if rows.rounds[round].status == Resolved && |set k | k in rows.requests && k.round == round| == 2 {
        transition := Some(Advancing);
      } else {
        return None;
      }
      rooms := rooms[code := rows.(rounds := rows.rounds[round := rows.rounds[round].(status := Settling)])];
    }

    // The claimed round is saved as resolved and settled, and its deadlines are cancelled.
    method ResolveClaimed(code: string, room: R.Room, roles: map<Role, string>, ghost before: Db, now: int) returns (err: Option<Error>)
      requires DbOk(before) && Eligible(before, code, room.round) == Some(Resolving) && State() == UnderClaim(before, code, room.round)
      requires Store.Load(before, code) == Ok(room.State()) && room.Valid() && roles == RolesOf(before.rooms[code])
      modifies this, room
      ensures Carries(Store.Resolve(before, code, old(room.State()), now), err, State())
    {
      hide DbOk, WellFormed, Saved, RolesOf, RolesHold, Eligible, Store.Load, Store.SettleRound, Game.ResolveCommittedMoves, WithCancelled, RoundDeadlines, Bump;
      ghost var rows := before.rooms[code];
      ResolvesUnderClaim(before, code, room.round, now);
      var previousRound := room.round;
      err := room.ResolveCommittedMoves(room.round);
      if err.Some? { return; }
      ghost var t := room.State();
      var revision := rooms[code].revision + 1;
      SavedRevision(rows, t, previousRound, revision);
      Save(code, room, roles, previousRound, revision);
      WithRoomTwice(before, code, ClaimedRows(rows, previousRound), rooms[code]);
      SettleThenAnnounce(State(), code, t, revision, WithCancelled(deadlines, RoundDeadlines(before, code, previousRound), now), now);
      err := SettleRound(code, room.State());
      if err.Some? { return; }
      ghost var settled := State();
      CancelledRound(before, code, previousRound, now);
      deadlines := map i | i in deadlines ::
        if deadlines[i].code == code && deadlines[i].round == previousRound && deadlines[i].status.Pending?
        then deadlines[i].(status := Cancelled, completedAt := Some(now)) else deadlines[i];
      assert State() == settled.(deadlines := WithCancelled(before.deadlines, RoundDeadlines(before, code, previousRound), now));
      err := InsertRevision(code, revision, now);
    }

    // The next round is saved and funded, and the claim on the last one is lifted.
    method AdvanceClaimed(code: string, room: R.Room, roles: map<Role, string>, ghost before: Db, now: int) returns (err: Option<Error>)
      requires DbOk(before) && Eligible(before, code, room.round) == Some(Advancing) && State() == UnderClaim(before, code, room.round)
      requires Store.Load(before, code) == Ok(room.State()) && room.Valid() && roles == RolesOf(before.rooms[code])
      modifies this, room
      ensures Carries(Store.Advance(before, code, old(room.State()), now), err, State())
    {
      hide DbOk, WellFormed, Saved, RolesOf, RolesHold, Eligible, Store.Load, Store.FundRound, Game.AdvanceCommittedNextRound, ClaimedRows, UnderClaim, Bump;
      AdvancesUnderClaim(before, code, room.round, now);
      var previousRound := room.round;
      err := room.AdvanceCommittedNextRound(room.round);
      if err.Some? { return; }
      ghost var t := room.State();
      var revision := rooms[code].revision + 1;
      ghost var saved := WithRoom(before, code, Saved(before.rooms[code], t, previousRound, revision));
      Save(code, room, roles, previousRound, revision);
      assert State() == UnderClaim(saved, code, previousRound);
      err := FundRound(code, room.round, None, now);
      if err.Some? { return; }
      ghost var funded := Store.FundRound(saved, code, t.round, None, now).value;
      ClaimIsLifted(funded, code, previousRound);
      if rooms[code].rounds[previousRound].status == Settling {
        var round := rooms[code].rounds[previousRound].(status := Resolved);
        rooms := rooms[code := rooms[code].(rounds := rooms[code].rounds[previousRound := round])];
      }
      assert State() == funded;
      err := InsertRevision(code, revision, now);
    }

    method ReconcileRoom(code: string, round: nat, now: int) returns (report: ReconciliationReport, err: Option<Error>)
      requires Valid()
      modifies this
      ensures Valid() && fresh(report) && report.Value() == ReportedFor(old(State()), code, round, now)
      ensures match Store.Reconcile(old(State()), code, round, now)
              case None => State() == old(State()) && err.None?
              case Some(Done(db, _)) => State() == db && err.None?
              case Some(Failed(e)) => State() == old(State()) && err == Some(e)
    {
      hide DbOk, Store.Load, Eligible, Store.Resolve, Store.Advance, UnderClaim, Keys.HintFits, Keys.Payload, WellFormed, RolesOf;
      report := new ReconciliationReport(1);
      err := None;
      var before := State();
      ReconciledIsOk(before, code, round, now);
      var transition := ClaimRoomTransition(code, round);
      if transition.None? {
        report.claimNoops := 1;
        return;
      }
      report.claimWins := 1;
      LoadUnderClaim(before, code, round);
      LoadErrors(before, code);
      var room, roles;
      room, roles, err := Load(code);
      if err.Some? {
        Rollback(before);
        return;
      }
      ClaimedRound(before, code, round);
      if transition == Some(Resolving) {
        err := ResolveClaimed(code, room, roles, before, now);
        if err.None? { report.settledRounds := 1; }
      } else {
        err := AdvanceClaimed(code, room, roles, before, now);
        if err.None? { report.advancedRounds := 1; }
      }
      NotTooLong(before, code, round, now);
      if err.Some? {
        Rollback(before);
        return;
      }
      HintOf(code, rooms[code].currentRound);
      if |Keys.Payload(code, rooms[code].currentRound)| > 128 {
        Rollback(before);
        return report, Some(HintTooLong);
      }
    }

    ghost predicate StillWaits(candidate: RoundKey)
      reads this
    {
      candidate.code in rooms && candidate.code in Waiting(State()) && candidate.round == rooms[candidate.code].currentRound
    }

    // Up to `limit` waiting rooms, in any order, and how many wait in all.
    method SelectEligible(limit: nat) returns (candidates: seq<RoundKey>, backlog: nat)
      ensures backlog == |Waiting(State())| && |candidates| == Smaller(limit, backlog)
      ensures forall i | 0 <= i < |candidates| :: StillWaits(candidates[i])
      ensures forall i, j | 0 <= i < j < |candidates| :: candidates[i].code != candidates[j].code
    {
      hide Waiting;
      var eligible := EligibleCodes();
      backlog := |eligible|;
      candidates := seq(Smaller(limit, backlog), i requires 0 <= i < |eligible| && eligible[i] in rooms reads this =>
                        RoundKey(eligible[i], rooms[eligible[i]].currentRound));
    }

    method EligibleCodes() returns (eligible: seq<string>)
      ensures |eligible| == |Waiting(State())|
      ensures forall i | 0 <= i < |eligible| :: eligible[i] in rooms && eligible[i] in Waiting(State())
      ensures forall i, j | 0 <= i < j < |eligible| :: eligible[i] != eligible[j]
    {
      hide Waiting, Eligible;
      eligible := [];
      var codes := rooms.Keys;
      ghost var waiting := Waiting(State());
      ghost var found: set<string> := {};
      while codes != {}
        invariant codes <= rooms.Keys && found == waiting - codes && |eligible| == |found|
        invariant forall i | 0 <= i < |eligible| :: eligible[i] in found
        invariant forall i, j | 0 <= i < j < |eligible| :: eligible[i] != eligible[j]
        decreases |codes|
      {
        var code :| code in codes;
        codes := codes - {code};
        var waits := IsWaiting(code);
        if waits {
          assert code !in found && waiting - codes == found + {code};
          found := found + {code};
          eligible := eligible + [code];
        } else {
          assert waiting - codes == found;
        }
      }
      assert found == waiting;
    }

    // The eligibility query for the current round of one room.
    method IsWaiting(code: string) returns (waits: bool)
      requires code in rooms
      ensures waits <==> code in Waiting(State())
    {
      var rows := rooms[code];
      var n := rows.currentRound;
      ActionCounts(rows, n);
      if rows.closed || n !in rows.rounds { return false; }
      var round := rows.rounds[n];
      return (round.status == Active && round.funded && |set k | k in rows.moves && k.round == n| == 2)
          || (round.status == Resolved && |set k | k in rows.requests && k.round == n| == 2);
    }

    // Reconciling a room that still waits: it is transitioned, or left as it is.
    method ReconcileWaiting(candidate: RoundKey, now: int) returns (one: ReconciliationReport, err: Option<Error>)
      requires Valid() && StillWaits(candidate)
      modifies this
      ensures Valid() && fresh(one)
      ensures State() == Next(old(State()), TxReconcile(candidate.code, candidate.round, now))
      ensures |Waiting(State())| == |old(Waiting(State()))| - if err.None? then 1 else 0
      ensures forall k | old(StillWaits(k)) && k.code != candidate.code :: StillWaits(k)
      ensures var c := one.Value();
              && c.attempts == c.wins == 1 && c.noops == 0 && c.failures == 0 && c.backlog == 0
              && c.settled + c.advanced <= 1 && (err.None? ==> c.settled + c.advanced == 1)
    {
      hide DbOk, Waiting, Reconcile, ReportedFor;
      TransitionEndsTheWait(State(), candidate.code, now);
      ReportOfWaiting(State(), candidate.code, now);
      SetsSplit(Waiting(State()), {candidate.code});
      one, err := ReconcileRoom(candidate.code, candidate.round, now);
    }

    // One batch: the waiting rooms it selects are reconciled one after another.
    // Undisturbed it meets no round that is no longer eligible, and every
    // success takes one room off the waiting list.
    method ReconcileBatch(limit: int, now: int) returns (report: ReconciliationReport, failed: bool, ghost steps: seq<Tx>)
      requires Valid()
      modifies this
      ensures Valid() && fresh(report)
      ensures State() == Store.Run(old(State()), steps) && AllReconcile(steps) && |steps| == report.Value().attempts
      ensures var waiting, batch := |Waiting(old(State()))|, if limit <= 0 then 32 else limit;
              BatchCounts(report.Value(), waiting, batch, |Waiting(State())|)
      ensures failed <==> report.failures > 0
    {
      hide Valid, State, Waiting, Next;
      var batch := if limit <= 0 then 32 else limit;
      var candidates, backlog := SelectEligible(batch);
      report := new ReconciliationReport(0);
      report.eligibleBacklog := backlog;
      failed := false;
      steps := [];
      ghost var before := State();
      for i := 0 to |candidates|
        invariant Valid() && fresh(report)
        invariant State() == Store.Run(before, steps) && AllReconcile(steps) && |steps| == i
        invariant forall j | i <= j < |candidates| :: StillWaits(candidates[j])
        invariant var c := report.Value();
                  && c.attempts == c.wins == i && c.noops == 0 && c.backlog == backlog && c.failures <= i
                  && i - c.failures <= c.settled + c.advanced <= i
                  && |Waiting(State())| + i == backlog + c.failures && (failed <==> c.failures > 0)
      {
        var one, err := ReconcileWaiting(candidates[i], now);
        RunThen(before, steps, TxReconcile(candidates[i].code, candidates[i].round, now));
        steps := steps + [TxReconcile(candidates[i].code, candidates[i].round, now)];
        report.Add(one);
        if err.Some? {
          report.failures := report.failures + 1;
          failed := true;
        }
      }
    }

    // The drain: batches until one is not full or something fails.
    method Drain(batchSize: nat, maxBatches: nat, now: int) returns (total: ReconciliationReport, failed: bool, ghost steps: seq<Tx>)
      requires Valid() && batchSize > 0
      modifies this
      ensures Valid() && fresh(total)
      ensures State() == Store.Run(old(State()), steps) && AllReconcile(steps) && |steps| == total.Value().attempts
      ensures DrainCounts(total.Value(), |Waiting(old(State()))|, batchSize * maxBatches, |Waiting(State())|)
      ensures failed <==> total.failures > 0
    {
      hide Valid, State, Waiting, Next;
      ghost var waiting := |Waiting(State())|;
      ghost var before := State();
      total := new ReconciliationReport(0);
      failed, steps := false, [];
      for i := 0 to maxBatches
        invariant Valid() && fresh(total)
        invariant State() == Store.Run(before, steps) && AllReconcile(steps) && |steps| == total.Value().attempts
        invariant var c := total.Value();
                  && c.attempts == c.wins == c.settled + c.advanced == i * batchSize && c.noops == 0 && c.failures == 0
                  && waiting == |Waiting(State())| + i * batchSize
      {
        var report, err;
        ghost var more;
        report, err, more := ReconcileBatch(batchSize, now);
        RunFurther(before, steps, more);
        steps := steps + more;
        total.Add(report);
        MoreBatches(i, maxBatches, batchSize);
        if err || report.claimAttempts < batchSize { return total, err, steps; }
      }
    }

    // ---- Presence ----

    method AdvancePresenceRevision(code: string, now: int) returns (err: Option<Error>)
      requires code in rooms
      modifies `rooms, `box
      ensures var revision := old(rooms)[code].revision + 1;
              Carries(Bump(WithRoom(old(State()), code, old(rooms)[code].(revision := revision)), code, revision, now), err, State())
    {
      var revision := rooms[code].revision + 1;
      rooms := rooms[code := rooms[code].(revision := revision)];
      err := InsertRevision(code, revision, now);
    }

    method OpenConnection(id: string, code: string, account: string, sessionValid: bool, now: int, lease: int) returns (err: Option<Error>)
      requires Valid()
      modifies this
      ensures Valid() && Commits(Store.OpenConnection(old(State()), id, code, account, sessionValid, now, lease), old(State()), err, State())
    {
      hide DbOk, RoleOf, Bump, WithCancelled;
      var before := State();
      OpenedIsOk(before, id, code, account, sessionValid, now, lease);
      if lease <= now { return Some(InvalidLease); }
      if code !in rooms { return Some(RoomNotFound); }
      var rows := rooms[code];
      var role := RoleOf(rows, account);
      if role.None? || !sessionValid { return Some(Unauthorized); }
      if id in connections { return Some(UniqueViolation); }
      connections := connections[id := Connection(code, role.value, now, lease, None)];
      var generation := 1;
      if role.value in rows.presence {
        generation := rows.presence[role.value].generation;
        if rows.presence[role.value].present { return None; }
        deadlines := WaitingCancelled(deadlines, code, rows.currentRound, role.value, generation, now);
      }
      rooms := rooms[code := rows.(presence := rows.presence[role.value := Presence(generation, true)])];
      OpenedRows(before, code, role.value, generation, now);
      err := AdvancePresenceRevision(code, now);
      if err.Some? { Rollback(before); }
    }

    method RenewConnection(id: string, sessionValid: bool, now: int, lease: int) returns (err: Option<Error>)
      requires Valid()
      modifies this
      ensures Valid() && Commits(Store.RenewConnection(old(State()), id, sessionValid, now, lease), old(State()), err, State())
    {
      hide DbOk;
      NextKeepsOk(State(), TxRenew(id, sessionValid, now, lease));
      if lease <= now { return Some(InvalidLease); }
      if id !in connections || connections[id].closedAt.Some? || !sessionValid { return Some(Unauthorized); }
      if lease <= connections[id].connectedAt { return Some(CheckViolation); }
      connections := connections[id := connections[id].(leaseExpiresAt := lease)];
      return None;
    }

    // Whether the seat holds a connection that is open and whose lease runs.
    method IsLive(code: string, role: Role, now: int) returns (live: bool)
      ensures live <==> LiveRole(State(), code, role, now)
    {
      live := exists k | k in connections ::
        connections[k].code == code && connections[k].role == role && connections[k].closedAt.None? && connections[k].leaseExpiresAt > now;
    }

    method CloseConnection(id: string, at: int, expiredBy: Option<int>) returns (closed: bool, err: Option<Error>)
      requires Valid()
      modifies this
      ensures Valid()
      ensures match Store.CloseConnection(old(State()), id, at, expiredBy)
              case Done(db, answer) => State() == db && err.None? && closed == answer
              case Failed(e) => State() == old(State()) && err == Some(e) && !closed
    {
      hide DbOk, WithDeadline, LiveRole, Bump;
      var before := State();
      ClosedIsOk(before, id, at, expiredBy);
      if id !in connections || connections[id].code !in rooms || connections[id].role !in rooms[connections[id].code].seats { return false, None; }
      var c := connections[id];
      var rows := rooms[c.code];
      if c.closedAt.Some? || (expiredBy.Some? && c.leaseExpiresAt > expiredBy.value) { return false, None; }
      if at < c.connectedAt { return false, Some(CheckViolation); }
      connections := connections[id := c.(closedAt := Some(at))];
      var active := IsLive(c.code, c.role, at);
      if active { return true, None; }
      if c.role !in rows.presence {
        Rollback(before);
        return false, Some(NoRows);
      }
      if !rows.presence[c.role].present { return true, None; }
      err := MarkAbsent(c.code, c.role, at);
      if err.Some? {
        Rollback(before);
        return false, err;
      }
      return true, None;
    }

    // The role starts a new generation, absent, with a deadline to return by.
    method MarkAbsent(code: string, role: Role, at: int) returns (err: Option<Error>)
      requires code in rooms && role in rooms[code].presence
      modifies `rooms, `deadlines, `nextDeadline, `box
      ensures var rows := old(rooms)[code];
              var gone := PresenceChanged(rows, role, Presence(rows.presence[role].generation + 1, false));
              Carries(Bump(WithDeadline(WithRoom(old(State()), code, gone), code, rows.currentRound, Disconnect(role),
                                        rows.presence[role].generation + 1, at + DisconnectGrace), code, gone.revision, at), err, State())
    {
      hide WithDeadline, Bump;
      ghost var before := State();
      var rows := rooms[code];
      var generation := rows.presence[role].generation + 1;
      var gone := rows.(presence := rows.presence[role := Presence(generation, false)]);
      rooms := rooms[code := gone];
      ScheduledThenCounted(before, code, gone, gone.(revision := rows.revision + 1), Disconnect(role), generation, at + DisconnectGrace);
      ScheduleDeadline(code, rows.currentRound, Disconnect(role), generation, at + DisconnectGrace);
      err := AdvancePresenceRevision(code, at);
    }

    // The expired connections, in any order.
    method ExpiredConnections(now: int) returns (ids: seq<string>)
      ensures NoDuplicates(ids) && forall id :: id in ids <==> id in Overdue(State(), now)
    {
      ids := [];
      var left := connections.Keys;
      while left != {}
        invariant left <= connections.Keys && NoDuplicates(ids)
        invariant forall id :: id in ids <==> id in Overdue(State(), now) && id !in left
        decreases |left|
      {
        var id :| id in left;
        left := left - {id};
        if connections[id].closedAt.None? && connections[id].leaseExpiresAt <= now { ids := ids + [id]; }
      }
    }

    // Each expired connection is closed as of the end of its lease; undisturbed
    // none fails, and whoever is present afterwards holds a live lease.
    method ReapExpiredConnections(now: int) returns (reaped: nat, err: Option<Error>, ghost ids: seq<string>)
      requires Valid()
      modifies this
      ensures Valid() && err.None? && reaped == |Overdue(old(State()), now)| && Overdue(State(), now) == {}
      ensures NoDuplicates(ids) && (forall id :: id in ids <==> id in Overdue(old(State()), now)) && State() == Reaped(old(State()), ids, now)
      ensures forall code, role | code in rooms && role in rooms[code].presence && rooms[code].presence[role].present ::
                LiveRole(State(), code, role, now)
    {
      hide DbOk, Store.CloseConnection, LiveRole, Overdue;
      var expired := ExpiredConnections(now);
      ids := expired;
      var leases := map id | id in connections :: connections[id].leaseExpiresAt;
      reaped := 0;
      err := None;
      ghost var before := State();
      assert ids[..0] == [];
      for i := 0 to |expired|
        invariant Valid() && State() == Reaped(before, ids[..i], now) && reaped == i && err.None?
      {
        ReapedSoFar(before, ids, i, now);
        ClosesOne(State(), ids[i], now);
        var closed;
        closed, err := CloseConnection(expired[i], leases[expired[i]], Some(now));
        assert ids[..i + 1][..i] == ids[..i];
        if err.Some? { return; }
        if closed { reaped := reaped + 1; }
      }
      assert ids[..|ids|] == ids;
      CountExpired(before, ids, now);
      forall code, role | code in rooms && role in rooms[code].presence && rooms[code].presence[role].present
        ensures LiveRole(State(), code, role, now) {
        ReapedPresenceIsLive(before, ids, now, code, role);
      }
      ReapedPresenceIsLive(before, ids, now, "", Host);
    }

    // ---- Deadlines ----

    // The first of the deadlines in the worker's order.
    method FirstDeadline(ids: set<nat>) returns (first: nat)
      requires ids <= deadlines.Keys && ids != {}
      ensures IsFirst(State(), ids, first)
    {
      var left := ids;
      first :| first in left;
      left := left - {first};
      while left != {}
        invariant left <= ids && first in ids && first !in left
        invariant forall j | j in ids && j !in left && j != first :: Before(State(), first, j)
        decreases |left|
      {
        var i :| i in left;
        left := left - {i};
        var d, e := deadlines[i], deadlines[first];
        if d.dueAt < e.dueAt || (d.dueAt == e.dueAt && (if d.kind.Disconnect? == e.kind.Disconnect? then i < first else d.kind.Disconnect?)) {
          first := i;
        }
      }
    }

    // The rows of a query ordered by due time, kind and id.
    method OrderedDeadlines(ids: set<nat>) returns (list: seq<nat>)
      requires ids <= deadlines.Keys
      ensures forall i :: i in list <==> i in ids
      ensures forall i, j | 0 <= i < j < |list| :: list[i] in ids && list[j] in ids && Before(State(), list[i], list[j])
    {
      hide Before;
      list := [];
      var left := ids;
      while left != {}
        invariant left <= ids && forall i :: i in list <==> i in ids && i !in left
        invariant forall i, j | 0 <= i < j < |list| :: list[i] in ids && list[j] in ids && Before(State(), list[i], list[j])
        invariant forall i, j | 0 <= i < |list| && j in left :: list[i] in ids && Before(State(), list[i], j)
        decreases |left|
      {
        var first := FirstDeadline(left);
        list := list + [first];
        left := left - {first};
      }
    }

    method CancelDeadline(i: nat, now: int)
      requires i in deadlines && deadlines[i].status.Pending?
      modifies `deadlines
      ensures State() == Cancel(old(State()), {i}, now)
    {
      deadlines := deadlines[i := deadlines[i].(status := Cancelled, completedAt := Some(now))];
      assert deadlines == WithCancelled(old(deadlines), {i}, now);
    }

    // Whether a due deadline of the room may decide its current round.
    method CheckApplicable(i: nat, code: string, round: nat, room: R.Room, ghost before: Db) returns (applicable: bool)
      requires code in rooms && round in rooms[code].rounds && rooms[code].currentRound == round
      requires room.State() == Persisted(code, rooms[code])
      requires before.rooms == rooms && i in deadlines && i in before.deadlines && before.deadlines[i] == deadlines[i] && deadlines[i].code == code
      ensures applicable <==> Applicable(before, i)
    {
      hide Persisted;
      var d := deadlines[i];
      ApplicableHere(before, i, code, round, room.State());
      applicable := room.round == round && !room.resolved && !room.closed;
      if applicable { applicable := rooms[code].rounds[round].funded; }
      if applicable && d.kind.Disconnect? {
        var rows := rooms[code];
        applicable := d.kind.role in rows.seats && d.kind.role in rows.presence
                   && rows.presence[d.kind.role].generation == d.generation && !rows.presence[d.kind.role].present;
      }
    }

    // nextApplicableDeadline: the first applicable due deadline of the room;
    // those before it are cancelled.
    method NextApplicableDeadline(code: string, round: nat, room: R.Room, now: int) returns (found: Option<nat>)
      requires code in rooms && round in rooms[code].rounds && rooms[code].currentRound == round && room.Valid()
      requires room.State() == Persisted(code, rooms[code])
      modifies `deadlines
      ensures match found
              case None => ApplicableOfRoom(old(State()), code, now) == {} && State() == Cancel(old(State()), DueOfRoom(old(State()), code, now), now)
              case Some(i) =>
                && IsFirst(old(State()), ApplicableOfRoom(old(State()), code, now), i)
                && State() == Cancel(old(State()), Skipped(old(State()), code, i, now), now)
    {
      hide Before, Applicable, Persisted, WellFormed, Cancel, DueOfRoom, ApplicableOfRoom, IsFirst, Prefix;
      ghost var before := State();
      var due := DueDeadlines(code, now);
      var list := OrderedDeadlines(due);
      CancelPrefix(before, list, 0, now);
      for k := 0 to |list|
        invariant State() == Cancel(before, Prefix(list, k), now)
        invariant forall j | 0 <= j < k :: list[j] in due && !Applicable(before, list[j])
      {
        var i := list[k];
        assert i in list;
        NotEarlier(before, list, k, due);
        CancelPrefix(before, list, k, now);
        DueFacts(before, code, now, i);
        var applicable := CheckApplicable(i, code, round, room, before);
        if applicable {
          FirstInList(before, list, k, due, code, now);
          return Some(i);
        }
        CancelDeadline(i, now);
      }
      NoneInList(before, list, due, code, now);
      return None;
    }

    method DueDeadlines(code: string, now: int) returns (due: set<nat>)
      ensures due == DueOfRoom(State(), code, now)
    {
      due := set i | i in deadlines && deadlines[i].status.Pending? && deadlines[i].dueAt <= now && deadlines[i].code == code;
    }

    // activeRoles: which seats hold a live connection.
    method ActiveRoles(code: string, now: int) returns (present: map<Role, bool>)
      requires code in rooms
      ensures present.Keys == rooms[code].seats.Keys && forall role | role in present :: present[role] <==> LiveRole(State(), code, role, now)
    {
      present := map[];
      var seats := rooms[code].seats.Keys;
      var left := seats;
      while left != {}
        invariant left <= seats && present.Keys == seats - left
        invariant forall role | role in present :: present[role] <==> LiveRole(State(), code, role, now)
        decreases |left|
      {
        var role :| role in left;
        left := left - {role};
        var active := IsLive(code, role, now);
        present := present[role := active];
      }
    }


    // The verdict of the chosen deadline, applied to the aggregate: nothing when
    // the absent role turns out to be connected.
    method ApplyVerdict(i: nat, room: R.Room, roles: map<Role, string>, now: int, ghost before: Db) returns (verdict: Option<Option<Error>>)
      requires i in deadlines && i in before.deadlines && SameDeadline(before.deadlines[i], deadlines[i])
      requires deadlines[i].code in rooms && connections == before.connections
      requires room.Valid() && |room.State().players| == 2 && SeatedRoles(room.State(), roles)
      requires rooms[deadlines[i].code].seats.Keys == {Host, Guest}
      modifies room
      ensures match Verdict(before, i, old(room.State()), now)
              case None => verdict.None? && room.State() == old(room.State())
              case Some(Ok(t)) => verdict == Some(None) && room.State() == t && room.Valid()
              case Some(Err(e)) => verdict == Some(Some(e)) && room.State() == old(room.State())
    {
      hide WellFormed, LiveRole;
      var d := deadlines[i];
      var err;
      if d.kind.Disconnect? {
        var present := ActiveRoles(d.code, now);
        LiveRoleFrame(State(), before, d.code, d.kind.role, now);
        LiveRoleFrame(State(), before, d.code, Other(d.kind.role), now);
        var otherRole := if d.kind.role == Host then Guest else Host;
        if present[d.kind.role] { return None; }
        if present[otherRole] {
          err := room.Forfeit(roles[d.kind.role], room.round);
        } else {
          err := room.ResolveDeadlineDraw(room.round);
        }
      } else {
        err := room.ResolveInactivity(room.round);
      }
      return Some(err);
    }

    // The round a deadline decided is saved, settled and announced, and its
    // deadlines are concluded.
    method SaveVerdict(code: string, i: nat, room: R.Room, roles: map<Role, string>, previousRound: nat, now: int, ghost pruned: Db) returns (err: Option<Error>)
      requires code in pruned.rooms && previousRound in pruned.rooms[code].rounds && State() == UnderClaim(pruned, code, previousRound)
      requires room.Valid() && RolesHold(room.State(), roles) && room.round == previousRound
      requires Bump(WithRoom(pruned, code, Saved(pruned.rooms[code], room.State(), previousRound, pruned.rooms[code].revision + 1)),
                    code, pruned.rooms[code].revision + 1, now).Ok?
      modifies this
      ensures Carries(SaveAndSettle(pruned, code, room.State(), Concluded(pruned.deadlines, code, previousRound, i, now), now), err, State())
    {
      hide WellFormed, Saved, RolesHold, Store.SettleRound, Concluded, ClaimedRows, Bump;
      ghost var t := room.State();
      ClaimedRevision(pruned.rooms[code], previousRound);
      var revision := rooms[code].revision + 1;
      SavedOverClaim(pruned.rooms[code], t, previousRound, revision);
      SavedRevision(pruned.rooms[code], t, previousRound, revision);
      Save(code, room, roles, previousRound, revision);
      WithRoomTwice(pruned, code, ClaimedRows(pruned.rooms[code], previousRound), rooms[code]);
      SettleThenAnnounce(State(), code, t, revision, deadlines, now);
      err := SettleRound(code, room.State());
      if err.Some? { return; }
      err := InsertRevision(code, revision, now);
      if err.Some? { return; }
      ConcludedRows(deadlines, code, previousRound, i, now);
      deadlines := map j | j in deadlines ::
        var d := deadlines[j];
        if d.code == code && d.round == previousRound && d.status.Pending?
        then d.(status := if j == i then Completed else Cancelled, completedAt := Some(now)) else d;
    }

    method ReleaseClaim(code: string, round: nat)
      requires code in rooms && round in rooms[code].rounds
      modifies `rooms
      ensures rooms == (if old(rooms)[code].rounds[round].status.Settling?
                        then old(rooms)[code := WithStatus(old(rooms)[code], round, Active)] else old(rooms))
    {
      if rooms[code].rounds[round].status == Settling { rooms := rooms[code := WithStatus(rooms[code], round, Active)]; }
    }

    // The claimed round, decided by the first applicable deadline of its room.
    method DecideClaimed(code: string, room: R.Room, roles: map<Role, string>, now: int, ghost before: Db, ghost candidate: nat)
      returns (answer: DeadlineAnswer, err: Option<Error>)
      requires DbOk(before) && DueIds(before, now) != {} && candidate == First(before, DueIds(before, now))
      requires before.deadlines[candidate].code == code && DeadlineClaims(before, candidate) && State() == UnderClaim(before, code, room.round)
      requires Store.Load(before, code) == Ok(room.State()) && room.Valid() && roles == RolesOf(before.rooms[code])
      modifies this, room
      ensures err.None? && ProcessDeadline(before, now) == Done(State(), answer)
    {
      hide DbOk, WellFormed, Saved, Persisted, RolesOf, RolesHold, SeatedRoles, Store.Load, Before, Applicable, Verdict, Concluded, Cancel, Due;
      hide DeadlineClaims, SaveAndSettle, IsFirst, ClaimedRows, DueOfRoom, ApplicableOfRoom, UnderClaim, RowsOk, RoundStillOpen;
      var s := room.State();
      var round := room.round;
      CandidateIsFirst(before, now);
      ClaimFacts(before, candidate, room.State(), now);
      ClaimKeepsDeadlines(before, code, round, now);
      var found := NextApplicableDeadline(code, round, room, now);
      ghost var due := DueOfRoom(before, code, now);
      if found.None? {
        CancelUnderClaim(before, code, round, due, now);
        ClaimKeepsDeadlines(Cancel(before, due, now), code, round, now);
        ClaimReleased(Cancel(before, due, now), code, round);
        ReleaseClaim(code, round);
        return Stale, None;
      }
      var chosen := found.value;
      FirstIsUnique(before, ApplicableOfRoom(before, code, now), chosen);
      FirstIsDue(before, code, chosen, now);
      ghost var skipped := Skipped(before, code, chosen, now);
      ghost var pruned := Cancel(before, skipped, now);
      CancelUnderClaim(before, code, round, skipped, now);
      ChosenFacts(before, code, chosen, skipped, now);
      ClaimKeepsDeadlines(pruned, code, round, now);
      CancelKeepsOk(before, skipped, now);
      SettledByDeadline(before, code, chosen, skipped, s, now);
      var verdict := ApplyVerdict(chosen, room, roles, now, before);
      if verdict == Some(None) {
        VerdictRoles(before, chosen, s, roles, now);
        SavePossible(pruned, code, room.State(), now);
        err := SaveVerdict(code, chosen, room, roles, round, now, pruned);
        return Settled(chosen, s, room.State()), err;
      }
      CancelUnderClaim(pruned, code, round, {chosen}, now);
      CancelDeadline(chosen, now);
      ClaimKeepsDeadlines(Cancel(pruned, {chosen}, now), code, round, now);
      ClaimReleased(Cancel(pruned, {chosen}, now), code, round);
      ReleaseClaim(code, round);
      return Stale, None;
    }


    method ProcessNextDeadline(now: int) returns (answer: DeadlineAnswer, err: Option<Error>)
      requires Valid()
      modifies this
      ensures Valid() && err.None? && ProcessDeadline(old(State()), now) == Done(State(), answer)
    {
      hide DbOk, Before, Due, RoundStillOpen, ProcessDeadline, UnderClaim, ClaimedRows, Store.Load, WellFormed, RolesOf, IsFirst;
      ghost var before := State();
      DeadlineKeepsOk(before, now);
      var due := AllDue(now);
      if due == {} {
        IdleKeeps(before, now);
        return Idle, None;
      }
      var candidate := FirstDeadline(due);
      FirstOf(before, due, candidate);
      var code, round := deadlines[candidate].code, deadlines[candidate].round;
      var open := code in rooms && !rooms[code].closed && rooms[code].currentRound == round && round in rooms[code].rounds
                  && rooms[code].rounds[round].status == Active;
      NotClaimed(before, candidate, now);
      if !open || !rooms[code].rounds[round].funded {
        if !open {
          CandidatePending(before, candidate, now);
          CancelDeadline(candidate, now);
        }
        return Stale, None;
      }
      rooms := rooms[code := WithStatus(rooms[code], round, Settling)];
      ClaimIs(before, code, round);
      ClaimLoads(before, candidate, round);
      var room, roles;
      room, roles, err := Load(code);
      answer, err := DecideClaimed(code, room, roles, now, before, candidate);
    }

    method AllDue(now: int) returns (due: set<nat>)
      ensures due == DueIds(State(), now)
    {
      due := set i | i in deadlines && deadlines[i].status.Pending? && deadlines[i].dueAt <= now;
    }

    method CleanupDeadlines(before: int) returns (removed: nat)
      requires Valid()
      modifies this
      ensures Valid() && State() == Store.CleanupDeadlines(old(State()), before)
      ensures removed == |old(deadlines)| + |old(connections)| - |deadlines| - |connections|
    {
      hide DbOk;
      NextKeepsOk(State(), TxCleanupDeadlines(before));
      var allDeadlines, allConnections := deadlines, connections;
      deadlines := map i | i in deadlines &&
        !(!deadlines[i].status.Pending? && deadlines[i].completedAt.Some? && deadlines[i].completedAt.value < before) :: deadlines[i];
      connections := map c | c in connections && !(connections[c].closedAt.Some? && connections[c].closedAt.value < before) :: connections[c];
      FewerRows(allDeadlines, deadlines);
      FewerRows(allConnections, connections);
      return (|allDeadlines| - |deadlines|) + (|allConnections| - |connections|);
    }

    method CleanupCommandReceipts(now: int)
      requires Valid()
      modifies this
      ensures Valid() && State() == CleanupReceipts(old(State()), now)
    {
      hide DbOk;
      NextKeepsOk(State(), TxCleanupReceipts(now));
      receipts := map k | k in receipts && receipts[k].expiresAt > now :: receipts[k];
    }

    method Balance(account: string) returns (balance: int)
      requires Valid()
      modifies this
      ensures Valid() && State() == Next(old(State()), TxBalance(account)) && balance == Lookup(balances, User(account))
    {
      hide DbOk;
      NextKeepsOk(State(), TxBalance(account));
      EnsureAccount(User(account));
      return balances[User(account)];
    }
  }

  // What a successful or failed effect answers.
  ghost predicate Effected(attempt: Attempt<Response>, r: Result<Response, Error>, after: Db) {
    match attempt
    case Done(db, response) => after == db && r == Ok(response)
    case Failed(e) => r == Err(e)
  }

  lemma {:induction false} MintExists(db: Db)
    requires DbOk(db)
    ensures Mint in db.funds.book.balances
  {}

  lemma {:induction false} SavedRevision(rows: RoomRows, s: RoomState, previousRound: nat, revision: nat)
    ensures Saved(rows, s, previousRound, revision).revision == revision
  {}

  lemma {:induction false} ActingRoom(db: Db, code: string, account: string, required: RoundStatus, expectedRound: nat)
    requires ActionRole(db, code, account, required, expectedRound).Ok?
    ensures code in db.rooms
  {}

  // How a join that fails before saving is reported.
  lemma {:induction false} JoinStops(db: Db, code: string, playerId: string, account: string, now: int)
    requires Store.Load(db, code).Ok?
    ensures var s := Store.Load(db, code).value;
            match Game.Join(s, playerId)
            case Err(e) => JoinRoom(db, code, playerId, account, now) == Failed(e)
            case Ok(joined) =>
              && joined.round == s.round
              && match SeatJoining(db, code, s.round, playerId, account, now)
                 case Err(e) => JoinRoom(db, code, playerId, account, now) == Failed(e)
                 case Ok(_) => true
  {
    hide SeatJoining, SaveAndBump, WellFormed, ViewOf;
  }

  // A loaded room has its players in its seats.
  lemma {:induction false} LoadedRoles(db: Db, code: string)
    requires DbOk(db) && Store.Load(db, code).Ok?
    ensures code in db.rooms && RowsOk(db.rooms[code]) && code != ""
    ensures var s := Store.Load(db, code).value; SeatedRoles(s, RolesOf(db.rooms[code])) && WellFormed(s)
  {
    PersistedIsWellFormed(code, db.rooms[code]);
  }

  predicate SeatedRoles(s: RoomState, roles: map<Role, string>) {
    && |s.players| > 0 && Host in roles && roles[Host] == s.players[0].id
    && (Guest in roles <==> |s.players| == 2) && (Guest in roles ==> roles[Guest] == s.players[1].id)
  }

  lemma {:induction false} JoinedRoles(s: RoomState, roles: map<Role, string>, playerId: string)
    requires WellFormed(s) && Game.Join(s, playerId).Ok? && Guest in roles
    requires exists before: map<Role, string> :: SeatedRoles(s, before) && roles == before[Guest := playerId]
    ensures RolesHold(Game.Join(s, playerId).value, roles) && Game.Join(s, playerId).value.round == s.round
  {}

  lemma {:induction false} LeftRoles(s: RoomState, roles: map<Role, string>, id: string)
    requires WellFormed(s) && Game.Leave(s, id).Ok? && SeatedRoles(s, roles)
    ensures RolesHold(Game.Leave(s, id).value, roles)
  {}

  lemma {:induction false} HintOf(code: string, round: nat)
    ensures Keys.HintFits(code, round) <==> |Keys.Payload(code, round)| <= 128
  {}

  // The answer to a command, and what it leaves in the database.
  ghost predicate Answers(attempt: Attempt<Reply>, before: Db, answer: Result<Reply, Error>, after: Db) {
    match attempt
    case Done(db, reply) => after == db && answer == Ok(reply)
    case Failed(e) => after == before && answer == Err(e)
  }

  // The roles of the room name the players of the aggregate, in order.
  predicate RolesHold(s: RoomState, roles: map<Role, string>) {
    && |s.players| > 0 && Host in roles && roles[Host] == s.players[0].id
    && (Guest in roles ==> |s.players| == 2 && roles[Guest] == s.players[1].id)
    && (s.resolved ==> Guest in roles)
  }

  function InputFor(input: seq<InputRow>, role: Role): Option<InputRow> {
    if input == [] then None
    else if input[|input| - 1].role == role then Some(input[|input| - 1])
    else InputFor(input[..|input| - 1], role)
  }

  // The save statement, table by table: the seats joined with the input, the
  // deleted and upserted moves, the deleted and inserted requests of this round
  // and of the one that was left, the room, and the upserted round.
  function StatementSeats(seats: map<Role, Seat>, input: seq<InputRow>): map<Role, Seat> {
    map role | role in seats ::
      if InputFor(input, role).Some? then seats[role].(wins := InputFor(input, role).value.wins) else seats[role]
  }

  function StatementMoves(moves: map<RoundRole, Move>, round: nat, input: seq<InputRow>): map<RoundRole, Move> {
    var moved := set r | r in input && r.move.Some? :: RoundRole(round, r.role);
    map k | k in moves.Keys + moved && (k.round == round ==> k in moved) ::
      if k in moved && InputFor(input, k.role).Some? && InputFor(input, k.role).value.move.Some? then InputFor(input, k.role).value.move.value
      else if k in moves then moves[k] else Rock
  }

  function StatementRequests(requests: set<RoundRole>, round: nat, previousRound: nat, input: seq<InputRow>): set<RoundRole> {
    var asked := set r | r in input && r.wantsNext :: RoundRole(round, r.role);
    var left := set r | r in input && round > previousRound :: RoundRole(previousRound, r.role);
    (set k | k in requests && (k.round == round ==> k in asked)) + left + asked
  }

  function SaveStatement(rows: RoomRows, s: RoomState, input: seq<InputRow>, forfeited: Option<Role>, previousRound: nat, revision: nat): RoomRows {
    rows.(
      closed := s.closed, currentRound := s.round, revision := revision, seats := StatementSeats(rows.seats, input),
      rounds := rows.rounds[s.round := RoundRow(if s.resolved then s.result else Unset, forfeited, if s.resolved then Resolved else Active,
                                                s.round in rows.rounds && rows.rounds[s.round].funded)],
      moves := StatementMoves(rows.moves, s.round, input),
      requests := StatementRequests(rows.requests, s.round, previousRound, input))
  }

  lemma {:induction false} InputForRole(s: RoomState, role: Role)
    requires 1 <= |s.players| <= 2
    ensures var input := InputRowOf(s, Host) + InputRowOf(s, Guest);
            && InputFor(input, role) == (if Seated(s, role) then Some(InputRowOf(s, role)[0]) else None)
            && forall r | r in input :: Seated(s, r.role) && r == InputRowOf(s, r.role)[0]
  {
    var h, g := InputRowOf(s, Host), InputRowOf(s, Guest);
    var input := h + g;
    if |s.players| == 2 {
      assert input[..1] == h && h[..0] == [];
      assert InputFor(h, role) == if role == Host then Some(h[0]) else None;
    } else {
      assert input == h && h[..0] == [];
    }
  }

  lemma {:induction false} StatementSaves(rows: RoomRows, s: RoomState, previousRound: nat, revision: nat)
    requires WellFormed(s)
    ensures SaveStatement(rows, s, InputRowOf(s, Host) + InputRowOf(s, Guest), ForfeitedRole(s), previousRound, revision)
         == Saved(rows, s, previousRound, revision)
  {
    hide StatementSeats, StatementMoves, StatementRequests, SavedSeats, SavedMoves, SavedRequests, InputRowOf, ForfeitedRole;
    SeatsSaved(rows.seats, s);
    MovesSaved(rows.moves, s);
    RequestsSaved(rows.requests, s, previousRound);
  }

  lemma {:induction false} SeatsSaved(seats: map<Role, Seat>, s: RoomState)
    requires WellFormed(s)
    ensures StatementSeats(seats, InputRowOf(s, Host) + InputRowOf(s, Guest)) == SavedSeats(seats, s)
  {
    hide InputFor;
    forall role ensures InputFor(InputRowOf(s, Host) + InputRowOf(s, Guest), role) == if Seated(s, role) then Some(InputRowOf(s, role)[0]) else None {
      InputForRole(s, role);
    }
  }

  lemma {:induction false} SeatedOnes(s: RoomState)
    requires WellFormed(s)
    ensures 1 <= |s.players| <= 2 && (|s.players| == 2 ==> s.players[0].id != s.players[1].id)
  {}

  // The move that the input holds for a role is the one of its player.
  lemma {:induction false} MovedInput(s: RoomState, role: Role)
    requires 1 <= |s.players| <= 2
    ensures var r := InputFor(InputRowOf(s, Host) + InputRowOf(s, Guest), role);
            && (MovedAt(s, role) <==> r.Some? && r.value.move.Some?)
            && (MovedAt(s, role) ==> r.value.move.value == s.moves[PlayerAt(s, role).id])
  {
    hide InputFor;
    InputForRole(s, role);
  }

  lemma {:induction false} MovesSaved(moves: map<RoundRole, Move>, s: RoomState)
    requires WellFormed(s)
    ensures StatementMoves(moves, s.round, InputRowOf(s, Host) + InputRowOf(s, Guest)) == SavedMoves(moves, s)
  {
    hide InputFor, InputRowOf, WellFormed, MovedAt;
    SeatedOnes(s);
    InputSets(s, InputRowOf(s, Host) + InputRowOf(s, Guest), 0);
    MovedInput(s, Host);
    MovedInput(s, Guest);
    var after, saved := StatementMoves(moves, s.round, InputRowOf(s, Host) + InputRowOf(s, Guest)), SavedMoves(moves, s);
    forall k ensures (k in after <==> k in saved) && (k in after ==> after[k] == saved[k]) {
      assert k.role == Host || k.role == Guest;
    }
  }

  lemma {:induction false} RequestsSaved(requests: set<RoundRole>, s: RoomState, previousRound: nat)
    requires WellFormed(s)
    ensures StatementRequests(requests, s.round, previousRound, InputRowOf(s, Host) + InputRowOf(s, Guest)) == SavedRequests(requests, s, previousRound)
  {
    InputSets(s, InputRowOf(s, Host) + InputRowOf(s, Guest), previousRound);
  }

  lemma {:induction false} InputSets(s: RoomState, input: seq<InputRow>, previousRound: nat)
    requires 1 <= |s.players| <= 2 && input == InputRowOf(s, Host) + InputRowOf(s, Guest)
    ensures (set r | r in input && r.move.Some? :: RoundRole(s.round, r.role)) == RoleKeys(s.round, MovedAt(s, Host), MovedAt(s, Guest))
    ensures (set r | r in input && r.wantsNext :: RoundRole(s.round, r.role)) == RoleKeys(s.round, AskedAt(s, Host), AskedAt(s, Guest))
    ensures (set r | r in input && s.round > previousRound :: RoundRole(previousRound, r.role))
         == if s.round > previousRound then RoleKeys(previousRound, Seated(s, Host), Seated(s, Guest)) else {}
  {
    var h := InputRowOf(s, Host)[0];
    assert input[0] == h;
    if |s.players| == 2 { assert input == [h, InputRowOf(s, Guest)[0]]; } else { assert input == [h]; }
  }

  lemma {:induction false} CountBelow(found: set<AccountId>, named: set<AccountId>)
    requires found <= named
    ensures |found| <= |named| && (|found| == |named| <==> found == named)
  {
    SubsetCards(found, named);
    if found != named {
      var a :| a in named && a !in found;
      SubsetCards(found, named - {a});
    }
  }

  lemma {:induction false} LockedFour(ids: seq<AccountId>, balances: map<AccountId, int>, host: string, guest: string, key: RoundKey)
    requires ids == [House, User(host), User(guest), Escrow(key)]
    ensures AllDistinct(ids) && (forall a | a in ids :: a in balances)
            <==> host != guest && {House, User(host), User(guest), Escrow(key)} <= balances.Keys
  {
    assert ids[1] == User(host) && ids[2] == User(guest) && ids[0] == House && ids[3] == Escrow(key);
  }

  // ---- Claims ----

  function ClaimedRows(rows: RoomRows, round: nat): RoomRows
    requires round in rows.rounds
  {
    rows.(rounds := rows.rounds[round := rows.rounds[round].(status := Settling)])
  }

  ghost function UnderClaim(db: Db, code: string, round: nat): Db {
    if code in db.rooms && round in db.rooms[code].rounds then WithRoom(db, code, ClaimedRows(db.rooms[code], round)) else db
  }

  // Two rows of a round are the rows of both roles.
  lemma {:induction false} ActionCounts(rows: RoomRows, round: nat)
    ensures |set k | k in rows.moves && k.round == round| == 2 <==> RoundRole(round, Host) in rows.moves && RoundRole(round, Guest) in rows.moves
    ensures |set k | k in rows.requests && k.round == round| == 2 <==> RoundRole(round, Host) in rows.requests && RoundRole(round, Guest) in rows.requests
  {
    KeyCount(rows.moves.Keys, round);
    assert (set k | k in rows.moves && k.round == round) == (set k | k in rows.moves.Keys && k.round == round);
    KeyCount(rows.requests, round);
  }

  lemma {:induction false} KeyCount(keys: set<RoundRole>, round: nat)
    ensures |set k | k in keys && k.round == round| == 2 <==> RoundRole(round, Host) in keys && RoundRole(round, Guest) in keys
  {
    var host, guest := RoundRole(round, Host) in keys, RoundRole(round, Guest) in keys;
    var found := set k | k in keys && k.round == round;
    forall k ensures k in found <==> k in RoleKeys(round, host, guest) {
      assert k.role == Host || k.role == Guest;
    }
    assert found == RoleKeys(round, host, guest);
  }

  lemma {:induction false} DecidedRoles(s: RoomState, o: Outcome, forfeited: string, roles: map<Role, string>)
    requires WellFormed(s) && SeatedRoles(s, roles) && |s.players| == 2
    ensures var t := Decide(s, o, forfeited); RolesHold(t, roles) && t.round == s.round && t.resolved
  {}

  lemma {:induction false} AdvancedRoles(s: RoomState, roles: map<Role, string>)
    requires WellFormed(s) && SeatedRoles(s, roles) && AdvanceCommittedNextRound(s, s.round).Ok?
    ensures var t := AdvanceCommittedNextRound(s, s.round).value; RolesHold(t, roles) && t.round == s.round + 1
  {}

  // Saving the next round leaves the claim on the round before it.
  lemma {:induction false} SavedBesideClaim(rows: RoomRows, n: nat, t: RoomState, previousRound: nat, revision: nat)
    requires n in rows.rounds && t.round != n
    ensures var saved := Saved(rows, t, previousRound, revision);
            && n in saved.rounds && t.round in saved.rounds && saved.rounds[n] == rows.rounds[n]
            && Saved(ClaimedRows(rows, n), t, previousRound, revision) == ClaimedRows(saved, n)
  {
    var a, b := Saved(ClaimedRows(rows, n), t, previousRound, revision), ClaimedRows(Saved(rows, t, previousRound, revision), n);
    assert a.rounds == b.rounds;
  }

  // Funding one round does not look at the claim on another.
  lemma {:induction false} FundBesideClaim(db: Db, code: string, n: nat, m: nat, now: int)
    requires code in db.rooms && n in db.rooms[code].rounds && m in db.rooms[code].rounds && m != n
    ensures var claimed, free := Store.FundRound(UnderClaim(db, code, n), code, m, None, now), Store.FundRound(db, code, m, None, now);
            && (claimed.Ok? <==> free.Ok?) && (claimed.Err? ==> claimed == free)
            && (free.Ok? ==> code in free.value.rooms && n in free.value.rooms[code].rounds
                             && free.value.rooms[code].rounds[n] == db.rooms[code].rounds[n]
                             && claimed.value == UnderClaim(free.value, code, n))
  {
    hide WithDeadline, Stake;
    var claimed := UnderClaim(db, code, n);
    var rows := db.rooms[code];
    WithDeadlineFrame(db, claimed, code, m, Inactivity, m, now + InactivityLimit);
    assert WithRoundFunded(ClaimedRows(rows, n), m) == ClaimedRows(WithRoundFunded(rows, m), n);
    if !rows.rounds[m].funded && |SeatAccounts(rows)| == 2 && Stake(db.funds.book, RoundKey(code, m), SeatAccounts(rows)[0], SeatAccounts(rows)[1]).Ok? {
      var book := Stake(db.funds.book, RoundKey(code, m), SeatAccounts(rows)[0], SeatAccounts(rows)[1]).value;
      var a := WithRoom(db, code, WithRoundFunded(rows, m)).(funds := db.funds.(book := book));
      var b := WithRoom(claimed, code, WithRoundFunded(ClaimedRows(rows, n), m)).(funds := db.funds.(book := book));
      WithDeadlineFrame(db, a, code, m, Inactivity, m, now + InactivityLimit);
      WithDeadlineFrame(db, b, code, m, Inactivity, m, now + InactivityLimit);
      WithRoomTwice(db, code, ClaimedRows(rows, n), ClaimedRows(WithRoundFunded(rows, m), n));
      WithRoomTwice(db, code, WithRoundFunded(rows, m), ClaimedRows(WithRoundFunded(rows, m), n));
    } else {
      assert WithRoom(db, code, rows) == db by { assert db.rooms[code := rows] == db.rooms; }
      assert WithRoom(claimed, code, ClaimedRows(rows, n)) == claimed by { assert claimed.rooms[code := ClaimedRows(rows, n)] == claimed.rooms; }
    }
  }

  // Funding and announcing do not depend on each other.
  lemma {:induction false} FundThenAnnounce(db: Db, code: string, m: nat, revision: nat, now: int)
    requires code in db.rooms && Bump(db, code, revision, now).Ok?
    ensures var announced, funded := Store.FundRound(Bump(db, code, revision, now).value, code, m, None, now), Store.FundRound(db, code, m, None, now);
            && (announced.Ok? <==> funded.Ok?) && (funded.Err? ==> announced == funded)
            && (funded.Ok? ==> Bump(funded.value, code, revision, now) == announced)
  {
    hide WithDeadline, Stake;
    var bumped := Bump(db, code, revision, now).value;
    var rows := db.rooms[code];
    var known := if m in rows.rounds then rows else rows.(rounds := rows.rounds[m := FreshRound]);
    WithDeadlineFrame(WithRoom(db, code, known), WithRoom(bumped, code, known), code, m, Inactivity, m, now + InactivityLimit);
    if !known.rounds[m].funded && |SeatAccounts(rows)| == 2 && Stake(db.funds.book, RoundKey(code, m), SeatAccounts(rows)[0], SeatAccounts(rows)[1]).Ok? {
      var book := Stake(db.funds.book, RoundKey(code, m), SeatAccounts(rows)[0], SeatAccounts(rows)[1]).value;
      WithDeadlineFrame(WithRoom(db, code, WithRoundFunded(known, m)).(funds := db.funds.(book := book)),
                        WithRoom(bumped, code, WithRoundFunded(known, m)).(funds := db.funds.(book := book)),
                        code, m, Inactivity, m, now + InactivityLimit);
    }
  }

  lemma {:induction false} ClaimedRevision(rows: RoomRows, n: nat)
    requires n in rows.rounds
    ensures ClaimedRows(rows, n).revision == rows.revision
  {}

  lemma {:induction false} ClaimedStatus(rows: RoomRows, n: nat)
    requires n in rows.rounds && rows.rounds[n].status.Resolved?
    ensures n in ClaimedRows(rows, n).rounds && ClaimedRows(rows, n).rounds[n].status.Settling?
    ensures ClaimedRows(rows, n).(rounds := ClaimedRows(rows, n).rounds[n := ClaimedRows(rows, n).rounds[n].(status := Resolved)]) == rows
  {
    Unclaim(rows, n);
  }

  lemma {:induction false} ClaimIsLifted(db: Db, code: string, n: nat)
    requires code in db.rooms && n in db.rooms[code].rounds && db.rooms[code].rounds[n].status.Resolved?
    ensures var rows := UnderClaim(db, code, n).rooms[code];
            && n in rows.rounds && rows.rounds[n].status.Settling?
            && WithRoom(UnderClaim(db, code, n), code, rows.(rounds := rows.rounds[n := rows.rounds[n].(status := Resolved)])) == db
    ensures UnderClaim(db, code, n) == db.(rooms := UnderClaim(db, code, n).rooms)
  {
    hide ClaimedRows;
    ClaimedStatus(db.rooms[code], n);
    WithRoomTwice(db, code, ClaimedRows(db.rooms[code], n), db.rooms[code]);
    assert db.rooms[code := db.rooms[code]] == db.rooms;
  }

  // The claim changes nothing that advancing to the next round depends on.
  lemma {:induction false} AdvancesUnderClaim(db: Db, code: string, round: nat, now: int)
    requires DbOk(db) && Eligible(db, code, round) == Some(Advancing) && Store.Load(db, code).Ok?
    ensures code in db.rooms && code in UnderClaim(db, code, round).rooms
    ensures var s, rows := Store.Load(db, code).value, db.rooms[code];
            var claimed := UnderClaim(db, code, round);
            && s.round == round && WellFormed(s) && claimed.rooms[code].revision == rows.revision
            && var r := Game.AdvanceCommittedNextRound(s, s.round);
               r.Ok? ==>
                 && var t, revision := r.value, rows.revision + 1;
                 && RolesHold(t, RolesOf(rows))
                 && var saved := WithRoom(db, code, Saved(rows, t, round, revision));
                 && WithRoom(claimed, code, Saved(claimed.rooms[code], t, round, revision)) == UnderClaim(saved, code, round)
                 && Bump(saved, code, revision, now).Ok?
                 && var free, over := Store.FundRound(saved, code, t.round, None, now), Store.FundRound(UnderClaim(saved, code, round), code, t.round, None, now);
                 && var announced := Store.FundRound(Bump(saved, code, revision, now).value, code, t.round, None, now);
                 && (over.Err? ==> over == free) && (free.Err? ==> over == free && announced == free)
                 && (free.Ok? ==>
                       && over == Ok(UnderClaim(free.value, code, round))
                       && code in free.value.rooms && round in free.value.rooms[code].rounds && free.value.rooms[code].rounds[round].status.Resolved?
                       && Bump(free.value, code, revision, now) == announced)
  {
    hide DbOk, WellFormed, Saved, Persisted, RolesOf, RolesHold, SeatedRoles, Eligible, Store.Load, Store.FundRound, NextRound, RowsOk;
    hide Game.AdvanceCommittedNextRound, AdvancedRows, CanStake, ClaimedRows, Bump;
    EligibleRoom(db, code, round);
    LoadedRoles(db, code);
    AdvanceableRequests(db, code, round);
    var s, rows := Store.Load(db, code).value, db.rooms[code];
    LoadIsPersisted(db, code);
    var t := NextRound(s);
    AdvancedRoles(s, RolesOf(rows));
    var revision := rows.revision + 1;
    var saved := WithRoom(db, code, Saved(rows, t, round, revision));
    ClaimedRevision(rows, round);
    SavedBesideClaim(rows, round, t, round, revision);
    SavedRevision(rows, t, round, revision);
    WithRoomTwice(db, code, ClaimedRows(rows, round), Saved(ClaimedRows(rows, round), t, round, revision));
    WithRoomTwice(db, code, saved.rooms[code], ClaimedRows(saved.rooms[code], round));
    FundBesideClaim(saved, code, round, t.round, now);
    RoomBumps(db, code, saved.rooms[code], now);
    FundThenAnnounce(saved, code, t.round, revision, now);
  }

  // A deadline is scheduled for a round, whatever the rows of its room are.
  lemma {:induction false} ScheduledThenCounted(db: Db, code: string, gone: RoomRows, counted: RoomRows, kind: DeadlineKind, generation: nat, dueAt: int)
    ensures WithRoom(WithDeadline(WithRoom(db, code, gone), code, gone.currentRound, kind, generation, dueAt), code, counted)
         == WithDeadline(WithRoom(db, code, counted), code, gone.currentRound, kind, generation, dueAt)
    ensures WithDeadline(WithRoom(db, code, gone), code, gone.currentRound, kind, generation, dueAt).rooms == db.rooms[code := gone]
  {
    hide WithDeadline;
    WithDeadlineFrame(WithRoom(db, code, gone), WithRoom(db, code, counted), code, gone.currentRound, kind, generation, dueAt);
    WithRoomTwice(db, code, gone, counted);
  }

  lemma {:induction false} ClosedIsOk(db: Db, id: string, at: int, expiredBy: Option<int>)
    requires DbOk(db)
    ensures var r := Store.CloseConnection(db, id, at, expiredBy); r.Done? ==> DbOk(r.db)
  {
    hide DbOk, Store.CloseConnection;
    NextKeepsOk(db, TxClose(id, at, expiredBy));
  }

  lemma {:induction false} OpenedIsOk(db: Db, id: string, code: string, account: string, sessionValid: bool, now: int, lease: int)
    requires DbOk(db)
    ensures var r := Store.OpenConnection(db, id, code, account, sessionValid, now, lease); r.Done? ==> DbOk(r.db)
  {
    hide DbOk, Store.OpenConnection;
    NextKeepsOk(db, TxOpen(id, code, account, sessionValid, now, lease));
  }

  lemma {:induction false} ReconciledIsOk(db: Db, code: string, round: nat, now: int)
    requires DbOk(db)
    ensures var r := Store.Reconcile(db, code, round, now); r.Some? && r.value.Done? ==> DbOk(r.value.db)
  {
    hide DbOk, Store.Reconcile;
    NextKeepsOk(db, TxReconcile(code, round, now));
  }

  // The claim changes nothing that resolving the round depends on.
  lemma {:induction false} ResolvesUnderClaim(db: Db, code: string, round: nat, now: int)
    requires DbOk(db) && Eligible(db, code, round) == Some(Resolving) && Store.Load(db, code).Ok?
    ensures code in db.rooms && UnderClaim(db, code, round) == WithRoom(db, code, ClaimedRows(db.rooms[code], round))
    ensures var s, rows := Store.Load(db, code).value, db.rooms[code];
            && s.round == round && ClaimedRows(rows, round).revision == rows.revision && WellFormed(s)
            && var r := Game.ResolveCommittedMoves(s, s.round);
               r.Ok? ==>
                 && var t, revision := r.value, rows.revision + 1;
                 && RolesHold(t, RolesOf(rows)) && t.round == round
                 && Saved(ClaimedRows(rows, round), t, round, revision) == Saved(rows, t, round, revision)
                 && Bump(WithRoom(db, code, Saved(rows, t, round, revision)), code, revision, now).Ok?
  {
    hide DbOk, WellFormed, Saved, Persisted, RolesOf, RolesHold, Eligible, Store.Load, MovesOutcome, Decide, Bump, SeatedRoles;
    EligibleRoom(db, code, round);
    LoadedRoles(db, code);
    ResolvableMoves(db, code, round);
    var s, rows := Store.Load(db, code).value, db.rooms[code];
    DecidedRoles(s, MovesOutcome(s), "", RolesOf(rows));
    var t := Decide(s, MovesOutcome(s), "");
    SavedOverClaim(rows, t, round, rows.revision + 1);
    SavedRevision(rows, t, round, rows.revision + 1);
    RoomBumps(db, code, Saved(rows, t, round, rows.revision + 1), now);
  }

  lemma {:induction false} RoomBumps(db: Db, code: string, rows: RoomRows, now: int)
    requires DbOk(db) && code in db.rooms && rows.revision == db.rooms[code].revision + 1
    ensures Bump(WithRoom(db, code, rows), code, rows.revision, now).Ok?
  {
    hide RowsOk, ConnectionsOk, PresentOk, DeadlinesOk, Linked, FundsOk, BoxOk, Announced;
    RoomBump(db, code, rows, now);
  }

  lemma {:induction false} Unclaim(rows: RoomRows, n: nat)
    requires n in rows.rounds && rows.rounds[n].status.Resolved?
    ensures ClaimedRows(rows, n).(rounds := ClaimedRows(rows, n).rounds[n := ClaimedRows(rows, n).rounds[n].(status := Resolved)]) == rows
  {
    assert ClaimedRows(rows, n).rounds[n := rows.rounds[n]] == rows.rounds;
  }

  // Saving the claimed round overwrites the claim.
  lemma {:induction false} SavedOverClaim(rows: RoomRows, t: RoomState, previousRound: nat, revision: nat)
    requires t.round in rows.rounds
    ensures Saved(ClaimedRows(rows, t.round), t, previousRound, revision) == Saved(rows, t, previousRound, revision)
  {
    var a, b := Saved(ClaimedRows(rows, t.round), t, previousRound, revision), Saved(rows, t, previousRound, revision);
    assert a.rounds == b.rounds;
  }

  // Settling and announcing do not depend on each other.
  lemma {:induction false} SettleThenAnnounce(db: Db, code: string, t: RoomState, revision: nat, deadlines: map<nat, Deadline>, now: int)
    requires code in db.rooms && Bump(db, code, revision, now).Ok?
    ensures var announced, settled := Store.SettleRound(Bump(db, code, revision, now).value, code, t), Store.SettleRound(db, code, t);
            && (announced.Ok? <==> settled.Ok?) && (settled.Err? ==> announced == settled)
            && (settled.Ok? ==> Bump(settled.value.(deadlines := deadlines), code, revision, now) == Ok(announced.value.(deadlines := deadlines)))
  {}

  lemma {:induction false} CancelledRound(db: Db, code: string, round: nat, now: int)
    ensures WithCancelled(db.deadlines, RoundDeadlines(db, code, round), now)
         == map i | i in db.deadlines ::
              if db.deadlines[i].code == code && db.deadlines[i].round == round && db.deadlines[i].status.Pending?
              then db.deadlines[i].(status := Cancelled, completedAt := Some(now)) else db.deadlines[i]
  {}

  function Smaller(m: nat, n: nat): nat {
    if n < m then n else m
  }

  predicate AllReconcile(steps: seq<Tx>) {
    forall i | 0 <= i < |steps| :: steps[i].TxReconcile?
  }

  lemma {:induction false} RunThen(db: Db, txs: seq<Tx>, tx: Tx)
    ensures Store.Run(db, txs + [tx]) == Next(Store.Run(db, txs), tx)
  {
    hide Next;
    assert (txs + [tx])[..|txs|] == txs;
  }

  lemma {:induction false} RunFurther(db: Db, txs: seq<Tx>, more: seq<Tx>)
    ensures Store.Run(db, txs + more) == Store.Run(Store.Run(db, txs), more)
  {
    hide Next;
    if more == [] {
      assert txs + more == txs;
    } else {
      var shorter := more[..|more| - 1];
      RunFurther(db, txs, shorter);
      assert txs + more == (txs + shorter) + [more[|more| - 1]];
      RunThen(db, txs + shorter, more[|more| - 1]);
    }
  }

  // What a batch reports about `waiting` rooms, of which `left` still wait.
  predicate BatchCounts(c: Counts, waiting: nat, batch: nat, left: nat) {
    && c.attempts == c.wins == Smaller(batch, waiting) && c.noops == 0 && c.failures <= c.attempts
    && left + c.attempts == waiting + c.failures
    && c.attempts - c.failures <= c.settled + c.advanced <= c.attempts
    && c.backlog == waiting
  }

  // What a drain of at most `most` claims reports.
  predicate DrainCounts(c: Counts, waiting: nat, most: nat, left: nat) {
    && c.attempts == c.wins <= most && c.noops == 0 && c.failures <= c.attempts
    && left + c.attempts == waiting + c.failures
    && c.attempts - c.failures <= c.settled + c.advanced <= c.attempts
    && (c.failures == 0 ==> c.attempts == Smaller(most, waiting) && left == waiting - Smaller(most, waiting))
  }

  lemma {:induction false} SetsSplit(all: set<string>, some: set<string>)
    requires some <= all
    ensures |all - some| + |some| == |all|
  {
    assert all == (all - some) + some;
  }

  lemma {:induction false} MoreBatches(i: nat, n: nat, size: nat)
    requires i < n
    ensures i * size + size == (i + 1) * size <= n * size == size * n
  {
    assert n * size == (i + 1) * size + (n - i - 1) * size;
  }

  // The claim changes nothing that load reads.
  lemma {:induction false} LoadUnderClaim(db: Db, code: string, round: nat)
    requires Eligible(db, code, round).Some?
    ensures Store.Load(UnderClaim(db, code, round), code) == Store.Load(db, code)
    ensures code in db.rooms && RolesOf(UnderClaim(db, code, round).rooms[code]) == RolesOf(db.rooms[code])
  {
    var rows := db.rooms[code];
    assert Persisted(code, ClaimedRows(rows, round)) == Persisted(code, rows);
  }

  lemma {:induction false} LoadErrors(db: Db, code: string)
    ensures Store.Load(db, code).Err? ==> !Store.Load(db, code).error.HintTooLong?
  {}

  lemma {:induction false} ClaimedRound(db: Db, code: string, round: nat)
    requires Eligible(db, code, round).Some? && Store.Load(db, code).Ok?
    ensures Store.Load(db, code).value.round == round
  {}

  // Only the hint itself is reported as too long.
  lemma {:induction false} NotTooLong(db: Db, code: string, round: nat, now: int)
    requires DbOk(db) && Eligible(db, code, round).Some? && Store.Load(db, code).Ok?
    ensures code in db.rooms
    ensures var s := Store.Load(db, code).value;
            var next := if Eligible(db, code, round).value.Resolving? then Store.Resolve(db, code, s, now) else Store.Advance(db, code, s, now);
            next.Err? ==> !next.error.HintTooLong?
  {
    hide DbOk, Eligible, Store.Load, Store.Resolve, Store.Advance, WellFormed, Persisted, DecidedRows, AdvancedRows, RowOf, MovesOutcome, CanStake;
    EligibleRoom(db, code, round);
    LoadIsPersisted(db, code);
    if Eligible(db, code, round).value.Resolving? { ResolveKeepsOk(db, code, round, now); } else { AdvanceKeepsOk(db, code, round, now); }
  }

  lemma {:induction false} ReportOfWaiting(db: Db, code: string, now: int)
    requires DbOk(db) && code in Waiting(db)
    ensures var c := ReportedFor(db, code, db.rooms[code].currentRound, now);
            var outcome := Reconcile(db, code, db.rooms[code].currentRound, now);
            && outcome.Some?
            && c.attempts == c.wins == 1 && c.noops == 0 && c.failures == 0 && c.backlog == 0 && c.settled + c.advanced <= 1
            && (outcome.value.Done? ==> c.settled + c.advanced == 1)
  {
    hide DbOk, Eligible, Reconcile;
    ReconciledWasEligible(db, code, db.rooms[code].currentRound, now);
    TransitionEndsTheWait(db, code, now);
  }

  // What a transaction without an answer commits.
  ghost predicate Commits(attempt: Attempt<()>, before: Db, err: Option<Error>, after: Db) {
    match attempt
    case Done(db, _) => after == db && err.None?
    case Failed(e) => after == before && err == Some(e)
  }

  // The update that cancels the pending disconnect deadline of a role that returns.
  function WaitingCancelled(deadlines: map<nat, Deadline>, code: string, round: nat, role: Role, generation: nat, now: int): map<nat, Deadline> {
    map i | i in deadlines ::
      var d := deadlines[i];
      if d.code == code && d.round == round && d.kind == Disconnect(role) && d.generation == generation && d.status.Pending?
      then d.(status := Cancelled, completedAt := Some(now)) else d
  }

  lemma {:induction false} OpenedRows(db: Db, code: string, role: Role, generation: nat, now: int)
    requires code in db.rooms
    ensures var rows := db.rooms[code];
            var waiting := set i | i in db.deadlines && role in rows.presence && db.deadlines[i].code == code
                             && db.deadlines[i].round == rows.currentRound && db.deadlines[i].kind == Disconnect(role)
                             && db.deadlines[i].generation == generation;
            WithCancelled(db.deadlines, waiting, now)
            == if role in rows.presence then WaitingCancelled(db.deadlines, code, rows.currentRound, role, generation, now) else db.deadlines
    ensures var rows := db.rooms[code];
            var back := rows.(presence := rows.presence[role := Presence(generation, true)]);
            db.rooms[code := back][code := back.(revision := rows.revision + 1)] == db.rooms[code := back.(revision := rows.revision + 1)]
  {}

  // The connections not reaped yet are as they were.
  lemma {:induction false} ReapedSoFar(db: Db, ids: seq<string>, i: nat, now: int)
    requires DbOk(db) && NoDuplicates(ids) && i < |ids| && forall id | id in ids :: id in Overdue(db, now)
    ensures ids[i] in db.connections && ids[i] in Overdue(Reaped(db, ids[..i], now), now)
    ensures Reaped(db, ids[..i], now).connections[ids[i]] == db.connections[ids[i]]
    ensures ids[..i + 1][..i] == ids[..i] && ids[..i + 1][i] == ids[i]
  {
    hide DbOk, Reaped;
    ReapCloses(db, ids[..i], now);
    assert ids[i] in ids && ids[i] !in ids[..i];
  }

  lemma {:induction false} CountExpired(db: Db, ids: seq<string>, now: int)
    requires NoDuplicates(ids) && forall id :: id in ids <==> id in Overdue(db, now)
    ensures |ids| == |Overdue(db, now)|
  {
    CountDistinct(ids);
    assert Overdue(db, now) == set id | id in ids;
  }

  lemma {:induction false} CountDistinct(ids: seq<string>)
    requires NoDuplicates(ids)
    ensures |set id | id in ids| == |ids|
  {
    if ids != [] {
      var n := |ids| - 1;
      CountDistinct(ids[..n]);
      assert ids == ids[..n] + [ids[n]];
      assert (set id | id in ids) == (set id | id in ids[..n]) + {ids[n]};
    }
  }

  // ---- Deadlines in order ----

  function Prefix(list: seq<nat>, k: nat): set<nat>
    requires k <= |list|
  {
    set j | j in list[..k]
  }

  // A deadline comes after all those listed before it, so it is none of them.
  lemma {:induction false} NotEarlier(db: Db, list: seq<nat>, k: nat, due: set<nat>)
    requires due <= db.deadlines.Keys && k < |list| && forall i :: i in list <==> i in due
    requires forall i, j | 0 <= i < j < |list| :: list[i] in due && list[j] in due && Before(db, list[i], list[j])
    ensures list[k] in due && list[k] !in Prefix(list, k)
  {
    assert list[k] in list;
    forall j | 0 <= j < k ensures list[j] != list[k] { assert Before(db, list[j], list[k]); }
  }

  // Cancelling the listed deadlines one by one.
  lemma {:induction false} CancelPrefix(db: Db, list: seq<nat>, k: nat, now: int)
    requires k <= |list|
    ensures Cancel(db, Prefix(list, 0), now) == db
    ensures var c := Cancel(db, Prefix(list, k), now);
            && c == db.(deadlines := c.deadlines) && c.deadlines.Keys == db.deadlines.Keys
            && forall i | i in db.deadlines && i !in Prefix(list, k) :: c.deadlines[i] == db.deadlines[i]
    ensures k < |list| ==> Cancel(Cancel(db, Prefix(list, k), now), {list[k]}, now) == Cancel(db, Prefix(list, k + 1), now)
  {
    CancelNothing(db, now);
    CancelProgresses(db, Prefix(list, k), now);
    if k < |list| {
      CancelTwice(db, Prefix(list, k), list[k], now);
      assert Prefix(list, k + 1) == Prefix(list, k) + {list[k]};
    }
  }

  lemma {:induction false} DueFacts(db: Db, code: string, now: int, i: nat)
    requires i in DueOfRoom(db, code, now)
    ensures i in db.deadlines && db.deadlines[i].status.Pending? && db.deadlines[i].code == code
  {}

  lemma {:induction false} NoneInList(db: Db, list: seq<nat>, due: set<nat>, code: string, now: int)
    requires due == DueOfRoom(db, code, now) && (forall i :: i in list <==> i in due)
    requires forall j | 0 <= j < |list| :: list[j] in due && !Applicable(db, list[j])
    ensures ApplicableOfRoom(db, code, now) == {} && Prefix(list, |list|) == due
  {
    hide Applicable, DueOfRoom;
  }

  lemma {:induction false} FirstInList(db: Db, list: seq<nat>, k: nat, due: set<nat>, code: string, now: int)
    requires due == DueOfRoom(db, code, now) && k < |list| && (forall i :: i in list <==> i in due)
    requires forall i, j | 0 <= i < j < |list| :: list[i] in due && list[j] in due && Before(db, list[i], list[j])
    requires list[k] in due && Applicable(db, list[k]) && forall j | 0 <= j < k :: list[j] in due && !Applicable(db, list[j])
    ensures IsFirst(db, ApplicableOfRoom(db, code, now), list[k])
    ensures Prefix(list, k) == Skipped(db, code, list[k], now)
  {
    hide Applicable, DueOfRoom;
    forall j | j in ApplicableOfRoom(db, code, now) && j != list[k] ensures Before(db, list[k], j) {
      assert j in list;
      var at :| 0 <= at < |list| && list[at] == j;
      assert at > k;
    }
    forall j ensures j in Prefix(list, k) <==> j in Skipped(db, code, list[k], now) {
      if j in due && Before(db, j, list[k]) {
        assert j in list;
        var at :| 0 <= at < |list| && list[at] == j;
        assert at < k;
      }
    }
  }

  lemma {:induction false} CancelTwice(db: Db, ids: set<nat>, i: nat, now: int)
    ensures Cancel(Cancel(db, ids, now), {i}, now) == Cancel(db, ids + {i}, now)
  {
    assert WithCancelled(WithCancelled(db.deadlines, ids, now), {i}, now) == WithCancelled(db.deadlines, ids + {i}, now);
  }

  // What the loop checks is what makes the deadline applicable.
  lemma {:induction false} ApplicableHere(db: Db, i: nat, code: string, round: nat, s: RoomState)
    requires i in db.deadlines && db.deadlines[i].code == code && code in db.rooms && round in db.rooms[code].rounds
    requires db.rooms[code].currentRound == round && s == Persisted(code, db.rooms[code])
    ensures var rows, d := db.rooms[code], db.deadlines[i];
            Applicable(db, i) <==>
              && s.round == round && !s.resolved && !s.closed && rows.rounds[round].funded
              && (d.kind.Disconnect? ==> d.kind.role in rows.seats && d.kind.role in rows.presence
                                         && rows.presence[d.kind.role].generation == d.generation && !rows.presence[d.kind.role].present)
  {}

  function WithStatus(rows: RoomRows, round: nat, status: RoundStatus): RoomRows
    requires round in rows.rounds
  {
    rows.(rounds := rows.rounds[round := rows.rounds[round].(status := status)])
  }

  lemma {:induction false} LiveRoleFrame(db: Db, other: Db, code: string, role: Role, now: int)
    requires db.connections == other.connections
    ensures LiveRole(db, code, role, now) <==> LiveRole(other, code, role, now)
  {}

  lemma {:induction false} ConcludedRows(deadlines: map<nat, Deadline>, code: string, round: nat, i: nat, now: int)
    ensures Concluded(deadlines, code, round, i, now)
         == map j | j in deadlines ::
              var d := deadlines[j];
              if d.code == code && d.round == round && d.status.Pending?
              then d.(status := if j == i then Completed else Cancelled, completedAt := Some(now)) else d
  {}

  lemma {:induction false} BeforeIsStrict(db: Db, i: nat, j: nat)
    requires i in db.deadlines && j in db.deadlines
    ensures !(Before(db, i, j) && Before(db, j, i))
  {}

  // The order of deadlines is total, so there is one first.
  lemma {:induction false} FirstIsUnique(db: Db, ids: set<nat>, i: nat)
    requires ids <= db.deadlines.Keys && IsFirst(db, ids, i)
    ensures ids != {} && First(db, ids) == i
  {
    var j := First(db, ids);
    BeforeIsStrict(db, i, j);
  }

  // Deadlines and connections do not depend on the claim.
  lemma {:induction false} ClaimKeepsDeadlines(db: Db, code: string, round: nat, now: int)
    ensures var c := UnderClaim(db, code, round);
            && c == db.(rooms := c.rooms)
            && DueOfRoom(c, code, now) == DueOfRoom(db, code, now) && ApplicableOfRoom(c, code, now) == ApplicableOfRoom(db, code, now)
            && (forall i, j | i in db.deadlines && j in db.deadlines :: Before(c, i, j) == Before(db, i, j))
            && (forall ids, i | ids <= db.deadlines.Keys :: IsFirst(c, ids, i) == IsFirst(db, ids, i))
            && (forall i | i in db.deadlines :: Skipped(c, code, i, now) == Skipped(db, code, i, now))
  {
    hide Due;
    var c := UnderClaim(db, code, round);
    forall i | i in db.deadlines ensures Applicable(c, i) == Applicable(db, i) {}
    forall i ensures Due(c, i, now) == Due(db, i, now) { DueFrame(db, c, i, now); }
  }

  lemma {:induction false} DueFrame(db: Db, other: Db, i: nat, now: int)
    requires other.deadlines == db.deadlines
    ensures Due(other, i, now) == Due(db, i, now)
  {}

  lemma {:induction false} CancelUnderClaim(db: Db, code: string, round: nat, ids: set<nat>, now: int)
    ensures Cancel(UnderClaim(db, code, round), ids, now) == UnderClaim(Cancel(db, ids, now), code, round)
    ensures Cancel(db, ids, now) == db.(deadlines := Cancel(db, ids, now).deadlines)
  {}

  // Releasing the claim on an active round restores its room.
  lemma {:induction false} ClaimReleased(db: Db, code: string, round: nat)
    requires code in db.rooms && round in db.rooms[code].rounds && db.rooms[code].rounds[round].status.Active?
    ensures var c := UnderClaim(db, code, round);
            && code in c.rooms && round in c.rooms[code].rounds && c.rooms[code].rounds[round].status.Settling?
            && c.rooms[code := WithStatus(c.rooms[code], round, Active)] == db.rooms
  {
    var rows := db.rooms[code];
    var c := UnderClaim(db, code, round);
    assert WithStatus(c.rooms[code], round, Active) == rows by {
      assert c.rooms[code].rounds[round := rows.rounds[round]] == rows.rounds;
    }
  }

  lemma {:induction false} ClaimFacts(db: Db, i: nat, s: RoomState, now: int)
    requires DbOk(db) && i in db.deadlines && DeadlineClaims(db, i) && Store.Load(db, db.deadlines[i].code) == Ok(s)
    ensures var code := db.deadlines[i].code;
            && code in db.rooms && s == Persisted(code, db.rooms[code]) && OpenRound(db.rooms[code])
            && s.round == db.rooms[code].currentRound && |s.players| == 2 && WellFormed(s)
            && SeatedRoles(s, RolesOf(db.rooms[code])) && db.rooms[code].seats.Keys == {Host, Guest}
            && var c := UnderClaim(db, code, s.round);
               && code in c.rooms && s.round in c.rooms[code].rounds && c.rooms[code].currentRound == s.round
               && Persisted(code, c.rooms[code]) == s && c.rooms[code].seats.Keys == {Host, Guest}
  {
    hide DbOk, Persisted;
    RoomsOfDb(db);
    ClaimedRoundIsOpen(db, i);
    LoadedRoles(db, db.deadlines[i].code);
    BothSeats(db.rooms[db.deadlines[i].code]);
    ClaimKeepsPersisted(db.deadlines[i].code, db.rooms[db.deadlines[i].code], s.round);
  }

  lemma {:induction false} ClaimKeepsPersisted(code: string, rows: RoomRows, round: nat)
    requires round in rows.rounds && rows.currentRound in rows.rounds
    ensures Persisted(code, ClaimedRows(rows, round)) == Persisted(code, rows)
  {}

  lemma {:induction false} BothSeats(rows: RoomRows)
    requires OpenRound(rows)
    ensures rows.seats.Keys == {Host, Guest}
  {
    forall role ensures role in rows.seats <==> role in {Host, Guest} { assert role == Host || role == Guest; }
  }

  lemma {:induction false} FirstIsDue(db: Db, code: string, chosen: nat, now: int)
    requires IsFirst(db, ApplicableOfRoom(db, code, now), chosen)
    ensures chosen in ApplicableOfRoom(db, code, now) && chosen in DueOfRoom(db, code, now)
  {}

  lemma {:induction false} ChosenFacts(db: Db, code: string, chosen: nat, skipped: set<nat>, now: int)
    requires IsFirst(db, ApplicableOfRoom(db, code, now), chosen) && skipped == Skipped(db, code, chosen, now)
    ensures chosen in db.deadlines && db.deadlines[chosen].code == code && chosen !in skipped
    ensures var pruned := Cancel(db, skipped, now);
            chosen in pruned.deadlines && pruned.deadlines[chosen] == db.deadlines[chosen] && db.deadlines[chosen].status.Pending?
  {}

  lemma {:induction false} VerdictRoles(db: Db, i: nat, s: RoomState, roles: map<Role, string>, now: int)
    requires i in db.deadlines && WellFormed(s) && SeatedRoles(s, roles) && Verdict(db, i, s, now).Some? && Verdict(db, i, s, now).value.Ok?
    ensures var t := Verdict(db, i, s, now).value.value; RolesHold(t, roles) && t.round == s.round
  {
    hide Verdict;
    VerdictDecides(db, i, s, now);
  }

  lemma {:induction false} SavePossible(db: Db, code: string, t: RoomState, now: int)
    requires DbOk(db) && code in db.rooms
    ensures Bump(WithRoom(db, code, Saved(db.rooms[code], t, t.round, db.rooms[code].revision + 1)), code, db.rooms[code].revision + 1, now).Ok?
  {
    hide DbOk, Saved;
    SavedRevision(db.rooms[code], t, t.round, db.rooms[code].revision + 1);
    RoomBumps(db, code, Saved(db.rooms[code], t, t.round, db.rooms[code].revision + 1), now);
  }

  lemma {:induction false} FirstOf(db: Db, due: set<nat>, candidate: nat)
    requires due <= db.deadlines.Keys && IsFirst(db, due, candidate)
    ensures due != {} && First(db, due) == candidate && candidate in due && candidate in db.deadlines
  {
    FirstIsUnique(db, due, candidate);
  }

  lemma {:induction false} CandidatePending(db: Db, i: nat, now: int)
    requires i in DueIds(db, now)
    ensures i in db.deadlines && db.deadlines[i].status.Pending?
  {}

  // What the worker does with a candidate it cannot claim.
  lemma {:induction false} NotClaimed(db: Db, candidate: nat, now: int)
    requires DueIds(db, now) != {} && candidate == First(db, DueIds(db, now)) && candidate in db.deadlines
    ensures !DeadlineClaims(db, candidate) ==>
              ProcessDeadline(db, now) == Done(if RoundStillOpen(db, candidate) then db else Cancel(db, {candidate}, now), Stale)
    ensures var d := db.deadlines[candidate];
            && (RoundStillOpen(db, candidate) <==>
                  && d.code in db.rooms && !db.rooms[d.code].closed && db.rooms[d.code].currentRound == d.round
                  && d.round in db.rooms[d.code].rounds && db.rooms[d.code].rounds[d.round].status == Active)
            && (DeadlineClaims(db, candidate) <==> RoundStillOpen(db, candidate) && db.rooms[d.code].rounds[d.round].funded)
  {
    hide Due, Before, Cancel, Load, Verdict;
  }

  lemma {:induction false} ClaimIs(db: Db, code: string, round: nat)
    requires code in db.rooms && round in db.rooms[code].rounds
    ensures UnderClaim(db, code, round) == WithRoom(db, code, WithStatus(db.rooms[code], round, Settling))
  {}

  // A claimed room always loads.
  lemma {:induction false} ClaimLoads(db: Db, i: nat, round: nat)
    requires DbOk(db) && i in db.deadlines && DeadlineClaims(db, i) && round == db.deadlines[i].round
    ensures var code := db.deadlines[i].code;
            && code in db.rooms
            && Store.Load(db, code).Ok? && Store.Load(db, code).value.round == round
            && code in UnderClaim(db, code, round).rooms
            && Store.Load(UnderClaim(db, code, round), code) == Store.Load(db, code)
            && RolesOf(UnderClaim(db, code, round).rooms[code]) == RolesOf(db.rooms[code])
  {
    hide DbOk;
    RoomsOfDb(db);
    ClaimedRoundIsOpen(db, i);
    var code := db.deadlines[i].code;
    var rows := db.rooms[code];
    ClaimKeepsPersisted(code, rows, round);
  }

  lemma {:induction false} FewerRows<K, V>(all: map<K, V>, left: map<K, V>)
    requires left.Keys <= all.Keys
    ensures |left| <= |all|
  {
    assert |left| == |left.Keys| && |all| == |all.Keys|;
    SubsetCards(left.Keys, all.Keys);
  }

  lemma {:induction false} SubsetCards<K>(a: set<K>, b: set<K>)
    requires a <= b
    ensures |a| <= |b|
    decreases a
  {
    if a != {} {
      var x :| x in a;
      SubsetCards(a - {x}, b - {x});
    }
  }
}
