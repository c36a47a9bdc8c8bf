// The database as one value, and the transactions as functions on it. A
// transaction commits all its effects or none: a failed attempt has no
// database of its own. Class Repository.Repository runs the same transactions
// statement by statement.
module Store {
  import opened Prelude
  import opened Game
  import opened Ledger
  import opened Money
  import opened Tables
  import opened Outbox
  import Keys

  datatype Connection = Connection(code: string, role: Role, connectedAt: int, leaseExpiresAt: int, closedAt: Option<int>)

  datatype DeadlineKind = Disconnect(role: Role) | Inactivity

  datatype DeadlineStatus = Pending | Completed | Cancelled

  datatype Deadline = Deadline(
    code: string, round: nat, kind: DeadlineKind, generation: nat, dueAt: int, status: DeadlineStatus, completedAt: Option<int>)

  datatype Response = RoomResponse(view: View, revision: nat) | RecordedResponse(code: string, round: nat, resolved: bool, revision: nat) | BalanceResponse(balance: int)

  datatype Command = Command(key: string, operation: string, hash: string)

  datatype Receipt = Receipt(account: string, operation: string, hash: string, response: Response, expiresAt: int)

  datatype Db = Db(
    rooms: map<string, RoomRows>, connections: map<string, Connection>, deadlines: map<nat, Deadline>, nextDeadline: nat,
    funds: Funds, box: Box, receipts: map<string, Receipt>)

  // What a transaction attempts: a new database and an answer, or an error.
  datatype Attempt<+A> = Done(db: Db, answer: A) | Failed(error: Error)

  // Seconds, as in application/deadline.go and application/command.go.
  const DisconnectGrace := 20
  const InactivityLimit := 30
  const ReceiptRetention := 604800

  ghost function EmptyDb(): Db {
    Db(map[], map[], map[], 0, EmptyFunds(), EmptyBox, map[])
  }

  // ---- Building blocks ----

  ghost function Bump(db: Db, code: string, revision: nat, now: int): (r: Result<Db, Error>)
    ensures r.Ok? ==> r.value == db.(box := r.value.box)
  {
    match Outbox.Insert(db.box, RevisionKey(code, revision), now)
    case Ok(box) => Ok(db.(box := box))
    case Err(e) => Err(e)
  }

  // INSERT INTO room_deadlines ... ON CONFLICT DO NOTHING, under the identity index.
  ghost predicate DeadlineKnown(db: Db, code: string, round: nat, kind: DeadlineKind, generation: nat) {
    exists i | i in db.deadlines :: var d := db.deadlines[i]; d.code == code && d.round == round && d.kind == kind && d.generation == generation
  }

  ghost function WithDeadline(db: Db, code: string, round: nat, kind: DeadlineKind, generation: nat, dueAt: int): (r: Db)
    ensures r == db.(deadlines := r.deadlines, nextDeadline := r.nextDeadline)
  {
    if DeadlineKnown(db, code, round, kind, generation) then db
    else db.(deadlines := db.deadlines[db.nextDeadline := Deadline(code, round, kind, generation, dueAt, Pending, None)],
             nextDeadline := db.nextDeadline + 1)
  }

  // Cancels the pending deadlines in `ids`.
  ghost function WithCancelled(deadlines: map<nat, Deadline>, ids: set<nat>, now: int): map<nat, Deadline> {
    map i | i in deadlines ::
      if i in ids && deadlines[i].status.Pending? then deadlines[i].(status := Cancelled, completedAt := Some(now)) else deadlines[i]
  }

  ghost function WithRoom(db: Db, code: string, rows: RoomRows): Db {
    db.(rooms := db.rooms[code := rows])
  }

  function SeatAccounts(rows: RoomRows): seq<string> {
    (if Host in rows.seats then [rows.seats[Host].account] else []) + (if Guest in rows.seats then [rows.seats[Guest].account] else [])
  }

  function RoleOf(rows: RoomRows, account: string): Option<Role> {
    if Host in rows.seats && rows.seats[Host].account == account then Some(Host)
    else if Guest in rows.seats && rows.seats[Guest].account == account then Some(Guest)
    else None
  }

  // fundRound. `joining` is the account of a player who is not seated yet.
  ghost function FundRound(db: Db, code: string, round: nat, joining: Option<string>, now: int): (r: Result<Db, Error>)
    requires code in db.rooms
    ensures r.Ok? ==> code in r.value.rooms && r.value.rooms == db.rooms[code := r.value.rooms[code]]
  {
    var rows := db.rooms[code];
    var known := if round in rows.rounds then rows else rows.(rounds := rows.rounds[round := FreshRound]);
    if known.rounds[round].funded then
      Ok(WithDeadline(WithRoom(db, code, known), code, round, Inactivity, round, now + InactivityLimit))
    else
      var owners := SeatAccounts(rows) + match joining case Some(a) => [a] case None => [];
      if |owners| != 2 then Err(RoomNotReady)
      else match Stake(db.funds.book, RoundKey(code, round), owners[0], owners[1])
        case Err(e) => Err(e)
        case Ok(book) =>
          Ok(WithDeadline(WithRoom(db, code, WithRoundFunded(known, round)).(funds := db.funds.(book := book)),
                          code, round, Inactivity, round, now + InactivityLimit))
  }

  // settleRound
  ghost function SettleRound(db: Db, code: string, s: RoomState): (r: Result<Db, Error>)
    requires code in db.rooms
    ensures r.Ok? ==> r.value == db.(funds := r.value.funds)
  {
    var key := RoundKey(code, s.round);
    var owners := SeatAccounts(db.rooms[code]);
    if key in db.funds.history then Ok(db)
    else if |owners| != 2 then Err(RoomNotReady)
    else match Settle(db.funds, key, owners[0], owners[1], s.result, s.forfeited != "")
      case Err(e) => Err(e)
      case Ok(funds) => Ok(db.(funds := funds))
  }

  // load: the room's aggregate, validated.
  ghost function Load(db: Db, code: string): (r: Step)
    ensures r.Ok? ==> code in db.rooms && WellFormed(r.value)
  {
    if code !in db.rooms || db.rooms[code].currentRound !in db.rooms[code].rounds then Err(NoRows)
    else Restore(Persisted(code, db.rooms[code]))
  }

  // ---- Commands ----

  ghost function CreateRoom(db: Db, code: string, playerId: string, account: string, now: int): Attempt<Response> {
    var book := WithAccount(db.funds.book, User(account));
    match New(code, playerId)
    case Err(e) => Failed(e)
    case Ok(s) =>
      if book.balances[User(account)] < RoundStake then Failed(InsufficientFunds)
      else if code in db.rooms then Failed(DuplicateRoom)
      else
        var rows := RoomRows(false, 1, 1, map[Host := Seat(playerId, account, 0)], map[1 := FreshRound], map[], {}, map[]);
        match Bump(WithRoom(db, code, rows).(funds := db.funds.(book := book)), code, 1, now)
        case Err(e) => Failed(e)
        case Ok(after) => Done(after, RoomResponse(ViewOf(s), 1))
  }

  // The presence rows after a guest joined: both seats have one, and a row
  // that existed starts a new generation.
  function JoinedPresence(presence: map<Role, Presence>): map<Role, Presence> {
    map role | role in {Host, Guest} ::
      if role in presence then presence[role].(generation := presence[role].generation + 1) else Presence(1, false)
  }

  ghost function SaveAndBump(db: Db, code: string, s: RoomState, previousRound: nat, now: int): (r: Result<Db, Error>)
    requires code in db.rooms
    ensures r.Ok? ==> code in r.value.rooms && r.value.rooms == db.rooms[code := r.value.rooms[code]]
  {
    var revision := db.rooms[code].revision + 1;
    Bump(WithRoom(db, code, Saved(db.rooms[code], s, previousRound, revision)), code, revision, now)
  }

  // What joining changes before the aggregate is saved: the round is funded, the
  // guest is seated and both seats have a presence.
  ghost function SeatJoining(db: Db, code: string, round: nat, playerId: string, account: string, now: int): (r: Result<Db, Error>)
    requires code in db.rooms
    ensures r.Ok? ==> code in r.value.rooms
  {
    if RoleOf(db.rooms[code], account).Some? then Err(AccountSeated)
    else match FundRound(db, code, round, Some(account), now)
      case Err(e) => Err(e)
      case Ok(funded) =>
        var rows := funded.rooms[code];
        if Guest in rows.seats then Err(RoomFull)
        else Ok(WithRoom(funded, code, rows.(seats := rows.seats[Guest := Seat(playerId, account, 0)], presence := JoinedPresence(rows.presence))))
  }

  ghost function JoinRoom(db: Db, code: string, playerId: string, account: string, now: int): Attempt<Response> {
    if code !in db.rooms then Failed(RoomNotFound)
    else match Load(db, code)
      case Err(e) => Failed(e)
      case Ok(s) =>
        match Join(s, playerId)
        case Err(e) => Failed(e)
        case Ok(joined) =>
          match SeatJoining(db, code, s.round, playerId, account, now)
          case Err(e) => Failed(e)
          case Ok(seated) =>
            match SaveAndBump(seated, code, joined, s.round, now)
            case Err(e) => Failed(e)
            case Ok(after) => Done(after, RoomResponse(ViewOf(joined), after.rooms[code].revision))
  }

  // recordRoomAction, up to the insertion of the action itself. An expected
  // round of zero is not compared.
  ghost function ActionRole(db: Db, code: string, account: string, required: RoundStatus, expectedRound: nat): Result<Role, Error> {
    if code !in db.rooms || db.rooms[code].currentRound !in db.rooms[code].rounds then Err(RoomNotFound)
    else
      var rows := db.rooms[code];
      var round := rows.rounds[rows.currentRound];
      if rows.closed then Err(RoomClosed)
      else if expectedRound != 0 && expectedRound != rows.currentRound then Err(StaleRound)
      else if round.status != required then Err(if required.Active? then RoundResolved else RoundNotResolved)
      else match RoleOf(rows, account)
        case None => Err(Unauthorized)
        case Some(role) => if round.funded && Host in rows.seats && Guest in rows.seats then Ok(role) else Err(RoomNotReady)
  }

  ghost function Recorded(db: Db, code: string, rows: RoomRows, resolved: bool, now: int): Attempt<Response> {
    var revision := rows.revision + 1;
    match Bump(WithRoom(db, code, rows.(revision := revision)), code, revision, now)
    case Err(e) => Failed(e)
    case Ok(after) =>
      if Keys.HintFits(code, rows.currentRound) then Done(after, RecordedResponse(code, rows.currentRound, resolved, revision))
      else Failed(HintTooLong)
  }

  ghost function RecordMove(db: Db, code: string, account: string, move: Move, now: int): Attempt<Response> {
    match ActionRole(db, code, account, Active, 0)
    case Err(e) => Failed(e)
    case Ok(role) =>
      var rows := db.rooms[code];
      var key := RoundRole(rows.currentRound, role);
      if key in rows.moves then Failed(DuplicateMove)
      else Recorded(db, code, rows.(moves := rows.moves[key := move]), false, now)
  }

  ghost function RecordRequest(db: Db, code: string, account: string, round: nat, now: int): Attempt<Response> {
    match ActionRole(db, code, account, Resolved, round)
    case Err(e) => Failed(e)
    case Ok(role) =>
      var rows := db.rooms[code];
      var key := RoundRole(rows.currentRound, role);
      if key in rows.requests then Failed(NextRoundRequested)
      else Recorded(db, code, rows.(requests := rows.requests + {key}), true, now)
  }

  ghost function LeaveRoom(db: Db, code: string, account: string, now: int): Attempt<Response> {
    if code !in db.rooms then Failed(RoomNotFound)
    else match Load(db, code)
      case Err(e) => Failed(e)
      case Ok(s) =>
        match RoleOf(db.rooms[code], account)
        case None => Failed(Unauthorized)
        case Some(role) =>
          match Leave(s, db.rooms[code].seats[role].playerId)
          case Err(e) => Failed(e)
          case Ok(left) =>
            match SaveAndBump(db, code, left, s.round, now)
            case Err(e) => Failed(e)
            case Ok(after) => Done(after, RoomResponse(ViewOf(left), after.rooms[code].revision))
  }

  ghost function RechargeAccount(db: Db, account: string, key: string, amount: int): Attempt<Response> {
    match Recharge(db.funds.book, account, key, amount)
    case Err(e) => Failed(e)
    case Ok(book) => Done(db.(funds := db.funds.(book := book)), BalanceResponse(Lookup(book.balances, User(account))))
  }

  datatype Call =
    | CallCreate(code: string, playerId: string)
    | CallJoin(code: string, playerId: string)
    | CallMove(code: string, move: Move)
    | CallNextRound(code: string, round: nat)
    | CallLeave(code: string)
    | CallRecharge(amount: int)

  ghost function Effect(db: Db, account: string, key: string, call: Call, now: int): Attempt<Response> {
    match call
    case CallCreate(code, playerId) => CreateRoom(db, code, playerId, account, now)
    case CallJoin(code, playerId) => JoinRoom(db, code, playerId, account, now)
    case CallMove(code, move) => RecordMove(db, code, account, move, now)
    case CallNextRound(code, round) => RecordRequest(db, code, account, round, now)
    case CallLeave(code) => LeaveRoom(db, code, account, now)
    case CallRecharge(amount) => RechargeAccount(db, account, key, amount)
  }

  // What a command answers: its own effect, or the first result replayed.
  datatype Reply = Reply(response: Response, replayed: bool)

  predicate SameRequest(r: Receipt, account: string, command: Command) {
    r.account == account && r.operation == command.operation && r.hash == command.hash
  }

  // The checks made before the receipt is looked up.
  function Refusal(account: string, call: Call): Option<Error> {
    if account == "" then Some(Unauthorized)
    else match call
      case CallCreate(code, playerId) => (match New(code, playerId) case Err(e) => Some(e) case Ok(_) => None)
      case CallMove(_, move) => if IsValidMove(move) then None else Some(InvalidMove)
      case CallRecharge(amount) => if amount > 0 then None else Some(InvalidCoinAmount)
      case _ => None
  }

  // A command of an account: an earlier receipt of its key answers for it,
  // otherwise its effect and its receipt are committed together.
  ghost function Perform(db: Db, account: string, command: Command, call: Call, now: int): Attempt<Reply> {
    if command.key in db.receipts then
      var r := db.receipts[command.key];
      if SameRequest(r, account, command) then Done(db, Reply(r.response, true)) else Failed(IdempotencyConflict)
    else match Effect(db, account, command.key, call, now)
      case Failed(e) => Failed(e)
      case Done(after, response) =>
        Done(after.(receipts := after.receipts[command.key :=
                      Receipt(account, command.operation, command.hash, response, now + ReceiptRetention)]),
             Reply(response, false))
  }

  ghost function Execute(db: Db, account: string, command: Command, call: Call, now: int): Attempt<Reply> {
    if Refusal(account, call).Some? then Failed(Refusal(account, call).value) else Perform(db, account, command, call, now)
  }

  // ---- Reconciliation ----

  datatype Transition = Resolving | Advancing

  // claimRoomTransition: which transition of the round can be claimed.
  ghost function Eligible(db: Db, code: string, round: nat): Option<Transition> {
    if code !in db.rooms then None
    else
      var rows := db.rooms[code];
      if rows.closed || rows.currentRound != round || round !in rows.rounds then None
      else if rows.rounds[round].status.Active? && rows.rounds[round].funded
           && RoundRole(round, Host) in rows.moves && RoundRole(round, Guest) in rows.moves then Some(Resolving)
      else if rows.rounds[round].status.Resolved?
           && RoundRole(round, Host) in rows.requests && RoundRole(round, Guest) in rows.requests then Some(Advancing)
      else None
  }

  ghost function RoundDeadlines(db: Db, code: string, round: nat): set<nat> {
    set i | i in db.deadlines && db.deadlines[i].code == code && db.deadlines[i].round == round
  }

  // Saves the aggregate of a round that was just decided, and settles the round.
  ghost function SaveAndSettle(db: Db, code: string, t: RoomState, deadlines: map<nat, Deadline>, now: int): (r: Result<Db, Error>)
    requires code in db.rooms
    ensures r.Ok? ==> code in r.value.rooms && r.value.rooms == db.rooms[code := r.value.rooms[code]]
  {
    match SaveAndBump(db, code, t, t.round, now)
    case Err(e) => Err(e)
    case Ok(saved) =>
      match SettleRound(saved, code, t)
      case Err(e) => Err(e)
      case Ok(settled) => Ok(settled.(deadlines := deadlines))
  }

  ghost function Resolve(db: Db, code: string, s: RoomState, now: int): (r: Result<Db, Error>)
    requires code in db.rooms && WellFormed(s)
    ensures r.Ok? ==> code in r.value.rooms && r.value.rooms == db.rooms[code := r.value.rooms[code]]
  {
    match ResolveCommittedMoves(s, s.round)
    case Err(e) => Err(e)
    case Ok(t) =>
      SaveAndSettle(db, code, t, WithCancelled(db.deadlines, RoundDeadlines(db, code, s.round), now), now)
  }

  ghost function FundSaved(db: Db, saved: Db, code: string, round: nat, now: int): (r: Result<Db, Error>)
    requires code in saved.rooms && saved.rooms == db.rooms[code := saved.rooms[code]]
    ensures r.Ok? ==> code in r.value.rooms && r.value.rooms == db.rooms[code := r.value.rooms[code]]
  {
    FundRound(saved, code, round, None, now)
  }

  ghost function Advance(db: Db, code: string, s: RoomState, now: int): (r: Result<Db, Error>)
    requires code in db.rooms && WellFormed(s)
    ensures r.Ok? ==> code in r.value.rooms && r.value.rooms == db.rooms[code := r.value.rooms[code]]
  {
    match AdvanceCommittedNextRound(s, s.round)
    case Err(e) => Err(e)
    case Ok(t) =>
      match SaveAndBump(db, code, t, s.round, now)
      case Err(e) => Err(e)
      case Ok(saved) => FundSaved(db, saved, code, t.round, now)
  }

  // ReconcileRoom: None when there is nothing to claim.
  ghost function Reconcile(db: Db, code: string, round: nat, now: int): Option<Attempt<Transition>> {
    match Eligible(db, code, round)
    case None => None
    case Some(transition) =>
      match Load(db, code)
      case Err(e) => Some(Failed(e))
      case Ok(s) =>
        var next := if transition.Resolving? then Resolve(db, code, s, now) else Advance(db, code, s, now);
        match next
        case Err(e) => Some(Failed(e))
        case Ok(after) =>
          if Keys.HintFits(code, after.rooms[code].currentRound) then Some(Done(after, transition)) else Some(Failed(HintTooLong))
  }

  // ---- Presence ----

  ghost function OpenConnection(db: Db, id: string, code: string, account: string, sessionValid: bool, now: int, lease: int): Attempt<()> {
    if lease <= now then Failed(InvalidLease)
    else if code !in db.rooms then Failed(RoomNotFound)
    else match RoleOf(db.rooms[code], account)
      case None => Failed(Unauthorized)
      case Some(role) =>
        if !sessionValid then Failed(Unauthorized)
        else if id in db.connections then Failed(UniqueViolation)
        else
          var rows := db.rooms[code];
          var open := db.(connections := db.connections[id := Connection(code, role, now, lease, None)]);
          if role in rows.presence && rows.presence[role].present then Done(open, ())
          else
            var generation := if role in rows.presence then rows.presence[role].generation else 1;
            var revision := rows.revision + 1;
            var back := rows.(presence := rows.presence[role := Presence(generation, true)], revision := revision);
            var waiting := set i | i in db.deadlines && role in rows.presence && db.deadlines[i].code == code
                             && db.deadlines[i].round == rows.currentRound && db.deadlines[i].kind == Disconnect(role)
                             && db.deadlines[i].generation == generation;
            match Bump(WithRoom(open, code, back).(deadlines := WithCancelled(db.deadlines, waiting, now)), code, revision, now)
            case Err(e) => Failed(e)
            case Ok(after) => Done(after, ())
  }

  ghost function RenewConnection(db: Db, id: string, sessionValid: bool, now: int, lease: int): Attempt<()> {
    if lease <= now then Failed(InvalidLease)
    else if id !in db.connections || db.connections[id].closedAt.Some? || !sessionValid then Failed(Unauthorized)
    else if lease <= db.connections[id].connectedAt then Failed(CheckViolation)
    else Done(db.(connections := db.connections[id := db.connections[id].(leaseExpiresAt := lease)]), ())
  }

  // Another unclosed connection of the role whose lease outlasts `at`.
  ghost predicate LiveRole(db: Db, code: string, role: Role, at: int) {
    exists c | c in db.connections :: var k := db.connections[c]; k.code == code && k.role == role && k.closedAt.None? && k.leaseExpiresAt > at
  }

  // closeConnection: the answer says whether a connection was closed.
  ghost function CloseConnection(db: Db, id: string, at: int, expiredBy: Option<int>): Attempt<bool> {
    if id !in db.connections || db.connections[id].code !in db.rooms || db.connections[id].role !in db.rooms[db.connections[id].code].seats
    then Done(db, false)
    else
      var c := db.connections[id];
      var rows := db.rooms[c.code];
      if c.closedAt.Some? || (expiredBy.Some? && c.leaseExpiresAt > expiredBy.value) then Done(db, false)
      else if at < c.connectedAt then Failed(CheckViolation)
      else
        var closed := db.(connections := db.connections[id := c.(closedAt := Some(at))]);
        if LiveRole(closed, c.code, c.role, at) then Done(closed, true)
        else if c.role !in rows.presence then Failed(NoRows)
        else if !rows.presence[c.role].present then Done(closed, true)
        else
          var generation := rows.presence[c.role].generation + 1;
          var revision := rows.revision + 1;
          var gone := rows.(presence := rows.presence[c.role := Presence(generation, false)], revision := revision);
          match Bump(WithDeadline(WithRoom(closed, c.code, gone), c.code, rows.currentRound, Disconnect(c.role), generation, at + DisconnectGrace),
                     c.code, revision, at)
          case Err(e) => Failed(e)
          case Ok(after) => Done(after, true)
  }

  // ---- Deadlines ----

  ghost predicate Due(db: Db, i: nat, now: int) {
    i in db.deadlines && db.deadlines[i].status.Pending? && db.deadlines[i].dueAt <= now
  }

  ghost function DueIds(db: Db, now: int): (r: set<nat>)
    ensures r <= db.deadlines.Keys
  {
    set i | i in db.deadlines && Due(db, i, now)
  }

  // ORDER BY due_at, disconnect before inactivity, deadline_id
  ghost predicate Before(db: Db, i: nat, j: nat)
    requires i in db.deadlines && j in db.deadlines
  {
    var d, e := db.deadlines[i], db.deadlines[j];
    || d.dueAt < e.dueAt
    || (d.dueAt == e.dueAt && d.kind.Disconnect? && e.kind.Inactivity?)
    || (d.dueAt == e.dueAt && (d.kind.Disconnect? <==> e.kind.Disconnect?) && i < j)
  }

  ghost predicate IsFirst(db: Db, ids: set<nat>, i: nat)
    requires ids <= db.deadlines.Keys
  {
    i in ids && forall j | j in ids && j != i :: Before(db, i, j)
  }

  lemma {:induction false} FirstExists(db: Db, ids: set<nat>)
    requires ids <= db.deadlines.Keys && ids != {}
    ensures exists i :: IsFirst(db, ids, i)
    decreases ids
  {
    var k :| k in ids;
    if ids != {k} {
      FirstExists(db, ids - {k});
      var i :| IsFirst(db, ids - {k}, i);
      if Before(db, k, i) {
        assert forall j | j in ids && j != k && j != i :: j in ids - {k} && Before(db, i, j);
        assert IsFirst(db, ids, k);
      } else {
        assert forall j | j in ids && j != k && j != i :: j in ids - {k} && Before(db, i, j);
        assert IsFirst(db, ids, i);
      }
    } else {
      assert IsFirst(db, ids, k);
    }
  }

  ghost function First(db: Db, ids: set<nat>): (i: nat)
    requires ids <= db.deadlines.Keys && ids != {}
    ensures IsFirst(db, ids, i)
  {
    FirstExists(db, ids);
    var i :| IsFirst(db, ids, i);
    i
  }

  // The pending deadline may decide the current round of its room.
  ghost predicate Applicable(db: Db, i: nat)
    requires i in db.deadlines
  {
    var d := db.deadlines[i];
    d.code in db.rooms &&
    var rows := db.rooms[d.code];
    && rows.currentRound in rows.rounds && !rows.closed
    && rows.rounds[rows.currentRound].result.Unset? && rows.rounds[rows.currentRound].funded
    && (d.kind.Disconnect? ==>
          && d.kind.role in rows.seats && d.kind.role in rows.presence
          && rows.presence[d.kind.role].generation == d.generation && !rows.presence[d.kind.role].present)
  }

  function Other(role: Role): Role {
    match role case Host => Guest case Guest => Host
  }

  // How an applicable deadline resolves the round at `now`; None when the
  // absent role turns out to hold a live connection.
  ghost function Verdict(db: Db, i: nat, s: RoomState, now: int): Option<Step>
    requires i in db.deadlines && WellFormed(s)
  {
    var d := db.deadlines[i];
    match d.kind
    case Inactivity => Some(ResolveInactivity(s, s.round))
    case Disconnect(role) =>
      if LiveRole(db, d.code, role, now) then None
      else if LiveRole(db, d.code, Other(role), now) && Seated(s, role) then Some(Forfeit(s, PlayerAt(s, role).id, s.round))
      else Some(ResolveDeadlineDraw(s, s.round))
  }

  datatype DeadlineAnswer = Idle | Stale | Settled(deadline: nat, before: RoomState, after: RoomState)

  predicate Harmless(e: Error) {
    e.RoundResolved? || e.StaleRound? || e.RoomClosed?
  }

  // Claimed by the deadline worker: the candidate's round is the active,
  // funded, current round of an open room.
  ghost predicate DeadlineClaims(db: Db, i: nat)
    requires i in db.deadlines
  {
    var d := db.deadlines[i];
    d.code in db.rooms &&
    var rows := db.rooms[d.code];
    && !rows.closed && rows.currentRound == d.round && d.round in rows.rounds
    && rows.rounds[d.round].status.Active? && rows.rounds[d.round].funded
  }

  // The candidate's round is active and current, funded or not.
  ghost predicate RoundStillOpen(db: Db, i: nat)
    requires i in db.deadlines
  {
    var d := db.deadlines[i];
    d.code in db.rooms &&
    var rows := db.rooms[d.code];
    !rows.closed && rows.currentRound == d.round && d.round in rows.rounds && rows.rounds[d.round].status.Active?
  }

  ghost function DueOfRoom(db: Db, code: string, now: int): (r: set<nat>)
    ensures r <= db.deadlines.Keys
  {
    set i | i in db.deadlines && Due(db, i, now) && db.deadlines[i].code == code
  }

  ghost function ApplicableOfRoom(db: Db, code: string, now: int): (r: set<nat>)
    ensures r <= db.deadlines.Keys
  {
    set i | i in DueOfRoom(db, code, now) && Applicable(db, i)
  }

  ghost function Cancel(db: Db, ids: set<nat>, now: int): Db {
    db.(deadlines := WithCancelled(db.deadlines, ids, now))
  }

  // The deadlines of the room's round after deadline `i` settled it.
  ghost function Concluded(deadlines: map<nat, Deadline>, code: string, round: nat, i: nat, now: int): map<nat, Deadline> {
    map j | j in deadlines ::
      var d := deadlines[j];
      if d.code == code && d.round == round && d.status.Pending?
      then d.(status := if j == i then Completed else Cancelled, completedAt := Some(now)) else d
  }

  // The due deadlines of the room before deadline `i`.
  ghost function Skipped(db: Db, code: string, i: nat, now: int): (r: set<nat>)
    requires i in db.deadlines
    ensures r <= DueOfRoom(db, code, now)
  {
    set j | j in DueOfRoom(db, code, now) && Before(db, j, i)
  }

  // ProcessNextDeadline
  ghost function ProcessDeadline(db: Db, now: int): Attempt<DeadlineAnswer> {
    if DueIds(db, now) == {} then Done(db, Idle)
    else
      var candidate := First(db, DueIds(db, now));
      var code := db.deadlines[candidate].code;
      if !DeadlineClaims(db, candidate) then
        Done(if RoundStillOpen(db, candidate) then db else Cancel(db, {candidate}, now), Stale)
      else match Load(db, code)
        case Err(e) => Failed(e)
        case Ok(s) =>
          var due, applicable := DueOfRoom(db, code, now), ApplicableOfRoom(db, code, now);
          if applicable == {} then Done(Cancel(db, due, now), Stale)
          else
            var chosen := First(db, applicable);
            var pruned := Cancel(db, Skipped(db, code, chosen, now), now);
            match Verdict(db, chosen, s, now)
            case None => Done(Cancel(pruned, {chosen}, now), Stale)
            case Some(Err(e)) => if Harmless(e) then Done(Cancel(pruned, {chosen}, now), Stale) else Failed(e)
            case Some(Ok(t)) =>
              match SaveAndSettle(pruned, code, t, Concluded(pruned.deadlines, code, s.round, chosen, now), now)
              case Err(e) => Failed(e)
              case Ok(after) => Done(after, Settled(chosen, s, t))
  }

  // ---- Cleanup ----

  ghost function CleanupDeadlines(db: Db, before: int): Db {
    db.(deadlines := map i | i in db.deadlines &&
                       !(!db.deadlines[i].status.Pending? && db.deadlines[i].completedAt.Some? && db.deadlines[i].completedAt.value < before) ::
                       db.deadlines[i],
        connections := map c | c in db.connections &&
                         !(db.connections[c].closedAt.Some? && db.connections[c].closedAt.value < before) :: db.connections[c])
  }

  ghost function CleanupReceipts(db: Db, now: int): Db {
    db.(receipts := map k | k in db.receipts && db.receipts[k].expiresAt > now :: db.receipts[k])
  }

  // ---- Runs ----

  // One committed or rolled-back transaction of any process.
  datatype Tx =
    | TxCommand(account: string, command: Command, call: Call, now: int)
    | TxBalance(account: string)
    | TxReconcile(code: string, round: nat, now: int)
    | TxDeadline(now: int)
    | TxOpen(id: string, code: string, account: string, sessionValid: bool, now: int, lease: int)
    | TxRenew(id: string, sessionValid: bool, now: int, lease: int)
    | TxClose(id: string, at: int, expiredBy: Option<int>)
    | TxCleanupDeadlines(before: int)
    | TxCleanupReceipts(now: int)
    | TxOutbox(event: Event)

  ghost function Committed<A>(db: Db, attempt: Attempt<A>): Db {
    match attempt case Done(after, _) => after case Failed(_) => db
  }

  ghost function Next(db: Db, tx: Tx): Db {
    match tx
    case TxCommand(account, command, call, now) => Committed(db, Execute(db, account, command, call, now))
    case TxBalance(account) => db.(funds := db.funds.(book := WithAccount(db.funds.book, User(account))))
    case TxReconcile(code, round, now) =>
      (match Reconcile(db, code, round, now) case None => db case Some(attempt) => Committed(db, attempt))
    case TxDeadline(now) => Committed(db, ProcessDeadline(db, now))
    case TxOpen(id, code, account, sessionValid, now, lease) => Committed(db, OpenConnection(db, id, code, account, sessionValid, now, lease))
    case TxRenew(id, sessionValid, now, lease) => Committed(db, RenewConnection(db, id, sessionValid, now, lease))
    case TxClose(id, at, expiredBy) => Committed(db, CloseConnection(db, id, at, expiredBy))
    case TxCleanupDeadlines(before) => CleanupDeadlines(db, before)
    case TxCleanupReceipts(now) => CleanupReceipts(db, now)
    case TxOutbox(event) => if event.Inserted? then db else db.(box := Outbox.After(db.box, event))
  }

  ghost function Run(db: Db, txs: seq<Tx>): Db {
    if txs == [] then db else Next(Run(db, txs[..|txs| - 1]), txs[|txs| - 1])
  }
}
