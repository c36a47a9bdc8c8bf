// The in-memory repository: the same game and the same money, settled
// synchronously, with 64-bit wallets. Functions on values say what each
// operation does; class Repository in module MemoryRepository runs them.
module Memory {
  import opened Prelude
  import opened Game
  import opened Ledger
  import opened Money
  import opened Store
  import opened OutboxWorker
  import Keys

  datatype Seen = Seen(generation: nat, refreshedAt: int, deadline: int)

  datatype StoredRoom = StoredRoom(
    room: RoomState, revision: nat, owners: map<string, string>, presence: map<string, Seen>, funded: set<nat>)

  datatype Played = Played(key: RoundKey, result: Outcome, winner: Option<Role>, forfeited: bool, houseEarnings: int)

  datatype Recharged = Recharged(owner: string, amount: int)

  datatype Kept = Kept(account: string, command: Command, response: Response)

  datatype State = State(
    rooms: map<string, StoredRoom>, wallets: map<string, int>, recharges: map<string, Recharged>,
    history: seq<Played>, receipts: map<string, Kept>)

  // What an operation leaves, and its answer. A failed operation may have
  // created empty wallets.
  datatype Turn<+A> = Turn(state: State, answer: Result<A, Error>)

  const HouseWallet := "house"

  const EmptyState := State(map[], map[HouseWallet := 0], map[], [], map[])

  // Go's int64 addition.
  function Wrap64(x: int): int {
    (x + 0x8000_0000_0000_0000) % 0x1_0000_0000_0000_0000 - 0x8000_0000_0000_0000
  }

  function EscrowWallet(key: RoundKey): string {
    "escrow:" + Keys.Tail(key.code, key.round)
  }

  function RechargeName(owner: string, key: string): string {
    owner + ":" + key
  }

  function EnsureWallet(wallets: map<string, int>, owner: string): map<string, int> {
    if owner in wallets then wallets else wallets[owner := 0]
  }

  function Moved(wallets: map<string, int>, owner: string, amount: int): map<string, int> {
    wallets[owner := Wrap64(Lookup(wallets, owner) + amount)]
  }

  // The accounts of the players, in order.
  function OwnerOf(stored: StoredRoom, id: string): string {
    if id in stored.owners then stored.owners[id] else ""
  }

  function Owners(stored: StoredRoom, players: seq<Player>): seq<string> {
    if players == [] then [] else Owners(stored, players[..|players| - 1]) + [OwnerOf(stored, players[|players| - 1].id)]
  }

  // ---- Money ----

  datatype Funding = Funding(wallets: map<string, int>, err: Option<Error>)

  // fundRound: both owners pay their stake into the escrow of the round.
  function Fund(wallets: map<string, int>, stored: StoredRoom, code: string, round: nat, joining: Option<string>): Funding {
    if round in stored.funded then Funding(wallets, None)
    else
      var owners := Owners(stored, stored.room.players) + match joining case Some(a) => [a] case None => [];
      if |owners| != 2 then Funding(wallets, Some(RoomNotReady))
      else
        var one := EnsureWallet(wallets, owners[0]);
        if one[owners[0]] < RoundStake then Funding(one, Some(InsufficientFunds))
        else
          var two := EnsureWallet(one, owners[1]);
          if two[owners[1]] < RoundStake then Funding(two, Some(InsufficientFunds))
          else
            Funding(Moved(Moved(two, owners[0], -RoundStake), owners[1], -RoundStake)[EscrowWallet(RoundKey(code, round)) := RoundStake * 2], None)
  }

  datatype Settlement = Settlement(wallets: map<string, int>, history: seq<Played>)

  // settleRound: the escrow is paid out, unless it is empty.
  function SettleRound(wallets: map<string, int>, history: seq<Played>, stored: StoredRoom, s: RoomState): Settlement
    requires |s.players| == 2
  {
    var key := RoundKey(s.code, s.round);
    if Lookup(wallets, EscrowWallet(key)) == 0 then Settlement(wallets, history)
    else
      var host, guest := OwnerOf(stored, s.players[0].id), OwnerOf(stored, s.players[1].id);
      var effects := SettlementEffects(s.result, host, guest, key);
      var paid :=
        if s.result.Draw? then Moved(Moved(wallets, host, RoundStake), guest, RoundStake)
        else Moved(Moved(wallets, if s.result.PlayerTwoWins? then guest else host, WinnerPayout), HouseWallet, HousePayout);
      Settlement(paid[EscrowWallet(key) := 0], [Played(key, s.result, effects.winner, s.forfeited != "", effects.houseEarnings)] + history)
  }

  // ---- Operations ----

  // The player an account owns in the room; accounts own at most one seat.
  ghost predicate Owns(stored: StoredRoom, account: string, id: string) {
    account != "" && id in stored.owners && stored.owners[id] == account
  }

  // changed(): the next revision, and its snapshot.
  function Changed(m: State, code: string, stored: StoredRoom): Turn<Response> {
    var after := stored.(revision := stored.revision + 1);
    Turn(m.(rooms := m.rooms[code := after]), Ok(RoomResponse(ViewOf(stored.room), after.revision)))
  }

  ghost function Create(m: State, s: RoomState, account: string): Turn<Response>
    requires |s.players| > 0
  {
    var wallets := EnsureWallet(m.wallets, account);
    var n := m.(wallets := wallets);
    if wallets[account] < RoundStake then Turn(n, Err(InsufficientFunds))
    else if s.code in m.rooms then Turn(n, Err(DuplicateRoom))
    else match Restore(s)
      case Err(e) => Turn(n, Err(e))
      case Ok(room) =>
        Turn(n.(rooms := m.rooms[s.code := StoredRoom(room, 1, map[s.players[0].id := account], map[], {})]), Ok(RoomResponse(ViewOf(s), 1)))
  }

  // The presence of the players after a join: each in its next generation.
  function Refreshed(presence: map<string, Seen>, players: seq<Player>, observedAt: int, deadline: int): map<string, Seen> {
    if players == [] then presence else
      var before := Refreshed(presence, players[..|players| - 1], observedAt, deadline);
      var id := players[|players| - 1].id;
      before[id := Seen((if id in before then before[id].generation else 0) + 1, observedAt, deadline)]
  }

  ghost function JoinFunded(m: State, code: string, playerId: string, account: string, observedAt: int, deadline: int): Turn<Response> {
    if code !in m.rooms then Turn(m, Err(RoomNotFound))
    else
      var stored := m.rooms[code];
      if playerId in stored.owners then Turn(m, Err(DuplicatePlayer))
      else if account in stored.owners.Values then Turn(m, Err(AccountSeated))
      else match Restore(stored.room)
        case Err(e) => Turn(m, Err(e))
        case Ok(s) =>
          match Join(s, playerId)
          case Err(e) => Turn(m, Err(e))
          case Ok(working) =>
            var funding := Fund(EnsureWallet(m.wallets, account), stored, code, working.round, Some(account));
            var n := m.(wallets := funding.wallets);
            if funding.err.Some? then Turn(n, Err(funding.err.value))
            else
              Changed(n, code, stored.(room := working, owners := stored.owners[playerId := account], funded := stored.funded + {working.round},
                                       presence := Refreshed(stored.presence, working.players, observedAt, deadline)))
  }

  // The outcome of a decided working copy: funded if it was not, settled if it
  // was resolved now, and stored.
  ghost function Finished(m: State, code: string, working: RoomState, settles: bool): Turn<Response>
    requires code in m.rooms && (settles ==> |working.players| == 2)
  {
    var stored := m.rooms[code];
    var funding := Fund(m.wallets, stored, code, working.round, None);
    var n := m.(wallets := funding.wallets);
    if funding.err.Some? then Turn(n, Err(funding.err.value))
    else
      var settlement := if settles then SettleRound(n.wallets, n.history, stored, working) else Settlement(n.wallets, n.history);
      Changed(n.(wallets := settlement.wallets, history := settlement.history), code,
              stored.(room := working, funded := stored.funded + {working.round}))
  }

  // Looks up the room, the account's player and a validated working copy.
  datatype Working = Working(id: string, state: RoomState)

  ghost function WorkingCopy(m: State, code: string, account: string): (r: Result<Working, Error>)
    ensures r.Ok? ==> WellFormed(r.value.state)
    ensures r.Ok? ==> code in m.rooms && r.value.state == m.rooms[code].room && Restorable(r.value.state) && Owns(m.rooms[code], account, r.value.id)
  {
    if code !in m.rooms then Err(RoomNotFound)
    else
      var stored := m.rooms[code];
      if !exists id :: Owns(stored, account, id) then Err(Unauthorized)
      else match Restore(stored.room)
        case Err(e) => Err(e)
        case Ok(s) =>
          var id :| Owns(stored, account, id);
          Ok(Working(id, s))
  }

  ghost function SubmitMoveAndSettle(m: State, code: string, account: string, move: Move): Turn<Response> {
    match WorkingCopy(m, code, account)
    case Err(e) => Turn(m, Err(e))
    case Ok(w) =>
      match SubmitMove(w.state, w.id, move)
      case Err(e) => Turn(m, Err(e))
      case Ok(working) => Finished(m, code, working, working.resolved)
  }

  ghost function RequestNextRoundAndFund(m: State, code: string, account: string, round: nat): Turn<Response> {
    match WorkingCopy(m, code, account)
    case Err(e) => Turn(m, Err(e))
    case Ok(w) =>
      match RequestNextRound(w.state, w.id, round)
      case Err(e) => Turn(m, Err(e))
      case Ok(working) =>
        if working.round > w.state.round then Finished(m, code, working, false)
        else Changed(m, code, m.rooms[code].(room := working))
  }

  // Mutate, with Leave as its mutation.
  ghost function LeaveRoom(m: State, code: string, account: string): Turn<Response> {
    match WorkingCopy(m, code, account)
    case Err(e) => Turn(m, Err(e))
    case Ok(w) =>
      match Leave(w.state, w.id)
      case Err(e) => Turn(m, Err(e))
      case Ok(working) => Changed(m, code, m.rooms[code].(room := working))
  }

  function Recharge(m: State, account: string, amount: int, key: string): Turn<Response> {
    var name := RechargeName(account, key);
    if name in m.recharges then
      if m.recharges[name] != Recharged(account, amount) then Turn(m, Err(IdempotencyConflict))
      else Turn(m, Ok(BalanceResponse(Lookup(m.wallets, account))))
    else
      var wallets := EnsureWallet(m.wallets, account);
      if amount > MaxInt64 - wallets[account] then Turn(m.(wallets := wallets), Err(InvalidCoinAmount))
      else
        Turn(m.(wallets := Moved(wallets, account, amount), recharges := m.recharges[name := Recharged(account, amount)]),
                Ok(BalanceResponse(Wrap64(wallets[account] + amount))))
  }

  // ForfeitExpired: the answer says whether the player was forfeited.
  datatype Lease = Lease(code: string, playerId: string, round: nat, generation: nat, proofAfter: int)

  function Remaining(stored: StoredRoom, players: seq<Player>, lease: Lease, now: int): bool {
    if players == [] then false else
      var id := players[|players| - 1].id;
      if id == lease.playerId then Remaining(stored, players[..|players| - 1], lease, now)
      else id in stored.presence && now < stored.presence[id].deadline && stored.presence[id].refreshedAt > lease.proofAfter
  }

  ghost function ForfeitExpired(m: State, lease: Lease, now: int): Turn<bool> {
    if lease.code !in m.rooms then Turn(m, Err(RoomNotFound))
    else
      var stored := m.rooms[lease.code];
      if lease.playerId !in stored.presence || stored.presence[lease.playerId].generation != lease.generation
         || now < stored.presence[lease.playerId].deadline || !Remaining(stored, stored.room.players, lease, now) then Turn(m, Ok(false))
      else match Restore(stored.room)
        case Err(e) => Turn(m, Err(e))
        case Ok(s) =>
          match Forfeit(s, lease.playerId, lease.round)
          case Err(e) => Turn(m, if Harmless(e) then Ok(false) else Err(e))
          case Ok(working) =>
            var done := Finished(m, lease.code, working, true);
            Turn(done.state, match done.answer case Ok(_) => Ok(true) case Err(e) => Err(e))
  }

  // RefreshPresence: the player was seen, and every player who was ever seen
  // starts a new generation.
  function NextGenerations(presence: map<string, Seen>, players: seq<Player>): map<string, Seen> {
    if players == [] then presence else
      var before := NextGenerations(presence, players[..|players| - 1]);
      var id := players[|players| - 1].id;
      if id in before then before[id := before[id].(generation := before[id].generation + 1)] else before
  }

  function LeasesOf(presence: map<string, Seen>, players: seq<Player>, code: string, round: nat): seq<Lease> {
    if players == [] then [] else
      var before := LeasesOf(presence, players[..|players| - 1], code, round);
      var id := players[|players| - 1].id;
      if id in presence then before + [Lease(code, id, round, presence[id].generation, presence[id].deadline)] else before
  }

  function SeenAt(presence: map<string, Seen>, id: string, observedAt: int, deadline: int): map<string, Seen> {
    presence[id := Seen(if id in presence then presence[id].generation else 0, observedAt, deadline)]
  }

  ghost function RefreshPresence(m: State, code: string, account: string, observedAt: int, deadline: int): Turn<seq<Lease>> {
    if code !in m.rooms then Turn(m, Err(RoomNotFound))
    else
      var stored := m.rooms[code];
      if !exists id :: Owns(stored, account, id) then Turn(m, Err(Unauthorized))
      else
        var id :| Owns(stored, account, id);
        var presence := NextGenerations(SeenAt(stored.presence, id, observedAt, deadline), stored.room.players);
        Turn(m.(rooms := m.rooms[code := stored.(presence := presence)]), Ok(LeasesOf(presence, stored.room.players, code, stored.room.round)))
  }

  // ---- Commands ----

  ghost function Effect(m: State, account: string, key: string, call: Call, now: int, deadline: int): Turn<Response>
    requires Refusal(account, call).None?
  {
    match call
    case CallCreate(code, playerId) => Create(m, Fresh(code, playerId), account)
    case CallJoin(code, playerId) => JoinFunded(m, code, playerId, account, now, deadline)
    case CallMove(code, move) => SubmitMoveAndSettle(m, code, account, move)
    case CallNextRound(code, round) => RequestNextRoundAndFund(m, code, account, round)
    case CallLeave(code) => LeaveRoom(m, code, account)
    case CallRecharge(amount) => Recharge(m, account, amount, key)
  }

  // executeCommand, after the refusals of the service.
  ghost function Execute(m: State, account: string, command: Command, call: Call, now: int, deadline: int): Turn<Reply> {
    if Refusal(account, call).Some? then Turn(m, Err(Refusal(account, call).value))
    else if command.key in m.receipts then
      var r := m.receipts[command.key];
      if r.account != account || r.command.operation != command.operation || r.command.hash != command.hash
      then Turn(m, Err(IdempotencyConflict)) else Turn(m, Ok(Reply(r.response, true)))
    else
      var done := Effect(m, account, command.key, call, now, deadline);
      match done.answer
      case Err(e) => Turn(done.state, Err(e))
      case Ok(response) =>
        Turn(done.state.(receipts := done.state.receipts[command.key := Kept(account, command, response)]), Ok(Reply(response, false)))
  }

  // ---- Runs ----

  datatype Event =
    | Commanded(account: string, command: Command, call: Call, now: int, deadline: int)
    | Balanced(account: string)
    | Expired(lease: Lease, now: int)
    | Appeared(code: string, account: string, observedAt: int, deadline: int)

  ghost function Next(m: State, e: Event): State {
    match e
    case Commanded(account, command, call, now, deadline) => Execute(m, account, command, call, now, deadline).state
    case Balanced(account) => m.(wallets := EnsureWallet(m.wallets, account))
    case Expired(lease, now) => ForfeitExpired(m, lease, now).state
    case Appeared(code, account, observedAt, deadline) => RefreshPresence(m, code, account, observedAt, deadline).state
  }

  ghost function Run(m: State, events: seq<Event>): State {
    if events == [] then m else Next(Run(m, events[..|events| - 1]), events[|events| - 1])
  }
}
