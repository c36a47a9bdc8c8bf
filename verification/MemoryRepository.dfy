// The in-memory repository as it runs: maps and a slice changed in place, one
// operation at a time.
module MemoryRepository {
  import opened Prelude
  import opened Game
  import opened Ledger
  import opened Money
  import opened OutboxWorker
  import opened Memory
  import Store
  import R = Room

  // No account owns two seats of a room.
  ghost predicate OneSeatEach(rooms: map<string, StoredRoom>) {
    forall c, i, j | c in rooms && i in rooms[c].owners && j in rooms[c].owners && i != j :: rooms[c].owners[i] != rooms[c].owners[j]
  }

  class Repository {
    var rooms: map<string, StoredRoom>
    var wallets: map<string, int>
    var recharges: map<string, Recharged>
    var history: seq<Played>
    var receipts: map<string, Kept>

    function State(): State
      reads this
    {
      Memory.State.State(rooms, wallets, recharges, history, receipts)
    }

    ghost predicate Valid()
      reads this
    {
      OneSeatEach(rooms)
    }

    constructor ()
      ensures Valid() && State() == EmptyState
    {
      rooms, wallets, recharges, history, receipts := map[], map[HouseWallet := 0], map[], [], map[];
    }

    method EnsureWallet(owner: string)
      modifies `wallets
      ensures wallets == Memory.EnsureWallet(old(wallets), owner) && owner in wallets
    {
      if owner !in wallets { wallets := wallets[owner := 0]; }
    }

    method Pay(owner: string, amount: int)
      modifies `wallets
      ensures wallets == Moved(old(wallets), owner, amount)
    {
      wallets := wallets[owner := Wrap64((if owner in wallets then wallets[owner] else 0) + amount)];
    }

    method FundRound(stored: StoredRoom, code: string, round: nat, joining: Option<string>) returns (err: Option<Error>)
      modifies `wallets
      ensures Funding(wallets, err) == Fund(old(wallets), stored, code, round, joining)
    {
      if round in stored.funded { return None; }
      var owners: seq<string> := [];
      var players := stored.room.players;
      for i := 0 to |players|
        invariant owners == Owners(stored, players[..i])
      {
        assert players[..i + 1][..i] == players[..i];
        owners := owners + [OwnerOf(stored, players[i].id)];
      }
      assert players[..|players|] == players;
      if joining.Some? { owners := owners + [joining.value]; }
      if |owners| != 2 { return Some(RoomNotReady); }
      for i := 0 to 2
        invariant i == 0 ==> wallets == old(wallets)
        invariant i >= 1 ==> var one := Memory.EnsureWallet(old(wallets), owners[0]);
                             one[owners[0]] >= RoundStake && wallets == if i == 1 then one else Memory.EnsureWallet(one, owners[1])
        invariant i >= 2 ==> wallets[owners[1]] >= RoundStake
      {
        EnsureWallet(owners[i]);
        if wallets[owners[i]] < RoundStake { return Some(InsufficientFunds); }
      }
      for i := 0 to 2
        invariant var two := Memory.EnsureWallet(Memory.EnsureWallet(old(wallets), owners[0]), owners[1]);
                  wallets == if i == 0 then two else if i == 1 then Moved(two, owners[0], -RoundStake)
                             else Moved(Moved(two, owners[0], -RoundStake), owners[1], -RoundStake)
      {
        Pay(owners[i], -RoundStake);
      }
      wallets := wallets[EscrowWallet(RoundKey(code, round)) := RoundStake * 2];
      return None;
    }

    method SettleRound(stored: StoredRoom, s: RoomState)
      requires |s.players| == 2
      modifies `wallets, `history
      ensures Settlement(wallets, history) == Memory.SettleRound(old(wallets), old(history), stored, s)
    {
      var key := RoundKey(s.code, s.round);
      var escrow := EscrowWallet(key);
      if escrow !in wallets || wallets[escrow] == 0 { return; }
      var owners := [OwnerOf(stored, s.players[0].id), OwnerOf(stored, s.players[1].id)];
      var houseEarnings, winnerRole := 0, None;
      if s.result == Draw {
        Pay(owners[0], RoundStake);
        Pay(owners[1], RoundStake);
      } else {
        var winner := 0;
        winnerRole := Some(Host);
        if s.result == PlayerTwoWins {
          winner := 1;
          winnerRole := Some(Guest);
        }
        Pay(owners[winner], WinnerPayout);
        Pay(HouseWallet, HousePayout);
        houseEarnings := HousePayout;
      }
      wallets := wallets[escrow := 0];
      history := [Played(key, s.result, winnerRole, s.forfeited != "", houseEarnings)] + history;
    }

    method Changed(code: string, stored: StoredRoom) returns (response: Store.Response)
      modifies `rooms
      ensures Turn(State(), Ok(response)) == Memory.Changed(old(State()), code, stored)
    {
      rooms := rooms[code := stored.(revision := stored.revision + 1)];
      return Store.RoomResponse(ViewOf(stored.room), stored.revision + 1);
    }

    // playerForAccount: a seat the account owns.
    method PlayerForAccount(owners: map<string, string>, account: string) returns (id: Option<string>)
      ensures match id
              case Some(i) => account != "" && i in owners && owners[i] == account
              case None => forall i | i in owners && owners[i] == account :: account == ""
    {
      if account == "" { return None; }
      var ids := owners.Keys;
      while ids != {}
        invariant ids <= owners.Keys && forall i | i in owners && i !in ids :: owners[i] != account
        decreases |ids|
      {
        var i :| i in ids;
        if owners[i] == account { return Some(i); }
        ids := ids - {i};
      }
      return None;
    }

    // The validated copy an operation works on, and the player it acts for.
    method Authenticate(code: string, account: string) returns (id: string, working: R.Room?, err: Option<Error>)
      requires Valid()
      ensures working != null ==> fresh(working) && working.Valid()
      ensures match WorkingCopy(State(), code, account)
              case Ok(w) => working != null && working.State() == w.state && id == w.id && err.None?
              case Err(e) => working == null && err == Some(e)
    {
      if code !in rooms { return "", null, Some(RoomNotFound); }
      var stored := rooms[code];
      var found := PlayerForAccount(stored.owners, account);
      if found.None? {
        NotASeat(stored, account);
        return "", null, Some(Unauthorized);
      }
      OnlySeat(State(), code, account, found.value);
      id := found.value;
      working, err := R.Restore(stored.room);
    }

    method Create(aggregate: R.Room, account: string) returns (r: Result<Store.Response, Error>)
      requires Valid() && aggregate.Valid()
      modifies this
      ensures Valid() && Turn(State(), r) == Memory.Create(old(State()), aggregate.State(), account)
    {
      var s := aggregate.State();
      EnsureWallet(account);
      if wallets[account] < RoundStake { return Err(InsufficientFunds); }
      if s.code in rooms { return Err(DuplicateRoom); }
      var stored, err := R.Restore(s);
      if err.Some? { return Err(err.value); }
      rooms := rooms[s.code := StoredRoom(stored.State(), 1, map[s.players[0].id := account], map[], {})];
      var view := aggregate.PublicView();
      return Ok(Store.RoomResponse(view, 1));
    }

    method JoinFunded(code: string, playerId: string, account: string, observedAt: int, deadline: int) returns (r: Result<Store.Response, Error>)
      requires Valid()
      modifies this
      ensures Valid() && Turn(State(), r) == Memory.JoinFunded(old(State()), code, playerId, account, observedAt, deadline)
    {
      hide Fund, ViewOf, Restorable, WellFormed, Game.Join;
      if code !in rooms { return Err(RoomNotFound); }
      var stored := rooms[code];
      if playerId in stored.owners { return Err(DuplicatePlayer); }
      if exists id | id in stored.owners :: stored.owners[id] == account { return Err(AccountSeated); }
      assert account !in stored.owners.Values;
      var working, err := R.Restore(stored.room);
      if err.Some? { return Err(err.value); }
      err := working.Join(playerId);
      if err.Some? { return Err(err.value); }
      EnsureWallet(account);
      err := FundRound(stored, code, working.round, Some(account));
      if err.Some? { return Err(err.value); }
      var presence := stored.presence;
      var players := working.players;
      for i := 0 to |players|
        invariant presence == Refreshed(stored.presence, players[..i], observedAt, deadline)
      {
        assert players[..i + 1][..i] == players[..i];
        var id := players[i].id;
        presence := presence[id := Seen((if id in presence then presence[id].generation else 0) + 1, observedAt, deadline)];
      }
      assert players[..|players|] == players;
      var response := Changed(code, stored.(room := working.State(), owners := stored.owners[playerId := account],
                                            funded := stored.funded + {working.round}, presence := presence));
      return Ok(response);
    }

    // Funds the round if it was not, settles it if it is resolved now, and
    // stores the working copy.
    method Finish(code: string, working: R.Room, settles: bool) returns (r: Result<Store.Response, Error>)
      requires Valid() && code in rooms && (settles ==> |working.players| == 2)
      modifies this
      ensures Valid() && Turn(State(), r) == Finished(old(State()), code, working.State(), settles)
    {
      hide Fund, Memory.SettleRound, ViewOf;
      var stored := rooms[code];
      if working.round !in stored.funded {
        var err := FundRound(stored, code, working.round, None);
        if err.Some? { return Err(err.value); }
      } else {
        FundedAlready(wallets, stored, code, working.round);
      }
      if settles { SettleRound(stored, working.State()); }
      var response := Changed(code, stored.(room := working.State(), funded := stored.funded + {working.round}));
      return Ok(response);
    }

    method SubmitMoveAndSettle(code: string, account: string, move: Move) returns (r: Result<Store.Response, Error>)
      requires Valid()
      modifies this
      ensures Valid() && Turn(State(), r) == Memory.SubmitMoveAndSettle(old(State()), code, account, move)
    {
      hide WorkingCopy, Finished, Game.SubmitMove;
      var id, working, err := Authenticate(code, account);
      if err.Some? { return Err(err.value); }
      var wasResolved := working.resolved;
      ghost var before := working.State();
      err := working.SubmitMove(id, move);
      if err.Some? { return Err(err.value); }
      AcceptedMove(before, id, move);
      r := Finish(code, working, !wasResolved && working.resolved);
    }

    method RequestNextRoundAndFund(code: string, account: string, round: nat) returns (r: Result<Store.Response, Error>)
      requires Valid()
      modifies this
      ensures Valid() && Turn(State(), r) == Memory.RequestNextRoundAndFund(old(State()), code, account, round)
    {
      hide WorkingCopy, Finished, Game.RequestNextRound, ViewOf;
      var id, working, err := Authenticate(code, account);
      if err.Some? { return Err(err.value); }
      var previousRound := working.round;
      err := working.RequestNextRound(id, round);
      if err.Some? { return Err(err.value); }
      if working.round > previousRound {
        r := Finish(code, working, false);
      } else {
        var response := Changed(code, rooms[code].(room := working.State()));
        return Ok(response);
      }
    }

    method Leave(code: string, account: string) returns (r: Result<Store.Response, Error>)
      requires Valid()
      modifies this
      ensures Valid() && Turn(State(), r) == Memory.LeaveRoom(old(State()), code, account)
    {
      hide WorkingCopy, Game.Leave, ViewOf;
      var id, working, err := Authenticate(code, account);
      if err.Some? { return Err(err.value); }
      err := working.Leave(id);
      if err.Some? { return Err(err.value); }
      var response := Changed(code, rooms[code].(room := working.State()));
      return Ok(response);
    }

    method Recharge(account: string, amount: int, key: string) returns (r: Result<Store.Response, Error>)
      requires Valid()
      modifies this
      ensures Valid() && Turn(State(), r) == Memory.Recharge(old(State()), account, amount, key)
    {
      var name := RechargeName(account, key);
      if name in recharges {
        if recharges[name].owner != account || recharges[name].amount != amount { return Err(IdempotencyConflict); }
        return Ok(Store.BalanceResponse(if account in wallets then wallets[account] else 0));
      }
      EnsureWallet(account);
      if amount > MaxInt64 - wallets[account] { return Err(InvalidCoinAmount); }
      Pay(account, amount);
      recharges := recharges[name := Recharged(account, amount)];
      return Ok(Store.BalanceResponse(wallets[account]));
    }

    method RefreshPresence(code: string, account: string, observedAt: int, deadline: int) returns (r: Result<seq<Lease>, Error>)
      requires Valid()
      modifies this
      ensures Valid() && Turn(State(), r) == Memory.RefreshPresence(old(State()), code, account, observedAt, deadline)
    {
      if code !in rooms { return Err(RoomNotFound); }
      var stored := rooms[code];
      var seat := PlayerForAccount(stored.owners, account);
      if seat.None? {
        NotASeat(stored, account);
        return Err(Unauthorized);
      }
      assert Owns(stored, account, seat.value);
      OnlyOwner(stored, account, seat.value);
      var seen := SeenAt(stored.presence, seat.value, observedAt, deadline);
      var presence := seen;
      var players := stored.room.players;
      for i := 0 to |players|
        invariant presence == NextGenerations(seen, players[..i])
      {
        assert players[..i + 1][..i] == players[..i];
        var id := players[i].id;
        if id in presence { presence := presence[id := presence[id].(generation := presence[id].generation + 1)]; }
      }
      var leases := [];
      for i := 0 to |players|
        invariant leases == LeasesOf(presence, players[..i], code, stored.room.round)
      {
        assert players[..i + 1][..i] == players[..i];
        var id := players[i].id;
        if id in presence { leases := leases + [Lease(code, id, stored.room.round, presence[id].generation, presence[id].deadline)]; }
      }
      assert players[..|players|] == players;
      ghost var spec := Memory.RefreshPresence(State(), code, account, observedAt, deadline);
      assert spec.answer == Ok(leases);
      assert spec.state == State().(rooms := rooms[code := stored.(presence := presence)]);
      rooms := rooms[code := stored.(presence := presence)];
      return Ok(leases);
    }

    method ForfeitExpired(lease: Lease, now: int) returns (r: Result<bool, Error>)
      requires Valid()
      modifies this
      ensures Valid() && Turn(State(), r) == Memory.ForfeitExpired(old(State()), lease, now)
    {
      hide Finished, Game.Forfeit, Restorable, WellFormed;
      if lease.code !in rooms { return Err(RoomNotFound); }
      var stored := rooms[lease.code];
      if lease.playerId !in stored.presence || stored.presence[lease.playerId].generation != lease.generation
         || now < stored.presence[lease.playerId].deadline {
        return Ok(false);
      }
      var remaining := false;
      var players := stored.room.players;
      for i := 0 to |players|
        invariant remaining == Remaining(stored, players[..i], lease, now)
      {
        assert players[..i + 1][..i] == players[..i];
        var id := players[i].id;
        if id != lease.playerId {
          remaining := id in stored.presence && now < stored.presence[id].deadline && stored.presence[id].refreshedAt > lease.proofAfter;
        }
      }
      assert players[..|players|] == players;
      if !remaining { return Ok(false); }
      var working, err := R.Restore(stored.room);
      if err.Some? { return Err(err.value); }
      ghost var before := working.State();
      err := working.Forfeit(lease.playerId, lease.round);
      if err.Some? {
        if Store.Harmless(err.value) { return Ok(false); }
        return Err(err.value);
      }
      AcceptedForfeit(before, lease.playerId, lease.round);
      var done := Finish(lease.code, working, true);
      match done {
        case Ok(_) => return Ok(true);
        case Err(e) => return Err(e);
      }
    }

    method Effect(account: string, key: string, call: Store.Call, now: int, deadline: int) returns (r: Result<Store.Response, Error>)
      requires Valid() && Store.Refusal(account, call).None?
      modifies this
      ensures Valid() && Turn(State(), r) == Memory.Effect(old(State()), account, key, call, now, deadline)
    {
      hide Memory.Create, Memory.JoinFunded, Memory.SubmitMoveAndSettle, Memory.RequestNextRoundAndFund, Memory.LeaveRoom, Memory.Recharge, OneSeatEach;
      match call {
        case CallCreate(code, playerId) =>
          var aggregate := new R.Room(Fresh(code, playerId));
          r := Create(aggregate, account);
        case CallJoin(code, playerId) => r := JoinFunded(code, playerId, account, now, deadline);
        case CallMove(code, move) => r := SubmitMoveAndSettle(code, account, move);
        case CallNextRound(code, round) => r := RequestNextRoundAndFund(code, account, round);
        case CallLeave(code) => r := Leave(code, account);
        case CallRecharge(amount) => r := Recharge(account, amount, key);
      }
    }

    // executeCommand: the first answer to a key, or the effect and its receipt.
    method ExecuteCommand(account: string, command: Store.Command, call: Store.Call, now: int, deadline: int) returns (r: Result<Store.Reply, Error>)
      requires Valid()
      modifies this
      ensures Valid() && Turn(State(), r) == Memory.Execute(old(State()), account, command, call, now, deadline)
    {
      hide Memory.Effect, OneSeatEach;
      var refusal := Store.Refusal(account, call);
      if refusal.Some? { return Err(refusal.value); }
      if command.key in receipts {
        var kept := receipts[command.key];
        if kept.account != account || kept.command.operation != command.operation || kept.command.hash != command.hash {
          return Err(IdempotencyConflict);
        }
        return Ok(Store.Reply(kept.response, true));
      }
      var done := Effect(account, command.key, call, now, deadline);
      if done.Err? { return Err(done.error); }
      receipts := receipts[command.key := Kept(account, command, done.value)];
      return Ok(Store.Reply(done.value, false));
    }
  }

  lemma {:induction false} NotASeat(stored: StoredRoom, account: string)
    requires forall i | i in stored.owners && stored.owners[i] == account :: account == ""
    ensures !exists id :: Owns(stored, account, id)
  {}

  lemma {:induction false} OnlyOwner(stored: StoredRoom, account: string, id: string)
    requires Owns(stored, account, id) && forall i, j | i in stored.owners && j in stored.owners && i != j :: stored.owners[i] != stored.owners[j]
    ensures forall i :: Owns(stored, account, i) <==> i == id
  {}

  // The seat found is the seat meant.
  lemma {:induction false} OnlySeat(m: State, code: string, account: string, id: string)
    requires code in m.rooms && OneSeatEach(m.rooms) && Owns(m.rooms[code], account, id)
    ensures exists i :: Owns(m.rooms[code], account, i)
    ensures WorkingCopy(m, code, account).Ok? ==> WorkingCopy(m, code, account).value.id == id
  {
    hide Restorable;
    if WorkingCopy(m, code, account).Ok? { assert Owns(m.rooms[code], account, WorkingCopy(m, code, account).value.id); }
  }

  lemma {:induction false} FundedAlready(wallets: map<string, int>, stored: StoredRoom, code: string, round: nat)
    requires round in stored.funded
    ensures Fund(wallets, stored, code, round, None) == Funding(wallets, None)
  {}

  lemma {:induction false} AcceptedMove(s: RoomState, id: string, move: Move)
    requires WellFormed(s) && SubmitMove(s, id, move).Ok?
    ensures !s.resolved && |SubmitMove(s, id, move).value.players| == 2
  {}

  lemma {:induction false} AcceptedForfeit(s: RoomState, id: string, round: nat)
    requires WellFormed(s) && Forfeit(s, id, round).Ok?
    ensures |Forfeit(s, id, round).value.players| == 2
  {}
}
