// Every operation of the in-memory repository keeps its invariant, so every
// run conserves coins.
module MemoryRuns {
  import opened Prelude
  import opened Game
  import opened GameRuns
  import opened Ledger
  import opened Money
  import opened OutboxWorker
  import opened Memory
  import opened MemoryInvariant
  import Store
  import Keys

  lemma {:induction false} OwnersOfTwo(stored: StoredRoom, players: seq<Player>)
    ensures |players| == 1 ==> Owners(stored, players) == [OwnerOf(stored, players[0].id)]
    ensures |players| == 2 ==> Owners(stored, players) == [OwnerOf(stored, players[0].id), OwnerOf(stored, players[1].id)]
    ensures |Owners(stored, players)| == |players|
    decreases players
  {
    if |players| > 0 {
      OwnersOfTwo(stored, players[..|players| - 1]);
    }
  }

  // The money of a room whose two seats are taken.
  lemma {:induction false} SeatedOwners(rooms: Rooms, wallets: map<string, int>, code: string)
    requires RoomsOk(rooms) && WalletsOk(rooms, wallets) && code in rooms && |rooms[code].room.players| == 2
    ensures var r := rooms[code];
            var host, guest := OwnerOf(r, r.room.players[0].id), OwnerOf(r, r.room.players[1].id);
            && Owners(r, r.room.players) == [host, guest]
            && host != guest && SafeAccount(host) && SafeAccount(guest) && {host, guest, HouseWallet} <= wallets.Keys
            && (forall id | id in r.owners :: r.owners[id] == host || r.owners[id] == guest)
            && r.room.round in r.funded && r.room.round + 1 !in r.funded
            && forall key :: host != EscrowWallet(key) && guest != EscrowWallet(key) && HouseWallet != EscrowWallet(key)
  {
    var r := rooms[code];
    assert RoomOk(code, r);
    OwnersOfTwo(r, r.room.players);
    var host, guest := OwnerOf(r, r.room.players[0].id), OwnerOf(r, r.room.players[1].id);
    assert r.room.players[0].id in r.owners && r.room.players[1].id in r.owners;
    forall key ensures host != EscrowWallet(key) && guest != EscrowWallet(key) && HouseWallet != EscrowWallet(key) {
      SafeIsNoEscrow(host, key);
      SafeIsNoEscrow(guest, key);
      SafeIsNoEscrow(HouseWallet, key);
    }
  }

  // The same coins in the wallets, and nothing recharged.
  lemma {:induction false} Assembled(m: State, n: State)
    requires MemoryOk(m) && n.recharges == m.recharges && Total(n.wallets) == Total(m.wallets)
    requires RoomsOk(n.rooms) && WalletsOk(n.rooms, n.wallets) && HistoryOk(n.rooms, n.wallets, n.history)
    ensures MemoryOk(n) && RechargeTotal(n) == RechargeTotal(m)
  {}

  lemma {:induction false} WorkingFacts(m: State, code: string, account: string)
    requires MemoryOk(m) && WorkingCopy(m, code, account).Ok?
    ensures var w := WorkingCopy(m, code, account).value;
            code in m.rooms && w.state == m.rooms[code].room && RoomOk(code, m.rooms[code]) && WellFormed(w.state) && HasPlayer(w.state, w.id)
  {}

  // An operation of the aggregate on the working copy.
  ghost predicate Steps(s: RoomState, op: Op, t: RoomState) {
    Restorable(s) && Apply(s, op) == Ok(t) && !Spoils(s, op)
  }

  lemma {:induction false} StepKeepsRoomOk(code: string, r: StoredRoom, op: Op, t: RoomState)
    requires RoomOk(code, r) && Steps(r.room, op, t) && t.round == r.room.round && |t.players| == |r.room.players|
    requires !op.OpJoin? && (t.resolved || |t.players| == 1 || t.players[0].id !in t.moves || t.players[1].id !in t.moves)
    requires |t.players| == 1 ==> t.moves == r.room.moves
    requires (forall id :: HasPlayer(t, id) <==> HasPlayer(r.room, id)) && t.code == r.room.code
    requires |t.players| == 2 ==> t.players[0].id == r.room.players[0].id && t.players[1].id == r.room.players[1].id
    ensures RoomOk(code, r.(room := t, revision := r.revision + 1))
  {
    hide WellFormed, Spoils;
    StepKeepsRestorable(r.room, op);
  }

  // Storing an aggregate whose round is still in the same state.
  lemma {:induction false} ChangedKeeps(m: State, code: string, r: StoredRoom)
    requires MemoryOk(m) && code in m.rooms && SameRounds(m.rooms[code], r) && RoomOk(code, r.(revision := r.revision + 1))
    ensures MemoryOk(Changed(m, code, r).state) && RechargeTotal(Changed(m, code, r).state) == RechargeTotal(m)
  {
    hide RoomOk, RoomsOk, WalletsOk, HistoryOk;
    SameRoundsKeep(m.rooms, m.wallets, m.history, code, r.(revision := r.revision + 1));
    Assembled(m, Changed(m, code, r).state);
  }

  // A funded round that is resolved now: it is settled once and stored.
  lemma {:induction false} ResolvedKeeps(m: State, code: string, op: Op, t: RoomState)
    requires MemoryOk(m) && code in m.rooms && Steps(m.rooms[code].room, op, t) && !m.rooms[code].room.resolved && t.resolved
    requires op.OpSubmit? || op.OpForfeit?
    ensures |t.players| == 2
    ensures var r := Finished(m, code, t, true);
            r.answer.Ok? && MemoryOk(r.state) && RechargeTotal(r.state) == RechargeTotal(m)
  {
    hide RoomsOk, WalletsOk, HistoryOk, Restorable, RoomOk, Owners, SettleRound, EscrowWallet, Steps, OwnerOf, Share;
    var stored := m.rooms[code];
    RoomOfMemory(m, code);
    ResolvedShape(stored.room, op, t);
    SeatedOwners(m.rooms, m.wallets, code);
    var host, guest := OwnerOf(stored, t.players[0].id), OwnerOf(stored, t.players[1].id);
    OpenEscrow(m, code);
    PayOutMoves(m.wallets, m.history, stored, t);
    StepKeepsRoomOk(code, stored, op, t);
    FinishedShape(m, code, t);
    var settlement := SettleRound(m.wallets, m.history, stored, t);
    SettlingKeeps(m.rooms, m.wallets, m.history, code, stored.(room := t, revision := stored.revision + 1),
                  host, guest, settlement.wallets, settlement.history[0]);
    Assembled(m, Finished(m, code, t, true).state);
  }

  lemma {:induction false} FinishedShape(m: State, code: string, t: RoomState)
    requires code in m.rooms && t.round in m.rooms[code].funded && |t.players| == 2
    ensures var stored, settlement := m.rooms[code], SettleRound(m.wallets, m.history, m.rooms[code], t);
            && Finished(m, code, t, true).answer.Ok?
            && Finished(m, code, t, true).state
               == m.(wallets := settlement.wallets, history := settlement.history,
                     rooms := m.rooms[code := stored.(room := t, revision := stored.revision + 1)])
  {
    hide SettleRound, ViewOf;
    assert m.rooms[code].funded + {t.round} == m.rooms[code].funded;
  }

  lemma {:induction false} RoomOfMemory(m: State, code: string)
    requires MemoryOk(m) && code in m.rooms
    ensures RoomOk(code, m.rooms[code])
  {}

  lemma {:induction false} ResolvedShape(s: RoomState, op: Op, t: RoomState)
    requires Steps(s, op, t) && !s.resolved && t.resolved && (op.OpSubmit? || op.OpForfeit?)
    ensures |t.players| == 2 && |s.players| == 2 && t.round == s.round && t.code == s.code && IsDecided(t.result)
    ensures t.players[0].id == s.players[0].id && t.players[1].id == s.players[1].id
    ensures forall id :: HasPlayer(t, id) <==> HasPlayer(s, id)
  {}

  lemma {:induction false} OpenEscrow(m: State, code: string)
    requires MemoryOk(m) && code in m.rooms && |m.rooms[code].room.players| == 2 && !m.rooms[code].room.resolved
    ensures var key := RoundKey(code, m.rooms[code].room.round);
            Lookup(m.wallets, EscrowWallet(key)) == RoundStake * 2
            && (forall w | w in m.wallets :: m.wallets[w] >= 0) && Total(m.wallets) <= MaxInt64
  {
    var key := RoundKey(code, m.rooms[code].room.round);
    assert RoomOk(code, m.rooms[code]);
    assert FundedIn(m.rooms, key) && OpenIn(m.rooms, key);
  }

  lemma {:induction false} MoveKeepsOk(m: State, code: string, account: string, move: Move)
    requires MemoryOk(m)
    ensures var r := SubmitMoveAndSettle(m, code, account, move); MemoryOk(r.state) && RechargeTotal(r.state) == RechargeTotal(m)
  {
    hide MemoryOk, RoomOk, Restorable, RoomsOk;
    var copy := WorkingCopy(m, code, account);
    if copy.Ok? && SubmitMove(copy.value.state, copy.value.id, move).Ok? {
      var w := copy.value;
      WorkingFacts(m, code, account);
      var t := SubmitMove(w.state, w.id, move).value;
      SubmittedShape(w.state, w.id, move);
      if t.resolved {
        ResolvedKeeps(m, code, OpSubmit(w.id, move), t);
      } else {
        StepKeepsRoomOk(code, m.rooms[code], OpSubmit(w.id, move), t);
        AlreadyFunded(m, code, t, false);
        ChangedKeeps(m, code, m.rooms[code].(room := t));
      }
    }
  }

  lemma {:induction false} SubmittedShape(s: RoomState, id: string, move: Move)
    requires Restorable(s) && SubmitMove(s, id, move).Ok?
    ensures var t := SubmitMove(s, id, move).value;
            && Steps(s, OpSubmit(id, move), t) && !s.resolved && |s.players| == 2 && |t.players| == 2 && t.round == s.round && t.code == s.code
            && (!t.resolved ==> t.players == s.players && (t.players[0].id !in t.moves || t.players[1].id !in t.moves))
            && (forall i :: HasPlayer(t, i) <==> HasPlayer(s, i))
  {}

  // Two seats taken: the round is funded already.
  lemma {:induction false} AlreadyFunded(m: State, code: string, t: RoomState, settles: bool)
    requires MemoryOk(m) && code in m.rooms && |m.rooms[code].room.players| == 2 && t.round == m.rooms[code].room.round && !settles
    ensures Finished(m, code, t, false) == Changed(m, code, m.rooms[code].(room := t))
  {
    assert RoomOk(code, m.rooms[code]);
    assert m.rooms[code].funded + {t.round} == m.rooms[code].funded;
  }

  lemma {:induction false} LeaveKeepsOk(m: State, code: string, account: string)
    requires MemoryOk(m)
    ensures var r := LeaveRoom(m, code, account); MemoryOk(r.state) && RechargeTotal(r.state) == RechargeTotal(m)
  {
    hide MemoryOk, RoomOk, Restorable, RoomsOk;
    var copy := WorkingCopy(m, code, account);
    if copy.Ok? && Leave(copy.value.state, copy.value.id).Ok? {
      var w := copy.value;
      WorkingFacts(m, code, account);
      LeftShape(code, m.rooms[code], w.id);
      StepKeepsRoomOk(code, m.rooms[code], OpLeave(w.id), Leave(w.state, w.id).value);
      ChangedKeeps(m, code, m.rooms[code].(room := Leave(w.state, w.id).value));
    }
  }

  lemma {:induction false} LeftShape(code: string, r: StoredRoom, id: string)
    requires RoomOk(code, r) && Leave(r.room, id).Ok?
    ensures Leave(r.room, id).value == r.room.(closed := true) && Steps(r.room, OpLeave(id), r.room.(closed := true))
    ensures !r.room.resolved ==> |r.room.players| == 1
    ensures forall i :: HasPlayer(r.room.(closed := true), i) <==> HasPlayer(r.room, i)
  {}

  lemma {:induction false} RequestKeepsOk(m: State, code: string, account: string, round: nat)
    requires MemoryOk(m)
    ensures var r := RequestNextRoundAndFund(m, code, account, round); MemoryOk(r.state) && RechargeTotal(r.state) == RechargeTotal(m)
  {
    hide MemoryOk, RoomOk, Restorable, RoomsOk;
    var copy := WorkingCopy(m, code, account);
    if copy.Ok? && RequestNextRound(copy.value.state, copy.value.id, round).Ok? {
      var w := copy.value;
      WorkingFacts(m, code, account);
      var t := RequestNextRound(w.state, w.id, round).value;
      AskedShape(w.state, w.id, round);
      if t.round > w.state.round {
        AdvanceKeepsOk(m, code, t);
      } else {
        StepKeepsRoomOk(code, m.rooms[code], OpRequest(w.id, round), t);
        ChangedKeeps(m, code, m.rooms[code].(room := t));
      }
    }
  }

  lemma {:induction false} AskedShape(s: RoomState, id: string, round: nat)
    requires Restorable(s) && RequestNextRound(s, id, round).Ok?
    ensures var t := RequestNextRound(s, id, round).value;
            && Steps(s, OpRequest(id, round), t) && s.resolved && |s.players| == 2 && t.players == s.players && t.code == s.code
            && (forall i :: HasPlayer(t, i) <==> HasPlayer(s, i))
            && (t.round > s.round ==> t == NextRound(s))
            && (t.round <= s.round ==> t.round == s.round && t.resolved)
  {}

  // Both owners pay for the next round, or nothing changes.
  lemma {:induction false} AdvanceKeepsOk(m: State, code: string, t: RoomState)
    requires MemoryOk(m) && code in m.rooms && m.rooms[code].room.resolved && |m.rooms[code].room.players| == 2 && t == NextRound(m.rooms[code].room)
    ensures var r := Finished(m, code, t, false); MemoryOk(r.state) && RechargeTotal(r.state) == RechargeTotal(m)
    ensures Finished(m, code, t, false).answer.Err? ==> Finished(m, code, t, false).state == m
  {
    hide RoomOk, RoomsOk, WalletsOk, HistoryOk, Restorable, Fund, OwnerOf, EscrowWallet, ViewOf;
    var stored := m.rooms[code];
    RoomOfMemory(m, code);
    SeatedOwners(m.rooms, m.wallets, code);
    var host, guest := OwnerOf(stored, stored.room.players[0].id), OwnerOf(stored, stored.room.players[1].id);
    var key := RoundKey(code, t.round);
    var funding := Fund(m.wallets, stored, code, t.round, None);
    NextFundingFails(m, code, t.round);
    if funding.err.None? {
      NextEscrow(m, code);
      FundMoves(m.wallets, stored, code, t.round, None, host, guest);
      NextRoomOk(code, stored);
      FundingKeeps(m.rooms, m.wallets, m.history, code, stored.(room := t, funded := stored.funded + {t.round}, revision := stored.revision + 1),
                   t.round, host, guest, funding.wallets);
      Assembled(m, Finished(m, code, t, false).state);
    }
  }

  lemma {:induction false} NextFundingFails(m: State, code: string, round: nat)
    requires MemoryOk(m) && code in m.rooms && |m.rooms[code].room.players| == 2
    ensures var funding := Fund(m.wallets, m.rooms[code], code, round, None); funding.err.Some? ==> funding.wallets == m.wallets
  {
    hide RoomOk, EscrowWallet;
    RoomOfMemory(m, code);
    SeatedOwners(m.rooms, m.wallets, code);
  }

  lemma {:induction false} NextEscrow(m: State, code: string)
    requires MemoryOk(m) && code in m.rooms && m.rooms[code].room.resolved
    ensures EscrowWallet(RoundKey(code, m.rooms[code].room.round + 1)) !in m.wallets
    ensures forall n | n in m.rooms[code].funded :: n != m.rooms[code].room.round + 1 && !OpenIn(m.rooms, RoundKey(code, n))
    ensures (forall w | w in m.wallets :: m.wallets[w] >= 0) && Total(m.wallets) <= MaxInt64
  {
    hide Keys.NoColon;
    var key := RoundKey(code, m.rooms[code].room.round + 1);
    assert RoomOk(code, m.rooms[code]);
    assert !FundedIn(m.rooms, key);
    UnfundedEscrow(m.rooms, m.wallets, key);
  }

  lemma {:induction false} UnfundedEscrow(rooms: Rooms, wallets: map<string, int>, key: RoundKey)
    requires WalletsOk(rooms, wallets) && !FundedIn(rooms, key)
    ensures EscrowWallet(key) !in wallets
  {
    var w := EscrowWallet(key);
    if w in wallets {
      if w == HouseWallet || SafeAccount(w) { SafeIsNoEscrow(w, key); }
      var k :| w == EscrowWallet(k) && FundedIn(rooms, k);
      EscrowsDiffer(k, key);
    }
  }

  lemma {:induction false} NextRoomOk(code: string, r: StoredRoom)
    requires RoomOk(code, r) && r.room.resolved
    ensures RoomOk(code, r.(room := NextRound(r.room), funded := r.funded + {r.room.round + 1}, revision := r.revision + 1))
  {
    var t := NextRound(r.room);
    assert forall id :: HasPlayer(t, id) <==> HasPlayer(r.room, id);
  }

  // ---- Creating and joining ----

  lemma {:induction false} CreateKeepsOk(m: State, code: string, playerId: string, account: string)
    requires MemoryOk(m) && SafeAccount(account) && New(code, playerId).Ok?
    ensures var r := Create(m, Fresh(code, playerId), account); MemoryOk(r.state) && RechargeTotal(r.state) == RechargeTotal(m)
  {
    hide RoomsOk, WalletsOk, HistoryOk;
    EnsureKeeps(m.rooms, m.wallets, m.history, account);
    var wallets := EnsureWallet(m.wallets, account);
    var n := m.(wallets := wallets);
    Assembled(m, n);
    if wallets[account] >= RoundStake && code !in m.rooms {
      var r := StoredRoom(Fresh(code, playerId), 1, map[playerId := account], map[], {});
      assert RoomOk(code, r);
      NewRoomKeeps(n, code, r, account);
      Assembled(n, n.(rooms := n.rooms[code := r]));
    }
  }

  lemma {:induction false} NewRoomKeeps(m: State, code: string, r: StoredRoom, account: string)
    requires MemoryOk(m) && code !in m.rooms && RoomOk(code, r) && r.funded == {} && account in m.wallets
    requires forall id | id in r.owners :: r.owners[id] == account
    ensures var rooms := m.rooms[code := r];
            RoomsOk(rooms) && WalletsOk(rooms, m.wallets) && HistoryOk(rooms, m.wallets, m.history)
  {
    hide RoomOk;
    var rooms := m.rooms[code := r];
    forall key ensures FundedIn(rooms, key) == FundedIn(m.rooms, key) && OpenIn(rooms, key) == OpenIn(m.rooms, key) {}
    forall w | w in m.wallets ensures w == HouseWallet || SafeAccount(w) || exists key :: w == EscrowWallet(key) && FundedIn(rooms, key) {
      if !(w == HouseWallet || SafeAccount(w)) {
        var key :| w == EscrowWallet(key) && FundedIn(m.rooms, key);
        assert FundedIn(rooms, key);
      }
    }
  }

  lemma {:induction false} JoinKeepsOk(m: State, code: string, playerId: string, account: string, observedAt: int, deadline: int)
    requires MemoryOk(m) && SafeAccount(account)
    ensures var r := JoinFunded(m, code, playerId, account, observedAt, deadline); MemoryOk(r.state) && RechargeTotal(r.state) == RechargeTotal(m)
  {
    hide MemoryOk, RoomOk, Restorable, Refreshed, Fund, RechargeTotal;
    var ready := m.(wallets := EnsureWallet(m.wallets, account));
    EnsureKeepsOk(m, account);
    if code in m.rooms && playerId !in m.rooms[code].owners && account !in m.rooms[code].owners.Values {
      var stored := m.rooms[code];
      RoomOfMemory(m, code);
      RoomIsRestorable(code, stored);
      if Join(stored.room, playerId).Ok? {
        var working := Join(stored.room, playerId).value;
        JoinShape(code, stored, playerId, account);
        JoinFundingFails(ready, code, working.round, account);
        var funding := Fund(ready.wallets, stored, code, 1, Some(account));
        if funding.err.None? {
          var after := stored.(room := working, owners := stored.owners[playerId := account], funded := stored.funded + {working.round},
                               presence := Refreshed(stored.presence, working.players, observedAt, deadline), revision := stored.revision + 1);
          JoinedKeepsOk(ready, code, playerId, account, after);
        }
      }
    }
  }

  lemma {:induction false} EnsureKeepsOk(m: State, account: string)
    requires MemoryOk(m) && SafeAccount(account)
    ensures var n := m.(wallets := EnsureWallet(m.wallets, account)); MemoryOk(n) && RechargeTotal(n) == RechargeTotal(m)
  {
    hide RoomsOk, WalletsOk, HistoryOk;
    EnsureKeeps(m.rooms, m.wallets, m.history, account);
  }

  lemma {:induction false} JoinedKeepsOk(m: State, code: string, playerId: string, account: string, after: StoredRoom)
    requires MemoryOk(m) && SafeAccount(account) && code in m.rooms && RoomOk(code, m.rooms[code]) && account !in m.rooms[code].owners.Values
    requires Join(m.rooms[code].room, playerId).Ok? && Fund(m.wallets, m.rooms[code], code, 1, Some(account)).err.None?
    requires after.room == Join(m.rooms[code].room, playerId).value
    requires after.owners == m.rooms[code].owners[playerId := account] && after.funded == m.rooms[code].funded + {1}
    ensures var n := m.(wallets := Fund(m.wallets, m.rooms[code], code, 1, Some(account)).wallets, rooms := m.rooms[code := after]);
            MemoryOk(n) && RechargeTotal(n) == RechargeTotal(m)
  {
    hide RoomsOk, WalletsOk, HistoryOk, RoomOk, Restorable, Fund, Join, OwnerOf, EscrowWallet;
    var stored := m.rooms[code];
    JoinShape(code, stored, playerId, account);
    var host := OwnerOf(stored, stored.room.players[0].id);
    var funding := Fund(m.wallets, stored, code, 1, Some(account));
    FirstEscrow(m, code);
    FundMoves(m.wallets, stored, code, 1, Some(account), host, account);
    JoinedRoomOk(code, stored, playerId, account, after);
    NoneFunded(m, code);
    FundingKeeps(m.rooms, m.wallets, m.history, code, after, 1, host, account, funding.wallets);
    Assembled(m, m.(wallets := funding.wallets, rooms := m.rooms[code := after]));
  }

  lemma {:induction false} RoomIsRestorable(code: string, r: StoredRoom)
    requires RoomOk(code, r)
    ensures Restorable(r.room) && WellFormed(r.room) && Restore(r.room) == Ok(r.room)
  {}

  lemma {:induction false} JoinShape(code: string, r: StoredRoom, playerId: string, account: string)
    requires RoomOk(code, r) && Join(r.room, playerId).Ok? && account !in r.owners.Values
    ensures var t := Join(r.room, playerId).value;
            && |r.room.players| == 1 && r.room.round == 1 && t.round == 1 && !t.resolved && 1 !in r.funded && r.funded == {}
            && t == r.room.(players := r.room.players + [Player(playerId, 0)])
    ensures var host := OwnerOf(r, r.room.players[0].id);
            && Owners(r, r.room.players) == [host] && host in r.owners.Values && host != account && SafeAccount(host)
            && forall id | id in r.owners :: r.owners[id] == host
  {
    OwnersOfTwo(r, r.room.players);
    assert r.room.players[0].id in r.owners;
  }

  lemma {:induction false} JoinedRoomOk(code: string, r: StoredRoom, playerId: string, account: string, after: StoredRoom)
    requires RoomOk(code, r) && Join(r.room, playerId).Ok? && account !in r.owners.Values && SafeAccount(account)
    requires after.room == Join(r.room, playerId).value && after.owners == r.owners[playerId := account] && after.funded == r.funded + {1}
    ensures RoomOk(code, after) && after.funded == {1} && |after.room.players| == 2 && !after.room.resolved && after.room.round == 1
  {
    JoinShape(code, r, playerId, account);
    var t := after.room;
    forall id ensures HasPlayer(t, id) <==> HasPlayer(r.room, id) || id == playerId {}
    assert r.room.players[0].id in r.owners;
  }

  lemma {:induction false} NoneFunded(m: State, code: string)
    requires code in m.rooms && m.rooms[code].funded == {}
    ensures forall n | n in m.rooms[code].funded :: n != 1 && !OpenIn(m.rooms, RoundKey(code, n))
  {}

  lemma {:induction false} FirstEscrow(m: State, code: string)
    requires MemoryOk(m) && code in m.rooms && m.rooms[code].funded == {}
    ensures EscrowWallet(RoundKey(code, 1)) !in m.wallets
    ensures (forall w | w in m.wallets :: m.wallets[w] >= 0) && Total(m.wallets) <= MaxInt64
    ensures forall a | SafeAccount(a) :: a != EscrowWallet(RoundKey(code, 1))
  {
    UnfundedEscrow(m.rooms, m.wallets, RoundKey(code, 1));
    forall a | SafeAccount(a) ensures a != EscrowWallet(RoundKey(code, 1)) { SafeIsNoEscrow(a, RoundKey(code, 1)); }
  }

  // A join that is not paid for leaves at most an empty wallet.
  lemma {:induction false} JoinFundingFails(m: State, code: string, round: nat, account: string)
    requires MemoryOk(m) && code in m.rooms && account in m.wallets && |m.rooms[code].room.players| == 1 && RoomOk(code, m.rooms[code])
    ensures var funding := Fund(m.wallets, m.rooms[code], code, round, Some(account)); funding.err.Some? ==> funding.wallets == m.wallets
  {
    OwnersOfTwo(m.rooms[code], m.rooms[code].room.players);
    assert m.rooms[code].room.players[0].id in m.rooms[code].owners;
  }

  // ---- Recharging ----

  lemma {:induction false} RechargeKeepsOk(m: State, account: string, amount: int, key: string)
    requires MemoryOk(m) && SafeAccount(account) && amount > 0
    requires RechargeTotal(Memory.Recharge(m, account, amount, key).state) <= MaxInt64
    ensures MemoryOk(Memory.Recharge(m, account, amount, key).state)
    ensures RechargeTotal(Memory.Recharge(m, account, amount, key).state) >= RechargeTotal(m)
  {
    hide RoomsOk, WalletsOk, HistoryOk, Moved, SafeAccount, RechargeName;
    RechargeGrows(m, account, amount, key);
    EnsureKeeps(m.rooms, m.wallets, m.history, account);
    var wallets := EnsureWallet(m.wallets, account);
    if RechargeName(account, key) !in m.recharges && amount <= MaxInt64 - wallets[account] {
      NoDebt(m.rooms, wallets, account);
      MovedExactly(wallets, account, amount);
      CreditKeeps(m.rooms, wallets, m.history, account, Moved(wallets, account, amount));
    }
  }

  lemma {:induction false} NoDebt(rooms: Rooms, wallets: map<string, int>, w: string)
    requires WalletsOk(rooms, wallets) && w in wallets
    ensures wallets[w] >= 0
  {}

  // An accepted recharge adds its amount to the total.
  lemma {:induction false} RechargeGrows(m: State, account: string, amount: int, key: string)
    ensures var n := Memory.Recharge(m, account, amount, key).state;
            RechargeTotal(n) == RechargeTotal(m) + if n.recharges == m.recharges then 0 else amount
    ensures var n, wallets := Memory.Recharge(m, account, amount, key).state, EnsureWallet(m.wallets, account);
            if RechargeName(account, key) in m.recharges then n == m
            else if amount > MaxInt64 - wallets[account] then n == m.(wallets := wallets)
            else n.recharges != m.recharges && n == m.(wallets := Moved(wallets, account, amount), recharges := n.recharges)
  {
    var name := RechargeName(account, key);
    if name !in m.recharges {
      var recharges := m.recharges[name := Recharged(account, amount)];
      assert name in recharges;
      assert Amounts(recharges) == Amounts(m.recharges)[name := amount];
      TotalUpdate(Amounts(m.recharges), name, amount);
    }
  }

  lemma {:induction false} CreditKeeps(rooms: Rooms, wallets: map<string, int>, history: seq<Played>, account: string, after: map<string, int>)
    requires WalletsOk(rooms, wallets) && HistoryOk(rooms, wallets, history) && SafeAccount(account) && account in wallets
    requires after.Keys == wallets.Keys && after[account] >= 0 && forall w | w in wallets && w != account :: after[w] == wallets[w]
    ensures WalletsOk(rooms, after) && HistoryOk(rooms, after, history)
  {
    forall key ensures account != EscrowWallet(key) { SafeIsNoEscrow(account, key); }
  }

  // ---- Forfeits ----

  lemma {:induction false} ForfeitKeepsOk(m: State, lease: Lease, now: int)
    requires MemoryOk(m)
    ensures var r := ForfeitExpired(m, lease, now); MemoryOk(r.state) && RechargeTotal(r.state) == RechargeTotal(m)
  {
    hide MemoryOk, RoomsOk, WalletsOk, HistoryOk, RoomOk, Restorable, Remaining;
    if lease.code in m.rooms {
      var stored := m.rooms[lease.code];
      RoomOfMemory(m, lease.code);
      RoomIsRestorable(lease.code, stored);
      if Forfeit(stored.room, lease.playerId, lease.round).Ok? {
        ForfeitSteps(lease.code, stored, lease.playerId, lease.round);
        ResolvedKeeps(m, lease.code, OpForfeit(lease.playerId, lease.round), Forfeit(stored.room, lease.playerId, lease.round).value);
      }
    }
  }

  // At most one move is there when a player is forfeited, so the room stays loadable.
  lemma {:induction false} ForfeitSteps(code: string, r: StoredRoom, id: string, round: nat)
    requires RoomOk(code, r) && Forfeit(r.room, id, round).Ok?
    ensures Steps(r.room, OpForfeit(id, round), Forfeit(r.room, id, round).value)
    ensures !r.room.resolved && Forfeit(r.room, id, round).value.resolved
  {
    MoveCount(r.room);
  }

  // ---- Runs ----

  predicate SafeEvent(e: Event) {
    match e
    case Commanded(account, _, _, _, _) => account != "" ==> SafeAccount(account)
    case Balanced(account) => SafeAccount(account)
    case Expired(_, _) => true
    case Appeared(_, _, _, _) => true
  }

  lemma {:induction false} EffectKeepsOk(m: State, account: string, key: string, call: Store.Call, now: int, deadline: int)
    requires MemoryOk(m) && SafeAccount(account) && Store.Refusal(account, call).None?
    requires RechargeTotal(Effect(m, account, key, call, now, deadline).state) <= MaxInt64
    ensures var n := Effect(m, account, key, call, now, deadline).state; MemoryOk(n) && RechargeTotal(n) >= RechargeTotal(m)
  {
    hide MemoryOk, Create, JoinFunded, SubmitMoveAndSettle, RequestNextRoundAndFund, LeaveRoom, Memory.Recharge, SafeAccount;
    match call {
      case CallCreate(code, playerId) => CreateKeepsOk(m, code, playerId, account);
      case CallJoin(code, playerId) => JoinKeepsOk(m, code, playerId, account, now, deadline);
      case CallMove(code, move) => MoveKeepsOk(m, code, account, move);
      case CallNextRound(code, round) => RequestKeepsOk(m, code, account, round);
      case CallLeave(code) => LeaveKeepsOk(m, code, account);
      case CallRecharge(amount) => RechargeKeepsOk(m, account, amount, key);
    }
  }

  lemma {:induction false} ReceiptsFrame(m: State, receipts: map<string, Kept>)
    ensures var n := m.(receipts := receipts); (MemoryOk(n) <==> MemoryOk(m)) && RechargeTotal(n) == RechargeTotal(m)
  {}

  lemma {:induction false} NextKeepsOk(m: State, e: Event)
    requires MemoryOk(m) && SafeEvent(e) && RechargeTotal(Next(m, e)) <= MaxInt64
    ensures MemoryOk(Next(m, e)) && RechargeTotal(Next(m, e)) >= RechargeTotal(m)
  {
    hide MemoryOk, Effect, ForfeitExpired, RechargeTotal, Store.Refusal;
    match e {
      case Commanded(account, command, call, now, deadline) =>
        RefusedIfEmpty(account, call);
        if Store.Refusal(account, call).None? && command.key !in m.receipts {
          var done := Effect(m, account, command.key, call, now, deadline);
          ReceiptsFrame(done.state, Next(m, e).receipts);
          EffectKeepsOk(m, account, command.key, call, now, deadline);
        }
      case Balanced(account) => BalanceKeepsOk(m, account);
      case Expired(lease, now) => ForfeitKeepsOk(m, lease, now);
      case Appeared(code, account, observedAt, deadline) => RefreshKeepsOk(m, code, account, observedAt, deadline);
    }
  }

  lemma {:induction false} RefreshKeepsOk(m: State, code: string, account: string, observedAt: int, deadline: int)
    requires MemoryOk(m)
    ensures var r := RefreshPresence(m, code, account, observedAt, deadline); MemoryOk(r.state) && RechargeTotal(r.state) == RechargeTotal(m)
  {
    hide RoomsOk, WalletsOk, HistoryOk, RoomOk, NextGenerations, LeasesOf;
    var n := RefreshPresence(m, code, account, observedAt, deadline).state;
    if n != m {
      RoomOfMemory(m, code);
      PresenceIsFree(code, m.rooms[code], n.rooms[code].presence);
      SameRoundsKeep(m.rooms, m.wallets, m.history, code, n.rooms[code]);
      Assembled(m, n);
    }
  }

  lemma {:induction false} PresenceIsFree(code: string, r: StoredRoom, presence: map<string, Seen>)
    requires RoomOk(code, r)
    ensures RoomOk(code, r.(presence := presence)) && SameRounds(r, r.(presence := presence))
  {}

  lemma {:induction false} RefusedIfEmpty(account: string, call: Store.Call)
    ensures Store.Refusal(account, call).None? ==> account != ""
  {}

  lemma {:induction false} BalanceKeepsOk(m: State, account: string)
    requires MemoryOk(m) && SafeAccount(account)
    ensures var n := m.(wallets := EnsureWallet(m.wallets, account)); MemoryOk(n) && RechargeTotal(n) == RechargeTotal(m)
  {
    EnsureKeeps(m.rooms, m.wallets, m.history, account);
  }

  lemma {:induction false} EffectGrows(m: State, account: string, key: string, call: Store.Call, now: int, deadline: int)
    requires Store.Refusal(account, call).None?
    ensures RechargeTotal(Effect(m, account, key, call, now, deadline).state) >= RechargeTotal(m)
  {
    hide Fund, SettleRound, Restorable, ViewOf, Refreshed, RechargeTotal, Memory.Recharge;
    if call.CallRecharge? { RechargeGrows(m, account, call.amount, key); }
    var n := Effect(m, account, key, call, now, deadline).state;
    if !call.CallRecharge? {
      assert n.recharges == m.recharges;
      SameRecharges(m, n);
    }
  }

  lemma {:induction false} SameRecharges(m: State, n: State)
    requires n.recharges == m.recharges
    ensures RechargeTotal(n) == RechargeTotal(m)
  {}

  lemma {:induction false} NextGrows(m: State, e: Event)
    ensures RechargeTotal(Next(m, e)) >= RechargeTotal(m)
  {
    hide Fund, SettleRound, Restorable, ViewOf, RechargeTotal, Effect, Store.Refusal, Remaining;
    var n := Next(m, e);
    if e.Commanded? && Store.Refusal(e.account, e.call).None? && e.command.key !in m.receipts {
      var done := Effect(m, e.account, e.command.key, e.call, e.now, e.deadline);
      EffectGrows(m, e.account, e.command.key, e.call, e.now, e.deadline);
      SameRecharges(done.state, n);
    } else {
      assert n.recharges == m.recharges;
      SameRecharges(m, n);
    }
  }

  // In every run the wallets of players, house and escrows together hold
  // exactly the accepted recharges and nobody is in debt, as long as those
  // recharges fit in 64 bits; then no payment ever overflows.
  lemma {:induction false} CoinsAreConserved(events: seq<Event>)
    requires forall e | e in events :: SafeEvent(e)
    requires RechargeTotal(Memory.Run(EmptyState, events)) <= MaxInt64
    ensures var m := Memory.Run(EmptyState, events);
            && MemoryOk(m)
            && Total(m.wallets) == RechargeTotal(m)
            && forall w | w in m.wallets :: 0 <= m.wallets[w] <= MaxInt64
  {
    hide Next, SafeEvent, RechargeTotal;
    if events == [] {
      EmptyIsOk();
      BoundedWallets(EmptyState);
    } else {
      var k := |events| - 1;
      var m := Memory.Run(EmptyState, events[..k]);
      assert events[k] in events && forall e | e in events[..k] :: e in events;
      NextGrows(m, events[k]);
      CoinsAreConserved(events[..k]);
      NextKeepsOk(m, events[k]);
      BoundedWallets(Memory.Run(EmptyState, events));
    }
  }

  lemma {:induction false} BoundedWallets(m: State)
    requires MemoryOk(m)
    ensures Total(m.wallets) == RechargeTotal(m)
    ensures forall w | w in m.wallets :: 0 <= m.wallets[w] <= MaxInt64
  {
    forall w | w in m.wallets ensures 0 <= m.wallets[w] <= MaxInt64 { WalletBelowTotal(m.wallets, w); }
  }

  // The check made when recharging looks at one wallet only. When a round is
  // settled each wallet that is credited, the host's, the guest's or the
  // house's, becomes negative if and only if it held more than its own credit
  // leaves room for; nothing else changes but the escrow, which is emptied.
  lemma {:induction false} WinningOverflows(wallets: map<string, int>, history: seq<Played>, stored: StoredRoom, s: RoomState)
    requires |s.players| == 2 && IsDecided(s.result)
    requires var host, guest, key := OwnerOf(stored, s.players[0].id), OwnerOf(stored, s.players[1].id), RoundKey(s.code, s.round);
             && Lookup(wallets, EscrowWallet(key)) == RoundStake * 2 && SafeAccount(host) && SafeAccount(guest) && host != guest
             && forall w | w in {host, guest, HouseWallet} :: 0 <= Lookup(wallets, w) <= MaxInt64
    ensures var host, guest, key := OwnerOf(stored, s.players[0].id), OwnerOf(stored, s.players[1].id), RoundKey(s.code, s.round);
            var after := SettleRound(wallets, history, stored, s).wallets;
            && (forall w | w in {host, guest, HouseWallet} ::
                  Lookup(after, w) < 0 <==> Lookup(wallets, w) > MaxInt64 - Share(s.result, host, guest, key, w))
            && (forall w | w !in {host, guest, HouseWallet, EscrowWallet(key)} :: Lookup(after, w) == Lookup(wallets, w))
            && Lookup(after, EscrowWallet(key)) == 0
  {
    hide EscrowWallet, SafeAccount, Moved;
    var host, guest, key := OwnerOf(stored, s.players[0].id), OwnerOf(stored, s.players[1].id), RoundKey(s.code, s.round);
    SafeIsNoEscrow(host, key);
    SafeIsNoEscrow(guest, key);
    SafeIsNoEscrow(HouseWallet, key);
    SafeIsNotTheHouse(host);
    SafeIsNotTheHouse(guest);
    if !s.result.Draw? {
      var winner := if s.result.PlayerTwoWins? then guest else host;
      PaidTwice(wallets, winner, WinnerPayout, HouseWallet, HousePayout);
    } else {
      PaidTwice(wallets, host, RoundStake, guest, RoundStake);
    }
  }

  // Two payments to two wallets, each with its own wrap-around.
  lemma {:induction false} PaidTwice(wallets: map<string, int>, v: string, x: int, w: string, y: int)
    requires v != w && 0 <= x <= 100 && 0 <= y <= 100 && 0 <= Lookup(wallets, v) <= MaxInt64 && 0 <= Lookup(wallets, w) <= MaxInt64
    ensures var paid := Moved(Moved(wallets, v, x), w, y);
            && (forall u | u != v && u != w :: Lookup(paid, u) == Lookup(wallets, u))
            && (Lookup(paid, v) < 0 <==> Lookup(wallets, v) > MaxInt64 - x)
            && (Lookup(paid, w) < 0 <==> Lookup(wallets, w) > MaxInt64 - y)
  {}

  lemma {:induction false} SafeIsNotTheHouse(account: string)
    ensures SafeAccount(account) ==> account != HouseWallet
  {}
}
