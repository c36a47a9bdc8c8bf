// Presence in the in-memory repository: which leases can still forfeit, and
// when a player is forfeited.
module MemoryPresence {
  import opened Prelude
  import opened Game
  import opened GameRuns
  import opened Money
  import opened Memory
  import opened MemoryInvariant
  import opened MemoryRuns
  import Store

  // ---- Refreshing ----

  lemma {:induction false} NextGenerationsOf(presence: map<string, Seen>, players: seq<Player>)
    requires forall i, j | 0 <= i < j < |players| :: players[i].id != players[j].id
    ensures var next := NextGenerations(presence, players);
            && next.Keys == presence.Keys
            && forall id | id in presence ::
                 next[id] == if exists i :: 0 <= i < |players| && players[i].id == id
                             then presence[id].(generation := presence[id].generation + 1) else presence[id]
  {
    if players != [] {
      var shorter, last := players[..|players| - 1], players[|players| - 1];
      NextGenerationsOf(presence, shorter);
      forall id | id in presence
        ensures (exists i :: 0 <= i < |players| && players[i].id == id) <==> id == last.id || exists i :: 0 <= i < |shorter| && shorter[i].id == id
      {
        if id == last.id { assert players[|players| - 1].id == id; }
        if i :| 0 <= i < |shorter| && shorter[i].id == id { assert players[i].id == id; }
      }
      assert !exists i :: 0 <= i < |shorter| && shorter[i].id == last.id;
    }
  }

  lemma {:induction false} LeasesOfOne(presence: map<string, Seen>, p: Player, code: string, round: nat)
    ensures LeasesOf(presence, [p], code, round) == LeaseOf(presence, p, code, round)
  {
    assert [p][..0] == [];
  }

  // The lease of a player who was seen, in the player's present generation,
  // which asks for a proof of presence after the player's deadline.
  function LeaseOf(presence: map<string, Seen>, p: Player, code: string, round: nat): seq<Lease> {
    if p.id in presence then [Lease(code, p.id, round, presence[p.id].generation, presence[p.id].deadline)] else []
  }

  lemma {:induction false} LeasesOfBoth(presence: map<string, Seen>, players: seq<Player>, code: string, round: nat)
    requires 1 <= |players| <= 2
    ensures LeasesOf(presence, players, code, round)
         == LeaseOf(presence, players[0], code, round) + if |players| == 2 then LeaseOf(presence, players[1], code, round) else []
  {
    LeasesOfOne(presence, players[0], code, round);
    if |players| == 1 {
      assert players == [players[0]];
    } else {
      assert players[..1] == [players[0]];
    }
  }

  // Refreshing shows the caller's player as seen now, with the new deadline;
  // it starts a new generation of everyone who was ever seen, and hands out
  // one lease for each of them. Nothing else changes.
  lemma {:induction false} RefreshShows(m: State, code: string, account: string, observedAt: int, deadline: int, id: string)
    requires MemoryOk(m) && code in m.rooms && Owns(m.rooms[code], account, id)
    ensures var stored, r := m.rooms[code], RefreshPresence(m, code, account, observedAt, deadline);
            && r.answer.Ok? && code in r.state.rooms
            && r.state == m.(rooms := m.rooms[code := stored.(presence := r.state.rooms[code].presence)])
            && var before, after := stored.presence, r.state.rooms[code].presence;
               && after.Keys == before.Keys + {id}
               && after[id] == Seen((if id in before then before[id].generation else 0) + 1, observedAt, deadline)
               && (forall i | i in before && i != id ::
                     after[i] == before[i].(generation := before[i].generation + if HasPlayer(stored.room, i) then 1 else 0))
               && 1 <= |stored.room.players| <= 2
               && r.answer.value == LeaseOf(after, stored.room.players[0], code, stored.room.round)
                                    + if |stored.room.players| == 2 then LeaseOf(after, stored.room.players[1], code, stored.room.round) else []
  {
    hide MemoryOk, NextGenerations, LeasesOf, Restorable, WellFormed;
    RoomOfMemory(m, code);
    OneSeat(code, m.rooms[code], account);
    var stored := m.rooms[code];
    assert HasPlayer(stored.room, id);
    var seen := SeenAt(stored.presence, id, observedAt, deadline);
    NextGenerationsOf(seen, stored.room.players);
    PlayersByIndex(stored.room);
    var after := NextGenerations(seen, stored.room.players);
    LeasesOfBoth(after, stored.room.players, code, stored.room.round);
  }

  lemma {:induction false} OneSeat(code: string, r: StoredRoom, account: string)
    requires RoomOk(code, r)
    ensures forall i, j | Owns(r, account, i) && Owns(r, account, j) :: i == j
    ensures forall i | Owns(r, account, i) :: HasPlayer(r.room, i)
    ensures 1 <= |r.room.players| <= 2 && forall i, j | 0 <= i < j < |r.room.players| :: r.room.players[i].id != r.room.players[j].id
  {}

  lemma {:induction false} PlayersByIndex(s: RoomState)
    requires 1 <= |s.players| <= 2
    ensures forall id :: HasPlayer(s, id) <==> exists i :: 0 <= i < |s.players| && s.players[i].id == id
  {
    forall id ensures HasPlayer(s, id) <==> exists i :: 0 <= i < |s.players| && s.players[i].id == id {
      if HasPlayer(s, id) { assert s.players[if s.players[0].id == id then 0 else 1].id == id; }
    }
  }

  lemma {:induction false} BothRefreshed(presence: map<string, Seen>, a: Player, b: Player, observedAt: int, deadline: int)
    requires a.id != b.id
    ensures Refreshed(presence, [a, b], observedAt, deadline)
         == presence[a.id := Seen((if a.id in presence then presence[a.id].generation else 0) + 1, observedAt, deadline)]
                    [b.id := Seen((if b.id in presence then presence[b.id].generation else 0) + 1, observedAt, deadline)]
  {
    assert [a, b][..1] == [a] && [a][..0] == [];
    assert Refreshed(presence, [a], observedAt, deadline)
        == presence[a.id := Seen((if a.id in presence then presence[a.id].generation else 0) + 1, observedAt, deadline)];
  }

  // Joining shows both players as seen now, each in the next generation.
  lemma {:induction false} JoinShows(m: State, code: string, playerId: string, account: string, observedAt: int, deadline: int)
    requires MemoryOk(m) && JoinFunded(m, code, playerId, account, observedAt, deadline).answer.Ok?
    ensures var n := JoinFunded(m, code, playerId, account, observedAt, deadline).state;
            && code in m.rooms && code in n.rooms && |n.rooms[code].room.players| == 2
            && var before, after := m.rooms[code].presence, n.rooms[code].presence;
               && (forall k | k == 0 || k == 1 ::
                     var id := n.rooms[code].room.players[k].id;
                     id in after && after[id] == Seen((if id in before then before[id].generation else 0) + 1, observedAt, deadline))
               && n.rooms[code].room.players[1].id == playerId
  {
    hide MemoryOk, RoomOk, Restorable, WellFormed, Fund, ViewOf, Refreshed;
    RoomOfMemory(m, code);
    RoomIsRestorable(code, m.rooms[code]);
    JoinedPlayers(m, code, playerId, account);
    var players := Join(m.rooms[code].room, playerId).value.players;
    assert players == [players[0], players[1]];
    BothRefreshed(m.rooms[code].presence, players[0], players[1], observedAt, deadline);
  }

  lemma {:induction false} JoinedPlayers(m: State, code: string, playerId: string, account: string)
    requires code in m.rooms && RoomOk(code, m.rooms[code]) && WellFormed(m.rooms[code].room) && Join(m.rooms[code].room, playerId).Ok?
    ensures var t := Join(m.rooms[code].room, playerId).value;
            |t.players| == 2 && t.players[0].id != t.players[1].id && t.players[1].id == playerId
  {}

  // ---- Generations ----

  ghost predicate GenerationsKept(m: State, n: State) {
    forall code, id | code in m.rooms && id in m.rooms[code].presence ::
      && code in n.rooms && id in n.rooms[code].presence
      && n.rooms[code].presence[id].generation >= m.rooms[code].presence[id].generation
  }

  lemma {:induction false} RefreshedGrows(presence: map<string, Seen>, players: seq<Player>, observedAt: int, deadline: int)
    ensures var after := Refreshed(presence, players, observedAt, deadline);
            forall id | id in presence :: id in after && after[id].generation >= presence[id].generation
  {
    if players != [] { RefreshedGrows(presence, players[..|players| - 1], observedAt, deadline); }
  }

  lemma {:induction false} NextGenerationsGrow(presence: map<string, Seen>, players: seq<Player>)
    ensures var after := NextGenerations(presence, players);
            forall id | id in presence :: id in after && after[id].generation >= presence[id].generation
  {
    if players != [] { NextGenerationsGrow(presence, players[..|players| - 1]); }
  }

  lemma {:induction false} JoinGrows(m: State, code: string, playerId: string, account: string, observedAt: int, deadline: int)
    ensures GenerationsKept(m, JoinFunded(m, code, playerId, account, observedAt, deadline).state)
  {
    hide Fund, Refreshed, ViewOf, Join, WellFormed, ResultMatchesMoves, ResultMatchesForfeit;
    if code in m.rooms && Restore(m.rooms[code].room).Ok? {
      var joined := Join(Restore(m.rooms[code].room).value, playerId);
      if joined.Ok? { RefreshedGrows(m.rooms[code].presence, joined.value.players, observedAt, deadline); }
    }
  }

  lemma {:induction false} OthersGrow(m: State, account: string, key: string, call: Store.Call, now: int, deadline: int)
    requires Store.Refusal(account, call).None? && !call.CallJoin?
    ensures GenerationsKept(m, Effect(m, account, key, call, now, deadline).state)
  {
    hide Fund, SettleRound, ViewOf, WorkingCopy, SubmitMove, RequestNextRound, Leave, Restorable;
  }

  lemma {:induction false} ForfeitGrows(m: State, lease: Lease, now: int)
    ensures GenerationsKept(m, ForfeitExpired(m, lease, now).state)
  {
    hide Fund, SettleRound, ViewOf, Forfeit, Restorable, Remaining;
  }

  lemma {:induction false} RefreshGrows(m: State, code: string, account: string, observedAt: int, deadline: int)
    ensures GenerationsKept(m, RefreshPresence(m, code, account, observedAt, deadline).state)
  {
    hide NextGenerations, LeasesOf;
    if code in m.rooms && exists id :: Owns(m.rooms[code], account, id) {
      forall id ensures NextGenerationsKeep(m.rooms[code], id, observedAt, deadline) {
        SeeingKeeps(m.rooms[code], id, observedAt, deadline);
      }
      assert forall id | Owns(m.rooms[code], account, id) :: NextGenerationsKeep(m.rooms[code], id, observedAt, deadline);
    }
  }

  lemma {:induction false} SeeingKeeps(stored: StoredRoom, id: string, observedAt: int, deadline: int)
    ensures NextGenerationsKeep(stored, id, observedAt, deadline)
  {
    hide NextGenerations;
    var seen := SeenAt(stored.presence, id, observedAt, deadline);
    assert forall i | i in stored.presence :: i in seen && seen[i].generation == stored.presence[i].generation;
    NextGenerationsGrow(seen, stored.room.players);
  }

  ghost predicate NextGenerationsKeep(stored: StoredRoom, id: string, observedAt: int, deadline: int) {
    var after := NextGenerations(SeenAt(stored.presence, id, observedAt, deadline), stored.room.players);
    forall i | i in stored.presence :: i in after && after[i].generation >= stored.presence[i].generation
  }

  lemma {:induction false} NextGrowsGenerations(m: State, e: Event)
    ensures GenerationsKept(m, Memory.Next(m, e))
  {
    hide Effect, ForfeitExpired, RefreshPresence, Store.Refusal;
    match e {
      case Commanded(account, command, call, now, deadline) =>
        if Store.Refusal(account, call).None? {
          if call.CallJoin? { JoinIsEffect(m, e); JoinGrows(m, call.code, call.playerId, account, now, deadline); }
          else { OthersGrow(m, account, command.key, call, now, deadline); }
        }
      case Balanced(_) =>
      case Expired(lease, now) => ForfeitGrows(m, lease, now);
      case Appeared(code, account, observedAt, deadline) => RefreshGrows(m, code, account, observedAt, deadline);
    }
  }

  lemma {:induction false} JoinIsEffect(m: State, e: Event)
    requires e.Commanded? && e.call.CallJoin? && Store.Refusal(e.account, e.call).None?
    ensures Effect(m, e.account, e.command.key, e.call, e.now, e.deadline)
         == JoinFunded(m, e.call.code, e.call.playerId, e.account, e.now, e.deadline)
  {
    hide JoinFunded;
  }

  lemma {:induction false} RunGrowsGenerations(m: State, events: seq<Event>)
    ensures GenerationsKept(m, Memory.Run(m, events))
  {
    hide Memory.Next;
    if events != [] {
      RunGrowsGenerations(m, events[..|events| - 1]);
      NextGrowsGenerations(Memory.Run(m, events[..|events| - 1]), events[|events| - 1]);
    }
  }

  // Whoever refreshes a room retires every lease handed out for it before: it
  // never forfeits its player, whatever happens later.
  lemma {:induction false} RefreshRetiresLeases(
    m: State, code: string, account: string, observedAt: int, deadline: int, id: string, events: seq<Event>, lease: Lease, now: int)
    requires MemoryOk(m) && code in m.rooms && Owns(m.rooms[code], account, id)
    requires lease.code == code && HasPlayer(m.rooms[code].room, lease.playerId) && lease.playerId in m.rooms[code].presence
    requires lease.generation <= m.rooms[code].presence[lease.playerId].generation
    ensures var later := Memory.Run(RefreshPresence(m, code, account, observedAt, deadline).state, events);
            ForfeitExpired(later, lease, now) == Turn(later, Ok(false))
  {
    hide MemoryOk, RefreshPresence, Memory.Next;
    RefreshShows(m, code, account, observedAt, deadline, id);
    RunGrowsGenerations(RefreshPresence(m, code, account, observedAt, deadline).state, events);
  }

  // So does a join, for every lease from before it.
  lemma {:induction false} JoinRetiresLeases(
    m: State, code: string, playerId: string, account: string, observedAt: int, deadline: int, events: seq<Event>, lease: Lease, now: int)
    requires MemoryOk(m) && JoinFunded(m, code, playerId, account, observedAt, deadline).answer.Ok?
    requires lease.code == code && code in m.rooms && HasPlayer(m.rooms[code].room, lease.playerId) && lease.playerId in m.rooms[code].presence
    requires lease.generation <= m.rooms[code].presence[lease.playerId].generation
    ensures var later := Memory.Run(JoinFunded(m, code, playerId, account, observedAt, deadline).state, events);
            ForfeitExpired(later, lease, now) == Turn(later, Ok(false))
  {
    hide MemoryOk, JoinFunded, Memory.Next, WellFormed;
    var n := JoinFunded(m, code, playerId, account, observedAt, deadline).state;
    JoinShows(m, code, playerId, account, observedAt, deadline);
    JoinKeepsPlayers(m, code, playerId, account, observedAt, deadline);
    RunGrowsGenerations(n, events);
  }

  lemma {:induction false} JoinKeepsPlayers(m: State, code: string, playerId: string, account: string, observedAt: int, deadline: int)
    requires JoinFunded(m, code, playerId, account, observedAt, deadline).answer.Ok?
    ensures var n := JoinFunded(m, code, playerId, account, observedAt, deadline).state;
            && code in m.rooms && code in n.rooms
            && forall id | HasPlayer(m.rooms[code].room, id) :: exists k :: 0 <= k < |n.rooms[code].room.players| && n.rooms[code].room.players[k].id == id
  {
    hide Fund, ViewOf, Refreshed, ResultMatchesMoves, ResultMatchesForfeit;
    var s := m.rooms[code].room;
    var players := JoinFunded(m, code, playerId, account, observedAt, deadline).state.rooms[code].room.players;
    forall id | HasPlayer(s, id) ensures exists k :: 0 <= k < |players| && players[k].id == id {
      assert players[if s.players[0].id == id then 0 else 1].id == id;
    }
  }

  // ---- Forfeiting ----

  lemma {:induction false} RemainingOfTwo(stored: StoredRoom, lease: Lease, now: int)
    requires |stored.room.players| == 2 && stored.room.players[0].id != stored.room.players[1].id
    requires lease.playerId == stored.room.players[0].id || lease.playerId == stored.room.players[1].id
    ensures var other := stored.room.players[if lease.playerId == stored.room.players[0].id then 1 else 0].id;
            Remaining(stored, stored.room.players, lease, now)
            <==> other in stored.presence && now < stored.presence[other].deadline && stored.presence[other].refreshedAt > lease.proofAfter
  {
    var players := stored.room.players;
    assert players[..1] == [players[0]] && [players[0]][..0] == [];
  }

  // In a running round of two, a player is forfeited exactly when the lease is
  // the player's newest and of this round, the player's deadline has passed,
  // and the other player was seen after it and is not overdue. The other
  // player then wins.
  lemma {:induction false} ForfeitedExactly(m: State, lease: Lease, now: int)
    requires MemoryOk(m) && lease.code in m.rooms
    requires var s := m.rooms[lease.code].room;
             !s.resolved && !s.closed && |s.players| == 2 && (lease.playerId == s.players[0].id || lease.playerId == s.players[1].id)
    ensures var stored, r := m.rooms[lease.code], ForfeitExpired(m, lease, now);
            var s, p := stored.room, stored.presence;
            var k := if lease.playerId == s.players[0].id then 0 else 1;
            var other := s.players[1 - k].id;
            && (r.answer == Ok(true) <==>
                  && lease.playerId in p && p[lease.playerId].generation == lease.generation && now >= p[lease.playerId].deadline
                  && other in p && now < p[other].deadline && p[other].refreshedAt > lease.proofAfter
                  && lease.round == s.round)
            && (r.answer != Ok(true) ==> r == Turn(m, Ok(false)))
            && (r.answer == Ok(true) ==>
                  && lease.code in r.state.rooms
                  && var t := r.state.rooms[lease.code].room;
                     t.resolved && t.forfeited == lease.playerId && t.result == if k == 0 then PlayerTwoWins else PlayerOneWins)
  {
    hide MemoryOk, RoomOk, Restorable, Remaining, ViewOf, SettleRound;
    var stored := m.rooms[lease.code];
    RoomOfMemory(m, lease.code);
    RoomIsRestorable(lease.code, stored);
    TwoPlayers(stored.room);
    RemainingOfTwo(stored, lease, now);
    FundedAlready(lease.code, stored);
  }

  lemma {:induction false} FundedAlready(code: string, r: StoredRoom)
    requires RoomOk(code, r) && |r.room.players| == 2
    ensures r.room.round in r.funded
  {}
}
