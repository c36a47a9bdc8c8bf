// The in-memory repository conserves coins: the wallets always hold exactly the
// accepted recharges, and never overflow while those fit in 64 bits.
module MemoryInvariant {
  import opened Prelude
  import opened Game
  import opened GameRuns
  import opened Ledger
  import opened Money
  import Store
  import opened OutboxWorker
  import opened Memory
  import Keys

  // Account ids are UUIDs: never the house, never an escrow.
  predicate SafeAccount(a: string) {
    a != "" && a != HouseWallet && Keys.NoColon(a)
  }

  lemma {:induction false} SafeIsNoEscrow(a: string, key: RoundKey)
    requires SafeAccount(a) || a == HouseWallet
    ensures a != EscrowWallet(key)
  {
    assert EscrowWallet(key)[6] == ':';
    assert HouseWallet[0] == 'h' && EscrowWallet(key)[0] == 'e';
  }

  lemma {:induction false} EscrowsDiffer(a: RoundKey, b: RoundKey)
    requires EscrowWallet(a) == EscrowWallet(b)
    ensures a == b
  {
    assert EscrowWallet(a)[7..] == Keys.Tail(a.code, a.round) && EscrowWallet(b)[7..] == Keys.Tail(b.code, b.round);
    Keys.TailIsInjective(a.code, a.round, b.code, b.round);
  }

  // ---- Invariant ----

  ghost predicate RoomOk(code: string, r: StoredRoom) {
    && Restorable(r.room) && r.room.code == code
    && (forall id :: id in r.owners <==> HasPlayer(r.room, id))
    && (forall id | id in r.owners :: SafeAccount(r.owners[id]))
    && (|r.room.players| == 2 ==> r.owners[r.room.players[0].id] != r.owners[r.room.players[1].id])
    && (forall n: nat :: n in r.funded <==> |r.room.players| == 2 && 1 <= n <= r.room.round)
    && (!r.room.resolved && |r.room.players| == 2 ==> r.room.players[0].id !in r.room.moves || r.room.players[1].id !in r.room.moves)
    && (|r.room.players| == 1 ==> r.room.round == 1 && r.room.moves == map[])
  }

  type Rooms = map<string, StoredRoom>

  predicate FundedIn(rooms: Rooms, key: RoundKey) {
    key.code in rooms && key.round in rooms[key.code].funded
  }

  // The round is funded and not resolved.
  predicate OpenIn(rooms: Rooms, key: RoundKey) {
    FundedIn(rooms, key) && key.round == rooms[key.code].room.round && !rooms[key.code].room.resolved
  }

  ghost predicate RoomsOk(rooms: Rooms) {
    forall c | c in rooms :: RoomOk(c, rooms[c])
  }

  // Every wallet belongs to the house, an account or a funded round; an escrow
  // holds both stakes until its round is resolved; nobody owes anything.
  ghost predicate WalletsOk(rooms: Rooms, wallets: map<string, int>) {
    && HouseWallet in wallets
    && (forall w | w in wallets :: w == HouseWallet || SafeAccount(w) || exists key :: w == EscrowWallet(key) && FundedIn(rooms, key))
    && (forall key | FundedIn(rooms, key) :: EscrowWallet(key) in wallets)
    && (forall key | FundedIn(rooms, key) :: wallets[EscrowWallet(key)] == if OpenIn(rooms, key) then RoundStake * 2 else 0)
    && (forall w | w in wallets :: wallets[w] >= 0)
    && (forall c, id | c in rooms && id in rooms[c].owners :: rooms[c].owners[id] in wallets)
  }

  ghost function HistoryKeys(history: seq<Played>): set<RoundKey> {
    set p | p in history :: p.key
  }

  ghost function DecisiveRows(history: seq<Played>): nat {
    if history == [] then 0 else (if history[0].result.Draw? then 0 else 1) + DecisiveRows(history[1..])
  }

  // One row per settled round, and 25 coins for the house per decisive row.
  ghost predicate HistoryOk(rooms: Rooms, wallets: map<string, int>, history: seq<Played>) {
    && HouseWallet in wallets && wallets[HouseWallet] == HousePayout * DecisiveRows(history)
    && (forall i, j | 0 <= i < j < |history| :: history[i].key != history[j].key)
    && (forall key :: key in HistoryKeys(history) <==> FundedIn(rooms, key) && !OpenIn(rooms, key))
  }

  ghost function Amounts(recharges: map<string, Recharged>): map<string, int> {
    map k | k in recharges :: recharges[k].amount
  }

  // The accepted recharges.
  ghost function RechargeTotal(m: State): int {
    Total(Amounts(m.recharges))
  }

  ghost predicate MemoryOk(m: State) {
    && RoomsOk(m.rooms) && WalletsOk(m.rooms, m.wallets) && HistoryOk(m.rooms, m.wallets, m.history)
    && Total(m.wallets) == RechargeTotal(m) <= MaxInt64
  }

  lemma {:induction false} EmptyIsOk()
    ensures MemoryOk(EmptyState)
  {
    var none: map<string, int> := map[];
    TotalUpdate(none, HouseWallet, 0);
    assert none[HouseWallet := 0] == map[HouseWallet := 0];
    assert Amounts(EmptyState.recharges) == none;
  }

  // ---- Wallets ----

  // With nobody in debt, no wallet holds more than all of them together.
  lemma {:induction false} WalletBelowTotal(wallets: map<string, int>, w: string)
    requires forall v | v in wallets :: wallets[v] >= 0
    ensures Total(wallets) >= 0 && Lookup(wallets, w) <= Total(wallets)
    decreases |wallets|
  {
    if wallets != map[] {
      var k := if w in wallets then w else var v :| v in wallets; v;
      TotalWithout(wallets, k);
      assert |wallets - {k}| < |wallets| by { assert (wallets - {k}).Keys == wallets.Keys - {k}; }
      WalletBelowTotal(wallets - {k}, w);
    }
  }

  lemma {:induction false} WrapIsExact(x: int)
    ensures Wrap64(x) == x <==> -MaxInt64 - 1 <= x <= MaxInt64
  {}

  lemma {:induction false} MovedExactly(wallets: map<string, int>, w: string, amount: int)
    requires 0 <= Lookup(wallets, w) + amount <= MaxInt64
    ensures Moved(wallets, w, amount) == wallets[w := Lookup(wallets, w) + amount]
    ensures Total(Moved(wallets, w, amount)) == Total(wallets) + amount
  {
    WrapIsExact(Lookup(wallets, w) + amount);
    TotalUpdate(wallets, w, Lookup(wallets, w) + amount);
  }

  lemma {:induction false} EnsureKeepsTotal(wallets: map<string, int>, w: string)
    ensures Total(EnsureWallet(wallets, w)) == Total(wallets)
    ensures forall v :: Lookup(EnsureWallet(wallets, w), v) == Lookup(wallets, v)
    ensures EnsureWallet(wallets, w).Keys == wallets.Keys + {w}
  {
    TotalUpdate(wallets, w, 0);
  }

  // What funding a round does: both owners pay, the escrow receives.
  lemma {:induction false} FundMoves(wallets: map<string, int>, stored: StoredRoom, code: string, round: nat, joining: Option<string>, host: string, guest: string)
    requires (forall w | w in wallets :: wallets[w] >= 0) && Total(wallets) <= MaxInt64
    requires round !in stored.funded && Fund(wallets, stored, code, round, joining).err.None?
    requires Owners(stored, stored.room.players) + (match joining case Some(a) => [a] case None => []) == [host, guest]
    requires host != guest && host != EscrowWallet(RoundKey(code, round)) && guest != EscrowWallet(RoundKey(code, round))
    requires Lookup(wallets, EscrowWallet(RoundKey(code, round))) == 0
    ensures var after, escrow := Fund(wallets, stored, code, round, joining).wallets, EscrowWallet(RoundKey(code, round));
            && Total(after) == Total(wallets)
            && after.Keys == wallets.Keys + {host, guest, escrow}
            && Lookup(wallets, host) >= RoundStake && Lookup(wallets, guest) >= RoundStake
            && forall w | w in after :: after[w] == Lookup(wallets, w) - (if w == host || w == guest then RoundStake else 0)
                                                   + (if w == escrow then RoundStake * 2 else 0)
  {
    var escrow := EscrowWallet(RoundKey(code, round));
    var two := EnsureWallet(EnsureWallet(wallets, host), guest);
    EnsureKeepsTotal(wallets, host);
    EnsureKeepsTotal(EnsureWallet(wallets, host), guest);
    WalletBelowTotal(wallets, host);
    WalletBelowTotal(wallets, guest);
    MovedExactly(two, host, -RoundStake);
    MovedExactly(Moved(two, host, -RoundStake), guest, -RoundStake);
    TotalUpdate(Moved(Moved(two, host, -RoundStake), guest, -RoundStake), escrow, RoundStake * 2);
  }

  // Two payments out of a wallet that is emptied.
  lemma {:induction false} PayTwo(wallets: map<string, int>, escrow: string, v: string, x: int, w: string, y: int)
    requires (forall u | u in wallets :: wallets[u] >= 0) && Total(wallets) <= MaxInt64
    requires escrow in wallets && wallets[escrow] == x + y && x >= 0 && y >= 0
    requires v != w && v != escrow && w != escrow
    ensures var after := Moved(Moved(wallets, v, x), w, y)[escrow := 0];
            && after == wallets[v := Lookup(wallets, v) + x][w := Lookup(wallets, w) + y][escrow := 0]
            && Total(after) == Total(wallets)
  {
    TwoBelowTotal(wallets, escrow, v);
    TwoBelowTotal(wallets, escrow, w);
    WalletBelowTotal(wallets, v);
    WalletBelowTotal(wallets, w);
    MovedExactly(wallets, v, x);
    MovedExactly(Moved(wallets, v, x), w, y);
    TotalUpdate(Moved(Moved(wallets, v, x), w, y), escrow, 0);
  }

  // What settling a round does: the escrow is paid out in full.
  lemma {:induction false} PayOutMoves(wallets: map<string, int>, history: seq<Played>, stored: StoredRoom, s: RoomState)
    requires (forall w | w in wallets :: wallets[w] >= 0) && Total(wallets) <= MaxInt64
    requires |s.players| == 2 && IsDecided(s.result)
    requires var key := RoundKey(s.code, s.round);
             var host, guest := OwnerOf(stored, s.players[0].id), OwnerOf(stored, s.players[1].id);
             && Lookup(wallets, EscrowWallet(key)) == RoundStake * 2
             && host != guest && host != HouseWallet && guest != HouseWallet && HouseWallet != EscrowWallet(key)
             && host != EscrowWallet(key) && guest != EscrowWallet(key)
             && {host, guest, HouseWallet} <= wallets.Keys
    ensures var key := RoundKey(s.code, s.round);
            var host, guest := OwnerOf(stored, s.players[0].id), OwnerOf(stored, s.players[1].id);
            var after := SettleRound(wallets, history, stored, s);
            && Total(after.wallets) == Total(wallets) && after.wallets.Keys == wallets.Keys
            && (forall w | w in wallets :: after.wallets[w] == wallets[w] + Share(s.result, host, guest, key, w))
            && after.history == [Played(key, s.result, SettlementEffects(s.result, host, guest, key).winner, s.forfeited != "",
                                        SettlementEffects(s.result, host, guest, key).houseEarnings)] + history
  {
    hide Moved, EscrowWallet, OwnerOf, Total, SettlementEffects;
    var key := RoundKey(s.code, s.round);
    var host, guest := OwnerOf(stored, s.players[0].id), OwnerOf(stored, s.players[1].id);
    if s.result.Draw? {
      PayTwo(wallets, EscrowWallet(key), host, RoundStake, guest, RoundStake);
    } else {
      PayTwo(wallets, EscrowWallet(key), if s.result.PlayerTwoWins? then guest else host, WinnerPayout, HouseWallet, HousePayout);
    }
  }

  function Share(result: Game.Outcome, host: string, guest: string, key: RoundKey, w: string): int {
    if w == EscrowWallet(key) then -RoundStake * 2
    else if w == HouseWallet then (if result.Draw? then 0 else HousePayout)
    else if w == host then (if result.Draw? then RoundStake else if result.PlayerTwoWins? then 0 else WinnerPayout)
    else if w == guest then (if result.Draw? then RoundStake else if result.PlayerTwoWins? then WinnerPayout else 0)
    else 0
  }

  // Two wallets together hold no more than all.
  lemma {:induction false} TwoBelowTotal(wallets: map<string, int>, v: string, w: string)
    requires (forall u | u in wallets :: wallets[u] >= 0) && v != w && v in wallets
    ensures wallets[v] + Lookup(wallets, w) <= Total(wallets)
  {
    TotalWithout(wallets, v);
    WalletBelowTotal(wallets - {v}, w);
  }

  // ---- Frames ----

  // One room changed, but no round of it was funded or resolved, and nobody left.
  ghost predicate SameRounds(r: StoredRoom, after: StoredRoom) {
    && after.funded == r.funded && after.room.round == r.room.round && after.room.resolved == r.room.resolved
    && after.owners == r.owners
  }

  lemma {:induction false} SameRoundsKeep(rooms: Rooms, wallets: map<string, int>, history: seq<Played>, code: string, after: StoredRoom)
    requires RoomsOk(rooms) && WalletsOk(rooms, wallets) && HistoryOk(rooms, wallets, history)
    requires code in rooms && SameRounds(rooms[code], after) && RoomOk(code, after)
    ensures var other := rooms[code := after];
            RoomsOk(other) && WalletsOk(other, wallets) && HistoryOk(other, wallets, history)
  {
    hide RoomOk;
    var other := rooms[code := after];
    forall key ensures FundedIn(other, key) == FundedIn(rooms, key) && OpenIn(other, key) == OpenIn(rooms, key) {}
    forall w | w in wallets ensures w == HouseWallet || SafeAccount(w) || exists key :: w == EscrowWallet(key) && FundedIn(other, key) {
      if !(w == HouseWallet || SafeAccount(w)) {
        var key :| w == EscrowWallet(key) && FundedIn(rooms, key);
        assert FundedIn(other, key);
      }
    }
  }

  // Empty wallets of accounts change nothing.
  lemma {:induction false} EnsureKeeps(rooms: Rooms, wallets: map<string, int>, history: seq<Played>, a: string)
    requires WalletsOk(rooms, wallets) && HistoryOk(rooms, wallets, history) && SafeAccount(a)
    ensures WalletsOk(rooms, EnsureWallet(wallets, a)) && HistoryOk(rooms, EnsureWallet(wallets, a), history)
    ensures Total(EnsureWallet(wallets, a)) == Total(wallets)
  {
    EnsureKeepsTotal(wallets, a);
    forall key ensures a != EscrowWallet(key) { SafeIsNoEscrow(a, key); }
  }

  // Round `n` of the room is funded now by `host` and `guest`.
  ghost predicate NewlyFunded(rooms: Rooms, code: string, after: StoredRoom, n: nat, host: string, guest: string) {
    && RoomOk(code, after) && after.room.round == n && !after.room.resolved && |after.room.players| == 2
    && host != guest && SafeAccount(host) && SafeAccount(guest)
    && (forall id | id in after.owners :: after.owners[id] == host || after.owners[id] == guest)
    && (code in rooms ==> n !in rooms[code].funded && after.funded == rooms[code].funded + {n}
                          && (forall m | m in rooms[code].funded :: m != n && !OpenIn(rooms, RoundKey(code, m))))
    && (code !in rooms ==> after.funded == {n})
  }

  ghost predicate StakesTaken(wallets: map<string, int>, after: map<string, int>, escrow: string, host: string, guest: string) {
    && after.Keys == wallets.Keys + {host, guest, escrow}
    && Lookup(wallets, host) >= RoundStake && Lookup(wallets, guest) >= RoundStake
    && forall w | w in after :: after[w] == Lookup(wallets, w) - (if w == host || w == guest then RoundStake else 0)
                                           + (if w == escrow then RoundStake * 2 else 0)
  }

  lemma {:induction false} FundingKeeps(rooms: Rooms, wallets: map<string, int>, history: seq<Played>, code: string, after: StoredRoom, n: nat,
                     host: string, guest: string, paid: map<string, int>)
    requires RoomsOk(rooms) && WalletsOk(rooms, wallets) && HistoryOk(rooms, wallets, history)
    requires code in rooms && NewlyFunded(rooms, code, after, n, host, guest)
    requires StakesTaken(wallets, paid, EscrowWallet(RoundKey(code, n)), host, guest) && EscrowWallet(RoundKey(code, n)) !in wallets
    ensures var other := rooms[code := after];
            RoomsOk(other) && WalletsOk(other, paid) && HistoryOk(other, paid, history)
  {
    hide RoomOk;
    var other, key, escrow := rooms[code := after], RoundKey(code, n), EscrowWallet(RoundKey(code, n));
    forall k ensures FundedIn(other, k) <==> FundedIn(rooms, k) || k == key {}
    forall k ensures OpenIn(other, k) <==> OpenIn(rooms, k) || k == key {
      if k.code == code && k != key && FundedIn(rooms, k) { assert !OpenIn(rooms, RoundKey(code, k.round)) && k == RoundKey(code, k.round); }
    }
    FundedWallets(rooms, other, wallets, paid, key, host, guest);
    SafeIsNoEscrow(HouseWallet, key);
  }

  lemma {:induction false} FundedWallets(rooms: Rooms, other: Rooms, wallets: map<string, int>, paid: map<string, int>, key: RoundKey, host: string, guest: string)
    requires WalletsOk(rooms, wallets) && SafeAccount(host) && SafeAccount(guest)
    requires StakesTaken(wallets, paid, EscrowWallet(key), host, guest) && EscrowWallet(key) !in wallets && host != guest
    requires forall k :: FundedIn(other, k) <==> FundedIn(rooms, k) || k == key
    requires forall k :: OpenIn(other, k) <==> OpenIn(rooms, k) || k == key
    requires forall c, id | c in other && id in other[c].owners :: (c in rooms && id in rooms[c].owners && rooms[c].owners[id] == other[c].owners[id])
                                                                  || other[c].owners[id] == host || other[c].owners[id] == guest
    ensures WalletsOk(other, paid)
  {
    var escrow := EscrowWallet(key);
    forall w | w in paid ensures w == HouseWallet || SafeAccount(w) || exists k :: w == EscrowWallet(k) && FundedIn(other, k) {
      if w == escrow { assert FundedIn(other, key); }
      else if !(w == HouseWallet || SafeAccount(w)) {
        var k :| w == EscrowWallet(k) && FundedIn(rooms, k);
        assert FundedIn(other, k);
      }
    }
    forall k | FundedIn(other, k) ensures EscrowWallet(k) in paid && paid[EscrowWallet(k)] == if OpenIn(other, k) then RoundStake * 2 else 0 {
      SafeIsNoEscrow(host, k);
      SafeIsNoEscrow(guest, k);
      if k != key { if EscrowWallet(k) == escrow { EscrowsDiffer(k, key); } }
    }
  }

  // The open round of the room is resolved, and its escrow paid out.
  ghost predicate NewlyResolved(rooms: Rooms, code: string, after: StoredRoom) {
    && code in rooms && RoomOk(code, after) && after.funded == rooms[code].funded && after.owners == rooms[code].owners
    && after.room.round == rooms[code].room.round && after.room.resolved && !rooms[code].room.resolved
    && after.room.round in after.funded
  }

  lemma {:induction false} HistoryMore(p: Played, history: seq<Played>)
    ensures DecisiveRows([p] + history) == DecisiveRows(history) + (if p.result.Draw? then 0 else 1)
    ensures HistoryKeys([p] + history) == HistoryKeys(history) + {p.key}
  {
    assert ([p] + history)[1..] == history;
  }

  lemma {:induction false} SettlingKeeps(rooms: Rooms, wallets: map<string, int>, history: seq<Played>, code: string, after: StoredRoom,
                      host: string, guest: string, paid: map<string, int>, p: Played)
    requires RoomsOk(rooms) && WalletsOk(rooms, wallets) && HistoryOk(rooms, wallets, history) && NewlyResolved(rooms, code, after)
    requires SafeAccount(host) && SafeAccount(guest) && host != guest
    requires var key := RoundKey(code, after.room.round);
             p.key == key && p.result == after.room.result && paid.Keys == wallets.Keys
             && forall w | w in wallets :: paid[w] == wallets[w] + Share(p.result, host, guest, key, w)
    ensures var other := rooms[code := after];
            RoomsOk(other) && WalletsOk(other, paid) && HistoryOk(other, paid, [p] + history)
  {
    hide RoomOk;
    var other, key := rooms[code := after], RoundKey(code, after.room.round);
    forall k ensures FundedIn(other, k) == FundedIn(rooms, k) {}
    forall k ensures OpenIn(other, k) <==> OpenIn(rooms, k) && k != key {}
    assert FundedIn(rooms, key) && OpenIn(rooms, key);
    HistoryMore(p, history);
    SafeIsNoEscrow(HouseWallet, key);
    SettledWallets(rooms, other, wallets, paid, key, host, guest, p.result);
  }

  lemma {:induction false} SettledWallets(rooms: Rooms, other: Rooms, wallets: map<string, int>, paid: map<string, int>, key: RoundKey,
                       host: string, guest: string, result: Game.Outcome)
    requires WalletsOk(rooms, wallets) && SafeAccount(host) && SafeAccount(guest) && OpenIn(rooms, key)
    requires paid.Keys == wallets.Keys && forall w | w in wallets :: paid[w] == wallets[w] + Share(result, host, guest, key, w)
    requires forall k :: FundedIn(other, k) == FundedIn(rooms, k)
    requires forall k :: OpenIn(other, k) <==> OpenIn(rooms, k) && k != key
    requires forall c, id | c in other && id in other[c].owners :: c in rooms && id in rooms[c].owners && rooms[c].owners[id] == other[c].owners[id]
    ensures WalletsOk(other, paid)
  {
    forall w | w in paid ensures w == HouseWallet || SafeAccount(w) || exists k :: w == EscrowWallet(k) && FundedIn(other, k) {
      if !(w == HouseWallet || SafeAccount(w)) {
        var k :| w == EscrowWallet(k) && FundedIn(rooms, k);
        assert FundedIn(other, k);
      }
    }
    forall k | FundedIn(other, k) ensures EscrowWallet(k) in paid && paid[EscrowWallet(k)] == if OpenIn(other, k) then RoundStake * 2 else 0 {
      SafeIsNoEscrow(host, k);
      SafeIsNoEscrow(guest, k);
      SafeIsNoEscrow(HouseWallet, k);
      if k != key { if EscrowWallet(k) == EscrowWallet(key) { EscrowsDiffer(k, key); } }
    }
  }
}
