// A run of the in-memory repository in which a payout overflows.
module MemoryOverflow {
  import opened Prelude
  import opened Game
  import opened GameRuns
  import opened Ledger
  import opened Money
  import opened OutboxWorker
  import opened Memory
  import opened MemoryInvariant
  import Store
  import Keys
  import MR = MemoryRuns

  function Commands(account: string, key: string, call: Store.Call): Event {
    Commanded(account, Store.Command(key, "", ""), call, 0, 0)
  }

  // Account a buys as much as one wallet holds, and wins a round against b.
  const OverflowingRun := [
    Commands("a", "1", Store.CallRecharge(MaxInt64)), Commands("b", "2", Store.CallRecharge(50)),
    Commands("a", "3", Store.CallCreate("R", "p")), Commands("b", "4", Store.CallJoin("R", "q")),
    Commands("a", "5", Store.CallMove("R", Rock)), Commands("b", "6", Store.CallMove("R", Scissors))]

  lemma {:induction false} Executes(m: State, account: string, key: string, call: Store.Call)
    requires Store.Refusal(account, call).None? && key !in m.receipts && Effect(m, account, key, call, 0, 0).answer.Ok?
    ensures var n, done := Next(m, Commands(account, key, call)), Effect(m, account, key, call, 0, 0).state;
            n == done.(receipts := n.receipts) && n.receipts.Keys == done.receipts.Keys + {key}
  {
    hide Effect;
  }

  lemma {:induction false} RunOf(n: nat)
    requires n < 6
    ensures Memory.Run(EmptyState, OverflowingRun[..n + 1]) == Next(Memory.Run(EmptyState, OverflowingRun[..n]), OverflowingRun[n])
  {
    assert OverflowingRun[..n + 1][..n] == OverflowingRun[..n];
  }

  lemma {:induction false} Recharges(m: State, account: string, key: string, amount: int)
    requires account != "" && amount > 0 && key !in m.receipts && RechargeName(account, key) !in m.recharges
    requires 0 <= Lookup(m.wallets, account) && Lookup(m.wallets, account) + amount <= MaxInt64
    ensures var n := Next(m, Commands(account, key, Store.CallRecharge(amount)));
            && n.rooms == m.rooms && n.wallets == m.wallets[account := Lookup(m.wallets, account) + amount]
            && n.recharges.Keys == m.recharges.Keys + {RechargeName(account, key)} && n.receipts.Keys == m.receipts.Keys + {key}
  {
    hide RechargeName, Moved;
    EnsureKeepsTotal(m.wallets, account);
    MovedExactly(EnsureWallet(m.wallets, account), account, amount);
    Executes(m, account, key, Store.CallRecharge(amount));
  }

  lemma {:induction false} WalletsAreFilled()
    ensures var m := Memory.Run(EmptyState, OverflowingRun[..2]);
            m.rooms == map[] && m.wallets == map[HouseWallet := 0, "a" := MaxInt64, "b" := 50] && m.receipts.Keys == {"1", "2"}
  {
    hide Next, RechargeName;
    RunOf(0);
    RunOf(1);
    assert OverflowingRun[..0] == [];
    Recharges(EmptyState, "a", "1", MaxInt64);
    var m := Memory.Run(EmptyState, OverflowingRun[..1]);
    NamesDiffer();
    Recharges(m, "b", "2", 50);
  }

  lemma {:induction false} NamesDiffer()
    ensures RechargeName("b", "2") != RechargeName("a", "1")
  {
    assert RechargeName("b", "2")[0] == 'b' && RechargeName("a", "1")[0] == 'a';
  }

  lemma {:induction false} RoomIsCreated()
    ensures var m := Memory.Run(EmptyState, OverflowingRun[..3]);
            && m.rooms == map["R" := StoredRoom(Fresh("R", "p"), 1, map["p" := "a"], map[], {})]
            && m.wallets == map[HouseWallet := 0, "a" := MaxInt64, "b" := 50] && m.receipts.Keys == {"1", "2", "3"}
  {
    hide Next, Memory.Run;
    WalletsAreFilled();
    RunOf(2);
    Executes(Memory.Run(EmptyState, OverflowingRun[..2]), "a", "3", Store.CallCreate("R", "p"));
  }

  // Both are seated and have paid their stakes.
  ghost predicate Playing(m: State, moves: map<string, Move>) {
    && "R" in m.rooms
    && m.rooms["R"].room == Fresh("R", "p").(players := [Player("p", 0), Player("q", 0)], moves := moves)
    && m.rooms["R"].owners == map["p" := "a", "q" := "b"] && m.rooms["R"].funded == {1}
    && Lookup(m.wallets, "a") == MaxInt64 - RoundStake && Lookup(m.wallets, "b") == 0 && Lookup(m.wallets, HouseWallet) == 0
    && Lookup(m.wallets, EscrowWallet(RoundKey("R", 1))) == RoundStake * 2
  }

  lemma {:induction false} StakesOfTwo()
    ensures var stored := StoredRoom(Fresh("R", "p"), 1, map["p" := "a"], map[], {});
            var wallets := map[HouseWallet := 0, "a" := MaxInt64, "b" := 50];
            var funding := Fund(wallets, stored, "R", 1, Some("b"));
            && funding.err.None?
            && Lookup(funding.wallets, "a") == MaxInt64 - RoundStake && Lookup(funding.wallets, "b") == 0 && Lookup(funding.wallets, HouseWallet) == 0
            && Lookup(funding.wallets, EscrowWallet(RoundKey("R", 1))) == RoundStake * 2
  {
    hide EscrowWallet, Moved;
    var stored := StoredRoom(Fresh("R", "p"), 1, map["p" := "a"], map[], {});
    var wallets := map[HouseWallet := 0, "a" := MaxInt64, "b" := 50];
    MR.OwnersOfTwo(stored, stored.room.players);
    MovedExactly(wallets, "a", -RoundStake);
    MovedExactly(Moved(wallets, "a", -RoundStake), "b", -RoundStake);
    SafeNames();
  }

  lemma {:induction false} SafeNames()
    ensures SafeAccount("a") && SafeAccount("b") && "a" != "b" && "a" != HouseWallet && "b" != HouseWallet
    ensures var escrow := EscrowWallet(RoundKey("R", 1)); "a" != escrow && "b" != escrow && HouseWallet != escrow
  {
    SafeIsNoEscrow("a", RoundKey("R", 1));
    SafeIsNoEscrow("b", RoundKey("R", 1));
    SafeIsNoEscrow(HouseWallet, RoundKey("R", 1));
  }

  lemma {:induction false} OnlyOwner()
    ensures var owners: map<string, string> := map["p" := "a"]; "q" !in owners && "b" !in owners.Values
    ensures Restorable(Fresh("R", "p")) && WellFormed(Fresh("R", "p"))
  {}

  lemma {:induction false} GuestJoins()
    ensures var m := Memory.Run(EmptyState, OverflowingRun[..4]); Playing(m, map[]) && m.receipts.Keys == {"1", "2", "3", "4"}
  {
    hide Next, Memory.Run, Fund, EscrowWallet, Refreshed, Restorable, WellFormed, ViewOf;
    RoomIsCreated();
    StakesOfTwo();
    RunOf(3);
    var m := Memory.Run(EmptyState, OverflowingRun[..3]);
    OnlyOwner();
    assert EnsureWallet(m.wallets, "b") == m.wallets;
    Executes(m, "b", "4", Store.CallJoin("R", "q"));
  }

  // The account's seat is found, whichever seat is looked at first.
  lemma {:induction false} SeatIsFound(m: State, moves: map<string, Move>, account: string, id: string)
    requires Playing(m, moves) && Restorable(m.rooms["R"].room) && ((account == "a" && id == "p") || (account == "b" && id == "q"))
    ensures WorkingCopy(m, "R", account) == Ok(Working(id, m.rooms["R"].room))
  {
    hide EscrowWallet, Restorable;
    assert Owns(m.rooms["R"], account, id);
  }

  lemma {:induction false} HostMoves()
    ensures var m := Memory.Run(EmptyState, OverflowingRun[..5]); Playing(m, map["p" := Rock]) && m.receipts.Keys == {"1", "2", "3", "4", "5"}
  {
    hide Next, Memory.Run, EscrowWallet, WorkingCopy;
    GuestJoins();
    RunOf(4);
    var m := Memory.Run(EmptyState, OverflowingRun[..4]);
    SeatIsFound(m, map[], "a", "p");
    Executes(m, "a", "5", Store.CallMove("R", Rock));
  }

  // The host wins, and its wallet wraps around.
  lemma {:induction false} PayoutOverflows()
    ensures Lookup(Memory.Run(EmptyState, OverflowingRun).wallets, "a") < 0
  {
    hide Next, Memory.Run, EscrowWallet, WorkingCopy, Memory.SettleRound;
    HostMoves();
    RunOf(5);
    assert OverflowingRun[..6] == OverflowingRun;
    var m := Memory.Run(EmptyState, OverflowingRun[..5]);
    SeatIsFound(m, map["p" := Rock], "b", "q");
    var t := SubmitMove(m.rooms["R"].room, "q", Scissors).value;
    SafeNames();
    MR.WinningOverflows(m.wallets, m.history, m.rooms["R"], t);
    Executes(m, "b", "6", Store.CallMove("R", Scissors));
  }
}
