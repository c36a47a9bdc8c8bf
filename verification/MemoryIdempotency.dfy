// Receipts of the in-memory repository: each key takes effect once, its first
// answer is repeated, and a failure leaves at most empty wallets.
module MemoryIdempotency {
  import opened Prelude
  import opened Game
  import opened Memory
  import opened MemoryInvariant
  import Store

  // The command took effect: it was not refused, replayed or in conflict, and did not fail.
  ghost predicate Effective(m: State, e: Event) {
    e.Commanded? &&
    var r := Execute(m, e.account, e.command, e.call, e.now, e.deadline).answer;
    r.Ok? && !r.value.replayed
  }

  lemma {:induction false} EffectKeepsReceipts(m: State, account: string, key: string, call: Store.Call, now: int, deadline: int)
    requires Store.Refusal(account, call).None?
    ensures Effect(m, account, key, call, now, deadline).state.receipts == m.receipts
  {
    hide Fund, SettleRound, ViewOf, Refreshed, WorkingCopy, SubmitMove, RequestNextRound, Leave, Game.Join, Restore;
  }

  lemma {:induction false} ForfeitKeepsReceipts(m: State, lease: Lease, now: int)
    ensures ForfeitExpired(m, lease, now).state.receipts == m.receipts
  {
    hide Fund, SettleRound, ViewOf, Forfeit, Restore, Remaining;
  }

  lemma {:induction false} ReceiptStep(m: State, e: Event)
    ensures var after := Next(m, e).receipts;
            if Effective(m, e) then
              && e.command.key !in m.receipts
              && after == m.receipts[e.command.key := Kept(e.account, e.command,
                                                           Execute(m, e.account, e.command, e.call, e.now, e.deadline).answer.value.response)]
            else after == m.receipts
  {
    hide Effect, ForfeitExpired;
    match e {
      case Commanded(account, command, call, now, deadline) =>
        if Store.Refusal(account, call).None? { EffectKeepsReceipts(m, account, command.key, call, now, deadline); }
      case Expired(lease, now) => ForfeitKeepsReceipts(m, lease, now);
      case Appeared(_, _, _, _) =>
      case _ =>
    }
  }

  ghost function Effects(m: State, events: seq<Event>, key: string): nat {
    if events == [] then 0 else
      var before, e := Memory.Run(m, events[..|events| - 1]), events[|events| - 1];
      Effects(m, events[..|events| - 1], key) + (if Effective(before, e) && e.command.key == key then 1 else 0)
  }

  // Over any run the commands with one key take effect at most once, and
  // exactly then there is a receipt; a receipt stays as it is.
  lemma {:induction false} EffectHappensOnce(m: State, events: seq<Event>, key: string)
    ensures var after := Memory.Run(m, events);
            && Effects(m, events, key) == (if key in after.receipts && key !in m.receipts then 1 else 0)
            && (key in m.receipts ==> key in after.receipts && after.receipts[key] == m.receipts[key])
  {
    hide Effective, Next;
    if events != [] {
      EffectHappensOnce(m, events[..|events| - 1], key);
      ReceiptStep(Memory.Run(m, events[..|events| - 1]), events[|events| - 1]);
    }
  }

  // Later calls with the same account, operation and hash get the first answer,
  // others a conflict, and neither changes anything.
  lemma {:induction false} FirstAnswerIsRepeated(m: State, first: Event, events: seq<Event>, again: Event)
    requires Effective(m, first) && again.Commanded? && again.command.key == first.command.key
    requires Store.Refusal(again.account, again.call).None?
    ensures var later := Memory.Run(Next(m, first), events);
            Execute(later, again.account, again.command, again.call, again.now, again.deadline)
            == if again.account == first.account && again.command == first.command
               then Turn(later, Ok(Store.Reply(Execute(m, first.account, first.command, first.call, first.now, first.deadline).answer.value.response, true)))
               else Turn(later, Err(IdempotencyConflict))
  {
    hide Effect, Next, Memory.Run;
    ReceiptStep(m, first);
    EffectHappensOnce(Next(m, first), events, first.command.key);
  }

  // ---- Failures ----

  // Nothing but wallets may differ, and those only by empty ones.
  ghost predicate OnlyEmptyWallets(m: State, n: State) {
    n == m.(wallets := n.wallets) && forall w :: Lookup(n.wallets, w) == Lookup(m.wallets, w)
  }

  lemma {:induction false} FundingFails(wallets: map<string, int>, stored: StoredRoom, code: string, round: nat, joining: Option<string>)
    requires Fund(wallets, stored, code, round, joining).err.Some?
    ensures forall w :: Lookup(Fund(wallets, stored, code, round, joining).wallets, w) == Lookup(wallets, w)
  {
    hide Owners, EscrowWallet, Moved;
  }

  lemma {:induction false} FailedEffect(m: State, account: string, key: string, call: Store.Call, now: int, deadline: int)
    requires Store.Refusal(account, call).None? && Effect(m, account, key, call, now, deadline).answer.Err?
    ensures OnlyEmptyWallets(m, Effect(m, account, key, call, now, deadline).state)
  {
    hide Fund, SettleRound, ViewOf, Refreshed, WorkingCopy, SubmitMove, RequestNextRound, Leave, Game.Join;
    EnsureKeepsTotal(m.wallets, account);
    match call {
      case CallJoin(code, playerId) =>
        if code in m.rooms && Game.Restore(m.rooms[code].room).Ok? && Game.Join(Game.Restore(m.rooms[code].room).value, playerId).Ok? {
          JoinFundingFailure(m, code, playerId, account);
        }
      case CallMove(code, move) =>
        var copy := WorkingCopy(m, code, account);
        if copy.Ok? && SubmitMove(copy.value.state, copy.value.id, move).Ok? {
          FinishFailure(m, code, SubmitMove(copy.value.state, copy.value.id, move).value);
        }
      case CallNextRound(code, round) =>
        var copy := WorkingCopy(m, code, account);
        if copy.Ok? && RequestNextRound(copy.value.state, copy.value.id, round).Ok? {
          FinishFailure(m, code, RequestNextRound(copy.value.state, copy.value.id, round).value);
        }
      case _ =>
    }
  }

  lemma {:induction false} JoinFundingFailure(m: State, code: string, playerId: string, account: string)
    requires code in m.rooms && Game.Restore(m.rooms[code].room).Ok?
    requires Game.Join(Game.Restore(m.rooms[code].room).value, playerId).Ok?
    ensures var working := Game.Join(Game.Restore(m.rooms[code].room).value, playerId).value;
            var funding := Fund(EnsureWallet(m.wallets, account), m.rooms[code], code, working.round, Some(account));
            funding.err.Some? ==> forall w :: Lookup(funding.wallets, w) == Lookup(m.wallets, w)
  {
    hide Fund, Game.Join;
    var working := Game.Join(Game.Restore(m.rooms[code].room).value, playerId).value;
    EnsureKeepsTotal(m.wallets, account);
    if Fund(EnsureWallet(m.wallets, account), m.rooms[code], code, working.round, Some(account)).err.Some? {
      FundingFails(EnsureWallet(m.wallets, account), m.rooms[code], code, working.round, Some(account));
    }
  }

  lemma {:induction false} FinishFailure(m: State, code: string, working: RoomState)
    requires code in m.rooms
    ensures var funding := Fund(m.wallets, m.rooms[code], code, working.round, None);
            funding.err.Some? ==> forall w :: Lookup(funding.wallets, w) == Lookup(m.wallets, w)
  {
    hide Fund;
    if Fund(m.wallets, m.rooms[code], code, working.round, None).err.Some? {
      FundingFails(m.wallets, m.rooms[code], code, working.round, None);
    }
  }

  // A command without effect leaves rooms, coins, history, recharges and
  // receipts as they were; a failure may have created empty wallets.
  lemma {:induction false} NoEffectNoChange(m: State, e: Event)
    requires e.Commanded? && !Effective(m, e)
    ensures OnlyEmptyWallets(m, Next(m, e))
  {
    hide Effect;
    if Store.Refusal(e.account, e.call).None? && e.command.key !in m.receipts {
      FailedEffect(m, e.account, e.command.key, e.call, e.now, e.deadline);
    }
  }

  // ---- Recharges ----

  lemma {:induction false} EffectKeepsRecharges(m: State, account: string, key: string, call: Store.Call, now: int, deadline: int, name: string)
    requires Store.Refusal(account, call).None? && name in m.recharges
    ensures var n := Effect(m, account, key, call, now, deadline).state; name in n.recharges && n.recharges[name] == m.recharges[name]
  {
    hide Fund, SettleRound, ViewOf, Refreshed, WorkingCopy, SubmitMove, RequestNextRound, Leave, Game.Join, Restore;
  }

  lemma {:induction false} RechargeStays(m: State, events: seq<Event>, name: string)
    requires name in m.recharges
    ensures var later := Memory.Run(m, events); name in later.recharges && later.recharges[name] == m.recharges[name]
  {
    if events != [] {
      var before, e := Memory.Run(m, events[..|events| - 1]), events[|events| - 1];
      RechargeStays(m, events[..|events| - 1], name);
      RechargeStep(before, e, name);
    }
  }

  lemma {:induction false} RechargeStep(m: State, e: Event, name: string)
    requires name in m.recharges
    ensures name in Next(m, e).recharges && Next(m, e).recharges[name] == m.recharges[name]
  {
    hide Effect, Fund, SettleRound, ViewOf, Forfeit, Restore, Remaining, NextGenerations, LeasesOf;
    match e {
      case Commanded(account, command, call, now, deadline) =>
        if Store.Refusal(account, call).None? { EffectKeepsRecharges(m, account, command.key, call, now, deadline, name); }
      case _ =>
    }
  }

  // Once a recharge was accepted, asking again for the same one answers the
  // balance of the day, and for another amount a conflict; neither credits
  // anything, even without the receipt.
  lemma {:induction false} RechargeIsCreditedOnce(m: State, account: string, amount: int, key: string, events: seq<Event>, again: int)
    requires Recharge(m, account, amount, key).answer.Ok?
    ensures var later := Memory.Run(Recharge(m, account, amount, key).state, events);
            Recharge(later, account, again, key)
            == Turn(later, if again == amount then Ok(Store.BalanceResponse(Lookup(later.wallets, account))) else Err(IdempotencyConflict))
  {
    hide Memory.Run, Moved, RechargeName;
    RechargeStays(Recharge(m, account, amount, key).state, events, RechargeName(account, key));
  }
}
