// Commands with the same key: their effect happens once, and the first answer
// is repeated, for as long as the receipt is kept, which is a week. A recharge is credited once
// even after its receipt is gone.
module Idempotency {
  import opened Prelude
  import opened Game
  import opened Ledger
  import opened Money
  import opened Tables
  import opened RowInvariant
  import opened Outbox
  import opened Store
  import opened Invariant
  import opened Preservation
  import opened Simulation
  import opened Safety
  import Keys

  lemma {:induction false} EffectKeepsReceipts(db: Db, account: string, key: string, call: Call, now: int)
    ensures var r := Effect(db, account, key, call, now); r.Done? ==> r.db.receipts == db.receipts
  {
    hide Saved, Persisted, Restorable, ViewOf, WithDeadline, Stake;
  }

  lemma {:induction false} ReconcileKeepsReceipts(db: Db, code: string, round: nat, now: int)
    ensures var r := Reconcile(db, code, round, now); r.Some? && r.value.Done? ==> r.value.db.receipts == db.receipts
  {
    hide Saved, Persisted, Restorable, WithDeadline, Stake, Eligible, Keys.HintFits, Settle, WithCancelled;
  }

  lemma {:induction false} DeadlineKeepsReceipts(db: Db, now: int)
    ensures var r := ProcessDeadline(db, now); r.Done? ==> r.db.receipts == db.receipts
  {
    hide Load, Saved, Restorable, Concluded, Verdict, Before, Due, Applicable, WithCancelled, Settle;
  }

  // The command takes effect: it succeeds, and not by a replay.
  ghost predicate Effective(db: Db, tx: Tx) {
    tx.TxCommand? &&
    var r := Execute(db, tx.account, tx.command, tx.call, tx.now);
    r.Done? && !r.answer.replayed
  }

  // A command that takes effect leaves its receipt. Nothing else writes
  // receipts, and only the cleanup removes them.
  lemma {:induction false} ReceiptStep(db: Db, tx: Tx)
    requires !tx.TxCleanupReceipts?
    ensures var after := Next(db, tx).receipts;
            if Effective(db, tx) then
              && tx.command.key !in db.receipts
              && after == db.receipts[tx.command.key := Receipt(tx.account, tx.command.operation, tx.command.hash,
                                                                Execute(db, tx.account, tx.command, tx.call, tx.now).answer.response,
                                                                tx.now + ReceiptRetention)]
            else after == db.receipts
  {
    hide Effect, Reconcile, ProcessDeadline, WithDeadline, WithAccount, LiveRole, WithCancelled, RoleOf, Refusal;
    match tx {
      case TxCommand(account, command, call, now) => EffectKeepsReceipts(db, account, command.key, call, now);
      case TxReconcile(code, round, now) => ReconcileKeepsReceipts(db, code, round, now);
      case TxDeadline(now) => DeadlineKeepsReceipts(db, now);
      case _ =>
    }
  }

  // A command without effect, be it refused, failed, conflicting or replayed,
  // changes nothing at all.
  lemma {:induction false} NoEffectNoChange(db: Db, tx: Tx)
    requires tx.TxCommand? && !Effective(db, tx)
    ensures Next(db, tx) == db
  {
    hide Effect, Refusal;
  }

  // A receipt cleanup takes exactly the receipts that have expired, and nothing else.
  lemma {:induction false} CleanupTakesExpired(db: Db, now: int)
    ensures var after := Next(db, TxCleanupReceipts(now));
            && after == db.(receipts := after.receipts)
            && (forall k :: k in after.receipts <==> k in db.receipts && db.receipts[k].expiresAt > now)
            && (forall k | k in after.receipts :: after.receipts[k] == db.receipts[k])
  {}

  // Seven days, in seconds.
  const Week := 7 * 24 * 60 * 60

  // Every receipt cleanup of the run comes before `until`.
  predicate CleanedBefore(txs: seq<Tx>, until: int) {
    forall i | 0 <= i < |txs| && txs[i].TxCleanupReceipts? :: txs[i].now < until
  }

  // No cleanup of the run comes a week or more after a command with this key
  // that precedes it, or after its receipt has expired.
  ghost predicate ReceiptsLast(db: Db, txs: seq<Tx>, key: string) {
    && (key in db.receipts ==> CleanedBefore(txs, db.receipts[key].expiresAt))
    && forall i, j | 0 <= i < j < |txs| && txs[i].TxCommand? && txs[i].command.key == key && txs[j].TxCleanupReceipts? ::
         txs[j].now < txs[i].now + Week
  }

  // The receipt was written by a command of the run, a week before it expires.
  ghost predicate WrittenIn(r: Receipt, txs: seq<Tx>, key: string) {
    exists i :: 0 <= i < |txs| && txs[i].TxCommand? && txs[i].command.key == key && r.expiresAt == txs[i].now + Week
  }

  // How many commands of the run with this key took effect.
  ghost function Effects(db: Db, txs: seq<Tx>, key: string): nat {
    if txs == [] then 0 else
      var before, tx := Store.Run(db, txs[..|txs| - 1]), txs[|txs| - 1];
      Effects(db, txs[..|txs| - 1], key) + (if Effective(before, tx) && tx.command.key == key then 1 else 0)
  }

  lemma {:induction false} ReceiptsLastShorter(db: Db, txs: seq<Tx>, key: string)
    requires txs != [] && ReceiptsLast(db, txs, key)
    ensures ReceiptsLast(db, txs[..|txs| - 1], key)
    ensures forall r: Receipt | WrittenIn(r, txs[..|txs| - 1], key) :: WrittenIn(r, txs, key)
  {
    var shorter := txs[..|txs| - 1];
    forall r: Receipt | WrittenIn(r, shorter, key) ensures WrittenIn(r, txs, key) {
      var i :| 0 <= i < |shorter| && shorter[i].TxCommand? && shorter[i].command.key == key && r.expiresAt == shorter[i].now + Week;
      assert txs[i] == shorter[i];
    }
  }

  // While no cleanup comes too late, the commands with one key take effect at
  // most once, and exactly then there is a receipt; a receipt stays as it is.
  lemma {:induction false} EffectHappensOnce(db: Db, txs: seq<Tx>, key: string)
    requires ReceiptsLast(db, txs, key)
    ensures var after := Store.Run(db, txs);
            && Effects(db, txs, key) == (if key in after.receipts && key !in db.receipts then 1 else 0)
            && (key in db.receipts ==> key in after.receipts && after.receipts[key] == db.receipts[key])
            && (key in after.receipts && key !in db.receipts ==> WrittenIn(after.receipts[key], txs, key))
  {
    hide Next, Effective;
    if txs != [] {
      var shorter, last := txs[..|txs| - 1], txs[|txs| - 1];
      var before := Store.Run(db, shorter);
      ReceiptsLastShorter(db, txs, key);
      EffectHappensOnce(db, shorter, key);
      if last.TxCleanupReceipts? {
        CleanupTakesExpired(before, last.now);
        CleanupsHaveNoEffect(before, last);
        if key in before.receipts && key !in db.receipts {
          var i :| 0 <= i < |shorter| && shorter[i].TxCommand? && shorter[i].command.key == key && before.receipts[key].expiresAt == shorter[i].now + Week;
          assert txs[i] == shorter[i] && txs[|txs| - 1].now < txs[i].now + Week;
        }
      } else {
        ReceiptStep(before, last);
        OnlyCommandsAreEffective(before, last);
      }
    }
  }

  lemma {:induction false} CleanupsHaveNoEffect(db: Db, tx: Tx)
    requires tx.TxCleanupReceipts?
    ensures !Effective(db, tx)
  {}

  lemma {:induction false} OnlyCommandsAreEffective(db: Db, tx: Tx)
    ensures Effective(db, tx) ==> tx.TxCommand?
  {
    hide Execute;
  }

  // Until a cleanup comes a week or more after the first call, later calls with
  // the same account, operation and hash get the first answer, others a
  // conflict, and neither changes anything.
  lemma {:induction false} FirstAnswerIsRepeated(db: Db, first: Tx, txs: seq<Tx>, again: Tx)
    requires Effective(db, first) && CleanedBefore(txs, first.now + Week)
    requires again.TxCommand? && again.command.key == first.command.key && Refusal(again.account, again.call).None?
    ensures var later := Store.Run(Next(db, first), txs);
            && Next(later, again) == later
            && Execute(later, again.account, again.command, again.call, again.now)
               == if again.account == first.account && again.command == first.command
                  then Done(later, Reply(Execute(db, first.account, first.command, first.call, first.now).answer.response, true))
                  else Failed(IdempotencyConflict)
  {
    hide Next, Refusal, Effect;
    ReceiptStep(db, first);
    ReceiptStays(Next(db, first), txs, first.command.key);
    assert Next(Store.Run(Next(db, first), txs), again) == Store.Run(Next(db, first), txs) by {
      NoEffectNoChange(Store.Run(Next(db, first), txs), again);
    }
  }

  // A receipt stays, and stops every effect of its key, until a cleanup comes
  // after it has expired.
  lemma {:induction false} ReceiptStays(db: Db, txs: seq<Tx>, key: string)
    requires key in db.receipts && CleanedBefore(txs, db.receipts[key].expiresAt)
    ensures var after := Store.Run(db, txs); key in after.receipts && after.receipts[key] == db.receipts[key] && Effects(db, txs, key) == 0
  {
    hide Next, Effective;
    if txs != [] {
      var shorter, last := txs[..|txs| - 1], txs[|txs| - 1];
      var before := Store.Run(db, shorter);
      ReceiptStays(db, shorter, key);
      if last.TxCleanupReceipts? {
        CleanupTakesExpired(before, last.now);
        CleanupsHaveNoEffect(before, last);
      } else {
        ReceiptStep(before, last);
      }
    }
  }

  // ---- Recharges ----

  ghost predicate Recharges(db: Db, tx: Tx, account: string, key: string) {
    Effective(db, tx) && tx.call.CallRecharge? && tx.account == account && tx.command.key == key
  }

  ghost function RechargeCount(db: Db, txs: seq<Tx>, account: string, key: string): nat {
    if txs == [] then 0 else
      RechargeCount(db, txs[..|txs| - 1], account, key)
      + (if Recharges(Store.Run(db, txs[..|txs| - 1]), txs[|txs| - 1], account, key) then 1 else 0)
  }

  lemma {:induction false} RechargeStep(db: Db, tx: Tx, account: string, key: string)
    requires DbOk(db) && Recharges(db, tx, account, key)
    ensures tx.TxCommand? && tx.call.CallRecharge? && Sound(db.funds.book)
    ensures var r := Recharge(db.funds.book, account, key, tx.call.amount); r.Ok? && Next(db, tx).funds.book == r.value
  {
    hide RowsOk, ConnectionsOk, PresentOk, DeadlinesOk, Linked, BoxOk, Announced, Sound, Recharge, Matched;
  }

  lemma {:induction false} RechargeUsesItsKey(db: Db, tx: Tx, account: string, key: string)
    requires DbOk(db) && Recharges(db, tx, account, key)
    ensures RechargeKey(account, key) !in Ledger.Keys(db.funds.book.log) && RechargeKey(account, key) in Ledger.Keys(Next(db, tx).funds.book.log)
  {
    hide DbOk, Recharges, Next, Recharge, Sound;
    RechargeStep(db, tx, account, key);
    RechargeMoves(db.funds.book, account, key, tx.call.amount);
  }

  lemma {:induction false} KeysGrow(db: Db, tx: Tx)
    ensures Ledger.Keys(db.funds.book.log) <= Ledger.Keys(Next(db, tx).funds.book.log)
  {
    hide Next;
    NextExtends(db, tx);
    var a, b := db.funds.book.log, Next(db, tx).funds.book.log;
    forall t | t in a ensures t in b {}
  }

  // Whatever happens in between, receipts cleaned up or not: an account is
  // credited at most once for a key.
  lemma {:induction false} RechargeIsCreditedOnce(db: Db, txs: seq<Tx>, account: string, key: string)
    requires DbOk(db)
    ensures RechargeCount(db, txs, account, key)
         <= if RechargeKey(account, key) in Ledger.Keys(Store.Run(db, txs).funds.book.log) && RechargeKey(account, key) !in Ledger.Keys(db.funds.book.log)
            then 1 else 0
  {
    hide DbOk, Next, Recharges;
    if txs != [] {
      var shorter := txs[..|txs| - 1];
      RechargeIsCreditedOnce(db, shorter, account, key);
      RunKeepsOk(db, shorter);
      KeysGrow(Store.Run(db, shorter), txs[|txs| - 1]);
      KeysGrowOverRun(db, shorter);
      if Recharges(Store.Run(db, shorter), txs[|txs| - 1], account, key) {
        RechargeUsesItsKey(Store.Run(db, shorter), txs[|txs| - 1], account, key);
      }
    }
  }

  lemma {:induction false} KeysGrowOverRun(db: Db, txs: seq<Tx>)
    ensures Ledger.Keys(db.funds.book.log) <= Ledger.Keys(Store.Run(db, txs).funds.book.log)
  {
    RunExtends(db, txs);
    var a, b := db.funds.book.log, Store.Run(db, txs).funds.book.log;
    forall t | t in a ensures t in b {}
  }

  // The one recharge posts its amount from the mint to the account.
  lemma {:induction false} RechargeCredits(db: Db, tx: Tx, account: string, key: string)
    requires DbOk(db) && Recharges(db, tx, account, key)
    ensures var after := Next(db, tx);
            && tx.call.amount > 0
            && Lookup(after.funds.book.balances, User(account)) == Lookup(db.funds.book.balances, User(account)) + tx.call.amount
            && forall a | a in db.funds.book.balances && a != User(account) && a != Mint ::
                 Lookup(after.funds.book.balances, a) == Lookup(db.funds.book.balances, a)
  {
    hide DbOk, Recharges, Next, Recharge, Sound;
    RechargeStep(db, tx, account, key);
    RechargeMoves(db.funds.book, account, key, tx.call.amount);
  }
}
