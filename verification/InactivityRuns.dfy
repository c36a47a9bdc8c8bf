// Running out of time: every funded round gets a deadline, and as long as its
// coins are at stake that deadline waits, or both moves do.
module InactivityRuns {
  import opened Prelude
  import opened Game
  import opened GameRuns
  import opened Ledger
  import opened Money
  import opened Tables
  import opened RowInvariant
  import opened Outbox
  import opened Store
  import opened Invariant
  import opened Preservation
  import opened Simulation
  import opened PresenceRuns
  import opened DeadlineRuns
  import opened Safety
  import Keys

  // ---- Funding schedules the deadline ----

  lemma {:induction false} NoDeadlineYet(db: Db, code: string, round: nat)
    requires DbOk(db) && (code in db.rooms && round in db.rooms[code].rounds ==> !db.rooms[code].rounds[round].funded)
    ensures !DeadlineKnown(db, code, round, Inactivity, round) && db.nextDeadline !in db.deadlines
  {
    hide RowsOk, ConnectionsOk, PresentOk, Linked, FundsOk, BoxOk, Announced;
    forall i | i in db.deadlines ensures DeadlineOk(db.rooms, db.deadlines[i]) && i < db.nextDeadline {}
  }

  // A join schedules the end of round 1 half a minute later, and no other deadline changes.
  lemma {:induction false} JoinSchedules(db: Db, code: string, playerId: string, account: string, now: int)
    requires DbOk(db) && JoinRoom(db, code, playerId, account, now).Done?
    ensures db.nextDeadline !in db.deadlines
    ensures JoinRoom(db, code, playerId, account, now).db.deadlines
         == db.deadlines[db.nextDeadline := Deadline(code, 1, Inactivity, 1, now + 30, Pending, None)]
  {
    hide DbOk, RowsOk, WellFormed, Persisted, JoinRoom, Stake, CanSeatGuest, Join, RoleOf, JoinedTo, DeadlineKnown;
    RoomsOfDb(db);
    JoinShape(db, code, playerId, account, now);
    CanSeatHere(code, db.rooms[code], playerId);
    NoDeadlineYet(db, code, 1);
    var book := Stake(db.funds.book, RoundKey(code, 1), db.rooms[code].seats[Host].account, account).value;
    UnknownIsScheduled(db, WithRoom(db, code, WithRoundFunded(db.rooms[code], 1)).(funds := db.funds.(book := book)), code, 1, now);
  }

  lemma {:induction false} UnknownIsScheduled(db: Db, other: Db, code: string, round: nat, now: int)
    requires !DeadlineKnown(db, code, round, Inactivity, round) && other.deadlines == db.deadlines && other.nextDeadline == db.nextDeadline
    ensures WithDeadline(other, code, round, Inactivity, round, now + InactivityLimit).deadlines
         == db.deadlines[db.nextDeadline := Deadline(code, round, Inactivity, round, now + 30, Pending, None)]
  {}

  // An advance schedules the end of the next round half a minute later.
  lemma {:induction false} AdvanceSchedules(db: Db, code: string, round: nat, now: int)
    requires DbOk(db) && Eligible(db, code, round) == Some(Advancing)
    requires Reconcile(db, code, round, now).Some? && Reconcile(db, code, round, now).value.Done?
    ensures db.nextDeadline !in db.deadlines
    ensures Reconcile(db, code, round, now).value.db.deadlines
         == db.deadlines[db.nextDeadline := Deadline(code, round + 1, Inactivity, round + 1, now + 30, Pending, None)]
  {
    hide DbOk, RowsOk, WellFormed, Persisted, Saved, Load, Eligible, Keys.HintFits, FundRound, DeadlineKnown, AdvanceCommittedNextRound, WithDeadline, NextRound;
    EligibleRoom(db, code, round);
    StoredIsWellFormed(db, code);
    AdvanceableRequests(db, code, round);
    NoLaterRound(db.rooms[code]);
    NoDeadlineYet(db, code, round + 1);
    LoadIsPersisted(db, code);
    var s := Load(db, code).value;
    var saved := SaveAndBump(db, code, NextRound(s), s.round, now).value;
    FundDeadlines(saved, code, round + 1, None, now);
    UnknownIsScheduled(db, saved, code, round + 1, now);
  }

  lemma {:induction false} NoLaterRound(rows: RoomRows)
    requires RowsOk(rows)
    ensures rows.currentRound + 1 !in rows.rounds
  {}

  // Resolving two moves cancels every pending deadline of the round, and no other.
  lemma {:induction false} ResolvingCancels(db: Db, code: string, round: nat, now: int)
    requires DbOk(db) && Eligible(db, code, round) == Some(Resolving)
    requires Reconcile(db, code, round, now).Some? && Reconcile(db, code, round, now).value.Done?
    ensures var after := Reconcile(db, code, round, now).value.db.deadlines;
            && after.Keys == db.deadlines.Keys
            && forall i | i in db.deadlines ::
                 after[i] == if db.deadlines[i].code == code && db.deadlines[i].round == round && db.deadlines[i].status.Pending?
                             then db.deadlines[i].(status := Cancelled, completedAt := Some(now)) else db.deadlines[i]
  {
    hide DbOk, RowsOk, WellFormed, Persisted, Saved, Load, Eligible, Keys.HintFits, SaveAndSettle, ResolveCommittedMoves;
    EligibleRoom(db, code, round);
    StoredIsWellFormed(db, code);
    ResolvableMoves(db, code, round);
    var s := Load(db, code).value;
    SettledDeadlines(db, code, ResolveCommittedMoves(s, s.round).value, WithCancelled(db.deadlines, RoundDeadlines(db, code, s.round), now), now);
  }

  // ---- Every stake is guarded ----

  // Both players have paid for the round, and it is not decided.
  predicate AtStake(s: RoomState) {
    |s.players| == 2 && !s.resolved
  }

  predicate BothMoved(s: RoomState) {
    |s.players| == 2 && s.players[0].id in s.moves && s.players[1].id in s.moves
  }

  // Deadline `i` ends round `round` of the room when its time is over.
  ghost predicate Guards(db: Db, i: nat, code: string, round: nat) {
    && i in db.deadlines
    && var d := db.deadlines[i];
       d.code == code && d.round == round && d.kind.Inactivity? && d.generation == round && d.status.Pending?
  }

  ghost predicate HasGuard(db: Db, code: string, round: nat) {
    exists i :: Guards(db, i, code, round)
  }

  ghost predicate Guarded(db: Db, code: string) {
    code in db.rooms && db.rooms[code].currentRound in db.rooms[code].rounds &&
    var s := Stored(db, code);
    AtStake(s) && !BothMoved(s) ==> HasGuard(db, code, s.round)
  }

  lemma {:induction false} CallKeepsDeadlines(db: Db, account: string, key: string, call: Call, now: int)
    requires !call.CallJoin?
    ensures var r := Effect(db, account, key, call, now); r.Done? ==> r.db.deadlines == db.deadlines && r.db.nextDeadline == db.nextDeadline
  {
    hide Saved, Persisted, Restorable, ViewOf;
  }

  lemma {:induction false} FreshDeadlineGuards(db: Db, after: Db, code: string, round: nat, d: Deadline, i: nat, c: string, n: nat)
    requires db.nextDeadline !in db.deadlines && after.deadlines == db.deadlines[db.nextDeadline := d]
    ensures Guards(db, i, c, n) ==> Guards(after, i, c, n)
  {}

  lemma {:induction false} CommandKeepsGuard(db: Db, tx: Tx, i: nat, code: string, round: nat)
    requires DbOk(db) && tx.TxCommand? && Guards(db, i, code, round)
    ensures Guards(Next(db, tx), i, code, round)
  {
    hide DbOk, Effect, JoinRoom, Refusal;
    if Refusal(tx.account, tx.call).None? && tx.command.key !in db.receipts && Effect(db, tx.account, tx.command.key, tx.call, tx.now).Done? {
      if tx.call.CallJoin? {
        JoinIsEffect(db, tx);
        JoinSchedules(db, tx.call.code, tx.call.playerId, tx.account, tx.now);
      } else {
        CallKeepsDeadlines(db, tx.account, tx.command.key, tx.call, tx.now);
      }
    }
  }

  lemma {:induction false} JoinIsEffect(db: Db, tx: Tx)
    requires tx.TxCommand? && tx.call.CallJoin?
    ensures Effect(db, tx.account, tx.command.key, tx.call, tx.now) == JoinRoom(db, tx.call.code, tx.call.playerId, tx.account, tx.now)
  {
    hide JoinRoom;
  }

  // A reconciliation keeps the deadlines of rounds that wait for a move.
  lemma {:induction false} ReconcileKeepsGuard(db: Db, tx: Tx, i: nat, code: string, round: nat)
    requires DbOk(db) && tx.TxReconcile? && Guards(db, i, code, round)
    requires code in db.rooms && db.rooms[code].currentRound in db.rooms[code].rounds && Stored(db, code).round == round
    requires AtStake(Stored(db, code)) && !BothMoved(Stored(db, code))
    ensures Guards(Next(db, tx), i, code, round)
  {
    hide DbOk, Reconcile, Eligible, Persisted;
    var r := Reconcile(db, tx.code, tx.round, tx.now);
    if r.Some? && r.value.Done? {
      ReconciledWasEligible(db, tx.code, tx.round, tx.now);
      NothingEligible(db, code);
      EligibleIsCurrent(db, tx.code, tx.round);
      if Eligible(db, tx.code, tx.round).value.Resolving? {
        ResolvingCancels(db, tx.code, tx.round, tx.now);
      } else {
        AdvanceSchedules(db, tx.code, tx.round, tx.now);
      }
    }
  }

  lemma {:induction false} EligibleIsCurrent(db: Db, code: string, round: nat)
    requires Eligible(db, code, round).Some?
    ensures code in db.rooms && db.rooms[code].currentRound == round
  {}

  lemma {:induction false} NothingEligible(db: Db, code: string)
    requires DbOk(db) && code in db.rooms && db.rooms[code].currentRound in db.rooms[code].rounds
    requires AtStake(Stored(db, code)) && !BothMoved(Stored(db, code))
    ensures Eligible(db, code, db.rooms[code].currentRound).None?
  {
    hide ConnectionsOk, PresentOk, DeadlinesOk, Linked, FundsOk, BoxOk, Announced;
    PersistedIsWellFormed(code, db.rooms[code]);
    assert RowsOk(db.rooms[code]) && RoundOk(db.rooms[code].rounds[db.rooms[code].currentRound]);
  }

  lemma {:induction false} StakedRows(code: string, rows: RoomRows)
    requires RowsOk(rows) && rows.currentRound in rows.rounds && AtStake(Persisted(code, rows))
    ensures Full(rows) && !rows.closed && !Persisted(code, rows).closed && Persisted(code, rows).round == rows.currentRound
    ensures rows.rounds[rows.currentRound].status.Active? && rows.rounds[rows.currentRound].result.Unset? && rows.rounds[rows.currentRound].funded
  {
    assert RoundOk(rows.rounds[rows.currentRound]);
  }

  // The guard of a round at stake is claimed when it comes first, and applies.
  lemma {:induction false} GuardApplies(db: Db, i: nat, code: string, round: nat)
    requires DbOk(db) && Guards(db, i, code, round)
    requires code in db.rooms && db.rooms[code].currentRound in db.rooms[code].rounds && Stored(db, code).round == round && AtStake(Stored(db, code))
    ensures Applicable(db, i) && RoundStillOpen(db, i) && DeadlineClaims(db, i) && !Stored(db, code).closed
  {
    hide DbOk, RowsOk, WellFormed, SeatsHold, Persisted;
    StoredIsWellFormed(db, code);
    StakedRows(code, db.rooms[code]);
  }

  // Cancelling due deadlines that do not apply spares the guard.
  lemma {:induction false} CancelSparesGuard(db: Db, ids: set<nat>, now: int, i: nat, code: string, round: nat)
    requires Guards(db, i, code, round) && i !in ids
    ensures Guards(Cancel(db, ids, now), i, code, round)
  {}

  lemma {:induction false} SkippedSparesGuard(db: Db, now: int, i: nat)
    requires i in db.deadlines && Applicable(db, i) && ApplicableOfRoom(db, db.deadlines[i].code, now) != {}
    ensures var code := db.deadlines[i].code; i !in Skipped(db, code, First(db, ApplicableOfRoom(db, code, now)), now)
  {
    hide Applicable;
    var code := db.deadlines[i].code;
    assert i in DueOfRoom(db, code, now) ==> i in ApplicableOfRoom(db, code, now);
  }

  lemma {:induction false} UnduePasses(db: Db, now: int, i: nat)
    requires i in db.deadlines && Applicable(db, i) && ApplicableOfRoom(db, db.deadlines[i].code, now) == {}
    ensures i !in DueOfRoom(db, db.deadlines[i].code, now)
  {
    hide Applicable;
    var code := db.deadlines[i].code;
    assert i in DueOfRoom(db, code, now) ==> i in ApplicableOfRoom(db, code, now);
  }

  // With a move missing, running out of time always decides.
  lemma {:induction false} TimeDecides(db: Db, i: nat, s: RoomState, now: int)
    requires i in db.deadlines && db.deadlines[i].kind.Inactivity? && WellFormed(s) && AtStake(s) && !BothMoved(s) && !s.closed
    ensures Verdict(db, i, s, now).Some? && Verdict(db, i, s, now).value.Ok?
  {}

  // The deadline worker keeps the guard, or decides the round.
  lemma {:induction false} DeadlineKeepsGuard(db: Db, now: int, i: nat, code: string, round: nat)
    requires DbOk(db) && Guards(db, i, code, round)
    requires code in db.rooms && db.rooms[code].currentRound in db.rooms[code].rounds && Stored(db, code).round == round
    requires AtStake(Stored(db, code)) && !BothMoved(Stored(db, code))
    ensures ProcessDeadline(db, now).Done?
    ensures var r := ProcessDeadline(db, now);
            Guards(r.db, i, code, round) || RoundKey(code, round) in r.db.funds.history
  {
    hide DbOk, Persisted, WellFormed, ProcessDeadline, Applicable, DeadlineClaims, RoundStillOpen, Guards, Due, AtStake, BothMoved;
    DeadlineKeepsOk(db, now);
    GuardApplies(db, i, code, round);
    GuardFields(db, i, code, round);
    if DueIds(db, now) != {} {
      var first := First(db, DueIds(db, now));
      var c := db.deadlines[first].code;
      if c != code {
        OtherRoomsWait(db, now);
        GuardOfSame(db, ProcessDeadline(db, now).db, i, code, round);
      } else {
        RoomDeadlineKeepsGuard(db, now, i, code, round);
        StakedRound(db, code);
        if ProcessDeadline(db, now).answer.Settled? { SettledIsRecorded(db, now); }
      }
    } else {
      IdleKeeps(db, now);
    }
  }

  lemma {:induction false} StakedRound(db: Db, code: string)
    requires code in db.rooms && db.rooms[code].currentRound in db.rooms[code].rounds
    ensures Stored(db, code).round == db.rooms[code].currentRound
  {}

  lemma {:induction false} SettledIsRecorded(db: Db, now: int)
    requires DbOk(db) && DueIds(db, now) != {} && ProcessDeadline(db, now).Done? && ProcessDeadline(db, now).answer.Settled?
    ensures var code := db.deadlines[First(db, DueIds(db, now))].code;
            code in db.rooms && RoundKey(code, db.rooms[code].currentRound) in ProcessDeadline(db, now).db.funds.history
  {
    hide DbOk, ProcessDeadline, Settle, RowOf, OpenRound, Persisted, DueIds;
    SettledAddsHistory(db, now);
  }

  lemma {:induction false} GuardFields(db: Db, i: nat, code: string, round: nat)
    requires Guards(db, i, code, round)
    ensures i in db.deadlines && db.deadlines[i].code == code && db.deadlines[i].kind.Inactivity?
  {}

  lemma {:induction false} GuardOfSame(db: Db, after: Db, i: nat, code: string, round: nat)
    requires Guards(db, i, code, round) && i in after.deadlines && after.deadlines[i] == db.deadlines[i]
    ensures Guards(after, i, code, round)
  {}

  // What the worker cancels when it does not settle.
  lemma {:induction false} UnsettledCancels(db: Db, now: int)
    requires DueIds(db, now) != {} && ProcessDeadline(db, now).Done? && !ProcessDeadline(db, now).answer.Settled?
    ensures var r, first := ProcessDeadline(db, now).db, First(db, DueIds(db, now));
            && first in db.deadlines
            && var code := db.deadlines[first].code;
               if !DeadlineClaims(db, first) then r == if RoundStillOpen(db, first) then db else Cancel(db, {first}, now)
               else if ApplicableOfRoom(db, code, now) == {} then r == Cancel(db, DueOfRoom(db, code, now), now)
               else
                 var chosen := First(db, ApplicableOfRoom(db, code, now));
                 chosen in db.deadlines && r == Cancel(Cancel(db, Skipped(db, code, chosen, now), now), {chosen}, now)
  {
    hide Load, Verdict, Before, Applicable, SaveAndSettle, DeadlineClaims, RoundStillOpen, Cancel, Concluded, Skipped, Due;
    CandidateIsFirst(db, now);
  }

  lemma {:induction false} RoomDeadlineKeepsGuard(db: Db, now: int, i: nat, code: string, round: nat)
    requires DbOk(db) && Guards(db, i, code, round) && DueIds(db, now) != {} && db.deadlines[First(db, DueIds(db, now))].code == code
    requires code in db.rooms && db.rooms[code].currentRound in db.rooms[code].rounds && Stored(db, code).round == round
    requires AtStake(Stored(db, code)) && !BothMoved(Stored(db, code)) && !Stored(db, code).closed
    requires i in db.deadlines && db.deadlines[i].code == code && db.deadlines[i].kind.Inactivity?
    requires Applicable(db, i) && RoundStillOpen(db, i) && DeadlineClaims(db, i) && ProcessDeadline(db, now).Done?
    ensures ProcessDeadline(db, now).answer.Settled? || Guards(ProcessDeadline(db, now).db, i, code, round)
  {
    hide DbOk, Persisted, WellFormed, Verdict, Applicable, ProcessDeadline, DeadlineClaims, RoundStillOpen, Cancel, Skipped, Guards, Due, AtStake, BothMoved;
    var first := First(db, DueIds(db, now));
    if !ProcessDeadline(db, now).answer.Settled? {
      UnsettledCancels(db, now);
      SettlesExactly(db, now);
      if !DeadlineClaims(db, first) {
        if !RoundStillOpen(db, first) { CancelSparesGuard(db, {first}, now, i, code, round); }
      } else if ApplicableOfRoom(db, code, now) == {} {
        UnduePasses(db, now, i);
        CancelSparesGuard(db, DueOfRoom(db, code, now), now, i, code, round);
      } else {
        var chosen := First(db, ApplicableOfRoom(db, code, now));
        var skipped := Skipped(db, code, chosen, now);
        SkippedSparesGuard(db, now, i);
        CancelSparesGuard(db, skipped, now, i, code, round);
        TimeDecides(db, i, Stored(db, code), now);
        CancelSparesGuard(Cancel(db, skipped, now), {chosen}, now, i, code, round);
      }
    }
  }

  lemma {:induction false} PresenceKeepsGuard(db: Db, tx: Tx, i: nat, code: string, round: nat)
    requires DbOk(db) && Guards(db, i, code, round) && (tx.TxOpen? || tx.TxClose? || tx.TxCleanupDeadlines?)
    ensures Guards(Next(db, tx), i, code, round)
  {
    hide DbOk, RoleOf, LiveRole;
    IdsBelowNext(db);
  }

  // While a move is missing the guard stays, until the round is settled.
  lemma {:induction false} GuardStays(db: Db, tx: Tx, i: nat, code: string, round: nat)
    requires DbOk(db) && Guards(db, i, code, round)
    requires code in db.rooms && db.rooms[code].currentRound in db.rooms[code].rounds && Stored(db, code).round == round
    requires AtStake(Stored(db, code)) && !BothMoved(Stored(db, code))
    ensures Guards(Next(db, tx), i, code, round) || RoundKey(code, round) in Next(db, tx).funds.history
  {
    hide DbOk, Guards, Persisted, AtStake, BothMoved, Execute, Reconcile, ProcessDeadline, OpenConnection, CloseConnection, CleanupDeadlines;
    match tx {
      case TxCommand(_, _, _, _) => CommandKeepsGuard(db, tx, i, code, round);
      case TxReconcile(_, _, _) => ReconcileKeepsGuard(db, tx, i, code, round);
      case TxDeadline(now) => DeadlineKeepsGuard(db, now, i, code, round);
      case TxOpen(_, _, _, _, _, _) => PresenceKeepsGuard(db, tx, i, code, round);
      case TxClose(_, _, _) => PresenceKeepsGuard(db, tx, i, code, round);
      case TxCleanupDeadlines(_) => PresenceKeepsGuard(db, tx, i, code, round);
      case _ =>
        GuardFields(db, i, code, round);
        SameDeadlines(db, tx);
        GuardOfSame(db, Next(db, tx), i, code, round);
    }
  }

  lemma {:induction false} SameDeadlines(db: Db, tx: Tx)
    requires tx.TxBalance? || tx.TxRenew? || tx.TxCleanupReceipts? || tx.TxOutbox?
    ensures Next(db, tx).deadlines == db.deadlines
  {}

  // Where a stake comes from: it was there, or a join or an advance made it.
  lemma {:induction false} StakeComesFrom(s: RoomState, t: RoomState, tx: Tx, step: RoomStep)
    requires WellFormed(s) && Follows(s, t, step) && Allowed(tx, step) && AtStake(t) && !BothMoved(t)
    ensures (AtStake(s) && !BothMoved(s) && t.round == s.round) || (step.Applied? && (step.op.OpJoin? || step.op.OpAdvance?))
  {}

  lemma {:induction false} StakeIsUnrecorded(db: Db, code: string)
    requires DbOk(db) && code in db.rooms && db.rooms[code].currentRound in db.rooms[code].rounds && AtStake(Stored(db, code))
    ensures RoundKey(code, Stored(db, code).round) !in db.funds.history
  {
    hide RowsOk, ConnectionsOk, PresentOk, DeadlinesOk, FundsOk, BoxOk, Announced, RowMatches, SeatsHold, WellFormed;
    StoredIsWellFormed(db, code);
    StakedRows(code, db.rooms[code]);
    assert !ResolvedRound(db.rooms, RoundKey(code, Stored(db, code).round));
  }

  // A committed join is the one in the room that tells.
  lemma {:induction false} JoinStakes(db: Db, tx: Tx, code: string)
    requires DbOk(db) && code in db.rooms && tx.TxCommand? && tx.call.CallJoin?
    ensures code in Next(db, tx).rooms
    ensures Next(db, tx).rooms[code] == db.rooms[code] || HasGuard(Next(db, tx), code, 1)
  {
    hide DbOk, Effect, JoinRoom, Refusal;
    EveryTransactionFollowsTheAggregate(db, tx, code);
    if Refusal(tx.account, tx.call).None? && tx.command.key !in db.receipts && Effect(db, tx.account, tx.command.key, tx.call, tx.now).Done? {
      if tx.call.code == code {
        JoinIsEffect(db, tx);
        JoinSchedules(db, code, tx.call.playerId, tx.account, tx.now);
        assert Guards(Next(db, tx), db.nextDeadline, code, 1);
      } else {
        OtherRooms(db, tx.account, tx.command.key, tx.call, tx.now, code);
      }
    }
  }

  lemma {:induction false} AdvanceGuards(db: Db, tx: Tx)
    requires DbOk(db) && tx.TxReconcile? && Eligible(db, tx.code, tx.round) == Some(Advancing)
    requires Reconcile(db, tx.code, tx.round, tx.now).Some? && Reconcile(db, tx.code, tx.round, tx.now).value.Done?
    ensures HasGuard(Next(db, tx), tx.code, tx.round + 1)
  {
    hide DbOk, Reconcile, Eligible, Next;
    TransitionCommits(db, tx);
    AdvanceSchedules(db, tx.code, tx.round, tx.now);
    assert Guards(Next(db, tx), db.nextDeadline, tx.code, tx.round + 1);
  }

  lemma {:induction false} OtherTransition(db: Db, tx: Tx, code: string)
    requires DbOk(db) && code in db.rooms && tx.TxReconcile?
    requires tx.code != code || Reconcile(db, tx.code, tx.round, tx.now).None? || Reconcile(db, tx.code, tx.round, tx.now).value.Failed?
    ensures code in Next(db, tx).rooms && Next(db, tx).rooms[code] == db.rooms[code]
  {
    hide DbOk, Reconcile, Next;
    TransitionCommits(db, tx);
    var r := Reconcile(db, tx.code, tx.round, tx.now);
    if r.Some? && r.value.Done? { ReconcileSteps(db, tx, tx.code, tx.round, tx.now); }
  }

  lemma {:induction false} AdvanceStakes(db: Db, tx: Tx, code: string)
    requires DbOk(db) && code in db.rooms && tx.TxReconcile? && code in Next(db, tx).rooms
    ensures || Next(db, tx).rooms[code] == db.rooms[code] || Eligible(db, code, db.rooms[code].currentRound) == Some(Resolving)
            || HasGuard(Next(db, tx), code, db.rooms[code].currentRound + 1)
  {
    hide DbOk, Reconcile, Eligible, Next, HasGuard;
    var r := Reconcile(db, tx.code, tx.round, tx.now);
    if tx.code == code && r.Some? && r.value.Done? {
      ReconciledWasEligible(db, tx.code, tx.round, tx.now);
      EligibleIsCurrent(db, tx.code, tx.round);
      if Eligible(db, code, tx.round).value.Advancing? { AdvanceGuards(db, tx); }
    } else {
      OtherTransition(db, tx, code);
    }
  }

  lemma {:induction false} TransitionCommits(db: Db, tx: Tx)
    requires tx.TxReconcile?
    ensures var r := Reconcile(db, tx.code, tx.round, tx.now); Next(db, tx) == if r.None? then db else Committed(db, r.value)
  {
    hide Reconcile;
  }

  // The round a join or an advance puts at stake.
  lemma {:induction false} NewStake(s: RoomState, t: RoomState, step: RoomStep)
    requires WellFormed(s) && Follows(s, t, step) && step.Applied? && (step.op.OpJoin? || step.op.OpAdvance?)
    ensures step.op.OpJoin? ==> t.round == s.round && |s.players| == 1
    ensures step.op.OpAdvance? ==> t.round == s.round + 1 && s.resolved
  {}

  lemma {:induction false} LoneRound(db: Db, code: string)
    requires DbOk(db) && code in db.rooms && db.rooms[code].currentRound in db.rooms[code].rounds
    ensures |Stored(db, code).players| == 1 ==> Stored(db, code).round == 1
    ensures Stored(db, code).resolved ==> Eligible(db, code, db.rooms[code].currentRound) != Some(Resolving)
  {
    hide ConnectionsOk, PresentOk, DeadlinesOk, Linked, FundsOk, BoxOk, Announced;
    assert RowsOk(db.rooms[code]) && RoundOk(db.rooms[code].rounds[db.rooms[code].currentRound]);
  }

  lemma {:induction false} NextKeepsGuarded(db: Db, tx: Tx, code: string)
    requires DbOk(db) && Guarded(db, code)
    ensures Guarded(Next(db, tx), code)
  {
    hide DbOk, Next, Persisted, AtStake, BothMoved, Guards, Follows, WellFormed, Eligible;
    var after := Next(db, tx);
    StoredIsWellFormed(db, code);
    EveryTransactionFollowsTheAggregate(db, tx, code);
    NextKeepsOk(db, tx);
    var s, t := Stored(db, code), Stored(after, code);
    var step :| Allowed(tx, step) && Follows(s, t, step);
    if AtStake(t) && !BothMoved(t) {
      StakeComesFrom(s, t, tx, step);
      StakedRound(db, code);
      LoneRound(db, code);
      if AtStake(s) && !BothMoved(s) && t.round == s.round {
        var i :| Guards(db, i, code, s.round);
        GuardStays(db, tx, i, code, s.round);
        StakeIsUnrecorded(after, code);
      } else {
        NewStake(s, t, step);
        if step.op.OpJoin? { JoinStakes(db, tx, code); } else { AdvanceStakes(db, tx, code); }
      }
    }
  }

  // ---- Over whole runs ----

  lemma {:induction false} CallsMakeRooms(db: Db, account: string, key: string, call: Call, now: int, code: string)
    requires DbOk(db) && code !in db.rooms
    ensures var r := Effect(db, account, key, call, now); r.Done? && code in r.db.rooms ==> !Full(r.db.rooms[code])
  {
    hide DbOk, JoinRoom, Saved, ViewOf, Persisted, Restorable;
    if call.CallJoin? && JoinRoom(db, call.code, call.playerId, account, now).Done? {
      RoomsOfDb(db);
      JoinShape(db, call.code, call.playerId, account, now);
      JoinSteps(db, TxCommand(account, Command(key, "", ""), call, now), call.code, call.playerId, account, now);
    }
  }

  lemma {:induction false} PresenceMakesNoRoom(db: Db, tx: Tx)
    requires tx.TxOpen? || tx.TxClose?
    ensures Next(db, tx).rooms.Keys == db.rooms.Keys
  {
    hide RoleOf, LiveRole, WithCancelled, WithDeadline;
  }

  lemma {:induction false} DeadlineMakesNoRoom(db: Db, now: int)
    requires DbOk(db)
    ensures Next(db, TxDeadline(now)).rooms.Keys == db.rooms.Keys
  {
    hide DbOk, ProcessDeadline, DueIds;
    DeadlineKeepsOk(db, now);
    if DueIds(db, now) == {} {
      IdleKeeps(db, now);
    } else if ProcessDeadline(db, now).answer.Settled? {
      SettlesExactly(db, now);
    } else {
      UnsettledKeepsRooms(db, now);
    }
  }

  lemma {:induction false} OthersMakeNoRoom(db: Db, tx: Tx)
    requires tx.TxBalance? || tx.TxRenew? || tx.TxCleanupReceipts? || tx.TxCleanupDeadlines? || tx.TxOutbox?
    ensures Next(db, tx).rooms == db.rooms
  {}

  // A room begins with its host alone.
  lemma {:induction false} NewRoomWaits(db: Db, tx: Tx, code: string)
    requires DbOk(db) && code !in db.rooms && code in Next(db, tx).rooms
    ensures !Full(Next(db, tx).rooms[code])
  {
    hide DbOk, Effect, Reconcile, ProcessDeadline, OpenConnection, CloseConnection, RenewConnection, Refusal;
    match tx {
      case TxCommand(account, command, call, now) => CallsMakeRooms(db, account, command.key, call, now, code);
      case TxReconcile(c, round, now) =>
        if Reconcile(db, c, round, now).Some? && Reconcile(db, c, round, now).value.Done? { ReconcileSteps(db, tx, c, round, now); }
      case TxDeadline(now) => DeadlineMakesNoRoom(db, now);
      case TxOpen(_, _, _, _, _, _) => PresenceMakesNoRoom(db, tx);
      case TxClose(_, _, _) => PresenceMakesNoRoom(db, tx);
      case _ => OthersMakeNoRoom(db, tx);
    }
  }

  lemma {:induction false} LoneIsGuarded(db: Db, code: string)
    requires DbOk(db) && code in db.rooms && !Full(db.rooms[code])
    ensures Guarded(db, code)
  {
    hide DbOk, RowsOk, WellFormed, SeatsHold, Guards;
    StoredIsWellFormed(db, code);
  }

  // In every reachable state, cleanups included: while a paid round is open and
  // a move is missing, a pending deadline will end it when its time is over. So
  // no stake stays in escrow because nobody moves.
  lemma {:induction false} EveryStakeIsGuarded(db: Db, txs: seq<Tx>, code: string)
    requires Reachable(db, txs) && code in db.rooms
    ensures DbOk(db) && Guarded(db, code)
    ensures var rows := db.rooms[code];
            var n := rows.currentRound;
            n in rows.rounds && rows.rounds[n].funded && rows.rounds[n].status.Active?
            && !(RoundRole(n, Host) in rows.moves && RoundRole(n, Guest) in rows.moves) ==>
              exists i | i in db.deadlines :: && db.deadlines[i].code == code && db.deadlines[i].round == n && db.deadlines[i].kind.Inactivity?
                                              && db.deadlines[i].generation == n && db.deadlines[i].status.Pending?
    decreases |txs|
  {
    hide DbOk, Next, Guarded;
    ReachableIsOk(db, txs);
    if txs != [] {
      var shorter, last := txs[..|txs| - 1], txs[|txs| - 1];
      var before := Store.Run(EmptyDb(), shorter);
      ReachableIsOk(before, shorter);
      if code in before.rooms {
        EveryStakeIsGuarded(before, shorter, code);
        NextKeepsGuarded(before, last, code);
      } else {
        NewRoomWaits(before, last, code);
        LoneIsGuarded(db, code);
      }
    }
    GuardedRows(db, code);
  }

  lemma {:induction false} GuardedRows(db: Db, code: string)
    requires DbOk(db) && Guarded(db, code)
    ensures var rows := db.rooms[code];
            var n := rows.currentRound;
            n in rows.rounds && rows.rounds[n].funded && rows.rounds[n].status.Active?
            && !(RoundRole(n, Host) in rows.moves && RoundRole(n, Guest) in rows.moves) ==>
              exists i | i in db.deadlines :: && db.deadlines[i].code == code && db.deadlines[i].round == n && db.deadlines[i].kind.Inactivity?
                                              && db.deadlines[i].generation == n && db.deadlines[i].status.Pending?
  {
    hide ConnectionsOk, PresentOk, DeadlinesOk, Linked, FundsOk, BoxOk, Announced;
    var rows := db.rooms[code];
    PersistedIsWellFormed(code, rows);
    assert RowsOk(rows) && RoundOk(rows.rounds[rows.currentRound]);
    if HasGuard(db, code, rows.currentRound) {
      var i :| Guards(db, i, code, rows.currentRound);
      assert i in db.deadlines && db.deadlines[i].code == code;
    }
  }

  // ---- Every funded round was scheduled ----

  ghost predicate HasRow(db: Db, code: string, round: nat) {
    exists i | i in db.deadlines ::
      db.deadlines[i].code == code && db.deadlines[i].round == round && db.deadlines[i].kind.Inactivity? && db.deadlines[i].generation == round
  }

  ghost predicate Scheduled(db: Db, code: string) {
    code in db.rooms && forall n | n in db.rooms[code].rounds && db.rooms[code].rounds[n].funded :: HasRow(db, code, n)
  }

  lemma {:induction false} ReconcileKeepsRows(db: Db, tx: Tx)
    requires DbOk(db) && tx.TxReconcile?
    ensures db.deadlines.Keys <= Next(db, tx).deadlines.Keys
  {
    hide DbOk, Reconcile, Eligible, Next;
    TransitionCommits(db, tx);
    var r := Reconcile(db, tx.code, tx.round, tx.now);
    if r.Some? && r.value.Done? {
      ReconciledWasEligible(db, tx.code, tx.round, tx.now);
      if Eligible(db, tx.code, tx.round).value.Resolving? {
        ResolvingCancels(db, tx.code, tx.round, tx.now);
      } else {
        AdvanceSchedules(db, tx.code, tx.round, tx.now);
      }
    }
  }

  lemma {:induction false} CommandKeepsRows(db: Db, tx: Tx)
    requires DbOk(db) && tx.TxCommand?
    ensures db.deadlines.Keys <= Next(db, tx).deadlines.Keys
  {
    hide DbOk, Effect, JoinRoom, Refusal;
    if Effect(db, tx.account, tx.command.key, tx.call, tx.now).Done? {
      if tx.call.CallJoin? {
        JoinIsEffect(db, tx);
        JoinSchedules(db, tx.call.code, tx.call.playerId, tx.account, tx.now);
      } else {
        CallKeepsDeadlines(db, tx.account, tx.command.key, tx.call, tx.now);
      }
    }
  }

  lemma {:induction false} DeadlineKeepsRows(db: Db, now: int)
    requires DbOk(db)
    ensures Next(db, TxDeadline(now)).deadlines.Keys == db.deadlines.Keys
  {
    hide DbOk, ProcessDeadline, DueIds, Blocked;
    DeadlineKeepsOk(db, now);
    if DueIds(db, now) == {} { IdleKeeps(db, now); } else { ProcessingAdvances(db, now); }
  }

  lemma {:induction false} PresenceKeepsRows(db: Db, tx: Tx)
    requires tx.TxOpen? || tx.TxClose?
    ensures db.deadlines.Keys <= Next(db, tx).deadlines.Keys
  {
    hide RoleOf, LiveRole;
  }

  // Only the cleanup removes deadlines.
  lemma {:induction false} RowsStay(db: Db, tx: Tx)
    requires DbOk(db) && !tx.TxCleanupDeadlines?
    ensures db.deadlines.Keys <= Next(db, tx).deadlines.Keys
  {
    hide DbOk, Next;
    match tx {
      case TxCommand(_, _, _, _) => CommandKeepsRows(db, tx);
      case TxReconcile(_, _, _) => ReconcileKeepsRows(db, tx);
      case TxDeadline(now) => DeadlineKeepsRows(db, now);
      case TxOpen(_, _, _, _, _, _) => PresenceKeepsRows(db, tx);
      case TxClose(_, _, _) => PresenceKeepsRows(db, tx);
      case _ => SameDeadlines(db, tx);
    }
  }

  lemma {:induction false} RowStays(db: Db, tx: Tx, code: string, round: nat)
    requires DbOk(db) && !tx.TxCleanupDeadlines? && HasRow(db, code, round)
    ensures HasRow(Next(db, tx), code, round)
  {
    hide DbOk, Next, PresenceRuns.PresenceSteps;
    RowsStay(db, tx);
    NextEvolves(db, tx);
    IdsBelowNext(db);
    var i :| i in db.deadlines && db.deadlines[i].code == code && db.deadlines[i].round == round && db.deadlines[i].kind.Inactivity? && db.deadlines[i].generation == round;
    assert i in Next(db, tx).deadlines && SameDeadline(db.deadlines[i], Next(db, tx).deadlines[i]);
  }

  lemma {:induction false} GuardIsRow(db: Db, code: string, round: nat)
    requires HasGuard(db, code, round)
    ensures HasRow(db, code, round)
  {
    var i :| Guards(db, i, code, round);
    assert i in db.deadlines;
  }

  lemma {:induction false} FundedRounds(code: string, rows: RoomRows)
    requires RowsOk(rows) && rows.currentRound in rows.rounds
    ensures forall n: nat :: n in rows.rounds && rows.rounds[n].funded <==> 1 <= n <= Persisted(code, rows).round && |Persisted(code, rows).players| == 2
    ensures |Persisted(code, rows).players| != 2 ==> |Persisted(code, rows).players| == 1 && rows.currentRound == 1
    ensures Persisted(code, rows).round == rows.currentRound
  {}

  lemma {:induction false} RoundsGrow(s: RoomState, t: RoomState, tx: Tx, step: RoomStep)
    requires WellFormed(s) && Follows(s, t, step) && Allowed(tx, step)
    ensures t == s || (step.Applied? && step.op.OpJoin? && |s.players| == 1 && t.round == s.round)
            || (step.Applied? && step.op.OpAdvance? && t.round == s.round + 1 && s.resolved && |t.players| == |s.players|)
            || (t.round == s.round && |t.players| == |s.players|)
  {}

  lemma {:induction false} NextKeepsScheduled(db: Db, tx: Tx, code: string)
    requires DbOk(db) && !tx.TxCleanupDeadlines? && Scheduled(db, code)
    ensures Scheduled(Next(db, tx), code)
  {
    hide DbOk, RowsOk, Next, Persisted, HasRow, HasGuard, Follows, WellFormed, Eligible, SeatsHold;
    var after := Next(db, tx);
    StoredIsWellFormed(db, code);
    EveryTransactionFollowsTheAggregate(db, tx, code);
    NextKeepsOk(db, tx);
    StoredIsWellFormed(after, code);
    FundedRounds(code, db.rooms[code]);
    FundedRounds(code, after.rooms[code]);
    LoneRound(db, code);
    var s, t := Stored(db, code), Stored(after, code);
    var step :| Allowed(tx, step) && Follows(s, t, step);
    RoundsGrow(s, t, tx, step);
    forall n | n in after.rooms[code].rounds && after.rooms[code].rounds[n].funded ensures HasRow(after, code, n) {
      if n in db.rooms[code].rounds && db.rooms[code].rounds[n].funded {
        RowStays(db, tx, code, n);
      } else if step.op.OpJoin? {
        JoinStakes(db, tx, code);
        GuardIsRow(after, code, 1);
      } else {
        AdvanceStakes(db, tx, code);
        GuardIsRow(after, code, n);
      }
    }
  }

  // Until deadlines are cleaned up, every round that was ever funded has its
  // one deadline for running out of time, whatever became of it.
  lemma {:induction false} EveryFundedRoundWasScheduled(db: Db, txs: seq<Tx>, code: string, round: nat)
    requires Reachable(db, txs) && (forall i | 0 <= i < |txs| :: !txs[i].TxCleanupDeadlines?)
    requires code in db.rooms && round in db.rooms[code].rounds && db.rooms[code].rounds[round].funded
    ensures exists i | i in db.deadlines ::
              db.deadlines[i].code == code && db.deadlines[i].round == round && db.deadlines[i].kind.Inactivity? && db.deadlines[i].generation == round
  {
    RunSchedules(db, txs, code);
    assert HasRow(db, code, round);
  }

  lemma {:induction false} RunSchedules(db: Db, txs: seq<Tx>, code: string)
    requires Reachable(db, txs) && (forall i | 0 <= i < |txs| :: !txs[i].TxCleanupDeadlines?) && code in db.rooms
    ensures Scheduled(db, code)
    decreases |txs|
  {
    hide DbOk, Next, HasRow;
    ReachableIsOk(db, txs);
    if txs != [] {
      var shorter, last := txs[..|txs| - 1], txs[|txs| - 1];
      var before := Store.Run(EmptyDb(), shorter);
      ReachableIsOk(before, shorter);
      if code in before.rooms {
        RunSchedules(before, shorter, code);
        NextKeepsScheduled(before, last, code);
      } else {
        NewRoomWaits(before, last, code);
        StoredIsWellFormed(db, code);
        FundedRounds(code, db.rooms[code]);
      }
    }
  }
}
