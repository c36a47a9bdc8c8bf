// What happens to a recorded pair of actions when its reconciliation is late.
// Whatever else runs in between, the moves decide as they would have at once
// unless the deadline worker overrules them first, and the requests advance the
// room unless a player quits first.
module DelayedReconciliation {
  import opened Prelude
  import opened Game
  import opened GameRuns
  import opened Ledger
  import opened Money
  import opened Tables
  import opened RowInvariant
  import opened Store
  import opened Invariant
  import opened Preservation
  import opened Simulation
  import opened Reconciliation
  import opened DeadlineRuns
  import opened Safety

  import Keys

  // ---- Moves ----

  // The moves of both players are stored, and the round is open.
  predicate BothMovesIn(s: RoomState) {
    && !s.resolved && !s.closed && |s.players| == 2 && s.players[0].id in s.moves && s.players[1].id in s.moves
  }

  lemma {:induction false} MovesWait(db: Db, code: string)
    requires DbOk(db) && code in db.rooms
    ensures db.rooms[code].currentRound in db.rooms[code].rounds
    ensures Eligible(db, code, db.rooms[code].currentRound) == Some(Resolving) <==> BothMovesIn(Stored(db, code))
  {
    hide ConnectionsOk, PresentOk, DeadlinesOk, Linked, FundsOk, Announced;
    PersistedIsWellFormed(code, db.rooms[code]);
    assert RowsOk(db.rooms[code]) && RoundOk(db.rooms[code].rounds[db.rooms[code].currentRound]);
  }

  // Nothing can be recorded or applied on top of both moves but their resolution.
  lemma {:induction false} OnlyResolutionFollows(s: RoomState, t: RoomState, step: RoomStep)
    requires WellFormed(s) && BothMovesIn(s) && Follows(s, t, step)
    requires step.Applied? ==> step.op.OpJoin? || step.op.OpLeave?
    ensures t == s
  {}

  // The round was settled by these moves, and no forfeit.
  ghost predicate DecidedByMoves(db: Db, key: RoundKey, s: RoomState)
    requires BothMovesIn(s)
  {
    key in db.funds.history && db.funds.history[key].result == MovesOutcome(s) && !db.funds.history[key].forfeited
  }

  ghost predicate StillStored(db: Db, code: string, s: RoomState) {
    code in db.rooms && db.rooms[code].currentRound in db.rooms[code].rounds && Stored(db, code) == s
  }

  // The next due deadline leads to a disconnect deadline of this room whose
  // player is still away, and that decides otherwise than the two moves: the
  // other player is there, so it is a forfeit, or the moves differ and it is a draw.
  ghost predicate Overrules(db: Db, tx: Tx, code: string) {
    && tx.TxDeadline? && DueIds(db, tx.now) != {}
    && var first := First(db, DueIds(db, tx.now));
       && db.deadlines[first].code == code && DeadlineClaims(db, first) && ApplicableOfRoom(db, code, tx.now) != {}
       && var d := db.deadlines[First(db, ApplicableOfRoom(db, code, tx.now))];
          && d.kind.Disconnect? && !LiveRole(db, code, d.kind.role, tx.now)
          && (LiveRole(db, code, Other(d.kind.role), tx.now) || MovesDiffer(db.rooms[code]))
  }

  predicate MovesDiffer(rows: RoomRows) {
    var host, guest := RoundRole(rows.currentRound, Host), RoundRole(rows.currentRound, Guest);
    host in rows.moves && guest in rows.moves && rows.moves[host] != rows.moves[guest]
  }

  lemma {:induction false} StoredMovesDiffer(db: Db, code: string)
    requires DbOk(db) && code in db.rooms && db.rooms[code].currentRound in db.rooms[code].rounds && BothMovesIn(Stored(db, code))
    ensures var s := Stored(db, code);
            && (MovesDiffer(db.rooms[code]) <==> s.moves[s.players[0].id] != s.moves[s.players[1].id])
            && (MovesDiffer(db.rooms[code]) <==> MovesOutcome(s) != Draw)
  {
    hide DbOk, RowsOk, SeatsHold;
    StoredIsWellFormed(db, code);
  }

  // On two moves a deadline out of time errs, a player who is back makes it
  // idle, and what it decides otherwise agrees with the moves exactly when
  // nobody is there and the moves are equal.
  lemma {:induction false} VerdictOnBothMoves(db: Db, i: nat, s: RoomState, now: int)
    requires i in db.deadlines && WellFormed(s) && BothMovesIn(s)
    ensures var d, v := db.deadlines[i], Verdict(db, i, s, now);
            && (v.Some? && v.value.Ok? <==> d.kind.Disconnect? && !LiveRole(db, d.code, d.kind.role, now))
            && (v.Some? && v.value.Ok? ==>
                  (v.value.value.result == MovesOutcome(s) && v.value.value.forfeited == ""
                   <==> !LiveRole(db, d.code, Other(d.kind.role), now) && MovesOutcome(s) == Draw))
  {
    hide LiveRole;
  }

  // While its moves wait, no history row stands for the round.
  lemma {:induction false} NotYetRecorded(db: Db, code: string, s: RoomState)
    requires DbOk(db) && StillStored(db, code, s) && BothMovesIn(s)
    ensures RoundKey(code, s.round) !in db.funds.history
  {
    hide RowsOk, ConnectionsOk, PresentOk, DeadlinesOk, FundsOk, Announced, RowMatches, SeatsHold, WellFormed;
    StoredIsWellFormed(db, code);
    UnresolvedIsActive(code, db.rooms[code]);
    assert !ResolvedRound(db.rooms, RoundKey(code, s.round));
  }

  lemma {:induction false} UnresolvedIsActive(code: string, rows: RoomRows)
    requires RowsOk(rows) && rows.currentRound in rows.rounds && !Persisted(code, rows).resolved
    ensures Persisted(code, rows).round == rows.currentRound && rows.rounds[rows.currentRound].status.Active?
  {
    assert RoundOk(rows.rounds[rows.currentRound]);
  }

  lemma {:induction false} OverrulesOnBothMoves(db: Db, now: int, code: string, s: RoomState)
    requires DbOk(db) && StillStored(db, code, s) && BothMovesIn(s) && WellFormed(s) && DueIds(db, now) != {}
    requires var first := First(db, DueIds(db, now));
             db.deadlines[first].code == code && DeadlineClaims(db, first) && ApplicableOfRoom(db, code, now) != {}
    ensures var v := Verdict(db, First(db, ApplicableOfRoom(db, code, now)), s, now);
            && (Overrules(db, TxDeadline(now), code) ==> v.Some? && v.value.Ok?)
            && (v.Some? && v.value.Ok? ==>
                  (v.value.value.result == MovesOutcome(s) && v.value.value.forfeited == "" <==> !Overrules(db, TxDeadline(now), code)))
  {
    hide DbOk, Persisted, WellFormed, MovesOutcome, Verdict, DeadlineClaims, MovesDiffer, LiveRole, BothMovesIn, ApplicableOfRoom, DueIds;
    FirstApplies(db, code, now);
    VerdictOnBothMoves(db, First(db, ApplicableOfRoom(db, code, now)), s, now);
    StoredMovesDiffer(db, code);
  }

  // The history row of a settled round tells the verdict.
  lemma {:induction false} SettledRowTellsVerdict(db: Db, now: int)
    requires DbOk(db) && DueIds(db, now) != {} && ProcessDeadline(db, now).Done? && ProcessDeadline(db, now).answer.Settled?
    ensures var r, code := ProcessDeadline(db, now), db.deadlines[First(db, DueIds(db, now))].code;
            && code in db.rooms
            && var key := RoundKey(code, db.rooms[code].currentRound);
               && key in r.db.funds.history
               && r.db.funds.history[key].result == r.answer.after.result && r.db.funds.history[key].forfeited == (r.answer.after.forfeited != "")
  {
    hide DbOk, ProcessDeadline, Settle, Persisted, OpenRound, DueIds;
    SettledAddsHistory(db, now);
  }

  // A deadline leaves the waiting moves alone, agrees with them, or overrules them.
  lemma {:induction false} DeadlineOnBothMoves(db: Db, now: int, code: string, s: RoomState)
    requires DbOk(db) && StillStored(db, code, s) && BothMovesIn(s)
    ensures var after, key := Next(db, TxDeadline(now)), RoundKey(code, s.round);
            if Overrules(db, TxDeadline(now), code) then key in after.funds.history && !DecidedByMoves(after, key, s)
            else StillStored(after, code, s) || DecidedByMoves(after, key, s)
  {
    hide DbOk, ProcessDeadline, Persisted, WellFormed, MovesOutcome, Verdict, DeadlineClaims, LiveRole, BothMovesIn, DueIds, ApplicableOfRoom, MovesDiffer;
    DeadlineKeepsOk(db, now);
    StoredIsWellFormed(db, code);
    StoredRound(db, code);
    if DueIds(db, now) == {} {
      IdleKeeps(db, now);
    } else {
      SettlesExactly(db, now);
      var first := First(db, DueIds(db, now));
      if db.deadlines[first].code == code && DeadlineClaims(db, first) && ApplicableOfRoom(db, code, now) != {} {
        OverrulesOnBothMoves(db, now, code, s);
      }
      if ProcessDeadline(db, now).answer.Settled? { SettledRowTellsVerdict(db, now); } else { UnsettledKeepsRooms(db, now); }
    }
  }

  lemma {:induction false} StoredRound(db: Db, code: string)
    requires code in db.rooms && db.rooms[code].currentRound in db.rooms[code].rounds
    ensures Stored(db, code).round == db.rooms[code].currentRound && Stored(db, code).closed == db.rooms[code].closed
  {}

  lemma {:induction false} MovesKeptOrDecided(db: Db, tx: Tx, code: string, s: RoomState)
    requires DbOk(db) && StillStored(db, code, s) && BothMovesIn(s)
    ensures var after, key := Next(db, tx), RoundKey(code, s.round);
            if Overrules(db, tx, code) then key in after.funds.history && !DecidedByMoves(after, key, s)
            else StillStored(after, code, s) || DecidedByMoves(after, key, s)
  {
    hide DbOk, Next, Follows, Persisted, WellFormed, DueIds, DeadlineClaims, LiveRole;
    MovesWait(db, code);
    StoredIsWellFormed(db, code);
    if tx.TxDeadline? {
      DeadlineOnBothMoves(db, tx.now, code, s);
    } else if tx.TxReconcile? {
      ReconciledElsewhereOrHere(db, tx.code, tx.round, tx.now, code, s);
    } else {
      EveryTransactionFollowsTheAggregate(db, tx, code);
      var step :| Allowed(tx, step) && Follows(Stored(db, code), Stored(Next(db, tx), code), step);
      OnlyResolutionFollows(s, Stored(Next(db, tx), code), step);
    }
  }

  lemma {:induction false} ReconciledElsewhereOrHere(db: Db, c: string, round: nat, now: int, code: string, s: RoomState)
    requires DbOk(db) && StillStored(db, code, s) && BothMovesIn(s)
    ensures var after := Next(db, TxReconcile(c, round, now));
            StillStored(after, code, s) || DecidedByMoves(after, RoundKey(code, s.round), s)
  {
    hide DbOk, Reconcile, Persisted, WellFormed, MovesOutcome, Eligible;
    MovesWait(db, code);
    var r := Reconcile(db, c, round, now);
    if r.Some? && r.value.Done? {
      ReconcileSteps(db, TxReconcile(c, round, now), c, round, now);
      if c == code { ResolvedHere(db, code, round, now); }
    }
  }

  lemma {:induction false} ReconciledIsCurrent(db: Db, code: string, round: nat, now: int)
    requires Reconcile(db, code, round, now).Some?
    ensures code in db.rooms && round == db.rooms[code].currentRound
  {
    hide Load, Resolve, Advance, Keys.HintFits;
  }

  lemma {:induction false} ReconciledByResolving(db: Db, code: string, round: nat, now: int)
    requires Eligible(db, code, round) == Some(Resolving) && Load(db, code).Ok?
    requires Reconcile(db, code, round, now).Some? && Reconcile(db, code, round, now).value.Done?
    ensures code in db.rooms && WellFormed(Load(db, code).value)
    ensures Resolve(db, code, Load(db, code).value, now) == Ok(Reconcile(db, code, round, now).value.db)
  {
    hide Eligible, Load, Resolve, Advance, WellFormed, Keys.HintFits;
    EligibleRoom(db, code, round);
    LoadIsPersisted(db, code);
  }

  lemma {:induction false} ResolvedHere(db: Db, code: string, round: nat, now: int)
    requires DbOk(db) && code in db.rooms && Eligible(db, code, db.rooms[code].currentRound) == Some(Resolving)
    requires Reconcile(db, code, round, now).Some? && Reconcile(db, code, round, now).value.Done?
    ensures db.rooms[code].currentRound in db.rooms[code].rounds && BothMovesIn(Stored(db, code))
    ensures var s := Stored(db, code); DecidedByMoves(Reconcile(db, code, round, now).value.db, RoundKey(code, s.round), s)
  {
    hide DbOk, Reconcile, Persisted, WellFormed, MovesOutcome, Resolve, Load, DecidedRows, Settle, Eligible, BothMovesIn;
    MovesWait(db, code);
    StoredRound(db, code);
    ReconciledIsCurrent(db, code, round, now);
    ResolveKeepsOk(db, code, round, now);
    ReconciledByResolving(db, code, round, now);
  }

  // The transaction at `k` overruled the moves of `s` while they waited.
  ghost predicate OverruledAt(db: Db, txs: seq<Tx>, code: string, s: RoomState, k: nat)
    requires k < |txs|
  {
    StillStored(Store.Run(db, txs[..k]), code, s) && Overrules(Store.Run(db, txs[..k]), txs[k], code)
  }

  ghost predicate Overruled(db: Db, txs: seq<Tx>, code: string, s: RoomState) {
    exists k: nat | k < |txs| :: OverruledAt(db, txs, code, s, k)
  }

  lemma {:induction false} OverruledLast(db: Db, txs: seq<Tx>, code: string, s: RoomState)
    requires txs != []
    ensures var shorter := txs[..|txs| - 1];
            Overruled(db, txs, code, s) <==> Overruled(db, shorter, code, s) || OverruledAt(db, txs, code, s, |txs| - 1)
  {
    hide Store.Run, StillStored, Overrules;
    var shorter := txs[..|txs| - 1];
    forall k: nat | k < |shorter| ensures OverruledAt(db, shorter, code, s, k) <==> OverruledAt(db, txs, code, s, k) {
      assert shorter[..k] == txs[..k];
    }
  }

  // However late a round with both moves is reconciled, and whatever else runs
  // before: it waits unchanged until its history row is there, and that row is
  // what the moves decide if and only if no deadline overruled them while they waited.
  lemma {:induction false} LateMovesDecideAlike(db: Db, txs: seq<Tx>, code: string)
    requires DbOk(db) && code in db.rooms && Eligible(db, code, db.rooms[code].currentRound) == Some(Resolving)
    ensures db.rooms[code].currentRound in db.rooms[code].rounds && BothMovesIn(Stored(db, code))
    ensures var s, after := Stored(db, code), Store.Run(db, txs);
            var key := RoundKey(code, s.round);
            && (StillStored(after, code, s) <==> key !in after.funds.history)
            && (key in after.funds.history ==> (DecidedByMoves(after, key, s) <==> !Overruled(db, txs, code, s)))
            && (Overruled(db, txs, code, s) ==> key in after.funds.history)
  {
    hide DbOk, Next, Eligible, Persisted, DecidedByMoves, StillStored, Overrules, Overruled, BothMovesIn;
    MovesWait(db, code);
    var s, key := Stored(db, code), RoundKey(code, Stored(db, code).round);
    if txs == [] {
      NothingRan(db, code);
      NotYetRecorded(db, code, s);
      assert !Overruled(db, txs, code, s) by { NothingOverruled(db, code, s); }
    } else {
      var shorter, last := txs[..|txs| - 1], txs[|txs| - 1];
      var before := Store.Run(db, shorter);
      LateMovesDecideAlike(db, shorter, code);
      RunKeepsOk(db, txs);
      RunKeepsOk(db, shorter);
      OverruledLast(db, txs, code, s);
      if StillStored(before, code, s) {
        NotYetRecorded(before, code, s);
        MovesKeptOrDecided(before, last, code, s);
        DecidedIsRecorded(Next(before, last), key, s);
      } else {
        RecordStays(before, last, key, s);
      }
      if StillStored(Next(before, last), code, s) { NotYetRecorded(Next(before, last), code, s); }
    }
  }

  lemma {:induction false} NothingOverruled(db: Db, code: string, s: RoomState)
    ensures !Overruled(db, [], code, s)
  {
    hide OverruledAt;
  }

  lemma {:induction false} DecidedIsRecorded(db: Db, key: RoundKey, s: RoomState)
    requires BothMovesIn(s)
    ensures DecidedByMoves(db, key, s) ==> key in db.funds.history
  {}

  lemma {:induction false} ContradictsBothMoves(db: Db, i: nat, s: RoomState, now: int)
    requires i in db.deadlines && WellFormed(s) && BothMovesIn(s)
    ensures var d := db.deadlines[i];
            Contradicts(db, i, s, now) <==> d.kind.Disconnect? && (LiveRole(db, d.code, Other(d.kind.role), now) || s.moves[s.players[0].id] != s.moves[s.players[1].id])
  {
    hide LiveRole;
    MoveCount(s);
  }

  // Overruling is settling the room by a deadline whose verdict contradicts the
  // recorded moves. The room can then no longer be loaded.
  lemma {:induction false} OverrulesIffContradicts(db: Db, now: int, code: string, s: RoomState)
    requires DbOk(db) && StillStored(db, code, s) && BothMovesIn(s)
    ensures ProcessDeadline(db, now).Done?
    ensures var a := ProcessDeadline(db, now).answer;
            Overrules(db, TxDeadline(now), code) <==>
              && a.Settled? && a.deadline in db.deadlines && db.deadlines[a.deadline].code == code
              && WellFormed(a.before) && Contradicts(db, a.deadline, a.before, now)
    ensures Overrules(db, TxDeadline(now), code) ==> !Loads(Next(db, TxDeadline(now)), code)
  {
    hide DbOk, ProcessDeadline, Persisted, WellFormed, MovesOutcome, Verdict, DeadlineClaims, LiveRole, BothMovesIn, DueIds, ApplicableOfRoom;
    hide MovesDiffer, Contradicts, Loads;
    DeadlineKeepsOk(db, now);
    StoredIsWellFormed(db, code);
    if DueIds(db, now) == {} {
      IdleKeeps(db, now);
    } else {
      SettlesExactly(db, now);
      var first := First(db, DueIds(db, now));
      var c := db.deadlines[first].code;
      if ApplicableOfRoom(db, c, now) != {} { FirstApplies(db, c, now); }
      if c == code && DeadlineClaims(db, first) && ApplicableOfRoom(db, code, now) != {} {
        var chosen := First(db, ApplicableOfRoom(db, code, now));
        OverrulesOnBothMoves(db, now, code, s);
        VerdictOnBothMoves(db, chosen, s, now);
        StoredMovesDiffer(db, code);
        ContradictsBothMoves(db, chosen, s, now);
      }
      if ProcessDeadline(db, now).answer.Settled? { DeadlineSpoilsExactly(db, now); }
    }
  }

  lemma {:induction false} NothingRan(db: Db, code: string)
    requires code in db.rooms && db.rooms[code].currentRound in db.rooms[code].rounds
    ensures StillStored(Store.Run(db, []), code, Stored(db, code))
  {}

  lemma {:induction false} RecordStays(db: Db, tx: Tx, key: RoundKey, s: RoomState)
    requires BothMovesIn(s) && key in db.funds.history
    ensures key in Next(db, tx).funds.history && (DecidedByMoves(Next(db, tx), key, s) <==> DecidedByMoves(db, key, s))
  {
    hide Next, MovesOutcome;
    NextExtends(db, tx);
  }

  // ---- Requests ----

  // The requests of both players are stored for the resolved round.
  predicate BothRequestsIn(s: RoomState) {
    s.resolved && !s.closed && |s.players| == 2 && s.players[0].id in s.requests && s.players[1].id in s.requests
  }

  lemma {:induction false} RoundNeverFalls(s: RoomState, t: RoomState, step: RoomStep)
    requires WellFormed(s) && Follows(s, t, step)
    ensures t.round >= s.round
  {
    if step.Applied? { WinsStep(s, step.op); }
  }

  predicate Leaves(tx: Tx, code: string) {
    tx.TxCommand? && tx.call.CallLeave? && tx.call.code == code
  }

  // A leave that takes effect while both requests wait: a new command of one of
  // the two players, in a room that can be loaded.
  ghost predicate Quits(db: Db, tx: Tx, code: string) {
    && Leaves(tx, code) && tx.account != "" && tx.command.key !in db.receipts
    && code in db.rooms && RoleOf(db.rooms[code], tx.account).Some? && Load(db, code).Ok?
  }

  // A reconciliation that takes effect while both requests wait: its claim is
  // the current round, the room can be loaded, the hint of the next round fits
  // and both players can pay the stake.
  ghost predicate Advances(db: Db, tx: Tx, code: string) {
    && tx.TxReconcile? && tx.code == code && code in db.rooms && tx.round == db.rooms[code].currentRound
    && Load(db, code).Ok? && Keys.HintFits(code, tx.round + 1)
    && var seats := db.rooms[code].seats;
       Host in seats && Guest in seats && CanStake(db.funds.book, seats[Host].account, seats[Guest].account)
  }

  // Every other leave leaves all rooms as they were.
  lemma {:induction false} FutileLeave(db: Db, tx: Tx, code: string)
    requires Leaves(tx, code) && !Quits(db, tx, code)
    ensures Next(db, tx).rooms == db.rooms
  {
    hide Load, RoleOf, ViewOf, SaveAndBump;
  }

  lemma {:induction false} RequestsWait(db: Db, code: string, s: RoomState)
    requires DbOk(db) && StillStored(db, code, s) && BothRequestsIn(s)
    ensures Eligible(db, code, db.rooms[code].currentRound) == Some(Advancing)
  {
    hide ConnectionsOk, PresentOk, DeadlinesOk, Linked, FundsOk, Announced;
    PersistedIsWellFormed(code, db.rooms[code]);
    assert RowsOk(db.rooms[code]) && RoundOk(db.rooms[code].rounds[db.rooms[code].currentRound]);
  }

  lemma {:induction false} QuittingCloses(db: Db, tx: Tx, code: string, s: RoomState)
    requires DbOk(db) && StillStored(db, code, s) && BothRequestsIn(s) && Quits(db, tx, code)
    ensures StillStored(Next(db, tx), code, s.(closed := true))
  {
    hide DbOk, Next, Load, RoleOf, LeaveRoom, Follows, WellFormed, Persisted, BothRequestsIn, Eligible;
    RequestsWait(db, code, s);
    LeavesBefore(db, code, tx.account, tx.now);
    LeaveCommits(db, tx, code);
    StoredIsWellFormed(db, code);
    EveryTransactionFollowsTheAggregate(db, tx, code);
    StoredRound(db, code);
    StoredRound(Next(db, tx), code);
    var step :| Allowed(tx, step) && Follows(Stored(db, code), Stored(Next(db, tx), code), step);
    OnlyClosingFollows(s, Stored(Next(db, tx), code), step);
  }

  lemma {:induction false} LeaveCommits(db: Db, tx: Tx, code: string)
    requires Leaves(tx, code) && tx.account != "" && tx.command.key !in db.receipts && LeaveRoom(db, code, tx.account, tx.now).Done?
    ensures Next(db, tx).rooms == LeaveRoom(db, code, tx.account, tx.now).db.rooms
  {
    hide LeaveRoom;
  }

  lemma {:induction false} OnlyClosingFollows(s: RoomState, t: RoomState, step: RoomStep)
    requires WellFormed(s) && Follows(s, t, step) && (step.Applied? ==> step.op.OpLeave?) && !step.Moved? && !step.Asked?
    ensures t == s || t == s.(closed := true)
  {}

  // A closed room stays as it is.
  lemma {:induction false} NothingFollowsClosed(s: RoomState, t: RoomState, step: RoomStep)
    requires WellFormed(s) && s.closed && Follows(s, t, step)
    ensures t == s
  {}

  lemma {:induction false} ClosedStays(db: Db, tx: Tx, code: string, s: RoomState)
    requires DbOk(db) && StillStored(db, code, s) && s.closed
    ensures StillStored(Next(db, tx), code, s)
  {
    hide DbOk, Next, Follows, WellFormed, Persisted;
    StoredIsWellFormed(db, code);
    EveryTransactionFollowsTheAggregate(db, tx, code);
    var step :| Allowed(tx, step) && Follows(Stored(db, code), Stored(Next(db, tx), code), step);
    NothingFollowsClosed(s, Stored(Next(db, tx), code), step);
  }

  lemma {:induction false} OnlyAdvancing(s: RoomState, t: RoomState, tx: Tx, step: RoomStep)
    requires WellFormed(s) && BothRequestsIn(s) && Follows(s, t, step) && Allowed(tx, step) && (step.Applied? ==> !step.op.OpLeave?)
    ensures t == s || (tx.TxReconcile? && t.round > s.round)
  {}

  ghost predicate Past(db: Db, code: string, round: nat) {
    code in db.rooms && db.rooms[code].currentRound > round
  }

  // While both requests wait, quitting closes the room, advancing leaves the
  // round, and nothing else changes anything.
  lemma {:induction false} RequestsKeptOrPast(db: Db, tx: Tx, code: string, s: RoomState)
    requires DbOk(db) && StillStored(db, code, s) && BothRequestsIn(s)
    ensures if Quits(db, tx, code) then StillStored(Next(db, tx), code, s.(closed := true))
            else if Advances(db, tx, code) then Past(Next(db, tx), code, s.round)
            else StillStored(Next(db, tx), code, s)
  {
    hide DbOk, Next, Follows, WellFormed, Apply, Persisted, Quits, Advances, BothRequestsIn, Allowed;
    StoredIsWellFormed(db, code);
    if Quits(db, tx, code) {
      QuittingCloses(db, tx, code, s);
    } else if Leaves(tx, code) {
      FutileLeave(db, tx, code);
      LeavesDoNotAdvance(db, tx, code);
    } else if tx.TxReconcile? {
      ReconciledRequests(db, tx, code, s);
    } else {
      OthersDoNotAdvance(db, tx, code, s);
    }
  }

  lemma {:induction false} LeavesDoNotAdvance(db: Db, tx: Tx, code: string)
    ensures Leaves(tx, code) ==> !Advances(db, tx, code)
  {}

  lemma {:induction false} LeaveElsewhere(db: Db, tx: Tx, code: string)
    requires DbOk(db) && code in db.rooms && tx.TxCommand? && tx.call.CallLeave? && tx.call.code != code
    ensures code in Next(db, tx).rooms && Next(db, tx).rooms[code] == db.rooms[code]
  {
    hide DbOk, Effect;
    if Effect(db, tx.account, tx.command.key, tx.call, tx.now).Done? { OtherRooms(db, tx.account, tx.command.key, tx.call, tx.now, code); }
  }

  lemma {:induction false} OthersDoNotAdvance(db: Db, tx: Tx, code: string, s: RoomState)
    requires DbOk(db) && StillStored(db, code, s) && BothRequestsIn(s) && !Leaves(tx, code) && !tx.TxReconcile?
    ensures !Advances(db, tx, code) && StillStored(Next(db, tx), code, s)
  {
    hide DbOk, Next, Follows, WellFormed, Persisted, BothRequestsIn, Load, CanStake;
    StoredIsWellFormed(db, code);
    if tx.TxCommand? && tx.call.CallLeave? {
      LeaveElsewhere(db, tx, code);
    } else {
      EveryTransactionFollowsTheAggregate(db, tx, code);
      var step :| Allowed(tx, step) && Follows(Stored(db, code), Stored(Next(db, tx), code), step);
      OnlyAdvancing(s, Stored(Next(db, tx), code), tx, step);
    }
  }

  lemma {:induction false} ReconciledRequests(db: Db, tx: Tx, code: string, s: RoomState)
    requires DbOk(db) && StillStored(db, code, s) && BothRequestsIn(s) && tx.TxReconcile?
    ensures if Advances(db, tx, code) then Past(Next(db, tx), code, s.round) else StillStored(Next(db, tx), code, s)
  {
    hide DbOk, Reconcile, WellFormed, Persisted, BothRequestsIn, Load, CanStake, Eligible, Keys.HintFits, AdvancedRows;
    RequestsWait(db, code, s);
    StoredRound(db, code);
    var r := Reconcile(db, tx.code, tx.round, tx.now);
    if tx.code == code && tx.round == s.round {
      ReconcileKeepsOk(db, code, tx.round, tx.now);
      if r.value.Done? {
        TransitionRows(db, code, tx.round, tx.now);
        AdvancedRoundNumber(db.rooms[code], r.value.db.rooms[code]);
      }
    } else if r.Some? && r.value.Done? {
      ReconciledIsCurrent(db, tx.code, tx.round, tx.now);
      ReconcileSteps(db, tx, tx.code, tx.round, tx.now);
    }
  }

  // The transaction at `k` closed, or advanced, the room while both requests waited.
  ghost predicate QuitAt(db: Db, txs: seq<Tx>, code: string, s: RoomState, k: nat)
    requires k < |txs|
  {
    StillStored(Store.Run(db, txs[..k]), code, s) && Quits(Store.Run(db, txs[..k]), txs[k], code)
  }

  ghost predicate AdvancedAt(db: Db, txs: seq<Tx>, code: string, s: RoomState, k: nat)
    requires k < |txs|
  {
    StillStored(Store.Run(db, txs[..k]), code, s) && Advances(Store.Run(db, txs[..k]), txs[k], code)
  }

  ghost predicate Quit(db: Db, txs: seq<Tx>, code: string, s: RoomState) {
    exists k: nat | k < |txs| :: QuitAt(db, txs, code, s, k)
  }

  ghost predicate Advanced(db: Db, txs: seq<Tx>, code: string, s: RoomState) {
    exists k: nat | k < |txs| :: AdvancedAt(db, txs, code, s, k)
  }

  lemma {:induction false} NobodyQuit(db: Db, code: string, s: RoomState)
    ensures !Quit(db, [], code, s) && !Advanced(db, [], code, s)
  {
    hide QuitAt, AdvancedAt;
  }

  lemma {:induction false} QuitLast(db: Db, txs: seq<Tx>, code: string, s: RoomState)
    requires txs != []
    ensures var shorter := txs[..|txs| - 1];
            && (Quit(db, txs, code, s) <==> Quit(db, shorter, code, s) || QuitAt(db, txs, code, s, |txs| - 1))
            && (Advanced(db, txs, code, s) <==> Advanced(db, shorter, code, s) || AdvancedAt(db, txs, code, s, |txs| - 1))
  {
    hide Store.Run, StillStored, Quits, Advances;
    var shorter := txs[..|txs| - 1];
    forall k: nat | k < |shorter|
      ensures QuitAt(db, shorter, code, s, k) <==> QuitAt(db, txs, code, s, k)
      ensures AdvancedAt(db, shorter, code, s, k) <==> AdvancedAt(db, txs, code, s, k)
    {
      assert shorter[..k] == txs[..k];
    }
  }

  // However late a round with both requests is reconciled, and whatever else
  // runs before, deadlines included: it waits unchanged until one of the
  // players quits, which closes the room in that round for ever, or a
  // reconciliation takes it to a later round, whichever comes first.
  lemma {:induction false} LateRequestsWait(db: Db, txs: seq<Tx>, code: string)
    requires DbOk(db) && code in db.rooms && db.rooms[code].currentRound in db.rooms[code].rounds && BothRequestsIn(Stored(db, code))
    ensures var s, after := Stored(db, code), Store.Run(db, txs);
            && (StillStored(after, code, s.(closed := true)) <==> Quit(db, txs, code, s))
            && (Past(after, code, s.round) <==> Advanced(db, txs, code, s))
            && (StillStored(after, code, s) <==> !Quit(db, txs, code, s) && !Advanced(db, txs, code, s))
  {
    hide DbOk, Next, Persisted, BothRequestsIn, StillStored, Quits, Advances, Quit, Advanced, Past;
    var s := Stored(db, code);
    if txs == [] {
      NothingRan(db, code);
      NobodyQuit(db, code, s);
    } else {
      var shorter, last := txs[..|txs| - 1], txs[|txs| - 1];
      var before := Store.Run(db, shorter);
      LateRequestsWait(db, shorter, code);
      RunKeepsOk(db, shorter);
      QuitLast(db, txs, code, s);
      OnlyOneHolds(before, code, s);
      if StillStored(before, code, s) {
        RequestsKeptOrPast(before, last, code, s);
        QuittersDoNotAdvance(before, last, code);
      } else if Quit(db, shorter, code, s) {
        ClosedStays(before, last, code, s.(closed := true));
      } else {
        PastStays(before, last, code, s.round);
      }
    }
    OnlyOneHolds(Store.Run(db, txs), code, s);
  }

  lemma {:induction false} QuittersDoNotAdvance(db: Db, tx: Tx, code: string)
    ensures !(Quits(db, tx, code) && Advances(db, tx, code))
  {}

  lemma {:induction false} PastStays(db: Db, tx: Tx, code: string, round: nat)
    requires DbOk(db) && Past(db, code, round)
    ensures Past(Next(db, tx), code, round)
  {
    hide DbOk, Next, Follows, WellFormed;
    StoredIsWellFormed(db, code);
    EveryTransactionFollowsTheAggregate(db, tx, code);
    var step :| Allowed(tx, step) && Follows(Stored(db, code), Stored(Next(db, tx), code), step);
    RoundNeverFalls(Stored(db, code), Stored(Next(db, tx), code), step);
  }

  lemma {:induction false} OnlyOneHolds(db: Db, code: string, s: RoomState)
    requires BothRequestsIn(s)
    ensures !(StillStored(db, code, s) && StillStored(db, code, s.(closed := true)))
    ensures StillStored(db, code, s) || StillStored(db, code, s.(closed := true)) ==> !Past(db, code, s.round)
  {}

  // A round with both requests can still be left, and then never advances;
  // had it been reconciled before, leaving would have been refused.
  lemma {:induction false} LeavingBeatsTheAdvance(db: Db, code: string, account: string, now: int)
    requires DbOk(db) && code in db.rooms && RoleOf(db.rooms[code], account).Some?
    requires var n := db.rooms[code].currentRound;
             Eligible(db, code, n) == Some(Advancing) && Reconcile(db, code, n, now).Some? && Reconcile(db, code, n, now).value.Done?
    ensures var left := LeaveRoom(db, code, account, now);
            left.Done? && code in left.db.rooms && left.db.rooms[code].closed && forall n, later: int :: Reconcile(left.db, code, n, later).None?
    ensures var advanced := Reconcile(db, code, db.rooms[code].currentRound, now).value.db;
            LeaveRoom(advanced, code, account, now) == Failed(GameUnfinished)
  {
    hide DbOk, Reconcile, LeaveRoom, Eligible, Persisted;
    var n := db.rooms[code].currentRound;
    AdvancedRoom(db, code, now);
    LeavesBefore(db, code, account, now);
    forall n, later: int ensures Reconcile(LeaveRoom(db, code, account, now).db, code, n, later).None? {
      ClosedWaitsForNothing(LeaveRoom(db, code, account, now).db, code, n, later);
    }
    RefusesToLeave(Reconcile(db, code, n, now).value.db, code, account, now);
  }

  lemma {:induction false} ClosedWaitsForNothing(db: Db, code: string, n: nat, now: int)
    requires code in db.rooms && db.rooms[code].closed
    ensures Reconcile(db, code, n, now).None?
  {
    hide Load;
  }

  lemma {:induction false} LeavesBefore(db: Db, code: string, account: string, now: int)
    requires DbOk(db) && code in db.rooms && RoleOf(db.rooms[code], account).Some?
    requires var n := db.rooms[code].currentRound; Eligible(db, code, n) == Some(Advancing) && Load(db, code).Ok?
    ensures var left := LeaveRoom(db, code, account, now); left.Done? && code in left.db.rooms && left.db.rooms[code].closed
  {
    hide DbOk, Saved, Restorable, ViewOf, RoleOf, Bump, Load, Eligible, RowsOk, WellFormed, SeatsHold, CanStake;
    RoomsOfDb(db);
    AdvanceableRequests(db, code, db.rooms[code].currentRound);
    SeatOfRole(db.rooms[code], account);
    StoredIsWellFormed(db, code);
    LoadIsPersisted(db, code);
    SeatIsPlayer(code, db.rooms[code], RoleOf(db.rooms[code], account).value);
    var s := Load(db, code).value;
    var after := Saved(db.rooms[code], s.(closed := true), s.round, db.rooms[code].revision + 1);
    ClosedRows(db.rooms[code], s, s.round, db.rooms[code].revision + 1);
    BumpsNext(db, code, after, now);
  }

  lemma {:induction false} ClosedRows(rows: RoomRows, s: RoomState, previousRound: nat, revision: nat)
    ensures var after := Saved(rows, s.(closed := true), previousRound, revision); after.closed && after.revision == revision
  {}

  lemma {:induction false} BumpsNext(db: Db, code: string, rows: RoomRows, now: int)
    requires DbOk(db) && code in db.rooms && rows.revision == db.rooms[code].revision + 1
    ensures Bump(WithRoom(db, code, rows), code, rows.revision, now).Ok?
  {
    hide RowsOk, ConnectionsOk, PresentOk, DeadlinesOk, Linked, FundsOk, Announced;
    RoomBump(db, code, rows, now);
  }

  lemma {:induction false} SeatIsPlayer(code: string, rows: RoomRows, role: Role)
    requires rows.currentRound in rows.rounds && role in rows.seats && Full(rows)
    ensures HasPlayer(Persisted(code, rows), rows.seats[role].playerId) && |Persisted(code, rows).players| == 2
  {
    assert role == Host || role == Guest;
  }

  lemma {:induction false} AdvancedRoom(db: Db, code: string, now: int)
    requires DbOk(db) && code in db.rooms && Eligible(db, code, db.rooms[code].currentRound) == Some(Advancing)
    requires var r := Reconcile(db, code, db.rooms[code].currentRound, now); r.Some? && r.value.Done?
    ensures Load(db, code).Ok?
    ensures var after := Reconcile(db, code, db.rooms[code].currentRound, now).value.db;
            && DbOk(after) && code in after.rooms && after.rooms[code].seats == db.rooms[code].seats && !after.rooms[code].closed && Full(after.rooms[code])
            && after.rooms[code].currentRound in after.rooms[code].rounds
            && after.rooms[code].rounds[after.rooms[code].currentRound] == FreshRound.(funded := true)
  {
    hide DbOk, Persisted, Load, Keys.HintFits, CanStake, Eligible, Reconcile, WellFormed, NextRound, AdvanceCommittedNextRound;
    var n := db.rooms[code].currentRound;
    RoomsOfDb(db);
    ReconcileKeepsOk(db, code, n, now);
    AdvanceableRequests(db, code, n);
    TransitionRows(db, code, n, now);
  }

  lemma {:induction false} RefusesToLeave(db: Db, code: string, account: string, now: int)
    requires DbOk(db) && code in db.rooms && RoleOf(db.rooms[code], account).Some? && !db.rooms[code].closed && Full(db.rooms[code])
    requires db.rooms[code].currentRound in db.rooms[code].rounds
    requires db.rooms[code].rounds[db.rooms[code].currentRound] == FreshRound.(funded := true)
    ensures LeaveRoom(db, code, account, now) == Failed(GameUnfinished)
  {
    hide DbOk, RoleOf, ViewOf, SaveAndBump;
    StoredIsWellFormed(db, code);
    SeatOfRole(db.rooms[code], account);
    SeatIsPlayer(code, db.rooms[code], RoleOf(db.rooms[code], account).value);
    UnresolvedIsRestorable(Stored(db, code));
  }
}
