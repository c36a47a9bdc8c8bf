// The deadline worker: which deadline settles a round and how, and when a
// drain of all due deadlines ends.
module DeadlineRuns {
  import opened Prelude
  import opened Game
  import opened Money
  import opened Tables
  import opened RowInvariant
  import opened Outbox
  import opened Store
  import opened Invariant
  import opened Preservation
  import opened Simulation
  import opened PresenceRuns

  // ---- Draining ----

  // A due deadline on the active current round of an open room that is not
  // funded: it cannot be claimed, and it is not cancelled either.
  ghost predicate Blocked(db: Db, i: nat, now: int) {
    i in db.deadlines && Due(db, i, now) && RoundStillOpen(db, i) && !DeadlineClaims(db, i)
  }

  // The database after `n` deadlines were processed.
  ghost function Drained(db: Db, now: int, n: nat): Db {
    if n == 0 then db else Committed(Drained(db, now, n - 1), ProcessDeadline(Drained(db, now, n - 1), now))
  }

  // Processing concludes deadlines and settles rounds; it makes nothing due
  // and blocks nothing new.
  ghost predicate Progresses(db: Db, after: Db, now: int) {
    && after.deadlines.Keys == db.deadlines.Keys
    && DueIds(after, now) <= DueIds(db, now)
    && (forall i | i in db.deadlines :: SameDeadline(db.deadlines[i], after.deadlines[i]))
    && (forall i | i in db.deadlines && RoundStillOpen(after, i) :: RoundStillOpen(db, i) && (DeadlineClaims(after, i) <==> DeadlineClaims(db, i)))
  }

  lemma {:induction false} CancelProgresses(db: Db, ids: set<nat>, now: int)
    ensures Progresses(db, Cancel(db, ids, now), now)
    ensures DueIds(Cancel(db, ids, now), now) == DueIds(db, now) - ids
    ensures forall i | i in db.deadlines && i !in ids :: Cancel(db, ids, now).deadlines[i] == db.deadlines[i]
  {}

  // Settling concludes every pending deadline of the round.
  lemma {:induction false} ConcludedDeadlines(db: Db, code: string, round: nat, i: nat, now: int)
    ensures var c := Concluded(db.deadlines, code, round, i, now);
            && c.Keys == db.deadlines.Keys
            && forall j | j in db.deadlines ::
                 && SameDeadline(db.deadlines[j], c[j])
                 && (db.deadlines[j].code == code && db.deadlines[j].round == round ==> !c[j].status.Pending?)
                 && (db.deadlines[j].code != code || db.deadlines[j].round != round ==> c[j] == db.deadlines[j])
  {}

  lemma {:induction false} SettleProgresses(db: Db, after: Db, code: string, round: nat, deadlines: map<nat, Deadline>, now: int)
    requires code in db.rooms && code in after.rooms && after.rooms == db.rooms[code := after.rooms[code]]
    requires round == db.rooms[code].currentRound && round in after.rooms[code].rounds && !after.rooms[code].rounds[round].status.Active?
    requires after.rooms[code].currentRound == round
    requires after.deadlines == deadlines && deadlines.Keys == db.deadlines.Keys
    requires forall j | j in db.deadlines ::
               && SameDeadline(db.deadlines[j], deadlines[j])
               && (db.deadlines[j].code == code && db.deadlines[j].round == round ==> !deadlines[j].status.Pending?)
               && (db.deadlines[j].code != code || db.deadlines[j].round != round ==> deadlines[j] == db.deadlines[j])
    ensures Progresses(db, after, now)
    ensures forall j | j in DueIds(db, now) && db.deadlines[j].code == code && db.deadlines[j].round == round :: j !in DueIds(after, now)
    ensures forall j | j in db.deadlines && (db.deadlines[j].code != code || db.deadlines[j].round != round) ::
              after.deadlines[j] == db.deadlines[j] && (db.deadlines[j].code != code ==> (RoundStillOpen(after, j) <==> RoundStillOpen(db, j)))
  {}

  lemma {:induction false} ProgressComposes(db: Db, mid: Db, after: Db, now: int)
    requires Progresses(db, mid, now) && Progresses(mid, after, now)
    ensures Progresses(db, after, now)
  {
    hide RoundStillOpen, DeadlineClaims, Due;
  }

  // The outcome of one pass of the worker over the first due deadline.
  ghost predicate Advances(db: Db, after: Db, now: int, candidate: nat) {
    && Progresses(db, after, now)
    && (Blocked(db, candidate, now) ==> after == db)
    && (!Blocked(db, candidate, now) ==> candidate !in DueIds(after, now))
    && (forall i | Blocked(db, i, now) :: Blocked(after, i, now))
  }

  lemma {:induction false} CandidateIsFirst(db: Db, now: int)
    requires DueIds(db, now) != {}
    ensures First(db, DueIds(db, now)) in DueIds(db, now)
  {}

  lemma {:induction false} SettleAdvances(db: Db, code: string, candidate: nat, chosen: nat, skipped: set<nat>, s: RoomState, t: RoomState, now: int)
    requires DbOk(db) && code in db.rooms && candidate in db.deadlines && db.deadlines[candidate].code == code && DeadlineClaims(db, candidate)
    requires Due(db, candidate, now)
    requires s == Persisted(code, db.rooms[code]) && |s.players| == 2
    requires skipped <= DueOfRoom(db, code, now) && t == Decide(s, t.result, t.forfeited)
    requires var pruned := Cancel(db, skipped, now);
             SaveAndSettle(pruned, code, t, Concluded(pruned.deadlines, code, s.round, chosen, now), now).Ok?
    ensures var pruned := Cancel(db, skipped, now);
            Advances(db, SaveAndSettle(pruned, code, t, Concluded(pruned.deadlines, code, s.round, chosen, now), now).value, now, candidate)
  {
    hide DbOk, Saved, Persisted, SaveAndSettle, Concluded, Cancel, Progresses;
    var pruned := Cancel(db, skipped, now);
    CancelFrame(db, skipped, now);
    CancelProgresses(db, skipped, now);
    var deadlines := Concluded(pruned.deadlines, code, s.round, chosen, now);
    SettledRows(pruned, code, t, deadlines, now);
    var after := SaveAndSettle(pruned, code, t, deadlines, now).value;
    ConcludedDeadlines(pruned, code, s.round, chosen, now);
    SettledDeadlines(pruned, code, t, deadlines, now);
    SavedDecidedRound(pruned.rooms[code], s, t, pruned.rooms[code].revision + 1);
    PersistedRound(code, db.rooms[code]);
    SettleProgresses(pruned, after, code, s.round, deadlines, now);
    ProgressComposes(db, pruned, after, now);
    SettleKeepsBlocked(db, pruned, after, code, skipped, s.round, candidate, now);
  }

  lemma {:induction false} PersistedRound(code: string, rows: RoomRows)
    requires rows.currentRound in rows.rounds
    ensures Persisted(code, rows).round == rows.currentRound
  {}

  lemma {:induction false} SettledDeadlines(db: Db, code: string, t: RoomState, deadlines: map<nat, Deadline>, now: int)
    requires code in db.rooms && SaveAndSettle(db, code, t, deadlines, now).Ok?
    ensures SaveAndSettle(db, code, t, deadlines, now).value.deadlines == deadlines
  {}

  lemma {:induction false} SavedDecidedRound(rows: RoomRows, s: RoomState, t: RoomState, revision: nat)
    requires |s.players| == 2 && t == Decide(s, t.result, t.forfeited)
    ensures var saved := Saved(rows, t, t.round, revision);
            && t.round == s.round && saved.currentRound == s.round
            && s.round in saved.rounds && !saved.rounds[s.round].status.Active?
  {}

  // A room with a blocked deadline has nothing to settle.
  lemma {:induction false} SettleKeepsBlocked(db: Db, pruned: Db, after: Db, code: string, skipped: set<nat>, round: nat, candidate: nat, now: int)
    requires candidate in db.deadlines && db.deadlines[candidate].code == code && DeadlineClaims(db, candidate) && code in db.rooms
    requires db.rooms[code].currentRound == round && Due(db, candidate, now)
    requires pruned == db.(deadlines := pruned.deadlines) && pruned.deadlines.Keys == db.deadlines.Keys
    requires forall i | i in db.deadlines && i !in skipped :: pruned.deadlines[i] == db.deadlines[i]
    requires forall i | i in db.deadlines :: SameDeadline(db.deadlines[i], pruned.deadlines[i])
    requires skipped <= DueOfRoom(db, code, now)
    requires code in after.rooms && after.rooms == db.rooms[code := after.rooms[code]] && after.deadlines.Keys == db.deadlines.Keys
    requires forall j | j in pruned.deadlines && (pruned.deadlines[j].code != code || pruned.deadlines[j].round != round) ::
               after.deadlines[j] == pruned.deadlines[j]
    requires forall j | j in DueIds(pruned, now) && pruned.deadlines[j].code == code && pruned.deadlines[j].round == round :: j !in DueIds(after, now)
    requires DueIds(pruned, now) == DueIds(db, now) - skipped
    requires DueIds(after, now) <= DueIds(pruned, now)
    ensures !Blocked(db, candidate, now) && candidate !in DueIds(after, now)
    ensures forall i | Blocked(db, i, now) :: Blocked(after, i, now)
  {
    forall i | Blocked(db, i, now) ensures Blocked(after, i, now) {
      assert db.deadlines[i].code != code;
      assert i !in skipped;
    }
  }

  // Processing the first due deadline takes it off the due list, unless it is
  // blocked: then the database stays exactly as it is.
  lemma {:induction false} ProcessingAdvances(db: Db, now: int)
    requires DbOk(db) && DueIds(db, now) != {}
    ensures var r := ProcessDeadline(db, now);
            r.Done? && !r.answer.Idle? && Advances(db, r.db, now, First(db, DueIds(db, now)))
  {
    hide DbOk, Saved, Persisted, SaveAndSettle, Concluded, Cancel, Progresses, Load, Verdict, Before, Applicable, Decide, WellFormed;
    DeadlineKeepsOk(db, now);
    CandidateIsFirst(db, now);
    var candidate := First(db, DueIds(db, now));
    var code := db.deadlines[candidate].code;
    if !DeadlineClaims(db, candidate) {
      CancelFrame(db, {candidate}, now);
      CancelProgresses(db, {candidate}, now);
      CancelProgresses(db, {}, now);
      CancelNothing(db, now);
    } else {
      RoomsOfDb(db);
      ClaimedRoundIsOpen(db, candidate);
      var s := Persisted(code, db.rooms[code]);
      var due, applicable := DueOfRoom(db, code, now), ApplicableOfRoom(db, code, now);
      if applicable == {} {
        CancelAdvances(db, code, due, {}, candidate, now);
      } else {
        var chosen := First(db, applicable);
        assert IsFirst(db, applicable, chosen);
        var skipped := Skipped(db, code, chosen, now);
        var v := Verdict(db, chosen, s, now);
        if v.Some? && v.value.Ok? {
          VerdictDecides(db, chosen, s, now);
          SettleAdvances(db, code, candidate, chosen, skipped, s, v.value.value, now);
        } else {
          CandidateGoesFirst(db, code, candidate, chosen, now);
          CancelAdvances(db, code, skipped, {chosen}, candidate, now);
        }
      }
    }
  }

  lemma {:induction false} CancelNothing(db: Db, now: int)
    ensures Cancel(db, {}, now) == db
  {}

  // The candidate is the chosen deadline or comes before it.
  lemma {:induction false} CandidateGoesFirst(db: Db, code: string, candidate: nat, chosen: nat, now: int)
    requires IsFirst(db, DueIds(db, now), candidate) && db.deadlines[candidate].code == code && chosen in DueOfRoom(db, code, now)
    ensures candidate == chosen || candidate in Skipped(db, code, chosen, now)
  {}

  // Cancelling due deadlines of the claimed room, the candidate among them.
  lemma {:induction false} CancelAdvances(db: Db, code: string, ids: set<nat>, more: set<nat>, candidate: nat, now: int)
    requires candidate in DueIds(db, now) && db.deadlines[candidate].code == code && DeadlineClaims(db, candidate)
    requires ids <= DueOfRoom(db, code, now) && more <= DueOfRoom(db, code, now) && (candidate in ids || candidate in more)
    ensures Advances(db, Cancel(Cancel(db, ids, now), more, now), now, candidate)
    ensures more == {} ==> Cancel(Cancel(db, ids, now), more, now) == Cancel(db, ids, now)
  {
    var mid := Cancel(db, ids, now);
    var after := Cancel(mid, more, now);
    CancelProgresses(db, ids, now);
    CancelProgresses(mid, more, now);
    ProgressComposes(db, mid, after, now);
    if more == {} { CancelNothing(mid, now); }
    forall i | Blocked(db, i, now) ensures Blocked(after, i, now) {
      assert db.deadlines[i].code != code;
      assert i !in ids && i !in more;
    }
  }

  ghost predicate NothingBlocked(db: Db, now: int) {
    forall i :: !Blocked(db, i, now)
  }

  lemma {:induction false} BlockedBefore(db: Db, after: Db, now: int, i: nat)
    requires Progresses(db, after, now) && Blocked(after, i, now)
    ensures Blocked(db, i, now)
  {
    hide RoundStillOpen, DeadlineClaims;
    assert i in DueIds(after, now);
  }

  lemma {:induction false} AdvancingShrinks(db: Db, after: Db, now: int, candidate: nat)
    requires Advances(db, after, now, candidate) && NothingBlocked(db, now) && candidate in DueIds(db, now)
    ensures NothingBlocked(after, now) && DueIds(after, now) < DueIds(db, now)
  {
    hide Blocked, Due;
    forall i | Blocked(after, i, now) ensures Blocked(db, i, now) { BlockedBefore(db, after, now, i); }
  }

  lemma {:induction false} StepShrinks(db: Db, now: int)
    requires DbOk(db) && NothingBlocked(db, now) && DueIds(db, now) != {}
    ensures ProcessDeadline(db, now).Done? && !ProcessDeadline(db, now).answer.Idle?
    ensures var after := ProcessDeadline(db, now).db;
            && DbOk(after) && NothingBlocked(after, now) && DueIds(after, now) < DueIds(db, now)
  {
    hide *;
    ProcessingAdvances(db, now);
    DeadlineKeepsOk(db, now);
    CandidateIsFirst(db, now);
    AdvancingShrinks(db, ProcessDeadline(db, now).db, now, First(db, DueIds(db, now)));
  }

  lemma {:induction false} DrainedIsOk(db: Db, now: int, n: nat)
    requires DbOk(db)
    ensures DbOk(Drained(db, now, n))
  {
    hide DbOk, ProcessDeadline;
    if n > 0 {
      DrainedIsOk(db, now, n - 1);
      DeadlineKeepsOk(Drained(db, now, n - 1), now);
    }
  }

  lemma {:induction false} DrainShrinks(db: Db, now: int, n: nat)
    requires DbOk(db) && NothingBlocked(db, now)
    ensures var after := Drained(db, now, n);
            && NothingBlocked(after, now) && DueIds(after, now) <= DueIds(db, now)
            && (DueIds(after, now) == {} || |DueIds(after, now)| + n <= |DueIds(db, now)|)
  {
    hide DbOk, ProcessDeadline, NothingBlocked, Due;
    if n > 0 {
      var before := Drained(db, now, n - 1);
      DrainShrinks(db, now, n - 1);
      DrainedIsOk(db, now, n - 1);
      if DueIds(before, now) != {} {
        StepShrinks(before, now);
        SubsetIsSmaller(DueIds(ProcessDeadline(before, now).db, now), DueIds(before, now));
      } else {
        IdleKeeps(before, now);
      }
    }
  }

  lemma {:induction false} IdleKeeps(db: Db, now: int)
    requires DueIds(db, now) == {}
    ensures ProcessDeadline(db, now) == Done(db, Idle)
  {}

  lemma {:induction false} SubsetIsSmaller(a: set<nat>, b: set<nat>)
    requires a < b
    ensures |a| < |b|
  {
    var x :| x in b && x !in a;
    assert a <= b - {x};
    SubsetCount(a, b - {x});
  }

  lemma {:induction false} SubsetCount(a: set<nat>, b: set<nat>)
    requires a <= b
    ensures |a| <= |b|
    decreases a
  {
    if a != {} {
      var x :| x in a;
      SubsetCount(a - {x}, b - {x});
    }
  }

  lemma {:induction false} BlockedStays(db: Db, now: int, i: nat, n: nat)
    requires DbOk(db) && Blocked(db, i, now)
    ensures Blocked(Drained(db, now, n), i, now)
  {
    hide DbOk, ProcessDeadline, Blocked;
    if n > 0 {
      BlockedStays(db, now, i, n - 1);
      DrainedIsOk(db, now, n - 1);
      BlockedIsDue(Drained(db, now, n - 1), now, i);
      ProcessingAdvances(Drained(db, now, n - 1), now);
    }
  }

  lemma {:induction false} BlockedIsDue(db: Db, now: int, i: nat)
    requires Blocked(db, i, now)
    ensures i in DueIds(db, now)
  {}

  // Undisturbed, the worker's loop reaches an empty due list if and only if no
  // due deadline is blocked, and then it needs at most one pass per due deadline.
  lemma {:induction false} DrainEndsIffNothingBlocked(db: Db, now: int)
    requires DbOk(db)
    ensures (exists n: nat :: DueIds(Drained(db, now, n), now) == {}) <==> NothingBlocked(db, now)
    ensures NothingBlocked(db, now) ==> DueIds(Drained(db, now, |DueIds(db, now)|), now) == {}
  {
    hide DbOk, Due, Blocked;
    if NothingBlocked(db, now) {
      DrainShrinks(db, now, |DueIds(db, now)|);
    } else {
      var i :| Blocked(db, i, now);
      forall n: nat ensures DueIds(Drained(db, now, n), now) != {} {
        BlockedStays(db, now, i, n);
        BlockedIsDue(Drained(db, now, n), now, i);
      }
    }
  }

  // In a reachable database only the first round of a room that still waits
  // for its guest can block the worker.
  lemma {:induction false} BlockedRoomWaits(db: Db, i: nat, now: int)
    requires DbOk(db) && Blocked(db, i, now)
    ensures var d := db.deadlines[i];
            d.code in db.rooms && !Full(db.rooms[d.code]) && d.round == 1 && d.kind == Disconnect(Host)
  {
    hide RowsOk, ConnectionsOk, PresentOk, Linked, FundsOk, BoxOk, Announced;
    var d := db.deadlines[i];
    assert DeadlineOk(db.rooms, d);
    UnfundedRoom(db.rooms[d.code]);
  }

  lemma {:induction false} UnfundedRoom(rows: RoomRows)
    requires RowsOk(rows) && rows.currentRound in rows.rounds && !rows.rounds[rows.currentRound].funded
    ensures !Full(rows) && rows.currentRound == 1 && rows.presence.Keys <= {Host}
  {
    forall role | role in rows.presence ensures role == Host {
      assert role == Host || role == Guest;
    }
  }

  // Closing the last connection of a present host that is open and live, in an
  // open room without a guest, keeps the worker's loop from ever ending once the
  // grace period is over.
  lemma {:induction false} HostGoneBlocksTheWorker(db: Db, id: string, at: int, expiredBy: Option<int>, now: int)
    requires DbOk(db) && id in db.connections && ClosesNow(db.connections[id], at, expiredBy)
    requires var code := db.connections[id].code;
             && code in db.rooms && !db.rooms[code].closed && !Full(db.rooms[code])
             && Host in db.rooms[code].presence && db.rooms[code].presence[Host].present
             && !OtherLive(db, id, at)
    requires now >= at + DisconnectGrace
    ensures var r := CloseConnection(db, id, at, expiredBy);
            r.Done? && DbOk(r.db) && forall n: nat :: DueIds(Drained(r.db, now, n), now) != {}
  {
    hide DbOk, CloseConnection, Due, Blocked, NothingBlocked, WithDeadline, Full, ClosesNow, OtherLive;
    CloseKeepsOk(db, id, at, expiredBy);
    RoleOfWaitingRoom(db, id);
    LastConnectionCloses(db, id, at, expiredBy);
    ClosedAway(db, id, at, expiredBy);
    var after := CloseConnection(db, id, at, expiredBy).db;
    var c := db.connections[id];
    NewDeadline(db, c.code, Host, at + DisconnectGrace);
    WaitingRoom(db, c.code);
    BlockedNow(after, db.nextDeadline, now);
    DrainEndsIffNothingBlocked(after, now);
  }

  // The connection is open, and the close applies to it.
  ghost predicate ClosesNow(c: Connection, at: int, expiredBy: Option<int>) {
    c.closedAt.None? && at >= c.connectedAt && (expiredBy.Some? ==> c.leaseExpiresAt <= expiredBy.value)
  }

  // Another connection of the same seat is open, with a lease that outlasts `at`.
  ghost predicate OtherLive(db: Db, id: string, at: int)
    requires id in db.connections
  {
    exists k | k in db.connections && k != id ::
      db.connections[k].code == db.connections[id].code && db.connections[k].role == db.connections[id].role
      && db.connections[k].closedAt.None? && db.connections[k].leaseExpiresAt > at
  }

  lemma {:induction false} LastConnectionCloses(db: Db, id: string, at: int, expiredBy: Option<int>)
    requires DbOk(db) && id in db.connections && ClosesNow(db.connections[id], at, expiredBy) && !OtherLive(db, id, at)
    requires var c := db.connections[id];
             c.code in db.rooms && c.role in db.rooms[c.code].presence && db.rooms[c.code].presence[c.role].present
    ensures CloseConnection(db, id, at, expiredBy).Done? && CloseConnection(db, id, at, expiredBy).db.rooms != db.rooms
  {
    hide RowsOk, ConnectionsOk, PresentOk, DeadlinesOk, Linked, FundsOk, BoxOk, Announced, WithDeadline;
    CloseKeepsOk(db, id, at, expiredBy);
    PresenceHasSeat(db, db.connections[id].code, db.connections[id].role);
    var c := db.connections[id];
    var closed := db.(connections := db.connections[id := c.(closedAt := Some(at))]);
    assert !LiveRole(closed, c.code, c.role, at);
    var after := CloseConnection(db, id, at, expiredBy);
    if after.Done? { assert after.db.rooms[c.code].presence[c.role] != db.rooms[c.code].presence[c.role]; }
  }

  lemma {:induction false} PresenceHasSeat(db: Db, code: string, role: Role)
    requires DbOk(db) && code in db.rooms && role in db.rooms[code].presence
    ensures role in db.rooms[code].seats
  {
    hide RoundsOk, ActionsOk, WinsOk, ConnectionsOk, PresentOk, DeadlinesOk, Linked, FundsOk, BoxOk, Announced;
    assert RowsOk(db.rooms[code]);
  }

  // Only the host's connections can belong to a room without a guest.
  lemma {:induction false} RoleOfWaitingRoom(db: Db, id: string)
    requires DbOk(db) && id in db.connections
    ensures var c := db.connections[id]; c.code in db.rooms && c.role in db.rooms[c.code].presence && (!Full(db.rooms[c.code]) ==> c.role == Host)
  {
    var c := db.connections[id];
    assert ConnectionOk(db.rooms, c) && RowsOk(db.rooms[c.code]);
    assert c.role == Host || c.role == Guest;
  }

  // What closing the last live connection of a present role commits.
  lemma {:induction false} ClosedAway(db: Db, id: string, at: int, expiredBy: Option<int>)
    requires id in db.connections && CloseConnection(db, id, at, expiredBy).Done?
    requires var c := db.connections[id];
             && c.code in db.rooms && c.role in db.rooms[c.code].presence && db.rooms[c.code].presence[c.role].present
             && CloseConnection(db, id, at, expiredBy).db.rooms != db.rooms
    ensures var c, after := db.connections[id], CloseConnection(db, id, at, expiredBy).db;
            var rows := db.rooms[c.code];
            var generation := rows.presence[c.role].generation + 1;
            && after.rooms == db.rooms[c.code := PresenceChanged(rows, c.role, Presence(generation, false))]
            && after.deadlines == WithDeadline(db, c.code, rows.currentRound, Disconnect(c.role), generation, at + DisconnectGrace).deadlines
  {
    hide LiveRole, WithDeadline;
    var c := db.connections[id];
    var rows := db.rooms[c.code];
    var generation := rows.presence[c.role].generation + 1;
    WithDeadlineFrame(db, WithRoom(db.(connections := db.connections[id := c.(closedAt := Some(at))]), c.code,
                                   PresenceChanged(rows, c.role, Presence(generation, false))),
                      c.code, rows.currentRound, Disconnect(c.role), generation, at + DisconnectGrace);
  }

  lemma {:induction false} BlockedNow(db: Db, i: nat, now: int)
    requires i in db.deadlines && db.deadlines[i].status.Pending? && db.deadlines[i].dueAt <= now
    requires var d := db.deadlines[i];
             && d.code in db.rooms && !db.rooms[d.code].closed && db.rooms[d.code].currentRound == d.round
             && d.round in db.rooms[d.code].rounds
             && db.rooms[d.code].rounds[d.round].status.Active? && !db.rooms[d.code].rounds[d.round].funded
    ensures Blocked(db, i, now) && !NothingBlocked(db, now)
  {
    assert Blocked(db, i, now);
  }

  lemma {:induction false} NewDeadline(db: Db, code: string, role: Role, dueAt: int)
    requires DbOk(db) && code in db.rooms && role in db.rooms[code].presence
    ensures var rows := db.rooms[code];
            var generation := rows.presence[role].generation + 1;
            WithDeadline(db, code, rows.currentRound, Disconnect(role), generation, dueAt).deadlines
            == db.deadlines[db.nextDeadline := Deadline(code, rows.currentRound, Disconnect(role), generation, dueAt, Pending, None)]
  {
    hide RowsOk, ConnectionsOk, PresentOk, Linked, FundsOk, BoxOk, Announced;
    NewGeneration(db, code, role);
  }

  lemma {:induction false} WaitingRoom(db: Db, code: string)
    requires DbOk(db) && code in db.rooms && !Full(db.rooms[code])
    ensures var rows := db.rooms[code];
            rows.currentRound in rows.rounds && rows.rounds[rows.currentRound].status.Active? && !rows.rounds[rows.currentRound].funded
  {
    assert RowsOk(db.rooms[code]);
  }

  // ---- Which deadline decides, and how ----

  lemma {:induction false} SettledByTheFirst(db: Db, now: int)
    requires ProcessDeadline(db, now).Done? && ProcessDeadline(db, now).answer.Settled?
    ensures var a := ProcessDeadline(db, now).answer;
            && a.deadline in db.deadlines
            && var code := db.deadlines[a.deadline].code;
               && IsFirst(db, ApplicableOfRoom(db, code, now), a.deadline)
               && code in db.rooms && Load(db, code) == Ok(a.before) && a.before.round == db.rooms[code].currentRound
               && ProcessDeadline(db, now).db.deadlines
                  == Concluded(Cancel(db, Skipped(db, code, a.deadline, now), now).deadlines,
                               code, a.before.round, a.deadline, now)
  {
    hide Load, Restorable, Concluded, Verdict, Before, Due, Applicable, Saved, SettleRound, Cancel;
    var candidate := First(db, DueIds(db, now));
    var code := db.deadlines[candidate].code;
    var applicable := ApplicableOfRoom(db, code, now);
    var chosen := First(db, applicable);
    assert IsFirst(db, applicable, chosen) && chosen in DueOfRoom(db, code, now);
    LoadIsPersisted(db, code);
    var pruned := Cancel(db, Skipped(db, code, chosen, now), now);
    CancelFrame(db, Skipped(db, code, chosen, now), now);
    SettledDeadlines(pruned, code, Verdict(db, chosen, Load(db, code).value, now).value.value,
                     Concluded(pruned.deadlines, code, Load(db, code).value.round, chosen, now), now);
  }

  // When a claimed deadline's room has an applicable deadline that reaches a
  // verdict, and only then, a round is settled: that of the room, by the first
  // such deadline, as its verdict says.
  lemma {:induction false} SettlesExactly(db: Db, now: int)
    requires DbOk(db) && DueIds(db, now) != {}
    ensures var r, first := ProcessDeadline(db, now), First(db, DueIds(db, now));
            var code := db.deadlines[first].code;
            && r.Done?
            && (r.answer.Settled? ==> DeadlineClaims(db, first) && ApplicableOfRoom(db, code, now) != {})
            && (DeadlineClaims(db, first) && ApplicableOfRoom(db, code, now) != {} ==>
                  var chosen := First(db, ApplicableOfRoom(db, code, now));
                  && code in db.rooms && db.rooms[code].currentRound in db.rooms[code].rounds && WellFormed(Stored(db, code))
                  && var v := Verdict(db, chosen, Stored(db, code), now);
                     && (r.answer.Settled? <==> v.Some? && v.value.Ok?)
                     && (r.answer.Settled? ==>
                           && r.answer == Settled(chosen, Stored(db, code), v.value.value)
                           && code in r.db.rooms && r.db.rooms == db.rooms[code := r.db.rooms[code]]))
  {
    hide RowsOk, ConnectionsOk, PresentOk, DeadlinesOk, Linked, FundsOk, BoxOk, Announced;
    hide Load, WellFormed, Persisted, DecidedRows, Concluded, DeadlineClaims, Verdict, SaveAndSettle, Due, Before, Applicable, Decide, RowOf, Settle;
    hide RoundStillOpen, WithCancelled;
    DeadlineKeepsOk(db, now);
    var candidate := First(db, DueIds(db, now));
    var code := db.deadlines[candidate].code;
    if DeadlineClaims(db, candidate) {
      ClaimedRoundIsOpen(db, candidate);
      OpenRoundIsUnresolved(code, db.rooms[code]);
      var s := Persisted(code, db.rooms[code]);
      var applicable := ApplicableOfRoom(db, code, now);
      if applicable != {} {
        SettledByDeadline(db, code, First(db, applicable), Skipped(db, code, First(db, applicable), now), s, now);
      }
    }
  }

  // The deadline that settles a round is the least applicable one. Those
  // before it are cancelled, and none of the settled round stays pending. If
  // it is itself of an earlier round, it is not concluded: it stays pending.
  lemma {:induction false} LeastApplicableDeadlineSettles(db: Db, now: int, j: nat)
    requires ProcessDeadline(db, now).Done? && ProcessDeadline(db, now).answer.Settled? && j in db.deadlines
    ensures var i, after := ProcessDeadline(db, now).answer.deadline, ProcessDeadline(db, now).db;
            && i in db.deadlines && Due(db, i, now) && Applicable(db, i)
            && j in after.deadlines
            && var d, e, code := db.deadlines[j], after.deadlines[j], db.deadlines[i].code;
               && (d.code == code && Due(db, j, now) && Applicable(db, j) && j != i ==> Before(db, i, j))
               && (d.code == code && Due(db, j, now) && Before(db, j, i) ==> !Applicable(db, j) && e == d.(status := Cancelled, completedAt := Some(now)))
               && (d.code == code && code in db.rooms && d.round == db.rooms[code].currentRound && d.status.Pending? ==>
                     e == d.(status := if j == i then Completed else Cancelled, completedAt := Some(now)))
               && (d.code != code || !d.status.Pending? ==> e == d)
    ensures var i, after := ProcessDeadline(db, now).answer.deadline, ProcessDeadline(db, now).db;
            && i in db.deadlines && i in after.deadlines
            && var code := db.deadlines[i].code;
               && code in db.rooms
               && if db.deadlines[i].round == db.rooms[code].currentRound then after.deadlines[i].status.Completed? else after.deadlines[i] == db.deadlines[i]
  {
    hide Applicable, ProcessDeadline, Load;
    SettledByTheFirst(db, now);
    SettledIsApplicable(db, now);
  }

  // In plain fields: the settling deadline is due no later than any other
  // applicable due deadline of its room; at the same time a disconnect comes
  // before a running out of time, and of the same kind the older deadline.
  lemma {:induction false} EarliestDeadlineSettles(db: Db, now: int, j: nat)
    requires ProcessDeadline(db, now).Done? && ProcessDeadline(db, now).answer.Settled? && j in db.deadlines
    requires db.deadlines[j].status.Pending? && db.deadlines[j].dueAt <= now && Applicable(db, j)
    requires j != ProcessDeadline(db, now).answer.deadline
    ensures var i := ProcessDeadline(db, now).answer.deadline;
            && i in db.deadlines && db.deadlines[i].status.Pending? && db.deadlines[i].dueAt <= now
            && var d, e := db.deadlines[i], db.deadlines[j];
               d.code == e.code ==>
                 && d.dueAt <= e.dueAt
                 && (d.dueAt == e.dueAt && e.kind.Disconnect? ==> d.kind.Disconnect?)
                 && (d.dueAt == e.dueAt && (d.kind.Disconnect? <==> e.kind.Disconnect?) ==> i < j)
  {
    hide Applicable, ProcessDeadline, Load, Concluded;
    SettledByTheFirst(db, now);
    SettledIsApplicable(db, now);
    var i := ProcessDeadline(db, now).answer.deadline;
    if db.deadlines[i].code == db.deadlines[j].code {
      assert j in ApplicableOfRoom(db, db.deadlines[i].code, now);
      assert Before(db, i, j);
    }
  }

  // The worker takes up the deadline that is due earliest over all rooms, with
  // the same order among equals: no other room's deadline and no other room
  // changes, and unless it is blocked, that deadline is not due any more.
  lemma {:induction false} EarliestDeadlineIsNext(db: Db, now: int) returns (i: nat)
    requires DbOk(db) && exists j :: j in db.deadlines && db.deadlines[j].status.Pending? && db.deadlines[j].dueAt <= now
    ensures i in db.deadlines && db.deadlines[i].status.Pending? && db.deadlines[i].dueAt <= now
    ensures TakenUp(db, i, now)
    ensures forall j | j in db.deadlines && db.deadlines[j].status.Pending? && db.deadlines[j].dueAt <= now && j != i ::
              var d, e := db.deadlines[i], db.deadlines[j];
              && d.dueAt <= e.dueAt
              && (d.dueAt == e.dueAt && e.kind.Disconnect? ==> d.kind.Disconnect?)
              && (d.dueAt == e.dueAt && (d.kind.Disconnect? <==> e.kind.Disconnect?) ==> i < j)
  {
    hide DbOk, ProcessDeadline, TakenUp;
    assert forall j | j in db.deadlines && db.deadlines[j].status.Pending? && db.deadlines[j].dueAt <= now :: j in DueIds(db, now);
    TakesUpFirst(db, now);
    CandidateIsFirst(db, now);
    i := First(db, DueIds(db, now));
  }

  // Processing concerns the due deadline `i` and its room alone.
  ghost predicate TakenUp(db: Db, i: nat, now: int) {
    && i in db.deadlines && db.deadlines[i].status.Pending? && db.deadlines[i].dueAt <= now
    && var r := ProcessDeadline(db, now);
       && r.Done? && r.db.deadlines.Keys == db.deadlines.Keys
       && (if Blocked(db, i, now) then r.db == db else !(r.db.deadlines[i].status.Pending? && r.db.deadlines[i].dueAt <= now))
       && (forall k | k in db.deadlines && db.deadlines[k].code != db.deadlines[i].code :: r.db.deadlines[k] == db.deadlines[k])
       && (forall c | c in db.rooms && c != db.deadlines[i].code :: c in r.db.rooms && r.db.rooms[c] == db.rooms[c])
  }

  lemma {:induction false} TakesUpFirst(db: Db, now: int)
    requires DbOk(db) && DueIds(db, now) != {}
    ensures TakenUp(db, First(db, DueIds(db, now)), now)
  {
    hide DbOk, ProcessDeadline, Blocked;
    CandidateIsFirst(db, now);
    ProcessingAdvances(db, now);
    OtherRoomsWait(db, now);
  }

  lemma {:induction false} OtherRoomsWait(db: Db, now: int)
    requires DueIds(db, now) != {} && ProcessDeadline(db, now).Done?
    ensures var r, code := ProcessDeadline(db, now).db, db.deadlines[First(db, DueIds(db, now))].code;
            && (forall k | k in db.deadlines && db.deadlines[k].code != code :: k in r.deadlines && r.deadlines[k] == db.deadlines[k])
            && (forall c | c in db.rooms && c != code :: c in r.rooms && r.rooms[c] == db.rooms[c])
  {
    hide Load, Restorable, Verdict, Before, Applicable, SaveAndSettle, Concluded, Cancel, Due, DeadlineClaims, RoundStillOpen;
    CandidateIsFirst(db, now);
    var first := First(db, DueIds(db, now));
    var code := db.deadlines[first].code;
    CancelKeepsOthers(db, {first}, code, now);
    CancelKeepsOthers(db, DueOfRoom(db, code, now), code, now);
    if DeadlineClaims(db, first) && Load(db, code).Ok? && ApplicableOfRoom(db, code, now) != {} {
      FirstApplies(db, code, now);
      var s, chosen := Load(db, code).value, First(db, ApplicableOfRoom(db, code, now));
      var skipped := Skipped(db, code, chosen, now);
      var pruned := Cancel(db, skipped, now);
      CancelKeepsOthers(db, skipped, code, now);
      CancelKeepsOthers(pruned, {chosen}, code, now);
      var v := Verdict(db, chosen, s, now);
      if v.Some? && v.value.Ok? {
        var deadlines := Concluded(pruned.deadlines, code, s.round, chosen, now);
        ConcludedDeadlines(pruned, code, s.round, chosen, now);
        SettledDeadlines(pruned, code, v.value.value, deadlines, now);
        SettledRows(pruned, code, v.value.value, deadlines, now);
      }
    }
  }

  lemma {:induction false} CancelKeepsOthers(db: Db, ids: set<nat>, code: string, now: int)
    requires forall i | i in ids && i in db.deadlines :: db.deadlines[i].code == code
    ensures var after := Cancel(db, ids, now);
            && after == db.(deadlines := after.deadlines) && after.deadlines.Keys == db.deadlines.Keys
            && forall k | k in db.deadlines :: after.deadlines[k].code == db.deadlines[k].code
                                               && (db.deadlines[k].code != code ==> after.deadlines[k] == db.deadlines[k])
  {}

  lemma {:induction false} FirstApplies(db: Db, code: string, now: int)
    requires ApplicableOfRoom(db, code, now) != {}
    ensures var i := First(db, ApplicableOfRoom(db, code, now)); i in db.deadlines && db.deadlines[i].code == code
  {
    hide Applicable, Due;
  }

  // A player forfeits exactly when absent while the other is connected; the
  // round is drawn when both are absent. Out of time, nobody's move is a draw
  // and a single move wins; two moves are left to be reconciled.
  lemma {:induction false} OutcomeOfADeadline(db: Db, now: int)
    requires DbOk(db) && ProcessDeadline(db, now).Done? && ProcessDeadline(db, now).answer.Settled?
    ensures var a := ProcessDeadline(db, now).answer;
            && a.deadline in db.deadlines && |a.before.players| == 2
            && a.after == Decide(a.before, a.after.result, a.after.forfeited)
            && var d := db.deadlines[a.deadline];
               match d.kind
               case Disconnect(role) =>
                 var absent, other := PlayerAt(a.before, role).id, Other(role);
                 && !LiveRole(db, d.code, role, now)
                 && (a.after.forfeited == absent <==> LiveRole(db, d.code, other, now))
                 && (a.after.forfeited == absent ==> a.after.result == WinFor(other))
                 && (!LiveRole(db, d.code, other, now) ==> a.after.forfeited == "" && a.after.result.Draw?)
               case Inactivity =>
                 && a.after.forfeited == ""
                 && (a.after.result.Draw? <==> a.before.moves == map[])
                 && (forall role :: a.after.result == WinFor(role) <==> a.before.moves.Keys == {PlayerAt(a.before, role).id})
  {
    hide DbOk, ProcessDeadline, Load, LiveRole, Restorable;
    SettledAnswer(db, now);
    var a := ProcessDeadline(db, now).answer;
    VerdictDecides(db, a.deadline, a.before, now);
    if db.deadlines[a.deadline].kind.Inactivity? {
      forall role ensures a.after.result == WinFor(role) <==> a.before.moves.Keys == {PlayerAt(a.before, role).id} {
        OutcomeOfInactivity(a.before, a.after, role);
      }
      OutcomeOfInactivity(a.before, a.after, Host);
    } else {
      OutcomeOfDisconnect(db, a.deadline, a.before, a.after, now);
    }
  }

  lemma {:induction false} OutcomeOfDisconnect(db: Db, i: nat, s: RoomState, t: RoomState, now: int)
    requires i in db.deadlines && db.deadlines[i].kind.Disconnect? && WellFormed(s) && |s.players| == 2
    requires Verdict(db, i, s, now) == Some(Ok(t))
    ensures var d := db.deadlines[i];
            var absent, other := PlayerAt(s, d.kind.role).id, Other(d.kind.role);
            && !LiveRole(db, d.code, d.kind.role, now)
            && (t.forfeited == absent <==> LiveRole(db, d.code, other, now))
            && (t.forfeited == absent ==> t.result == WinFor(other))
            && (!LiveRole(db, d.code, other, now) ==> t.forfeited == "" && t.result.Draw?)
  {
    hide LiveRole;
  }

  lemma {:induction false} OutcomeOfInactivity(s: RoomState, t: RoomState, role: Role)
    requires WellFormed(s) && |s.players| == 2 && ResolveInactivity(s, s.round) == Ok(t)
    ensures t.forfeited == "" && (t.result.Draw? <==> s.moves == map[])
    ensures t.result == WinFor(role) <==> s.moves.Keys == {PlayerAt(s, role).id}
  {
    var one, two := s.players[0].id, s.players[1].id;
    assert one != two;
    assert s.moves.Keys == (if one in s.moves then {one} else {}) + (if two in s.moves then {two} else {}) by {
      forall id | id in s.moves ensures id == one || id == two {}
    }
    assert one in s.moves.Keys <==> one in s.moves;
    assert two in s.moves.Keys <==> two in s.moves;
  }

  ghost predicate BothMoved(rows: RoomRows) {
    RoundRole(rows.currentRound, Host) in rows.moves && RoundRole(rows.currentRound, Guest) in rows.moves
  }

  // An inactivity deadline that comes first settles its round if and only if
  // not both moves are recorded. With both moves it is merely cancelled, along
  // with those before it, and the round is still there to be reconciled.
  lemma {:induction false} MovesOutliveInactivity(db: Db, now: int)
    requires DbOk(db) && DueIds(db, now) != {} && DeadlineClaims(db, First(db, DueIds(db, now)))
    requires var code := db.deadlines[First(db, DueIds(db, now))].code;
             && ApplicableOfRoom(db, code, now) != {}
             && db.deadlines[First(db, ApplicableOfRoom(db, code, now))].kind.Inactivity?
    ensures var code, r := db.deadlines[First(db, DueIds(db, now))].code, ProcessDeadline(db, now);
            var chosen := First(db, ApplicableOfRoom(db, code, now));
            && r.Done? && code in db.rooms && (r.answer.Settled? <==> !BothMoved(db.rooms[code]))
            && (BothMoved(db.rooms[code]) ==>
                  && r.answer.Stale? && r.db == Cancel(Cancel(db, Skipped(db, code, chosen, now), now), {chosen}, now)
                  && r.db.rooms == db.rooms && r.db.funds == db.funds
                  && Eligible(r.db, code, db.rooms[code].currentRound) == Some(Resolving))
  {
    hide RowsOk, ConnectionsOk, PresentOk, DeadlinesOk, Linked, FundsOk, BoxOk, Announced;
    hide Load, WellFormed, Persisted, SaveAndSettle, Before, Applicable, Due, RoundStillOpen, ResolveInactivity, WithCancelled;
    DeadlineKeepsOk(db, now);
    var candidate := First(db, DueIds(db, now));
    var code := db.deadlines[candidate].code;
    ClaimedRoundIsOpen(db, candidate);
    InactivityNeedsAMissingMove(code, db.rooms[code]);
  }

  lemma {:induction false} InactivityNeedsAMissingMove(code: string, rows: RoomRows)
    requires RowsOk(rows) && code != "" && OpenRound(rows)
    ensures var s := Persisted(code, rows);
            && WellFormed(s) && s.round == rows.currentRound
            && (ResolveInactivity(s, s.round).Err? <==> BothMoved(rows))
            && (ResolveInactivity(s, s.round).Err? ==> Harmless(ResolveInactivity(s, s.round).error))
  {
    PersistedIsWellFormed(code, rows);
  }
}
