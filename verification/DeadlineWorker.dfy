// One run of the deadline worker: reap, drain, clean up. It ends unless the
// host of a room without a guest is gone for longer than the grace period.
module DeadlineWorker {
  import opened Prelude
  import opened Game
  import opened Money
  import opened Tables
  import opened RowInvariant
  import opened Outbox
  import opened Store
  import opened Invariant
  import opened Preservation
  import opened PresenceRuns
  import opened DeadlineRuns
  import P = Repository

  ghost predicate HasDue(db: Db, code: string, now: int) {
    exists i | i in DueIds(db, now) :: db.deadlines[i].code == code
  }

  // The host counts as present, but every lease ended more than the grace period ago.
  ghost predicate LongGone(db: Db, code: string, now: int) {
    && code in db.rooms && Host in db.rooms[code].presence && db.rooms[code].presence[Host].present
    && forall c | c in db.connections && db.connections[c].code == code && db.connections[c].role == Host
               && db.connections[c].closedAt.None? :: db.connections[c].leaseExpiresAt + DisconnectGrace <= now
  }

  // An open room that waits for its guest, and whose host went absent, or has
  // only leases that ended, more than the grace period ago.
  ghost predicate Abandoned(db: Db, code: string, now: int) {
    && code in db.rooms && !db.rooms[code].closed && !Full(db.rooms[code])
    && (HasDue(db, code, now) || LongGone(db, code, now))
  }

  // What closing one overdue connection leaves.
  ghost function ClosedAt(db: Db, id: string, now: int): Db
    requires id in db.connections
  {
    Committed(db, CloseConnection(db, id, db.connections[id].leaseExpiresAt, Some(now)))
  }

  lemma {:induction false} CloseOutcome(db: Db, id: string, now: int)
    requires DbOk(db) && id in Overdue(db, now)
    ensures var after, c := ClosedAt(db, id, now), db.connections[id];
            var connections := db.connections[id := c.(closedAt := Some(c.leaseExpiresAt))];
            && after.connections == connections && c.code in db.rooms && c.role in db.rooms[c.code].presence
            && var live := LiveRole(db.(connections := connections), c.code, c.role, c.leaseExpiresAt);
               var rows := db.rooms[c.code];
               var generation := rows.presence[c.role].generation + 1;
               if live || !rows.presence[c.role].present then after.rooms == db.rooms && after.deadlines == db.deadlines
               else
                 && after.rooms == db.rooms[c.code := PresenceChanged(rows, c.role, Presence(generation, false))]
                 && after.deadlines == db.deadlines[db.nextDeadline := Deadline(c.code, rows.currentRound, Disconnect(c.role), generation,
                                                                               c.leaseExpiresAt + DisconnectGrace, Pending, None)]
                 && db.nextDeadline !in db.deadlines
  {
    hide DbOk, LiveRole, WithDeadline;
    ClosesOne(db, id, now);
    RoleOfWaitingRoom(db, id);
    PresenceIsSeated(db, db.connections[id].code);
    IdsBelowNext(db);
    var c := db.connections[id];
    var rows := db.rooms[c.code];
    if rows.presence[c.role].present && ClosedAt(db, id, now).rooms != db.rooms {
      ClosedAway(db, id, c.leaseExpiresAt, Some(now));
      NewDeadline(db, c.code, c.role, c.leaseExpiresAt + DisconnectGrace);
    }
  }

  lemma {:induction false} StillAbsentOrLive(db: Db, id: string, now: int)
    requires DbOk(db) && id in Overdue(db, now)
    ensures db.connections[id].code in db.rooms && (!Full(db.rooms[db.connections[id].code]) ==> db.connections[id].role == Host)
  {
    RoleOfWaitingRoom(db, id);
  }

  // Due deadlines stay due while connections are closed.
  lemma {:induction false} DueAfterClose(db: Db, id: string, now: int, code: string)
    requires DbOk(db) && id in Overdue(db, now)
    ensures var after, c := ClosedAt(db, id, now), db.connections[id];
            HasDue(after, code, now) <==> HasDue(db, code, now) || (after.rooms != db.rooms && code == c.code && c.leaseExpiresAt + DisconnectGrace <= now)
  {
    hide DbOk, LiveRole, CloseConnection, ClosedAt;
    CloseOutcome(db, id, now);
    var after := ClosedAt(db, id, now);
    if after.rooms != db.rooms {
      forall i ensures i in DueIds(after, now) <==>
                       i in DueIds(db, now) || (i == db.nextDeadline && db.connections[id].leaseExpiresAt + DisconnectGrace <= now) {}
      forall i | i in DueIds(db, now) ensures i in DueIds(after, now) && after.deadlines[i] == db.deadlines[i] {}
      if db.connections[id].leaseExpiresAt + DisconnectGrace <= now { assert db.nextDeadline in DueIds(after, now); }
    } else {
      assert DueIds(after, now) == DueIds(db, now);
    }
  }

  // The last live connection decides whether the host is long gone.
  lemma {:induction false} LongGoneAfterClose(db: Db, id: string, now: int)
    requires DbOk(db) && id in Overdue(db, now) && db.connections[id].role == Host
    ensures var code, after := db.connections[id].code, ClosedAt(db, id, now);
            && (after.rooms == db.rooms ==> (LongGone(after, code, now) <==> LongGone(db, code, now)))
            && (after.rooms != db.rooms ==>
                  !LongGone(after, code, now) && (LongGone(db, code, now) <==> db.connections[id].leaseExpiresAt + DisconnectGrace <= now))
  {
    hide DbOk, CloseConnection, ClosedAt, DueIds;
    CloseOutcome(db, id, now);
    var after, c := ClosedAt(db, id, now), db.connections[id];
    assert after.connections[id].closedAt.Some?;
    if after.rooms == db.rooms && LongGone(after, c.code, now) {
      var k :| k in after.connections && after.connections[k].code == c.code && after.connections[k].role == Host
               && after.connections[k].closedAt.None? && after.connections[k].leaseExpiresAt > c.leaseExpiresAt;
      forall j | j in db.connections && db.connections[j].code == c.code && db.connections[j].role == Host && db.connections[j].closedAt.None?
        ensures db.connections[j].leaseExpiresAt + DisconnectGrace <= now {
        assert j == id || after.connections[j] == db.connections[j];
      }
    }
    if after.rooms != db.rooms && c.leaseExpiresAt + DisconnectGrace <= now {
      forall k | k in db.connections && db.connections[k].code == c.code && db.connections[k].role == Host && db.connections[k].closedAt.None?
        ensures db.connections[k].leaseExpiresAt + DisconnectGrace <= now {
        assert k == id || after.connections[k] == db.connections[k];
      }
    }
  }

  lemma {:induction false} AbandonedAfterClose(db: Db, id: string, now: int, code: string)
    requires DbOk(db) && id in Overdue(db, now)
    ensures Abandoned(ClosedAt(db, id, now), code, now) <==> Abandoned(db, code, now)
  {
    hide DbOk, CloseConnection, ClosedAt, DueIds, LongGone, HasDue;
    CloseOutcome(db, id, now);
    DueAfterClose(db, id, now, code);
    StillAbsentOrLive(db, id, now);
    var c, after := db.connections[id], ClosedAt(db, id, now);
    if c.code == code && c.role == Host {
      LongGoneAfterClose(db, id, now);
    } else if c.code != code {
      OtherRoomGone(db, after, id, code, now);
    }
  }

  lemma {:induction false} OtherRoomGone(db: Db, after: Db, id: string, code: string, now: int)
    requires id in db.connections && db.connections[id].code != code
    requires code in db.rooms <==> code in after.rooms
    requires code in db.rooms ==> after.rooms[code] == db.rooms[code]
    requires id in after.connections && after.connections == db.connections[id := after.connections[id]] && after.connections[id].code != code
    ensures LongGone(after, code, now) <==> LongGone(db, code, now)
  {
    forall c | c in db.connections && db.connections[c].code == code ensures c in after.connections && after.connections[c] == db.connections[c] {}
  }

  lemma {:induction false} AbandonedAfterReap(db: Db, ids: seq<string>, now: int, code: string)
    requires DbOk(db) && NoDuplicates(ids) && forall id | id in ids :: id in Overdue(db, now)
    ensures Abandoned(Reaped(db, ids, now), code, now) <==> Abandoned(db, code, now)
  {
    hide DbOk, CloseConnection, Abandoned, Overdue;
    if ids != [] {
      var n := |ids| - 1;
      AbandonedAfterReap(db, ids[..n], now, code);
      ReapCloses(db, ids[..n], now);
      P.ReapedSoFar(db, ids, n, now);
      var before := Reaped(db, ids[..n], now);
      AbandonedAfterClose(before, ids[n], now, code);
      assert Reaped(db, ids, now) == ClosedAt(before, ids[n], now);
    }
  }

  // After reaping, a waiting room blocks the worker exactly when it is abandoned.
  lemma {:induction false} AbandonedBlocks(db: Db, now: int, code: string)
    requires DbOk(db) && Overdue(db, now) == {}
    ensures Abandoned(db, code, now) <==> exists i | i in db.deadlines :: Blocked(db, i, now) && db.deadlines[i].code == code
  {
    hide DbOk, Full;
    if Abandoned(db, code, now) {
      NotLongGone(db, code, now);
      var i :| i in DueIds(db, now) && db.deadlines[i].code == code;
      WaitingRoom(db, code);
      WaitingDeadline(db, i);
      BlockedNow(db, i, now);
    }
    forall i | i in db.deadlines && Blocked(db, i, now) && db.deadlines[i].code == code ensures Abandoned(db, code, now) {
      BlockedRoomWaits(db, i, now);
      assert i in DueIds(db, now);
    }
  }

  lemma {:induction false} NotLongGone(db: Db, code: string, now: int)
    requires DbOk(db) && Overdue(db, now) == {}
    ensures !LongGone(db, code, now)
  {
    hide RowsOk, Linked, FundsOk, BoxOk, Announced, DeadlinesOk, ConnectionsOk;
    if code in db.rooms && Host in db.rooms[code].presence && db.rooms[code].presence[Host].present {
      assert HasOpen(db.connections, code, Host);
      var c :| c in db.connections && db.connections[c].code == code && db.connections[c].role == Host && db.connections[c].closedAt.None?;
      assert c !in Overdue(db, now);
    }
  }

  lemma {:induction false} WaitingDeadline(db: Db, i: nat)
    requires DbOk(db) && i in db.deadlines
    ensures var d := db.deadlines[i];
            d.code in db.rooms && (!Full(db.rooms[d.code]) ==> d.round == db.rooms[d.code].currentRound)
  {
    var d := db.deadlines[i];
    assert DeadlineOk(db.rooms, d) && RowsOk(db.rooms[d.code]);
  }

  // The worker's loop, started after reaping, ends if and only if no waiting
  // room is abandoned.
  lemma {:induction false} RunEndsIffNobodyIsAbandoned(db: Db, ids: seq<string>, now: int)
    requires DbOk(db) && NoDuplicates(ids) && forall id :: id in ids <==> id in Overdue(db, now)
    ensures var reaped := Reaped(db, ids, now);
            && (NothingBlocked(reaped, now) <==> forall code :: !Abandoned(db, code, now))
            && ((exists n: nat :: DueIds(Drained(reaped, now, n), now) == {}) <==> forall code :: !Abandoned(db, code, now))
  {
    hide DbOk, Abandoned, Overdue, Blocked;
    var reaped := Reaped(db, ids, now);
    ReapCloses(db, ids, now);
    ReapedPresenceIsLive(db, ids, now, "", Host);
    forall code ensures Abandoned(db, code, now) <==> exists i | i in reaped.deadlines :: Blocked(reaped, i, now) && reaped.deadlines[i].code == code {
      AbandonedAfterReap(db, ids, now, code);
      AbandonedBlocks(reaped, now, code);
    }
    DrainEndsIffNothingBlocked(reaped, now);
    if !NothingBlocked(reaped, now) {
      var i :| Blocked(reaped, i, now);
      BlockedIsDue(reaped, now, i);
      assert Abandoned(db, reaped.deadlines[i].code, now);
    }
  }

  datatype RunReport = RunReport(expired: nat, processed: nat, settled: nat, noops: nat, stale: nat, cleaned: nat)

  class Worker {
    const store: P.Repository

    constructor (store: P.Repository)
      ensures this.store == store
    {
      this.store := store;
    }

    // Reaps, processes deadlines until none is due, and cleans up. Every pass
    // takes a due deadline off the list, so the loop ends.
    method RunOnce(now: int) returns (report: RunReport, err: Option<Error>, ghost ids: seq<string>)
      requires store.Valid() && forall code :: !Abandoned(store.State(), code, now)
      modifies store
      ensures store.Valid() && err.None?
      ensures NoDuplicates(ids) && forall id :: id in ids <==> id in Overdue(old(store.State()), now)
      ensures var drained := Drained(Reaped(old(store.State()), ids, now), now, report.processed);
              && store.State() == CleanupDeadlines(drained, now)
              && report.cleaned == |drained.deadlines| + |drained.connections| - |store.deadlines| - |store.connections|
      ensures report.settled == |store.history| - |old(store.history)|
      ensures DueIds(store.State(), now) == {} && Overdue(store.State(), now) == {}
      ensures report.expired == |Overdue(old(store.State()), now)|
      ensures report.processed == report.settled + report.noops && report.stale == report.noops
    {
      hide Abandoned, Overdue, DueIds, NothingBlocked, DbOk, ProcessDeadline, Store.CleanupDeadlines, Reaped, Drained;
      report := RunReport(0, 0, 0, 0, 0, 0);
      var expired;
      ghost var before := store.State();
      assert DbOk(before);
      expired, err, ids := store.ReapExpiredConnections(now);
      RunEndsIffNobodyIsAbandoned(before, ids, now);
      report := report.(expired := expired);
      ghost var reaped := store.State();
      ReapingKeepsFunds(before, ids, now);
      DrainedMore(reaped, now, 0);
      ghost var left := DueIds(store.State(), now);
      while true
        invariant store.State() == Drained(reaped, now, report.processed)
        invariant report.settled == |store.history| - |before.funds.history|
        invariant store.Valid() && err.None? && NothingBlocked(store.State(), now) && Overdue(store.State(), now) == {}
        invariant left == DueIds(store.State(), now)
        invariant report.processed == report.settled + report.noops && report.stale == report.noops && report.expired == expired
        decreases left
      {
        ghost var start := store.State();
        OnePass(start, now);
        DrainedMore(reaped, now, report.processed);
        var answer;
        answer, err := store.ProcessNextDeadline(now);
        if err.Some? { return; }
        if answer.Idle? { break; }
        report := report.(processed := report.processed + 1);
        if answer.Settled? {
          report := report.(settled := report.settled + 1);
        } else {
          report := report.(noops := report.noops + 1);
        }
        if answer.Stale? { report := report.(stale := report.stale + 1); }
        left := DueIds(store.State(), now);
      }
      CleanupLeavesNothingDue(store.State(), now);
      var cleaned := store.CleanupDeadlines(now);
      report := report.(cleaned := cleaned);
    }
  }

  // What one pass of the worker's loop does.
  lemma {:induction false} OnePass(db: Db, now: int)
    requires DbOk(db) && NothingBlocked(db, now)
    ensures var r := ProcessDeadline(db, now);
            && r.Done? && DbOk(r.db) && NothingBlocked(r.db, now) && Overdue(r.db, now) == Overdue(db, now)
            && (r.answer.Idle? <==> DueIds(db, now) == {}) && (r.answer.Idle? ==> r.db == db)
            && (!r.answer.Idle? ==> DueIds(r.db, now) < DueIds(db, now) && (r.answer.Stale? <==> !r.answer.Settled?))
            && |r.db.funds.history| == |db.funds.history| + if r.answer.Settled? then 1 else 0
  {
    hide Overdue, DueIds, NothingBlocked, DbOk, ProcessDeadline;
    if DueIds(db, now) != {} {
      StepShrinks(db, now);
      SettledAddsHistory(db, now);
    } else {
      IdleKeeps(db, now);
    }
    var r := ProcessDeadline(db, now);
    ProcessingKeepsConnections(db, now);
    OverdueFrame(db, r.db, now);
    assert |r.db.funds.history| == |r.db.funds.history.Keys| && |db.funds.history| == |db.funds.history.Keys|;
  }

  lemma {:induction false} DrainedMore(db: Db, now: int, n: nat)
    ensures Drained(db, now, n + 1) == Committed(Drained(db, now, n), ProcessDeadline(Drained(db, now, n), now))
    ensures Drained(db, now, 0) == db
  {}

  lemma {:induction false} ReapingKeepsFunds(db: Db, ids: seq<string>, now: int)
    ensures Reaped(db, ids, now).funds == db.funds
  {
    hide LiveRole, WithDeadline;
    if ids != [] { ReapingKeepsFunds(db, ids[..|ids| - 1], now); }
  }

  lemma {:induction false} ProcessingKeepsConnections(db: Db, now: int)
    ensures var r := ProcessDeadline(db, now); r.Done? ==> r.db.connections == db.connections
  {
    hide Load, Saved, Restorable, Concluded, Verdict, Before, Due, Applicable, WithCancelled, SettleRound;
  }

  lemma {:induction false} OverdueFrame(db: Db, other: Db, now: int)
    requires other.connections == db.connections
    ensures Overdue(other, now) == Overdue(db, now)
  {}

  lemma {:induction false} CleanupLeavesNothingDue(db: Db, now: int)
    requires DueIds(db, now) == {} && Overdue(db, now) == {}
    ensures DueIds(CleanupDeadlines(db, now), now) == {} && Overdue(CleanupDeadlines(db, now), now) == {}
    ensures CleanupDeadlines(db, now).funds == db.funds
  {
    var after := CleanupDeadlines(db, now);
    forall i | i in DueIds(after, now) ensures i in DueIds(db, now) {}
    forall c | c in Overdue(after, now) ensures c in Overdue(db, now) {}
  }
}
