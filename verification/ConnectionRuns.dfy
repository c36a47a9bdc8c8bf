// What opening and closing a connection, and cleaning up, do to presence and
// deadlines.
module ConnectionRuns {
  import opened Prelude
  import opened Game
  import opened Ledger
  import opened Money
  import opened Tables
  import opened RowInvariant
  import opened Outbox
  import opened Store
  import opened Invariant
  import opened Preservation
  import opened Simulation
  import opened PresenceRuns
  import opened DeadlineRuns

  lemma {:induction false} OpenCommits(db: Db, id: string, code: string, account: string, sessionValid: bool, now: int, lease: int)
    requires DbOk(db)
    ensures OpenConnection(db, id, code, account, sessionValid, now, lease).Done? <==>
              lease > now && code in db.rooms && RoleOf(db.rooms[code], account).Some? && sessionValid && id !in db.connections
  {
    hide DbOk, RoleOf, WithCancelled;
    if code in db.rooms && RoleOf(db.rooms[code], account).Some? {
      var rows := db.rooms[code];
      var role := RoleOf(rows, account).value;
      var generation := if role in rows.presence then rows.presence[role].generation else 1;
      RoomAnnounces(db, code, PresenceChanged(rows, role, Presence(generation, true)), now);
      var open := db.(connections := db.connections[id := Connection(code, role, now, lease, None)]);
      var waiting := set i | i in db.deadlines && role in rows.presence && db.deadlines[i].code == code
                       && db.deadlines[i].round == rows.currentRound && db.deadlines[i].kind == Disconnect(role)
                       && db.deadlines[i].generation == generation;
      SameBoxBumps(WithRoom(db, code, PresenceChanged(rows, role, Presence(generation, true))),
                   WithRoom(open, code, PresenceChanged(rows, role, Presence(generation, true))).(deadlines := WithCancelled(db.deadlines, waiting, now)),
                   code, rows.revision + 1, now);
    }
  }

  lemma {:induction false} RoomAnnounces(db: Db, code: string, rows: RoomRows, now: int)
    requires DbOk(db) && code in db.rooms && rows.revision == db.rooms[code].revision + 1
    ensures Bump(WithRoom(db, code, rows), code, rows.revision, now).Ok?
  {
    hide RowsOk, ConnectionsOk, PresentOk, DeadlinesOk, Linked, FundsOk, Announced;
    RoomBump(db, code, rows, now);
  }

  lemma {:induction false} SameBoxBumps(db: Db, other: Db, code: string, revision: nat, now: int)
    requires other.box == db.box && Bump(db, code, revision, now).Ok?
    ensures Bump(other, code, revision, now).Ok?
  {}

  // Opening takes a running lease, a seat, a valid session and a new id. The
  // seat is then present, in the generation it was in, and live until the lease
  // ends. If it was absent, no disconnect deadline of that generation keeps
  // waiting in this round; every other deadline stays as it was.
  lemma {:induction false} OpeningShows(db: Db, id: string, code: string, account: string, sessionValid: bool, now: int, lease: int)
    requires DbOk(db) && OpenConnection(db, id, code, account, sessionValid, now, lease).Done?
    ensures code in db.rooms && RoleOf(db.rooms[code], account).Some?
    ensures var after := OpenConnection(db, id, code, account, sessionValid, now, lease).db;
            var role, before := RoleOf(db.rooms[code], account).value, db.rooms[code].presence;
            && after.connections == db.connections[id := Connection(code, role, now, lease, None)]
            && (forall t: int | t < lease :: LiveRole(after, code, role, t))
            && code in after.rooms && after.rooms[code].presence.Keys == before.Keys + {role}
            && after.rooms[code].presence[role] == Presence(if role in before then before[role].generation else 1, true)
            && after.deadlines.Keys == db.deadlines.Keys
            && forall i | i in db.deadlines ::
                 var d := db.deadlines[i];
                 after.deadlines[i] == if d.status.Pending? && d.code == code && d.kind == Disconnect(role) && d.round == db.rooms[code].currentRound
                                          && role in before && !before[role].present && d.generation == before[role].generation
                                       then d.(status := Cancelled, completedAt := Some(now)) else d
  {
    hide DbOk, RoleOf;
    var after := OpenConnection(db, id, code, account, sessionValid, now, lease).db;
    forall t: int | t < lease ensures LiveRole(after, code, RoleOf(db.rooms[code], account).value, t) { assert id in after.connections; }
  }

  // A close applies once to an open connection, a reaping one only when the
  // lease is over. The seat goes absent exactly when no other connection of it
  // is live, and then starts a new generation with a grace period of 20 seconds.
  lemma {:induction false} ClosingShows(db: Db, id: string, at: int, expiredBy: Option<int>)
    requires DbOk(db) && CloseConnection(db, id, at, expiredBy).Done?
    ensures var r := CloseConnection(db, id, at, expiredBy);
            && (r.answer <==> id in db.connections && ClosesNow(db.connections[id], at, expiredBy))
            && (!r.answer ==> r.db == db)
            && (r.answer ==>
                  var c := db.connections[id];
                  && r.db.connections == db.connections[id := c.(closedAt := Some(at))]
                  && c.code in db.rooms && c.code in r.db.rooms && c.role in db.rooms[c.code].presence
                  && var p := db.rooms[c.code].presence[c.role];
                     if p.present && !OtherLive(db, id, at)
                     then && r.db.rooms[c.code].presence == db.rooms[c.code].presence[c.role := Presence(p.generation + 1, false)]
                          && db.nextDeadline !in db.deadlines
                          && r.db.deadlines == db.deadlines[db.nextDeadline :=
                               Deadline(c.code, db.rooms[c.code].currentRound, Disconnect(c.role), p.generation + 1, at + 20, Pending, None)]
                     else r.db.rooms == db.rooms && r.db.deadlines == db.deadlines)
  {
    hide RowsOk, ConnectionsOk, PresentOk, DeadlinesOk, Linked, FundsOk, BoxOk, Announced, WithDeadline, CloseConnection, LiveRole, OtherLive;
    CloseAnswers(db, id, at, expiredBy);
    if CloseConnection(db, id, at, expiredBy).answer {
      var c := db.connections[id];
      ConnectionSeat(db, id);
      ClosedCases(db, id, at, expiredBy);
      LiveIsOther(db, CloseConnection(db, id, at, expiredBy).db, id, at);
      if db.rooms[c.code].presence[c.role].present && !OtherLive(db, id, at) {
        ClosedAway(db, id, at, expiredBy);
        NewDeadline(db, c.code, c.role, at + 20);
        IdsBelowNext(db);
      }
    }
  }

  lemma {:induction false} ConnectionSeat(db: Db, id: string)
    requires DbOk(db) && id in db.connections
    ensures var c := db.connections[id]; c.code in db.rooms && c.role in db.rooms[c.code].presence && c.role in db.rooms[c.code].seats
  {
    hide RowsOk, PresentOk, DeadlinesOk, Linked, FundsOk, BoxOk, Announced;
    assert ConnectionOk(db.rooms, db.connections[id]);
    PresenceHasSeat(db, db.connections[id].code, db.connections[id].role);
  }

  lemma {:induction false} CloseAnswers(db: Db, id: string, at: int, expiredBy: Option<int>)
    requires DbOk(db) && CloseConnection(db, id, at, expiredBy).Done?
    ensures var r := CloseConnection(db, id, at, expiredBy);
            (r.answer <==> id in db.connections && ClosesNow(db.connections[id], at, expiredBy)) && (!r.answer ==> r.db == db)
  {
    hide DbOk, LiveRole, WithDeadline;
    if id in db.connections { ConnectionSeat(db, id); }
  }

  lemma {:induction false} ClosedCases(db: Db, id: string, at: int, expiredBy: Option<int>)
    requires CloseConnection(db, id, at, expiredBy).Done? && CloseConnection(db, id, at, expiredBy).answer
    ensures id in db.connections
    ensures var r, c := CloseConnection(db, id, at, expiredBy).db, db.connections[id];
            && r.connections == db.connections[id := c.(closedAt := Some(at))]
            && c.code in db.rooms && c.code in r.rooms
            && (if LiveRole(r, c.code, c.role, at) || !(c.role in db.rooms[c.code].presence && db.rooms[c.code].presence[c.role].present)
                then r.rooms == db.rooms && r.deadlines == db.deadlines else r.rooms != db.rooms)
  {
    hide WithDeadline;
    var r, c := CloseConnection(db, id, at, expiredBy).db, db.connections[id];
    var closed := db.(connections := db.connections[id := c.(closedAt := Some(at))]);
    assert LiveRole(r, c.code, c.role, at) <==> LiveRole(closed, c.code, c.role, at);
    assert c.code in r.rooms;
  }

  // Once connection `id` is closed, only others keep its seat live.
  lemma {:induction false} LiveIsOther(db: Db, after: Db, id: string, at: int)
    requires id in db.connections && after.connections == db.connections[id := db.connections[id].(closedAt := Some(at))]
    ensures LiveRole(after, db.connections[id].code, db.connections[id].role, at) <==> OtherLive(db, id, at)
  {
    var c := db.connections[id];
    if LiveRole(after, c.code, c.role, at) {
      var k :| k in after.connections && after.connections[k].code == c.code && after.connections[k].role == c.role
               && after.connections[k].closedAt.None? && after.connections[k].leaseExpiresAt > at;
      assert k in db.connections && k != id && db.connections[k] == after.connections[k];
    }
    if OtherLive(db, id, at) {
      var k :| k in db.connections && k != id && db.connections[k].code == c.code && db.connections[k].role == c.role
               && db.connections[k].closedAt.None? && db.connections[k].leaseExpiresAt > at;
      assert k in after.connections && after.connections[k] == db.connections[k];
    }
  }

  // Cleaning up takes exactly the concluded deadlines and the closed
  // connections from before the given time.
  lemma {:induction false} CleanupTakesConcluded(db: Db, before: int)
    ensures var after := Next(db, TxCleanupDeadlines(before));
            && after == db.(deadlines := after.deadlines, connections := after.connections)
            && (forall i :: i in after.deadlines <==>
                  i in db.deadlines && (db.deadlines[i].status.Pending? || db.deadlines[i].completedAt.None? || db.deadlines[i].completedAt.value >= before))
            && (forall i | i in after.deadlines :: after.deadlines[i] == db.deadlines[i])
            && (forall c :: c in after.connections <==>
                  c in db.connections && (db.connections[c].closedAt.None? || db.connections[c].closedAt.value >= before))
            && (forall c | c in after.connections :: after.connections[c] == db.connections[c])
  {}
}
