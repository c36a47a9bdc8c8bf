// Presence over runs: generations, connections, and which deadlines can still
// decide a round.
module PresenceRuns {
  import opened Prelude
  import opened Game
  import opened Ledger
  import opened Money
  import opened Tables
  import opened RowInvariant
  import opened Outbox
  import opened Store
  import opened Invariant
  import opened Preservation
  import opened Simulation
  import opened Safety
  import Keys

  // What one transaction does to the presence of a role: nothing, a return
  // within the same generation, or a new generation.
  predicate PresenceStep(p: Presence, q: Presence) {
    || q == p
    || (q.generation == p.generation && !p.present && q.present)
    || (q.generation == p.generation + 1 && (q.present ==> p.present))
  }

  ghost predicate PresenceSteps(rooms: Rooms, after: Rooms) {
    forall code, role | code in rooms && role in rooms[code].presence ::
      && code in after && role in after[code].presence
      && PresenceStep(rooms[code].presence[role], after[code].presence[role])
  }

  // Deadlines are never renumbered or rewritten; only their status changes.
  predicate SameDeadline(d: Deadline, e: Deadline) {
    e.code == d.code && e.round == d.round && e.kind == d.kind && e.generation == d.generation && e.dueAt == d.dueAt
    && (!d.status.Pending? ==> !e.status.Pending?)
  }

  ghost predicate DeadlinesStep(db: Db, after: Db) {
    && db.nextDeadline <= after.nextDeadline
    && forall i | i in after.deadlines && i < db.nextDeadline :: i in db.deadlines && SameDeadline(db.deadlines[i], after.deadlines[i])
  }

  ghost predicate Evolves(db: Db, after: Db) {
    PresenceSteps(db.rooms, after.rooms) && DeadlinesStep(db, after)
  }

  // One room changed and kept its presence.
  lemma {:induction false} RoomKeepsPresence(db: Db, after: Db, code: string)
    requires code in after.rooms && after.rooms == db.rooms[code := after.rooms[code]]
    requires code in db.rooms ==> after.rooms[code].presence == db.rooms[code].presence
    ensures PresenceSteps(db.rooms, after.rooms)
  {}

  lemma {:induction false} SavedKeepsPresence(rows: RoomRows, s: RoomState, previousRound: nat, revision: nat)
    ensures Saved(rows, s, previousRound, revision).presence == rows.presence
  {}

  lemma {:induction false} WithDeadlineStep(db: Db, code: string, round: nat, kind: DeadlineKind, generation: nat, dueAt: int)
    requires forall i | i in db.deadlines :: i < db.nextDeadline
    ensures DeadlinesStep(db, WithDeadline(db, code, round, kind, generation, dueAt))
  {}

  lemma {:induction false} CancelledStep(db: Db, ids: set<nat>, now: int)
    ensures DeadlinesStep(db, db.(deadlines := WithCancelled(db.deadlines, ids, now)))
  {}

  lemma {:induction false} ConcludedStep(db: Db, code: string, round: nat, i: nat, now: int)
    ensures DeadlinesStep(db, db.(deadlines := Concluded(db.deadlines, code, round, i, now)))
  {}

  lemma {:induction false} IdsBelowNext(db: Db)
    requires DbOk(db)
    ensures forall i | i in db.deadlines :: i < db.nextDeadline
  {}

  lemma {:induction false} FundEvolves(db: Db, code: string, round: nat, joining: Option<string>, now: int)
    requires code in db.rooms && FundRound(db, code, round, joining, now).Ok? && forall i | i in db.deadlines :: i < db.nextDeadline
    ensures var after := FundRound(db, code, round, joining, now).value;
            Evolves(db, after) && after.rooms[code].presence == db.rooms[code].presence
  {
    hide WithDeadline, Stake, DeadlinesStep;
    var after := FundRound(db, code, round, joining, now).value;
    RoomKeepsPresence(db, after, code);
    WithDeadlineStep(db, code, round, Inactivity, round, now + InactivityLimit);
    FundDeadlines(db, code, round, joining, now);
    StepFrame2(db, WithDeadline(db, code, round, Inactivity, round, now + InactivityLimit), after);
  }

  lemma {:induction false} FundDeadlines(db: Db, code: string, round: nat, joining: Option<string>, now: int)
    requires code in db.rooms && FundRound(db, code, round, joining, now).Ok?
    ensures var after := FundRound(db, code, round, joining, now).value;
            var deadlined := WithDeadline(db, code, round, Inactivity, round, now + InactivityLimit);
            after.deadlines == deadlined.deadlines && after.nextDeadline == deadlined.nextDeadline
  {
    hide Stake;
  }

  lemma {:induction false} SettleEvolves(db: Db, code: string, t: RoomState, deadlines: map<nat, Deadline>, now: int)
    requires code in db.rooms && SaveAndSettle(db, code, t, deadlines, now).Ok?
    requires DeadlinesStep(db, db.(deadlines := deadlines))
    ensures Evolves(db, SaveAndSettle(db, code, t, deadlines, now).value)
  {
    hide Saved;
    SettledRows(db, code, t, deadlines, now);
    SavedKeepsPresence(db.rooms[code], t, t.round, db.rooms[code].revision + 1);
    RoomKeepsPresence(db, SaveAndSettle(db, code, t, deadlines, now).value, code);
  }

  lemma {:induction false} ReconcileEvolves(db: Db, code: string, round: nat, now: int)
    requires DbOk(db) && Reconcile(db, code, round, now).Some? && Reconcile(db, code, round, now).value.Done?
    ensures Evolves(db, Reconcile(db, code, round, now).value.db)
  {
    hide DbOk, Saved, Persisted, Restorable, WellFormed, Eligible, Keys.HintFits, SaveAndSettle, FundRound, WithCancelled, DeadlinesStep;
    hide PresenceSteps, ResolveCommittedMoves, AdvanceCommittedNextRound;
    EligibleRoom(db, code, round);
    IdsBelowNext(db);
    var s := Load(db, code).value;
    var after := Reconcile(db, code, round, now).value.db;
    if Eligible(db, code, round).value.Resolving? {
      CancelledStep(db, RoundDeadlines(db, code, s.round), now);
      SettleEvolves(db, code, ResolveCommittedMoves(s, s.round).value, WithCancelled(db.deadlines, RoundDeadlines(db, code, s.round), now), now);
    } else {
      var t := AdvanceCommittedNextRound(s, s.round).value;
      var saved := SaveAndBump(db, code, t, s.round, now).value;
      SavedKeepsPresence(db.rooms[code], t, s.round, db.rooms[code].revision + 1);
      FundEvolves(saved, code, t.round, None, now);
      RoomKeepsPresence(db, after, code);
      StepFrame(db, saved, after);
    }
  }

  lemma {:induction false} StepFrame(db: Db, other: Db, after: Db)
    requires DeadlinesStep(other, after) && other.deadlines == db.deadlines && other.nextDeadline == db.nextDeadline
    ensures DeadlinesStep(db, after)
  {}

  lemma {:induction false} StepsCompose(db: Db, mid: Db, after: Db)
    requires DeadlinesStep(db, mid) && DeadlinesStep(mid, after)
    ensures DeadlinesStep(db, after)
  {}

  lemma {:induction false} SameDeadlinesStep(db: Db, after: Db)
    requires after.deadlines == db.deadlines && after.nextDeadline == db.nextDeadline
    ensures DeadlinesStep(db, after)
  {}

  lemma {:induction false} DeadlineEvolves(db: Db, now: int)
    requires DbOk(db) && ProcessDeadline(db, now).Done?
    ensures Evolves(db, ProcessDeadline(db, now).db)
  {
    hide DbOk, Persisted, Restorable, WellFormed, Load, Due, Before, Verdict, Concluded, WithCancelled, SaveAndSettle, DeadlinesStep, Applicable;
    hide DeadlineClaims, RoundStillOpen;
    if DueIds(db, now) == {} {
      SameDeadlinesStep(db, db);
    } else {
      var candidate := First(db, DueIds(db, now));
      var code := db.deadlines[candidate].code;
      CancelledStep(db, {candidate}, now);
      SameDeadlinesStep(db, db);
      if DeadlineClaims(db, candidate) && Load(db, code).Ok? {
        var s := Load(db, code).value;
        var due, applicable := DueOfRoom(db, code, now), ApplicableOfRoom(db, code, now);
        CancelledStep(db, due, now);
        if applicable != {} {
          var chosen := First(db, applicable);
          var skipped := Skipped(db, code, chosen, now);
          var pruned := Cancel(db, skipped, now);
          CancelledStep(db, skipped, now);
          CancelledStep(pruned, {chosen}, now);
          StepsCompose(db, pruned, Cancel(pruned, {chosen}, now));
          var v := Verdict(db, chosen, s, now);
          if v.Some? && v.value.Ok? {
            ConcludedStep(pruned, code, s.round, chosen, now);
            SettleEvolves(pruned, code, v.value.value, Concluded(pruned.deadlines, code, s.round, chosen, now), now);
            StepsCompose(db, pruned, ProcessDeadline(db, now).db);
          }
        }
      }
    }
  }

  lemma {:induction false} CallEvolves(db: Db, account: string, key: string, call: Call, now: int)
    requires DbOk(db) && Effect(db, account, key, call, now).Done?
    ensures Evolves(db, Effect(db, account, key, call, now).db)
  {
    hide DbOk, JoinRoom, Saved, Persisted, Restorable, WellFormed, ViewOf, WithAccount, Recharge;
    var after := Effect(db, account, key, call, now).db;
    match call {
      case CallJoin(code, playerId) => JoinEvolves(db, code, playerId, account, now);
      case CallLeave(code) =>
        SavedKeepsPresence(db.rooms[code], Load(db, code).value.(closed := true), Load(db, code).value.round, db.rooms[code].revision + 1);
        RoomKeepsPresence(db, after, code);
      case CallRecharge(_) =>
      case _ => RoomKeepsPresence(db, after, call.code);
    }
  }

  lemma {:induction false} JoinEvolves(db: Db, code: string, playerId: string, account: string, now: int)
    requires DbOk(db) && JoinRoom(db, code, playerId, account, now).Done?
    ensures Evolves(db, JoinRoom(db, code, playerId, account, now).db)
  {
    hide DbOk, Restorable, RowsOk, WellFormed, Saved, Persisted, JoinRoom, WithDeadline, Stake, CanSeatGuest, Join, RoleOf, DeadlinesStep;
    hide JoinedPresence, Steps;
    RoomsOfDb(db);
    IdsBelowNext(db);
    JoinShape(db, code, playerId, account, now);
    var rows := db.rooms[code];
    var s := Persisted(code, rows);
    assert rows.(currentRound := 1) == rows;
    SavedKeepsPresence(SeatGuest(WithRoundFunded(rows, 1), playerId, account, JoinedPresence(rows.presence)),
                       s.(players := s.players + [Player(playerId, 0)]), 1, rows.revision + 1);
    WithDeadlineStep(db, code, 1, Inactivity, 1, now + InactivityLimit);
    var book := Stake(db.funds.book, RoundKey(code, 1), rows.seats[Host].account, account).value;
    WithDeadlineFrame(db, WithRoom(db, code, WithRoundFunded(rows, 1)).(funds := db.funds.(book := book)), code, 1, Inactivity, 1, now + InactivityLimit);
    var after := JoinRoom(db, code, playerId, account, now).db;
    assert after.rooms[code].presence == JoinedPresence(rows.presence);
    JoinedPresenceSteps(rows.presence);
    JoinSteps(db, TxCommand(account, Command("", "", ""), CallJoin(code, playerId), now), code, playerId, account, now);
    StepFrame2(db, WithDeadline(db, code, 1, Inactivity, 1, now + InactivityLimit), after);
  }

  lemma {:induction false} JoinedPresenceSteps(presence: map<Role, Presence>)
    ensures forall role | role in presence :: role in JoinedPresence(presence) && PresenceStep(presence[role], JoinedPresence(presence)[role])
  {
    forall role | role in presence ensures role in JoinedPresence(presence) && PresenceStep(presence[role], JoinedPresence(presence)[role]) {
      assert role == Host || role == Guest;
    }
  }

  lemma {:induction false} StepFrame2(db: Db, mid: Db, after: Db)
    requires DeadlinesStep(db, mid) && after.deadlines == mid.deadlines && after.nextDeadline == mid.nextDeadline
    ensures DeadlinesStep(db, after)
  {}

  lemma {:induction false} OpenEvolves(db: Db, id: string, code: string, account: string, valid: bool, now: int, lease: int)
    requires DbOk(db) && OpenConnection(db, id, code, account, valid, now, lease).Done?
    ensures Evolves(db, OpenConnection(db, id, code, account, valid, now, lease).db)
  {
    hide DbOk, RoleOf, WithCancelled, DeadlinesStep;
    var rows := db.rooms[code];
    var role := RoleOf(rows, account).value;
    var after := OpenConnection(db, id, code, account, valid, now, lease).db;
    if role in rows.presence && rows.presence[role].present {
      SameDeadlinesStep(db, after);
    } else {
      var generation := if role in rows.presence then rows.presence[role].generation else 1;
      var waiting := set i | i in db.deadlines && role in rows.presence && db.deadlines[i].code == code
                       && db.deadlines[i].round == rows.currentRound && db.deadlines[i].kind == Disconnect(role)
                       && db.deadlines[i].generation == generation;
      CancelledStep(db, waiting, now);
      StepFrame2(db, db.(deadlines := WithCancelled(db.deadlines, waiting, now)), after);
    }
  }

  lemma {:induction false} CloseEvolves(db: Db, id: string, at: int, expiredBy: Option<int>)
    requires DbOk(db) && CloseConnection(db, id, at, expiredBy).Done?
    ensures Evolves(db, CloseConnection(db, id, at, expiredBy).db)
  {
    hide DbOk, LiveRole, WithDeadline, DeadlinesStep;
    SameDeadlinesStep(db, db);
    var after := CloseConnection(db, id, at, expiredBy).db;
    if after.rooms == db.rooms {
      SameDeadlinesStep(db, after);
    } else {
      IdsBelowNext(db);
      var c := db.connections[id];
      var rows := db.rooms[c.code];
      var generation := rows.presence[c.role].generation + 1;
      WithDeadlineStep(db, c.code, rows.currentRound, Disconnect(c.role), generation, at + DisconnectGrace);
      WithDeadlineFrame(db, WithRoom(db.(connections := db.connections[id := c.(closedAt := Some(at))]), c.code, PresenceChanged(rows, c.role, Presence(generation, false))),
                        c.code, rows.currentRound, Disconnect(c.role), generation, at + DisconnectGrace);
      StepFrame2(db, WithDeadline(db, c.code, rows.currentRound, Disconnect(c.role), generation, at + DisconnectGrace), after);
    }
  }

  lemma {:induction false} NextEvolves(db: Db, tx: Tx)
    requires DbOk(db)
    ensures Evolves(db, Next(db, tx))
  {
    hide DbOk, Effect, Reconcile, ProcessDeadline, OpenConnection, CloseConnection;
    match tx {
      case TxCommand(account, command, call, now) =>
        if Refusal(account, call).None? && command.key !in db.receipts && Effect(db, account, command.key, call, now).Done? {
          CallEvolves(db, account, command.key, call, now);
        }
      case TxReconcile(code, round, now) =>
        if Reconcile(db, code, round, now).Some? && Reconcile(db, code, round, now).value.Done? { ReconcileEvolves(db, code, round, now); }
      case TxDeadline(now) => if ProcessDeadline(db, now).Done? { DeadlineEvolves(db, now); }
      case TxOpen(id, code, account, valid, now, lease) =>
        if OpenConnection(db, id, code, account, valid, now, lease).Done? { OpenEvolves(db, id, code, account, valid, now, lease); }
      case TxClose(id, at, expiredBy) => if CloseConnection(db, id, at, expiredBy).Done? { CloseEvolves(db, id, at, expiredBy); }
      case _ =>
    }
  }

  // ---- Generations ----

  ghost predicate PresenceGrew(p: Presence, q: Presence) {
    q.generation >= p.generation && (p.present && !q.present ==> q.generation > p.generation)
  }

  // A role that went absent is in a new generation, and generations never go back.
  lemma {:induction false} GenerationsGrow(db: Db, txs: seq<Tx>, code: string, role: Role)
    requires DbOk(db) && code in db.rooms && role in db.rooms[code].presence
    ensures var after := Store.Run(db, txs);
            && code in after.rooms && role in after.rooms[code].presence
            && PresenceGrew(db.rooms[code].presence[role], after.rooms[code].presence[role])
  {
    hide DbOk, Next, DeadlinesStep;
    if txs != [] {
      GenerationsGrow(db, txs[..|txs| - 1], code, role);
      RunKeepsOk(db, txs[..|txs| - 1]);
      NextEvolves(Store.Run(db, txs[..|txs| - 1]), txs[|txs| - 1]);
    }
  }

  lemma {:induction false} DeadlinesKeepIdentity(db: Db, txs: seq<Tx>)
    requires DbOk(db)
    ensures DeadlinesStep(db, Store.Run(db, txs))
  {
    hide DbOk, Next, PresenceSteps;
    if txs != [] {
      DeadlinesKeepIdentity(db, txs[..|txs| - 1]);
      RunKeepsOk(db, txs[..|txs| - 1]);
      NextEvolves(Store.Run(db, txs[..|txs| - 1]), txs[|txs| - 1]);
    }
  }

  // At most one disconnect deadline carries the current generation of a role.
  lemma {:induction false} OneDeadlinePerGeneration(db: Db, txs: seq<Tx>, i: nat, j: nat, code: string, role: Role)
    requires Reachable(db, txs) && i in db.deadlines && j in db.deadlines && code in db.rooms && role in db.rooms[code].presence
    requires forall k | k == i || k == j ::
               && db.deadlines[k].code == code && db.deadlines[k].kind == Disconnect(role)
               && db.deadlines[k].generation == db.rooms[code].presence[role].generation
    ensures i == j
  {
    ReachableIsOk(db, txs);
    assert i == j || Distinct(db.deadlines[i], db.deadlines[j]);
  }

  lemma {:induction false} SettledIsApplicable(db: Db, now: int)
    requires ProcessDeadline(db, now).Done? && ProcessDeadline(db, now).answer.Settled?
    ensures var i := ProcessDeadline(db, now).answer.deadline; i in db.deadlines && Applicable(db, i) && Due(db, i, now)
  {
    hide Load, Persisted, Restorable, Concluded, Verdict, Before, WithCancelled, SaveAndSettle, Due, Applicable;
    var code := db.deadlines[First(db, DueIds(db, now))].code;
    var applicable := ApplicableOfRoom(db, code, now);
    assert IsFirst(db, applicable, First(db, applicable)) && First(db, applicable) in DueOfRoom(db, code, now);
  }

  // A disconnect deadline that exists while its role is present, that is, one
  // from before the role returned, never settles a round, whatever happens later.
  lemma {:induction false} ReturnRetiresDeadline(db: Db, txs: seq<Tx>, i: nat, now: int)
    requires DbOk(db) && i in db.deadlines && db.deadlines[i].kind.Disconnect?
    requires var d := db.deadlines[i];
             d.code in db.rooms && d.kind.role in db.rooms[d.code].presence && db.rooms[d.code].presence[d.kind.role].present
    ensures var later := Store.Run(db, txs);
            && !(i in later.deadlines && Applicable(later, i))
            && !(ProcessDeadline(later, now).Done? && ProcessDeadline(later, now).answer.Settled? && ProcessDeadline(later, now).answer.deadline == i)
  {
    hide RowsOk, ConnectionsOk, PresentOk, Linked, FundsOk, BoxOk, Announced, Next, ProcessDeadline;
    var d := db.deadlines[i];
    var later := Store.Run(db, txs);
    assert DeadlineOk(db.rooms, d);
    GenerationsGrow(db, txs, d.code, d.kind.role);
    DeadlinesKeepIdentity(db, txs);
    if ProcessDeadline(later, now).Done? && ProcessDeadline(later, now).answer.Settled? { SettledIsApplicable(later, now); }
  }

  // Joining starts a new generation for the host, so a disconnect deadline from
  // before the join never settles a round of the game, whatever happens later.
  lemma {:induction false} JoinRetiresDeadlines(db: Db, code: string, playerId: string, account: string, joinedAt: int, txs: seq<Tx>, i: nat, now: int)
    requires DbOk(db) && JoinRoom(db, code, playerId, account, joinedAt).Done?
    requires i in db.deadlines && db.deadlines[i].code == code && db.deadlines[i].kind.Disconnect?
    ensures var later := Store.Run(JoinRoom(db, code, playerId, account, joinedAt).db, txs);
            && !(i in later.deadlines && Applicable(later, i))
            && !(ProcessDeadline(later, now).Done? && ProcessDeadline(later, now).answer.Settled? && ProcessDeadline(later, now).answer.deadline == i)
  {
    hide RowsOk, ConnectionsOk, PresentOk, Linked, FundsOk, BoxOk, Announced, Next, ProcessDeadline, JoinRoom;
    var d := db.deadlines[i];
    var joined := JoinRoom(db, code, playerId, account, joinedAt).db;
    assert DeadlineOk(db.rooms, d) && i < db.nextDeadline;
    JoinKeepsOk(db, code, playerId, account, joinedAt);
    JoinPresence(db, code, playerId, account, joinedAt);
    JoinEvolves(db, code, playerId, account, joinedAt);
    GenerationsGrow(joined, txs, code, d.kind.role);
    DeadlinesKeepIdentity(joined, txs);
    var later := Store.Run(joined, txs);
    if ProcessDeadline(later, now).Done? && ProcessDeadline(later, now).answer.Settled? { SettledIsApplicable(later, now); }
  }

  // After a join both seats have a presence; one that was there is in its next
  // generation, and a new one is in the first, absent until it connects.
  lemma {:induction false} JoinPresence(db: Db, code: string, playerId: string, account: string, now: int)
    requires DbOk(db) && JoinRoom(db, code, playerId, account, now).Done?
    ensures var r := JoinRoom(db, code, playerId, account, now);
            && code in db.rooms && code in r.db.rooms && r.db.nextDeadline >= db.nextDeadline
            && forall role | role == Host || role == Guest ::
                 && role in r.db.rooms[code].presence
                 && var p := r.db.rooms[code].presence[role];
                    if role in db.rooms[code].presence
                    then p.generation == db.rooms[code].presence[role].generation + 1 && p.present == db.rooms[code].presence[role].present
                    else p.generation == 1 && !p.present
  {
    hide DbOk, Restorable, RowsOk, WellFormed, Saved, Persisted, JoinRoom, Stake, CanSeatGuest, Join, RoleOf, WithDeadline;
    RoomsOfDb(db);
    IdsBelowNext(db);
    JoinShape(db, code, playerId, account, now);
    JoinEvolves(db, code, playerId, account, now);
    var rows := db.rooms[code];
    var s := Persisted(code, rows);
    assert rows.(currentRound := 1) == rows;
    SavedKeepsPresence(SeatGuest(WithRoundFunded(rows, 1), playerId, account, JoinedPresence(rows.presence)),
                       s.(players := s.players + [Player(playerId, 0)]), 1, rows.revision + 1);
  }

  // ---- Reaping ----

  lemma {:induction false} PresentRoleIsConnected(db: Db, txs: seq<Tx>, code: string, role: Role)
    requires Reachable(db, txs) && code in db.rooms && role in db.rooms[code].presence && db.rooms[code].presence[role].present
    ensures exists c | c in db.connections :: db.connections[c].code == code && db.connections[c].role == role && db.connections[c].closedAt.None?
  {
    ReachableIsOk(db, txs);
    assert HasOpen(db.connections, code, role);
  }

  // The connections whose lease is over and that nobody closed.
  ghost function Overdue(db: Db, now: int): set<string> {
    set c | c in db.connections && db.connections[c].closedAt.None? && db.connections[c].leaseExpiresAt <= now
  }

  // ReapExpiredConnections: each is closed as of the end of its lease.
  ghost function Reaped(db: Db, ids: seq<string>, now: int): Db {
    if ids == [] then db else
      var before := Reaped(db, ids[..|ids| - 1], now);
      var id := ids[|ids| - 1];
      if id in db.connections then Committed(before, CloseConnection(before, id, db.connections[id].leaseExpiresAt, Some(now))) else before
  }

  predicate NoDuplicates(ids: seq<string>) {
    forall i, j | 0 <= i < j < |ids| :: ids[i] != ids[j]
  }

  lemma {:induction false} ClosesOne(db: Db, id: string, now: int)
    requires DbOk(db) && id in Overdue(db, now)
    ensures var r := CloseConnection(db, id, db.connections[id].leaseExpiresAt, Some(now));
            && r.Done? && r.answer && DbOk(r.db)
            && r.db.connections == db.connections[id := db.connections[id].(closedAt := Some(db.connections[id].leaseExpiresAt))]
  {
    hide RowsOk, PresentOk, Linked, FundsOk, BoxOk, Announced, LiveRole, WithDeadline, DeadlinesOk;
    CloseKeepsOk(db, id, db.connections[id].leaseExpiresAt, Some(now));
    PresenceIsSeated(db, db.connections[id].code);
  }

  lemma {:induction false} PresenceIsSeated(db: Db, code: string)
    requires DbOk(db)
    ensures code in db.rooms ==> db.rooms[code].presence.Keys <= db.rooms[code].seats.Keys
  {
    if code in db.rooms { assert RowsOk(db.rooms[code]); }
  }

  lemma {:induction false} ReapCloses(db: Db, ids: seq<string>, now: int)
    requires DbOk(db) && NoDuplicates(ids) && forall id | id in ids :: id in Overdue(db, now)
    ensures var after := Reaped(db, ids, now);
            && DbOk(after) && after.connections.Keys == db.connections.Keys
            && forall c | c in db.connections ::
                 after.connections[c] == if c in ids then db.connections[c].(closedAt := Some(db.connections[c].leaseExpiresAt)) else db.connections[c]
  {
    hide DbOk, CloseConnection;
    if ids != [] {
      var n := |ids| - 1;
      ReapCloses(db, ids[..n], now);
      assert ids == ids[..n] + [ids[n]] && ids[n] !in ids[..n];
      assert ids[n] in ids && Reaped(db, ids[..n], now).connections[ids[n]] == db.connections[ids[n]];
      ClosesOne(Reaped(db, ids[..n], now), ids[n], now);
    }
  }

  // After reaping, undisturbed, every role that is present holds a live lease.
  lemma {:induction false} ReapedPresenceIsLive(db: Db, ids: seq<string>, now: int, code: string, role: Role)
    requires DbOk(db) && NoDuplicates(ids) && forall id :: id in ids <==> id in Overdue(db, now)
    ensures var after := Reaped(db, ids, now);
            && Overdue(after, now) == {}
            && (code in after.rooms && role in after.rooms[code].presence && after.rooms[code].presence[role].present ==>
                  LiveRole(after, code, role, now))
  {
    hide RowsOk, Linked, FundsOk, BoxOk, Announced, DeadlinesOk, ConnectionsOk;
    ReapCloses(db, ids, now);
    var after := Reaped(db, ids, now);
    if code in after.rooms && role in after.rooms[code].presence && after.rooms[code].presence[role].present {
      assert HasOpen(after.connections, code, role);
      var c :| c in after.connections && after.connections[c].code == code && after.connections[c].role == role && after.connections[c].closedAt.None?;
      assert c !in Overdue(after, now);
    }
  }

  // ---- Renewing ----

  // A renewal needs an open connection of a valid session and a lease that is
  // not over yet. It gives the connection that lease and changes nothing else,
  // so its role is live, and the connection not overdue, until the lease ends.
  lemma {:induction false} RenewalLasts(db: Db, id: string, sessionValid: bool, now: int, lease: int)
    ensures RenewConnection(db, id, sessionValid, now, lease).Done? <==>
              lease > now && sessionValid && id in db.connections && db.connections[id].closedAt.None? && lease > db.connections[id].connectedAt
    ensures RenewConnection(db, id, sessionValid, now, lease).Done? ==>
              var after, c := RenewConnection(db, id, sessionValid, now, lease).db, db.connections[id];
              && after == db.(connections := after.connections) && after.connections.Keys == db.connections.Keys
              && (forall k | k in db.connections && k != id :: after.connections[k] == db.connections[k])
              && (forall t: int | t < lease :: LiveRole(after, c.code, c.role, t) && id !in Overdue(after, t))
              && (forall t: int | t >= lease :: id in Overdue(after, t))
  {
    if RenewConnection(db, id, sessionValid, now, lease).Done? {
      var after, c := RenewConnection(db, id, sessionValid, now, lease).db, db.connections[id];
      assert after.connections[id] == c.(leaseExpiresAt := lease);
      forall t: int | t < lease ensures LiveRole(after, c.code, c.role, t) {}
    }
  }

  // Connection `id` is open and leased at least until `until`.
  ghost predicate LeasedUntil(db: Db, id: string, until: int) {
    id in db.connections && db.connections[id].closedAt.None? && db.connections[id].leaseExpiresAt >= until
  }

  // The transaction neither closes connection `id`, except as expired before
  // `until`, nor renews it for less.
  predicate Spares(tx: Tx, id: string, until: int) {
    match tx
    case TxClose(c, _, expiredBy) => c == id ==> expiredBy.Some? && expiredBy.value < until
    case TxRenew(c, _, _, lease) => c == id ==> lease >= until
    case _ => true
  }

  lemma {:induction false} CallKeepsConnections(db: Db, account: string, key: string, call: Call, now: int)
    ensures var r := Effect(db, account, key, call, now); r.Done? ==> r.db.connections == db.connections
  {
    hide Saved, Persisted, Restorable, ViewOf, WithDeadline, Stake;
  }

  lemma {:induction false} ReconcileKeepsConnections(db: Db, code: string, round: nat, now: int)
    ensures var r := Reconcile(db, code, round, now); r.Some? && r.value.Done? ==> r.value.db.connections == db.connections
  {
    hide Saved, Persisted, Restorable, WithDeadline, Stake, Eligible, Keys.HintFits, Settle, WithCancelled;
  }

  lemma {:induction false} DeadlineKeepsConnections(db: Db, now: int)
    ensures var r := ProcessDeadline(db, now); r.Done? ==> r.db.connections == db.connections
  {
    hide Load, Saved, Restorable, Concluded, Verdict, Before, Due, Applicable, WithCancelled, Settle;
  }

  lemma {:induction false} OpenKeepsLease(db: Db, id: string, c: string, code: string, account: string, valid: bool, now: int, lease: int, until: int)
    requires LeasedUntil(db, id, until)
    ensures var r := OpenConnection(db, c, code, account, valid, now, lease);
            r.Done? ==> LeasedUntil(r.db, id, until) && r.db.connections[id] == db.connections[id]
  {
    hide RoleOf, WithCancelled;
  }

  lemma {:induction false} CloseKeepsLease(db: Db, id: string, c: string, at: int, expiredBy: Option<int>, until: int)
    requires LeasedUntil(db, id, until) && Spares(TxClose(c, at, expiredBy), id, until)
    ensures var r := CloseConnection(db, c, at, expiredBy);
            r.Done? ==> LeasedUntil(r.db, id, until) && r.db.connections[id] == db.connections[id]
  {
    hide LiveRole, WithDeadline;
  }

  lemma {:induction false} SparedStep(db: Db, tx: Tx, id: string, until: int)
    requires LeasedUntil(db, id, until) && Spares(tx, id, until)
    ensures LeasedUntil(Next(db, tx), id, until)
    ensures Next(db, tx).connections[id].code == db.connections[id].code && Next(db, tx).connections[id].role == db.connections[id].role
  {
    hide Effect, Reconcile, ProcessDeadline, OpenConnection, CloseConnection, Refusal;
    match tx {
      case TxCommand(account, command, call, now) => CallKeepsConnections(db, account, command.key, call, now);
      case TxReconcile(code, round, now) => ReconcileKeepsConnections(db, code, round, now);
      case TxDeadline(now) => DeadlineKeepsConnections(db, now);
      case TxOpen(c, code, account, valid, now, lease) => OpenKeepsLease(db, id, c, code, account, valid, now, lease, until);
      case TxClose(c, at, expiredBy) => CloseKeepsLease(db, id, c, at, expiredBy, until);
      case _ =>
    }
  }

  // Whatever runs meanwhile, a connection that was opened or renewed for a
  // lease keeps its role live until the lease ends, unless it is closed by
  // request or renewed for less: neither the reaper nor any cleanup takes it.
  lemma {:induction false} LeaseKeepsRoleLive(db: Db, txs: seq<Tx>, id: string, until: int)
    requires LeasedUntil(db, id, until) && forall i | 0 <= i < |txs| :: Spares(txs[i], id, until)
    ensures var after, c := Store.Run(db, txs), db.connections[id];
            && LeasedUntil(after, id, until) && after.connections[id].code == c.code && after.connections[id].role == c.role
            && forall t: int | t < until :: LiveRole(after, c.code, c.role, t) && id !in Overdue(after, t)
  {
    hide Next;
    if txs != [] {
      LeaseKeepsRoleLive(db, txs[..|txs| - 1], id, until);
      SparedStep(Store.Run(db, txs[..|txs| - 1]), txs[|txs| - 1], id, until);
    }
    var after := Store.Run(db, txs);
    forall t: int | t < until ensures LiveRole(after, after.connections[id].code, after.connections[id].role, t) {}
  }

  // Reaping before the lease ends does not close the connection.
  lemma {:induction false} ReapingSparesLeases(db: Db, ids: seq<string>, now: int, id: string, until: int)
    requires DbOk(db) && NoDuplicates(ids) && (forall c :: c in ids <==> c in Overdue(db, now)) && LeasedUntil(db, id, until)
    ensures now < until ==> id in Reaped(db, ids, now).connections && Reaped(db, ids, now).connections[id] == db.connections[id]
    ensures now >= db.connections[id].leaseExpiresAt ==>
              id in Reaped(db, ids, now).connections && Reaped(db, ids, now).connections[id].closedAt == Some(db.connections[id].leaseExpiresAt)
  {
    hide DbOk;
    ReapCloses(db, ids, now);
  }
}
