// The invariant of the whole database, and that every transaction keeps it.
module Invariant {
  import opened Prelude
  import opened Game
  import opened Ledger
  import opened Money
  import opened Tables
  import opened RowInvariant
  import opened Outbox
  import opened Store
  import Keys

  type Rooms = map<string, RoomRows>

  ghost predicate RoomsOk(rooms: Rooms) {
    forall c | c in rooms :: c != "" && RowsOk(rooms[c])
  }

  // ---- Money ----

  ghost predicate FundedRound(rooms: Rooms, key: RoundKey) {
    key.code in rooms && key.round in rooms[key.code].rounds && rooms[key.code].rounds[key.round].funded
  }

  ghost predicate ResolvedRound(rooms: Rooms, key: RoundKey) {
    key.code in rooms && key.round in rooms[key.code].rounds && rooms[key.code].rounds[key.round].status.Resolved?
  }

  ghost predicate RowMatches(rows: RoomRows, n: nat, row: HistoryRow) {
    && n in rows.rounds && Full(rows)
    && row.result == rows.rounds[n].result
    && (row.forfeited <==> rows.rounds[n].forfeitedRole.Some?)
    && row.host == rows.seats[Host].account && row.guest == rows.seats[Guest].account
  }

  // Escrows belong to the funded rounds and history rows to the resolved ones.
  ghost predicate Linked(rooms: Rooms, funds: Funds) {
    && (forall key :: FundedRound(rooms, key) <==> Escrow(key) in funds.book.balances)
    && (forall key :: ResolvedRound(rooms, key) <==> key in funds.history)
    && (forall key | key in funds.history :: RowMatches(rooms[key.code], key.round, funds.history[key]))
    && (forall c | c in rooms && Full(rooms[c]) ::
          User(rooms[c].seats[Host].account) in funds.book.balances && User(rooms[c].seats[Guest].account) in funds.book.balances)
  }

  // ---- Presence ----

  ghost predicate ConnectionOk(rooms: Rooms, k: Connection) {
    && k.code in rooms && k.role in rooms[k.code].presence
    && k.leaseExpiresAt > k.connectedAt
    && (k.closedAt.Some? ==> k.closedAt.value >= k.connectedAt)
  }

  ghost predicate HasOpen(connections: map<string, Connection>, code: string, role: Role) {
    exists c | c in connections :: connections[c].code == code && connections[c].role == role && connections[c].closedAt.None?
  }

  // A present role has a connection that was not closed.
  ghost predicate PresentOk(rooms: Rooms, connections: map<string, Connection>) {
    forall code, role | code in rooms && role in rooms[code].presence && rooms[code].presence[role].present ::
      HasOpen(connections, code, role)
  }

  ghost predicate DeadlineOk(rooms: Rooms, d: Deadline) {
    && d.code in rooms && d.round in rooms[d.code].rounds
    && (d.kind.Disconnect? ==> d.kind.role in rooms[d.code].presence && d.generation <= rooms[d.code].presence[d.kind.role].generation)
    && (d.kind.Inactivity? ==> d.generation == d.round && rooms[d.code].rounds[d.round].funded)
  }

  // No two deadlines of a room carry the same generation of the same kind; for
  // a disconnect the round does not matter.
  ghost predicate Distinct(d: Deadline, e: Deadline) {
    d.code != e.code || d.kind != e.kind || d.generation != e.generation
  }

  ghost predicate DeadlinesOk(rooms: Rooms, deadlines: map<nat, Deadline>, next: nat) {
    && (forall i | i in deadlines :: i < next && DeadlineOk(rooms, deadlines[i]))
    && (forall i, j | i in deadlines && j in deadlines && i != j :: Distinct(deadlines[i], deadlines[j]))
  }

  ghost predicate ConnectionsOk(rooms: Rooms, connections: map<string, Connection>) {
    forall c | c in connections :: ConnectionOk(rooms, connections[c])
  }

  // ---- Outbox ----

  // The revisions of a room run from 1, each with its one outbox row.
  ghost predicate Announced(rooms: Rooms, box: Box) {
    forall key :: key in Known(box) <==> key.code in rooms && 1 <= key.revision <= rooms[key.code].revision
  }

  ghost predicate DbOk(db: Db) {
    && RoomsOk(db.rooms)
    && FundsOk(db.funds) && Linked(db.rooms, db.funds)
    && ConnectionsOk(db.rooms, db.connections) && PresentOk(db.rooms, db.connections)
    && DeadlinesOk(db.rooms, db.deadlines, db.nextDeadline)
    && BoxOk(db.box) && Announced(db.rooms, db.box)
  }

  lemma {:induction false} EmptyDbOk()
    ensures DbOk(EmptyDb())
  {
    EmptyFundsOk();
  }

  // ---- Frames ----

  // The facts that money depends on.
  ghost predicate SameMoney(rows: RoomRows, after: RoomRows) {
    && after.rounds.Keys == rows.rounds.Keys
    && (forall n | n in rows.rounds ::
          && after.rounds[n].status == rows.rounds[n].status && after.rounds[n].funded == rows.rounds[n].funded
          && after.rounds[n].result == rows.rounds[n].result && after.rounds[n].forfeitedRole == rows.rounds[n].forfeitedRole)
    && SeatAccountsKept(rows, after)
  }

  lemma {:induction false} LinkedFrame(rooms: Rooms, funds: Funds, code: string, after: RoomRows)
    requires Linked(rooms, funds) && code in rooms && SameMoney(rooms[code], after)
    ensures Linked(rooms[code := after], funds)
  {
    var other := rooms[code := after];
    forall key ensures FundedRound(other, key) <==> FundedRound(rooms, key) {}
    forall key ensures ResolvedRound(other, key) <==> ResolvedRound(rooms, key) {}
    forall key | key in funds.history ensures RowMatches(other[key.code], key.round, funds.history[key]) {
      assert ResolvedRound(rooms, key);
    }
  }

  lemma {:induction false} LinkedMoreUsers(rooms: Rooms, funds: Funds, book: Book, owner: string)
    requires Linked(rooms, funds) && book.balances.Keys == funds.book.balances.Keys + {User(owner)}
    ensures Linked(rooms, funds.(book := book))
  {}

  // The presence rows kept or raised their generations, nobody became present,
  // and no round disappeared or lost its funding.
  ghost predicate KeepsPresence(rows: RoomRows, after: RoomRows) {
    && (forall role | role in rows.presence ::
          role in after.presence && rows.presence[role].generation <= after.presence[role].generation)
    && (forall role | role in after.presence && after.presence[role].present ::
          role in rows.presence && rows.presence[role].present)
    && rows.rounds.Keys <= after.rounds.Keys
    && (forall n | n in rows.rounds && rows.rounds[n].funded :: after.rounds[n].funded)
  }

  lemma {:induction false} PresenceFrame(db: Db, code: string, after: RoomRows)
    requires ConnectionsOk(db.rooms, db.connections) && PresentOk(db.rooms, db.connections)
    requires DeadlinesOk(db.rooms, db.deadlines, db.nextDeadline)
    requires code in db.rooms && KeepsPresence(db.rooms[code], after)
    ensures var rooms := db.rooms[code := after];
            && ConnectionsOk(rooms, db.connections) && PresentOk(rooms, db.connections)
            && DeadlinesOk(rooms, db.deadlines, db.nextDeadline)
  {
    var rooms := db.rooms[code := after];
    forall c | c in db.connections ensures ConnectionOk(rooms, db.connections[c]) {}
    forall i | i in db.deadlines ensures DeadlineOk(rooms, db.deadlines[i]) {}
    forall c, role | c in rooms && role in rooms[c].presence && rooms[c].presence[role].present
      ensures HasOpen(db.connections, c, role) {
      assert role in db.rooms[c].presence;
    }
  }

  lemma {:induction false} CancelledKeepsDeadlines(rooms: Rooms, deadlines: map<nat, Deadline>, next: nat, ids: set<nat>, now: int)
    requires DeadlinesOk(rooms, deadlines, next)
    ensures DeadlinesOk(rooms, WithCancelled(deadlines, ids, now), next)
  {}

  // The next revision of a room is announced: its row can always be inserted.
  lemma {:induction false} BumpKeeps(db: Db, code: string, revision: nat, now: int)
    requires BoxOk(db.box) && code in db.rooms && db.rooms[code].revision == revision && revision > 0
    requires forall key :: key in Known(db.box) <==>
               key.code in db.rooms && 1 <= key.revision <= db.rooms[key.code].revision - (if key.code == code then 1 else 0)
    ensures Bump(db, code, revision, now).Ok?
    ensures var after := Bump(db, code, revision, now).value; BoxOk(after.box) && Announced(after.rooms, after.box)
  {
    var key := RevisionKey(code, revision);
    assert key !in Known(db.box);
    StepKeepsBoxOk(db.box, Inserted(key, now));
  }

  // Changing a room to its next revision and announcing it.
  lemma {:induction false} RoomBump(db: Db, code: string, rows: RoomRows, now: int)
    requires BoxOk(db.box) && Announced(db.rooms, db.box) && code in db.rooms && rows.revision == db.rooms[code].revision + 1
    ensures var r := Bump(WithRoom(db, code, rows), code, rows.revision, now);
            r.Ok? && BoxOk(r.value.box) && Announced(r.value.rooms, r.value.box)
  {
    BumpKeeps(WithRoom(db, code, rows), code, rows.revision, now);
  }

  lemma {:induction false} WithDeadlineKeeps(db: Db, code: string, round: nat, kind: DeadlineKind, generation: nat, dueAt: int)
    requires DeadlinesOk(db.rooms, db.deadlines, db.nextDeadline)
    requires DeadlineOk(db.rooms, Deadline(code, round, kind, generation, dueAt, Pending, None))
    requires kind.Disconnect? ==> forall i | i in db.deadlines ::
               db.deadlines[i].code == code && db.deadlines[i].kind == kind ==> db.deadlines[i].generation != generation
    ensures var after := WithDeadline(db, code, round, kind, generation, dueAt);
            DeadlinesOk(after.rooms, after.deadlines, after.nextDeadline) && after == db.(deadlines := after.deadlines, nextDeadline := after.nextDeadline)
  {
    if !DeadlineKnown(db, code, round, kind, generation) {
      var d := Deadline(code, round, kind, generation, dueAt, Pending, None);
      forall i | i in db.deadlines ensures Distinct(db.deadlines[i], d) && Distinct(d, db.deadlines[i]) {}
    }
  }

  // The round of `key` was settled with outcome `o`.
  lemma {:induction false} LinkedSettled(rooms: Rooms, funds: Funds, code: string, after: RoomRows, o: Outcome, forfeited: bool, book: Book)
    requires Linked(rooms, funds) && code in rooms && Full(rooms[code]) && rooms[code].currentRound in rooms[code].rounds
    requires DecidedRows(rooms[code], after, o, forfeited)
    requires rooms[code].rounds[rooms[code].currentRound].funded
    requires book.balances.Keys == funds.book.balances.Keys
    ensures var rows := rooms[code];
            var row := RowOf(o, rows.seats[Host].account, rows.seats[Guest].account, forfeited);
            Linked(rooms[code := after], Funds(book, funds.history[RoundKey(code, rows.currentRound) := row]))
  {
    var rows := rooms[code];
    var key := RoundKey(code, rows.currentRound);
    var other := rooms[code := after];
    var history := funds.history[key := RowOf(o, rows.seats[Host].account, rows.seats[Guest].account, forfeited)];
    forall k ensures FundedRound(other, k) <==> FundedRound(rooms, k) {}
    forall k ensures ResolvedRound(other, k) <==> k in history {
      assert k != key ==> (ResolvedRound(other, k) <==> ResolvedRound(rooms, k));
    }
    forall k | k in history ensures RowMatches(other[k.code], k.round, history[k]) {
      if k != key { assert ResolvedRound(rooms, k) && RowMatches(rooms[k.code], k.round, funds.history[k]); }
    }
  }

  lemma {:induction false} SameRowMatches(rows: RoomRows, after: RoomRows, n: nat, row: HistoryRow)
    requires RowMatches(rows, n, row) && n in after.rounds && after.rounds[n] == rows.rounds[n]
    requires rows.seats.Keys <= after.seats.Keys
    requires forall role | role in rows.seats :: after.seats[role].account == rows.seats[role].account
    ensures RowMatches(after, n, row)
  {}

  // Round `n` of the room is funded now, by the accounts of its seats.
  lemma {:induction false} LinkedStaked(rooms: Rooms, funds: Funds, code: string, after: RoomRows, n: nat, book: Book)
    requires Linked(rooms, funds) && code in rooms && Full(after)
    requires rooms[code].seats.Keys <= after.seats.Keys
    requires forall role | role in rooms[code].seats :: after.seats[role].account == rooms[code].seats[role].account
    requires n in after.rounds && after.rounds[n] == FreshRound.(funded := true)
    requires after.rounds.Keys == rooms[code].rounds.Keys + {n}
    requires n in rooms[code].rounds ==> rooms[code].rounds[n].status.Active?
    requires forall m | m in rooms[code].rounds && m != n :: after.rounds[m] == rooms[code].rounds[m]
    requires book.balances.Keys == funds.book.balances.Keys
               + {User(after.seats[Host].account), User(after.seats[Guest].account), Escrow(RoundKey(code, n))}
    ensures Linked(rooms[code := after], funds.(book := book))
  {
    hide RowMatches, RowOf;
    var other := rooms[code := after];
    var key := RoundKey(code, n);
    forall k ensures FundedRound(other, k) <==> Escrow(k) in book.balances {
      assert k != key ==> (FundedRound(other, k) <==> FundedRound(rooms, k));
    }
    forall k ensures ResolvedRound(other, k) <==> ResolvedRound(rooms, k) {}
    forall k | k in funds.history ensures RowMatches(other[k.code], k.round, funds.history[k]) {
      assert ResolvedRound(rooms, k) && RowMatches(rooms[k.code], k.round, funds.history[k]);
      SameRowMatches(rooms[k.code], other[k.code], k.round, funds.history[k]);
    }
  }
}
