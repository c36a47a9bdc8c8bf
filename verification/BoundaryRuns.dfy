// Two runs of the database from its empty state: one after which a room can
// never be loaded again, and one after which the deadline worker never stops.
module BoundaryRuns {
  import opened Prelude
  import opened Game
  import opened Ledger
  import opened Money
  import opened Tables
  import opened Outbox
  import opened RowInvariant
  import opened Store
  import opened Invariant
  import opened Preservation
  import opened Simulation
  import opened Idempotency
  import opened DeadlineRuns
  import opened Safety

  import Keys

  // ---- Steps of a run ----

  function Commands(account: string, key: string, call: Call): Tx {
    TxCommand(account, Command(key, "", ""), call, 0)
  }

  ghost predicate At(db: Db, rooms: Rooms, connections: map<string, Connection>, deadlines: map<nat, Deadline>, keys: set<string>) {
    && DbOk(db) && db.rooms == rooms && db.connections == connections
    && db.deadlines == deadlines && db.nextDeadline == |deadlines| && db.receipts.Keys == keys
  }

  lemma {:induction false} RunThen(db: Db, txs: seq<Tx>, tx: Tx)
    ensures Store.Run(db, txs + [tx]) == Next(Store.Run(db, txs), tx)
  {
    hide Next;
    assert (txs + [tx])[..|txs|] == txs;
  }

  lemma {:induction false} RunOfTwo(db: Db, a: Tx, b: Tx)
    ensures Store.Run(db, [a, b]) == Next(Next(db, a), b)
  {
    hide Next;
    RunThen(db, [], a);
    RunThen(db, [a], b);
    assert [] + [a] == [a] && [a] + [b] == [a, b];
  }

  lemma {:induction false} RunOfThree(db: Db, a: Tx, b: Tx, c: Tx)
    ensures Store.Run(db, [a, b, c]) == Next(Next(Next(db, a), b), c)
  {
    hide Next;
    RunOfTwo(db, a, b);
    RunThen(db, [a, b], c);
    assert [a, b] + [c] == [a, b, c];
  }

  lemma {:induction false} RunFurther(db: Db, txs: seq<Tx>, more: seq<Tx>)
    ensures Store.Run(db, txs + more) == Store.Run(Store.Run(db, txs), more)
  {
    hide Next;
    if more == [] {
      assert txs + more == txs;
    } else {
      var shorter := more[..|more| - 1];
      RunFurther(db, txs, shorter);
      assert txs + more == (txs + shorter) + [more[|more| - 1]];
      RunThen(db, txs + shorter, more[|more| - 1]);
    }
  }

  lemma {:induction false} Executes(db: Db, account: string, key: string, call: Call)
    requires DbOk(db) && Refusal(account, call).None? && key !in db.receipts && Effect(db, account, key, call, 0).Done?
    ensures var n, done := Next(db, Commands(account, key, call)), Effect(db, account, key, call, 0).db;
            DbOk(n) && n == done.(receipts := n.receipts) && n.receipts.Keys == done.receipts.Keys + {key}
  {
    hide Effect, DbOk;
    NextKeepsOk(db, Commands(account, key, call));
  }

  lemma {:induction false} Recharges(db: Db, account: string, key: string)
    requires DbOk(db) && account != "" && key !in db.receipts && RechargeKey(account, key) !in Ledger.Keys(db.funds.book.log)
    ensures var n := Next(db, Commands(account, key, CallRecharge(50)));
            && DbOk(n) && n == db.(funds := n.funds, receipts := n.receipts) && n.receipts.Keys == db.receipts.Keys + {key}
            && Ledger.Keys(n.funds.book.log) == Ledger.Keys(db.funds.book.log) + {RechargeKey(account, key)}
            && Lookup(n.funds.book.balances, User(account)) == Lookup(db.funds.book.balances, User(account)) + 50
            && forall a | a != account :: Lookup(n.funds.book.balances, User(a)) == Lookup(db.funds.book.balances, User(a))
  {
    hide DbOk, Ledger.Keys, Sound, Next;
    SoundBook(db);
    var after := RechargeAccount(db, account, key, 50);
    RechargeMoves(db.funds.book, account, key, 50);
    Executes(db, account, key, CallRecharge(50));
  }

  lemma {:induction false} SoundBook(db: Db)
    requires DbOk(db)
    ensures Sound(db.funds.book) && Mint in db.funds.book.balances
  {
    hide RowsOk, ConnectionsOk, PresentOk, DeadlinesOk, Linked, BoxOk, Announced, Matched;
  }

  const Waiting1 := RoomRows(false, 1, 1, map[Host := Seat("p", "a", 0)], map[1 := FreshRound], map[], {}, map[])

  lemma {:induction false} Creates(db: Db, key: string, keys: set<string>)
    requires At(db, map[], map[], map[], keys) && key !in keys && Lookup(db.funds.book.balances, User("a")) >= RoundStake
    ensures var n := Next(db, Commands("a", key, CallCreate("R", "p")));
            && At(n, map["R" := Waiting1], map[], map[], keys + {key})
            && forall a :: Lookup(n.funds.book.balances, a) == Lookup(db.funds.book.balances, a)
  {
    hide DbOk, Next, ViewOf;
    NothingAnnounced(db);
    assert map[]["R" := Waiting1] == map["R" := Waiting1];
    Executes(db, "a", key, CallCreate("R", "p"));
  }

  lemma {:induction false} NothingAnnounced(db: Db)
    requires DbOk(db) && db.rooms == map[]
    ensures RevisionKey("R", 1) !in db.box.rows
  {
    hide RowsOk, ConnectionsOk, PresentOk, DeadlinesOk, Linked, FundsOk, BoxOk;
    assert RevisionKey("R", 1) in Known(db.box) ==> "R" in db.rooms;
  }

  // The next revision of the room was not announced yet.
  lemma {:induction false} NextRevisionIsNew(db: Db)
    requires DbOk(db) && "R" in db.rooms
    ensures RevisionKey("R", db.rooms["R"].revision + 1) !in db.box.rows
  {
    hide RowsOk, ConnectionsOk, PresentOk, DeadlinesOk, Linked, FundsOk, BoxOk;
    assert forall revision: nat | RevisionKey("R", revision) in Known(db.box) :: revision <= db.rooms["R"].revision;
  }

  function Present(rows: RoomRows, role: Role): RoomRows {
    rows.(presence := rows.presence[role := Presence(if role in rows.presence then rows.presence[role].generation else 1, true)],
          revision := rows.revision + 1)
  }

  lemma {:induction false} NobodyWaits(deadlines: map<nat, Deadline>, role: Role)
    requires forall i | i in deadlines && deadlines[i].status.Pending? :: deadlines[i].kind != Disconnect(role)
    ensures forall ids: set<nat> | (forall i | i in ids :: i in deadlines && deadlines[i].kind == Disconnect(role)) ::
              WithCancelled(deadlines, ids, 0) == deadlines
  {}

  lemma {:induction false} OpenedRoom(db: Db, rows: RoomRows, id: string, account: string, role: Role, lease: int)
    requires db.rooms == map["R" := rows] && RoleOf(rows, account) == Some(role) && id !in db.connections && lease > 0
    requires RevisionKey("R", rows.revision + 1) !in db.box.rows && (role in rows.presence ==> !rows.presence[role].present)
    requires forall i | i in db.deadlines && db.deadlines[i].status.Pending? :: db.deadlines[i].kind != Disconnect(role)
    ensures var r := OpenConnection(db, id, "R", account, true, 0, lease);
            r.Done? && var n := r.db;
            && n.rooms == map["R" := Present(rows, role)] && n.connections == db.connections[id := Connection("R", role, 0, lease, None)]
            && n == db.(rooms := n.rooms, connections := n.connections, box := n.box)
  {
    hide RoleOf, WithCancelled;
    NobodyWaits(db.deadlines, role);
    assert map["R" := rows]["R" := Present(rows, role)] == map["R" := Present(rows, role)];
  }

  lemma {:induction false} PresenceCommits(db: Db, id: string, account: string, lease: int)
    ensures Next(db, TxOpen(id, "R", account, true, 0, lease)) == Committed(db, OpenConnection(db, id, "R", account, true, 0, lease))
    ensures Next(db, TxClose(id, 5, None)) == Committed(db, CloseConnection(db, id, 5, None))
  {
    hide OpenConnection, CloseConnection;
  }

  lemma {:induction false} Opens(
    db: Db, rows: RoomRows, connections: map<string, Connection>, deadlines: map<nat, Deadline>, keys: set<string>, id: string, account: string, role: Role, lease: int)
    requires At(db, map["R" := rows], connections, deadlines, keys) && RoleOf(rows, account) == Some(role) && id !in connections && lease > 0
    requires (role in rows.presence ==> !rows.presence[role].present) && forall i | i in deadlines && deadlines[i].status.Pending? :: deadlines[i].kind != Disconnect(role)
    ensures var n := Next(db, TxOpen(id, "R", account, true, 0, lease));
            && At(n, map["R" := Present(rows, role)], connections[id := Connection("R", role, 0, lease, None)], deadlines, keys) && n.funds == db.funds
  {
    hide DbOk, RoleOf, Next, Present, OpenConnection;
    NextRevisionIsNew(db);
    NextKeepsOk(db, TxOpen(id, "R", account, true, 0, lease));
    OpenedRoom(db, rows, id, account, role, lease);
    PresenceCommits(db, id, account, lease);
  }

  function Absent(rows: RoomRows, role: Role): RoomRows
    requires role in rows.presence
  {
    rows.(presence := rows.presence[role := Presence(rows.presence[role].generation + 1, false)], revision := rows.revision + 1)
  }

  lemma {:induction false} ClosedRoom(db: Db, rows: RoomRows, id: string, role: Role)
    requires db.rooms == map["R" := rows] && role in rows.seats && role in rows.presence && rows.presence[role].present
    requires id in db.connections && db.connections[id] == Connection("R", role, 0, 10, None)
    requires forall k | k in db.connections && k != id :: db.connections[k].role != role
    requires RevisionKey("R", rows.revision + 1) !in db.box.rows
    requires var d := Deadline("R", rows.currentRound, Disconnect(role), rows.presence[role].generation + 1, 25, Pending, None);
             WithDeadline(db, "R", d.round, d.kind, d.generation, 25).deadlines == db.deadlines[db.nextDeadline := d] && db.nextDeadline !in db.deadlines
    ensures var r := CloseConnection(db, id, 5, None);
            r.Done? && var n := r.db;
            && n.rooms == map["R" := Absent(rows, role)] && n.connections == db.connections[id := Connection("R", role, 0, 10, Some(5))]
            && n.deadlines == db.deadlines[db.nextDeadline := Deadline("R", rows.currentRound, Disconnect(role), rows.presence[role].generation + 1, 25, Pending, None)]
            && n.nextDeadline == db.nextDeadline + 1
            && n == db.(rooms := n.rooms, connections := n.connections, deadlines := n.deadlines, nextDeadline := n.nextDeadline, box := n.box)
  {
    hide LiveRole, WithDeadline;
    var closed := db.(connections := db.connections[id := Connection("R", role, 0, 10, Some(5))]);
    NobodyLive(closed, role, 5);
    assert map["R" := rows]["R" := Absent(rows, role)] == map["R" := Absent(rows, role)];
    var generation := rows.presence[role].generation + 1;
    WithDeadlineFrame(db, WithRoom(closed, "R", Absent(rows, role)), "R", rows.currentRound, Disconnect(role), generation, 25);
    DeadlineIsAdded(db, "R", rows.currentRound, Disconnect(role), generation, 25);
  }

  lemma {:induction false} NobodyLive(db: Db, role: Role, at: int)
    requires forall k | k in db.connections && db.connections[k].role == role :: db.connections[k].closedAt.Some?
    ensures !LiveRole(db, "R", role, at)
  {}

  lemma {:induction false} DeadlineIsAdded(db: Db, code: string, round: nat, kind: DeadlineKind, generation: nat, dueAt: int)
    requires db.nextDeadline !in db.deadlines && db.nextDeadline in WithDeadline(db, code, round, kind, generation, dueAt).deadlines
    ensures WithDeadline(db, code, round, kind, generation, dueAt).nextDeadline == db.nextDeadline + 1
  {}

  lemma {:induction false} Closes(
    db: Db, rows: RoomRows, connections: map<string, Connection>, deadlines: map<nat, Deadline>, keys: set<string>, id: string, role: Role)
    requires At(db, map["R" := rows], connections, deadlines, keys) && role in rows.seats && role in rows.presence && rows.presence[role].present
    requires id in connections && connections[id] == Connection("R", role, 0, 10, None)
    requires forall k | k in connections && k != id :: connections[k].role != role
    ensures var n := Next(db, TxClose(id, 5, None));
            && At(n, map["R" := Absent(rows, role)], connections[id := Connection("R", role, 0, 10, Some(5))],
                  deadlines[|deadlines| := Deadline("R", rows.currentRound, Disconnect(role), rows.presence[role].generation + 1, 25, Pending, None)], keys)
            && n.funds == db.funds
  {
    hide DbOk, WithDeadline, Next, Absent, CloseConnection;
    NextRevisionIsNew(db);
    NextKeepsOk(db, TxClose(id, 5, None));
    NewDeadline(db, "R", role, 25);
    FreshId(db);
    ClosedRoom(db, rows, id, role);
    PresenceCommits(db, id, "", 0);
  }

  lemma {:induction false} FreshId(db: Db)
    requires DbOk(db)
    ensures db.nextDeadline !in db.deadlines
  {
    hide RowsOk, ConnectionsOk, PresentOk, Linked, FundsOk, BoxOk, Announced;
  }

  // ---- The worker that never stops ----

  const Creation := [Commands("a", "1", CallRecharge(50)), Commands("a", "2", CallCreate("R", "p"))]
  const HostVisit := [TxOpen("c", "R", "a", true, 0, 10), TxClose("c", 5, None)]
  const BlockingRun := Creation + HostVisit

  lemma {:induction false} RoomWaits()
    ensures At(Store.Run(EmptyDb(), Creation), map["R" := Waiting1], map[], map[], {"1", "2"})
  {
    hide DbOk, Next, Store.Run;
    EmptyDbOk();
    var one := Next(EmptyDb(), Commands("a", "1", CallRecharge(50)));
    RunOfTwo(EmptyDb(), Commands("a", "1", CallRecharge(50)), Commands("a", "2", CallCreate("R", "p")));
    Recharges(EmptyDb(), "a", "1");
    Creates(one, "2", {"1"});
  }

  lemma {:induction false} WorkerNeverStops(now: int, n: nat)
    requires now >= 25
    ensures var db := Store.Run(EmptyDb(), BlockingRun); DbOk(db) && DueIds(Drained(db, now, n), now) != {}
  {
    hide DbOk, CloseConnection, OpenConnection, Drained, DueIds, Store.Run;
    var db := Store.Run(EmptyDb(), Creation);
    RoomWaits();
    RunFurther(EmptyDb(), Creation, HostVisit);
    RunOfTwo(db, TxOpen("c", "R", "a", true, 0, 10), TxClose("c", 5, None));
    Opens(db, Waiting1, map[], map[], {"1", "2"}, "c", "a", Host, 10);
    HostGoneBlocksTheWorker(Next(db, TxOpen("c", "R", "a", true, 0, 10)), "c", 5, None, now);
  }

  // ---- The room that can never be loaded again ----

  const Joined := RoomRows(false, 1, 2, map[Host := Seat("p", "a", 0), Guest := Seat("q", "b", 0)], map[1 := FreshRound.(funded := true)],
                           map[], {}, map[Host := Presence(1, false), Guest := Presence(1, false)])

  const Inactive := Deadline("R", 1, Inactivity, 1, 30, Pending, None)

  lemma {:induction false} JoinSaves()
    ensures Waiting1.currentRound in Waiting1.rounds && JoinedTo("R", Waiting1, "q", "b") == Joined
    ensures Restorable(Persisted("R", Waiting1)) && WellFormed(Persisted("R", Waiting1)) && Join(Persisted("R", Waiting1), "q").Ok? && Persisted("R", Waiting1).round == 1
  {
    var s := Persisted("R", Waiting1);
    assert s.moves == map[] && s.requests == {};
    var after := JoinedTo("R", Waiting1, "q", "b");
    assert after.seats == Joined.seats && after.moves == Joined.moves && after.requests == Joined.requests;
    assert after.rounds == Joined.rounds && after.presence == Joined.presence;
  }

  lemma {:induction false} JoinSucceeds(db: Db)
    requires db.rooms == map["R" := Waiting1] && RevisionKey("R", 2) !in db.box.rows
    requires Stake(db.funds.book, RoundKey("R", 1), "a", "b").Ok?
    ensures JoinRoom(db, "R", "q", "b", 0).Done?
  {
    hide Stake, Persisted, Saved, Restorable, WellFormed, Game.Join, ViewOf, WithDeadline, FundRound;
    JoinSaves();
    FundedFirst(db, "R", "b", 0);
  }

  lemma {:induction false} FirstDeadline(db: Db)
    requires db.deadlines == map[] && db.nextDeadline == 0
    ensures WithDeadline(db, "R", 1, Inactivity, 1, 30) == db.(deadlines := map[0 := Inactive], nextDeadline := 1)
  {
    assert db.deadlines[0 := Inactive] == map[0 := Inactive];
  }

  lemma {:induction false} JoinedRoom(db: Db)
    requires DbOk(db) && db.rooms == map["R" := Waiting1] && JoinRoom(db, "R", "q", "b", 0).Done? && db.deadlines == map[] && db.nextDeadline == 0
    ensures var n := JoinRoom(db, "R", "q", "b", 0).db;
            && n.rooms == map["R" := Joined] && n.deadlines == map[0 := Inactive] && n.nextDeadline == 1
            && n.connections == db.connections && n.receipts == db.receipts
            && Stake(db.funds.book, RoundKey("R", 1), "a", "b") == Ok(n.funds.book)
  {
    hide DbOk, JoinRoom, Stake, Persisted, JoinedTo, WithDeadline, CanSeatGuest, WellFormed, Game.Join;
    RoomsOfDb(db);
    JoinSaves();
    JoinShape(db, "R", "q", "b", 0);
    var book := Stake(db.funds.book, RoundKey("R", 1), "a", "b").value;
    FirstDeadline(WithRoom(db, "R", WithRoundFunded(Waiting1, 1)).(funds := db.funds.(book := book)));
    assert db.rooms["R" := WithRoundFunded(Waiting1, 1)]["R" := Joined] == map["R" := Joined];
  }

  lemma {:induction false} Joins(db: Db, key: string, keys: set<string>)
    requires At(db, map["R" := Waiting1], map[], map[], keys) && key !in keys
    requires Lookup(db.funds.book.balances, User("a")) >= RoundStake && Lookup(db.funds.book.balances, User("b")) >= RoundStake
    ensures var n := Next(db, Commands("b", key, CallJoin("R", "q")));
            && At(n, map["R" := Joined], map[], map[0 := Inactive], keys + {key})
            && forall a | a == "a" || a == "b" :: Lookup(n.funds.book.balances, User(a)) == Lookup(db.funds.book.balances, User(a)) - RoundStake
  {
    hide DbOk, Next, JoinRoom, Stake, Ledger.Keys, Sound;
    SoundBook(db);
    Unstaked(db);
    StakeIffCanStake(db.funds.book, RoundKey("R", 1), "a", "b");
    NextRevisionIsNew(db);
    JoinSucceeds(db);
    JoinedRoom(db);
    StakeMoves(db.funds.book, RoundKey("R", 1), "a", "b");
    Executes(db, "b", key, CallJoin("R", "q"));
  }

  lemma {:induction false} Unstaked(db: Db)
    requires DbOk(db) && db.rooms == map["R" := Waiting1]
    ensures StakeKey(RoundKey("R", 1)) !in Ledger.Keys(db.funds.book.log)
  {
    hide RowsOk, ConnectionsOk, PresentOk, DeadlinesOk, Linked, FundsOk, BoxOk, Announced;
    SoundFunds(db.rooms, db.funds, RoundKey("R", 1));
  }

  function MovedBy(rows: RoomRows, role: Role, move: Move): RoomRows {
    rows.(moves := rows.moves[RoundRole(rows.currentRound, role) := move], revision := rows.revision + 1)
  }

  const Moved1 := MovedBy(Present(Present(Joined, Host), Guest), Host, Rock)

  lemma {:induction false} ShortHint()
    ensures Keys.HintFits("R", 1) && Keys.HintFits("R", 2)
  {}

  // The first round of the room is open and paid for, between "a" and "b".
  predicate Paid(rows: RoomRows) {
    && !rows.closed && rows.currentRound == 1 && rows.rounds == map[1 := FreshRound.(funded := true)]
    && Host in rows.seats && Guest in rows.seats && rows.seats[Host].account == "a" && rows.seats[Guest].account == "b"
  }

  function Account(role: Role): string {
    match role case Host => "a" case Guest => "b"
  }

  lemma {:induction false} MovedRoom(db: Db, rows: RoomRows, role: Role, move: Move)
    requires db.rooms == map["R" := rows] && Paid(rows) && RoundRole(1, role) !in rows.moves && RevisionKey("R", rows.revision + 1) !in db.box.rows
    ensures var r := RecordMove(db, "R", Account(role), move, 0);
            r.Done? && r.db.rooms == map["R" := MovedBy(rows, role, move)] && r.db == db.(rooms := r.db.rooms, box := r.db.box)
  {
    hide Keys.HintFits;
    ShortHint();
    assert db.rooms["R" := MovedBy(rows, role, move)] == map["R" := MovedBy(rows, role, move)];
  }

  lemma {:induction false} Moves(
    db: Db, rows: RoomRows, connections: map<string, Connection>, deadlines: map<nat, Deadline>, keys: set<string>, key: string, role: Role, move: Move)
    requires At(db, map["R" := rows], connections, deadlines, keys) && key !in keys && IsValidMove(move)
    requires Paid(rows) && RoundRole(1, role) !in rows.moves
    ensures var n := Next(db, Commands(Account(role), key, CallMove("R", move)));
            At(n, map["R" := MovedBy(rows, role, move)], connections, deadlines, keys + {key}) && n.funds == db.funds
  {
    hide DbOk, Next, RecordMove, MovedBy, Paid;
    NextRevisionIsNew(db);
    MovedRoom(db, rows, role, move);
    Executes(db, Account(role), key, CallMove("R", move));
  }

  const Seating := [Commands("a", "1", CallRecharge(50)), Commands("b", "2", CallRecharge(50)), Commands("a", "3", CallCreate("R", "p"))]
  const Playing := [Commands("b", "4", CallJoin("R", "q")), TxOpen("c", "R", "a", true, 0, 10), TxOpen("d", "R", "b", true, 0, 10)]
  const Moving := [Commands("a", "5", CallMove("R", Rock))]
  const Leaving := [TxClose("c", 5, None), TxClose("d", 5, None)]
  const UnloadableRun := Seating + Playing + Moving + Leaving + [TxDeadline(25)]

  const BothOpen := map["c" := Connection("R", Host, 0, 10, None), "d" := Connection("R", Guest, 0, 10, None)]
  const BothClosed := map["c" := Connection("R", Host, 0, 10, Some(5)), "d" := Connection("R", Guest, 0, 10, Some(5))]
  const BothGone := Absent(Absent(Moved1, Host), Guest)
  const TwoGraces := map[0 := Inactive, 1 := Deadline("R", 1, Disconnect(Host), 2, 25, Pending, None),
                         2 := Deadline("R", 1, Disconnect(Guest), 2, 25, Pending, None)]
  const FiveKeys := {"1", "2", "3", "4", "5"}

  lemma {:induction false} TwoHavePaid()
    ensures var db := Store.Run(EmptyDb(), Seating);
            && At(db, map["R" := Waiting1], map[], map[], {"1", "2", "3"})
            && Lookup(db.funds.book.balances, User("a")) == 50 && Lookup(db.funds.book.balances, User("b")) == 50
  {
    hide DbOk, Next, Store.Run;
    EmptyDbOk();
    var a, b := Commands("a", "1", CallRecharge(50)), Commands("b", "2", CallRecharge(50));
    RunOfThree(EmptyDb(), a, b, Commands("a", "3", CallCreate("R", "p")));
    Recharges(EmptyDb(), "a", "1");
    Recharges(Next(EmptyDb(), a), "b", "2");
    Creates(Next(Next(EmptyDb(), a), b), "3", {"1", "2"});
  }

  lemma {:induction false} BothArePresent()
    ensures At(Store.Run(EmptyDb(), Seating + Playing), map["R" := Present(Present(Joined, Host), Guest)], BothOpen, map[0 := Inactive], {"1", "2", "3", "4"})
  {
    hide DbOk, Next, Store.Run, At;
    var db := Store.Run(EmptyDb(), Seating);
    var four, inactive := {"1", "2", "3", "4"}, map[0 := Inactive];
    var join, open := Commands("b", "4", CallJoin("R", "q")), TxOpen("c", "R", "a", true, 0, 10);
    TwoHavePaid();
    RunFurther(EmptyDb(), Seating, Playing);
    RunOfThree(db, join, open, TxOpen("d", "R", "b", true, 0, 10));
    Joins(db, "4", {"1", "2", "3"});
    assert {"1", "2", "3"} + {"4"} == four;
    var none: map<string, Connection> := map[];
    Opens(Next(db, join), Joined, none, inactive, four, "c", "a", Host, 10);
    var one := none["c" := Connection("R", Host, 0, 10, None)];
    Opens(Next(Next(db, join), open), Present(Joined, Host), one, inactive, four, "d", "b", Guest, 10);
    assert one["d" := Connection("R", Guest, 0, 10, None)] == BothOpen;
  }

  lemma {:induction false} GoneRows()
    ensures Host in Moved1.seats && Moved1.currentRound == 1 && Moved1.presence == map[Host := Presence(1, true), Guest := Presence(1, true)]
    ensures var rows := Absent(Moved1, Host); Guest in rows.seats && rows.currentRound == 1 && Guest in rows.presence && rows.presence[Guest] == Presence(1, true)
  {}

  lemma {:induction false} PaidRows()
    ensures Paid(Joined) && Joined.moves == map[]
    ensures var rows := Present(Present(Joined, Host), Guest); Paid(rows) && rows.moves == map[]
  {}

  lemma {:induction false} HostHasMoved()
    ensures At(Store.Run(EmptyDb(), Seating + Playing + Moving), map["R" := Moved1], BothOpen, map[0 := Inactive], FiveKeys)
  {
    hide DbOk, Next, Store.Run, At, Present, Paid;
    var db := Store.Run(EmptyDb(), Seating + Playing);
    BothArePresent();
    PaidRows();
    RunThen(EmptyDb(), Seating + Playing, Commands("a", "5", CallMove("R", Rock)));
    Moves(db, Present(Present(Joined, Host), Guest), BothOpen, map[0 := Inactive], {"1", "2", "3", "4"}, "5", Host, Rock);
    assert {"1", "2", "3", "4"} + {"5"} == FiveKeys;
  }

  lemma {:induction false} HostHasLeft()
    ensures At(Store.Run(EmptyDb(), Seating + Playing + Moving + [Leaving[0]]), map["R" := Absent(Moved1, Host)],
               BothOpen["c" := Connection("R", Host, 0, 10, Some(5))], map[0 := Inactive, 1 := TwoGraces[1]], FiveKeys)
  {
    hide DbOk, Next, Store.Run, At, Absent;
    HostHasMoved();
    RunThen(EmptyDb(), Seating + Playing + Moving, Leaving[0]);
    GoneRows();
    var inactive := map[0 := Inactive];
    Closes(Store.Run(EmptyDb(), Seating + Playing + Moving), Moved1, BothOpen, inactive, FiveKeys, "c", Host);
    assert inactive[1 := TwoGraces[1]] == map[0 := Inactive, 1 := TwoGraces[1]];
  }

  lemma {:induction false} BothAreGone()
    ensures At(Store.Run(EmptyDb(), Seating + Playing + Moving + Leaving), map["R" := BothGone], BothClosed, TwoGraces, FiveKeys)
  {
    hide DbOk, Next, Store.Run, At, Absent;
    var before := Seating + Playing + Moving + [Leaving[0]];
    HostHasLeft();
    assert before + [Leaving[1]] == Seating + Playing + Moving + Leaving;
    RunThen(EmptyDb(), before, Leaving[1]);
    GoneRows();
    var hostClosed := BothOpen["c" := Connection("R", Host, 0, 10, Some(5))];
    var one := map[0 := Inactive, 1 := TwoGraces[1]];
    Closes(Store.Run(EmptyDb(), before), Absent(Moved1, Host), hostClosed, one, FiveKeys, "d", Guest);
    GoneMaps(hostClosed, one);
  }

  lemma {:induction false} GoneMaps(connections: map<string, Connection>, deadlines: map<nat, Deadline>)
    requires connections == BothOpen["c" := Connection("R", Host, 0, 10, Some(5))] && deadlines == map[0 := Inactive, 1 := TwoGraces[1]]
    ensures connections["d" := Connection("R", Guest, 0, 10, Some(5))] == BothClosed
    ensures deadlines[|deadlines| := Deadline("R", 1, Disconnect(Guest), 2, 25, Pending, None)] == TwoGraces
  {}

  lemma {:induction false} OneMove()
    ensures var s := Persisted("R", BothGone);
            && WellFormed(s) && Restorable(s) && s.moves == map["p" := Rock] && |s.moves| == 1 && !s.resolved && |s.players| == 2 && !s.closed
            && s.round == 1
  {}

  // Only the two grace periods are over, and both apply.
  lemma {:induction false} GracesAreOver(db: Db)
    requires db.rooms == map["R" := BothGone] && db.deadlines == TwoGraces
    ensures DueIds(db, 25) != {} && forall i | i in DueIds(db, 25) :: TwoGraces[i].code == "R" && DeadlineClaims(db, i)
    ensures ApplicableOfRoom(db, "R", 25) != {} && forall i | i in ApplicableOfRoom(db, "R", 25) :: TwoGraces[i].kind.Disconnect?
  {
    assert 1 in DueIds(db, 25);
    assert 1 in ApplicableOfRoom(db, "R", 25);
    assert forall i | i in TwoGraces && TwoGraces[i].dueAt <= 25 :: i == 1 || i == 2;
  }

  // Both grace periods are over, and nobody is there: the round is drawn.
  lemma {:induction false} DeadlineDraws(db: Db)
    requires At(db, map["R" := BothGone], BothClosed, TwoGraces, FiveKeys)
    ensures ProcessDeadline(db, 25).Done? && ProcessDeadline(db, 25).answer.Settled?
    ensures var a := ProcessDeadline(db, 25).answer; a.deadline in TwoGraces && TwoGraces[a.deadline].kind.Disconnect? && a.before == Persisted("R", BothGone)
  {
    hide DbOk, Persisted, Restorable, WellFormed, SaveAndSettle, Cancel, Concluded, Before, IsFirst, DueIds, ApplicableOfRoom, DueOfRoom, DeadlineClaims;
    OneMove();
    DeadlineKeepsOk(db, 25);
    GracesAreOver(db);
    FirstIsIn(db, DueIds(db, 25));
    FirstIsIn(db, ApplicableOfRoom(db, "R", 25));
    assert !LiveRole(db, "R", Host, 25) && !LiveRole(db, "R", Guest, 25);
  }

  lemma {:induction false} FirstIsIn(db: Db, ids: set<nat>)
    requires ids <= db.deadlines.Keys && ids != {}
    ensures First(db, ids) in ids
  {}

  lemma {:induction false} LostAfterDraw(db: Db)
    requires At(db, map["R" := BothGone], BothClosed, TwoGraces, FiveKeys)
    ensures var after := Next(db, TxDeadline(25)); DbOk(after) && "R" in after.rooms && !Loads(after, "R")
  {
    hide DbOk, ProcessDeadline, Persisted, Loads, Load, Follows, Applicable, Due, Verdict;
    NextKeepsOk(db, TxDeadline(25));
    DeadlineDraws(db);
    OneMove();
    DeadlineSpoilsExactly(db, 25);
    EveryTransactionFollowsTheAggregate(db, TxDeadline(25), "R");
    assert !LiveRole(db, "R", Host, 25) && !LiveRole(db, "R", Guest, 25);
  }

  lemma {:induction false} RoomIsLost()
    ensures var db := Store.Run(EmptyDb(), UnloadableRun); DbOk(db) && "R" in db.rooms && !Loads(db, "R")
  {
    hide DbOk, Store.Run, Next, At, Loads;
    BothAreGone();
    RunThen(EmptyDb(), Seating + Playing + Moving + Leaving, TxDeadline(25));
    LostAfterDraw(Store.Run(EmptyDb(), Seating + Playing + Moving + Leaving));
  }
}
