// Two runs of the database from its empty state in which it matters that the
// reconciliation comes late: a player leaves before the next round that both
// asked for, and a deadline forfeits a round that its player has won.
module LateRuns {
  import opened Prelude
  import opened Game
  import opened Ledger
  import opened Money
  import opened Tables
  import opened RowInvariant
  import opened Outbox
  import opened Store
  import opened Invariant
  import opened Preservation
  import opened Simulation
  import opened Idempotency
  import opened DeadlineRuns
  import opened BoundaryRuns
  import opened DelayedReconciliation

  import Keys
  import Reconciliation

  const Inactivities := map[0 := Inactive]
  const FourKeys := {"1", "2", "3", "4"}

  // ---- Payouts ----

  // Settling a round pays both players their shares of it.
  lemma {:induction false} PaidOut(db: Db, funds: Funds, o: Outcome, forfeited: bool)
    requires DbOk(db) && "R" in db.rooms && OpenRound(db.rooms["R"])
    requires var rows := db.rooms["R"];
             Ok(funds) == Settle(db.funds, RoundKey("R", rows.currentRound), rows.seats[Host].account, rows.seats[Guest].account, o, forfeited)
    ensures var rows := db.rooms["R"];
            forall role | role == Host || role == Guest ::
              var a := rows.seats[role].account;
              Lookup(funds.book.balances, User(a)) == Lookup(db.funds.book.balances, User(a))
                + if o.Draw? then RoundStake else if (o.PlayerTwoWins? <==> role.Guest?) then WinnerPayout else 0
  {
    hide RowsOk, ConnectionsOk, PresentOk, DeadlinesOk, BoxOk, Announced, Linked, FundsOk, Settle, Sound, Ledger.Keys;
    OpenRoundCanSettle(db.rooms, db.funds, "R");
    var rows := db.rooms["R"];
    SettleMoves(db.funds, RoundKey("R", rows.currentRound), rows.seats[Host].account, rows.seats[Guest].account, o, forfeited);
  }

  // ---- Leaving before the next round ----

  const Sitting := Seating + [Commands("b", "4", CallJoin("R", "q"))]
  const EvenMoves := [Commands("a", "5", CallMove("R", Rock)), Commands("b", "6", CallMove("R", Rock))]
  const Asking := [TxReconcile("R", 1, 0), Commands("a", "7", CallNextRound("R", 1)), Commands("b", "8", CallNextRound("R", 1))]
  const WaitingRun := Sitting + EvenMoves + Asking

  const BothRock := MovedBy(MovedBy(Joined, Host, Rock), Guest, Rock)
  const SixKeys := FourKeys + {"5"} + {"6"}

  lemma {:induction false} BothSit()
    ensures var db := Store.Run(EmptyDb(), Sitting);
            && At(db, map["R" := Joined], map[], Inactivities, FourKeys)
            && Lookup(db.funds.book.balances, User("a")) == 0 && Lookup(db.funds.book.balances, User("b")) == 0
  {
    hide DbOk, Next, Store.Run;
    TwoHavePaid();
    RunThen(EmptyDb(), Seating, Commands("b", "4", CallJoin("R", "q")));
    Joins(Store.Run(EmptyDb(), Seating), "4", {"1", "2", "3"});
    assert {"1", "2", "3"} + {"4"} == FourKeys;
  }

  lemma {:induction false} StillPaid(rows: RoomRows, role: Role, move: Move)
    requires Paid(rows)
    ensures Paid(MovedBy(rows, role, move)) && MovedBy(rows, role, move).moves == rows.moves[RoundRole(1, role) := move]
  {}

  lemma {:induction false} EvenlyMoved()
    ensures var db := Store.Run(EmptyDb(), Sitting + EvenMoves);
            && At(db, map["R" := BothRock], map[], Inactivities, SixKeys)
            && Lookup(db.funds.book.balances, User("a")) == 0 && Lookup(db.funds.book.balances, User("b")) == 0
  {
    hide DbOk, Next, Store.Run, At, MovedBy, Paid;
    var db := Store.Run(EmptyDb(), Sitting);
    BothSit();
    PaidRows();
    RunFurther(EmptyDb(), Sitting, EvenMoves);
    RunOfTwo(db, EvenMoves[0], EvenMoves[1]);
    StillPaid(Joined, Host, Rock);
    Moves(db, Joined, map[], Inactivities, FourKeys, "5", Host, Rock);
    Moves(Next(db, EvenMoves[0]), MovedBy(Joined, Host, Rock), map[], Inactivities, FourKeys + {"5"}, "6", Guest, Rock);
  }

  // The first round is over, its requests are `requests`, and both players can
  // pay the next one.
  ghost predicate RoundOver(db: Db, requests: set<RoundRole>, keys: set<string>) {
    && DbOk(db) && "R" in db.rooms && Loads(db, "R") && db.receipts.Keys == keys
    && Over(db.rooms["R"], requests) && CanStake(db.funds.book, "a", "b")
  }

  predicate Over(rows: RoomRows, requests: set<RoundRole>) {
    && !rows.closed && rows.currentRound == 1 && 1 in rows.rounds && rows.rounds[1].status.Resolved? && rows.rounds[1].funded
    && Host in rows.seats && Guest in rows.seats && rows.seats[Host].account == "a" && rows.seats[Guest].account == "b"
    && rows.requests == requests
  }

  lemma {:induction false} EvenRows(db: Db)
    requires db.rooms == map["R" := BothRock]
    ensures Eligible(db, "R", 1) == Some(Resolving) && OpenRound(BothRock) && BothRock.requests == {}
    ensures var s := Persisted("R", BothRock); BothMovesIn(s) && MovesOutcome(s) == Draw
    ensures BothRock.currentRound in BothRock.rounds && Persisted("R", BothRock).round == 1
    ensures BothRock.seats[Host].account == "a" && BothRock.seats[Guest].account == "b" && !BothRock.closed && BothRock.currentRound == 1
  {}

  lemma {:induction false} DrawnRows(after: RoomRows)
    requires DecidedRows(BothRock, after, Draw, false)
    ensures Over(after, {})
  {}

  lemma {:induction false} ReconcileCommits(db: Db, now: int)
    ensures var r := Reconcile(db, "R", 1, now); r.Some? ==> Next(db, TxReconcile("R", 1, now)) == Committed(db, r.value)
  {
    hide Reconcile;
  }

  // What reconciling the two moves of the first round commits.
  lemma {:induction false} MovesDecide(db: Db, rows: RoomRows, o: Outcome, now: int)
    requires DbOk(db) && db.rooms == map["R" := rows] && rows.currentRound in rows.rounds && Persisted("R", rows).round == 1
    requires Eligible(db, "R", 1) == Some(Resolving) && BothMovesIn(Persisted("R", rows)) && MovesOutcome(Persisted("R", rows)) == o
    ensures OpenRound(rows) && rows.currentRound == 1
    ensures var after := Next(db, TxReconcile("R", 1, now));
            && DbOk(after) && "R" in after.rooms && DecidedRows(rows, after.rooms["R"], o, false) && after.receipts == db.receipts
            && Ok(after.funds) == Settle(db.funds, RoundKey("R", 1), rows.seats[Host].account, rows.seats[Guest].account, o, false)
  {
    hide DbOk, Persisted, MovesOutcome, DecidedRows, Settle, Resolve, Load, Eligible, Keys.HintFits, OpenRound, RowOf, WellFormed, BothMovesIn, Next, Reconcile;
    ShortHint();
    RoomsOfDb(db);
    ResolvableMoves(db, "R", 1);
    ResolveKeepsOk(db, "R", 1, now);
    ReconcileKeepsOk(db, "R", 1, now);
    ReconciledByResolving(db, "R", 1, now);
    ReconcileKeepsReceipts(db, "R", 1, now);
    ReconcileCommits(db, now);
  }

  lemma {:induction false} RoundIsDrawn(db: Db)
    requires At(db, map["R" := BothRock], map[], Inactivities, SixKeys)
    requires Lookup(db.funds.book.balances, User("a")) == 0 && Lookup(db.funds.book.balances, User("b")) == 0
    ensures RoundOver(Next(db, TxReconcile("R", 1, 0)), {}, SixKeys)
  {
    hide DbOk, Persisted, MovesOutcome, DecidedRows, Settle, Load, Eligible, MovedBy, OpenRound, Over, Next, Loads, BothMovesIn;
    EvenRows(db);
    MovesDecide(db, BothRock, Draw, 0);
    var after := Next(db, TxReconcile("R", 1, 0));
    PaidOut(db, after.funds, Draw, false);
    ResolvesIffLoads(db);
    OnlyDeadlinesSpoil(db, TxReconcile("R", 1, 0), "R");
    DrawnRows(after.rooms["R"]);
  }

  lemma {:induction false} ResolvesIffLoads(db: Db)
    requires DbOk(db) && Eligible(db, "R", 1) == Some(Resolving)
    ensures Loads(db, "R")
  {
    hide DbOk, Eligible, Load, Resolve, DecidedRows, Settle, MovesOutcome, RowOf;
    EligibleRoom(db, "R", 1);
    ResolveKeepsOk(db, "R", 1, 0);
  }

  lemma {:induction false} RoleOfAccount(rows: RoomRows, requests: set<RoundRole>, role: Role)
    requires Over(rows, requests)
    ensures RoleOf(rows, Account(role)) == Some(role)
  {}

  lemma {:induction false} RequestIsRecorded(db: Db, rows: RoomRows, requests: set<RoundRole>, role: Role)
    requires "R" in db.rooms && db.rooms["R"] == rows && Over(rows, requests) && RoundRole(1, role) !in requests
    requires RevisionKey("R", rows.revision + 1) !in db.box.rows && RoleOf(rows, Account(role)) == Some(role)
    ensures RecordRequest(db, "R", Account(role), 1, 0).Done?
  {
    hide Keys.HintFits, RoleOf;
    ShortHint();
  }

  lemma {:induction false} OverWithRequest(rows: RoomRows, requests: set<RoundRole>, role: Role)
    requires Over(rows, requests)
    ensures Over(rows.(requests := rows.requests + {RoundRole(rows.currentRound, role)}, revision := rows.revision + 1), requests + {RoundRole(1, role)})
  {}

  lemma {:induction false} Asks(db: Db, requests: set<RoundRole>, keys: set<string>, key: string, role: Role)
    requires RoundOver(db, requests, keys) && key !in keys && RoundRole(1, role) !in requests
    ensures RoundOver(Next(db, Commands(Account(role), key, CallNextRound("R", 1))), requests + {RoundRole(1, role)}, keys + {key})
  {
    hide DbOk, Over, Loads, Next, RecordRequest, Persisted, RequestNextRound, WellFormed, RoleOf, Account;
    var rows := db.rooms["R"];
    NextRevisionIsNew(db);
    RoleOfAccount(rows, requests, role);
    RequestIsRecorded(db, rows, requests, role);
    RequestEffect(db, "R", Account(role), 1, 0);
    RequestKeepsReceipts(db, Account(role));
    SomeAccount(role);
    Executes(db, Account(role), key, CallNextRound("R", 1));
    OverWithRequest(rows, requests, role);
    OnlyDeadlinesSpoil(db, Commands(Account(role), key, CallNextRound("R", 1)), "R");
  }

  lemma {:induction false} SomeAccount(role: Role)
    ensures Account(role) != ""
  {}

  lemma {:induction false} RequestKeepsReceipts(db: Db, account: string)
    ensures var r := RecordRequest(db, "R", account, 1, 0); r.Done? ==> r.db.receipts == db.receipts
  {
    hide ActionRole, Keys.HintFits;
  }

  const BothRequests := {RoundRole(1, Host), RoundRole(1, Guest)}
  const EightKeys := SixKeys + {"7"} + {"8"}

  lemma {:induction false} NewKeys()
    ensures "7" !in SixKeys && "8" !in SixKeys + {"7"}
  {}

  lemma {:induction false} BothAsk(db: Db)
    requires RoundOver(db, {}, SixKeys)
    ensures RoundOver(Next(Next(db, Asking[1]), Asking[2]), BothRequests, EightKeys)
  {
    hide Next, RoundOver, SixKeys;
    NewKeys();
    Asks(db, {}, SixKeys, "7", Host);
    assert {} + {RoundRole(1, Host)} == {RoundRole(1, Host)};
    Asks(Next(db, Asking[1]), {RoundRole(1, Host)}, SixKeys + {"7"}, "8", Guest);
    assert {RoundRole(1, Host)} + {RoundRole(1, Guest)} == BothRequests;
  }

  lemma {:induction false} BothAsked()
    ensures RoundOver(Store.Run(EmptyDb(), WaitingRun), BothRequests, EightKeys)
  {
    hide DbOk, Next, Store.Run, RoundOver, At;
    var db := Store.Run(EmptyDb(), Sitting + EvenMoves);
    EvenlyMoved();
    RunFurther(EmptyDb(), Sitting + EvenMoves, Asking);
    RunOfThree(db, Asking[0], Asking[1], Asking[2]);
    RoundIsDrawn(db);
    BothAsk(Next(db, Asking[0]));
  }

  const Departure := Commands("a", "9", CallLeave("R"))
  const NextRoundStarts := TxReconcile("R", 1, 0)

  lemma {:induction false} ReadyToAdvance(db: Db)
    requires RoundOver(db, BothRequests, EightKeys)
    ensures Eligible(db, "R", 1) == Some(Advancing) && Reconcile(db, "R", 1, 0).Some? && Reconcile(db, "R", 1, 0).value.Done?
    ensures RoleOf(db.rooms["R"], "a") == Some(Host) && db.rooms["R"].currentRound == 1 && Departure.command.key !in db.receipts
  {
    hide DbOk, Loads, Reconcile, Keys.HintFits, Load;
    ShortHint();
    assert Account(Host) == "a";
    RoleOfAccount(db.rooms["R"], BothRequests, Host);
    ReconcileKeepsOk(db, "R", 1, 0);
    LoadsMeansLoad(db);
  }

  lemma {:induction false} LoadsMeansLoad(db: Db)
    requires Loads(db, "R")
    ensures Load(db, "R").Ok?
  {
    hide Load;
  }

  lemma {:induction false} BothAreStored(db: Db)
    requires RoundOver(db, BothRequests, EightKeys)
    ensures db.rooms["R"].currentRound in db.rooms["R"].rounds && BothRequestsIn(Stored(db, "R")) && Stored(db, "R").round == 1
  {
    hide DbOk, Loads, WellFormed;
    StoredIsWellFormed(db, "R");
    assert RoundOk(db.rooms["R"].rounds[1]);
  }

  lemma {:induction false} QuitsFirst(db: Db)
    requires RoundOver(db, BothRequests, EightKeys)
    ensures var left := Store.Run(db, [Departure, NextRoundStarts]); "R" in left.rooms && left.rooms["R"].closed && left.rooms["R"].currentRound == 1
  {
    hide DbOk, Reconcile, Eligible, Load, Loads, RoleOf, Over, Next, Persisted, BothRequestsIn;
    ReadyToAdvance(db);
    LoadsMeansLoad(db);
    BothAreStored(db);
    var txs := [Departure, NextRoundStarts];
    var s := Stored(db, "R");
    LateRequestsWait(db, txs, "R");
    NothingRan(db, "R");
    assert txs[..0] == [];
    assert QuitAt(db, txs, "R", s, 0);
    StoredRound(Store.Run(db, txs), "R");
  }

  lemma {:induction false} AdvancesFirst(db: Db)
    requires RoundOver(db, BothRequests, EightKeys)
    ensures var played := Store.Run(db, [NextRoundStarts, Departure]); "R" in played.rooms && !played.rooms["R"].closed && played.rooms["R"].currentRound == 2
  {
    hide DbOk, Reconcile, Eligible, Loads, RoleOf, Over, Next, LeaveRoom, AdvancedRows;
    ReadyToAdvance(db);
    LeavingBeatsTheAdvance(db, "R", "a", 0);
    AdvancedRoom(db, "R", 0);
    Reconciliation.TransitionRows(db, "R", 1, 0);
    var after := Next(db, NextRoundStarts);
    ReconcileCommits(db, 0);
    AdvancedRoundNumber(db.rooms["R"], after.rooms["R"]);
    RunOfTwo(db, NextRoundStarts, Departure);
    RefusedLeave(after);
  }

  lemma {:induction false} RefusedLeave(db: Db)
    requires LeaveRoom(db, "R", "a", 0).Failed?
    ensures Next(db, Departure).rooms == db.rooms
  {
    hide LeaveRoom;
  }

  // Both players asked for the next round, which both can pay. If one of them
  // leaves before the room is reconciled, the room is closed and the next round
  // never starts; in the other order it starts, and leaving is refused.
  lemma {:induction false} LeavingLosesTheNextRound()
    ensures var db := Store.Run(EmptyDb(), WaitingRun); DbOk(db) && "R" in db.rooms && Eligible(db, "R", 1) == Some(Advancing)
    ensures var left := Store.Run(EmptyDb(), WaitingRun + [Departure, NextRoundStarts]);
            "R" in left.rooms && left.rooms["R"].closed && left.rooms["R"].currentRound == 1
    ensures var played := Store.Run(EmptyDb(), WaitingRun + [NextRoundStarts, Departure]);
            "R" in played.rooms && !played.rooms["R"].closed && played.rooms["R"].currentRound == 2
  {
    hide DbOk, Store.Run, Eligible, Over, Loads;
    BothAsked();
    var db := Store.Run(EmptyDb(), WaitingRun);
    ReadyToAdvance(db);
    QuitsFirst(db);
    AdvancesFirst(db);
    RunFurther(EmptyDb(), WaitingRun, [Departure, NextRoundStarts]);
    RunFurther(EmptyDb(), WaitingRun, [NextRoundStarts, Departure]);
  }

  // ---- A forfeit of the winner ----

  const Visits := [Commands("b", "4", CallJoin("R", "q")), TxOpen("c", "R", "a", true, 0, 10), TxOpen("d", "R", "b", true, 0, 100)]
  const UnequalMoves := [Commands("a", "5", CallMove("R", Rock)), Commands("b", "6", CallMove("R", Scissors))]
  const WinnerGone := [TxClose("c", 5, None)]
  const WonRun := Seating + Visits + UnequalMoves + WinnerGone

  const Attended := Present(Present(Joined, Host), Guest)
  const RockWins := MovedBy(MovedBy(Attended, Host, Rock), Guest, Scissors)
  const Connected := map["c" := Connection("R", Host, 0, 10, None), "d" := Connection("R", Guest, 0, 100, None)]
  const GuestConnected := Connected["c" := Connection("R", Host, 0, 10, Some(5))]
  const OneGrace := Inactivities[1 := Deadline("R", 1, Disconnect(Host), 2, 25, Pending, None)]

  lemma {:induction false} BothEnter(db: Db)
    requires At(db, map["R" := Joined], map[], Inactivities, FourKeys)
    ensures var n := Next(Next(db, Visits[1]), Visits[2]); At(n, map["R" := Attended], Connected, Inactivities, FourKeys) && n.funds == db.funds
  {
    hide DbOk, Next, At;
    var none: map<string, Connection> := map[];
    Opens(db, Joined, none, Inactivities, FourKeys, "c", "a", Host, 10);
    var one := none["c" := Connection("R", Host, 0, 10, None)];
    Opens(Next(db, Visits[1]), Present(Joined, Host), one, Inactivities, FourKeys, "d", "b", Guest, 100);
    assert one["d" := Connection("R", Guest, 0, 100, None)] == Connected;
  }

  lemma {:induction false} Visited()
    ensures var db := Store.Run(EmptyDb(), Seating + Visits);
            && At(db, map["R" := Attended], Connected, Inactivities, FourKeys)
            && Lookup(db.funds.book.balances, User("a")) == 0 && Lookup(db.funds.book.balances, User("b")) == 0
  {
    hide DbOk, Next, Store.Run, Present, At;
    var db := Store.Run(EmptyDb(), Sitting);
    BothSit();
    assert Seating + Visits == Sitting + [Visits[1], Visits[2]];
    RunFurther(EmptyDb(), Sitting, [Visits[1], Visits[2]]);
    RunOfTwo(db, Visits[1], Visits[2]);
    BothEnter(db);
  }

  lemma {:induction false} UnequallyMoved()
    ensures var db := Store.Run(EmptyDb(), Seating + Visits + UnequalMoves);
            && At(db, map["R" := RockWins], Connected, Inactivities, SixKeys)
            && Lookup(db.funds.book.balances, User("a")) == 0 && Lookup(db.funds.book.balances, User("b")) == 0
  {
    hide DbOk, Next, Store.Run, At, MovedBy, Paid, Present;
    var db := Store.Run(EmptyDb(), Seating + Visits);
    Visited();
    PaidRows();
    RunFurther(EmptyDb(), Seating + Visits, UnequalMoves);
    RunOfTwo(db, UnequalMoves[0], UnequalMoves[1]);
    StillPaid(Attended, Host, Rock);
    Moves(db, Attended, Connected, Inactivities, FourKeys, "5", Host, Rock);
    Moves(Next(db, UnequalMoves[0]), MovedBy(Attended, Host, Rock), Connected, Inactivities, FourKeys + {"5"}, "6", Guest, Scissors);
  }

  lemma {:induction false} WinnerRows()
    ensures Host in RockWins.seats && Host in RockWins.presence && RockWins.presence[Host] == Presence(1, true) && RockWins.currentRound == 1
  {}

  lemma {:induction false} WinnerIsGone()
    ensures var db := Store.Run(EmptyDb(), WonRun);
            && At(db, map["R" := Absent(RockWins, Host)], GuestConnected, OneGrace, SixKeys)
            && Lookup(db.funds.book.balances, User("a")) == 0 && Lookup(db.funds.book.balances, User("b")) == 0
  {
    hide DbOk, Next, Store.Run, At, Absent, RockWins;
    UnequallyMoved();
    WinnerRows();
    RunThen(EmptyDb(), Seating + Visits + UnequalMoves, WinnerGone[0]);
    Closes(Store.Run(EmptyDb(), Seating + Visits + UnequalMoves), RockWins, Connected, Inactivities, SixKeys, "c", Host);
  }

  lemma {:induction false} WonRows()
    ensures var rows := Absent(RockWins, Host);
            && rows.currentRound == 1 && rows.currentRound in rows.rounds && Host in rows.seats && Guest in rows.seats
            && rows.seats[Host].account == "a" && rows.seats[Guest].account == "b"
            && var s := Persisted("R", rows);
               BothMovesIn(s) && MovesOutcome(s) == PlayerOneWins
  {}

  lemma {:induction false} WonIsEligible(db: Db)
    requires db.rooms == map["R" := Absent(RockWins, Host)]
    ensures Eligible(db, "R", 1) == Some(Resolving)
  {}

  // The host's grace period is over before the time of the round is.
  lemma {:induction false} GraceIsOver(db: Db, now: int)
    requires db.rooms == map["R" := Absent(RockWins, Host)] && db.deadlines == OneGrace && db.connections == GuestConnected && 25 <= now < 100
    ensures IsFirst(db, DueIds(db, now), 1) && DeadlineClaims(db, 1) && IsFirst(db, ApplicableOfRoom(db, "R", now), 1)
    ensures !LiveRole(db, "R", Host, now) && LiveRole(db, "R", Guest, now)
  {
    assert "d" in db.connections;
    assert OneGrace.Keys == {0, 1};
  }

  lemma {:induction false} OnlyOneIsFirst(db: Db, ids: set<nat>, i: nat)
    requires ids <= db.deadlines.Keys && IsFirst(db, ids, i)
    ensures ids != {} && First(db, ids) == i
  {
    assert i in ids;
    assert IsFirst(db, ids, First(db, ids));
  }

  // The coins that the two players hold.
  ghost predicate Hold(db: Db, host: int, guest: int) {
    Lookup(db.funds.book.balances, User("a")) == host && Lookup(db.funds.book.balances, User("b")) == guest
  }

  // The grace period of a host who is gone is over, and the guest is there.
  ghost predicate HostForfeits(db: Db, now: int) {
    && !LiveRole(db, "R", Host, now) && LiveRole(db, "R", Guest, now) && DueIds(db, now) != {}
    && var first := First(db, DueIds(db, now));
       && db.deadlines[first].code == "R" && DeadlineClaims(db, first) && ApplicableOfRoom(db, "R", now) != {}
       && db.deadlines[First(db, ApplicableOfRoom(db, "R", now))].kind == Disconnect(Host)
  }

  lemma {:induction false} HostIsForfeited(db: Db, s: RoomState, now: int)
    requires DbOk(db) && StillStored(db, "R", s) && BothMovesIn(s) && HostForfeits(db, now)
    ensures Overrules(db, TxDeadline(now), "R")
    ensures var r := ProcessDeadline(db, now); r.Done? && r.answer.Settled? && r.answer.after.result == PlayerTwoWins
  {
    hide DbOk, ProcessDeadline, Persisted, WellFormed, MovesOutcome, Verdict, DeadlineClaims, LiveRole, DueIds, ApplicableOfRoom, MovesDiffer;
    StoredIsWellFormed(db, "R");
    FirstApplies(db, "R", now);
    SettlesExactly(db, now);
    VerdictOnBothMoves(db, First(db, ApplicableOfRoom(db, "R", now)), s, now);
    OutcomeOfADeadline(db, now);
  }

  // Both moves of the first round wait to be reconciled, and the host's wins.
  ghost predicate HostHasWon(db: Db) {
    && DbOk(db) && "R" in db.rooms && db.rooms["R"].currentRound in db.rooms["R"].rounds && Eligible(db, "R", 1) == Some(Resolving)
    && BothMovesIn(Stored(db, "R")) && MovesOutcome(Stored(db, "R")) == PlayerOneWins
  }

  ghost predicate PlayedByBoth(db: Db) {
    "R" in db.rooms && var seats := db.rooms["R"].seats; Host in seats && Guest in seats && seats[Host].account == "a" && seats[Guest].account == "b"
  }

  lemma {:induction false} ForfeitPays(db: Db, now: int)
    requires HostHasWon(db) && HostForfeits(db, now) && PlayedByBoth(db) && Hold(db, 0, 0)
    ensures Overrules(db, TxDeadline(now), "R") && Hold(Next(db, TxDeadline(now)), 0, WinnerPayout)
  {
    hide DbOk, ProcessDeadline, Persisted, BothMovesIn, HostForfeits, Settle, OpenRound, RowOf, Overrules, Eligible, MovesOutcome;
    HostIsForfeited(db, Stored(db, "R"), now);
    FirstIsOfRoom(db, now);
    SettledAddsHistory(db, now);
    var after := ProcessDeadline(db, now);
    PaidOut(db, after.db.funds, after.answer.after.result, after.answer.after.forfeited != "");
  }

  lemma {:induction false} FirstIsOfRoom(db: Db, now: int)
    requires HostForfeits(db, now)
    ensures DueIds(db, now) != {} && db.deadlines[First(db, DueIds(db, now))].code == "R"
  {
    hide DueIds, DeadlineClaims, ApplicableOfRoom, LiveRole;
  }

  lemma {:induction false} MovesPay(db: Db, now: int)
    requires HostHasWon(db) && PlayedByBoth(db) && Hold(db, 0, 0) && db.rooms.Keys == {"R"} && db.rooms["R"].currentRound == 1
    ensures Hold(Next(db, TxReconcile("R", 1, now)), WinnerPayout, 0)
  {
    hide DbOk, Next, Persisted, MovesOutcome, BothMovesIn, Settle, OpenRound, DecidedRows, Eligible;
    var rows := db.rooms["R"];
    assert db.rooms == map["R" := rows];
    StoredRound(db, "R");
    MovesDecide(db, rows, PlayerOneWins, now);
    PaidOut(db, Next(db, TxReconcile("R", 1, now)).funds, PlayerOneWins, false);
  }

  lemma {:induction false} GraceForfeits(db: Db, now: int)
    requires db.rooms == map["R" := Absent(RockWins, Host)] && db.deadlines == OneGrace && db.connections == GuestConnected && 25 <= now < 100
    ensures HostForfeits(db, now)
  {
    hide DeadlineClaims, ApplicableOfRoom, DueIds, LiveRole, Absent, RockWins, IsFirst;
    GraceIsOver(db, now);
    OnlyOneIsFirst(db, DueIds(db, now), 1);
    OnlyOneIsFirst(db, ApplicableOfRoom(db, "R", now), 1);
  }

  lemma {:induction false} WonState(db: Db, now: int)
    requires At(db, map["R" := Absent(RockWins, Host)], GuestConnected, OneGrace, SixKeys) && 25 <= now < 100
    ensures HostHasWon(db) && PlayedByBoth(db) && HostForfeits(db, now) && db.rooms.Keys == {"R"} && db.rooms["R"].currentRound == 1
  {
    hide DbOk, Eligible, Persisted, MovesOutcome, Absent, RockWins, BothMovesIn, HostForfeits, OneGrace, GuestConnected, SixKeys;
    WinnerRows();
    WonRows();
    WonIsEligible(db);
    GraceForfeits(db, now);
  }

  // The host's move wins, and the host's only connection is then closed. If the
  // worker comes after the grace period, at 25, and before the room is
  // reconciled, the host forfeits and the guest is paid, even when the time of
  // the round, up at 30, is over as well; reconciled first, the host is paid.
  lemma {:induction false} DeadlineTakesTheWin(now: int)
    requires 25 <= now < 100
    ensures var db := Store.Run(EmptyDb(), WonRun); HostHasWon(db) && Overrules(db, TxDeadline(now), "R")
    ensures Hold(Store.Run(EmptyDb(), WonRun + [TxDeadline(now)]), 0, 75)
    ensures Hold(Store.Run(EmptyDb(), WonRun + [TxReconcile("R", 1, now)]), 75, 0)
  {
    hide Store.Run, Next, At, HostHasWon, PlayedByBoth, HostForfeits, Overrules;
    var db := Store.Run(EmptyDb(), WonRun);
    WinnerIsGone();
    WonState(db, now);
    ForfeitPays(db, now);
    MovesPay(db, now);
    RunThen(EmptyDb(), WonRun, TxDeadline(now));
    RunThen(EmptyDb(), WonRun, TxReconcile("R", 1, now));
  }
}
