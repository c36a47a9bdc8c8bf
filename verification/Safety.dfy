// What holds after every run of transactions from the empty database.
module Safety {
  import opened Prelude
  import opened Game
  import opened Ledger
  import opened Money
  import opened Tables
  import opened RowInvariant
  import opened Outbox
  import opened Store
  import opened Invariant
  import opened Preservation

  ghost predicate Reachable(db: Db, txs: seq<Tx>) {
    db == Store.Run(EmptyDb(), txs)
  }

  lemma {:induction false} ReachableIsOk(db: Db, txs: seq<Tx>)
    requires Reachable(db, txs)
    ensures DbOk(db)
  {
    EmptyDbOk();
    RunKeepsOk(EmptyDb(), txs);
  }

  lemma {:induction false} FundRoundExtends(db: Db, code: string, round: nat, joining: Option<string>, now: int)
    requires code in db.rooms
    ensures var r := FundRound(db, code, round, joining, now); r.Ok? ==> Extends(db.funds, r.value.funds)
  {}

  lemma {:induction false} SaveAndSettleExtends(db: Db, code: string, t: RoomState, deadlines: map<nat, Deadline>, now: int)
    requires code in db.rooms
    ensures var r := SaveAndSettle(db, code, t, deadlines, now); r.Ok? ==> Extends(db.funds, r.value.funds)
  {}

  lemma {:induction false} EffectExtends(db: Db, account: string, key: string, call: Call, now: int)
    ensures var r := Effect(db, account, key, call, now); r.Done? ==> Extends(db.funds, r.db.funds)
  {
    hide FundRound, Saved, Persisted, Restorable, WithDeadline, ViewOf;
    if call.CallJoin? && Load(db, call.code).Ok? {
      FundRoundExtends(db, call.code, Load(db, call.code).value.round, Some(account), now);
    }
  }

  lemma {:induction false} ReconcileExtends(db: Db, code: string, round: nat, now: int)
    ensures var r := Reconcile(db, code, round, now); r.Some? && r.value.Done? ==> Extends(db.funds, r.value.db.funds)
  {
    hide FundRound, SaveAndSettle, Saved, Persisted, Restorable, WithDeadline;
    if Eligible(db, code, round).Some? && Load(db, code).Ok? {
      var s := Load(db, code).value;
      if Eligible(db, code, round).value.Resolving? {
        var t := ResolveCommittedMoves(s, s.round);
        if t.Ok? { SaveAndSettleExtends(db, code, t.value, WithCancelled(db.deadlines, RoundDeadlines(db, code, s.round), now), now); }
      } else {
        var t := AdvanceCommittedNextRound(s, s.round);
        if t.Ok? && SaveAndBump(db, code, t.value, s.round, now).Ok? {
          FundRoundExtends(SaveAndBump(db, code, t.value, s.round, now).value, code, t.value.round, None, now);
        }
      }
    }
  }

  lemma {:induction false} DeadlineExtends(db: Db, now: int)
    ensures var r := ProcessDeadline(db, now); r.Done? ==> Extends(db.funds, r.db.funds)
  {
    hide SaveAndSettle, Persisted, Restorable, Concluded, Verdict, DueIds, DueOfRoom, ApplicableOfRoom, Before, WithCancelled;
    if DueIds(db, now) != {} {
      var code := db.deadlines[First(db, DueIds(db, now))].code;
      var applicable := ApplicableOfRoom(db, code, now);
      if Load(db, code).Ok? && applicable != {} {
        var s, chosen := Load(db, code).value, First(db, applicable);
        var pruned := Cancel(db, Skipped(db, code, chosen, now), now);
        var v := Verdict(db, chosen, s, now);
        if v.Some? && v.value.Ok? && code in db.rooms {
          SaveAndSettleExtends(pruned, code, v.value.value, Concluded(pruned.deadlines, code, s.round, chosen, now), now);
        }
      }
    }
  }

  lemma {:induction false} NextExtends(db: Db, tx: Tx)
    ensures Extends(db.funds, Next(db, tx).funds)
  {
    hide Effect, Reconcile, ProcessDeadline, WithDeadline, WithAccount, LiveRole, WithCancelled, Extends, RoleOf;
    ExtendsItself(db.funds);
    match tx {
      case TxCommand(account, command, call, now) => EffectExtends(db, account, command.key, call, now);
      case TxReconcile(code, round, now) => ReconcileExtends(db, code, round, now);
      case TxDeadline(now) => DeadlineExtends(db, now);
      case TxBalance(account) => ExtendsWithAccount(db.funds, User(account));
      case _ =>
    }
  }

  lemma {:induction false} ExtendsItself(f: Funds)
    ensures Extends(f, f)
  {}

  lemma {:induction false} ExtendsWithAccount(f: Funds, a: AccountId)
    ensures Extends(f, f.(book := WithAccount(f.book, a)))
  {}

  lemma {:induction false} RunExtends(db: Db, txs: seq<Tx>)
    ensures Extends(db.funds, Store.Run(db, txs).funds)
  {
    hide Next;
    if txs != [] {
      RunExtends(db, txs[..|txs| - 1]);
      NextExtends(Store.Run(db, txs[..|txs| - 1]), txs[|txs| - 1]);
    }
  }

  // ---- Exactly-once settlement ----

  // How often a business key was posted.
  ghost function TimesPosted(log: seq<Transaction>, key: BusinessKey): nat {
    if log == [] then 0
    else TimesPosted(log[..|log| - 1], key) + (if log[|log| - 1].key == key then 1 else 0)
  }

  lemma {:induction false} PostedOnce(log: seq<Transaction>, key: BusinessKey)
    requires forall i, j | 0 <= i < j < |log| :: log[i].key != log[j].key
    ensures TimesPosted(log, key) == if key in Ledger.Keys(log) then 1 else 0
  {
    if log != [] {
      var shorter, last := log[..|log| - 1], log[|log| - 1];
      PostedOnce(shorter, key);
      assert Ledger.Keys(log) == Ledger.Keys(shorter) + {last.key};
      assert last.key !in Ledger.Keys(shorter);
    }
  }

  lemma {:induction false} KeysOfFunds(funds: Funds, key: RoundKey)
    requires FundsOk(funds)
    ensures SettlementKey(key) in Ledger.Keys(funds.book.log) <==> key in funds.history
    ensures StakeKey(key) in Ledger.Keys(funds.book.log) <==> Escrow(key) in funds.book.balances
    ensures forall i, j | 0 <= i < j < |funds.book.log| :: funds.book.log[i].key != funds.book.log[j].key
  {}

  lemma {:induction false} StatusOfRound(rows: RoomRows, n: nat)
    requires RowsOk(rows) && n in rows.rounds
    ensures rows.rounds[n].status.Active? || rows.rounds[n].status.Resolved?
    ensures rows.rounds[n].status.Resolved? ==> rows.rounds[n].funded && IsDecided(rows.rounds[n].result)
    ensures rows.closed && rows.rounds[n].funded ==> rows.rounds[n].status.Resolved?
    ensures n <= rows.currentRound
  {
    assert RoundOk(rows.rounds[n]);
  }

  // Whatever transactions ran, in whatever order: a round is settled and
  // recorded in the history exactly once if it is resolved and never
  // otherwise, and no round is left half settled.
  lemma {:induction false} ExactlyOnceSettlement(db: Db, txs: seq<Tx>, key: RoundKey)
    requires Reachable(db, txs)
    ensures TimesPosted(db.funds.book.log, SettlementKey(key)) == if ResolvedRound(db.rooms, key) then 1 else 0
    ensures TimesPosted(db.funds.book.log, StakeKey(key)) == if FundedRound(db.rooms, key) then 1 else 0
    ensures key in db.funds.history <==> ResolvedRound(db.rooms, key)
    ensures key.code in db.rooms && key.round in db.rooms[key.code].rounds ==>
              var status := db.rooms[key.code].rounds[key.round].status; status.Active? || status.Resolved?
  {
    hide RowsOk, FundsOk, ConnectionsOk, PresentOk, DeadlinesOk, BoxOk, Announced;
    ReachableIsOk(db, txs);
    KeysOfFunds(db.funds, key);
    PostedOnce(db.funds.book.log, SettlementKey(key));
    PostedOnce(db.funds.book.log, StakeKey(key));
    if key.code in db.rooms && key.round in db.rooms[key.code].rounds { StatusOfRound(db.rooms[key.code], key.round); }
  }

  // A resolved round stays resolved with the same result, and its history row
  // never changes.
  lemma {:induction false} ResolvedForever(db: Db, txs: seq<Tx>, later: Db, more: seq<Tx>, key: RoundKey)
    requires Reachable(db, txs) && later == Store.Run(db, more) && ResolvedRound(db.rooms, key)
    ensures ResolvedRound(later.rooms, key)
    ensures later.rooms[key.code].rounds[key.round].result == db.rooms[key.code].rounds[key.round].result
    ensures key in db.funds.history && key in later.funds.history && later.funds.history[key] == db.funds.history[key]
  {
    hide RowsOk, FundsOk, ConnectionsOk, PresentOk, DeadlinesOk, BoxOk, Announced;
    ReachableIsOk(db, txs);
    RunKeepsOk(db, more);
    RunExtends(db, more);
  }

  // ---- The ledger agrees with its cache ----

  ghost function EscrowOf(db: Db, key: RoundKey): int {
    Lookup(db.funds.book.balances, Escrow(key))
  }

  lemma {:induction false} LedgerAgreesWithItsCache(db: Db, txs: seq<Tx>)
    requires Reachable(db, txs)
    ensures forall a :: Lookup(db.funds.book.balances, a) == Posted(db.funds.book.log, a)
    ensures forall t | t in db.funds.book.log :: Sum(t.postings) == 0
    ensures Total(db.funds.book.balances) == 0
    ensures forall a | a in db.funds.book.balances && db.funds.book.balances[a] < 0 :: a == Mint
    ensures forall key :: EscrowOf(db, key) == if FundedRound(db.rooms, key) && !ResolvedRound(db.rooms, key) then 100 else 0
    ensures Lookup(db.funds.book.balances, House) == 25 * |Decisive(db.funds.history)|
  {
    hide RowsOk, ConnectionsOk, PresentOk, DeadlinesOk, BoxOk, Announced, RoomsOk;
    ReachableIsOk(db, txs);
    EarningsOfDecisive(db.funds.history);
    forall key ensures EscrowOf(db, key) == if FundedRound(db.rooms, key) && !ResolvedRound(db.rooms, key) then 100 else 0 {
      assert FundedRound(db.rooms, key) <==> Escrow(key) in db.funds.book.balances;
    }
  }

  // Whoever left a room, and whenever: it strands no coins.
  lemma {:induction false} ClosedRoomsHoldNoCoins(db: Db, txs: seq<Tx>, code: string, round: nat)
    requires Reachable(db, txs) && code in db.rooms && db.rooms[code].closed
    ensures EscrowOf(db, RoundKey(code, round)) == 0
  {
    hide RowsOk, FundsOk, Linked, ConnectionsOk, PresentOk, DeadlinesOk, BoxOk, Announced;
    ReachableIsOk(db, txs);
    LedgerAgreesWithItsCache(db, txs);
    if round in db.rooms[code].rounds { StatusOfRound(db.rooms[code], round); }
  }

  // ---- Wins agree with the history ----

  ghost function WonRounds(history: map<RoundKey, HistoryRow>, code: string, role: Role, upTo: nat): set<RoundKey> {
    set k | k in history && k.code == code && k.round <= upTo && history[k].winner == Some(role)
  }

  // What the history says about one round of a room.
  lemma {:induction false} HistoryOfRound(rooms: Rooms, funds: Funds, code: string, n: nat, role: Role)
    requires FundsOk(funds) && Linked(rooms, funds) && code in rooms && RowsOk(rooms[code])
    ensures var key := RoundKey(code, n);
            key in funds.history && funds.history[key].winner == Some(role)
            <==> n in rooms[code].rounds && rooms[code].rounds[n].result == WinFor(role)
    ensures RoundKey(code, n) in funds.history ==> 1 <= n <= rooms[code].currentRound
  {
    var key := RoundKey(code, n);
    var rows := rooms[code];
    assert ResolvedRound(rooms, key) <==> key in funds.history;
    if n in rows.rounds { assert RoundOk(rows.rounds[n]); }
    if key in funds.history { assert RowMatches(rows, n, funds.history[key]) && RowOk(funds.history[key]); }
  }

  lemma {:induction false} WonRoundsMore(history: map<RoundKey, HistoryRow>, code: string, role: Role, n: nat)
    ensures var key := RoundKey(code, n);
            var won := key in history && history[key].winner == Some(role);
            if n == 0 then |WonRounds(history, code, role, 0)| == if won then 1 else 0
            else |WonRounds(history, code, role, n)| == |WonRounds(history, code, role, n - 1)| + if won then 1 else 0
  {
    var key := RoundKey(code, n);
    var before := if n == 0 then {} else WonRounds(history, code, role, n - 1);
    assert key !in before;
    assert WonRounds(history, code, role, n) == before + if key in history && history[key].winner == Some(role) then {key} else {};
  }

  lemma {:induction false} CountWonRounds(rooms: Rooms, funds: Funds, code: string, role: Role, n: nat)
    requires FundsOk(funds) && Linked(rooms, funds) && code in rooms && RowsOk(rooms[code])
    ensures |WonRounds(funds.history, code, role, n)| == WinsUpTo(rooms[code].rounds, n, role)
  {
    hide RowsOk, FundsOk, Linked, WonRounds;
    HistoryOfRound(rooms, funds, code, n, role);
    WonRoundsMore(funds.history, code, role, n);
    if n > 0 { CountWonRounds(rooms, funds, code, role, n - 1); }
  }

  // The wins stored on a seat are the history rows of the room its role won.
  lemma {:induction false} WinsAgreeWithHistory(db: Db, txs: seq<Tx>, code: string, role: Role)
    requires Reachable(db, txs) && code in db.rooms && role in db.rooms[code].seats
    ensures db.rooms[code].seats[role].wins
         == |set k | k in db.funds.history && k.code == code && db.funds.history[k].winner == Some(role)|
  {
    hide RowsOk, FundsOk, Linked, ConnectionsOk, PresentOk, DeadlinesOk, BoxOk, Announced;
    ReachableIsOk(db, txs);
    var rows := db.rooms[code];
    SeatWins(rows, role);
    CountWonRounds(db.rooms, db.funds, code, role, rows.currentRound);
    forall k | k in db.funds.history && k.code == code ensures k.round <= rows.currentRound {
      HistoryOfRound(db.rooms, db.funds, code, k.round, role);
    }
    assert WonRounds(db.funds.history, code, role, rows.currentRound)
        == set k | k in db.funds.history && k.code == code && db.funds.history[k].winner == Some(role);
  }

  lemma {:induction false} SeatWins(rows: RoomRows, role: Role)
    requires RowsOk(rows) && role in rows.seats
    ensures rows.seats[role].wins == WinsUpTo(rows.rounds, rows.currentRound, role)
  {}

  // ---- Revisions and hints ----

  // The revisions of a room run from 1, one outbox row each; a row that is gone
  // was accepted by the publisher first.
  lemma {:induction false} EveryRevisionIsAnnounced(db: Db, txs: seq<Tx>, key: RevisionKey)
    requires Reachable(db, txs)
    ensures key in db.box.rows || key in db.box.cleaned <==> key.code in db.rooms && 1 <= key.revision <= db.rooms[key.code].revision
    ensures key in db.box.cleaned || (key in db.box.rows && db.box.rows[key].publishedAt.Some?) ==> key in db.box.published
  {
    ReachableIsOk(db, txs);
    assert key in Known(db.box) <==> key in db.box.rows || key in db.box.cleaned;
  }

  // Nothing was announced, or one new row that can be claimed from `now` on.
  ghost predicate Announces(b: Box, c: Box, now: int) {
    c == b || exists key :: key !in b.rows && c == b.(rows := b.rows[key := Row(0, now, None, None)])
  }

  lemma {:induction false} BumpAnnounces(db: Db, code: string, revision: nat, now: int)
    ensures var r := Bump(db, code, revision, now); r.Ok? ==> Announces(db.box, r.value.box, now)
  {
    var key := RevisionKey(code, revision);
    if Bump(db, code, revision, now).Ok? {
      assert key !in db.box.rows && Bump(db, code, revision, now).value.box == db.box.(rows := db.box.rows[key := Row(0, now, None, None)]);
    }
  }

  lemma {:induction false} SaveAnnounces(db: Db, code: string, s: RoomState, previousRound: nat, now: int)
    requires code in db.rooms
    ensures var r := SaveAndBump(db, code, s, previousRound, now); r.Ok? ==> Announces(db.box, r.value.box, now)
  {
    hide Bump, Saved, Announces;
    var revision := db.rooms[code].revision + 1;
    BumpAnnounces(WithRoom(db, code, Saved(db.rooms[code], s, previousRound, revision)), code, revision, now);
  }

  lemma {:induction false} SettleAnnounces(db: Db, code: string, s: RoomState, deadlines: map<nat, Deadline>, now: int)
    requires code in db.rooms
    ensures var r := SaveAndSettle(db, code, s, deadlines, now); r.Ok? ==> Announces(db.box, r.value.box, now)
  {
    hide SaveAndBump, Settle, Announces;
    SaveAnnounces(db, code, s, s.round, now);
  }

  lemma {:induction false} RecordingAnnounces(db: Db, code: string, rows: RoomRows, resolved: bool, now: int)
    ensures var r := Store.Recorded(db, code, rows, resolved, now); r.Done? ==> Announces(db.box, r.db.box, now)
  {
    hide Bump, Announces, Keys.HintFits;
    BumpAnnounces(WithRoom(db, code, rows.(revision := rows.revision + 1)), code, rows.revision + 1, now);
  }

  lemma {:induction false} JoinAnnounces(db: Db, code: string, playerId: string, account: string, now: int)
    ensures var r := JoinRoom(db, code, playerId, account, now); r.Done? ==> Announces(db.box, r.db.box, now)
  {
    hide SaveAndBump, Announces, Load, Join, ViewOf, FundRound, JoinedPresence;
    if JoinRoom(db, code, playerId, account, now).Done? {
      var s := Load(db, code).value;
      var seated := SeatJoining(db, code, s.round, playerId, account, now).value;
      FundingAnnouncesNothing(db, code, s.round, Some(account), now);
      SaveAnnounces(seated, code, Join(s, playerId).value, s.round, now);
    }
  }

  lemma {:induction false} FundingAnnouncesNothing(db: Db, code: string, round: nat, joining: Option<string>, now: int)
    requires code in db.rooms
    ensures var r := FundRound(db, code, round, joining, now); r.Ok? ==> r.value.box == db.box
  {
    hide Stake;
  }

  lemma {:induction false} ActionAnnounces(db: Db, code: string, account: string, move: Move, round: nat, now: int)
    ensures var r := RecordMove(db, code, account, move, now); r.Done? ==> Announces(db.box, r.db.box, now)
    ensures var r := RecordRequest(db, code, account, round, now); r.Done? ==> Announces(db.box, r.db.box, now)
  {
    hide Store.Recorded, Announces, RoleOf;
    if ActionRole(db, code, account, Active, 0).Ok? {
      var rows, role := db.rooms[code], ActionRole(db, code, account, Active, 0).value;
      RecordingAnnounces(db, code, rows.(moves := rows.moves[RoundRole(rows.currentRound, role) := move]), false, now);
    }
    if ActionRole(db, code, account, Resolved, round).Ok? {
      var rows, role := db.rooms[code], ActionRole(db, code, account, Resolved, round).value;
      RecordingAnnounces(db, code, rows.(requests := rows.requests + {RoundRole(rows.currentRound, role)}), true, now);
    }
  }

  lemma {:induction false} CallAnnounces(db: Db, account: string, key: string, call: Call, now: int)
    ensures var r := Effect(db, account, key, call, now); r.Done? ==> Announces(db.box, r.db.box, now)
  {
    hide Bump, SaveAndBump, RecordMove, RecordRequest, JoinRoom, Load, Leave, ViewOf, Announces, Recharge;
    assert Announces(db.box, db.box, now) by { NothingAnnounced(db.box, now); }
    match call {
      case CallCreate(code, playerId) =>
        var rows := RoomRows(false, 1, 1, map[Host := Seat(playerId, account, 0)], map[1 := FreshRound], map[], {}, map[]);
        BumpAnnounces(WithRoom(db, code, rows).(funds := db.funds.(book := WithAccount(db.funds.book, User(account)))), code, 1, now);
      case CallJoin(code, playerId) => JoinAnnounces(db, code, playerId, account, now);
      case CallMove(code, move) => ActionAnnounces(db, code, account, move, 0, now);
      case CallNextRound(code, round) => ActionAnnounces(db, code, account, Rock, round, now);
      case CallLeave(code) =>
        if LeaveRoom(db, code, account, now).Done? {
          var s := Load(db, code).value;
          SaveAnnounces(db, code, Leave(s, db.rooms[code].seats[RoleOf(db.rooms[code], account).value].playerId).value, s.round, now);
        }
      case CallRecharge(_) =>
    }
  }

  lemma {:induction false} NothingAnnounced(b: Box, now: int)
    ensures Announces(b, b, now)
  {}

  lemma {:induction false} ReconcileAnnounces(db: Db, code: string, round: nat, now: int)
    ensures var r := Reconcile(db, code, round, now); r.Some? && r.value.Done? ==> Announces(db.box, r.value.db.box, now)
  {
    hide SaveAndBump, SaveAndSettle, FundRound, Load, Eligible, Announces, ResolveCommittedMoves, AdvanceCommittedNextRound, Keys.HintFits, WithCancelled;
    var r := Reconcile(db, code, round, now);
    if r.Some? && r.value.Done? {
      EligibleRoom(db, code, round);
      var s := Load(db, code).value;
      if Eligible(db, code, round).value.Resolving? {
        SettleAnnounces(db, code, ResolveCommittedMoves(s, s.round).value, WithCancelled(db.deadlines, RoundDeadlines(db, code, s.round), now), now);
      } else {
        var t := AdvanceCommittedNextRound(s, s.round).value;
        SaveAnnounces(db, code, t, s.round, now);
        FundingAnnouncesNothing(SaveAndBump(db, code, t, s.round, now).value, code, t.round, None, now);
      }
    }
  }

  lemma {:induction false} DeadlineAnnounces(db: Db, now: int)
    ensures var r := ProcessDeadline(db, now); r.Done? ==> Announces(db.box, r.db.box, now)
  {
    hide Load, Restorable, Verdict, Before, Applicable, SaveAndSettle, Concluded, Due, WithCancelled, DeadlineClaims, RoundStillOpen, Announces;
    NothingAnnounced(db.box, now);
    if DueIds(db, now) != {} {
      var candidate := First(db, DueIds(db, now));
      var code := db.deadlines[candidate].code;
      if DeadlineClaims(db, candidate) && Load(db, code).Ok? && ApplicableOfRoom(db, code, now) != {} {
        var s, chosen := Load(db, code).value, First(db, ApplicableOfRoom(db, code, now));
        var pruned := Cancel(db, Skipped(db, code, chosen, now), now);
        var v := Verdict(db, chosen, s, now);
        if v.Some? && v.value.Ok? { SettleAnnounces(pruned, code, v.value.value, Concluded(pruned.deadlines, code, s.round, chosen, now), now); }
      }
    }
  }

  lemma {:induction false} PresenceAnnounces(db: Db, tx: Tx)
    requires tx.TxOpen? || tx.TxClose?
    ensures Announces(db.box, Next(db, tx).box, if tx.TxOpen? then tx.now else tx.at)
  {
    hide RoleOf, LiveRole, WithCancelled;
    match tx {
      case TxOpen(id, code, account, valid, now, lease) =>
        if OpenConnection(db, id, code, account, valid, now, lease).Done? {
          assert RevisionKey(code, db.rooms[code].revision + 1) == RevisionKey(code, db.rooms[code].revision + 1);
        }
      case TxClose(id, at, expiredBy) =>
    }
  }

  // The time of a transaction.
  function TimeOf(tx: Tx): int {
    match tx
    case TxCommand(_, _, _, now) => now
    case TxReconcile(_, _, now) => now
    case TxDeadline(now) => now
    case TxOpen(_, _, _, _, now, _) => now
    case TxClose(_, at, _) => at
    case _ => 0
  }

  // Each new revision is announced at once: a transaction adds at most one
  // outbox row, which was never tried and can be claimed from its time on; it
  // leaves every other row alone.
  lemma {:induction false} RevisionsAreAnnouncedAtOnce(db: Db, tx: Tx, key: RevisionKey, now: int)
    requires !tx.TxOutbox?
    ensures key in db.box.rows ==> key in Next(db, tx).box.rows && Next(db, tx).box.rows[key] == db.box.rows[key]
    ensures key in Next(db, tx).box.rows && key !in db.box.rows ==>
              Next(db, tx).box.rows[key].attempts == 0 && (Claimable(Next(db, tx).box.rows[key], now) <==> now >= TimeOf(tx))
  {
    hide Effect, Refusal, Reconcile, ProcessDeadline, OpenConnection, CloseConnection;
    NothingAnnounced(db.box, TimeOf(tx));
    match tx {
      case TxCommand(account, command, call, at) => CallAnnounces(db, account, command.key, call, at);
      case TxReconcile(code, round, at) => ReconcileAnnounces(db, code, round, at);
      case TxDeadline(at) => DeadlineAnnounces(db, at);
      case TxOpen(_, _, _, _, _, _) => PresenceAnnounces(db, tx);
      case TxClose(_, _, _) => PresenceAnnounces(db, tx);
      case _ =>
    }
  }
}
