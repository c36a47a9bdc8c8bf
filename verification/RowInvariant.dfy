// What the rows of every room satisfy between transactions, and how saving an
// aggregate keeps it.
module RowInvariant {
  import opened Prelude
  import opened Game
  import opened Money
  import opened Tables

  predicate Full(rows: RoomRows) {
    Host in rows.seats && Guest in rows.seats
  }

  function WinFor(role: Role): Outcome {
    match role case Host => PlayerOneWins case Guest => PlayerTwoWins
  }

  // The rounds up to `n` that `role` won.
  ghost function WinsUpTo(rounds: map<nat, RoundRow>, n: nat, role: Role): nat {
    if n == 0 then 0
    else WinsUpTo(rounds, n - 1, role) + (if n in rounds && rounds[n].result == WinFor(role) then 1 else 0)
  }

  ghost predicate SeatsOk(rows: RoomRows) {
    && Host in rows.seats
    && (forall role | role in rows.seats :: rows.seats[role].playerId != "" && rows.seats[role].wins >= 0)
    && (Guest in rows.seats ==>
          rows.seats[Host].playerId != rows.seats[Guest].playerId && rows.seats[Host].account != rows.seats[Guest].account)
    && rows.presence.Keys <= rows.seats.Keys
    && (forall role | role in rows.presence :: rows.presence[role].generation > 0)
  }

  // No committed round is settling, and a round has a result once it is resolved.
  predicate RoundOk(row: RoundRow) {
    && (row.status.Active? || row.status.Resolved?)
    && (row.status.Active? ==> row.result.Unset? && row.forfeitedRole.None?)
    && (row.status.Resolved? ==> IsDecided(row.result))
  }

  ghost predicate RoundsOk(rows: RoomRows) {
    && (forall n: nat :: n in rows.rounds <==> 1 <= n <= rows.currentRound)
    && (forall n | n in rows.rounds :: RoundOk(rows.rounds[n]))
    && (forall n | n in rows.rounds && n < rows.currentRound :: rows.rounds[n].status.Resolved?)
    && (forall n | n in rows.rounds :: rows.rounds[n].funded <==> Full(rows))
    && (!Full(rows) ==> rows.currentRound == 1 && rows.rounds[1].status.Active?)
    && (rows.closed && Full(rows) && rows.currentRound in rows.rounds ==> rows.rounds[rows.currentRound].status.Resolved?)
  }

  ghost predicate ActionsOk(rows: RoomRows) {
    && (forall k | k in rows.moves :: 1 <= k.round <= rows.currentRound && k.role in rows.seats && IsValidMove(rows.moves[k]))
    && (forall k | k in rows.requests ::
          k.round in rows.rounds && k.role in rows.seats && rows.rounds[k.round].status.Resolved?)
  }

  // Each seat's wins are the rounds its role won.
  ghost predicate WinsOk(rows: RoomRows) {
    forall role | role in rows.seats :: rows.seats[role].wins == WinsUpTo(rows.rounds, rows.currentRound, role)
  }

  ghost predicate RowsOk(rows: RoomRows) {
    rows.currentRound > 0 && rows.revision > 0 && SeatsOk(rows) && RoundsOk(rows) && ActionsOk(rows) && WinsOk(rows)
  }

  predicate SeatAccountsKept(rows: RoomRows, after: RoomRows) {
    && after.seats.Keys == rows.seats.Keys
    && forall role | role in rows.seats ::
         after.seats[role].playerId == rows.seats[role].playerId && after.seats[role].account == rows.seats[role].account
  }

  // The aggregate `s` has the move and the request that the rows hold for
  // `role` in the current round.
  ghost predicate ActionHolds(rows: RoomRows, s: RoomState, role: Role) {
    var key := RoundRole(rows.currentRound, role);
    && (MovedAt(s, role) <==> key in rows.moves)
    && (MovedAt(s, role) ==> s.moves[PlayerAt(s, role).id] == rows.moves[key])
    && (AskedAt(s, role) <==> key in rows.requests)
  }

  ghost predicate ActionsHold(rows: RoomRows, s: RoomState) {
    s.round == rows.currentRound && ActionHolds(rows, s, Host) && ActionHolds(rows, s, Guest)
  }

  lemma {:induction false} PersistedMoves(code: string, rows: RoomRows)
    requires RowsOk(rows)
    ensures var s := Persisted(code, rows); SeatsHold(rows, s) && ActionsHold(rows, s)
    ensures var s := Persisted(code, rows);
            forall id | id in s.moves :: HasPlayer(s, id) && IsValidMove(s.moves[id])
  {
  }

  // The rows of a room always stand for a well-formed aggregate.
  lemma {:induction false} PersistedIsWellFormed(code: string, rows: RoomRows)
    requires RowsOk(rows) && code != ""
    ensures var s := Persisted(code, rows); WellFormed(s) && SeatsHold(rows, s) && ActionsHold(rows, s)
    ensures Persisted(code, rows).resolved <==> rows.rounds[rows.currentRound].status.Resolved?
    ensures Persisted(code, rows).players == SeatPlayers(rows.seats)
  {
    PersistedMoves(code, rows);
    var s := Persisted(code, rows);
    assert RoundOk(rows.rounds[rows.currentRound]);
    if !s.resolved {
      assert RoundRole(rows.currentRound, Host) !in rows.requests && RoundRole(rows.currentRound, Guest) !in rows.requests;
    }
  }

  // Saving the same moves and requests for the current round changes no row of them.
  lemma {:induction false} SavedSameActions(rows: RoomRows, t: RoomState)
    requires ActionsHold(rows, t)
    ensures SavedMoves(rows.moves, t) == rows.moves && SavedRequests(rows.requests, t, t.round) == rows.requests
  {
    var moves, requests := SavedMoves(rows.moves, t), SavedRequests(rows.requests, t, t.round);
    forall k ensures k in moves <==> k in rows.moves {
      assert k.role == Host || k.role == Guest;
    }
    forall k | k in moves ensures moves[k] == rows.moves[k] {
      assert k.role == Host || k.role == Guest;
    }
    forall k ensures k in requests <==> k in rows.requests {
      assert k.role == Host || k.role == Guest;
    }
  }

  lemma {:induction false} SavedSeatFacts(rows: RoomRows, t: RoomState, previousRound: nat, revision: nat)
    requires SeatsHold(rows, t)
    ensures var after := Saved(rows, t, previousRound, revision);
            && SeatAccountsKept(rows, after)
            && (forall role | role in rows.seats :: Seated(t, role) && after.seats[role].wins == PlayerAt(t, role).wins)
            && after.presence == rows.presence && after.closed == t.closed && after.currentRound == t.round && after.revision == revision
            && after.rounds == rows.rounds[t.round := RoundRowOf(rows, t)]
  {
    forall role | role in rows.seats ensures Seated(t, role) {}
  }

  lemma {:induction false} WinsFrame(rounds: map<nat, RoundRow>, other: map<nat, RoundRow>, n: nat, role: Role)
    requires forall m: nat | 1 <= m <= n :: (m in rounds <==> m in other) && (m in rounds ==> rounds[m].result == other[m].result)
    ensures WinsUpTo(rounds, n, role) == WinsUpTo(other, n, role)
  {
    if n > 0 { WinsFrame(rounds, other, n - 1, role); }
  }

  // The rows that change when the current round is decided.
  ghost predicate DecidedRows(rows: RoomRows, after: RoomRows, o: Outcome, forfeited: bool) {
    && rows.currentRound in rows.rounds
    && after == rows.(seats := after.seats, revision := after.revision,
                      rounds := rows.rounds[rows.currentRound := RoundRow(o, DecidedForfeit(after), Resolved, true)])
    && (DecidedForfeit(after).Some? <==> forfeited)
    && SeatAccountsKept(rows, after)
    && forall role | role in rows.seats :: after.seats[role].wins == rows.seats[role].wins + if o == WinFor(role) then 1 else 0
  }

  function DecidedForfeit(rows: RoomRows): Option<Role> {
    if rows.currentRound in rows.rounds then rows.rounds[rows.currentRound].forfeitedRole else None
  }

  lemma {:induction false} DecidedRowsOk(rows: RoomRows, after: RoomRows, o: Outcome, forfeited: bool)
    requires RowsOk(rows) && Full(rows) && rows.rounds[rows.currentRound].status.Active? && IsDecided(o)
    requires DecidedRows(rows, after, o, forfeited) && after.revision > 0
    ensures RowsOk(after)
  {
    hide WinsUpTo;
    DecidedWins(rows, after, o, forfeited);
  }

  lemma {:induction false} DecidedWins(rows: RoomRows, after: RoomRows, o: Outcome, forfeited: bool)
    requires RowsOk(rows) && Full(rows) && DecidedRows(rows, after, o, forfeited) && rows.rounds[rows.currentRound].status.Active?
    ensures WinsOk(after)
  {
    hide ActionsOk;
    assert RoundOk(rows.rounds[rows.currentRound]);
    forall role | role in after.seats ensures after.seats[role].wins == WinsUpTo(after.rounds, after.currentRound, role) {
      WinsFrame(rows.rounds, after.rounds, rows.currentRound - 1, role);
    }
  }

  lemma {:induction false} SavedDecidedRows(rows: RoomRows, s: RoomState, o: Outcome, forfeited: string, revision: nat)
    requires |s.players| == 2 && SeatsHold(rows, s) && ActionsHold(rows, s) && s.players == SeatPlayers(rows.seats)
    requires s.round in rows.rounds && rows.rounds[s.round].funded && rows.closed == s.closed
    requires forfeited == "" || HasPlayer(s, forfeited)
    ensures var after := Saved(rows, Decide(s, o, forfeited), s.round, revision);
            after.revision == revision && DecidedRows(rows, after, o, forfeited != "")
  {
    hide SavedMoves, SavedRequests, SavedSeats;
    var t := Decide(s, o, forfeited);
    var after := Saved(rows, t, s.round, revision);
    assert ActionsHold(rows, t);
    SavedSameActions(rows, t);
    SavedSeatFacts(rows, t, s.round, revision);
    assert RoundRowOf(rows, t) == RoundRow(o, DecidedForfeit(after), Resolved, true);
    assert after.rounds == rows.rounds[rows.currentRound := RoundRow(o, DecidedForfeit(after), Resolved, true)];
    assert SeatsHold(rows, t);
  }

  // Saving a round that was just decided.
  lemma {:induction false} SavedDecided(code: string, rows: RoomRows, o: Outcome, forfeited: string, revision: nat)
    requires RowsOk(rows) && code != "" && revision > 0 && Full(rows) && IsDecided(o)
    requires var s := Persisted(code, rows); !s.resolved && (forfeited == "" || HasPlayer(s, forfeited))
    ensures |Persisted(code, rows).players| == 2
    ensures var s := Persisted(code, rows);
            var after := Saved(rows, Decide(s, o, forfeited), s.round, revision);
            after.revision == revision && DecidedRows(rows, after, o, forfeited != "") && RowsOk(after)
  {
    PersistedIsWellFormed(code, rows);
    var s := Persisted(code, rows);
    SavedDecidedRows(rows, s, o, forfeited, revision);
    DecidedRowsOk(rows, Saved(rows, Decide(s, o, forfeited), s.round, revision), o, forfeited != "");
  }

  // The rows after advancing and funding the next round.
  ghost predicate AdvancedRows(rows: RoomRows, after: RoomRows) {
    && after == rows.(seats := after.seats, revision := after.revision, currentRound := rows.currentRound + 1, requests := after.requests,
                      rounds := rows.rounds[rows.currentRound + 1 := FreshRound.(funded := true)])
    && after.seats == rows.seats
    && forall k | k in after.requests :: k.role in rows.seats && k.round in rows.rounds && rows.rounds[k.round].status.Resolved?
  }

  lemma {:induction false} AdvancedRowsOk(rows: RoomRows, after: RoomRows)
    requires RowsOk(rows) && rows.rounds[rows.currentRound].status.Resolved? && !rows.closed
    requires AdvancedRows(rows, after) && after.revision > 0
    ensures RowsOk(after)
  {
    forall role | role in after.seats ensures after.seats[role].wins == WinsUpTo(after.rounds, after.currentRound, role) {
      WinsFrame(rows.rounds, after.rounds, rows.currentRound, role);
    }
  }

  lemma {:induction false} NoMovesYet(moves: map<RoundRole, Move>, t: RoomState)
    requires t.moves == map[] && forall k | k in moves :: k.round < t.round
    ensures SavedMoves(moves, t) == moves
  {}

  lemma {:induction false} SavedAdvancedRows(rows: RoomRows, s: RoomState, revision: nat)
    requires |s.players| == 2 && SeatsHold(rows, s) && s.round == rows.currentRound && s.players == SeatPlayers(rows.seats)
    requires rows.closed == s.closed && s.round in rows.rounds && rows.rounds[s.round].status.Resolved?
    requires s.round + 1 !in rows.rounds
    requires forall k | k in rows.moves :: k.round <= s.round
    requires forall k | k in rows.requests :: k.role in rows.seats && k.round in rows.rounds && rows.rounds[k.round].status.Resolved?
    ensures var saved := Saved(rows, NextRound(s), s.round, revision);
            && saved.rounds == rows.rounds[s.round + 1 := FreshRound]
            && saved.currentRound == s.round + 1 && saved.revision == revision && saved.seats == rows.seats
            && AdvancedRows(rows, WithRoundFunded(saved, s.round + 1))
  {
    hide SavedMoves;
    var t := NextRound(s);
    var saved := Saved(rows, t, s.round, revision);
    SavedSeatFacts(rows, t, s.round, revision);
    NoMovesYet(rows.moves, t);
    assert saved.seats == rows.seats;
    assert saved.rounds == rows.rounds[s.round + 1 := FreshRound];
  }

  lemma {:induction false} SavedAdvanced(code: string, rows: RoomRows, revision: nat)
    requires RowsOk(rows) && code != "" && revision > 0 && Persisted(code, rows).resolved && !rows.closed
    ensures var s := Persisted(code, rows);
            var saved := Saved(rows, NextRound(s), s.round, revision);
            && saved.rounds == rows.rounds[rows.currentRound + 1 := FreshRound]
            && saved.currentRound == rows.currentRound + 1 && saved.revision == revision && saved.seats == rows.seats
            && AdvancedRows(rows, WithRoundFunded(saved, saved.currentRound))
            && RowsOk(WithRoundFunded(saved, saved.currentRound))
  {
    PersistedIsWellFormed(code, rows);
    var s := Persisted(code, rows);
    SavedAdvancedRows(rows, s, revision);
    AdvancedRowsOk(rows, WithRoundFunded(Saved(rows, NextRound(s), s.round, revision), s.round + 1));
  }

  // Saving a room that was left changes the room's status and nothing else.
  lemma {:induction false} SavedClosed(code: string, rows: RoomRows, revision: nat)
    requires RowsOk(rows) && code != ""
    ensures var s := Persisted(code, rows);
            Saved(rows, s.(closed := true), s.round, revision) == rows.(closed := true, revision := revision)
  {
    hide SavedMoves, SavedRequests, SavedSeats;
    PersistedIsWellFormed(code, rows);
    var s := Persisted(code, rows);
    var t := s.(closed := true);
    var after := Saved(rows, t, s.round, revision);
    SavedSeatFacts(rows, t, s.round, revision);
    assert ActionsHold(rows, t);
    SavedSameActions(rows, t);
    assert after.seats == rows.seats;
    var round := rows.rounds[rows.currentRound];
    assert RoundOk(round);
    if round.forfeitedRole.Some? {
      assert round.status.Resolved? && Full(rows);
      assert round.forfeitedRole.value.Host? || round.forfeitedRole.value.Guest?;
      assert ForfeitedRole(t) == round.forfeitedRole;
    }
    assert RoundRowOf(rows, t) == rows.rounds[rows.currentRound];
    assert after.rounds == rows.rounds;
  }

  // The rows after a guest took the second seat of the first round, which is funded.
  ghost predicate JoinedRows(rows: RoomRows, after: RoomRows, playerId: string, account: string) {
    && rows.currentRound in rows.rounds
    && after == rows.(seats := rows.seats[Guest := Seat(playerId, account, 0)], revision := after.revision, presence := after.presence,
                      rounds := rows.rounds[rows.currentRound := rows.rounds[rows.currentRound].(funded := true)])
    && after.presence.Keys == {Host, Guest}
    && forall role | role in after.presence :: after.presence[role].generation > 0
  }

  lemma {:induction false} JoinedRowsOk(rows: RoomRows, after: RoomRows, playerId: string, account: string)
    requires RowsOk(rows) && !Full(rows) && !rows.closed && JoinedRows(rows, after, playerId, account) && after.revision > 0
    requires playerId != "" && playerId != rows.seats[Host].playerId && account != rows.seats[Host].account
    ensures RowsOk(after)
  {
    forall role | role in after.seats ensures after.seats[role].wins == WinsUpTo(after.rounds, after.currentRound, role) {
      assert WinsUpTo(rows.rounds, 0, Guest) == 0 && WinsUpTo(after.rounds, 0, role) == 0;
      WinsFrame(rows.rounds, after.rounds, rows.currentRound, role);
      assert WinsUpTo(rows.rounds, 1, Guest) == 0 by { assert rows.rounds[1].result.Unset?; }
    }
  }

  function SeatGuest(rows: RoomRows, playerId: string, account: string, presence: map<Role, Presence>): RoomRows {
    rows.(seats := rows.seats[Guest := Seat(playerId, account, 0)], presence := presence)
  }

  ghost predicate CanSeatGuest(rows: RoomRows, s: RoomState, playerId: string) {
    && |s.players| == 1 && SeatsHold(rows, s) && ActionsHold(rows, s) && s.players == SeatPlayers(rows.seats)
    && (forall k | k in rows.moves :: k.role == Host)
    && (forall k | k in rows.requests :: k.role == Host)
    && playerId !in s.moves && playerId !in s.requests && s.players[0].id != playerId
  }

  lemma {:induction false} GuestHolds(rows: RoomRows, s: RoomState, playerId: string, account: string, presence: map<Role, Presence>)
    requires CanSeatGuest(rows, s, playerId)
    ensures var t := s.(players := s.players + [Player(playerId, 0)]);
            var seated := SeatGuest(rows, playerId, account, presence);
            SeatsHold(seated, t) && ActionsHold(seated, t)
  {}

  lemma {:induction false} SavedJoinedRows(rows: RoomRows, s: RoomState, playerId: string, account: string, presence: map<Role, Presence>, revision: nat)
    requires CanSeatGuest(rows, s, playerId) && !s.resolved && s.forfeited == "" && rows.closed == s.closed
    requires s.round in rows.rounds && rows.rounds[s.round] == FreshRound
    requires presence.Keys == {Host, Guest} && forall role | role in presence :: presence[role].generation > 0
    ensures var t := s.(players := s.players + [Player(playerId, 0)]);
            var after := Saved(SeatGuest(WithRoundFunded(rows, s.round), playerId, account, presence), t, s.round, revision);
            JoinedRows(rows, after, playerId, account) && after.revision == revision && after.presence == presence
  {
    var t := s.(players := s.players + [Player(playerId, 0)]);
    var funded := WithRoundFunded(rows, s.round);
    var seated := SeatGuest(funded, playerId, account, presence);
    GuestHolds(funded, s, playerId, account, presence);
    SavedSameActions(seated, t);
    var after := Saved(seated, t, s.round, revision);
    assert RoundRowOf(seated, t) == FreshRound.(funded := true);
    assert after.rounds == seated.rounds;
    assert after.seats == seated.seats;
  }
}
