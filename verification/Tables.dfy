// The rows of one room, what `load` reads from them and what `save` writes.
module Tables {
  import opened Prelude
  import opened Game
  import opened Money

  datatype Seat = Seat(playerId: string, account: string, wins: int)

  datatype RoundStatus = Active | Settling | Resolved

  // A NULL result is Unset, a NULL forfeited role is None.
  datatype RoundRow = RoundRow(result: Outcome, forfeitedRole: Option<Role>, status: RoundStatus, funded: bool)

  datatype RoundRole = RoundRole(round: nat, role: Role)

  datatype Presence = Presence(generation: nat, present: bool)

  // The rows that carry the room's code in the tables room_rooms, room_seats,
  // room_rounds, room_moves, room_next_round_requests and room_presence. The
  // presence table is keyed by player; a player holds one seat, so the role
  // stands for the player here.
  datatype RoomRows = RoomRows(
    closed: bool, currentRound: nat, revision: nat, seats: map<Role, Seat>, rounds: map<nat, RoundRow>,
    moves: map<RoundRole, Move>, requests: set<RoundRole>, presence: map<Role, Presence>)

  const FreshRound := RoundRow(Unset, None, Active, false)

  function WithRoundFunded(rows: RoomRows, round: nat): RoomRows
    requires round in rows.rounds
  {
    rows.(rounds := rows.rounds[round := rows.rounds[round].(funded := true)])
  }

  // ---- load ----

  function SeatPlayers(seats: map<Role, Seat>): seq<Player> {
    (if Host in seats then [Player(seats[Host].playerId, seats[Host].wins)] else []) +
    (if Guest in seats then [Player(seats[Guest].playerId, seats[Guest].wins)] else [])
  }

  function RoleMove(rows: RoomRows, role: Role): map<string, Move> {
    var key := RoundRole(rows.currentRound, role);
    if role in rows.seats && key in rows.moves then map[rows.seats[role].playerId := rows.moves[key]] else map[]
  }

  function RoleRequest(rows: RoomRows, role: Role): set<string> {
    if role in rows.seats && RoundRole(rows.currentRound, role) in rows.requests then {rows.seats[role].playerId} else {}
  }

  // The state the rows stand for, before Restore validates it.
  function Persisted(code: string, rows: RoomRows): RoomState
    requires rows.currentRound in rows.rounds
  {
    var round := rows.rounds[rows.currentRound];
    RoomState(code, SeatPlayers(rows.seats), rows.currentRound, rows.closed, !round.result.Unset?, round.result,
              match round.forfeitedRole case Some(role) => (if role in rows.seats then rows.seats[role].playerId else "") case None => "",
              RoleMove(rows, Host) + RoleMove(rows, Guest), RoleRequest(rows, Host) + RoleRequest(rows, Guest))
  }

  // ---- save ----

  predicate Seated(s: RoomState, role: Role) {
    match role case Host => |s.players| > 0 case Guest => |s.players| > 1
  }

  function PlayerAt(s: RoomState, role: Role): Player
    requires Seated(s, role)
  {
    match role case Host => s.players[0] case Guest => s.players[1]
  }

  function ForfeitedRole(s: RoomState): Option<Role> {
    if !s.resolved || s.forfeited == "" then None
    else if Seated(s, Host) && PlayerAt(s, Host).id == s.forfeited then Some(Host)
    else if Seated(s, Guest) && PlayerAt(s, Guest).id == s.forfeited then Some(Guest)
    else None
  }

  predicate MovedAt(s: RoomState, role: Role) {
    Seated(s, role) && PlayerAt(s, role).id in s.moves
  }

  predicate AskedAt(s: RoomState, role: Role) {
    Seated(s, role) && PlayerAt(s, role).id in s.requests
  }

  function RoundRowOf(rows: RoomRows, s: RoomState): RoundRow {
    RoundRow(if s.resolved then s.result else Unset, ForfeitedRole(s), if s.resolved then Resolved else Active,
             s.round in rows.rounds && rows.rounds[s.round].funded)
  }

  function RoleKeys(round: nat, host: bool, guest: bool): set<RoundRole> {
    (if host then {RoundRole(round, Host)} else {}) + (if guest then {RoundRole(round, Guest)} else {})
  }

  function SavedSeats(seats: map<Role, Seat>, s: RoomState): map<Role, Seat> {
    map role | role in seats :: if Seated(s, role) then seats[role].(wins := PlayerAt(s, role).wins) else seats[role]
  }

  function SavedMoves(moves: map<RoundRole, Move>, s: RoomState): map<RoundRole, Move> {
    map k | k in moves.Keys + RoleKeys(s.round, MovedAt(s, Host), MovedAt(s, Guest)) && (k.round == s.round ==> MovedAt(s, k.role)) ::
      if k.round == s.round && MovedAt(s, k.role) then s.moves[PlayerAt(s, k.role).id]
      else if k in moves then moves[k] else Rock
  }

  function SavedRequests(requests: set<RoundRole>, s: RoomState, previousRound: nat): set<RoundRole> {
    var left := if s.round > previousRound then RoleKeys(previousRound, Seated(s, Host), Seated(s, Guest)) else {};
    (set k | k in requests && k.round != s.round) + left + RoleKeys(s.round, AskedAt(s, Host), AskedAt(s, Guest))
  }

  // The rows after saving `s`: the current round's moves and requests become
  // those of `s`, other rounds keep theirs, and both requests that advanced
  // the room are written for the round it left.
  function Saved(rows: RoomRows, s: RoomState, previousRound: nat, revision: nat): RoomRows {
    rows.(closed := s.closed, currentRound := s.round, revision := revision,
          seats := SavedSeats(rows.seats, s), rounds := rows.rounds[s.round := RoundRowOf(rows, s)],
          moves := SavedMoves(rows.moves, s), requests := SavedRequests(rows.requests, s, previousRound))
  }

  // The seats hold the players of `s`, in order.
  predicate SeatsHold(rows: RoomRows, s: RoomState) {
    && (Host in rows.seats <==> Seated(s, Host)) && (Guest in rows.seats <==> Seated(s, Guest))
    && (Seated(s, Host) ==> rows.seats[Host].playerId == s.players[0].id)
    && (Seated(s, Guest) ==> rows.seats[Guest].playerId == s.players[1].id)
  }

  // Loading what was saved reads back the saved state, and so gives the same
  // answer as restoring that state directly.
  lemma {:induction false} SaveThenLoad(code: string, rows: RoomRows, s: RoomState, previousRound: nat, revision: nat)
    requires WellFormed(s) && s.code == code && SeatsHold(rows, s)
    ensures Persisted(code, Saved(rows, s, previousRound, revision)) == s
    ensures Restore(Persisted(code, Saved(rows, s, previousRound, revision))) == Restore(s)
  {
    hide RoleMove, RoleRequest, SavedMoves, SavedRequests, Restorable;
    var t := Persisted(code, Saved(rows, s, previousRound, revision));
    assert t.players == s.players;
    LoadedMoves(rows, s, previousRound, revision);
    LoadedRequests(rows, s, previousRound, revision);
  }

  lemma {:induction false} LoadedRequest(rows: RoomRows, s: RoomState, previousRound: nat, revision: nat, role: Role)
    requires SeatsHold(rows, s)
    ensures RoleRequest(Saved(rows, s, previousRound, revision), role) == if AskedAt(s, role) then {PlayerAt(s, role).id} else {}
  {
    hide SavedMoves, RoundRowOf;
    assert role == Host || role == Guest;
  }

  lemma {:induction false} LoadedRequests(rows: RoomRows, s: RoomState, previousRound: nat, revision: nat)
    requires WellFormed(s) && SeatsHold(rows, s)
    ensures var after := Saved(rows, s, previousRound, revision);
            RoleRequest(after, Host) + RoleRequest(after, Guest) == s.requests
  {
    hide Saved, RoleRequest, SeatsHold;
    LoadedRequest(rows, s, previousRound, revision, Host);
    LoadedRequest(rows, s, previousRound, revision, Guest);
    forall id | id in s.requests ensures (AskedAt(s, Host) && PlayerAt(s, Host).id == id) || (AskedAt(s, Guest) && PlayerAt(s, Guest).id == id) {
      assert HasPlayer(s, id);
    }
  }

  lemma {:induction false} LoadedMove(rows: RoomRows, s: RoomState, previousRound: nat, revision: nat, role: Role)
    requires SeatsHold(rows, s)
    ensures RoleMove(Saved(rows, s, previousRound, revision), role)
         == if MovedAt(s, role) then map[PlayerAt(s, role).id := s.moves[PlayerAt(s, role).id]] else map[]
  {
    hide SavedRequests, RoundRowOf;
    assert role == Host || role == Guest;
  }

  lemma {:induction false} LoadedMoves(rows: RoomRows, s: RoomState, previousRound: nat, revision: nat)
    requires WellFormed(s) && SeatsHold(rows, s)
    ensures var after := Saved(rows, s, previousRound, revision);
            RoleMove(after, Host) + RoleMove(after, Guest) == s.moves
  {
    hide Saved, RoleMove, SeatsHold;
    LoadedMove(rows, s, previousRound, revision, Host);
    LoadedMove(rows, s, previousRound, revision, Guest);
    forall id | id in s.moves ensures (MovedAt(s, Host) && PlayerAt(s, Host).id == id) || (MovedAt(s, Guest) && PlayerAt(s, Guest).id == id) {
      assert HasPlayer(s, id);
    }
  }

  lemma {:induction false} SavedMovesElsewhere(moves: map<RoundRole, Move>, s: RoomState)
    ensures forall k: RoundRole | k.round != s.round ::
              (k in SavedMoves(moves, s) <==> k in moves) && (k in moves ==> SavedMoves(moves, s)[k] == moves[k])
  {
    hide MovedAt;
  }

  lemma {:induction false} SavedRequestsElsewhere(requests: set<RoundRole>, s: RoomState, previousRound: nat)
    ensures forall k: RoundRole | k.round != s.round ::
              k in SavedRequests(requests, s, previousRound) <==>
                k in requests || (s.round > previousRound && k.round == previousRound && Seated(s, k.role))
  {
    hide AskedAt;
    forall k: RoundRole | k.round != s.round
      ensures k in SavedRequests(requests, s, previousRound) <==>
                k in requests || (s.round > previousRound && k.round == previousRound && Seated(s, k.role)) {
      assert k.role == Host || k.role == Guest;
    }
  }

  lemma {:induction false} SavedSeatsKept(seats: map<Role, Seat>, s: RoomState)
    ensures SavedSeats(seats, s).Keys == seats.Keys
    ensures forall role | role in seats :: SavedSeats(seats, s)[role].playerId == seats[role].playerId && SavedSeats(seats, s)[role].account == seats[role].account
  {}

  // Saving touches nothing of other rounds, except that advancing writes the
  // requests of the round that was left.
  lemma {:induction false} SaveKeepsOtherRounds(rows: RoomRows, s: RoomState, previousRound: nat, revision: nat)
    ensures var after := Saved(rows, s, previousRound, revision);
            && (forall n | n != s.round :: n in after.rounds <==> n in rows.rounds)
            && (forall n | n != s.round && n in rows.rounds :: after.rounds[n] == rows.rounds[n])
            && (forall k: RoundRole | k.round != s.round :: k in after.moves <==> k in rows.moves)
            && (forall k: RoundRole | k.round != s.round && k in rows.moves :: after.moves[k] == rows.moves[k])
            && (forall k: RoundRole | k.round != s.round ::
                  k in after.requests <==>
                    (k in rows.requests || (s.round > previousRound && k.round == previousRound && Seated(s, k.role))))
            && after.presence == rows.presence
            && after.seats.Keys == rows.seats.Keys
            && (forall role | role in rows.seats ::
                  after.seats[role].playerId == rows.seats[role].playerId && after.seats[role].account == rows.seats[role].account)
  {
    hide SavedMoves, SavedRequests, SavedSeats, RoundRowOf;
    SavedMovesElsewhere(rows.moves, s);
    SavedRequestsElsewhere(rows.requests, s, previousRound);
    SavedSeatsKept(rows.seats, s);
  }
}
