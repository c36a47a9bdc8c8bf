// The room aggregate as the program runs it: an object whose operations update
// its fields. Every operation is proved to do what module Game says, and to
// leave the object untouched when it reports an error.
module Room {
  import opened Prelude
  import opened Game

  // What an operation that reports `err` may have done to the aggregate.
  ghost predicate Carries(step: Step, before: RoomState, err: Option<Error>, after: RoomState) {
    match step
    case Ok(s) => err.None? && after == s
    case Err(e) => err == Some(e) && after == before
  }

  class Room {
    var code: string
    var players: seq<Player>
    var moves: map<string, Move>
    var resolved: bool
    var result: Outcome
    var forfeitedPlayerId: string
    var round: nat
    var nextRoundRequests: set<string>
    var closed: bool

    // PersistenceState: the aggregate as one value.
    function State(): RoomState
      reads this
    {
      RoomState(code, players, round, closed, resolved, result, forfeitedPlayerId, moves, nextRoundRequests)
    }

    ghost predicate Valid()
      reads this
    {
      WellFormed(State())
    }

    constructor (s: RoomState)
      ensures State() == s
    {
      code, players, moves, resolved := s.code, s.players, s.moves, s.resolved;
      result, forfeitedPlayerId, round := s.result, s.forfeited, s.round;
      nextRoundRequests, closed := s.requests, s.closed;
    }

    method HasPlayer(id: string) returns (found: bool)
      requires Valid()
      ensures found <==> Game.HasPlayer(State(), id)
    {
      for i := 0 to |players|
        invariant forall j | 0 <= j < i :: players[j].id != id
      {
        if players[i].id == id { return true; }
      }
      return false;
    }

    method Join(playerId: string) returns (err: Option<Error>)
      requires Valid()
      modifies this
      ensures Valid() && Carries(Game.Join(old(State()), playerId), old(State()), err, State())
    {
      if closed { return Some(RoomClosed); }
      if playerId == "" { return Some(MissingPlayerId); }
      var known := HasPlayer(playerId);
      if known { return Some(DuplicatePlayer); }
      if |players| == 2 { return Some(RoomFull); }
      players := players + [Player(playerId, 0)];
      return None;
    }

    // resolve(): the result of the two moves, and the winner's reward.
    method Resolve()
      requires Valid() && !resolved && |players| == 2
      requires players[0].id in moves && players[1].id in moves
      modifies this
      ensures Valid() && State() == Decide(old(State()), MovesOutcome(old(State())), "")
    {
      var determined := DetermineResult(moves[players[0].id], moves[players[1].id]);
      result := if determined.Ok? then determined.value else Unset;
      resolved := true;
      if result == PlayerOneWins {
        players := players[0 := players[0].(wins := players[0].wins + 1)];
      } else if result == PlayerTwoWins {
        players := players[1 := players[1].(wins := players[1].wins + 1)];
      }
    }

    method SubmitMove(playerId: string, move: Move) returns (err: Option<Error>)
      requires Valid()
      modifies this
      ensures Valid() && Carries(Game.SubmitMove(old(State()), playerId, move), old(State()), err, State())
    {
      if closed { return Some(RoomClosed); }
      var known := HasPlayer(playerId);
      if !known { return Some(UnknownPlayer); }
      if |players| < 2 { return Some(RoomNotReady); }
      if resolved { return Some(RoundResolved); }
      if !IsValidMove(move) { return Some(InvalidMove); }
      if playerId in moves { return Some(DuplicateMove); }
      moves := moves[playerId := move];
      MoveCount(State());
      if |moves| == 2 {
        Resolve();
      }
      return None;
    }

    method ResetRound()
      modifies this
      ensures State() == NextRound(old(State()))
    {
      moves := map[];
      resolved := false;
      result := Unset;
      forfeitedPlayerId := "";
      round := round + 1;
      nextRoundRequests := {};
    }

    method RequestNextRound(playerId: string, expectedRound: nat) returns (err: Option<Error>)
      requires Valid()
      modifies this
      ensures Valid() && Carries(Game.RequestNextRound(old(State()), playerId, expectedRound), old(State()), err, State())
    {
      if closed { return Some(RoomClosed); }
      var known := HasPlayer(playerId);
      if !known { return Some(UnknownPlayer); }
      if !resolved { return Some(RoundNotResolved); }
      if expectedRound != round { return Some(StaleRound); }
      if playerId in nextRoundRequests { return Some(NextRoundRequested); }
      nextRoundRequests := nextRoundRequests + {playerId};
      RequestCount(State());
      if |nextRoundRequests| == |players| {
        ResetRound();
      }
      return None;
    }

    method ResolveCommittedMoves(expectedRound: nat) returns (err: Option<Error>)
      requires Valid()
      modifies this
      ensures Valid() && Carries(Game.ResolveCommittedMoves(old(State()), expectedRound), old(State()), err, State())
    {
      if closed { return Some(RoomClosed); }
      if expectedRound != round { return Some(StaleRound); }
      if resolved { return Some(RoundResolved); }
      if |players| != 2 { return Some(RoomNotReady); }
      MoveCount(State());
      if |moves| != 2 { return Some(RoundNotResolved); }
      Resolve();
      return None;
    }

    method AdvanceCommittedNextRound(expectedRound: nat) returns (err: Option<Error>)
      requires Valid()
      modifies this
      ensures Valid() && Carries(Game.AdvanceCommittedNextRound(old(State()), expectedRound), old(State()), err, State())
    {
      if closed { return Some(RoomClosed); }
      if expectedRound != round { return Some(StaleRound); }
      if !resolved { return Some(RoundNotResolved); }
      RequestCount(State());
      if |players| != 2 || |nextRoundRequests| != |players| { return Some(RoomNotReady); }
      ResetRound();
      return None;
    }

    method Leave(playerId: string) returns (err: Option<Error>)
      requires Valid()
      modifies this
      ensures Valid() && Carries(Game.Leave(old(State()), playerId), old(State()), err, State())
    {
      if closed { return Some(RoomClosed); }
      var known := HasPlayer(playerId);
      if !known { return Some(UnknownPlayer); }
      if !resolved && |players| == 2 { return Some(GameUnfinished); }
      closed := true;
      return None;
    }

    method Forfeit(playerId: string, expectedRound: nat) returns (err: Option<Error>)
      requires Valid()
      modifies this
      ensures Valid() && Carries(Game.Forfeit(old(State()), playerId, expectedRound), old(State()), err, State())
    {
      if closed { return Some(RoomClosed); }
      var known := HasPlayer(playerId);
      if !known { return Some(UnknownPlayer); }
      if expectedRound != round { return Some(StaleRound); }
      if resolved { return Some(RoundResolved); }
      if |players| != 2 { return Some(RoomNotReady); }
      resolved := true;
      forfeitedPlayerId := playerId;
      if players[0].id == playerId {
        result := PlayerTwoWins;
        players := players[1 := players[1].(wins := players[1].wins + 1)];
      } else {
        result := PlayerOneWins;
        players := players[0 := players[0].(wins := players[0].wins + 1)];
      }
      return None;
    }

    method ValidateDeadlineResolution(expectedRound: nat) returns (err: Option<Error>)
      ensures err == DeadlineGuard(State(), expectedRound)
    {
      if closed { return Some(RoomClosed); }
      if expectedRound != round { return Some(StaleRound); }
      if resolved { return Some(RoundResolved); }
      if |players| != 2 { return Some(RoomNotReady); }
      return None;
    }

    // The loop over the seats looks for the one player who moved.
    method ResolveInactivity(expectedRound: nat) returns (err: Option<Error>)
      requires Valid()
      modifies this
      ensures Valid() && Carries(Game.ResolveInactivity(old(State()), expectedRound), old(State()), err, State())
    {
      err := ValidateDeadlineResolution(expectedRound);
      if err.Some? { return; }
      MoveCount(State());
      if |moves| == 0 {
        result := Draw;
      } else if |moves| == 1 {
        ghost var before := State();
        ghost var winner := if players[0].id in moves then 0 else 1;
        for i := 0 to |players|
          invariant |players| == 2 && (players[0].id in moves <==> winner == 0) && (players[1].id in moves <==> winner == 1)
          invariant State() == if i <= winner then before else
            before.(result := if winner == 0 then PlayerOneWins else PlayerTwoWins,
                    players := before.players[winner := Player(before.players[winner].id, before.players[winner].wins + 1)])
        {
          if players[i].id in moves {
            result := if i == 0 then PlayerOneWins else PlayerTwoWins;
            players := players[i := players[i].(wins := players[i].wins + 1)];
          }
        }
      } else {
        return Some(RoundResolved);
      }
      resolved := true;
    }

    method ResolveDeadlineDraw(expectedRound: nat) returns (err: Option<Error>)
      requires Valid()
      modifies this
      ensures Valid() && Carries(Game.ResolveDeadlineDraw(old(State()), expectedRound), old(State()), err, State())
    {
      err := ValidateDeadlineResolution(expectedRound);
      if err.Some? { return; }
      resolved := true;
      result := Draw;
    }

    // State(): the public view.
    method PublicView() returns (view: View)
      requires Valid()
      ensures view == ViewOf(State())
    {
      ghost var s := State();
      var seen: seq<PlayerView> := [];
      var shown: seq<PlayerMove> := [];
      for i := 0 to |players|
        invariant seen == PlayerViews(s, players[..i])
        invariant shown == if resolved then RevealedMoves(s, players[..i]) else []
      {
        assert players[..i + 1][..i] == players[..i];
        seen := seen + [PlayerView(players[i].id, players[i].wins, players[i].id in moves, players[i].id in nextRoundRequests)];
        if resolved && players[i].id in moves {
          shown := shown + [PlayerMove(players[i].id, moves[players[i].id])];
        }
      }
      assert players[..|players|] == players;
      view := View(code, seen, |players| == 2, resolved, round, closed, shown, if resolved then result else Unset,
                   forfeitedPlayerId != "");
    }
  }

  method CheckPlayers(players: seq<Player>) returns (seen: set<string>, ok: bool)
    ensures ok <==> (forall i | 0 <= i < |players| :: players[i].id != "" && players[i].wins >= 0)
                    && (forall i, j | 0 <= i < j < |players| :: players[i].id != players[j].id)
    ensures ok ==> seen == set p | p in players :: p.id
  {
    seen := {};
    for i := 0 to |players|
      invariant seen == set p | p in players[..i] :: p.id
      invariant forall j | 0 <= j < i :: players[j].id != "" && players[j].wins >= 0
      invariant forall j, k | 0 <= j < k < i :: players[j].id != players[k].id
    {
      assert players[..i + 1] == players[..i] + [players[i]];
      if players[i].id == "" || players[i].wins < 0 { return seen, false; }
      if players[i].id in seen {
        var p :| p in players[..i] && p.id == players[i].id;
        return seen, false;
      }
      seen := seen + {players[i].id};
    }
    assert players[..|players|] == players;
    return seen, true;
  }

  method CheckMoves(moves: map<string, Move>, seen: set<string>) returns (ok: bool)
    ensures ok <==> forall id | id in moves :: id in seen && IsValidMove(moves[id])
  {
    var ids := moves.Keys;
    while ids != {}
      invariant ids <= moves.Keys
      invariant forall id | id in moves && id !in ids :: id in seen && IsValidMove(moves[id])
      decreases |ids|
    {
      var id :| id in ids;
      if id !in seen || !IsValidMove(moves[id]) { return false; }
      ids := ids - {id};
    }
    return true;
  }

  method CheckRequests(requests: set<string>, seen: set<string>) returns (ok: bool)
    ensures ok <==> forall id | id in requests :: id in seen
  {
    var ids := requests;
    while ids != {}
      invariant ids <= requests
      invariant forall id | id in requests && id !in ids :: id in seen
      decreases |ids|
    {
      var id :| id in ids;
      if id !in seen { return false; }
      ids := ids - {id};
    }
    return true;
  }

  // Restore: accepts exactly the restorable states, and rebuilds them field by field.
  method Restore(s: RoomState) returns (room: Room?, err: Option<Error>)
    ensures room != null <==> Restorable(s)
    ensures room != null ==> fresh(room) && err.None? && room.State() == s && room.Valid()
    ensures room == null ==> err == Some(InvalidState)
  {
    if s.code == "" || s.round == 0 || |s.players| < 1 || |s.players| > 2 { return null, Some(InvalidState); }
    var seen, ok := CheckPlayers(s.players);
    if !ok { return null, Some(InvalidState); }
    assert forall id :: id in seen <==> HasPlayer(s, id);
    ok := CheckMoves(s.moves, seen);
    if !ok { return null, Some(InvalidState); }
    ok := CheckRequests(s.requests, seen);
    if !ok { return null, Some(InvalidState); }
    if s.resolved {
      if |s.players| != 2 || !IsDecided(s.result) { return null, Some(InvalidState); }
      if s.forfeited == "" {
        var valid := ValidResolvedMoves(s);
        if !valid { return null, Some(InvalidState); }
      } else if s.forfeited !in seen || |s.moves| > 1 || s.result == Draw
             || (s.forfeited == s.players[0].id) != (s.result == PlayerTwoWins) {
        return null, Some(InvalidState);
      }
    } else if s.result != Unset || s.forfeited != "" || |s.requests| != 0 {
      return null, Some(InvalidState);
    }
    room := new Room(s);
    err := None;
  }

  method ValidResolvedMoves(s: RoomState) returns (valid: bool)
    requires |s.players| == 2 && s.players[0].id != s.players[1].id && IsDecided(s.result)
    requires forall id | id in s.moves :: HasPlayer(s, id)
    ensures valid <==> ResultMatchesMoves(s)
  {
    MoveCount(s);
    if |s.moves| == 2 {
      match DetermineResult(s.moves[s.players[0].id], s.moves[s.players[1].id]) {
        case Ok(o) => return o == s.result;
        case Err(_) => return false;
      }
    }
    if |s.moves| == 0 { return s.result == Draw; }
    if |s.moves| == 1 {
      if s.players[0].id in s.moves { return s.result == PlayerOneWins; }
      return s.players[1].id in s.moves && s.result == PlayerTwoWins;
    }
    return false;
  }
}
