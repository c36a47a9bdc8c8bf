// The frames sent to browsers: a projection of the public view in terms of
// roles, filled slice by slice.
module Frames {
  import opened Prelude
  import opened Game
  import opened GameRuns
  import opened Money

  datatype FramePlayer = FramePlayer(role: Role, wins: int, submitted: bool, wantsNextRound: bool)

  datatype FrameMove = FrameMove(role: Option<Role>, move: Move)

  datatype FrameRoom = FrameRoom(
    code: string, ready: bool, resolved: bool, round: nat, closed: bool, forfeit: bool,
    players: seq<FramePlayer>, result: Outcome, moves: seq<FrameMove>)

  datatype Snapshot = Snapshot(view: View, revision: nat, presence: map<Role, bool>)

  datatype Frame = Frame(revision: nat, room: FrameRoom, presence: map<Role, bool>, accountId: string, role: Role)

  function SeatRole(index: nat): Role {
    if index == 0 then Host else Guest
  }

  // The role of the last player with this id.
  function RoleNamed(players: seq<PlayerView>, id: string): Option<Role> {
    if players == [] then None
    else if players[|players| - 1].id == id then Some(SeatRole(|players| - 1))
    else RoleNamed(players[..|players| - 1], id)
  }

  function FramePlayers(players: seq<PlayerView>): seq<FramePlayer> {
    if players == [] then [] else
      var n := |players| - 1;
      FramePlayers(players[..n]) + [FramePlayer(SeatRole(n), players[n].wins, players[n].submitted, players[n].wantsNextRound)]
  }

  function FrameMoves(players: seq<PlayerView>, moves: seq<PlayerMove>): seq<FrameMove> {
    if moves == [] then [] else
      var n := |moves| - 1;
      FrameMoves(players, moves[..n]) + [FrameMove(RoleNamed(players, moves[n].playerId), moves[n].move)]
  }

  function FrameOf(s: Snapshot, accountId: string, role: Role): Frame {
    var v := s.view;
    Frame(s.revision,
          FrameRoom(v.code, v.ready, v.resolved, v.round, v.closed, v.forfeit, FramePlayers(v.players),
                    if v.resolved then v.result else Unset, if v.resolved then FrameMoves(v.players, v.moves) else []),
          s.presence, accountId, role)
  }

  method SnapshotFrame(s: Snapshot, accountId: string, role: Role) returns (frame: Frame)
    ensures frame == FrameOf(s, accountId, role)
  {
    var v := s.view;
    var players: seq<FramePlayer> := [];
    var roles: map<string, Role> := map[];
    for index := 0 to |v.players|
      invariant players == FramePlayers(v.players[..index])
      invariant forall id :: (if id in roles then Some(roles[id]) else None) == RoleNamed(v.players[..index], id)
    {
      assert v.players[..index + 1][..index] == v.players[..index];
      var playerRole := Guest;
      if index == 0 { playerRole := Host; }
      roles := roles[v.players[index].id := playerRole];
      players := players + [FramePlayer(playerRole, v.players[index].wins, v.players[index].submitted, v.players[index].wantsNextRound)];
    }
    assert v.players[..|v.players|] == v.players;
    var room := FrameRoom(v.code, v.ready, v.resolved, v.round, v.closed, v.forfeit, players, Unset, []);
    if v.resolved {
      var moves: seq<FrameMove> := [];
      for index := 0 to |v.moves|
        invariant moves == FrameMoves(v.players, v.moves[..index])
      {
        assert v.moves[..index + 1][..index] == v.moves[..index];
        var id := v.moves[index].playerId;
        moves := moves + [FrameMove(if id in roles then Some(roles[id]) else None, v.moves[index].move)];
      }
      assert v.moves[..|v.moves|] == v.moves;
      room := room.(result := v.result, moves := moves);
    }
    return Frame(s.revision, room, s.presence, accountId, role);
  }

  lemma {:induction false} ViewOfTwo(s: RoomState)
    requires WellFormed(s) && |s.players| == 2
    ensures ViewOf(s).players == [PlayerViewOf(s, s.players[0]), PlayerViewOf(s, s.players[1])]
    ensures RevealedMoves(s, s.players) == MoveOf(s, s.players[0].id) + MoveOf(s, s.players[1].id)
  {
    var host, guest := s.players[0], s.players[1];
    assert s.players[..1] == [host] && s.players[..1][..0] == [];
    assert RevealedMoves(s, s.players[..1]) == MoveOf(s, host.id);
  }

  function MoveOf(s: RoomState, id: string): seq<PlayerMove> {
    if id in s.moves then [PlayerMove(id, s.moves[id])] else []
  }

  lemma {:induction false} FramePlayersOfTwo(a: PlayerView, b: PlayerView)
    requires a.id != b.id
    ensures FramePlayers([a, b]) == [FramePlayer(Host, a.wins, a.submitted, a.wantsNextRound), FramePlayer(Guest, b.wins, b.submitted, b.wantsNextRound)]
    ensures RoleNamed([a, b], a.id) == Some(Host) && RoleNamed([a, b], b.id) == Some(Guest)
  {
    assert [a, b][..1] == [a] && [a][..0] == [];
    assert RoleNamed([a], a.id) == Some(Host);
    assert FramePlayers([a]) == [FramePlayer(Host, a.wins, a.submitted, a.wantsNextRound)];
  }

  lemma {:induction false} FrameMovesOfTwo(players: seq<PlayerView>, first: seq<PlayerMove>, second: seq<PlayerMove>)
    requires |first| <= 1 && |second| <= 1
    ensures FrameMoves(players, first + second) == FrameMoves(players, first) + FrameMoves(players, second)
    ensures |first| == 1 ==> FrameMoves(players, first) == [FrameMove(RoleNamed(players, first[0].playerId), first[0].move)]
    ensures |second| == 1 ==> FrameMoves(players, second) == [FrameMove(RoleNamed(players, second[0].playerId), second[0].move)]
  {
    if |second| == 1 {
      assert (first + second)[..|first|] == first;
      assert second[..0] == [];
    } else {
      assert first + second == first;
    }
    if |first| == 1 { assert first[..0] == []; }
  }

  // What the frame says about the moves of a room: nothing before the round is
  // resolved, and afterwards each recorded move under its player's role.
  lemma {:induction false} FramesTellMovesByRole(s: RoomState, revision: nat, presence: map<Role, bool>, accountId: string, role: Role)
    requires WellFormed(s) && |s.players| == 2
    ensures var room := FrameOf(Snapshot(ViewOf(s), revision, presence), accountId, role).room;
            var host, guest := s.players[0].id, s.players[1].id;
            && (!s.resolved ==> room.moves == [] && room.result.Unset?)
            && (s.resolved ==> room.result == s.result)
            && (s.resolved ==> room.moves == (if host in s.moves then [FrameMove(Some(Host), s.moves[host])] else [])
                                             + (if guest in s.moves then [FrameMove(Some(Guest), s.moves[guest])] else []))
            && |room.players| == 2 && room.players[0].role == Host && room.players[1].role == Guest
            && room.players[0].wins == s.players[0].wins && room.players[1].wins == s.players[1].wins
  {
    hide WellFormed, FrameMoves, FramePlayers, RoleNamed, RevealedMoves, PlayerViews;
    var host, guest := s.players[0].id, s.players[1].id;
    DifferentPlayers(s);
    ViewOfTwo(s);
    var players := ViewOf(s).players;
    FramePlayersOfTwo(players[0], players[1]);
    FrameMovesOfTwo(players, MoveOf(s, host), MoveOf(s, guest));
    NoFrameMoves(players);
  }

  // What else the frame says of a room, with one player or two: everything as
  // the aggregate has it, each player under its role, and a player's move or
  // request only as made or not.
  lemma {:induction false} FramesTellTheRoom(s: RoomState, revision: nat, presence: map<Role, bool>, accountId: string, role: Role)
    requires WellFormed(s)
    ensures var frame := FrameOf(Snapshot(ViewOf(s), revision, presence), accountId, role);
            var room := frame.room;
            && frame.revision == revision && frame.presence == presence && frame.accountId == accountId && frame.role == role
            && room.code == s.code && room.round == s.round
            && (room.ready <==> |s.players| == 2) && (room.resolved <==> s.resolved) && (room.closed <==> s.closed)
            && (room.forfeit <==> s.forfeited != "") && room.result == s.result
            && |room.players| == |s.players|
            && forall k | 0 <= k < |s.players| ::
                 room.players[k] == FramePlayer(if k == 0 then Host else Guest, s.players[k].wins, s.players[k].id in s.moves, s.players[k].id in s.requests)
  {
    hide FrameMoves, FramePlayers, RevealedMoves, PlayerViews;
    FramedPlayers(ViewOf(s).players);
    forall k | 0 <= k < |s.players| ensures |ViewOf(s).players| == |s.players| && ViewOf(s).players[k] == PlayerViewOf(s, s.players[k]) {
      ViewedPlayer(s, k);
    }
  }

  lemma {:induction false} FramedPlayers(players: seq<PlayerView>)
    ensures |FramePlayers(players)| == |players|
    ensures forall k | 0 <= k < |players| ::
              FramePlayers(players)[k] == FramePlayer(SeatRole(k), players[k].wins, players[k].submitted, players[k].wantsNextRound)
  {
    if players != [] { FramedPlayers(players[..|players| - 1]); }
  }

  lemma {:induction false} DifferentPlayers(s: RoomState)
    requires WellFormed(s) && |s.players| == 2
    ensures s.players[0].id != s.players[1].id
  {}

  lemma {:induction false} NoFrameMoves(players: seq<PlayerView>)
    ensures FrameMoves(players, []) == []
  {}

  // Before the round resolves, the frames of two runs that differ only in the
  // moves chosen are the same.
  lemma {:induction false} FramesKeepMovesSecret(s: RoomState, ops: seq<Op>, other: seq<Op>, next: Op, otherNext: Op,
                              revision: nat, presence: map<Role, bool>, accountId: string, role: Role)
    requires WellFormed(s) && !s.resolved && SameOps(ops, other) && SameUpToMove(next, otherNext)
    requires UnresolvedBefore(s, ops + [next])
    ensures FrameOf(Snapshot(ViewOf(Run(s, ops)), revision, presence), accountId, role)
         == FrameOf(Snapshot(ViewOf(Run(s, other)), revision, presence), accountId, role)
  {
    MovesStaySecret(s, ops, other, next, otherNext);
  }
}
