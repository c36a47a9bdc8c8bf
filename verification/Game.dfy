// The rules of the room aggregate (domain/room.go) as functions on values.
// Class Room.Room changes its fields step by step and is proved against them.
module Game {
  import opened Prelude

  datatype Move = Rock | Paper | Scissors | OtherMove(text: string)

  // Unset is the empty result of an unresolved round.
  datatype Outcome = Unset | Draw | PlayerOneWins | PlayerTwoWins | OtherOutcome(text: string)

  datatype Player = Player(id: string, wins: int)

  // The complete state of an aggregate, which is also the record it is
  // persisted as. `forfeited` is empty when nobody forfeited.
  datatype RoomState = RoomState(
    code: string, players: seq<Player>, round: nat, closed: bool, resolved: bool, result: Outcome,
    forfeited: string, moves: map<string, Move>, requests: set<string>)

  type Step = Result<RoomState, Error>

  predicate IsValidMove(m: Move) {
    !m.OtherMove?
  }

  predicate IsDecided(o: Outcome) {
    o.Draw? || o.PlayerOneWins? || o.PlayerTwoWins?
  }

  predicate Beats(m: Move, n: Move) {
    (m.Rock? && n.Scissors?) || (m.Paper? && n.Rock?) || (m.Scissors? && n.Paper?)
  }

  function DetermineResult(one: Move, two: Move): Result<Outcome, Error> {
    if !IsValidMove(one) || !IsValidMove(two) then Err(InvalidMove)
    else if one == two then Ok(Draw)
    else if Beats(one, two) then Ok(PlayerOneWins)
    else Ok(PlayerTwoWins)
  }

  // The game is fair: seats do not matter, equal moves draw, and of three
  // different moves each beats exactly one other, paper the rock.
  lemma {:induction false} RulesAreFair(one: Move, two: Move)
    requires IsValidMove(one) && IsValidMove(two)
    ensures DetermineResult(one, two) == Ok(Draw) <==> one == two
    ensures DetermineResult(one, two) == Ok(PlayerOneWins) <==> DetermineResult(two, one) == Ok(PlayerTwoWins)
    ensures one != two ==>
              forall three | IsValidMove(three) && three != one && three != two ::
                DetermineResult(one, three) == Ok(PlayerOneWins) <==> DetermineResult(one, two) == Ok(PlayerTwoWins)
    ensures DetermineResult(Paper, Rock) == Ok(PlayerOneWins)
  {}

  predicate HasPlayer(s: RoomState, id: string) {
    (|s.players| > 0 && s.players[0].id == id) || (|s.players| > 1 && s.players[1].id == id)
  }

  // What every aggregate satisfies, whichever operations it went through.
  ghost predicate WellFormed(s: RoomState) {
    && s.code != "" && s.round > 0 && 1 <= |s.players| <= 2
    && (forall i | 0 <= i < |s.players| :: s.players[i].id != "" && s.players[i].wins >= 0)
    && (|s.players| == 2 ==> s.players[0].id != s.players[1].id)
    && (forall id | id in s.moves :: HasPlayer(s, id) && IsValidMove(s.moves[id]))
    && (forall id | id in s.requests :: HasPlayer(s, id))
    && if s.resolved then
         |s.players| == 2 && IsDecided(s.result) && (s.forfeited == "" || HasPlayer(s, s.forfeited))
       else
         s.result.Unset? && s.forfeited == "" && s.requests == {}
  }

  // The result of a resolved round is the one its recorded moves call for.
  ghost predicate ResultMatchesMoves(s: RoomState)
    requires |s.players| == 2
  {
    var one, two := s.players[0].id, s.players[1].id;
    if |s.moves| == 2 then
      one in s.moves && two in s.moves && DetermineResult(s.moves[one], s.moves[two]) == Ok(s.result)
    else if |s.moves| == 1 then
      if one in s.moves then s.result.PlayerOneWins? else two in s.moves && s.result.PlayerTwoWins?
    else
      |s.moves| == 0 && s.result.Draw?
  }

  // A forfeited round has at most one move and is won by the other player.
  ghost predicate ResultMatchesForfeit(s: RoomState)
    requires |s.players| == 2
  {
    && |s.moves| <= 1
    && !s.result.Draw?
    && (s.forfeited == s.players[0].id <==> s.result.PlayerTwoWins?)
  }

  // What Restore accepts.
  ghost predicate Restorable(s: RoomState) {
    && WellFormed(s)
    && (s.resolved ==> if s.forfeited == "" then ResultMatchesMoves(s) else ResultMatchesForfeit(s))
  }

  ghost function Restore(s: RoomState): Step {
    if Restorable(s) then Ok(s) else Err(InvalidState)
  }

  function Fresh(code: string, host: string): RoomState {
    RoomState(code, [Player(host, 0)], 1, false, false, Unset, "", map[], {})
  }

  function New(code: string, host: string): Step {
    if code == "" then Err(EmptyCode)
    else if host == "" then Err(MissingPlayerId)
    else Ok(Fresh(code, host))
  }

  // The players after a round ends with outcome `o`.
  function Rewarded(players: seq<Player>, o: Outcome): seq<Player>
    requires |players| == 2
  {
    if o.PlayerOneWins? then players[0 := Player(players[0].id, players[0].wins + 1)]
    else if o.PlayerTwoWins? then players[1 := Player(players[1].id, players[1].wins + 1)]
    else players
  }

  function Decide(s: RoomState, o: Outcome, forfeited: string): RoomState
    requires |s.players| == 2
  {
    s.(resolved := true, result := o, forfeited := forfeited, players := Rewarded(s.players, o))
  }

  function NextRound(s: RoomState): RoomState {
    s.(moves := map[], resolved := false, result := Unset, forfeited := "", round := s.round + 1, requests := {})
  }

  // The outcome of the two moves of a round.
  function MovesOutcome(s: RoomState): Outcome
    requires |s.players| == 2 && s.players[0].id in s.moves && s.players[1].id in s.moves
  {
    match DetermineResult(s.moves[s.players[0].id], s.moves[s.players[1].id])
    case Ok(o) => o
    case Err(_) => Unset
  }

  lemma {:induction false} MoveCount(s: RoomState)
    requires |s.players| == 2 && s.players[0].id != s.players[1].id
    requires forall id | id in s.moves :: HasPlayer(s, id)
    ensures |s.moves| == (if s.players[0].id in s.moves then 1 else 0) + (if s.players[1].id in s.moves then 1 else 0)
  {
    var one, two := s.players[0].id, s.players[1].id;
    var keys := (if one in s.moves then {one} else {}) + (if two in s.moves then {two} else {});
    assert s.moves.Keys == keys;
  }

  lemma {:induction false} RequestCount(s: RoomState)
    requires |s.players| == 2 && s.players[0].id != s.players[1].id
    requires forall id | id in s.requests :: HasPlayer(s, id)
    ensures |s.requests| == (if s.players[0].id in s.requests then 1 else 0) + (if s.players[1].id in s.requests then 1 else 0)
  {
    var one, two := s.players[0].id, s.players[1].id;
    assert s.requests == (if one in s.requests then {one} else {}) + (if two in s.requests then {two} else {});
  }

  ghost function Join(s: RoomState, id: string): (r: Step)
    requires WellFormed(s)
    ensures r.Ok? ==> WellFormed(r.value)
  {
    if s.closed then Err(RoomClosed)
    else if id == "" then Err(MissingPlayerId)
    else if HasPlayer(s, id) then Err(DuplicatePlayer)
    else if |s.players| == 2 then Err(RoomFull)
    else Ok(s.(players := s.players + [Player(id, 0)]))
  }

  ghost function SubmitMove(s: RoomState, id: string, move: Move): (r: Step)
    requires WellFormed(s)
    ensures r.Ok? ==> WellFormed(r.value)
  {
    if s.closed then Err(RoomClosed)
    else if !HasPlayer(s, id) then Err(UnknownPlayer)
    else if |s.players| < 2 then Err(RoomNotReady)
    else if s.resolved then Err(RoundResolved)
    else if !IsValidMove(move) then Err(InvalidMove)
    else if id in s.moves then Err(DuplicateMove)
    else
      var moved := s.(moves := s.moves[id := move]);
      if s.players[0].id in moved.moves && s.players[1].id in moved.moves
      then Ok(Decide(moved, MovesOutcome(moved), ""))
      else Ok(moved)
  }

  ghost function RequestNextRound(s: RoomState, id: string, round: nat): (r: Step)
    requires WellFormed(s)
    ensures r.Ok? ==> WellFormed(r.value)
  {
    if s.closed then Err(RoomClosed)
    else if !HasPlayer(s, id) then Err(UnknownPlayer)
    else if !s.resolved then Err(RoundNotResolved)
    else if round != s.round then Err(StaleRound)
    else if id in s.requests then Err(NextRoundRequested)
    else
      var asked := s.(requests := s.requests + {id});
      if s.players[0].id in asked.requests && s.players[1].id in asked.requests then Ok(NextRound(asked)) else Ok(asked)
  }

  ghost function ResolveCommittedMoves(s: RoomState, round: nat): (r: Step)
    requires WellFormed(s)
    ensures r.Ok? ==> WellFormed(r.value)
  {
    if s.closed then Err(RoomClosed)
    else if round != s.round then Err(StaleRound)
    else if s.resolved then Err(RoundResolved)
    else if |s.players| != 2 then Err(RoomNotReady)
    else if s.players[0].id !in s.moves || s.players[1].id !in s.moves then Err(RoundNotResolved)
    else Ok(Decide(s, MovesOutcome(s), ""))
  }

  ghost function AdvanceCommittedNextRound(s: RoomState, round: nat): (r: Step)
    requires WellFormed(s)
    ensures r.Ok? ==> WellFormed(r.value)
  {
    if s.closed then Err(RoomClosed)
    else if round != s.round then Err(StaleRound)
    else if !s.resolved then Err(RoundNotResolved)
    else if s.players[0].id !in s.requests || s.players[1].id !in s.requests then Err(RoomNotReady)
    else Ok(NextRound(s))
  }

  ghost function Leave(s: RoomState, id: string): (r: Step)
    requires WellFormed(s)
    ensures r.Ok? ==> WellFormed(r.value)
  {
    if s.closed then Err(RoomClosed)
    else if !HasPlayer(s, id) then Err(UnknownPlayer)
    else if !s.resolved && |s.players| == 2 then Err(GameUnfinished)
    else Ok(s.(closed := true))
  }

  ghost function Forfeit(s: RoomState, id: string, round: nat): (r: Step)
    requires WellFormed(s)
    ensures r.Ok? ==> WellFormed(r.value)
  {
    if s.closed then Err(RoomClosed)
    else if !HasPlayer(s, id) then Err(UnknownPlayer)
    else if round != s.round then Err(StaleRound)
    else if s.resolved then Err(RoundResolved)
    else if |s.players| != 2 then Err(RoomNotReady)
    else Ok(Decide(s, if s.players[0].id == id then PlayerTwoWins else PlayerOneWins, id))
  }

  ghost function DeadlineGuard(s: RoomState, round: nat): Option<Error> {
    if s.closed then Some(RoomClosed)
    else if round != s.round then Some(StaleRound)
    else if s.resolved then Some(RoundResolved)
    else if |s.players| != 2 then Some(RoomNotReady)
    else None
  }

  // Nobody moved: a draw. One player moved: that player wins. Two moves are
  // left to be resolved by the moves themselves.
  ghost function ResolveInactivity(s: RoomState, round: nat): (r: Step)
    requires WellFormed(s)
    ensures r.Ok? ==> WellFormed(r.value)
  {
    match DeadlineGuard(s, round)
    case Some(e) => Err(e)
    case None =>
      var one, two := s.players[0].id in s.moves, s.players[1].id in s.moves;
      if one && two then Err(RoundResolved)
      else Ok(Decide(s, if one then PlayerOneWins else if two then PlayerTwoWins else Draw, ""))
  }

  ghost function ResolveDeadlineDraw(s: RoomState, round: nat): (r: Step)
    requires WellFormed(s)
    ensures r.Ok? ==> WellFormed(r.value)
  {
    match DeadlineGuard(s, round)
    case Some(e) => Err(e)
    case None => Ok(Decide(s, Draw, ""))
  }

  // What a player may see: moves and result only once the round is resolved.
  datatype PlayerView = PlayerView(id: string, wins: int, submitted: bool, wantsNextRound: bool)
  datatype PlayerMove = PlayerMove(playerId: string, move: Move)
  datatype View = View(
    code: string, players: seq<PlayerView>, ready: bool, resolved: bool, round: nat, closed: bool,
    moves: seq<PlayerMove>, result: Outcome, forfeit: bool)

  function PlayerViewOf(s: RoomState, p: Player): PlayerView {
    PlayerView(p.id, p.wins, p.id in s.moves, p.id in s.requests)
  }

  function PlayerViews(s: RoomState, players: seq<Player>): (views: seq<PlayerView>)
    ensures |views| == |players|
    ensures forall i | 0 <= i < |players| :: views[i] == PlayerViewOf(s, players[i])
  {
    if players == [] then []
    else PlayerViews(s, players[..|players| - 1]) + [PlayerViewOf(s, players[|players| - 1])]
  }

  function RevealedMoves(s: RoomState, players: seq<Player>): seq<PlayerMove> {
    if players == [] then []
    else
      var p := players[|players| - 1];
      RevealedMoves(s, players[..|players| - 1]) + (if p.id in s.moves then [PlayerMove(p.id, s.moves[p.id])] else [])
  }

  function ViewOf(s: RoomState): View {
    View(s.code, PlayerViews(s, s.players), |s.players| == 2,
         s.resolved, s.round, s.closed, if s.resolved then RevealedMoves(s, s.players) else [],
         if s.resolved then s.result else Unset, s.forfeited != "")
  }
}
