// Properties of every run of the aggregate: what is kept, when a saved state
// can be read back, how wins are counted, and what stays secret.
module GameRuns {
  import opened Prelude
  import opened Game

  datatype Op =
    | OpJoin(id: string)
    | OpSubmit(id: string, move: Move)
    | OpRequest(id: string, round: nat)
    | OpResolve(round: nat)
    | OpAdvance(round: nat)
    | OpLeave(id: string)
    | OpForfeit(id: string, round: nat)
    | OpInactivity(round: nat)
    | OpDeadlineDraw(round: nat)

  ghost function Apply(s: RoomState, op: Op): (r: Step)
    requires WellFormed(s)
    ensures r.Ok? ==> WellFormed(r.value)
  {
    match op
    case OpJoin(id) => Join(s, id)
    case OpSubmit(id, move) => SubmitMove(s, id, move)
    case OpRequest(id, round) => RequestNextRound(s, id, round)
    case OpResolve(round) => ResolveCommittedMoves(s, round)
    case OpAdvance(round) => AdvanceCommittedNextRound(s, round)
    case OpLeave(id) => Leave(s, id)
    case OpForfeit(id, round) => Forfeit(s, id, round)
    case OpInactivity(round) => ResolveInactivity(s, round)
    case OpDeadlineDraw(round) => ResolveDeadlineDraw(s, round)
  }

  // A rejected operation leaves the aggregate as it was.
  ghost function After(s: RoomState, op: Op): (t: RoomState)
    requires WellFormed(s)
    ensures WellFormed(t)
  {
    match Apply(s, op)
    case Ok(t) => t
    case Err(_) => s
  }

  ghost function Run(s: RoomState, ops: seq<Op>): (t: RoomState)
    requires WellFormed(s)
    ensures WellFormed(t)
  {
    if ops == [] then s else After(Run(s, ops[..|ops| - 1]), ops[|ops| - 1])
  }

  // ---- What is always refused ----

  // The round an operation is meant for, and the player it speaks for.
  function RoundOf(op: Op): Option<nat> {
    match op
    case OpRequest(_, round) => Some(round)
    case OpResolve(round) => Some(round)
    case OpAdvance(round) => Some(round)
    case OpForfeit(_, round) => Some(round)
    case OpInactivity(round) => Some(round)
    case OpDeadlineDraw(round) => Some(round)
    case _ => None
  }

  function ActorOf(op: Op): Option<string> {
    match op
    case OpSubmit(id, _) => Some(id)
    case OpRequest(id, _) => Some(id)
    case OpLeave(id) => Some(id)
    case OpForfeit(id, _) => Some(id)
    case _ => None
  }

  // A closed room refuses everything; a stale operation, a stranger's, and one
  // that comes before or after its part of the round are refused as well.
  lemma {:induction false} RefusedOperations(s: RoomState, op: Op)
    requires WellFormed(s)
    ensures s.closed ==> Apply(s, op) == Err(RoomClosed)
    ensures RoundOf(op).Some? && RoundOf(op).value != s.round ==> Apply(s, op).Err?
    ensures ActorOf(op).Some? && !HasPlayer(s, ActorOf(op).value) ==> Apply(s, op) == Err(if s.closed then RoomClosed else UnknownPlayer)
    ensures op.OpSubmit? || op.OpResolve? || op.OpForfeit? || op.OpInactivity? || op.OpDeadlineDraw? ==> (s.resolved || |s.players| < 2 ==> Apply(s, op).Err?)
    ensures (op.OpRequest? || op.OpAdvance?) && !s.resolved ==> Apply(s, op).Err?
    ensures op.OpSubmit? && !IsValidMove(op.move) ==> Apply(s, op).Err?
  {
    hide MovesOutcome, Decide;
  }

  // ---- What players see ----

  // What an accepted operation does to the player at `k`.
  ghost predicate ActsOn(s: RoomState, t: RoomState, op: Op, k: nat)
    requires k < |s.players| && k < |t.players|
  {
    var id := s.players[k].id;
    && t.players[k].id == id
    && (id in t.moves <==> t.round == s.round && (id in s.moves || (op.OpSubmit? && op.id == id)))
    && (id in t.requests <==> t.round == s.round && (id in s.requests || (op.OpRequest? && op.id == id)))
    && t.players[k].wins == s.players[k].wins + if !s.resolved && t.resolved && t.result == (if k == 0 then PlayerOneWins else PlayerTwoWins) then 1 else 0
  }

  lemma {:induction false} DecidingActs(s: RoomState, o: Outcome, forfeited: string, op: Op, k: nat)
    requires |s.players| == 2 && k < 2 && !s.resolved && !op.OpSubmit? && !op.OpRequest?
    ensures ActsOn(s, Decide(s, o, forfeited), op, k)
  {}

  lemma {:induction false} SubmittingActs(s: RoomState, id: string, move: Move, k: nat)
    requires WellFormed(s) && SubmitMove(s, id, move).Ok? && k < |s.players|
    ensures k < |SubmitMove(s, id, move).value.players| && ActsOn(s, SubmitMove(s, id, move).value, OpSubmit(id, move), k)
  {
    hide MovesOutcome;
    TwoPlayers(s);
  }

  lemma {:induction false} TwoPlayers(s: RoomState)
    requires WellFormed(s)
    ensures |s.players| <= 2 && (|s.players| == 2 ==> s.players[0].id != s.players[1].id)
  {}

  lemma {:induction false} RequestingActs(s: RoomState, id: string, round: nat, k: nat)
    requires WellFormed(s) && RequestNextRound(s, id, round).Ok? && k < |s.players|
    ensures k < |RequestNextRound(s, id, round).value.players| && ActsOn(s, RequestNextRound(s, id, round).value, OpRequest(id, round), k)
  {
    hide WellFormed;
  }

  lemma {:induction false} OperationsAct(s: RoomState, op: Op, k: nat)
    requires WellFormed(s) && Apply(s, op).Ok? && k < |s.players|
    ensures k < |Apply(s, op).value.players| && ActsOn(s, Apply(s, op).value, op, k)
  {
    hide WellFormed, MovesOutcome;
    match op {
      case OpSubmit(id, move) => SubmittingActs(s, id, move, k);
      case OpRequest(id, round) => RequestingActs(s, id, round, k);
      case OpResolve(_) => hide ActsOn, Decide; DecidingActs(s, MovesOutcome(s), "", op, k);
      case OpForfeit(id, _) => hide ActsOn, Decide; DecidingActs(s, if s.players[0].id == id then PlayerTwoWins else PlayerOneWins, id, op, k);
      case OpInactivity(_) =>
        hide ActsOn, Decide;
        DecidingActs(s, PlayerOneWins, "", op, k);
        DecidingActs(s, PlayerTwoWins, "", op, k);
        DecidingActs(s, Draw, "", op, k);
      case OpDeadlineDraw(_) => hide ActsOn, Decide; DecidingActs(s, Draw, "", op, k);
      case _ =>
    }
  }

  // The view follows the operations: each accepted move or request shows at
  // its player and nowhere else, a new round shows neither, and whoever wins a
  // round has one win more.
  lemma {:induction false} ViewTellsActions(s: RoomState, op: Op, k: nat)
    requires WellFormed(s) && Apply(s, op).Ok? && k < |s.players|
    ensures var t := Apply(s, op).value;
            && k < |ViewOf(s).players| && k < |ViewOf(t).players|
            && var p, q := ViewOf(s).players[k], ViewOf(t).players[k];
               && q.id == p.id && q.id == s.players[k].id
               && (q.submitted <==> t.round == s.round && (p.submitted || (op.OpSubmit? && op.id == p.id)))
               && (q.wantsNextRound <==> t.round == s.round && (p.wantsNextRound || (op.OpRequest? && op.id == p.id)))
               && q.wins == p.wins + if !s.resolved && t.resolved && t.result == (if k == 0 then PlayerOneWins else PlayerTwoWins) then 1 else 0
  {
    hide WellFormed, Apply;
    OperationsAct(s, op, k);
    ViewedPlayer(s, k);
    ViewedPlayer(Apply(s, op).value, k);
  }

  lemma {:induction false} ViewedPlayer(s: RoomState, k: nat)
    requires k < |s.players|
    ensures |ViewOf(s).players| == |s.players| && ViewOf(s).players[k] == PlayerViewOf(s, s.players[k])
  {}

  // A player who enters has not acted yet.
  lemma {:induction false} NewcomersHaveNotActed(code: string, host: string, s: RoomState, id: string)
    requires New(code, host).Ok? && WellFormed(s) && Join(s, id).Ok?
    ensures ViewOf(New(code, host).value).players == [PlayerView(host, 0, false, false)]
    ensures |s.players| == 1 && ViewOf(Join(s, id).value).players == ViewOf(s).players + [PlayerView(id, 0, false, false)]
  {
    var t := Join(s, id).value;
    assert id !in s.moves && id !in s.requests;
    assert t.players[..1] == s.players;
    var a, b := PlayerViews(t, t.players), PlayerViews(s, s.players) + [PlayerView(id, 0, false, false)];
    assert |a| == |b| && forall i | 0 <= i < |a| :: a[i] == b[i];
  }

  // ---- Round trip ----

  // The two ways of resolving a round that the recorded moves do not explain.
  ghost predicate Spoils(s: RoomState, op: Op)
    requires WellFormed(s)
  {
    && Apply(s, op).Ok?
    && (|| (op.OpForfeit? && |s.moves| == 2)
        || (op.OpDeadlineDraw? && |s.moves| == 1)
        || (op.OpDeadlineDraw? && |s.moves| == 2 && exists a, b | a in s.moves && b in s.moves :: s.moves[a] != s.moves[b]))
  }

  // The current round of the run was resolved in one of those ways.
  ghost predicate Spoiled(s: RoomState, ops: seq<Op>)
    requires WellFormed(s)
  {
    ops != [] &&
    var before, op := Run(s, ops[..|ops| - 1]), ops[|ops| - 1];
    After(before, op).round == before.round && (Spoiled(s, ops[..|ops| - 1]) || Spoils(before, op))
  }

  lemma {:induction false} UnresolvedIsRestorable(s: RoomState)
    requires WellFormed(s) && !s.resolved
    ensures Restorable(s)
  {}

  lemma {:induction false} ResolvingStep(s: RoomState, op: Op)
    requires WellFormed(s) && !s.resolved && After(s, op).resolved
    ensures Restorable(After(s, op)) <==> !Spoils(s, op)
  {
    var t := After(s, op);
    MoveCount(s);
    MoveCount(t);
    var one, two := s.players[0].id, s.players[1].id;
    if one in s.moves && two in s.moves {
      assert (exists a, b | a in s.moves && b in s.moves :: s.moves[a] != s.moves[b]) <==> s.moves[one] != s.moves[two];
    }
  }

  lemma {:induction false} StepKeepsRestorable(s: RoomState, op: Op)
    requires WellFormed(s)
    ensures var t := After(s, op);
            Restorable(t) <==> (t.round != s.round || (Restorable(s) && !Spoils(s, op)))
  {
    var t := After(s, op);
    if t.round != s.round {
      UnresolvedIsRestorable(t);
    } else if !s.resolved && t.resolved {
      ResolvingStep(s, op);
    } else if !s.resolved {
      UnresolvedIsRestorable(s);
      UnresolvedIsRestorable(t);
    }
  }

  // Reading back what was saved gives the same aggregate, except exactly when
  // the current round was resolved against its recorded moves.
  lemma {:induction false} RestoreRoundTrip(s: RoomState, ops: seq<Op>)
    requires Restorable(s)
    ensures Restore(Run(s, ops)) == Ok(Run(s, ops)) <==> !Spoiled(s, ops)
  {
    if ops != [] {
      RestoreRoundTrip(s, ops[..|ops| - 1]);
      StepKeepsRestorable(Run(s, ops[..|ops| - 1]), ops[|ops| - 1]);
    }
  }

  lemma {:induction false} RunOfThree(s: RoomState, a: Op, b: Op, c: Op)
    requires WellFormed(s)
    ensures Run(s, [a, b, c]) == After(After(After(s, a), b), c)
  {
    assert [a, b, c][..2] == [a, b] && [a, b][..1] == [a] && [a][..0] == [];
    assert Run(s, [a]) == After(s, a);
    assert Run(s, [a, b]) == After(After(s, a), b);
  }

  // One player moved, nobody is left, the round is drawn: the saved state is rejected.
  lemma {:induction false} DeadlineDrawSpoilsPartialMove()
    ensures var s := Fresh("ROOM", "host");
            Restorable(s) && Restore(Run(s, [OpJoin("guest"), OpSubmit("host", Rock), OpDeadlineDraw(1)])) == Err(InvalidState)
  {
    var s := Fresh("ROOM", "host");
    RunOfThree(s, OpJoin("guest"), OpSubmit("host", Rock), OpDeadlineDraw(1));
    var joined := s.(players := [Player("host", 0), Player("guest", 0)]);
    assert After(s, OpJoin("guest")) == joined;
    var moved := joined.(moves := map["host" := Rock]);
    assert After(joined, OpSubmit("host", Rock)) == moved;
    assert |moved.moves| == 1;
    ResolvingStep(moved, OpDeadlineDraw(1));
  }

  // ---- Recording both moves, then resolving, is submitting both moves ----

  ghost function Recorded(s: RoomState, a: string, m: Move, b: string, n: Move): RoomState {
    s.(moves := s.moves[a := m][b := n])
  }

  lemma {:induction false} MovesCommuteWithResolution(s: RoomState, a: string, m: Move, b: string, n: Move)
    requires Restorable(s)
    requires SubmitMove(s, a, m).Ok? && SubmitMove(SubmitMove(s, a, m).value, b, n).Ok?
    ensures SubmitMove(s, b, n).Ok?
    ensures SubmitMove(SubmitMove(s, a, m).value, b, n) == SubmitMove(SubmitMove(s, b, n).value, a, m)
    ensures Restore(Recorded(s, a, m, b, n)) == Ok(Recorded(s, a, m, b, n))
    ensures SubmitMove(SubmitMove(s, a, m).value, b, n) == ResolveCommittedMoves(Recorded(s, a, m, b, n), s.round)
  {
    assert a != b;
    assert s.moves[a := m][b := n] == s.moves[b := n][a := m];
  }

  // The converse: a recorded pair that resolves could have been submitted.
  lemma {:induction false} ResolutionComesFromMoves(s: RoomState, a: string, m: Move, b: string, n: Move)
    requires Restorable(s) && a != b && a !in s.moves && b !in s.moves
    requires HasPlayer(s, a) && HasPlayer(s, b) && IsValidMove(m) && IsValidMove(n)
    requires !s.resolved && ResolveCommittedMoves(Recorded(s, a, m, b, n), s.round).Ok?
    ensures SubmitMove(s, a, m).Ok?
    ensures SubmitMove(SubmitMove(s, a, m).value, b, n) == ResolveCommittedMoves(Recorded(s, a, m, b, n), s.round)
  {}

  lemma {:induction false} RequestsCommuteWithAdvance(s: RoomState, a: string, b: string, round: nat)
    requires Restorable(s)
    requires RequestNextRound(s, a, round).Ok? && RequestNextRound(RequestNextRound(s, a, round).value, b, round).Ok?
    ensures RequestNextRound(s, b, round).Ok?
    ensures RequestNextRound(RequestNextRound(s, a, round).value, b, round) == RequestNextRound(RequestNextRound(s, b, round).value, a, round)
    ensures var recorded := s.(requests := s.requests + {a, b});
            && Restore(recorded) == Ok(recorded)
            && RequestNextRound(RequestNextRound(s, a, round).value, b, round) == AdvanceCommittedNextRound(recorded, round)
  {
    assert s.requests + {a} + {b} == s.requests + {a, b};
    assert s.requests + {b} + {a} == s.requests + {a, b};
  }

  // ---- Wins ----

  // The results of the rounds resolved along the run, in order.
  ghost function Results(s: RoomState, ops: seq<Op>): seq<Outcome>
    requires WellFormed(s)
  {
    if ops == [] then [] else
      var before := Run(s, ops[..|ops| - 1]);
      var after := After(before, ops[|ops| - 1]);
      Results(s, ops[..|ops| - 1]) + (if !before.resolved && after.resolved then [after.result] else [])
  }

  // What one operation does to the round, the players and their wins.
  lemma {:induction false} WinsStep(s: RoomState, op: Op)
    requires WellFormed(s)
    ensures var t := After(s, op);
            && |s.players| <= |t.players|
            && (|t.players| == 2 && |s.players| == 1 ==> t.players[1].wins == 0 && t.players[0].wins == s.players[0].wins)
            && (!s.resolved && t.resolved ==>
                  && |s.players| == 2 && IsDecided(t.result) && t.round == s.round
                  && t.players[0].wins == s.players[0].wins + (if t.result.PlayerOneWins? then 1 else 0)
                  && t.players[1].wins == s.players[1].wins + (if t.result.PlayerTwoWins? then 1 else 0))
            && (s.resolved || !t.resolved ==>
                  && t.round == s.round + (if s.resolved && !t.resolved then 1 else 0)
                  && forall i | 0 <= i < |s.players| :: t.players[i].wins == s.players[i].wins)
  {}

  // The round number counts the resolved rounds, and wins and draws share them out.
  ghost predicate WinsShareOut(s: RoomState, results: seq<Outcome>)
    requires WellFormed(s)
  {
    && s.round - 1 + (if s.resolved then 1 else 0) == |results|
    && s.players[0].wins == multiset(results)[PlayerOneWins]
    && (if |s.players| == 2 then s.players[1].wins == multiset(results)[PlayerTwoWins] else results == [])
    && |results| == multiset(results)[PlayerOneWins] + multiset(results)[PlayerTwoWins] + multiset(results)[Draw]
  }

  lemma {:induction false} WinsCountResolutions(code: string, host: string, ops: seq<Op>)
    requires New(code, host).Ok?
    ensures WinsShareOut(Run(Fresh(code, host), ops), Results(Fresh(code, host), ops))
  {
    hide WinsShareOut, After;
    if ops == [] {
      FreshSharesOut(code, host);
    } else {
      var shorter := ops[..|ops| - 1];
      WinsCountResolutions(code, host, shorter);
      StepSharesOut(Run(Fresh(code, host), shorter), ops[|ops| - 1], Results(Fresh(code, host), shorter));
    }
  }

  lemma {:induction false} FreshSharesOut(code: string, host: string)
    requires New(code, host).Ok?
    ensures WinsShareOut(Fresh(code, host), [])
  {}

  lemma {:induction false} StepSharesOut(s: RoomState, op: Op, results: seq<Outcome>)
    requires WellFormed(s) && WinsShareOut(s, results)
    ensures WinsShareOut(After(s, op), results + if !s.resolved && After(s, op).resolved then [After(s, op).result] else [])
  {
    hide After;
    WinsStep(s, op);
    CountOne(results, After(s, op).result);
  }

  lemma {:induction false} CountOne(results: seq<Outcome>, o: Outcome)
    ensures forall p :: multiset(results + [o])[p] == multiset(results)[p] + (if o == p then 1 else 0)
    ensures results + [] == results
  {}

  // ---- Secrecy of moves ----

  // The same operation, up to which valid move was chosen.
  predicate SameUpToMove(o: Op, p: Op) {
    o == p || (o.OpSubmit? && p.OpSubmit? && o.id == p.id && IsValidMove(o.move) && IsValidMove(p.move))
  }

  // The same unresolved round, up to which moves were chosen.
  ghost predicate SameUpToMoves(s: RoomState, t: RoomState) {
    !s.resolved && t == s.(moves := t.moves) && s.moves.Keys == t.moves.Keys
  }

  ghost predicate SameOps(ops: seq<Op>, other: seq<Op>) {
    |ops| == |other| && forall i | 0 <= i < |ops| :: SameUpToMove(ops[i], other[i])
  }

  // Nothing was resolved yet before the last operation of the run.
  ghost predicate UnresolvedBefore(s: RoomState, ops: seq<Op>)
    requires WellFormed(s)
  {
    forall k | 0 <= k < |ops| :: !Run(s, ops[..k]).resolved
  }

  lemma {:induction false} RevealedOnlyWhenResolved(s: RoomState, t: RoomState, players: seq<Player>)
    requires SameUpToMoves(s, t)
    ensures PlayerViews(s, players) == PlayerViews(t, players)
  {
    if players != [] {
      RevealedOnlyWhenResolved(s, t, players[..|players| - 1]);
    }
  }

  lemma {:induction false} SecretStep(s: RoomState, t: RoomState, op: Op, other: Op)
    requires WellFormed(s) && WellFormed(t) && SameUpToMoves(s, t) && SameUpToMove(op, other)
    ensures Apply(s, op).Err? <==> Apply(t, other).Err?
    ensures Apply(s, op).Err? ==> Apply(t, other).error == Apply(s, op).error
    ensures After(s, op).resolved <==> After(t, other).resolved
    ensures !After(s, op).resolved ==> SameUpToMoves(After(s, op), After(t, other))
  {
    hide SubmitMove;
    if op.OpSubmit? { SecretSubmit(s, t, op.id, op.move, other.move); }
  }

  lemma {:induction false} SecretSubmit(s: RoomState, t: RoomState, id: string, m: Move, n: Move)
    requires WellFormed(s) && WellFormed(t) && SameUpToMoves(s, t) && (m == n || (IsValidMove(m) && IsValidMove(n)))
    ensures var a, b := SubmitMove(s, id, m), SubmitMove(t, id, n);
            && (a.Err? <==> b.Err?) && (a.Err? ==> b.error == a.error)
            && (a.Ok? ==> (a.value.resolved <==> b.value.resolved) && (!a.value.resolved ==> SameUpToMoves(a.value, b.value)))
  {}

  lemma {:induction false} SecretRun(s: RoomState, ops: seq<Op>, other: seq<Op>)
    requires WellFormed(s) && !s.resolved && SameOps(ops, other) && UnresolvedBefore(s, ops)
    ensures Run(s, ops).resolved <==> Run(s, other).resolved
    ensures !Run(s, ops).resolved ==> SameUpToMoves(Run(s, ops), Run(s, other))
  {
    if ops != [] {
      var k := |ops| - 1;
      UnresolvedPrefix(s, ops);
      SecretRun(s, ops[..k], other[..k]);
      SecretStep(Run(s, ops[..k]), Run(s, other[..k]), ops[k], other[k]);
    }
  }

  lemma {:induction false} UnresolvedPrefix(s: RoomState, ops: seq<Op>)
    requires WellFormed(s) && ops != [] && UnresolvedBefore(s, ops)
    ensures UnresolvedBefore(s, ops[..|ops| - 1]) && !Run(s, ops[..|ops| - 1]).resolved
  {
    var shorter := ops[..|ops| - 1];
    forall j | 0 <= j < |shorter| ensures !Run(s, shorter[..j]).resolved {
      assert shorter[..j] == ops[..j];
    }
  }

  // Two runs from the same unresolved state that differ only in the moves
  // chosen show the same view, report the same error for the next operation,
  // and resolve at the same step.
  lemma {:induction false} MovesStaySecret(s: RoomState, ops: seq<Op>, other: seq<Op>, next: Op, otherNext: Op)
    requires WellFormed(s) && !s.resolved && SameOps(ops, other) && SameUpToMove(next, otherNext)
    requires UnresolvedBefore(s, ops + [next])
    ensures ViewOf(Run(s, ops)) == ViewOf(Run(s, other))
    ensures var mine, theirs := Apply(Run(s, ops), next), Apply(Run(s, other), otherNext);
            (mine.Err? <==> theirs.Err?) && (mine.Err? ==> mine.error == theirs.error)
    ensures After(Run(s, ops), next).resolved <==> After(Run(s, other), otherNext).resolved
  {
    assert (ops + [next])[..|ops|] == ops;
    UnresolvedPrefix(s, ops + [next]);
    SecretRun(s, ops, other);
    SecretStep(Run(s, ops), Run(s, other), next, otherNext);
    RevealedOnlyWhenResolved(Run(s, ops), Run(s, other), Run(s, ops).players);
  }
}
