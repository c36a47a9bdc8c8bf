// What a reconciliation pass reports, and what it does to the rounds that wait
// for a transition.
module Reconciliation {
  import opened Prelude
  import opened Game
  import opened Money
  import opened Tables
  import opened RowInvariant
  import opened Outbox
  import opened Store
  import opened Invariant
  import opened Preservation
  import opened Simulation
  import Keys

  datatype Counts = Counts(attempts: nat, wins: nat, noops: nat, settled: nat, advanced: nat, failures: nat, backlog: nat)

  const NoCounts := Counts(0, 0, 0, 0, 0, 0, 0)

  function Larger(m: nat, n: nat): nat {
    if n > m then n else m
  }

  function Sum(a: Counts, b: Counts): Counts {
    Counts(a.attempts + b.attempts, a.wins + b.wins, a.noops + b.noops, a.settled + b.settled, a.advanced + b.advanced,
           a.failures + b.failures, Larger(a.backlog, b.backlog))
  }

  class ReconciliationReport {
    var claimAttempts: nat
    var claimWins: nat
    var claimNoops: nat
    var settledRounds: nat
    var advancedRounds: nat
    var failures: nat
    var eligibleBacklog: nat

    function Value(): Counts
      reads this
    {
      Counts(claimAttempts, claimWins, claimNoops, settledRounds, advancedRounds, failures, eligibleBacklog)
    }

    constructor (attempts: nat)
      ensures Value() == NoCounts.(attempts := attempts)
    {
      claimAttempts := attempts;
      claimWins, claimNoops, settledRounds, advancedRounds, failures, eligibleBacklog := 0, 0, 0, 0, 0, 0;
    }

    method Add(other: ReconciliationReport)
      requires other != this
      modifies this
      ensures Value() == Sum(old(Value()), other.Value())
    {
      claimAttempts := claimAttempts + other.claimAttempts;
      claimWins := claimWins + other.claimWins;
      claimNoops := claimNoops + other.claimNoops;
      settledRounds := settledRounds + other.settledRounds;
      advancedRounds := advancedRounds + other.advancedRounds;
      failures := failures + other.failures;
      if other.eligibleBacklog > eligibleBacklog {
        eligibleBacklog := other.eligibleBacklog;
      }
    }
  }

  // The rooms whose current round waits for a transition.
  ghost function Waiting(db: Db): (r: set<string>)
    ensures r <= db.rooms.Keys
  {
    set c | c in db.rooms && Eligible(db, c, db.rooms[c].currentRound).Some?
  }

  // What one attempt reports. A transition that is rolled back because its hint
  // is too long was already counted.
  ghost function Reported(outcome: Option<Attempt<Transition>>): Counts {
    match outcome
    case None => NoCounts.(attempts := 1, noops := 1)
    case Some(Done(_, t)) => NoCounts.(attempts := 1, wins := 1, settled := if t.Resolving? then 1 else 0, advanced := if t.Advancing? then 1 else 0)
    case Some(Failed(_)) => NoCounts.(attempts := 1, wins := 1)
  }

  ghost function ReportedFor(db: Db, code: string, round: nat, now: int): Counts {
    var outcome := Reconcile(db, code, round, now);
    if outcome.Some? && outcome.value.Failed? && outcome.value.error.HintTooLong?
    then Reported(outcome).(settled := if Eligible(db, code, round) == Some(Resolving) then 1 else 0,
                            advanced := if Eligible(db, code, round) == Some(Advancing) then 1 else 0)
    else Reported(outcome)
  }

  // No request can be there before the round is resolved, and no move before it starts.
  lemma {:induction false} NoEarlyActions(rows: RoomRows)
    requires RowsOk(rows)
    ensures rows.currentRound in rows.rounds
    ensures rows.rounds[rows.currentRound].status.Active? ==> RoundRole(rows.currentRound, Host) !in rows.requests
    ensures RoundRole(rows.currentRound + 1, Host) !in rows.moves
  {}

  // A resolved or advanced room waits for nothing any more.
  lemma {:induction false} DecidedWaitsForNothing(db: Db, after: Db, code: string, o: Outcome)
    requires code in db.rooms && RowsOk(db.rooms[code]) && code in after.rooms
    requires Eligible(db, code, db.rooms[code].currentRound) == Some(Resolving)
    requires DecidedRows(db.rooms[code], after.rooms[code], o, false)
    ensures Eligible(after, code, after.rooms[code].currentRound).None?
  {
    hide RowsOk, SeatAccountsKept, WinFor;
    NoEarlyActions(db.rooms[code]);
  }

  lemma {:induction false} AdvancedWaitsForNothing(db: Db, after: Db, code: string)
    requires code in db.rooms && RowsOk(db.rooms[code]) && code in after.rooms && AdvancedRows(db.rooms[code], after.rooms[code])
    ensures Eligible(after, code, after.rooms[code].currentRound).None?
  {
    hide RowsOk;
    NoEarlyActions(db.rooms[code]);
  }

  lemma {:induction false} OtherRoomsWait(db: Db, after: Db, code: string)
    requires code in db.rooms && code in after.rooms && after.rooms == db.rooms[code := after.rooms[code]]
    requires Eligible(after, code, after.rooms[code].currentRound).None?
    ensures Waiting(after) == Waiting(db) - {code}
  {
    forall c ensures c in Waiting(after) <==> c in Waiting(db) - {code} {}
  }

  // A successful transition takes its room off the waiting list and leaves
  // every other room as it was.
  lemma {:induction false} TransitionEndsTheWait(db: Db, code: string, now: int)
    requires DbOk(db) && code in Waiting(db)
    ensures var outcome := Reconcile(db, code, db.rooms[code].currentRound, now);
            && outcome.Some?
            && (outcome.value.Done? ==>
                  var after := outcome.value.db;
                  && DbOk(after) && code in after.rooms && after.rooms == db.rooms[code := after.rooms[code]]
                  && Waiting(after) == Waiting(db) - {code}
                  && outcome.value.answer == Eligible(db, code, db.rooms[code].currentRound).value)
  {
    hide DbOk, RowsOk, Eligible, Reconcile, DecidedRows, AdvancedRows;
    var round := db.rooms[code].currentRound;
    ReconciledWasEligible(db, code, round, now);
    ReconcileKeepsOk(db, code, round, now);
    var outcome := Reconcile(db, code, round, now);
    if outcome.value.Done? {
      ReconcileSteps(db, TxReconcile(code, round, now), code, round, now);
      TransitionRows(db, code, round, now);
      StoredIsWellFormed(db, code);
      if Eligible(db, code, round).value.Resolving? {
        var o :| DecidedRows(db.rooms[code], outcome.value.db.rooms[code], o, false);
        DecidedWaitsForNothing(db, outcome.value.db, code, o);
      } else {
        AdvancedWaitsForNothing(db, outcome.value.db, code);
      }
      OtherRoomsWait(db, outcome.value.db, code);
    }
  }

  lemma {:induction false} TransitionRows(db: Db, code: string, round: nat, now: int)
    requires DbOk(db) && Reconcile(db, code, round, now).Some? && Reconcile(db, code, round, now).value.Done?
    ensures code in db.rooms && Eligible(db, code, round).Some? && code in Reconcile(db, code, round, now).value.db.rooms
    ensures var after := Reconcile(db, code, round, now).value.db;
            match Eligible(db, code, round).value
            case Resolving => exists o :: DecidedRows(db.rooms[code], after.rooms[code], o, false)
            case Advancing => AdvancedRows(db.rooms[code], after.rooms[code])
  {
    hide DbOk, Load, Eligible, DecidedRows, AdvancedRows, Resolve, Advance, Persisted, WellFormed, MovesOutcome, RowOf, Keys.HintFits;
    EligibleRoom(db, code, round);
    if Eligible(db, code, round).value.Resolving? {
      ResolveKeepsOk(db, code, round, now);
    } else {
      LoadIsPersisted(db, code);
      AdvanceKeepsOk(db, code, round, now);
    }
  }
}
