// The transactional outbox: claims with leases and tokens, and what they
// guarantee to workers that race for the same row.
module Outbox {
  import opened Prelude

  datatype RevisionKey = RevisionKey(code: string, revision: nat)

  datatype Claim = Claim(token: string, until: int)

  datatype Row = Row(attempts: nat, nextAttemptAt: int, publishedAt: Option<int>, claim: Option<Claim>)

  // Besides the rows, the box remembers which tokens were issued, which
  // revisions the publisher accepted, and which rows were cleaned up.
  datatype Box = Box(rows: map<RevisionKey, Row>, issued: set<string>, published: set<RevisionKey>, cleaned: set<RevisionKey>)

  const EmptyBox := Box(map[], {}, {}, {})

  function Insert(b: Box, key: RevisionKey, now: int): Result<Box, Error> {
    if key in b.rows then Err(UniqueViolation) else Ok(b.(rows := b.rows[key := Row(0, now, None, None)]))
  }

  predicate Claimable(row: Row, now: int) {
    row.publishedAt.None? && row.nextAttemptAt <= now && (row.claim.None? || row.claim.value.until <= now)
  }

  predicate Holds(b: Box, key: RevisionKey, token: string) {
    key in b.rows && b.rows[key].publishedAt.None? && b.rows[key].claim.Some? && b.rows[key].claim.value.token == token
  }

  // One thing that happens to the outbox. `chosen` are the rows one claim
  // gets: any claimable ones up to the limit, since rows locked by another
  // claim are skipped. `Accept` is the publisher accepting a revision.
  datatype Event =
    | Inserted(key: RevisionKey, now: int)
    | Claimed(now: int, limit: nat, lease: int, token: string, chosen: set<RevisionKey>)
    | Accepted(key: RevisionKey)
    | Marked(key: RevisionKey, token: string, at: int)
    | Released(key: RevisionKey, token: string, retryAt: int)
    | Cleaned(before: int)

  // A claim token is 16 fresh random bytes, and a worker marks a row only
  // after the publisher accepted its revision.
  predicate Possible(b: Box, e: Event) {
    match e
    case Claimed(now, limit, _, token, chosen) =>
      token !in b.issued && |chosen| <= limit && forall k | k in chosen :: k in b.rows && Claimable(b.rows[k], now)
    case Marked(key, _, _) => key in b.published
    case Accepted(key) => key in b.rows || key in b.cleaned
    case _ => true
  }

  predicate Expired(row: Row, before: int) {
    row.publishedAt.Some? && row.publishedAt.value < before
  }

  function Step(b: Box, e: Event): Result<Box, Error>
    requires Possible(b, e)
  {
    match e
    case Inserted(key, now) => Insert(b, key, now)
    case Claimed(now, limit, lease, token, chosen) =>
      if limit == 0 || lease <= 0 then Err(InvalidLease)
      else Ok(b.(issued := b.issued + {token},
                 rows := map k | k in b.rows ::
                           if k in chosen then b.rows[k].(claim := Some(Claim(token, now + lease)), attempts := b.rows[k].attempts + 1)
                           else b.rows[k]))
    case Accepted(key) => Ok(b.(published := b.published + {key}))
    case Marked(key, token, at) =>
      if Holds(b, key, token) then Ok(b.(rows := b.rows[key := b.rows[key].(publishedAt := Some(at), claim := None)]))
      else Err(ClaimLost)
    case Released(key, token, retryAt) =>
      if Holds(b, key, token) then Ok(b.(rows := b.rows[key := b.rows[key].(nextAttemptAt := retryAt, claim := None)]))
      else Err(ClaimLost)
    case Cleaned(before) =>
      Ok(b.(rows := map k | k in b.rows && !Expired(b.rows[k], before) :: b.rows[k],
            cleaned := b.cleaned + set k | k in b.rows && Expired(b.rows[k], before)))
  }

  function After(b: Box, e: Event): Box {
    if Possible(b, e) && Step(b, e).Ok? then Step(b, e).value else b
  }

  function Run(b: Box, events: seq<Event>): Box {
    if events == [] then b else After(Run(b, events[..|events| - 1]), events[|events| - 1])
  }

  // Only accepted revisions are marked or cleaned up, and every live claim
  // carries a token that was issued for it.
  predicate BoxOk(b: Box) {
    && (forall k | k in b.rows && b.rows[k].publishedAt.Some? :: k in b.published && b.rows[k].claim.None?)
    && (forall k | k in b.rows && b.rows[k].claim.Some? :: b.rows[k].claim.value.token in b.issued)
    && b.cleaned <= b.published
    && b.cleaned !! b.rows.Keys
  }

  // A revision that was inserted is still in the table, or was published and
  // cleaned up: no hint is lost.
  function Known(b: Box): set<RevisionKey> {
    b.rows.Keys + b.cleaned
  }

  lemma {:induction false} StepKeepsBoxOk(b: Box, e: Event)
    requires BoxOk(b) && (e.Inserted? ==> e.key !in b.cleaned)
    ensures BoxOk(After(b, e))
    ensures Known(After(b, e)) == Known(b) + if e.Inserted? then {e.key} else {}
    ensures b.issued <= After(b, e).issued && b.published <= After(b, e).published
  {}

  ghost predicate InsertsOnce(b: Box, events: seq<Event>) {
    forall i | 0 <= i < |events| && events[i].Inserted? :: events[i].key !in Known(Run(b, events[..i]))
  }

  lemma {:induction false} RunKeepsBoxOk(b: Box, events: seq<Event>)
    requires BoxOk(b) && InsertsOnce(b, events)
    ensures BoxOk(Run(b, events)) && Known(b) <= Known(Run(b, events)) && b.issued <= Run(b, events).issued
    ensures forall k | k in Known(Run(b, events)) :: k in Run(b, events).rows || k in Run(b, events).published
  {
    if events != [] {
      var shorter := events[..|events| - 1];
      forall i | 0 <= i < |shorter| && shorter[i].Inserted? ensures shorter[i].key !in Known(Run(b, shorter[..i])) {
        assert shorter[..i] == events[..i];
      }
      RunKeepsBoxOk(b, shorter);
      StepKeepsBoxOk(Run(b, shorter), events[|events| - 1]);
    }
  }

  // An issued token that does not hold the row now never will again, so a
  // worker that lost its claim can neither mark nor release the row, whatever
  // happens in between.
  lemma {:induction false} LostClaimStaysLost(b: Box, events: seq<Event>, key: RevisionKey, token: string, at: int)
    requires BoxOk(b) && InsertsOnce(b, events) && token in b.issued && !Holds(b, key, token)
    ensures var c := Run(b, events);
            && !Holds(c, key, token)
            && After(c, Marked(key, token, at)) == c && After(c, Released(key, token, at)) == c
  {
    if events != [] {
      var shorter := events[..|events| - 1];
      forall i | 0 <= i < |shorter| && shorter[i].Inserted? ensures shorter[i].key !in Known(Run(b, shorter[..i])) {
        assert shorter[..i] == events[..i];
      }
      RunKeepsBoxOk(b, shorter);
      LostClaimStaysLost(b, shorter, key, token, at);
    }
  }

  // A second claim of the same row takes it away from the first.
  lemma {:induction false} ReclaimLosesFirstClaim(b: Box, e: Event, key: RevisionKey, token: string)
    requires BoxOk(b) && token in b.issued
    requires e.Claimed? && Possible(b, e) && Step(b, e).Ok? && key in e.chosen
    ensures !Holds(After(b, e), key, token) && Holds(After(b, e), key, e.token)
  {}

  // Nobody marks or releases the row with the token, and every claim comes
  // before `until`.
  predicate LeftAlone(events: seq<Event>, key: RevisionKey, token: string, until: int) {
    forall i | 0 <= i < |events| ::
      match events[i]
      case Claimed(now, _, _, _, _) => now < until
      case Marked(k, t, _) => k != key || t != token
      case Released(k, t, _) => k != key || t != token
      case _ => true
  }

  // Until its holder marks or releases it, a claimed row stays the holder's,
  // whatever others try before the lease is over; and at the end, an abandoned
  // row can be claimed again once the lease is over and not before.
  lemma {:induction false} LeaseDecidesClaimability(b: Box, e: Event, key: RevisionKey, events: seq<Event>, later: int)
    requires e.Claimed? && Possible(b, e) && Step(b, e).Ok? && key in e.chosen && later >= e.now
    requires LeftAlone(events, key, e.token, e.now + e.lease)
    ensures var claimed, c := After(b, e), Run(After(b, e), events);
            && key in claimed.rows && key in c.rows && c.rows[key] == claimed.rows[key] && Holds(c, key, e.token)
            && (Claimable(c.rows[key], later) <==> later >= e.now + e.lease)
  {
    if events != [] {
      var shorter, last := events[..|events| - 1], events[|events| - 1];
      LeaseDecidesClaimability(b, e, key, shorter, later);
      var c := Run(After(b, e), shorter);
      assert last == events[|events| - 1] && events[|events| - 1] in events;
      LeaseKeepsRow(c, last, key, e.token, e.now + e.lease);
    }
  }

  lemma {:induction false} LeaseKeepsRow(b: Box, e: Event, key: RevisionKey, token: string, until: int)
    requires Holds(b, key, token) && b.rows[key].claim.value.until == until && LeftAlone([e], key, token, until)
    ensures key in After(b, e).rows && After(b, e).rows[key] == b.rows[key]
  {
    assert [e][0] == e;
  }

  // Every claim comes before `until`.
  predicate ClaimsBefore(events: seq<Event>, until: int) {
    forall i | 0 <= i < |events| && events[i].Claimed? :: events[i].now < until
  }

  lemma {:induction false} FreeRowStays(b: Box, e: Event, key: RevisionKey)
    requires key in b.rows && b.rows[key].publishedAt.None? && b.rows[key].claim.None? && (e.Claimed? ==> e.now < b.rows[key].nextAttemptAt)
    ensures key in After(b, e).rows && After(b, e).rows[key] == b.rows[key]
  {}

  // A released row waits for its retry: until then nobody can claim, mark or
  // release it, whatever happens, and from then on it can be claimed. Its
  // attempts stay counted.
  lemma {:induction false} RetryTimeDecidesClaimability(b: Box, key: RevisionKey, token: string, retryAt: int, events: seq<Event>, later: int)
    requires Holds(b, key, token) && ClaimsBefore(events, retryAt)
    ensures var released, c := After(b, Released(key, token, retryAt)), Run(After(b, Released(key, token, retryAt)), events);
            && key in released.rows && key in c.rows && c.rows[key] == released.rows[key]
            && c.rows[key].attempts == b.rows[key].attempts && (forall t :: !Holds(c, key, t))
            && (Claimable(c.rows[key], later) <==> later >= retryAt)
  {
    if events != [] {
      var shorter, last := events[..|events| - 1], events[|events| - 1];
      RetryTimeDecidesClaimability(b, key, token, retryAt, shorter, later);
      FreeRowStays(Run(After(b, Released(key, token, retryAt)), shorter), last, key);
    }
  }

  // A new row can be claimed from the start, and was never tried.
  lemma {:induction false} NewRowIsClaimable(b: Box, key: RevisionKey, now: int, later: int)
    requires Insert(b, key, now).Ok?
    ensures var row := After(b, Inserted(key, now)).rows[key]; row.attempts == 0 && (Claimable(row, later) <==> later >= now)
    ensures forall k | k in b.rows :: k != key && After(b, Inserted(key, now)).rows[k] == b.rows[k]
  {}

  // How often the row was claimed.
  ghost function ClaimsOf(b: Box, events: seq<Event>, key: RevisionKey): nat {
    if events == [] then 0 else
      var before, e := Run(b, events[..|events| - 1]), events[|events| - 1];
      ClaimsOf(b, events[..|events| - 1], key) + if e.Claimed? && Possible(before, e) && Step(before, e).Ok? && key in e.chosen then 1 else 0
  }

  // The attempts of a row that is still there count its claims, whatever else happened.
  lemma {:induction false} AttemptsCountClaims(b: Box, events: seq<Event>, key: RevisionKey)
    requires BoxOk(b) && InsertsOnce(b, events) && key in b.rows && key in Run(b, events).rows
    ensures Run(b, events).rows[key].attempts == b.rows[key].attempts + ClaimsOf(b, events, key)
  {
    if events != [] {
      var shorter, last := events[..|events| - 1], events[|events| - 1];
      forall i | 0 <= i < |shorter| && shorter[i].Inserted? ensures shorter[i].key !in Known(Run(b, shorter[..i])) {
        assert shorter[..i] == events[..i];
      }
      RunKeepsBoxOk(b, shorter);
      assert key in Known(Run(b, shorter));
      assert last.Inserted? ==> last.key !in Known(Run(b, events[..|events| - 1]));
      StepKeepsBoxOk(Run(b, shorter), last);
      assert key in Run(b, shorter).rows;
      AttemptsCountClaims(b, shorter, key);
    }
  }

  // A published row keeps its time until the cleanup of earlier ones takes it,
  // and exactly that removes it.
  lemma {:induction false} PublishedRowStays(b: Box, key: RevisionKey, token: string, at: int, e: Event)
    requires Holds(b, key, token) && key in b.published
    ensures var marked := After(b, Marked(key, token, at));
            && key in marked.rows && marked.rows[key].publishedAt == Some(at)
            && (key !in After(marked, e).rows <==> e.Cleaned? && at < e.before)
            && (key in After(marked, e).rows ==> After(marked, e).rows[key] == marked.rows[key])
  {}

  // A pending row survives every event but its own publication.
  lemma {:induction false} PendingRowSurvives(b: Box, e: Event, key: RevisionKey)
    requires key in b.rows && b.rows[key].publishedAt.None?
    ensures var c := After(b, e);
            && key in c.rows
            && (c.rows[key].publishedAt.Some? ==> e.Marked? && e.key == key && key in b.published && Holds(b, key, e.token))
  {}
}
