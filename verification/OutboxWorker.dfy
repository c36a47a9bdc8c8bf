// The worker that drains the outbox, and its retry delay.
module OutboxWorker {
  import opened Prelude
  import opened Outbox

  const MaxInt64 := 0x7fff_ffff_ffff_ffff

  function Pow2(n: nat): nat {
    if n == 0 then 1 else 2 * Pow2(n - 1)
  }

  // The delay before attempt `attempts + 1`: doubled per attempt, capped.
  function Backoff(base: nat, cap: nat, attempts: int): nat {
    var wanted := base * Pow2(if attempts <= 1 then 0 else attempts - 1);
    if wanted < cap then wanted else cap
  }

  lemma {:induction false} Pow2Grows(m: nat, n: nat)
    requires m <= n
    ensures 1 <= Pow2(m) <= Pow2(n)
    decreases n
  {
    if m < n { Pow2Grows(m, n - 1); } else if n > 0 { Pow2Grows(n - 1, n - 1); }
  }

  lemma {:induction false} BackoffIsMonotone(base: nat, cap: nat, attempts: int, more: int)
    requires attempts <= more
    ensures Backoff(base, cap, attempts) <= Backoff(base, cap, more) <= cap
  {
    var m, n := if attempts <= 1 then 0 else attempts - 1, if more <= 1 then 0 else more - 1;
    Pow2Grows(m, n);
    assert base * Pow2(m) <= base * Pow2(n);
  }

  lemma {:induction false} PastCap(base: nat, cap: nat, m: nat, n: nat)
    requires m <= n && base * Pow2(m) >= cap
    ensures base * Pow2(n) >= cap
  {
    Pow2Grows(m, n);
    assert base * Pow2(m) <= base * Pow2(n);
  }

  datatype Report = Report(claimed: nat, published: nat, attempts: nat, retries: nat, failures: nat, cleaned: nat)

  class Worker {
    const retryBase: nat
    const maxRetry: nat
    const claimLease: nat
    const retain: nat
    var box: Box

    ghost predicate Valid()
      reads this
    {
      BoxOk(box) && 0 < retryBase <= MaxInt64 && 0 < maxRetry <= MaxInt64 && claimLease > 0
    }

    // Every intermediate delay fits the 64-bit duration it is stored in.
    method RetryDelay(attempts: int) returns (delay: nat)
      requires Valid()
      ensures delay == Backoff(retryBase, maxRetry, attempts) && delay <= MaxInt64
    {
      delay := retryBase;
      var attempt: nat := 1;
      while attempt < attempts && delay < maxRetry
        invariant 1 <= attempt && (attempts >= 1 ==> attempt <= attempts) && (attempts < 1 ==> attempt == 1)
        invariant delay == retryBase * Pow2(attempt - 1) && delay <= MaxInt64
      {
        ghost var last := attempts - 1;
        if delay > maxRetry / 2 {
          assert retryBase * Pow2(attempt) == 2 * delay;
          PastCap(retryBase, maxRetry, attempt, last);
          return maxRetry;
        }
        assert retryBase * Pow2(attempt) == 2 * delay;
        delay := delay * 2;
        attempt := attempt + 1;
      }
      if attempts > attempt {
        PastCap(retryBase, maxRetry, attempt - 1, attempts - 1);
      }
      if delay > maxRetry { return maxRetry; }
    }

    method MarkPublished(key: RevisionKey, token: string, at: int) returns (err: Option<Error>)
      requires Valid() && key in box.published
      modifies this
      ensures Valid() && box == After(old(box), Marked(key, token, at)) && (err.None? <==> Holds(old(box), key, token))
    {
      if key !in box.rows || box.rows[key].claim.None? || box.rows[key].claim.value.token != token || box.rows[key].publishedAt.Some? {
        return Some(ClaimLost);
      }
      box := box.(rows := box.rows[key := box.rows[key].(publishedAt := Some(at), claim := None)]);
      return None;
    }

    method Release(key: RevisionKey, token: string, retryAt: int) returns (err: Option<Error>)
      requires Valid()
      modifies this
      ensures Valid() && box == After(old(box), Released(key, token, retryAt)) && (err.None? <==> Holds(old(box), key, token))
    {
      if key !in box.rows || box.rows[key].claim.None? || box.rows[key].claim.value.token != token || box.rows[key].publishedAt.Some? {
        return Some(ClaimLost);
      }
      box := box.(rows := box.rows[key := box.rows[key].(nextAttemptAt := retryAt, claim := None)]);
      return None;
    }

    method ClaimBatch(now: int, records: seq<RevisionKey>, token: string)
      requires Valid() && Distinct(records) && Possible(box, Claiming(now, records, token))
      modifies this
      ensures Valid() && box == (if records == [] then old(box) else After(old(box), Claiming(now, records, token)))
    {
      if records == [] { return; }
      DistinctCount(records);
      ghost var before := box;
      var rows := box.rows;
      for i := 0 to |records|
        invariant rows.Keys == before.rows.Keys
        invariant forall k | k in rows :: rows[k] == if k in records[..i]
                    then before.rows[k].(claim := Some(Claim(token, now + claimLease)), attempts := before.rows[k].attempts + 1)
                    else before.rows[k]
      {
        var row := rows[records[i]];
        assert records[i] !in records[..i];
        rows := rows[records[i] := row.(claim := Some(Claim(token, now + claimLease)), attempts := row.attempts + 1)];
        assert records[..i + 1] == records[..i] + [records[i]];
      }
      assert records[..|records|] == records;
      box := box.(rows := rows, issued := box.issued + {token});
      assert box == After(before, Claiming(now, records, token));
    }

    function Claiming(now: int, records: seq<RevisionKey>, token: string): Event {
      Claimed(now, |records|, claimLease, token, set k | k in records)
    }

    // The box after the first `n` claimed records were published and marked.
    ghost function Drained(b: Box, records: seq<RevisionKey>, token: string, now: int, n: nat): Box
      requires n <= |records|
    {
      if n == 0 then b
      else Outbox.After(Outbox.After(Drained(b, records, token, now, n - 1), Accepted(records[n - 1])), Marked(records[n - 1], token, now))
    }

    // Draining marks exactly the first `n` records, with their publication.
    lemma {:induction false} DrainedMarks(b: Box, records: seq<RevisionKey>, token: string, now: int, n: nat)
      requires BoxOk(b) && Distinct(records) && n <= |records|
      requires forall k | k in records :: Holds(b, k, token)
      ensures var c := Drained(b, records, token, now, n);
              && BoxOk(c) && c.rows.Keys == b.rows.Keys && c.cleaned == b.cleaned && c.issued == b.issued
              && (forall k | k in records[..n] :: k in c.rows && k in c.published && c.rows[k].publishedAt == Some(now))
              && (forall k | k in b.rows && k !in records[..n] :: c.rows[k] == b.rows[k])
    {
      hide BoxOk, Outbox.After;
      if n > 0 {
        DrainedMarks(b, records, token, now, n - 1);
        assert records[..n] == records[..n - 1] + [records[n - 1]];
        assert records[n - 1] !in records[..n - 1];
        var c := Drained(b, records, token, now, n - 1);
        assert records[n - 1] in records;
        assert c.rows[records[n - 1]] == b.rows[records[n - 1]];
        MarkOne(c, records[n - 1], token, now);
        assert Drained(b, records, token, now, n) == Outbox.After(Outbox.After(c, Accepted(records[n - 1])), Marked(records[n - 1], token, now));
      }
    }

    lemma {:induction false} HeldUntilReached(b: Box, records: seq<RevisionKey>, token: string, now: int, n: nat)
      requires BoxOk(b) && Distinct(records) && n < |records|
      requires forall k | k in records :: Holds(b, k, token)
      ensures Holds(Drained(b, records, token, now, n), records[n], token)
    {
      DrainedMarks(b, records, token, now, n);
      assert records[n] in records && records[n] !in records[..n];
    }

    // One claimed record: publish it, then mark it or hand it back.
    method PublishOne(record: RevisionKey, token: string, now: int, accepted: bool)
      requires Valid() && Holds(box, record, token)
      modifies this
      ensures Valid() && box.rows.Keys == old(box).rows.Keys
      ensures box == if accepted then Outbox.After(Outbox.After(old(box), Accepted(record)), Marked(record, token, now))
                     else Outbox.After(old(box), Released(record, token, now + Backoff(retryBase, maxRetry, old(box).rows[record].attempts)))
    {
      if !accepted {
        var delay := RetryDelay(box.rows[record].attempts);
        var lost := Release(record, token, now + delay);
        return;
      }
      MarkOne(box, record, token, now);
      box := box.(published := box.published + {record});
      var lost := MarkPublished(record, token, now);
    }

    // The records up to the first refusal are drained; the refused one is
    // handed back with its retry delay.
    ghost function Delivered(b: Box, now: int, records: seq<RevisionKey>, token: string, accepts: seq<bool>): Box
      requires |accepts| == |records|
    {
      var n := LeadingTrue(accepts);
      var drained := Drained(b, records, token, now, n);
      if n == |records| || records[n] !in drained.rows then drained
      else Outbox.After(drained, Released(records[n], token, now + Backoff(retryBase, maxRetry, drained.rows[records[n]].attempts)))
    }

    method PublishAll(now: int, records: seq<RevisionKey>, token: string, accepts: seq<bool>) returns (report: Report)
      requires Valid() && Distinct(records) && |accepts| == |records|
      requires forall k | k in records :: Holds(box, k, token)
      modifies this
      ensures Valid() && box == Delivered(old(box), now, records, token, accepts) && box.rows.Keys == old(box).rows.Keys
      ensures report.claimed == |records| && report.published == LeadingTrue(accepts) && report.cleaned == 0
      ensures report.failures == (if report.published < |records| then 1 else 0)
      ensures report.attempts == report.published + report.failures <= |records| && report.retries == Retried(old(box), records, report.attempts)
    {
      hide BoxOk, Outbox.After, Backoff, Holds;
      report := Report(|records|, 0, 0, 0, 0, 0);
      ghost var claimed := box;
      for i := 0 to |records|
        invariant Valid() && report == Report(|records|, i, i, Retried(claimed, records, i), 0, 0) && box.rows.Keys == claimed.rows.Keys
        invariant forall j | 0 <= j < i :: accepts[j]
        invariant box == Drained(claimed, records, token, now, i)
      {
        HeldUntilReached(claimed, records, token, now, i);
        DrainedMarks(claimed, records, token, now, i);
        assert records[i] !in records[..i];
        report := report.(attempts := i + 1, retries := report.retries + if box.rows[records[i]].attempts > 1 then 1 else 0);
        PublishOne(records[i], token, now, accepts[i]);
        if !accepts[i] {
          LeadingTrueIs(accepts, i);
          return report.(failures := 1);
        }
        report := report.(published := i + 1);
      }
      LeadingTrueIs(accepts, |records|);
    }

    // How many of the first `n` claimed records were claimed before.
    ghost function Retried(b: Box, records: seq<RevisionKey>, n: nat): nat
      requires n <= |records|
    {
      if n == 0 then 0
      else Retried(b, records, n - 1) + if records[n - 1] in b.rows && b.rows[records[n - 1]].attempts > 1 then 1 else 0
    }

    lemma {:induction false} ClaimedHold(b: Box, now: int, records: seq<RevisionKey>, token: string)
      requires BoxOk(b) && Distinct(records) && Possible(b, Claiming(now, records, token)) && claimLease > 0
      ensures ClaimedBox(b, now, records, token).rows.Keys == b.rows.Keys
      ensures forall k | k in records :: Holds(ClaimedBox(b, now, records, token), k, token)
    {
      DistinctCount(records);
    }

    ghost function ClaimedBox(b: Box, now: int, records: seq<RevisionKey>, token: string): Box {
      if records == [] then b else Outbox.After(b, Claiming(now, records, token))
    }

    method CleanupPublished(before: int) returns (cleaned: nat)
      requires Valid()
      modifies this
      ensures Valid() && box == Outbox.After(old(box), Cleaned(before)) && cleaned == |old(box).rows| - |box.rows|
    {
      hide BoxOk;
      CleanedAway(box, before);
      StepKeepsBoxOk(box, Cleaned(before));
      cleaned := |set k | k in box.rows && Expired(box.rows[k], before)|;
      box := box.(rows := map k | k in box.rows && !Expired(box.rows[k], before) :: box.rows[k],
                  cleaned := box.cleaned + set k | k in box.rows && Expired(box.rows[k], before));
    }

    // What one pass leaves: the delivered box, and, when nothing was refused,
    // without the published rows past their retention.
    ghost function Pass(b: Box, now: int, records: seq<RevisionKey>, token: string, accepts: seq<bool>): Box
      requires |accepts| == |records|
    {
      var delivered := Delivered(ClaimedBox(b, now, records, token), now, records, token, accepts);
      if LeadingTrue(accepts) < |records| then delivered else Outbox.After(delivered, Cleaned(now - retain))
    }

    // RunOnce: claim, publish in order, mark, and stop at the first refusal.
    // `accepts` is what the publisher answers.
    method RunOnce(now: int, records: seq<RevisionKey>, token: string, accepts: seq<bool>) returns (report: Report, err: bool)
      requires Valid() && Distinct(records) && Possible(box, Claiming(now, records, token)) && |accepts| == |records|
      modifies this
      ensures Valid() && box == Pass(old(box), now, records, token, accepts)
      ensures report.claimed == |records| && report.published == LeadingTrue(accepts)
      ensures err <==> report.published < |records|
      ensures report.failures == (if err then 1 else 0) && report.attempts == report.published + report.failures <= |records|
      ensures report.retries == Retried(ClaimedBox(old(box), now, records, token), records, report.attempts)
      ensures report.cleaned == |old(box).rows| - |box.rows|
    {
      hide BoxOk, Delivered, Retried, Holds, Outbox.After, Possible;
      ghost var keys := box.rows.Keys;
      ClaimedHold(box, now, records, token);
      ClaimBatch(now, records, token);
      report := PublishAll(now, records, token, accepts);
      err := report.published < |records|;
      assert |box.rows| == |keys| by { assert box.rows.Keys == keys; }
      if !err {
        var cleaned := CleanupPublished(now - retain);
        report := report.(cleaned := cleaned);
      }
    }
  }

  lemma {:induction false} CleanedAway(b: Box, before: int)
    ensures |set k | k in b.rows && Expired(b.rows[k], before)| + |Outbox.After(b, Cleaned(before)).rows| == |b.rows|
  {
    var gone := set k | k in b.rows && Expired(b.rows[k], before);
    var kept := Outbox.After(b, Cleaned(before)).rows;
    assert gone + kept.Keys == b.rows.Keys && gone !! kept.Keys;
    assert |kept| == |kept.Keys| && |b.rows| == |b.rows.Keys|;
  }

  lemma {:induction false} MarkOne(b: Box, key: RevisionKey, token: string, now: int)
    requires BoxOk(b) && Holds(b, key, token)
    ensures var c := Outbox.After(Outbox.After(b, Accepted(key)), Marked(key, token, now));
            && BoxOk(c)
            && c == b.(published := b.published + {key}, rows := b.rows[key := b.rows[key].(publishedAt := Some(now), claim := None)])
  {}

  predicate Distinct(records: seq<RevisionKey>) {
    forall i, j | 0 <= i < j < |records| :: records[i] != records[j]
  }

  lemma {:induction false} DistinctCount(records: seq<RevisionKey>)
    requires Distinct(records)
    ensures |set k | k in records| == |records|
  {
    if records != [] {
      var n := |records| - 1;
      DistinctCount(records[..n]);
      assert (set k | k in records) == (set k | k in records[..n]) + {records[n]};
    }
  }

  // How many of the answers are acceptances before the first refusal.
  function LeadingTrue(accepts: seq<bool>): (n: nat)
    ensures n <= |accepts|
  {
    if accepts == [] || !accepts[0] then 0 else 1 + LeadingTrue(accepts[1..])
  }

  lemma {:induction false} LeadingTrueIs(accepts: seq<bool>, n: nat)
    requires n <= |accepts| && (forall i | 0 <= i < n :: accepts[i]) && (n < |accepts| ==> !accepts[n])
    ensures LeadingTrue(accepts) == n
  {
    if n > 0 { LeadingTrueIs(accepts[1..], n - 1); }
  }
}
