// Small shared vocabulary: optional values, results, and the errors the
// program reports. Throughout the project no lemma leans on automatic
// induction: where a proof is by induction, it calls itself.
module Prelude {
  datatype Option<+T> = None | Some(value: T)

  datatype Result<+T, +E> = Ok(value: T) | Err(error: E)

  // One constructor per error value of the program; the last four stand for
  // database errors that the program passes on unchanged.
  datatype Error =
    | EmptyCode | MissingPlayerId | DuplicatePlayer | RoomFull | UnknownPlayer
    | RoomNotReady | DuplicateMove | InvalidMove | RoundNotResolved
    | NextRoundRequested | StaleRound | RoundResolved | GameUnfinished
    | RoomClosed | InvalidState
    | DuplicateRoom | RoomNotFound | Unauthorized | AccountSeated
    | InsufficientFunds | InvalidCoinAmount | IdempotencyConflict
    | InvalidLease | ClaimLost | HintTooLong
    | UniqueViolation | CheckViolation | WalletSetIncomplete | InvalidEscrow | NoRows

  // Reading a Go map at an absent key gives the zero value.
  function Lookup<K>(m: map<K, int>, k: K): int {
    if k in m then m[k] else 0
  }

  // The sum of all values of a map.
  ghost function Total<K>(m: map<K, int>): int {
    if m == map[] then 0 else
      var k :| k in m;
      m[k] + Total(m - {k})
  }

  lemma {:induction false} TotalWithout<K>(m: map<K, int>, k: K)
    requires k in m
    ensures Total(m) == m[k] + Total(m - {k})
    decreases |m|
  {
    var j :| j in m && Total(m) == m[j] + Total(m - {j});
    if j != k {
      assert |m - {j}| < |m| && |m - {k}| < |m| by {
        assert (m - {j}).Keys == m.Keys - {j} && (m - {k}).Keys == m.Keys - {k};
      }
      TotalWithout(m - {j}, k);
      TotalWithout(m - {k}, j);
      assert m - {j} - {k} == m - {k} - {j};
    }
  }

  lemma {:induction false} TotalUpdate<K>(m: map<K, int>, k: K, v: int)
    ensures Total(m[k := v]) == Total(m) - Lookup(m, k) + v
  {
    TotalWithout(m[k := v], k);
    assert m[k := v] - {k} == m - {k};
    if k in m {
      TotalWithout(m, k);
    } else {
      assert m - {k} == m;
    }
  }
}
