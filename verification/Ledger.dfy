// The double-entry ledger: an append-only log of balanced transactions, and
// the balances cached on the accounts.
module Ledger {
  import opened Prelude

  datatype RoundKey = RoundKey(code: string, round: nat)

  datatype AccountId = House | Mint | User(owner: string) | Escrow(key: RoundKey)

  // The unique business key of a transaction.
  datatype BusinessKey = StakeKey(key: RoundKey) | SettlementKey(key: RoundKey) | RechargeKey(owner: string, command: string)

  datatype Posting = Posting(account: AccountId, amount: int)

  datatype Transaction = Transaction(key: BusinessKey, postings: seq<Posting>)

  datatype Book = Book(balances: map<AccountId, int>, log: seq<Transaction>)

  ghost function Amount(postings: seq<Posting>, a: AccountId): int {
    if postings == [] then 0 else
      var p := postings[|postings| - 1];
      Amount(postings[..|postings| - 1], a) + (if p.account == a then p.amount else 0)
  }

  ghost function Sum(postings: seq<Posting>): int {
    if postings == [] then 0 else Sum(postings[..|postings| - 1]) + postings[|postings| - 1].amount
  }

  // Everything the log ever posted to an account.
  ghost function Posted(log: seq<Transaction>, a: AccountId): int {
    if log == [] then 0 else Posted(log[..|log| - 1], a) + Amount(log[|log| - 1].postings, a)
  }

  ghost function Keys(log: seq<Transaction>): set<BusinessKey> {
    set t | t in log :: t.key
  }

  // The constraints of the posting table, and the balance trigger.
  ghost predicate Balanced(postings: seq<Posting>) {
    && Sum(postings) == 0
    && (forall i | 0 <= i < |postings| :: postings[i].amount != 0)
    && (forall i, j | 0 <= i < j < |postings| :: postings[i].account != postings[j].account)
  }

  // Every transaction is balanced, and no business key is used twice.
  ghost predicate LogOk(log: seq<Transaction>) {
    && (forall i | 0 <= i < |log| :: Balanced(log[i].postings))
    && (forall i, j | 0 <= i < j < |log| :: log[i].key != log[j].key)
  }

  ghost predicate Sound(b: Book) {
    && House in b.balances && Mint in b.balances
    && LogOk(b.log)
    && (forall a | a in b.balances :: b.balances[a] == Posted(b.log, a))
    && (forall a | a !in b.balances :: Posted(b.log, a) == 0)
    && Total(b.balances) == 0
  }

  ghost function WithAccount(b: Book, a: AccountId): (r: Book)
    ensures r.log == b.log
  {
    if a in b.balances then b else b.(balances := b.balances[a := 0])
  }

  ghost function Credited(balances: map<AccountId, int>, postings: seq<Posting>): map<AccountId, int> {
    if postings == [] then balances else
      var p := postings[|postings| - 1];
      var before := Credited(balances, postings[..|postings| - 1]);
      if p.account in before then before[p.account := before[p.account] + p.amount] else before
  }

  // A business key that was used before posts nothing.
  ghost function Post(b: Book, key: BusinessKey, postings: seq<Posting>): (r: Book)
    ensures b.log <= r.log
  {
    if key in Keys(b.log) then b
    else Book(Credited(b.balances, postings), b.log + [Transaction(key, postings)])
  }

  lemma {:induction false} CreditedAmount(balances: map<AccountId, int>, postings: seq<Posting>)
    requires forall i | 0 <= i < |postings| :: postings[i].account in balances
    ensures Credited(balances, postings).Keys == balances.Keys
    ensures forall a | a in balances :: Credited(balances, postings)[a] == balances[a] + Amount(postings, a)
    ensures Total(Credited(balances, postings)) == Total(balances) + Sum(postings)
  {
    if postings != [] {
      var rest, p := postings[..|postings| - 1], postings[|postings| - 1];
      CreditedAmount(balances, rest);
      TotalUpdate(Credited(balances, rest), p.account, Credited(balances, rest)[p.account] + p.amount);
    }
  }

  lemma {:induction false} AmountElsewhere(postings: seq<Posting>, a: AccountId)
    requires forall i | 0 <= i < |postings| :: postings[i].account != a
    ensures Amount(postings, a) == 0
  {
    if postings != [] { AmountElsewhere(postings[..|postings| - 1], a); }
  }

  lemma {:induction false} PostingsOfThree(a: AccountId, x: int, b: AccountId, y: int, c: AccountId, z: int)
    ensures var ps := [Posting(a, x), Posting(b, y), Posting(c, z)];
            && Sum(ps) == x + y + z
            && forall d :: Amount(ps, d) == (if d == a then x else 0) + (if d == b then y else 0) + (if d == c then z else 0)
  {
    var ps := [Posting(a, x), Posting(b, y), Posting(c, z)];
    assert ps[..2] == [Posting(a, x), Posting(b, y)] && ps[..2][..1] == [Posting(a, x)] && ps[..2][..1][..0] == [];
    forall d ensures Amount(ps, d) == (if d == a then x else 0) + (if d == b then y else 0) + (if d == c then z else 0) {
      assert Amount(ps[..2][..1], d) == if d == a then x else 0;
      assert Amount(ps[..2], d) == (if d == a then x else 0) + (if d == b then y else 0);
    }
    assert Sum(ps[..2][..1]) == x;
    assert Sum(ps[..2]) == x + y;
  }

  lemma {:induction false} PostingsOfTwo(a: AccountId, x: int, b: AccountId, y: int)
    ensures var ps := [Posting(a, x), Posting(b, y)];
            && Sum(ps) == x + y
            && forall d :: Amount(ps, d) == (if d == a then x else 0) + (if d == b then y else 0)
  {
    var ps := [Posting(a, x), Posting(b, y)];
    assert ps[..1] == [Posting(a, x)] && ps[..1][..0] == [];
    forall d ensures Amount(ps, d) == (if d == a then x else 0) + (if d == b then y else 0) {
      assert Amount(ps[..1], d) == if d == a then x else 0;
    }
    assert Sum(ps[..1]) == x;
  }

  lemma {:induction false} PostedMore(log: seq<Transaction>, t: Transaction)
    ensures forall a :: Posted(log + [t], a) == Posted(log, a) + Amount(t.postings, a)
    ensures Keys(log + [t]) == Keys(log) + {t.key}
  {
    assert (log + [t])[..|log|] == log;
  }

  lemma {:induction false} WithAccountKeepsSound(b: Book, a: AccountId)
    requires Sound(b)
    ensures Sound(WithAccount(b, a))
  {
    TotalUpdate(b.balances, a, 0);
  }

  lemma {:induction false} LogMore(log: seq<Transaction>, t: Transaction)
    requires LogOk(log) && t.key !in Keys(log) && Balanced(t.postings)
    ensures LogOk(log + [t])
  {
    forall i | 0 <= i < |log| ensures log[i].key != t.key { assert log[i] in log; }
  }

  lemma {:induction false} AmountsOutside(balances: map<AccountId, int>, postings: seq<Posting>)
    requires forall i | 0 <= i < |postings| :: postings[i].account in balances
    ensures forall a | a !in balances :: Amount(postings, a) == 0
  {
    forall a | a !in balances ensures Amount(postings, a) == 0 { AmountElsewhere(postings, a); }
  }

  // Posting a new balanced transaction between existing accounts moves the
  // cached balances by exactly what it posts, and keeps the ledger sound.
  lemma {:induction false} PostKeepsSound(b: Book, key: BusinessKey, postings: seq<Posting>)
    requires Sound(b) && key !in Keys(b.log) && Balanced(postings)
    requires forall i | 0 <= i < |postings| :: postings[i].account in b.balances
    ensures var c := Post(b, key, postings);
            && Sound(c)
            && c.balances.Keys == b.balances.Keys
            && (forall a | a in b.balances :: c.balances[a] == b.balances[a] + Amount(postings, a))
            && Keys(c.log) == Keys(b.log) + {key}
  {
    hide Posted, Amount, Total, Credited, LogOk, Keys;
    var t := Transaction(key, postings);
    CreditedAmount(b.balances, postings);
    PostedMore(b.log, t);
    LogMore(b.log, t);
    AmountsOutside(b.balances, postings);
  }
}
