// Stakes, settlements and recharges: what they post, what they record, and the
// invariant that ties balances, escrows, history and house earnings together.
module Money {
  import opened Prelude
  import opened Game
  import opened Ledger

  const RoundStake := 50
  const WinnerPayout := 75
  const HousePayout := 25

  datatype Role = Host | Guest

  datatype HistoryRow = HistoryRow(
    host: string, guest: string, result: Outcome, winner: Option<Role>, forfeited: bool, houseEarnings: int)

  datatype Funds = Funds(book: Book, history: map<RoundKey, HistoryRow>)

  // settlementEffects: the postings, the winner and the house earnings of a settlement.
  datatype Effects = Effects(postings: seq<Posting>, winner: Option<Role>, houseEarnings: int)

  function SettlementEffects(result: Outcome, host: string, guest: string, key: RoundKey): Effects {
    if result.Draw? then
      Effects([Posting(Escrow(key), -RoundStake * 2), Posting(User(host), RoundStake), Posting(User(guest), RoundStake)], None, 0)
    else if result.PlayerTwoWins? then
      Effects([Posting(Escrow(key), -RoundStake * 2), Posting(User(guest), WinnerPayout), Posting(House, HousePayout)], Some(Guest), HousePayout)
    else
      Effects([Posting(Escrow(key), -RoundStake * 2), Posting(User(host), WinnerPayout), Posting(House, HousePayout)], Some(Host), HousePayout)
  }

  function StakePostings(host: string, guest: string, key: RoundKey): seq<Posting> {
    [Posting(User(host), -RoundStake), Posting(User(guest), -RoundStake), Posting(Escrow(key), RoundStake * 2)]
  }

  function RowOf(result: Outcome, host: string, guest: string, forfeited: bool): HistoryRow {
    var effects := SettlementEffects(result, host, guest, RoundKey("", 0));
    HistoryRow(host, guest, result, effects.winner, forfeited, effects.houseEarnings)
  }

  // Nothing that was posted or recorded is ever changed or taken back.
  ghost predicate Extends(f: Funds, g: Funds) {
    f.book.log <= g.book.log && forall k | k in f.history :: k in g.history && g.history[k] == f.history[k]
  }

  // The money side of fundRound, for a round that is not funded yet.
  ghost function Stake(b: Book, key: RoundKey, host: string, guest: string): (r: Result<Book, Error>)
    ensures r.Ok? ==> b.log <= r.value.log
  {
    var c := WithAccount(WithAccount(WithAccount(b, User(host)), User(guest)), Escrow(key));
    if host == guest then Err(WalletSetIncomplete)
    else if c.balances[User(host)] < RoundStake || c.balances[User(guest)] < RoundStake then Err(InsufficientFunds)
    else Ok(Post(c, StakeKey(key), StakePostings(host, guest, key)))
  }

  // settleRound for a room with both seats taken.
  ghost function Settle(f: Funds, key: RoundKey, host: string, guest: string, result: Outcome, forfeited: bool): (r: Result<Funds, Error>)
    ensures r.Ok? ==> Extends(f, r.value)
  {
    if key in f.history then Ok(f)
    else if host == guest || !({House, User(host), User(guest), Escrow(key)} <= f.book.balances.Keys) then Err(WalletSetIncomplete)
    else if f.book.balances[Escrow(key)] != RoundStake * 2 then Err(InvalidEscrow)
    else if SettlementKey(key) in Keys(f.book.log) then Ok(f)
    else
      Ok(Funds(Post(f.book, SettlementKey(key), SettlementEffects(result, host, guest, key).postings),
               f.history[key := RowOf(result, host, guest, forfeited)]))
  }

  ghost function Recharge(b: Book, owner: string, command: string, amount: int): (r: Result<Book, Error>)
    ensures r.Ok? ==> b.log <= r.value.log
  {
    var c := WithAccount(b, User(owner));
    if amount <= 0 then Err(InvalidCoinAmount)
    else if RechargeKey(owner, command) in Keys(c.log) then Err(UniqueViolation)
    else Ok(Post(c, RechargeKey(owner, command), [Posting(Mint, -amount), Posting(User(owner), amount)]))
  }

  // What the house earned, round by round.
  ghost function Earnings(history: map<RoundKey, HistoryRow>): map<RoundKey, int> {
    map k | k in history :: history[k].houseEarnings
  }

  ghost function Decisive(history: map<RoundKey, HistoryRow>): set<RoundKey> {
    set k | k in history && !history[k].result.Draw?
  }

  ghost predicate RowOk(row: HistoryRow) {
    && row.host != row.guest
    && match row.result
       case Draw => row.winner.None? && row.houseEarnings == 0
       case PlayerOneWins => row.winner == Some(Host) && row.houseEarnings == HousePayout
       case PlayerTwoWins => row.winner == Some(Guest) && row.houseEarnings == HousePayout
       case _ => false
  }

  // Balances, business keys and history agree: only the mint is negative, an
  // escrow exists exactly for a staked round and holds both stakes until that
  // round is settled, each settlement has its one history row, and the house
  // owns 25 coins per decisive round.
  ghost predicate Matched(balances: map<AccountId, int>, keys: set<BusinessKey>, history: map<RoundKey, HistoryRow>) {
    && House in balances && Mint in balances
    && (forall k :: Escrow(k) in balances <==> StakeKey(k) in keys)
    && (forall k :: SettlementKey(k) in keys <==> k in history)
    && (forall k | k in history :: Escrow(k) in balances && RowOk(history[k]))
    && (forall k | Escrow(k) in balances :: balances[Escrow(k)] == if k in history then 0 else RoundStake * 2)
    && (forall a | a in balances && !a.Mint? :: balances[a] >= 0)
    && balances[Mint] <= 0
    && balances[House] == Total(Earnings(history))
  }

  ghost predicate FundsOk(f: Funds) {
    Sound(f.book) && Matched(f.book.balances, Keys(f.book.log), f.history)
  }

  ghost function EmptyFunds(): Funds {
    Funds(Book(map[House := 0, Mint := 0], []), map[])
  }

  lemma {:induction false} EmptyFundsOk()
    ensures FundsOk(EmptyFunds())
  {
    var b: map<AccountId, int> := map[];
    TotalUpdate(b, House, 0);
    TotalUpdate(b[House := 0], Mint, 0);
    assert map[House := 0, Mint := 0] == b[House := 0][Mint := 0];
    var none: map<RoundKey, int> := map[];
    assert Earnings(map[]) == none;
  }

  lemma {:induction false} WithUserKeepsFundsOk(f: Funds, owner: string)
    requires FundsOk(f)
    ensures FundsOk(f.(book := WithAccount(f.book, User(owner))))
  {
    WithAccountKeepsSound(f.book, User(owner));
  }

  // Both players' accounts and the escrow exist.
  ghost function Staking(b: Book, key: RoundKey, host: string, guest: string): Book {
    WithAccount(WithAccount(WithAccount(b, User(host)), User(guest)), Escrow(key))
  }

  lemma {:induction false} StakingAccounts(b: Book, key: RoundKey, host: string, guest: string)
    requires Sound(b)
    ensures var c := Staking(b, key, host, guest);
            && Sound(c) && c.log == b.log
            && c.balances.Keys == b.balances.Keys + {User(host), User(guest), Escrow(key)}
            && forall a | a in c.balances :: c.balances[a] == Lookup(b.balances, a)
  {
    WithAccountKeepsSound(b, User(host));
    WithAccountKeepsSound(WithAccount(b, User(host)), User(guest));
    WithAccountKeepsSound(WithAccount(WithAccount(b, User(host)), User(guest)), Escrow(key));
  }

  lemma {:induction false} StakeMoves(b: Book, key: RoundKey, host: string, guest: string)
    requires Sound(b) && StakeKey(key) !in Keys(b.log) && Stake(b, key, host, guest).Ok?
    ensures var c := Stake(b, key, host, guest).value;
            && Sound(c) && Keys(c.log) == Keys(b.log) + {StakeKey(key)}
            && c.balances.Keys == b.balances.Keys + {User(host), User(guest), Escrow(key)}
            && forall a | a in c.balances :: c.balances[a] == Lookup(b.balances, a)
                 - (if a == User(host) || a == User(guest) then RoundStake else 0) + (if a == Escrow(key) then RoundStake * 2 else 0)
  {
    StakingAccounts(b, key, host, guest);
    PostingsOfThree(User(host), -RoundStake, User(guest), -RoundStake, Escrow(key), RoundStake * 2);
    PostKeepsSound(Staking(b, key, host, guest), StakeKey(key), StakePostings(host, guest, key));
  }

  lemma {:induction false} MatchedAfterStake(
    balances: map<AccountId, int>, keys: set<BusinessKey>, history: map<RoundKey, HistoryRow>,
    after: map<AccountId, int>, key: RoundKey, host: string, guest: string)
    requires Matched(balances, keys, history) && Escrow(key) !in balances
    requires after.Keys == balances.Keys + {User(host), User(guest), Escrow(key)}
    requires Lookup(balances, User(host)) >= RoundStake && Lookup(balances, User(guest)) >= RoundStake
    requires forall a | a in after :: after[a] == Lookup(balances, a)
               - (if a == User(host) || a == User(guest) then RoundStake else 0) + (if a == Escrow(key) then RoundStake * 2 else 0)
    ensures Matched(after, keys + {StakeKey(key)}, history)
  {
    assert key !in history;
  }

  lemma {:induction false} StakeKeepsFundsOk(f: Funds, key: RoundKey, host: string, guest: string)
    requires FundsOk(f) && Escrow(key) !in f.book.balances && Stake(f.book, key, host, guest).Ok?
    ensures FundsOk(f.(book := Stake(f.book, key, host, guest).value))
  {
    StakeMoves(f.book, key, host, guest);
    StakingAccounts(f.book, key, host, guest);
    var c := Stake(f.book, key, host, guest).value;
    MatchedAfterStake(f.book.balances, Keys(f.book.log), f.history, c.balances, key, host, guest);
  }

  lemma {:induction false} DecisiveMore(history: map<RoundKey, HistoryRow>, key: RoundKey, row: HistoryRow)
    requires key !in history
    ensures |Decisive(history[key := row])| == |Decisive(history)| + if row.result.Draw? then 0 else 1
  {
    assert Decisive(history[key := row]) == Decisive(history) + if row.result.Draw? then {} else {key};
  }

  lemma {:induction false} EarningsMore(history: map<RoundKey, HistoryRow>, key: RoundKey, row: HistoryRow)
    requires key !in history
    ensures Total(Earnings(history[key := row])) == Total(Earnings(history)) + row.houseEarnings
  {
    TotalUpdate(Earnings(history), key, row.houseEarnings);
    assert Earnings(history[key := row]) == Earnings(history)[key := row.houseEarnings];
  }

  // The house earns its share of every decisive round and nothing else.
  lemma {:induction false} EarningsOfDecisive(history: map<RoundKey, HistoryRow>)
    requires forall k | k in history :: RowOk(history[k])
    ensures Total(Earnings(history)) == HousePayout * |Decisive(history)|
    decreases |history|
  {
    if history == map[] {
      var none: map<RoundKey, int> := map[];
      assert Earnings(history) == none && Decisive(history) == {};
    } else {
      var k :| k in history;
      var rest := history - {k};
      assert |rest| < |history| by { assert rest.Keys == history.Keys - {k}; }
      EarningsOfDecisive(rest);
      DecisiveMore(rest, k, history[k]);
      assert rest[k := history[k]] == history;
      EarningsMore(rest, k, history[k]);
    }
  }

  // What a settlement adds to one account.
  function SettlementShare(result: Outcome, host: string, guest: string, key: RoundKey, a: AccountId): int {
    if a == Escrow(key) then -RoundStake * 2
    else if a == House then (if result.Draw? then 0 else HousePayout)
    else if a == User(host) then (if result.Draw? then RoundStake else if result.PlayerTwoWins? then 0 else WinnerPayout)
    else if a == User(guest) then (if result.Draw? then RoundStake else if result.PlayerTwoWins? then WinnerPayout else 0)
    else 0
  }

  lemma {:induction false} EffectsAreBalanced(result: Outcome, host: string, guest: string, key: RoundKey)
    requires host != guest
    ensures var ps := SettlementEffects(result, host, guest, key).postings;
            && Balanced(ps)
            && (forall i | 0 <= i < |ps| :: ps[i].account in {Escrow(key), House, User(host), User(guest)})
            && forall a :: Amount(ps, a) == SettlementShare(result, host, guest, key, a)
  {
    PostingsOfThree(Escrow(key), -RoundStake * 2, User(host), RoundStake, User(guest), RoundStake);
    PostingsOfThree(Escrow(key), -RoundStake * 2, User(guest), WinnerPayout, House, HousePayout);
    PostingsOfThree(Escrow(key), -RoundStake * 2, User(host), WinnerPayout, House, HousePayout);
  }

  ghost predicate CanSettle(f: Funds, key: RoundKey, host: string, guest: string) {
    && Escrow(key) in f.book.balances && key !in f.history
    && host != guest && User(host) in f.book.balances && User(guest) in f.book.balances
  }

  lemma {:induction false} SettleMoves(f: Funds, key: RoundKey, host: string, guest: string, result: Outcome, forfeited: bool)
    requires FundsOk(f) && CanSettle(f, key, host, guest)
    ensures var r := Settle(f, key, host, guest, result, forfeited);
            && r.Ok?
            && Sound(r.value.book) && Keys(r.value.book.log) == Keys(f.book.log) + {SettlementKey(key)}
            && r.value.book.balances.Keys == f.book.balances.Keys
            && (forall a | a in f.book.balances ::
                  r.value.book.balances[a] == f.book.balances[a] + SettlementShare(result, host, guest, key, a))
            && r.value.history == f.history[key := RowOf(result, host, guest, forfeited)]
  {
    EffectsAreBalanced(result, host, guest, key);
    PostKeepsSound(f.book, SettlementKey(key), SettlementEffects(result, host, guest, key).postings);
  }

  lemma {:induction false} MatchedAfterSettle(
    balances: map<AccountId, int>, keys: set<BusinessKey>, history: map<RoundKey, HistoryRow>,
    after: map<AccountId, int>, key: RoundKey, host: string, guest: string, result: Outcome, forfeited: bool)
    requires Matched(balances, keys, history) && Escrow(key) in balances && key !in history
    requires host != guest && IsDecided(result)
    requires after.Keys == balances.Keys
    requires forall a | a in balances :: after[a] == balances[a] + SettlementShare(result, host, guest, key, a)
    ensures Matched(after, keys + {SettlementKey(key)}, history[key := RowOf(result, host, guest, forfeited)])
  {
    hide Earnings;
    EarningsMore(history, key, RowOf(result, host, guest, forfeited));
  }

  lemma {:induction false} SettleKeepsFundsOk(f: Funds, key: RoundKey, host: string, guest: string, result: Outcome, forfeited: bool)
    requires FundsOk(f) && CanSettle(f, key, host, guest) && IsDecided(result)
    ensures var r := Settle(f, key, host, guest, result, forfeited);
            r.Ok? && FundsOk(r.value) && r.value.history == f.history[key := RowOf(result, host, guest, forfeited)]
  {
    SettleMoves(f, key, host, guest, result, forfeited);
    var g := Settle(f, key, host, guest, result, forfeited).value;
    MatchedAfterSettle(f.book.balances, Keys(f.book.log), f.history, g.book.balances, key, host, guest, result, forfeited);
  }

  lemma {:induction false} RechargeMoves(b: Book, owner: string, command: string, amount: int)
    requires Sound(b) && Recharge(b, owner, command, amount).Ok?
    ensures var c := Recharge(b, owner, command, amount).value;
            && amount > 0
            && Sound(c) && RechargeKey(owner, command) !in Keys(b.log)
            && Keys(c.log) == Keys(b.log) + {RechargeKey(owner, command)}
            && c.balances.Keys == b.balances.Keys + {User(owner)}
            && forall a | a in c.balances :: c.balances[a] == Lookup(b.balances, a)
                 + (if a == User(owner) then amount else 0) - (if a == Mint then amount else 0)
  {
    WithAccountKeepsSound(b, User(owner));
    PostingsOfTwo(Mint, -amount, User(owner), amount);
    PostKeepsSound(WithAccount(b, User(owner)), RechargeKey(owner, command), [Posting(Mint, -amount), Posting(User(owner), amount)]);
  }

  lemma {:induction false} RechargeKeepsFundsOk(f: Funds, owner: string, command: string, amount: int)
    requires FundsOk(f) && Recharge(f.book, owner, command, amount).Ok?
    ensures FundsOk(f.(book := Recharge(f.book, owner, command, amount).value))
  {
    hide Sound, Recharge, Keys;
    RechargeMoves(f.book, owner, command, amount);
  }
}
