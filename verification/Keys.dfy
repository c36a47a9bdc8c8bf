// Text forms: account names, business keys and the notification payload, with
// the parser that reads the payload back.
module Keys {
  import opened Prelude
  import opened Ledger

  function DigitOf(d: nat): char
    requires d < 10
  {
    "0123456789"[d]
  }

  predicate IsDigit(c: char) {
    '0' <= c <= '9'
  }

  function DigitValue(c: char): nat
    requires IsDigit(c)
  {
    c as int - '0' as int
  }

  // %d
  function Decimal(n: nat): string {
    if n < 10 then [DigitOf(n)] else Decimal(n / 10) + [DigitOf(n % 10)]
  }

  predicate AllDigits(s: string) {
    forall i | 0 <= i < |s| :: IsDigit(s[i])
  }

  function Value(s: string): nat
    requires AllDigits(s)
  {
    if s == "" then 0 else Value(s[..|s| - 1]) * 10 + DigitValue(s[|s| - 1])
  }

  lemma {:induction false} DecimalReadsBack(n: nat)
    ensures |Decimal(n)| > 0 && AllDigits(Decimal(n)) && Value(Decimal(n)) == n
  {
    if n >= 10 {
      DecimalReadsBack(n / 10);
      assert Decimal(n)[..|Decimal(n)| - 1] == Decimal(n / 10);
    } else {
      assert Decimal(n)[..0] == "";
      assert Value(Decimal(n)) == Value(Decimal(n)[..0]) * 10 + n;
    }
  }

  function Tail(code: string, round: nat): string {
    code + ":" + Decimal(round)
  }

  // The text before the last colon and the digits after it are determined by
  // the whole text, whatever colons the code contains.
  lemma {:induction false} TailIsInjective(code: string, round: nat, other: string, otherRound: nat)
    requires Tail(code, round) == Tail(other, otherRound)
    ensures code == other && round == otherRound
  {
    DecimalReadsBack(round);
    DecimalReadsBack(otherRound);
    var t, a, b := Tail(code, round), |code|, |other|;
    assert t[a] == ':' && t[b] == ':';
    assert forall i | a < i < |t| :: t[i] == Decimal(round)[i - a - 1];
    assert forall i | b < i < |t| :: t[i] == Decimal(otherRound)[i - b - 1];
    assert t[..a] == code && t[..b] == other;
    assert t[a + 1..] == Decimal(round) && t[b + 1..] == Decimal(otherRound);
  }

  // wallet_accounts.account_id
  function AccountName(a: AccountId): string {
    match a
    case House => "house"
    case Mint => "mint"
    case User(owner) => "user:" + owner
    case Escrow(key) => "escrow:" + Tail(key.code, key.round)
  }

  lemma {:induction false} AccountNamesAreInjective(a: AccountId, b: AccountId)
    requires AccountName(a) == AccountName(b)
    ensures a == b
  {
    assert AccountName(a)[0] == AccountName(b)[0];
    if a.User? && b.User? {
      assert AccountName(a)[5..] == a.owner && AccountName(b)[5..] == b.owner;
    } else if a.Escrow? && b.Escrow? {
      assert AccountName(a)[7..] == Tail(a.key.code, a.key.round) && AccountName(b)[7..] == Tail(b.key.code, b.key.round);
      TailIsInjective(a.key.code, a.key.round, b.key.code, b.key.round);
    }
  }

  // wallet_transactions.business_key
  function BusinessText(k: BusinessKey): string {
    match k
    case StakeKey(key) => "stake:" + Tail(key.code, key.round)
    case SettlementKey(key) => "settlement:" + Tail(key.code, key.round)
    case RechargeKey(owner, command) => "recharge:" + owner + ":" + command
  }

  predicate NoColon(s: string) {
    forall i | 0 <= i < |s| :: s[i] != ':'
  }

  lemma {:induction false} FirstColonSplits(a: string, x: string, b: string, y: string)
    requires NoColon(a) && NoColon(b) && a + ":" + x == b + ":" + y
    ensures a == b && x == y
  {
    var t := a + ":" + x;
    assert t == b + ":" + y;
    assert t[|a|] == ':' && t[|b|] == ':';
    assert t[..|a|] == a && t[..|b|] == b && t[|a| + 1..] == x && t[|b| + 1..] == y;
  }

  // Account ids are UUIDs, so they hold no colon; command keys may.
  lemma {:induction false} BusinessTextsAreInjective(a: BusinessKey, b: BusinessKey)
    requires BusinessText(a) == BusinessText(b)
    requires a.RechargeKey? ==> NoColon(a.owner)
    requires b.RechargeKey? ==> NoColon(b.owner)
    ensures a == b
  {
    var s, t := BusinessText(a), BusinessText(b);
    assert s[0] == t[0] && s[1] == t[1] && s[2] == t[2];
    if a.StakeKey? && b.StakeKey? {
      assert s[6..] == Tail(a.key.code, a.key.round) && t[6..] == Tail(b.key.code, b.key.round);
      TailIsInjective(a.key.code, a.key.round, b.key.code, b.key.round);
    } else if a.SettlementKey? && b.SettlementKey? {
      assert s[11..] == Tail(a.key.code, a.key.round) && t[11..] == Tail(b.key.code, b.key.round);
      TailIsInjective(a.key.code, a.key.round, b.key.code, b.key.round);
    } else if a.RechargeKey? && b.RechargeKey? {
      assert s[9..] == a.owner + ":" + a.command && t[9..] == b.owner + ":" + b.command;
      FirstColonSplits(a.owner, a.command, b.owner, b.command);
    }
  }

  // Two recharges share one key if and only if they are the same, or one
  // account id is the other, a colon and a text that the other command key
  // starts with, before a colon.
  lemma {:induction false} ColonsBreakRechargeKeys(a: string, x: string, b: string, y: string)
    ensures BusinessText(RechargeKey(a, x)) == BusinessText(RechargeKey(b, y))
       <==> (a == b && x == y) || Extends(a, x, b, y) || Extends(b, y, a, x)
  {
    hide Extends, BusinessText;
    RechargeText(a, x);
    RechargeText(b, y);
    if a + ":" + x == b + ":" + y {
      if |a| < |b| {
        ColonInside(a, x, b, y);
      } else if |b| < |a| {
        ColonInside(b, y, a, x);
      } else {
        SameLength(a, x, b, y);
      }
    }
    ExtendsText(a, x, b, y);
    ExtendsText(b, y, a, x);
  }

  lemma {:induction false} RechargeText(a: string, x: string)
    ensures BusinessText(RechargeKey(a, x)) == "recharge:" + (a + ":" + x) && BusinessText(RechargeKey(a, x))[9..] == a + ":" + x
  {
    assert "recharge:" + a + ":" + x == "recharge:" + (a + ":" + x);
    assert ("recharge:" + (a + ":" + x))[9..] == a + ":" + x;
  }

  lemma {:induction false} SameLength(a: string, x: string, b: string, y: string)
    requires a + ":" + x == b + ":" + y && |a| == |b|
    ensures a == b && x == y
  {
    assert (a + ":" + x)[..|a|] == a && (b + ":" + y)[..|b|] == b;
    assert (a + ":" + x)[|a| + 1..] == x && (b + ":" + y)[|b| + 1..] == y;
  }

  lemma {:induction false} ExtendsText(a: string, x: string, b: string, y: string)
    ensures Extends(a, x, b, y) ==> a + ":" + x == b + ":" + y
  {
    if Extends(a, x, b, y) {
      var z :| b == a + ":" + z && x == z + ":" + y;
      assert a + ":" + (z + ":" + y) == (a + ":" + z) + ":" + y;
    }
  }

  ghost predicate Extends(a: string, x: string, b: string, y: string) {
    exists z :: b == a + ":" + z && x == z + ":" + y
  }

  lemma {:induction false} ColonInside(a: string, x: string, b: string, y: string)
    requires a + ":" + x == b + ":" + y && |a| < |b|
    ensures Extends(a, x, b, y)
  {
    var one, other := a + ":" + x, b + ":" + y;
    var z := b[|a| + 1..];
    assert one[..|a|] == a && other[..|a|] == b[..|a|];
    assert one[|a|] == ':' && other[|a|] == b[|a|];
    assert b == a + ":" + z;
    assert one[|a| + 1..] == x && other[|a| + 1..] == z + ":" + y;
  }

  // ---- The notification payload ----

  const MaxRound := 0x1_0000_0000_0000_0000

  function Payload(code: string, round: nat): string {
    Tail(code, round)
  }

  predicate HintFits(code: string, round: nat) {
    |Payload(code, round)| <= 128
  }

  function Pow10(k: nat): nat {
    if k == 0 then 1 else 10 * Pow10(k - 1)
  }

  lemma {:induction false} DecimalLength(n: nat, k: nat)
    requires 0 < k && n < Pow10(k)
    ensures |Decimal(n)| <= k
  {
    if n >= 10 {
      assert k > 1 by { assert Pow10(1) == 10 * Pow10(0); }
      DecimalLength(n / 10, k - 1);
    }
  }

  // A 64-bit round takes at most twenty digits, so the hint of a code of up to
  // 107 characters always fits; generated codes have six.
  lemma {:induction false} ShortCodesFit(code: string, round: nat)
    requires |code| <= 107 && round < MaxRound
    ensures HintFits(code, round)
  {
    assert Pow10(10) == 1_00000_00000 by { assert Pow10(5) == 1_00000; }
    assert Pow10(20) == 1_00000_00000_00000_00000 by { assert Pow10(15) == 1_00000_00000_00000; }
    DecimalLength(round, 20);
  }

  predicate IsLetter(c: char) {
    'a' <= c <= 'z' || 'A' <= c <= 'Z'
  }

  predicate IsCodeChar(c: char) {
    IsLetter(c) || IsDigit(c) || c == '-' || c == '_'
  }

  predicate AdmissibleCode(code: string) {
    0 < |code| <= 64 && forall i | 0 <= i < |code| :: IsCodeChar(code[i])
  }

  // `payload` names `code` and `round`; the digits may have leading zeros.
  ghost predicate IsHint(payload: string, code: string, round: nat) {
    && |payload| <= 128 && AdmissibleCode(code) && 0 < round < MaxRound
    && exists digits | AllDigits(digits) && |digits| > 0 :: payload == code + ":" + digits && Value(digits) == round
  }

  lemma {:induction false} HintIsUnique(payload: string, code: string, round: nat, other: string, otherRound: nat)
    requires IsHint(payload, code, round) && IsHint(payload, other, otherRound)
    ensures code == other && round == otherRound
  {
    var d :| AllDigits(d) && |d| > 0 && payload == code + ":" + d && Value(d) == round;
    var e :| AllDigits(e) && |e| > 0 && payload == other + ":" + e && Value(e) == otherRound;
    FirstColonSplits(code, d, other, e);
  }

  // The parser inverts the payload exactly for admissible codes and positive
  // 64-bit rounds that fit the bound the sender enforces.
  lemma {:induction false} PayloadIsHint(code: string, round: nat)
    ensures IsHint(Payload(code, round), code, round) <==> AdmissibleCode(code) && 0 < round < MaxRound && HintFits(code, round)
  {
    DecimalReadsBack(round);
  }

  method LastIndexByte(s: string, c: char) returns (at: int)
    ensures -1 <= at < |s| && (at >= 0 ==> s[at] == c)
    ensures forall i | at < i < |s| :: s[i] != c
  {
    at := |s| - 1;
    while at >= 0 && s[at] != c
      invariant -1 <= at < |s|
      invariant forall i | at < i < |s| :: s[i] != c
    {
      at := at - 1;
    }
  }

  lemma {:induction false} ValueGrows(s: string, i: nat)
    requires AllDigits(s) && i <= |s|
    ensures Value(s[..i]) <= Value(s)
    decreases |s|
  {
    if i == |s| {
      assert s[..i] == s;
    } else {
      ValueGrows(s[..|s| - 1], i);
      assert s[..|s| - 1][..i] == s[..i];
    }
  }

  // strconv.ParseUint(s, 10, 64)
  method ParseUint(s: string) returns (n: nat, ok: bool)
    ensures ok <==> |s| > 0 && AllDigits(s) && Value(s) < MaxRound
    ensures ok ==> n == Value(s)
  {
    n := 0;
    if |s| == 0 { return 0, false; }
    for i := 0 to |s|
      invariant AllDigits(s[..i]) && n == Value(s[..i]) && n < MaxRound
    {
      if !IsDigit(s[i]) { return 0, false; }
      assert s[..i + 1][..i] == s[..i];
      n := n * 10 + DigitValue(s[i]);
      if n >= MaxRound {
        if AllDigits(s) { ValueGrows(s, i + 1); }
        return 0, false;
      }
    }
    assert s[..|s|] == s;
    return n, true;
  }

  datatype RoomHint = RoomHint(code: string, round: nat)

  method ParseRoomHint(payload: string) returns (hint: Option<RoomHint>)
    ensures match hint
            case Some(h) => IsHint(payload, h.code, h.round)
            case None => forall code, round :: !IsHint(payload, code, round)
  {
    if |payload| == 0 || |payload| > 128 { return None; }
    var separator := LastIndexByte(payload, ':');
    HintSeparator(payload);
    if separator <= 0 || separator == |payload| - 1 { return None; }
    var code := payload[..separator];
    if |code| > 64 { return None; }
    for i := 0 to |code|
      invariant forall j | 0 <= j < i :: IsCodeChar(code[j])
    {
      if !IsCodeChar(code[i]) { return None; }
    }
    var digits := payload[separator + 1..];
    var round, ok := ParseUint(digits);
    if !ok || round == 0 { return None; }
    assert payload == code + ":" + digits;
    return Some(RoomHint(code, round));
  }

  // Wherever a payload is a hint, its last colon is the separator.
  lemma {:induction false} HintSeparator(payload: string)
    ensures forall code, round | IsHint(payload, code, round) ::
              && |code| + 1 < |payload| && payload[|code|] == ':' && payload[..|code|] == code
              && AllDigits(payload[|code| + 1..]) && Value(payload[|code| + 1..]) == round
  {
    forall code, round | IsHint(payload, code, round)
      ensures && |code| + 1 < |payload| && payload[|code|] == ':' && payload[..|code|] == code
              && AllDigits(payload[|code| + 1..]) && Value(payload[|code| + 1..]) == round
    {
      var d :| AllDigits(d) && |d| > 0 && payload == code + ":" + d && Value(d) == round;
      assert payload[|code| + 1..] == d;
    }
  }
}
