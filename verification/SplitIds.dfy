/** Deterministic identifiers of the split library: leg IDs (`ledger/splits/deterministic.go`) and
    packed account IDs (`ledger/splits/account_id.go`). */
module SplitIds {
  import opened LinkedLedger

  const TWO_63: nat := 0x8000_0000_0000_0000

  // ---------------------------------------------------------------------------
  // Decimal text
  // ---------------------------------------------------------------------------

  function Digit(d: nat): char
    requires d < 10
  {
    ('0' as int + d) as char
  }

  function Digits(n: nat): string {
    if n == 0 then "" else Digits(n / 10) + [Digit(n % 10)]
  }

  function Decimal(n: nat): string {
    if n == 0 then "0" else Digits(n)
  }

  function Parse(s: string): int {
    if s == "" then 0 else Parse(s[..|s| - 1]) * 10 + (s[|s| - 1] as int - '0' as int)
  }

  function Pow10(k: nat): nat {
    if k == 0 then 1 else 10 * Pow10(k - 1)
  }

  lemma {:induction false} BufferIsWideEnough()
    ensures TWO_63 <= Pow10(20)
  {
    assert Pow10(2) == 100 && Pow10(4) == 10_000 && Pow10(6) == 1_000_000 && Pow10(8) == 100_000_000;
    assert Pow10(10) == 10_000_000_000 && Pow10(12) == 1_000_000_000_000 && Pow10(14) == 100_000_000_000_000;
    assert Pow10(16) == 10_000_000_000_000_000 && Pow10(18) == 1_000_000_000_000_000_000;
  }

  lemma {:induction false} OneDigitLess(rest: nat, k: nat)
    requires 0 < rest < Pow10(k)
    ensures k > 0 && rest / 10 < Pow10(k - 1)
  {
  }

  lemma {:induction false} DigitsStep(rest: nat)
    ensures rest > 0 ==> Digits(rest) == Digits(rest / 10) + [Digit(rest % 10)]
    ensures rest == 0 ==> Digits(rest) == ""
  {
  }

  /** Fills a 20-byte buffer from its end and never runs off the front; negative numbers are empty. */
  method Itoa(i: int) returns (s: string)
    requires i < TWO_63
    ensures s == if i < 0 then "" else Decimal(i)
  {
    if i == 0 {
      return "0";
    }
    var buffer := new char[20];
    var pos, rest := buffer.Length, i;
    BufferIsWideEnough();
    assert i > 0 ==> Decimal(i) == Digits(i);
    hide Pow10, Digit, Digits, Decimal;
    while rest > 0
      invariant 0 <= pos <= 20 && rest < Pow10(pos)
      invariant i > 0 ==> 0 <= rest && Digits(i) == Digits(rest) + buffer[pos..]
      invariant i < 0 ==> rest == i && pos == 20
    {
      OneDigitLess(rest, pos);
      DigitsStep(rest);
      pos := pos - 1;
      buffer[pos] := Digit(rest % 10);
      assert [buffer[pos]] + buffer[pos + 1..] == buffer[pos..];
      rest := rest / 10;
    }
    DigitsStep(0);
    return buffer[pos..];
  }

  lemma {:induction false} ParseDigits(n: nat)
    ensures Parse(Digits(n)) == n
  {
    if n > 0 {
      ParseDigits(n / 10);
      assert Digits(n)[..|Digits(n)| - 1] == Digits(n / 10);
    }
  }

  /** Decimal text is inverted by decimal parsing, so different numbers have different texts. */
  lemma {:induction false} ParseInvertsDecimal(n: nat)
    ensures Parse(Decimal(n)) == n
  {
    ParseDigits(n);
    if n == 0 {
      assert Parse("0") == Parse("0"[..0]) * 10;
    }
  }

  predicate NoBar(s: string) {
    forall i :: 0 <= i < |s| ==> s[i] != '|'
  }

  lemma {:induction false} DigitsNoBar(n: nat)
    ensures NoBar(Digits(n))
  {
    if n > 0 { DigitsNoBar(n / 10); }
  }

  // ---------------------------------------------------------------------------
  // Leg IDs
  // ---------------------------------------------------------------------------

  function DeterministicId(key: string, leg: string): TransferId {
    Hashed(key + "|" + leg)
  }

  function ChainLegId(key: string, i: nat): TransferId {
    DeterministicId(key, "leg-" + Decimal(i))
  }

  function ReversalLegId(key: string, i: nat): TransferId {
    DeterministicId(key, "leg-" + Decimal(i) + "|reversal")
  }

  /** A text splits in one way at its last bar. */
  lemma {:induction false} LastBar(a: string, x: string, b: string, y: string)
    requires NoBar(x) && NoBar(y) && a + "|" + x == b + "|" + y
    ensures a == b && x == y
  {
    var s := a + "|" + x;
    assert s[|a|] == '|' && forall i :: |a| < i < |s| ==> s[i] == x[i - |a| - 1];
    assert s[|b|] == '|' && forall i :: |b| < i < |s| ==> s[i] == y[i - |b| - 1];
    assert |a| == |b|;
    assert s[..|a|] == a && s[..|b|] == b && s[|a| + 1..] == x && s[|b| + 1..] == y;
  }

  lemma {:induction false} LegNameNoBar(i: nat)
    ensures NoBar("leg-" + Decimal(i))
  {
    DigitsNoBar(i);
  }

  lemma {:induction false} LegNameInjective(i: nat, k: nat)
    requires "leg-" + Decimal(i) == "leg-" + Decimal(k)
    ensures i == k
  {
    assert ("leg-" + Decimal(i))[4..] == Decimal(i) && ("leg-" + Decimal(k))[4..] == Decimal(k);
    ParseInvertsDecimal(i);
    ParseInvertsDecimal(k);
  }

  lemma {:induction false} ReversalText(key: string, i: nat)
    ensures key + "|" + ("leg-" + Decimal(i) + "|reversal") == (key + "|" + ("leg-" + Decimal(i))) + "|" + "reversal"
  {
  }

  /** Leg and reversal IDs name their key and index, and no leg ID is a reversal ID, over all keys. */
  lemma {:induction false} LegIdsDistinct(key: string, i: nat, key': string, k: nat)
    ensures ChainLegId(key, i) == ChainLegId(key', k) <==> key == key' && i == k
    ensures ReversalLegId(key, i) == ReversalLegId(key', k) <==> key == key' && i == k
    ensures ChainLegId(key, i) != ReversalLegId(key', k)
  {
    LegNameNoBar(i);
    LegNameNoBar(k);
    var leg, leg' := "leg-" + Decimal(i), "leg-" + Decimal(k);
    ReversalText(key, i);
    ReversalText(key', k);
    hide Decimal;
    if ChainLegId(key, i) == ChainLegId(key', k) {
      LastBar(key, leg, key', leg');
      LegNameInjective(i, k);
    }
    if ReversalLegId(key, i) == ReversalLegId(key', k) {
      LastBar(key + "|" + leg, "reversal", key' + "|" + leg', "reversal");
      LastBar(key, leg, key', leg');
      LegNameInjective(i, k);
    }
    LegIsNoReversal(key, leg, key' + "|" + leg');
  }

  lemma {:induction false} LegIsNoReversal(key: string, leg: string, text: string)
    requires NoBar(leg) && |leg| > 0 && leg[0] == 'l'
    ensures key + "|" + leg != text + "|" + "reversal"
  {
    if key + "|" + leg == text + "|" + "reversal" {
      LastBar(key, leg, text, "reversal");
      assert false;
    }
  }

  // ---------------------------------------------------------------------------
  // Account IDs
  // ---------------------------------------------------------------------------

  datatype AccountParts = AccountParts(tenant: bv16, mda: bv16, class_: bv16, entity: Uint128)

  datatype BuiltId = BuiltId(id: AccountId) | EntityTooWide

  /** Tenant in bits 0 to 15, MDA in 16 to 31, class in 32 to 47, the 80-bit entity above. */
  function BuildAccountId(p: AccountParts): BuiltId {
    if p.entity.hi > 0xFFFF then EntityTooWide
    else
      var lo := (p.entity.lo << 48) | ((p.class_ as bv64) << 32) | ((p.mda as bv64) << 16) | (p.tenant as bv64);
      var hi := (p.entity.hi << 48) | (p.entity.lo >> 16);
      BuiltId(Uint128(lo, hi))
  }

  function DecodeAccountId(id: AccountId): AccountParts {
    var entity := Uint128((id.lo >> 48) | ((id.hi & 0x0000_FFFF_FFFF_FFFF) << 16), id.hi >> 48);
    AccountParts((id.lo & 0xFFFF) as bv16, ((id.lo >> 16) & 0xFFFF) as bv16, ((id.lo >> 32) & 0xFFFF) as bv16, entity)
  }

  /** Decoding inverts building for every entity of at most 80 bits, though it straddles both limbs. */
  lemma {:induction false} DecodeInvertsBuild(p: AccountParts)
    ensures BuildAccountId(p).BuiltId? <==> p.entity.hi <= 0xFFFF
    ensures BuildAccountId(p).BuiltId? ==> DecodeAccountId(BuildAccountId(p).id) == p
  {
  }

  /** Building inverts decoding for every 128-bit ID: each ID is the account of exactly one set of parts. */
  lemma {:induction false} BuildInvertsDecode(id: AccountId)
    ensures BuildAccountId(DecodeAccountId(id)) == BuiltId(id)
  {
  }

  /** The digits of the low word to the base 2^16 are tenant, MDA, class and the lowest 16 bits of the entity; the
      high word is the rest of the entity. */
  lemma {:induction false} LayoutIsPositional(p: AccountParts)
    requires p.entity.hi <= 0xFFFF
    ensures var id := BuildAccountId(p).id;
      && id.lo == (p.tenant as bv64) + ((p.mda as bv64) << 16) + ((p.class_ as bv64) << 32) + (p.entity.lo << 48)
      && id.hi == (p.entity.lo >> 16) + (p.entity.hi << 48)
  {
  }
}
