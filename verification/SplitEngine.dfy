/** Statutory revenue splits in exact kobo: `ledger/splits/split.go`, with the conservation check of
    `ledger/splits/policy.go` that supplies its preconditions. */
module SplitEngine {
  import opened Sequences

  const TWO_63: nat := 0x8000_0000_0000_0000
  const TWO_64: nat := 0x1_0000_0000_0000_0000
  const TOTAL_BPS: nat := 10_000

  datatype Timing = Instant | EndOfMonth | NoTiming

  datatype SplitRule = SplitRule(beneficiary: string, accountCode: bv16, bps: nat, timing: Timing, transferCode: nat)

  datatype Leg = Leg(rule: SplitRule, amount: nat)

  datatype SplitPlan = SplitPlan(instantLegs: seq<Leg>, monthEndLegs: seq<Leg>, clearingRemainder: nat, gross: nat)

  function RulesWith(rules: seq<SplitRule>, t: Timing): seq<SplitRule> {
    if rules == [] then []
    else if rules[0].timing == t then [rules[0]] + RulesWith(rules[1..], t)
    else RulesWith(rules[1..], t)
  }

  function BpsSum(rules: seq<SplitRule>): nat {
    if rules == [] then 0 else rules[0].bps + BpsSum(rules[1..])
  }

  function LegSum(legs: seq<Leg>): nat {
    if legs == [] then 0 else legs[0].amount + LegSum(legs[1..])
  }

  /** `gross * bps / 100%`, rounded down to the kobo. */
  function Share(gross: nat, bps: nat): nat {
    gross * bps / TOTAL_BPS
  }

  function Shares(gross: nat, rules: seq<SplitRule>): nat {
    if rules == [] then 0 else Share(gross, rules[0].bps) + Shares(gross, rules[1..])
  }

  // ---------------------------------------------------------------------------
  // 128-bit multiply and divide
  // ---------------------------------------------------------------------------

  datatype Quotient = Quotient(q: nat) | DivisionByZero | TooLarge | Panics

  /** `bits.Mul64` yields the product as two limbs; `bits.Div64` panics unless the high limb is
      below the divisor. */
  function MulDivFloor(a: nat, b: nat, d: nat): Quotient {
    if d == 0 then DivisionByZero
    else if a >= TWO_63 then TooLarge
    else
      var hi, lo := a * b / TWO_64, a * b % TWO_64;
      if d <= hi then Panics else Quotient((hi * TWO_64 + lo) / d)
  }

  lemma {:induction false} DivLess(x: nat, m: nat, d: nat)
    requires m > 0
    ensures x / m < d <==> x < d * m
  {
    assert x == x / m * m + x % m;
    if x / m < d {
      assert x / m * m <= (d - 1) * m == d * m - m by { MulMonotone(x / m, d - 1, m); }
    } else {
      MulMonotone(d, x / m, m);
    }
  }

  lemma {:induction false} MulMonotone(x: int, y: int, m: nat)
    requires x <= y
    ensures x * m <= y * m
  {
  }

  /** In range, the division is exact if and only if the true quotient fits in 64 bits; otherwise it panics. */
  lemma {:induction false} MulDivFloorExactIff(a: nat, b: nat, d: nat)
    requires 0 < d && a < TWO_63
    ensures MulDivFloor(a, b, d) == (if a * b < d * TWO_64 then Quotient(a * b / d) else Panics)
  {
    DivLess(a * b, TWO_64, d);
  }

  /** Shares of at most 100% never leave the safe range. */
  lemma {:induction false} ShareFits(gross: nat, bps: nat)
    requires gross < TWO_63 && bps <= TOTAL_BPS
    ensures MulDivFloor(gross, bps, TOTAL_BPS) == Quotient(Share(gross, bps))
    ensures Share(gross, bps) <= gross
  {
    MulMonotone(bps, TOTAL_BPS, gross);
    assert gross * bps <= gross * TOTAL_BPS;
    MulDivFloorExactIff(gross, bps, TOTAL_BPS);
  }

  // ---------------------------------------------------------------------------
  // Rounding
  // ---------------------------------------------------------------------------

  function Times(a: int, m: nat): int { a * m }

  lemma {:induction false} TimesSum(a: int, b: int, m: nat)
    ensures Times(a + b, m) == Times(a, m) + Times(b, m) && Times(a + b + 2, m) == Times(a, m) + Times(b, m) + 2 * m
  {
  }

  function Floor(x: nat, m: nat): nat
    requires m > 0
  {
    x / m
  }

  /** The quotient is the largest multiple count that fits in `x`. */
  lemma {:induction false} QuotientFits(x: nat, m: nat)
    requires m > 0
    ensures Times(Floor(x, m), m) <= x < Times(Floor(x, m), m) + m
  {
    assert x == x / m * m + x % m;
  }

  lemma {:induction false} QuotientBelow(x: nat, m: nat, d: int)
    requires m > 0 && d >= 0
    ensures Floor(x, m) < d <==> x < Times(d, m)
  {
    DivLess(x, m, d);
  }

  lemma {:induction false} QuotientSums(x: nat, y: nat, m: nat)
    requires m > 0
    ensures Floor(x, m) + Floor(y, m) <= Floor(x + y, m) <= Floor(x, m) + Floor(y, m) + 1
  {
    hide Times, Floor;
    var p, q := Floor(x, m), Floor(y, m);
    QuotientFits(x, m);
    QuotientFits(y, m);
    QuotientBelow(x + y, m, p + q);
    QuotientBelow(x + y, m, p + q + 2);
    QuotientOfSum(x, y, m, p, q, Floor(x + y, m));
  }

  lemma {:induction false} FloorOfSum(x: nat, y: nat, m: nat)
    requires m > 0
    ensures x / m + y / m <= (x + y) / m <= x / m + y / m + 1
  {
    QuotientSums(x, y, m);
  }

  lemma {:induction false} QuotientOfSum(x: nat, y: nat, m: nat, p: int, q: int, z: int)
    requires Times(p, m) <= x < Times(p, m) + m && Times(q, m) <= y < Times(q, m) + m
    requires (z < p + q <==> x + y < Times(p + q, m)) && (z < p + q + 2 <==> x + y < Times(p + q + 2, m))
    ensures p + q <= z <= p + q + 1
  {
    TimesSum(p, q, m);
    hide Times;
  }

  /** Rounding each share down loses less than one kobo a rule. */
  lemma {:induction false} SharesRound(gross: nat, rules: seq<SplitRule>)
    ensures Shares(gross, rules) <= Share(gross, BpsSum(rules))
    ensures rules != [] ==> Share(gross, BpsSum(rules)) <= Shares(gross, rules) + |rules| - 1
  {
    if rules == [] {
      assert gross * 0 == 0;
    } else {
      var b, rest := rules[0].bps, BpsSum(rules[1..]);
      SharesRound(gross, rules[1..]);
      assert gross * (b + rest) == gross * b + gross * rest;
      FloorOfSum(gross * b, gross * rest, TOTAL_BPS);
      if |rules| == 1 { assert gross * rest == 0; }
    }
  }

  lemma {:induction false} BpsAppend(rules: seq<SplitRule>, r: SplitRule)
    ensures BpsSum(rules + [r]) == BpsSum(rules) + r.bps
  {
    if rules == [] {
      assert rules + [r] == [r];
    } else {
      assert (rules + [r])[1..] == rules[1..] + [r];
      BpsAppend(rules[1..], r);
    }
  }

  lemma {:induction false} SharesAppend(rules: seq<SplitRule>, r: SplitRule, gross: nat)
    ensures Shares(gross, rules + [r]) == Shares(gross, rules) + Share(gross, r.bps)
  {
    hide Share;
    if rules == [] {
      assert rules + [r] == [r];
    } else {
      assert (rules + [r])[1..] == rules[1..] + [r];
      SharesAppend(rules[1..], r, gross);
    }
  }

  lemma {:induction false} LegSumAppend(legs: seq<Leg>, leg: Leg)
    ensures LegSum(legs + [leg]) == LegSum(legs) + leg.amount
  {
    if legs == [] {
      assert legs + [leg] == [leg];
    } else {
      assert (legs + [leg])[1..] == legs[1..] + [leg];
      LegSumAppend(legs[1..], leg);
    }
  }

  lemma {:induction false} FilterStep(rules: seq<SplitRule>, k: nat, t: Timing)
    requires k < |rules|
    ensures RulesWith(rules[..k + 1], t) ==
      if rules[k].timing == t then RulesWith(rules[..k], t) + [rules[k]] else RulesWith(rules[..k], t)
  {
    if k == 0 {
      assert rules[..1][1..] == [] && rules[..0] == [];
    } else {
      assert rules[..k + 1][1..] == rules[1..][..k] && rules[..k][1..] == rules[1..][..k - 1];
      FilterStep(rules[1..], k - 1, t);
    }
  }

  lemma {:induction false} PartAtMostSum(rules: seq<SplitRule>, i: nat)
    requires i < |rules|
    ensures rules[i].bps <= BpsSum(rules)
  {
    if i > 0 { PartAtMostSum(rules[1..], i - 1); }
  }

  lemma {:induction false} BpsOfPrefix(rules: seq<SplitRule>, k: nat)
    requires k <= |rules|
    ensures BpsSum(rules[..k]) <= BpsSum(rules)
  {
    if k > 0 {
      assert rules[..k][1..] == rules[1..][..k - 1];
      BpsOfPrefix(rules[1..], k - 1);
    }
  }

  // ---------------------------------------------------------------------------
  // The split
  // ---------------------------------------------------------------------------

  datatype SplitOutcome = Computed(plan: SplitPlan) | Rejected | Panicked

  /** The rules the engine accepts. */
  predicate Splittable(gross: nat, rules: seq<SplitRule>) {
    && (forall i :: 0 <= i < |rules| ==> rules[i].timing != NoTiming)
    && RulesWith(rules, Instant) != []
    && 0 < BpsSum(RulesWith(rules, Instant)) <= TOTAL_BPS
    && gross < TWO_63
  }

  predicate Floored(legs: seq<Leg>, rules: seq<SplitRule>, gross: nat) {
    && |legs| == |rules|
    && forall i :: 0 <= i < |legs| ==> legs[i] == Leg(rules[i], Share(gross, rules[i].bps))
  }

  /** One leg a rule, in order; every leg but the last is its share rounded down. */
  predicate DividesPool(legs: seq<Leg>, instant: seq<SplitRule>, gross: nat) {
    && |legs| == |instant| > 0
    && Floored(legs[..|legs| - 1], instant[..|legs| - 1], gross)
    && legs[|legs| - 1].rule == instant[|legs| - 1]
  }

  /** The plan promised for `gross`: every leg but the last instant one is its share rounded down, and
      the instant legs sum to the share of their total, which leaves clearing at once. */
  ghost predicate IsPlan(plan: SplitPlan, gross: nat, rules: seq<SplitRule>) {
    var instant := RulesWith(rules, Instant);
    && DividesPool(plan.instantLegs, instant, gross)
    && LegSum(plan.instantLegs) == Share(gross, BpsSum(instant)) <= gross
    && Floored(plan.monthEndLegs, RulesWith(rules, EndOfMonth), gross)
    && plan.clearingRemainder == gross - Share(gross, BpsSum(instant))
    && plan.gross == gross
  }

  /** The timing switch: rules by timing in gazetted order, or an error at the first untimed rule. */
  method PartitionRules(rules: seq<SplitRule>) returns (ok: bool, instant: seq<SplitRule>, monthEnd: seq<SplitRule>)
    ensures ok <==> forall i :: 0 <= i < |rules| ==> rules[i].timing != NoTiming
    ensures ok ==> instant == RulesWith(rules, Instant) && monthEnd == RulesWith(rules, EndOfMonth)
  {
    instant, monthEnd := [], [];
    assert rules[..|rules|] == rules;
    for i := 0 to |rules|
      invariant instant == RulesWith(rules[..i], Instant) && monthEnd == RulesWith(rules[..i], EndOfMonth)
      invariant forall j :: 0 <= j < i ==> rules[j].timing != NoTiming
    {
      FilterStep(rules, i, Instant);
      FilterStep(rules, i, EndOfMonth);
      match rules[i].timing
      case Instant => instant := instant + [rules[i]];
      case EndOfMonth => monthEnd := monthEnd + [rules[i]];
      case NoTiming => return false, instant, monthEnd;
    }
    ok := true;
  }

  method TotalBps(rules: seq<SplitRule>) returns (total: nat)
    ensures total == BpsSum(rules)
  {
    total := 0;
    for i := 0 to |rules|
      invariant total == BpsSum(rules[..i])
    {
      BpsAppend(rules[..i], rules[i]);
      assert rules[..i + 1] == rules[..i] + [rules[i]];
      total := total + rules[i].bps;
    }
    assert rules[..|rules|] == rules;
  }

  /** The instant loop: every leg but the last is rounded down, the last absorbs what is left of the
      pool. The subtraction, written with 64-bit wrap-around, never wraps. */
  method SplitPool(gross: nat, instant: seq<SplitRule>, pool: nat) returns (legs: seq<Leg>)
    requires instant != [] && gross < TWO_63 && BpsSum(instant) <= TOTAL_BPS && pool == Share(gross, BpsSum(instant))
    ensures LegSum(legs) == pool && DividesPool(legs, instant, gross)
  {
    hide Share, MulDivFloor;
    var n := |instant|;
    var given := 0;
    legs := [];
    for i := 0 to n - 1
      invariant Floored(legs, instant[..i], gross)
      invariant given == LegSum(legs)
    {
      PartAtMostSum(instant, i);
      ShareFits(gross, instant[i].bps);
      var amount := MulDivFloor(gross, instant[i].bps, TOTAL_BPS).q;
      given := given + amount;
      LegSumAppend(legs, Leg(instant[i], amount));
      legs := legs + [Leg(instant[i], amount)];
      assert instant[..i + 1] == instant[..i] + [instant[i]];
    }
    FlooredSum(legs, instant[..n - 1], gross);
    SharesRound(gross, instant[..n - 1]);
    BpsOfPrefix(instant, n - 1);
    ShareMonotone(gross, BpsSum(instant[..n - 1]), BpsSum(instant));
    ShareFits(gross, BpsSum(instant));
    var last := (pool - given) % TWO_64;
    LegSumAppend(legs, Leg(instant[n - 1], last));
    legs := legs + [Leg(instant[n - 1], last)];
    assert legs[..n - 1] == legs[..|legs| - 1];
  }

  method MonthEndLegs(gross: nat, rules: seq<SplitRule>) returns (panics: bool, legs: seq<Leg>)
    requires gross < TWO_63
    ensures panics <==> exists i :: 0 <= i < |rules| && gross * rules[i].bps >= TOTAL_BPS * TWO_64
    ensures !panics ==> Floored(legs, rules, gross)
  {
    legs := [];
    for i := 0 to |rules|
      invariant Floored(legs, rules[..i], gross)
      invariant forall j :: 0 <= j < i ==> gross * rules[j].bps < TOTAL_BPS * TWO_64
    {
      MulDivFloorExactIff(gross, rules[i].bps, TOTAL_BPS);
      var share := MulDivFloor(gross, rules[i].bps, TOTAL_BPS);
      if share.Panics? {
        return true, legs;
      }
      legs := legs + [Leg(rules[i], share.q)];
      assert rules[..i + 1] == rules[..i] + [rules[i]];
    }
    assert rules[..|rules|] == rules;
    panics := false;
  }

  /** Computes the promised plan for every input the engine accepts. A month-end rule is the one place
      where the 128-bit division can panic: only validated packs bound its percentage. */
  method ComputeSplit(gross: nat, rules: seq<SplitRule>) returns (r: SplitOutcome)
    ensures r.Rejected? <==> !Splittable(gross, rules)
    ensures r.Computed? ==> IsPlan(r.plan, gross, rules)
    ensures Splittable(gross, rules) ==> (r.Panicked? <==>
      exists i :: 0 <= i < |RulesWith(rules, EndOfMonth)| && gross * RulesWith(rules, EndOfMonth)[i].bps >= TOTAL_BPS * TWO_64)
  {
    var timed, instant, monthEnd := PartitionRules(rules);
    if !timed {
      return Rejected;
    }
    if instant == [] {
      return Rejected;
    }
    var total := TotalBps(instant);
    if total == 0 || total > TOTAL_BPS {
      return Rejected;
    }
    var pool := MulDivFloor(gross, total, TOTAL_BPS);
    if pool.TooLarge? {
      return Rejected;
    }
    ShareFits(gross, total);
    var legs := SplitPool(gross, instant, pool.q);
    var panics, later := MonthEndLegs(gross, monthEnd);
    if panics {
      return Panicked;
    }
    return Computed(SplitPlan(legs, later, gross - pool.q, gross));
  }

  lemma {:induction false} ShareMonotone(gross: nat, b: nat, c: nat)
    requires b <= c
    ensures Share(gross, b) <= Share(gross, c)
  {
    MulMonotone(b, c, gross);
    assert gross * c == gross * b + gross * (c - b);
    FloorOfSum(gross * b, gross * (c - b), TOTAL_BPS);
  }

  // ---------------------------------------------------------------------------
  // Conservation
  // ---------------------------------------------------------------------------

  /** A validated pack: every rule timed, at least one instant basis point, exactly 100% in all. */
  predicate ValidPack(rules: seq<SplitRule>) {
    && |rules| >= 2
    && (forall i :: 0 <= i < |rules| ==> rules[i].timing != NoTiming)
    && 0 < BpsSum(RulesWith(rules, Instant)) <= TOTAL_BPS
    && BpsSum(RulesWith(rules, Instant)) + BpsSum(RulesWith(rules, EndOfMonth)) == TOTAL_BPS
  }

  /** The acceptance loop of `ParsePolicyPack` over rules that have parsed. */
  method ValidatePack(rules: seq<SplitRule>) returns (ok: bool)
    requires forall i :: 0 <= i < |rules| ==> rules[i].timing != NoTiming
    ensures ok == ValidPack(rules)
  {
    if |rules| < 2 {
      return false;
    }
    var instantBps, monthEndBps := 0, 0;
    assert rules[..|rules|] == rules;
    for i := 0 to |rules|
      invariant instantBps == BpsSum(RulesWith(rules[..i], Instant))
      invariant monthEndBps == BpsSum(RulesWith(rules[..i], EndOfMonth))
    {
      FilterStep(rules, i, Instant);
      FilterStep(rules, i, EndOfMonth);
      BpsAppend(RulesWith(rules[..i], Instant), rules[i]);
      BpsAppend(RulesWith(rules[..i], EndOfMonth), rules[i]);
      match rules[i].timing
      case Instant => instantBps := instantBps + rules[i].bps;
      case EndOfMonth => monthEndBps := monthEndBps + rules[i].bps;
      case NoTiming =>
    }
    if instantBps == 0 || instantBps > TOTAL_BPS {
      return false;
    }
    return instantBps + monthEndBps == TOTAL_BPS;
  }

  lemma {:induction false} FlooredSum(legs: seq<Leg>, rules: seq<SplitRule>, gross: nat)
    requires Floored(legs, rules, gross)
    ensures LegSum(legs) == Shares(gross, rules)
  {
    if legs != [] {
      TailAt(legs);
      TailAt(rules);
      FlooredSum(legs[1..], rules[1..], gross);
    }
  }

  /** Nothing is created or lost, and the last instant leg gets at least its own share and at most
      one kobo for each other instant leg on top. */
  lemma {:induction false} PlanConserves(plan: SplitPlan, gross: nat, rules: seq<SplitRule>)
    requires IsPlan(plan, gross, rules)
    ensures LegSum(plan.instantLegs) + plan.clearingRemainder == gross
    ensures var n := |plan.instantLegs|;
      var own := Share(gross, plan.instantLegs[n - 1].rule.bps);
      own <= plan.instantLegs[n - 1].amount <= own + n - 1
  {
    var instant, n := RulesWith(rules, Instant), |plan.instantLegs|;
    var legs := plan.instantLegs;
    assert legs == legs[..n - 1] + [legs[n - 1]];
    assert instant == instant[..n - 1] + [instant[n - 1]];
    LegSumAppend(legs[..n - 1], legs[n - 1]);
    FlooredSum(legs[..n - 1], instant[..n - 1], gross);
    SharesAppend(instant[..n - 1], instant[n - 1], gross);
    SharesRound(gross, instant);
  }

  /** Two parts of 100% of the gross: the second, rounded up, is what the first, rounded down, leaves. */
  lemma {:induction false} ComplementRounds(gross: nat, b: nat, c: nat)
    requires b + c == TOTAL_BPS
    ensures Share(gross, c) <= gross - Share(gross, b) <= Share(gross, c) + 1
    ensures c == 0 ==> gross - Share(gross, b) == 0
  {
    assert gross * b + gross * c == gross * TOTAL_BPS;
    FloorOfSum(gross * b, gross * c, TOTAL_BPS);
    assert gross * TOTAL_BPS / TOTAL_BPS == gross;
    if c == 0 { assert gross * b == gross * TOTAL_BPS; }
  }

  /** Under a valid pack the clearing remainder covers every month-end leg, with at most one kobo a
      leg to spare. */
  lemma {:induction false} RemainderCoversMonthEnd(plan: SplitPlan, gross: nat, rules: seq<SplitRule>)
    requires ValidPack(rules) && IsPlan(plan, gross, rules)
    ensures |plan.monthEndLegs| == |RulesWith(rules, EndOfMonth)|
    ensures LegSum(plan.monthEndLegs) <= plan.clearingRemainder <= LegSum(plan.monthEndLegs) + |plan.monthEndLegs|
  {
    var later := RulesWith(rules, EndOfMonth);
    FlooredSum(plan.monthEndLegs, later, gross);
    SharesRound(gross, later);
    ComplementRounds(gross, BpsSum(RulesWith(rules, Instant)), BpsSum(later));
  }

  /** A valid pack is always split: it is neither rejected nor can it panic. */
  lemma {:induction false} ValidPackSplits(gross: nat, rules: seq<SplitRule>)
    requires ValidPack(rules) && gross < TWO_63
    ensures Splittable(gross, rules)
    ensures forall i :: 0 <= i < |RulesWith(rules, EndOfMonth)| ==>
      gross * RulesWith(rules, EndOfMonth)[i].bps < TOTAL_BPS * TWO_64
  {
    var later := RulesWith(rules, EndOfMonth);
    forall i | 0 <= i < |later| ensures gross * later[i].bps < TOTAL_BPS * TWO_64 {
      PartAtMostSum(later, i);
      MulMonotone(later[i].bps, TOTAL_BPS, gross);
    }
  }

  /** There is one plan: the pool and the rounded shares leave the last leg no choice. */
  lemma {:induction false} PlanUnique(plan: SplitPlan, other: SplitPlan, gross: nat, rules: seq<SplitRule>)
    requires IsPlan(plan, gross, rules) && IsPlan(other, gross, rules)
    ensures plan == other
  {
    var legs, legs', n := plan.instantLegs, other.instantLegs, |plan.instantLegs| - 1;
    assert legs[..n] == legs'[..n];
    assert legs == legs[..n] + [legs[n]] && legs' == legs'[..n] + [legs'[n]];
    LegSumAppend(legs[..n], legs[n]);
    LegSumAppend(legs'[..n], legs'[n]);
    assert plan.monthEndLegs == other.monthEndLegs;
  }
}
