/** A month of payments, each split under one validated pack, followed by the sweep: the accumulated
    month-end legs always fit into clearing, and the revenue fund gets no more than the rounding. */
module EomAccounting {
  import opened Sequences
  import opened TransferLedger
  import opened TransferLedgerLaws
  import opened EomSweep
  import S = SplitEngine

  /** What the payments left in clearing. */
  function Cleared(plans: seq<S.SplitPlan>): nat {
    if plans == [] then 0 else plans[0].clearingRemainder + Cleared(plans[1..])
  }

  /** The month-end leg of rule `j`, accumulated over the payments. */
  function Accumulated(plans: seq<S.SplitPlan>, j: nat): nat
    requires forall i :: 0 <= i < |plans| ==> j < |plans[i].monthEndLegs|
  {
    if plans == [] then 0 else plans[0].monthEndLegs[j].amount + Accumulated(plans[1..], j)
  }

  ghost predicate MonthOf(plans: seq<S.SplitPlan>, grosses: seq<nat>, rules: seq<S.SplitRule>) {
    && S.ValidPack(rules) && |plans| == |grosses|
    && forall i :: 0 <= i < |plans| ==> S.IsPlan(plans[i], grosses[i], rules)
  }

  /** The sum of the first `k` accumulated legs. */
  function AccumulatedSum(plans: seq<S.SplitPlan>, k: nat): nat
    requires forall i :: 0 <= i < |plans| ==> k <= |plans[i].monthEndLegs|
  {
    if k == 0 then 0 else AccumulatedSum(plans, k - 1) + Accumulated(plans, k - 1)
  }

  lemma {:induction false} FirstPaymentApart(plans: seq<S.SplitPlan>, k: nat)
    requires plans != [] && forall i :: 0 <= i < |plans| ==> k <= |plans[i].monthEndLegs|
    ensures AccumulatedSum(plans, k) == S.LegSum(plans[0].monthEndLegs[..k]) + AccumulatedSum(plans[1..], k)
    decreases k
  {
    if k > 0 {
      var legs := plans[0].monthEndLegs;
      FirstPaymentApart(plans, k - 1);
      assert legs[..k] == legs[..k - 1] + [legs[k - 1]];
      S.LegSumAppend(legs[..k - 1], legs[k - 1]);
    } else {
      assert plans[0].monthEndLegs[..0] == [];
    }
  }

  lemma {:induction false} NothingAccumulated(k: nat)
    ensures AccumulatedSum([], k) == 0
    decreases k
  {
    if k > 0 { NothingAccumulated(k - 1); }
  }

  /** All accumulated legs together never exceed what the payments left in clearing, and fall short of
      it by at most one kobo a payment and leg. */
  lemma {:induction false} MonthBalances(plans: seq<S.SplitPlan>, grosses: seq<nat>, rules: seq<S.SplitRule>)
    requires MonthOf(plans, grosses, rules)
    ensures var k := |S.RulesWith(rules, S.EndOfMonth)|;
      && (forall i :: 0 <= i < |plans| ==> |plans[i].monthEndLegs| == k)
      && AccumulatedSum(plans, k) <= Cleared(plans) <= AccumulatedSum(plans, k) + |plans| * k
    decreases |plans|
  {
    hide S.IsPlan, S.ValidPack;
    var k := |S.RulesWith(rules, S.EndOfMonth)|;
    if plans == [] {
      NothingAccumulated(k);
    } else {
      TailAt(plans);
      TailAt(grosses);
      MonthBalances(plans[1..], grosses[1..], rules);
      S.RemainderCoversMonthEnd(plans[0], grosses[0], rules);
      FirstPaymentApart(plans, k);
      assert plans[0].monthEndLegs[..k] == plans[0].monthEndLegs;
      assert |plans| * k == (|plans| - 1) * k + k;
    }
  }

  /** The sweep's legs carry the accumulated amounts, in the order of the month-end rules. */
  ghost predicate SweepsMonth(p: SweepPlan, plans: seq<S.SplitPlan>, k: nat)
    requires forall i :: 0 <= i < |plans| ==> |plans[i].monthEndLegs| == k
  {
    |p.legs| == k && forall j :: 0 <= j < k ==> p.legs[j].amount == Accumulated(plans, j)
  }

  lemma {:induction false} LegTotalAppend(legs: seq<Leg>, leg: Leg)
    ensures LegTotal(legs + [leg]) == LegTotal(legs) + leg.amount
  {
    if legs == [] {
      assert legs + [leg] == [leg];
    } else {
      assert (legs + [leg])[1..] == legs[1..] + [leg];
      LegTotalAppend(legs[1..], leg);
    }
  }

  lemma {:induction false} SweptTotal(p: SweepPlan, plans: seq<S.SplitPlan>, k: nat, j: nat)
    requires forall i :: 0 <= i < |plans| ==> |plans[i].monthEndLegs| == k
    requires SweepsMonth(p, plans, k) && j <= k
    ensures LegTotal(p.legs[..j]) == AccumulatedSum(plans, j)
    decreases j
  {
    if j > 0 {
      SweptTotal(p, plans, k, j - 1);
      assert p.legs[..j] == p.legs[..j - 1] + [p.legs[j - 1]];
      LegTotalAppend(p.legs[..j - 1], p.legs[j - 1]);
    }
  }

  /** There is a month-end rule, and each one earned at least one kobo over the month. */
  ghost predicate EveryRuleEarned(plans: seq<S.SplitPlan>, k: nat)
    requires forall i :: 0 <= i < |plans| ==> |plans[i].monthEndLegs| == k
  {
    k > 0 && forall j :: 0 <= j < k ==> Accumulated(plans, j) >= 1
  }

  /** The fund is another account than clearing, the plan's IDs are new, and clearing holds exactly what the payments left there. */
  ghost predicate ClosesBooksOf(l: Ledger, p: SweepPlan, plans: seq<S.SplitPlan>, k: nat)
    requires forall i :: 0 <= i < |plans| ==> |plans[i].monthEndLegs| == k
  {
    && FreshRun(l, p) && SweepsMonth(p, plans, k)
    && p.crf != p.clearing && Bal(l, p.clearing) == Cleared(plans) && Held(l, p.clearing) == 0
  }

  lemma {:induction false} RefusedForever(b: Books, p: SweepPlan, budgets: seq<nat>)
    requires b.stored.NoReport? && !Reversible(p.legs)
    ensures RunAll(b, p, budgets) == b
    ensures forall budget :: RunSweep(b, p, budget) == Sweep(b, Refused)
    decreases |budgets|
  {
    if budgets != [] { RefusedForever(b, p, budgets[1..]); }
  }

  lemma {:induction false} EarnedIsReversible(p: SweepPlan, plans: seq<S.SplitPlan>, k: nat)
    requires forall i :: 0 <= i < |plans| ==> |plans[i].monthEndLegs| == k
    requires SweepsMonth(p, plans, k)
    ensures EveryRuleEarned(plans, k) <==> Reversible(p.legs)
  {
  }

  lemma {:induction false} EarnedMonthCloses(l: Ledger, p: SweepPlan, plans: seq<S.SplitPlan>, grosses: seq<nat>,
                                             rules: seq<S.SplitRule>, budgets: seq<nat>)
    requires MonthOf(plans, grosses, rules)
    requires forall i :: 0 <= i < |plans| ==> |plans[i].monthEndLegs| == |S.RulesWith(rules, S.EndOfMonth)|
    requires ClosesBooksOf(l, p, plans, |S.RulesWith(rules, S.EndOfMonth)|) && Reversible(p.legs)
    ensures var b := RunSweep(RunAll(Books(l, NoReport), p, budgets), p, 4).books;
      && b.stored.Completed?
      && Bal(b.ledger, p.clearing) == 0
      && 0 <= Bal(b.ledger, p.crf) - Bal(l, p.crf) - PaidInto(p.legs, p.crf) - PaidInto(p.legs, p.clearing) <= |plans| * |p.legs|
  {
    MonthBalances(plans, grosses, rules);
    SweptTotal(p, plans, |p.legs|, |p.legs|);
    assert p.legs[..|p.legs|] == p.legs;
    assert Ready(l, p);
    HoldChainPays(p.runKey, p.clearing, p.legs, p.crf);
    HoldChainPays(p.runKey, p.clearing, p.legs, p.clearing);
    hide Ready, MonthOf, RunSweep, RunAll, FreshRun, SweepsMonth, Deltas, LegTotal, PaidInto, AccumulatedSum, Cleared;
    RestartedSweepIsTheSame(l, p, budgets, 4);
  }

  /** The close of the month, exactly: the sweep ends completed with clearing at zero if and only if
      there is a month-end rule and each one earned at least one kobo. The fund then gets the month-end legs
      that pay it or pay clearing itself and, on top of them, at most one kobo a payment and month-end leg,
      however often the sweep is stopped and run again. In every other month every run is refused and leaves
      the books as they were. */
  lemma {:induction false} SweepClosesMonth(l: Ledger, p: SweepPlan, plans: seq<S.SplitPlan>, grosses: seq<nat>,
                                            rules: seq<S.SplitRule>, budgets: seq<nat>)
    requires MonthOf(plans, grosses, rules)
    requires forall i :: 0 <= i < |plans| ==> |plans[i].monthEndLegs| == |S.RulesWith(rules, S.EndOfMonth)|
    requires ClosesBooksOf(l, p, plans, |S.RulesWith(rules, S.EndOfMonth)|)
    ensures var start, k := Books(l, NoReport), |S.RulesWith(rules, S.EndOfMonth)|;
      var b := RunSweep(RunAll(start, p, budgets), p, 4).books;
      && (b.stored.Completed? && Bal(b.ledger, p.clearing) == 0 <==> EveryRuleEarned(plans, k))
      && (EveryRuleEarned(plans, k) ==>
        0 <= Bal(b.ledger, p.crf) - Bal(l, p.crf) - PaidInto(p.legs, p.crf) - PaidInto(p.legs, p.clearing)
          <= |plans| * |p.legs|)
      && (!EveryRuleEarned(plans, k) ==>
        RunAll(start, p, budgets) == start && forall n :: RunSweep(start, p, n) == Sweep(start, Refused))
  {
    EarnedIsReversible(p, plans, |S.RulesWith(rules, S.EndOfMonth)|);
    if Reversible(p.legs) {
      EarnedMonthCloses(l, p, plans, grosses, rules, budgets);
    } else {
      RefusedForever(Books(l, NoReport), p, budgets);
    }
  }

  const DAILY := S.SplitRule("STATE_CONSOLIDATED_REVENUE_FUND", 2001, 9000, S.Instant, 0)
  const MAJOR := S.SplitRule("MDA_RETENTION_ACCOUNT", 2002, 999, S.EndOfMonth, 0)
  const MINOR := S.SplitRule("SECURITY_TRUST_FUND", 2003, 1, S.EndOfMonth, 0)

  lemma {:induction false} SmallRules()
    ensures var rules := [DAILY, MAJOR, MINOR];
      && S.RulesWith(rules, S.Instant) == [DAILY] && S.RulesWith(rules, S.EndOfMonth) == [MAJOR, MINOR]
      && S.BpsSum([DAILY]) == 9000 && S.BpsSum([MAJOR, MINOR]) == 1000
      && S.ValidPack(rules)
  {
    var none: seq<S.SplitRule> := [];
    assert [DAILY, MAJOR, MINOR][1..] == [MAJOR, MINOR] && [MAJOR, MINOR][1..] == [MINOR];
    assert [MINOR][1..] == none && [DAILY][1..] == none;
    assert S.RulesWith([MINOR], S.EndOfMonth) == [MINOR] && S.RulesWith([MINOR], S.Instant) == [];
    assert S.RulesWith([MAJOR, MINOR], S.EndOfMonth) == [MAJOR, MINOR] && S.RulesWith([MAJOR, MINOR], S.Instant) == [];
    assert S.BpsSum(none) == 0;
    assert S.BpsSum([MINOR]) == 1 && S.BpsSum([DAILY]) == 9000;
  }

  /** A valid month the sweep refuses: 90.00% instantly, 9.99% and 0.01% at the end of the month, one
      payment of 1000 kobo. The month-end legs are 99 and 0 kobo, and clearing keeps its 100. */
  lemma {:induction false} SmallMonthIsRefused(p: SweepPlan, budget: nat)
    requires |p.legs| == 2 && p.legs[0].amount == 99 && p.legs[1].amount == 0
    ensures var rules := [DAILY, MAJOR, MINOR];
      var plan := S.SplitPlan([S.Leg(DAILY, 900)], [S.Leg(MAJOR, 99), S.Leg(MINOR, 0)], 100, 1000);
      var l := Ledger(map[], map[p.clearing := 100], map[]);
      && MonthOf([plan], [1000], rules) && SweepsMonth(p, [plan], 2)
      && Bal(l, p.clearing) == Cleared([plan])
      && RunSweep(Books(l, NoReport), p, budget) == Sweep(Books(l, NoReport), Refused)
  {
    SmallRules();
    var plan := S.SplitPlan([S.Leg(DAILY, 900)], [S.Leg(MAJOR, 99), S.Leg(MINOR, 0)], 100, 1000);
    assert S.LegSum([S.Leg(DAILY, 900)]) == 900 by {
      assert [S.Leg(DAILY, 900)][1..] == [];
    }
    assert S.Share(1000, 9000) == 900 && S.Share(1000, 999) == 99 && S.Share(1000, 1) == 0;
    assert [plan][1..] == [];
  }
}
