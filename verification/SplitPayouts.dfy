/** Who gets what: a settlement chain pays every beneficiary its own legs, and a settled bill shows on
    exactly the accounts of its plan. */
module SplitPayouts {
  import opened LinkedLedger
  import opened LinkedLedgerLaws
  import opened SplitIds
  import opened SplitChain
  import opened SplitChainLaws
  import SplitEngine

  /** What the legs of account class `c` come to. */
  function ClassSum(legs: seq<SplitEngine.Leg>, c: bv16): nat {
    if legs == [] then 0
    else
      var n := |legs| - 1;
      ClassSum(legs[..n], c) + (if legs[n].rule.accountCode == c then legs[n].amount else 0)
  }

  // ---------------------------------------------------------------------------
  // The legs on the wire
  // ---------------------------------------------------------------------------

  /** Decoding the accounts of leg `i` gives clearing and the class of its own rule, in the bill's scope;
      the amount is the leg's own. */
  lemma {:induction false} LegPaysItsRule(legs: seq<SplitEngine.Leg>, p: Params, first: nat, i: nat)
    requires i < |legs| && p.entity.hi <= 0xFFFF
    ensures var t := Chain(legs, p, first)[i];
      && DecodeAccountId(t.debit) == AccountParts(p.tenant, p.mda, PAYER_CLEARING, p.entity)
      && DecodeAccountId(t.credit) == AccountParts(p.tenant, p.mda, legs[i].rule.accountCode, p.entity)
      && t.amount == legs[i].amount && t.ledger == p.ledger && t.userData == p.billId
      && (legs[i].rule.transferCode != 0 ==> t.code == legs[i].rule.transferCode)
  {
    DecodeInvertsBuild(AccountParts(p.tenant, p.mda, PAYER_CLEARING, p.entity));
    DecodeInvertsBuild(AccountParts(p.tenant, p.mda, legs[i].rule.accountCode, p.entity));
    hide BuildAccountId, DecodeAccountId, ChainLegId;
  }

  lemma {:induction false} ClassTotals(ts: seq<Transfer>, legs: seq<SplitEngine.Leg>, a: AccountId, c: bv16)
    requires |ts| == |legs|
    requires forall i :: 0 <= i < |ts| ==>
      ts[i].amount == legs[i].amount && (ts[i].credit == a <==> legs[i].rule.accountCode == c)
    ensures CreditTotal(ts, a) == ClassSum(legs, c)
    decreases |ts|
  {
    if ts != [] {
      var n := |ts| - 1;
      ClassTotals(ts[..n], legs[..n], a, c);
    }
  }

  lemma {:induction false} NothingOfClass(legs: seq<SplitEngine.Leg>, c: bv16)
    requires forall i :: 0 <= i < |legs| ==> legs[i].rule.accountCode != c
    ensures ClassSum(legs, c) == 0
    decreases |legs|
  {
    if legs != [] { NothingOfClass(legs[..|legs| - 1], c); }
  }

  /** The one leg of a class is what the class gets. */
  lemma {:induction false} SoleLeg(legs: seq<SplitEngine.Leg>, k: nat)
    requires k < |legs| && forall i :: 0 <= i < |legs| && i != k ==> legs[i].rule.accountCode != legs[k].rule.accountCode
    ensures ClassSum(legs, legs[k].rule.accountCode) == legs[k].amount
    decreases |legs|
  {
    var n := |legs| - 1;
    if k == n { NothingOfClass(legs[..n], legs[k].rule.accountCode); } else { SoleLeg(legs[..n], k); }
  }

  /** A chain credits every class with exactly the legs of its rules. */
  lemma {:induction false} ChainPaysClasses(legs: seq<SplitEngine.Leg>, p: Params, first: nat, c: bv16)
    requires p.entity.hi <= 0xFFFF
    ensures CreditTotal(Chain(legs, p, first), AccountOf(p, c).id) == ClassSum(legs, c)
  {
    var ts, a := Chain(legs, p, first), AccountOf(p, c).id;
    forall i | 0 <= i < |legs| ensures ts[i].credit == a <==> legs[i].rule.accountCode == c {
      ClassesDiffer(p, legs[i].rule.accountCode, c);
      AccountFits(p, c);
      AccountFits(p, legs[i].rule.accountCode);
    }
    assert forall i :: 0 <= i < |legs| ==> ts[i].amount == legs[i].amount;
    hide Chain, AccountOf;
    ClassTotals(ts, legs, a, c);
  }

  /** No ID occurs twice. Under a key a retry builds the same chain; without one it takes new IDs. */
  lemma {:induction false} ChainIdsDistinct(legs: seq<SplitEngine.Leg>, p: Params, first: nat, later: nat, i: nat, k: nat)
    requires i < |legs| && k < |legs| && p.entity.hi <= 0xFFFF && later >= first + |legs|
    ensures i != k ==> Chain(legs, p, first)[i].id != Chain(legs, p, first)[k].id
    ensures p.key != "" ==> Chain(legs, p, first) == Chain(legs, p, later)
    ensures p.key == "" ==> Chain(legs, p, first)[i].id != Chain(legs, p, later)[k].id
  {
    LegIdsDistinct(p.key, i, p.key, k);
    hide ChainLegId, ReversalLegId, BuildAccountId;
  }

  // ---------------------------------------------------------------------------
  // A settled bill
  // ---------------------------------------------------------------------------

  /** Every beneficiary's balance rises by exactly its legs, and clearing pays for all of them. */
  lemma {:induction false} SettledBill(s: State, legs: seq<SplitEngine.Leg>, p: Params, first: nat, c: bv16)
    requires legs != [] && p.entity.hi <= 0xFFFF && Healthy(s, SplitEngine.LegSum(legs)) && Commits(s, Chain(legs, p, first))
    requires AccountOf(p, c).BuiltId? && AccountOf(p, c).id in s.accounts
    ensures var s', a := Commit(s, Chain(legs, p, first)), AccountOf(p, c).id;
      var paid := if c == PAYER_CLEARING then SplitEngine.LegSum(legs) else 0;
      a in s'.accounts && s'.accounts[a].Balance() == s.accounts[a].Balance() + ClassSum(legs, c) - paid
  {
    var ts, a := Chain(legs, p, first), AccountOf(p, c).id;
    SettledTotals(s, legs, p, first, a);
    OnlyItsClasses(legs, p, first);
    ChainPaysClasses(legs, p, first, c);
    SameClass(p, c, PAYER_CLEARING);
    hide Chain, Commit, Commits, Healthy, SplitEngine.LegSum, AccountOf, DebitTotal, CreditTotal, ClassSum;
  }

  /** No account but clearing and the beneficiaries changes. */
  lemma {:induction false} SettledBillElsewhere(s: State, legs: seq<SplitEngine.Leg>, p: Params, first: nat, a: AccountId)
    requires legs != [] && p.entity.hi <= 0xFFFF && Healthy(s, SplitEngine.LegSum(legs)) && Commits(s, Chain(legs, p, first))
    requires a in s.accounts && DecodeAccountId(a) != AccountParts(p.tenant, p.mda, PAYER_CLEARING, p.entity)
    requires forall i :: 0 <= i < |legs| ==> DecodeAccountId(a) != AccountParts(p.tenant, p.mda, legs[i].rule.accountCode, p.entity)
    ensures var s' := Commit(s, Chain(legs, p, first)); a in s'.accounts && s'.accounts[a] == s.accounts[a]
  {
    var ts := Chain(legs, p, first);
    hide Chain, Commit, Commits, Healthy, DecodeAccountId, DebitTotal, CreditTotal, AccountOf, SplitEngine.LegSum;
    SettledTotals(s, legs, p, first, a);
    OnlyItsClasses(legs, p, first);
    forall i | 0 <= i < |ts| ensures ts[i].debit != a && ts[i].credit != a { LegPaysItsRule(legs, p, first, i); }
    NothingTo(ts, a);
  }

  lemma {:induction false} SettledTotals(s: State, legs: seq<SplitEngine.Leg>, p: Params, first: nat, a: AccountId)
    requires legs != [] && p.entity.hi <= 0xFFFF && Healthy(s, SplitEngine.LegSum(legs)) && Commits(s, Chain(legs, p, first))
    requires a in s.accounts
    ensures var ts := Chain(legs, p, first);
      && a in Commit(s, ts).accounts && PostedIs(s, Commit(s, ts), a, DebitTotal(ts, a), CreditTotal(ts, a))
      && DebitTotal(ts, AccountOf(p, PAYER_CLEARING).id) == SplitEngine.LegSum(legs)
      && (a != AccountOf(p, PAYER_CLEARING).id ==> DebitTotal(ts, a) == 0)
  {
    var ts := Chain(legs, p, first);
    ChainShape(legs, p, first);
    OnlyItsClasses(legs, p, first);
    hide Chain, Commit, Commits, Healthy, Volume, SplitEngine.LegSum, SingleChain, NoPassThrough, AccountOf, Settling, PostedIs;
    CommittedEffect(s, ts);
    NothingTo(ts, a);
  }

  lemma {:induction false} SameClass(p: Params, c: bv16, c': bv16)
    requires p.entity.hi <= 0xFFFF && AccountOf(p, c).BuiltId? && AccountOf(p, c').BuiltId?
    ensures AccountOf(p, c).id == AccountOf(p, c').id <==> c == c'
  {
    ClassesDiffer(p, c, c');
  }

  lemma {:induction false} OnlyItsClasses(legs: seq<SplitEngine.Leg>, p: Params, first: nat)
    requires p.entity.hi <= 0xFFFF
    ensures var ts := Chain(legs, p, first);
      && |ts| == |legs| && (forall c :: AccountOf(p, c).BuiltId?)
      && forall i :: 0 <= i < |ts| ==>
        ts[i].debit == AccountOf(p, PAYER_CLEARING).id && ts[i].credit == AccountOf(p, legs[i].rule.accountCode).id
  {
    forall c { AccountFits(p, c); }
  }

  /** From the gross to the beneficiary: the account of an instant rule whose class no other instant rule
      pays into rises by the rule's share of the gross, rounded down; that of the last rule by at most
      one kobo for each other rule more. */
  lemma {:induction false} BeneficiaryGetsShare(s: State, plan: SplitEngine.SplitPlan, gross: nat, rules: seq<SplitEngine.SplitRule>,
                                               p: Params, first: nat, k: nat)
    requires SplitEngine.IsPlan(plan, gross, rules) && k < |plan.instantLegs| && p.entity.hi <= 0xFFFF
    requires Healthy(s, SplitEngine.LegSum(plan.instantLegs)) && Commits(s, Chain(plan.instantLegs, p, first))
    requires var rule := SplitEngine.RulesWith(rules, SplitEngine.Instant);
      rule[k].accountCode != PAYER_CLEARING && forall i :: 0 <= i < |rule| && i != k ==> rule[i].accountCode != rule[k].accountCode
    ensures var rule, s' := SplitEngine.RulesWith(rules, SplitEngine.Instant)[k], Commit(s, Chain(plan.instantLegs, p, first));
      var a, share, n := AccountOf(p, rule.accountCode).id, SplitEngine.Share(gross, rule.bps), |plan.instantLegs|;
      && a in s.accounts && a in s'.accounts
      && share <= s'.accounts[a].Balance() - s.accounts[a].Balance() <= share + (if k == n - 1 then n - 1 else 0)
  {
    var legs, instant := plan.instantLegs, SplitEngine.RulesWith(rules, SplitEngine.Instant);
    SplitEngine.PlanConserves(plan, gross, rules);
    LegIs(legs, instant, gross, k);
    forall i | 0 <= i < |legs| ensures legs[i].rule == instant[i] { LegIs(legs, instant, gross, i); }
    SoleLeg(legs, k);
    hide SplitEngine.IsPlan, SplitEngine.Share, SplitEngine.RulesWith, Healthy, Commits, Commit, SplitEngine.LegSum, ClassSum;
    OnlyItsClasses(legs, p, first);
    var ts := Chain(legs, p, first);
    PaidAccountExists(s, ts, k);
    hide Chain, AccountOf;
    SettledBill(s, legs, p, first, instant[k].accountCode);
  }

  lemma {:induction false} PaidAccountExists(s: State, ts: seq<Transfer>, k: nat)
    requires Commits(s, ts) && k < |ts|
    ensures ts[k].credit in s.accounts
  {
    CommittedLegs(s, ts);
  }

  lemma {:induction false} LegIs(legs: seq<SplitEngine.Leg>, instant: seq<SplitEngine.SplitRule>, gross: nat, i: nat)
    requires SplitEngine.DividesPool(legs, instant, gross) && i < |legs|
    ensures legs[i].rule == instant[i]
    ensures i < |legs| - 1 ==> legs[i].amount == SplitEngine.Share(gross, instant[i].bps)
  {
    if i < |legs| - 1 {
      assert legs[..|legs| - 1][i] == legs[i] && instant[..|legs| - 1][i] == instant[i];
    }
  }

  // ---------------------------------------------------------------------------
  // Order, layout and reversals
  // ---------------------------------------------------------------------------

  /** The rules of one timing are a subsequence of the gazetted rules, and it leaves none of them out. */
  lemma {:induction false} InGazettedOrder(rules: seq<SplitEngine.SplitRule>, t: SplitEngine.Timing) returns (at: seq<nat>)
    ensures |at| == |SplitEngine.RulesWith(rules, t)|
    ensures forall k :: 0 <= k < |at| ==> at[k] < |rules| && SplitEngine.RulesWith(rules, t)[k] == rules[at[k]]
    ensures forall k, m :: 0 <= k < m < |at| ==> at[k] < at[m]
    ensures forall i :: 0 <= i < |rules| ==> (rules[i].timing == t <==> i in at)
    decreases |rules|
  {
    at := [];
    if rules != [] {
      var n := |rules| - 1;
      at := InGazettedOrder(rules[..n], t);
      SplitEngine.FilterStep(rules, n, t);
      assert rules[..n + 1] == rules;
      assert forall i :: 0 <= i < n ==> (i in at <==> rules[i].timing == t) by {
        assert forall i :: 0 <= i < n ==> rules[..n][i] == rules[i];
      }
      if rules[n].timing == t { at := at + [n]; }
    }
  }

  /** Reversing a reversal gives the original legs under other IDs. */
  lemma {:induction false} ReversalInvolutes(ts: seq<Transfer>, key: string, key': string)
    requires SingleChain(ts) && Settling(ts)
    ensures var back := Reversal(Reversal(ts, key), key');
      |back| == |ts| && forall i :: 0 <= i < |ts| ==> back[i] == ts[i].(id := ReversalLegId(key', i))
  {
    hide ReversalLegId;
  }

  /** An appended leg adds its own amount between its own accounts and leaves every other total alone. */
  lemma {:induction false} ExtensionAdds(ts: seq<Transfer>, t: Transfer, a: AccountId)
    requires ts != []
    ensures var all := Extended(ts, t);
      && DebitTotal(all, a) == DebitTotal(ts, a) + (if t.debit == a then t.amount else 0)
      && CreditTotal(all, a) == CreditTotal(ts, a) + (if t.credit == a then t.amount else 0)
      && |all| == |ts| + 1 && all[|ts|].id == t.id && forall i :: 0 <= i < |ts| ==> all[i].id == ts[i].id
  {
    var all, n := Extended(ts, t), |ts| - 1;
    var closing := ts[n].(linked := true);
    assert all[..|all| - 1] == ts[..n] + [closing];
    assert (ts[..n] + [closing])[..n] == ts[..n];
  }

  /** The failures that are not replays, and nothing else. */
  lemma {:induction false} GenuineMembers(results: seq<TransferResult>, x: TransferResult)
    ensures x in GenuineFailures(results) <==> x in results && x.code != Exists
    decreases |results|
  {
    if results != [] {
      var n := |results| - 1;
      assert results == results[..n] + [results[n]];
      GenuineMembers(results[..n], x);
    }
  }

  ghost predicate InBatchOrder(results: seq<TransferResult>) {
    forall i, k :: 0 <= i < k < |results| ==> results[i].index < results[k].index
  }

  lemma {:induction false} OrderAppend(results: seq<TransferResult>, x: TransferResult)
    requires InBatchOrder(results) && forall i :: 0 <= i < |results| ==> results[i].index < x.index
    ensures InBatchOrder(results + [x])
  {
  }

  /** A refused submission carries exactly the failures that are not replays, in the order of the batch. */
  lemma {:induction false} GenuineAre(results: seq<TransferResult>)
    requires InBatchOrder(results)
    ensures forall x :: x in GenuineFailures(results) <==> x in results && x.code != Exists
    ensures InBatchOrder(GenuineFailures(results))
    decreases |results|
  {
    forall x { GenuineMembers(results, x); }
    if results != [] {
      var n := |results| - 1;
      var before := GenuineFailures(results[..n]);
      GenuineAre(results[..n]);
      forall i | 0 <= i < |before| ensures before[i].index < results[n].index {
        GenuineMembers(results[..n], before[i]);
        assert before[i] in results[..n];
      }
      OrderAppend(before, results[n]);
    }
  }
}
