/** Settlement chains and their reversals: `ledger/splits/chain.go` and `ledger/splits/reversal.go`. */
module SplitChain {
  import opened LinkedLedger
  import LinkedLedgerLaws
  import opened SplitIds
  import SplitEngine

  const PAYER_CLEARING: bv16 := 1001

  datatype Params = Params(tenant: bv16, mda: bv16, entity: Uint128, billId: TransferId, ledger: nat, key: string)

  function AccountOf(p: Params, class_: bv16): BuiltId {
    BuildAccountId(AccountParts(p.tenant, p.mda, class_, p.entity))
  }

  function DefaultTransferCode(beneficiary: string): nat {
    match beneficiary
    case "STATE_CONSOLIDATED_REVENUE_FUND" => 101
    case "MDA_RETENTION_ACCOUNT" => 102
    case "PPP_TECH_CONCESSIONAIRE_ESCROW" => 103
    case "LOCAL_GOVERNMENT_SHARE_POOL" => 102
    case "TRANSPORT_UNION_COMMISSION" => 130
    case "SECURITY_TRUST_FUND" => 101
    case _ => 100
  }

  function CodeOf(rule: SplitEngine.SplitRule): nat {
    if rule.transferCode == 0 then DefaultTransferCode(rule.beneficiary) else rule.transferCode
  }

  /** The process-wide ID counter. */
  class IdSource {
    var last: nat

    constructor ()
      ensures last == 0
    {
      last := 0;
    }

    method NewId() returns (id: TransferId)
      modifies this
      ensures last == old(last) + 1 && id == Minted(last)
    {
      last := last + 1;
      id := Minted(last);
    }
  }

  /** Leg `i` of the chain of `legs`, when the counter stood at `first`. */
  function ChainLeg(legs: seq<SplitEngine.Leg>, p: Params, first: nat, i: nat): Transfer
    requires i < |legs| && p.entity.hi <= 0xFFFF
  {
    Transfer(
      if p.key != "" then ChainLegId(p.key, i) else Minted(first + i + 1),
      AccountOf(p, PAYER_CLEARING).id, AccountOf(p, legs[i].rule.accountCode).id, legs[i].amount,
      p.ledger, CodeOf(legs[i].rule), i < |legs| - 1, false, p.billId)
  }

  function Chain(legs: seq<SplitEngine.Leg>, p: Params, first: nat): seq<Transfer>
    requires p.entity.hi <= 0xFFFF
  {
    seq(|legs|, i requires 0 <= i < |legs| => ChainLeg(legs, p, first, i))
  }

  datatype Outcome =
    | Done(transfers: seq<Transfer>)
    | NothingToChain | WideEntity | NoKey
    | BatchRejected(results: seq<TransferResult>)

  lemma {:induction false} AccountFits(p: Params, class_: bv16)
    ensures AccountOf(p, class_).BuiltId? <==> p.entity.hi <= 0xFFFF
  {
  }

  method BuildAtomicChain(plan: SplitEngine.SplitPlan, p: Params, ids: IdSource) returns (r: Outcome)
    modifies ids
    ensures plan.instantLegs == [] ==> r == NothingToChain
    ensures plan.instantLegs != [] && p.entity.hi > 0xFFFF ==> r == WideEntity
    ensures plan.instantLegs != [] && p.entity.hi <= 0xFFFF ==> r == Done(Chain(plan.instantLegs, p, old(ids.last)))
    ensures ids.last == old(ids.last) + (if r.Done? then |plan.instantLegs| else 0)
  {
    var legs := plan.instantLegs;
    if legs == [] {
      return NothingToChain;
    }
    AccountFits(p, PAYER_CLEARING);
    hide BuildAccountId, DefaultTransferCode, ChainLegId;
    var payer := AccountOf(p, PAYER_CLEARING);
    if payer.EntityTooWide? {
      return WideEntity;
    }
    var transfers: seq<Transfer> := [];
    for i := 0 to |legs|
      invariant ids.last == old(ids.last) + i
      invariant |transfers| == i && forall k :: 0 <= k < i ==> transfers[k] == ChainLeg(legs, p, old(ids.last), k)
    {
      AccountFits(p, legs[i].rule.accountCode);
      var beneficiary := AccountOf(p, legs[i].rule.accountCode);
      var code := legs[i].rule.transferCode;
      if code == 0 {
        code := DefaultTransferCode(legs[i].rule.beneficiary);
      }
      var legId := ids.NewId();
      if p.key != "" {
        legId := ChainLegId(p.key, i);
      }
      var t := Transfer(legId, payer.id, beneficiary.id, legs[i].amount, p.ledger, code, false, false, p.billId);
      if i < |legs| - 1 {
        t := t.(linked := true);
      }
      transfers := transfers + [t];
    }
    assert transfers == Chain(legs, p, old(ids.last));
    return Done(transfers);
  }

  /** Extends a chain by one leg, marking the caller's own closing leg linked. */
  method AppendChainLeg(chain: array<Transfer>, t: Transfer) returns (ok: bool, extended: seq<Transfer>)
    modifies chain
    ensures ok <==> chain.Length > 0
    ensures !ok ==> chain[..] == old(chain[..])
    ensures ok ==> extended == Extended(old(chain[..]), t) && chain[..] == extended[..chain.Length]
  {
    if chain.Length == 0 {
      return false, [];
    }
    var n := chain.Length;
    chain[n - 1] := chain[n - 1].(linked := true);
    assert chain[..] == old(chain[..])[n - 1 := old(chain[n - 1]).(linked := true)];
    return true, chain[..] + [t.(linked := false)];
  }

  function Extended(chain: seq<Transfer>, t: Transfer): seq<Transfer>
    requires chain != []
  {
    chain[|chain| - 1 := chain[|chain| - 1].(linked := true)] + [t.(linked := false)]
  }

  /** Commits the whole chain or leaves the ledger as it was. */
  method ExecuteAtomicSplit(client: InMemoryLedger, plan: SplitEngine.SplitPlan, p: Params, ids: IdSource) returns (r: Outcome)
    modifies client, ids
    ensures plan.instantLegs == [] || p.entity.hi > 0xFFFF ==>
      r == (if plan.instantLegs == [] then NothingToChain else WideEntity) && client.Model() == old(client.Model())
    ensures plan.instantLegs != [] && p.entity.hi <= 0xFFFF ==>
      var chain, s := Chain(plan.instantLegs, p, old(ids.last)), old(client.Model());
      client.Model() == Commit(s, chain) &&
      r == (if Failures(FinalCodes(s, chain)) == [] then Done(chain) else BatchRejected(Failures(FinalCodes(s, chain))))
    ensures !r.Done? ==> client.Model() == old(client.Model())
  {
    hide Commit, FinalCodes, Failures;
    var built := BuildAtomicChain(plan, p, ids);
    if !built.Done? {
      return built;
    }
    ghost var chain := Chain(plan.instantLegs, p, old(ids.last));
    assert LinkedLedgerLaws.SingleChain(chain);
    LinkedLedgerLaws.SingleChainAllOrNothing(client.Model(), chain);
    var results := client.CreateTransfers(built.transfers);
    if |results| > 0 {
      return BatchRejected(results);
    }
    return built;
  }

  datatype Settlement =
    | Settled(plan: SplitEngine.SplitPlan, transfers: seq<Transfer>)
    | SplitRefused | SplitPanicked | ChainRefused(why: Outcome)

  /** Some month-end share does not fit in 64 bits, so that the split panics. */
  ghost predicate ShareTooWide(gross: nat, rules: seq<SplitEngine.SplitRule>) {
    var later := SplitEngine.RulesWith(rules, SplitEngine.EndOfMonth);
    exists i :: 0 <= i < |later| && gross * later[i].bps >= SplitEngine.TOTAL_BPS * TWO_64
  }

  /** Why the chain of `plan` does not commit in state `s`. */
  ghost predicate Refuses(s: State, plan: SplitEngine.SplitPlan, p: Params, first: nat, why: Outcome) {
    if p.entity.hi > 0xFFFF then why == WideEntity
    else
      var failures := Failures(FinalCodes(s, Chain(plan.instantLegs, p, first)));
      failures != [] && why == BatchRejected(failures)
  }

  /** Compute the split and execute its chain, under any rules: a bill is refused only for what the
      ledger reports about the chain of its plan. */
  method SettleGross(client: InMemoryLedger, rules: seq<SplitEngine.SplitRule>, gross: nat, p: Params, ids: IdSource)
    returns (r: Settlement)
    modifies client, ids
    ensures !r.Settled? ==> client.Model() == old(client.Model())
    ensures r.SplitRefused? <==> !SplitEngine.Splittable(gross, rules)
    ensures r.SplitPanicked? <==> SplitEngine.Splittable(gross, rules) && ShareTooWide(gross, rules)
    ensures r.Settled? ==>
      && SplitEngine.IsPlan(r.plan, gross, rules) && p.entity.hi <= 0xFFFF
      && r.transfers == Chain(r.plan.instantLegs, p, old(ids.last))
      && client.Model() == Commit(old(client.Model()), r.transfers)
      && Failures(FinalCodes(old(client.Model()), r.transfers)) == []
    ensures r.ChainRefused? ==> exists plan ::
      SplitEngine.IsPlan(plan, gross, rules) && Refuses(old(client.Model()), plan, p, old(ids.last), r.why)
  {
    hide Commit, FinalCodes, Failures;
    var split := SplitEngine.ComputeSplit(gross, rules);
    assert split.Panicked? <==> SplitEngine.Splittable(gross, rules) && ShareTooWide(gross, rules);
    assert split.Computed? ==> split.plan.instantLegs != [];
    hide ShareTooWide, SplitEngine.Splittable, SplitEngine.IsPlan;
    match split
    case Rejected => return SplitRefused;
    case Panicked => return SplitPanicked;
    case Computed(plan) =>
      var done := ExecuteAtomicSplit(client, plan, p, ids);
      if !done.Done? {
        assert Refuses(old(client.Model()), plan, p, old(ids.last), done);
        return ChainRefused(done);
      }
      return Settled(plan, done.transfers);
  }

  /** Under a validated pack the split itself fails on no gross below 2^63. */
  lemma {:induction false} ValidPackNeverPanics(gross: nat, rules: seq<SplitEngine.SplitRule>)
    requires SplitEngine.ValidPack(rules)
    ensures SplitEngine.Splittable(gross, rules) <==> gross < TWO_63
    ensures gross < TWO_63 ==> !ShareTooWide(gross, rules)
  {
    if gross < TWO_63 { SplitEngine.ValidPackSplits(gross, rules); }
  }

  function GenuineFailures(results: seq<TransferResult>): seq<TransferResult> {
    if results == [] then []
    else
      var n := |results| - 1;
      if results[n].code != Exists then GenuineFailures(results[..n]) + [results[n]] else GenuineFailures(results[..n])
  }

  /** A batch whose every reported failure is "exists" is taken for a replay. */
  method SubmitChainIdempotent(client: InMemoryLedger, ts: seq<Transfer>) returns (r: Outcome)
    modifies client
    ensures ts == [] ==> r == NothingToChain && client.Model() == old(client.Model())
    ensures ts != [] ==>
      var failures := GenuineFailures(Failures(FinalCodes(old(client.Model()), ts)));
      client.Model() == Commit(old(client.Model()), ts) &&
      r == (if failures == [] then Done(ts) else BatchRejected(failures))
  {
    hide Commit, FinalCodes, Failures;
    if ts == [] {
      return NothingToChain;
    }
    var results := client.CreateTransfers(ts);
    var genuine: seq<TransferResult> := [];
    for i := 0 to |results|
      invariant genuine == GenuineFailures(results[..i])
    {
      assert results[..i + 1][..i] == results[..i];
      if results[i].code != Exists {
        genuine := genuine + [results[i]];
      }
    }
    assert results[..|results|] == results;
    return if genuine == [] then Done(ts) else BatchRejected(genuine);
  }

  // ---------------------------------------------------------------------------
  // Reversal
  // ---------------------------------------------------------------------------

  function ReversalLeg(originals: seq<Transfer>, key: string, i: nat): Transfer
    requires i < |originals|
  {
    var t := originals[i];
    Transfer(ReversalLegId(key, i), t.credit, t.debit, t.amount, t.ledger, t.code, i < |originals| - 1, false, t.userData)
  }

  function Reversal(originals: seq<Transfer>, key: string): seq<Transfer> {
    seq(|originals|, i requires 0 <= i < |originals| => ReversalLeg(originals, key, i))
  }

  method BuildReversalChain(originals: seq<Transfer>, key: string) returns (r: Outcome)
    ensures r == (if originals == [] then NothingToChain else if key == "" then NoKey else Done(Reversal(originals, key)))
  {
    if originals == [] {
      return NothingToChain;
    }
    if key == "" {
      return NoKey;
    }
    var out := new Transfer[|originals|](_ => originals[0]);
    for i := 0 to |originals|
      invariant forall k :: 0 <= k < i ==> out[k] == ReversalLeg(originals, key, k)
    {
      var t := originals[i];
      out[i] := Transfer(ReversalLegId(key, i), t.credit, t.debit, t.amount, t.ledger, t.code, false, false, t.userData);
      if i < |originals| - 1 {
        out[i] := out[i].(linked := true);
      }
    }
    assert out[..] == Reversal(originals, key);
    return Done(out[..]);
  }

  method ExecuteReversalChain(client: InMemoryLedger, originals: seq<Transfer>, key: string) returns (r: Outcome)
    modifies client
    ensures originals == [] || key == "" ==> !r.Done? && client.Model() == old(client.Model())
    ensures originals != [] && key != "" ==>
      var ts := Reversal(originals, key);
      var failures := GenuineFailures(Failures(FinalCodes(old(client.Model()), ts)));
      client.Model() == Commit(old(client.Model()), ts) &&
      r == (if failures == [] then Done(ts) else BatchRejected(failures))
  {
    hide Commit, FinalCodes, Failures;
    var built := BuildReversalChain(originals, key);
    if !built.Done? {
      return built;
    }
    assert built.transfers != [];
    r := SubmitChainIdempotent(client, built.transfers);
  }
}
