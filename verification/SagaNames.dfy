/** Transfer IDs across sagas: sagas whose keys hold no separator never use each other's IDs, which is why other
    users matter to a saga for their balances alone. */
module SagaNames {
  import opened TransferLedger
  import opened Saga
  import opened SagaRecovery

  /** A chain is linked up to its closing leg, reserves or settles as a whole, and names every leg after its own. */
  ghost predicate OneChain(ts: seq<Transfer>, legs: seq<Leg>, pending: bool) {
    |ts| == |legs| && forall i :: 0 <= i < |ts| ==>
      (ts[i].linked <==> i < |ts| - 1) && ts[i].pending == pending && ts[i].amount == legs[i].amount && legs[i].name <= ts[i].leg
  }

  lemma {:induction false} ChainsAreWhole(p: Plan)
    ensures OneChain(p.HoldTransfers(), p.legs, true) && OneChain(p.ReversalTransfers(), p.legs, false)
    ensures forall i :: 0 <= i < |p.legs| ==> p.HoldTransfers()[i].leg == p.legs[i].name
  {
    assert forall x: string, y: string :: x <= x + y;
  }

  predicate NoBar(s: string) {
    forall i :: 0 <= i < |s| ==> s[i] != '|'
  }

  /** A text splits in one way at its first bar. */
  lemma {:induction false} FirstBar(a: string, x: string, b: string, y: string)
    requires NoBar(a) && NoBar(b) && a + "|" + x == b + "|" + y
    ensures a == b && x == y
  {
    var s := a + "|" + x;
    assert s[|a|] == '|' && forall i :: 0 <= i < |a| ==> s[i] == a[i];
    assert s[|b|] == '|' && forall i :: 0 <= i < |b| ==> s[i] == b[i];
    assert |a| == |b|;
    assert s[..|a|] == a && s[..|b|] == b && s[|a| + 1..] == x && s[|b| + 1..] == y;
  }

  /** Every ID a plan may ever use. */
  function AllTransfers(p: Plan): seq<Transfer> {
    p.HoldTransfers() + p.ReversalTransfers() + p.PayoutTransfers() + p.RefundTransfers()
  }

  lemma {:induction false} IdsStartWithKey(p: Plan, i: nat) returns (leg: string)
    requires i < |AllTransfers(p)|
    ensures AllTransfers(p)[i].id == p.key + "|" + leg
  {
    var h, r, n := p.HoldTransfers(), p.ReversalTransfers(), |p.legs|;
    if i < n {
      leg := p.legs[i].name;
    } else if i < 2 * n {
      leg := p.legs[i - n].name + "|reversal";
      assert AllTransfers(p)[i] == r[i - n];
    } else if i == 2 * n {
      leg := "payout";
    } else {
      leg := "payout|reversal";
    }
  }

  /** Sagas under different keys without a bar share no ID, whatever their legs are called. */
  lemma {:induction false} OtherKeysOtherIds(p: Plan, q: Plan)
    requires NoBar(p.key) && NoBar(q.key) && p.key != q.key
    ensures Apart(AllTransfers(p), AllTransfers(q))
  {
    forall i, k | 0 <= i < |AllTransfers(p)| && 0 <= k < |AllTransfers(q)|
      ensures AllTransfers(p)[i].id != AllTransfers(q)[k].id
    {
      var x := IdsStartWithKey(p, i);
      var y := IdsStartWithKey(q, k);
      hide AllTransfers;
      if p.key + "|" + x == q.key + "|" + y { FirstBar(p.key, x, q.key, y); }
    }
  }

  /** With a bar in a key they may: one saga's reversal of a leg is then another's hold. */
  lemma {:induction false} BarInKeyCollides(key: string, leg: string, source: Account, dest: Account, amount: int)
    ensures var p := Plan(key, source, [Leg(leg, dest, amount)], NoPayout);
      var q := Plan(key + "|" + leg, source, [Leg("reversal", dest, amount)], NoPayout);
      p.key != q.key && p.ReversalTransfers()[0].id == q.HoldTransfers()[0].id
  {
    assert key + "|" + (leg + "|reversal") == (key + "|" + leg) + "|" + "reversal";
    assert |key| < |key + "|" + leg|;
  }
}
