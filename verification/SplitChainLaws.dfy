/** What settlement chains promise: exactly when one commits, what it moves, that its reversal undoes
    it, and that submitting either again changes nothing. */
module SplitChainLaws {
  import opened Sequences
  import opened LinkedLedger
  import opened LinkedLedgerLaws
  import opened SplitIds
  import opened SplitChain
  import SplitEngine

  function DebitTotal(ts: seq<Transfer>, a: AccountId): nat {
    if ts == [] then 0
    else
      var n := |ts| - 1;
      DebitTotal(ts[..n], a) + (if ts[n].debit == a then ts[n].amount else 0)
  }

  function CreditTotal(ts: seq<Transfer>, a: AccountId): nat {
    if ts == [] then 0
    else
      var n := |ts| - 1;
      CreditTotal(ts[..n], a) + (if ts[n].credit == a then ts[n].amount else 0)
  }

  /** The whole batch committed: nothing was reported. */
  ghost predicate Commits(s: State, ts: seq<Transfer>) {
    Failures(FinalCodes(s, ts)) == []
  }

  /** No account both pays and is paid. */
  ghost predicate NoPassThrough(ts: seq<Transfer>) {
    forall i, k :: 0 <= i < |ts| && 0 <= k < |ts| ==> ts[i].debit != ts[k].credit
  }

  ghost predicate Submittable(s: State, t: Transfer) {
    t.id != ZeroId && t.id !in s.transfers && t.amount > 0 && t.debit in s.accounts && t.credit in s.accounts
  }

  ghost predicate Funded(s: State, ts: seq<Transfer>) {
    forall a :: a in s.accounts ==> DebitTotal(ts, a) <= s.accounts[a].Balance()
  }

  // ---------------------------------------------------------------------------
  // Totals
  // ---------------------------------------------------------------------------

  /** When everything is accepted the sums are the totals. */
  lemma {:induction false} SumsAreTotals(ts: seq<Transfer>, codes: seq<Code>, a: AccountId)
    requires |codes| <= |ts| && forall i :: 0 <= i < |codes| ==> codes[i] == OK
    ensures DebitSum(ts, codes, a) == DebitTotal(ts[..|codes|], a)
    ensures CreditSum(ts, codes, a) == CreditTotal(ts[..|codes|], a)
    decreases |codes|
  {
    if codes != [] {
      var n := |codes| - 1;
      assert forall i :: 0 <= i < n ==> codes[..n][i] == codes[i];
      SumsAreTotals(ts, codes[..n], a);
      assert ts[..n + 1][..n] == ts[..n];
    }
  }

  lemma {:induction false} NothingTo(ts: seq<Transfer>, a: AccountId)
    ensures (forall i :: 0 <= i < |ts| ==> ts[i].credit != a) ==> CreditTotal(ts, a) == 0
    ensures (forall i :: 0 <= i < |ts| ==> ts[i].debit != a) ==> DebitTotal(ts, a) == 0
    decreases |ts|
  {
    if ts != [] {
      var n := |ts| - 1;
      assert forall i :: 0 <= i < n ==> ts[..n][i] == ts[i];
      NothingTo(ts[..n], a);
    }
  }

  lemma {:induction false} TotalsGrow(ts: seq<Transfer>, n: nat, a: AccountId)
    requires n <= |ts|
    ensures DebitTotal(ts[..n], a) <= DebitTotal(ts, a) <= Volume(ts) && CreditTotal(ts, a) <= Volume(ts)
    decreases |ts|
  {
    if n == |ts| {
      assert ts[..n] == ts;
      if n > 0 { TotalsGrow(ts[..n - 1], n - 1, a); }
    } else {
      TotalsGrow(ts[..|ts| - 1], n, a);
      assert ts[..|ts| - 1][..n] == ts[..n];
    }
  }

  // ---------------------------------------------------------------------------
  // When a chain commits
  // ---------------------------------------------------------------------------

  ghost predicate AllStaged(s: State, ts: seq<Transfer>, n: nat)
    requires n <= |ts|
  {
    AllOk(Staged(s, ts, n))
  }

  lemma {:induction false} AllStagedStep(s: State, ts: seq<Transfer>, n: nat)
    requires n < |ts|
    ensures AllStaged(s, ts, n + 1) <==> AllStaged(s, ts, n) && StagedCode(s, ts, n) == OK
  {
    StagedAt(s, ts, n);
    hide Staged, StagedCode;
    var before, after := Staged(s, ts, n), Staged(s, ts, n + 1);
    assert after == before + [StagedCode(s, ts, n)];
    assert forall i :: 0 <= i < n ==> after[i] == before[i];
    assert after[n] == StagedCode(s, ts, n);
  }

  lemma {:induction false} StagedSums(s: State, ts: seq<Transfer>, n: nat)
    requires n < |ts| && AllStaged(s, ts, n)
    ensures DebitSum(ts, Staged(s, ts, n), ts[n].debit) == DebitTotal(ts[..n], ts[n].debit)
    ensures CreditSum(ts, Staged(s, ts, n), ts[n].debit) == CreditTotal(ts[..n], ts[n].debit)
    ensures DebitTotal(ts[..n + 1], ts[n].debit) == DebitTotal(ts[..n], ts[n].debit) + ts[n].amount
  {
    SumsAreTotals(ts, Staged(s, ts, n), ts[n].debit);
    assert ts[..n + 1][..n] == ts[..n];
  }

  /** Leg `n` is well formed and new, and its account can pay it out of its balance and what the legs
      before it bring and take. */
  ghost predicate Fits(s: State, ts: seq<Transfer>, n: nat)
    requires n < |ts|
  {
    && Submittable(s, ts[n]) && ts[n].debit != ts[n].credit
    && DebitTotal(ts[..n + 1], ts[n].debit) <= s.accounts[ts[n].debit].Balance() + CreditTotal(ts[..n], ts[n].debit)
  }

  /** When all before it were staged, a leg is accepted exactly when it fits. */
  lemma {:induction false} StagedCodeIs(s: State, ts: seq<Transfer>, n: nat)
    requires n < |ts| && Healthy(s, Volume(ts)) && AllStaged(s, ts, n)
    ensures StagedCode(s, ts, n) == OK <==> Fits(s, ts, n)
  {
    var a, codes := ts[n].debit, Staged(s, ts, n);
    StagedSums(s, ts, n);
    if a in s.accounts {
      StagedSolvent(s, ts, n, a);
      SumsFit(ts, codes, a);
      AvailableExact(s.accounts[a], CreditSum(ts, codes, a), DebitSum(ts, codes, a));
    }
    hide Staged, DebitSum, CreditSum, Volume, AllStaged, Healthy, DebitTotal, CreditTotal, Available;
  }

  lemma {:induction false} StagedIffFits(s: State, ts: seq<Transfer>, n: nat)
    requires n <= |ts| && Healthy(s, Volume(ts))
    ensures AllStaged(s, ts, n) <==> forall i :: 0 <= i < n ==> Fits(s, ts, i)
    decreases n
  {
    if n > 0 {
      AllStagedStep(s, ts, n - 1);
      hide AllStaged, Fits, Healthy, Volume, StagedCode;
      StagedIffFits(s, ts, n - 1);
      if AllStaged(s, ts, n - 1) { StagedCodeIs(s, ts, n - 1); }
    }
  }

  lemma {:induction false} StagedWasFunded(s: State, ts: seq<Transfer>, a: AccountId)
    requires Healthy(s, Volume(ts)) && NoPassThrough(ts) && AllStaged(s, ts, |ts|) && a in s.accounts
    ensures DebitTotal(ts, a) <= s.accounts[a].Balance()
  {
    StagedSolvent(s, ts, |ts|, a);
    SumsAreTotals(ts, Staged(s, ts, |ts|), a);
    assert ts[..|ts|] == ts;
    NothingTo(ts, a);
    if k :| 0 <= k < |ts| && ts[k].debit == a {
      assert forall i :: 0 <= i < |ts| ==> ts[i].credit != a;
    }
  }

  lemma {:induction false} CommitsIffStaged(s: State, ts: seq<Transfer>)
    requires SingleChain(ts)
    ensures Commits(s, ts) <==> AllStaged(s, ts, |ts|)
  {
    SingleChainAllOrNothing(s, ts);
    hide Staged, FinalCodes, Failures, AllOk;
  }

  /** Any single chain commits if and only if every leg is well formed and new and can be paid out of its
      account's balance and what the legs before it bring. */
  lemma {:induction false} SingleChainCommitsIff(s: State, ts: seq<Transfer>)
    requires SingleChain(ts) && Healthy(s, Volume(ts))
    ensures Commits(s, ts) <==> forall n :: 0 <= n < |ts| ==> Fits(s, ts, n)
    ensures !Commits(s, ts) ==> Commit(s, ts) == s
  {
    CommitsIffStaged(s, ts);
    SingleChainAllOrNothing(s, ts);
    hide Commit, FinalCodes, Failures, SingleChain, Healthy, Staged, AllStaged, Fits;
    StagedIffFits(s, ts, |ts|);
  }

  /** Without pass-through the legs bring nothing to a paying account. */
  lemma {:induction false} FundedFits(s: State, ts: seq<Transfer>, n: nat)
    requires NoPassThrough(ts) && n < |ts| && Submittable(s, ts[n]) && Funded(s, ts)
    ensures Fits(s, ts, n)
  {
    TotalsGrow(ts, n + 1, ts[n].debit);
    assert forall i :: 0 <= i < n ==> ts[..n][i] == ts[i];
    NothingTo(ts[..n], ts[n].debit);
    hide DebitTotal, CreditTotal;
  }

  /** A chain in which no account both pays and is paid commits if and only if every leg is well formed
      and every paying account can cover the sum of its legs. */
  lemma {:induction false} ChainCommitsIff(s: State, ts: seq<Transfer>)
    requires SingleChain(ts) && NoPassThrough(ts) && Healthy(s, Volume(ts))
    ensures Commits(s, ts) <==> (forall i :: 0 <= i < |ts| ==> Submittable(s, ts[i])) && Funded(s, ts)
    ensures !Commits(s, ts) ==> Commit(s, ts) == s
  {
    SingleChainCommitsIff(s, ts);
    if (forall i :: 0 <= i < |ts| ==> Submittable(s, ts[i])) && Funded(s, ts) {
      forall n | 0 <= n < |ts| ensures Fits(s, ts, n) { FundedFits(s, ts, n); }
    }
    if Commits(s, ts) {
      CommitsIffStaged(s, ts);
      assert forall n :: 0 <= n < |ts| ==> Fits(s, ts, n);
      assert forall n :: 0 <= n < |ts| && Fits(s, ts, n) ==> Submittable(s, ts[n]);
      hide Commits, Commit, AllStaged, Healthy;
      forall a | a in s.accounts ensures DebitTotal(ts, a) <= s.accounts[a].Balance() {
        StagedWasFunded(s, ts, a);
      }
    }
  }

  // ---------------------------------------------------------------------------
  // What it moves
  // ---------------------------------------------------------------------------

  /** Every leg of a batch that committed was accepted, hence well formed and new. */
  lemma {:induction false} CommittedLegs(s: State, ts: seq<Transfer>)
    requires Commits(s, ts)
    ensures AllOk(FinalCodes(s, ts)) && (ts != [] ==> !ts[|ts| - 1].linked)
    ensures forall i :: 0 <= i < |ts| ==> Submittable(s, ts[i]) && ts[i].debit != ts[i].credit
  {
    FailuresEmptyIff(FinalCodes(s, ts));
    forall i | 0 <= i < |ts|
      ensures Submittable(s, ts[i]) && ts[i].debit != ts[i].credit && OwnCode(s, ts, i) == OK
    {
      assert FinalCodes(s, ts)[i] == OK;
      FinalIsStaged(s, ts, i);
      hide Failures, Staged, StagedDebit, StagedCredit, Available, ChainFails;
    }
  }

  /** A batch that committed is the application of all its transfers. */
  lemma {:induction false} CommittedIsApplied(s: State, ts: seq<Transfer>)
    requires Commits(s, ts)
    ensures var codes := FinalCodes(s, ts);
      |codes| == |ts| && AllOk(codes) && Applicable(s, ts, codes) && Commit(s, ts) == ApplyAll(s, ts, codes)
  {
    CommittedLegs(s, ts);
    FinalApplicable(s, ts, |ts|);
    assert FinalCodes(s, ts)[..|ts|] == FinalCodes(s, ts);
    hide FinalCode, ApplyAll;
  }

  /** A batch that committed moves exactly its transfers, and records exactly their IDs. */
  lemma {:induction false} CommittedEffect(s: State, ts: seq<Transfer>)
    requires Settling(ts) && Healthy(s, Volume(ts)) && Commits(s, ts)
    ensures var s' := Commit(s, ts);
      && s'.accounts.Keys == s.accounts.Keys
      && (forall a :: a in s.accounts ==> PostedIs(s, s', a, DebitTotal(ts, a), CreditTotal(ts, a)))
      && (forall id :: id in s'.transfers <==> id in s.transfers || exists i :: 0 <= i < |ts| && ts[i].id == id)
  {
    CommittedLegs(s, ts);
    CommittedIsApplied(s, ts);
    var codes := FinalCodes(s, ts);
    assert ts[..|ts|] == ts;
    hide FinalCodes, Commits, Commit, ApplyAll, Healthy, Volume, Settling;
    ApplyRecords(s, ts, codes);
    forall a | a in s.accounts
      ensures PostedIs(s, ApplyAll(s, ts, codes), a, DebitTotal(ts, a), CreditTotal(ts, a))
    {
      PostedAfter(s, ts, codes, a);
      SumsAreTotals(ts, codes, a);
    }
  }

  // ---------------------------------------------------------------------------
  // Reversal
  // ---------------------------------------------------------------------------

  lemma {:induction false} ReversalShape(ts: seq<Transfer>, key: string)
    requires SingleChain(ts)
    ensures SingleChain(Reversal(ts, key)) && Settling(Reversal(ts, key))
    ensures NoPassThrough(ts) ==> NoPassThrough(Reversal(ts, key))
    ensures Mirrors(Reversal(ts, key), ts)
  {
    hide ReversalLegId;
  }

  /** The same totals with debit and credit exchanged. */
  ghost predicate Mirrors(rev: seq<Transfer>, ts: seq<Transfer>) {
    |rev| == |ts| && forall i :: 0 <= i < |ts| ==>
      rev[i].debit == ts[i].credit && rev[i].credit == ts[i].debit && rev[i].amount == ts[i].amount
  }

  lemma {:induction false} MirrorTotals(rev: seq<Transfer>, ts: seq<Transfer>, a: AccountId)
    requires Mirrors(rev, ts)
    ensures DebitTotal(rev, a) == CreditTotal(ts, a) && CreditTotal(rev, a) == DebitTotal(ts, a)
    ensures Volume(rev) == Volume(ts)
    decreases |ts|
  {
    if ts != [] {
      var n := |ts| - 1;
      assert Mirrors(rev[..n], ts[..n]);
      MirrorTotals(rev[..n], ts[..n], a);
    }
  }

  /** None of the reversal's own IDs has been used. */
  ghost predicate ReversalIsNew(s: State, ts: seq<Transfer>, key: string) {
    forall i :: 0 <= i < |ts| ==> ReversalLegId(key, i) !in s.transfers
  }

  /** Leg `n` of the reversal can be paid back: the account it credited holds it, with what the legs before
      it have paid back and taken again. */
  ghost predicate PaysBack(s: State, ts: seq<Transfer>, n: nat)
    requires n < |ts| && ts[n].credit in s.accounts
  {
    CreditTotal(ts[..n + 1], ts[n].credit) <= s.accounts[ts[n].credit].Balance() + DebitTotal(ts[..n], ts[n].credit)
  }

  ghost predicate Reversed(s: State, ts: seq<Transfer>, key: string) {
    && ReversalIsNew(s, ts, key)
    && forall i :: 0 <= i < |ts| ==>
      ts[i].amount > 0 && ts[i].debit != ts[i].credit && ts[i].debit in s.accounts && ts[i].credit in s.accounts
  }

  lemma {:induction false} ReversalLegFits(s: State, ts: seq<Transfer>, key: string, n: nat)
    requires n < |ts| && Reversed(s, ts, key)
    ensures Fits(s, Reversal(ts, key), n) <==> PaysBack(s, ts, n)
  {
    var rev := Reversal(ts, key);
    assert Submittable(s, rev[n]);
    assert Mirrors(rev[..n], ts[..n]) && Mirrors(rev[..n + 1], ts[..n + 1]);
    MirrorTotals(rev[..n], ts[..n], ts[n].credit);
    MirrorTotals(rev[..n + 1], ts[..n + 1], ts[n].credit);
    hide ReversalLegId, DebitTotal, CreditTotal;
  }

  /** Any chain, also one that passes money through an account, can be reversed at any later time if and
      only if, leg by leg in the original order, the account it credited can pay the leg back. */
  lemma {:induction false} AnyReversalCommitsIff(s: State, ts: seq<Transfer>, key: string)
    requires SingleChain(ts) && Healthy(s, Volume(ts)) && Reversed(s, ts, key)
    ensures Commits(s, Reversal(ts, key)) <==> forall n :: 0 <= n < |ts| ==> PaysBack(s, ts, n)
  {
    var rev := Reversal(ts, key);
    ReversalShape(ts, key);
    MirrorTotals(rev, ts, ts[0].debit);
    forall n | 0 <= n < |ts| ensures Fits(s, rev, n) <==> PaysBack(s, ts, n) { ReversalLegFits(s, ts, key, n); }
    assert |rev| == |ts|;
    hide Reversal, PaysBack, Fits, Reversed, SingleChain, Commits, Healthy;
    SingleChainCommitsIff(s, rev);
  }

  /** At any later time, a committed chain can be reversed if and only if every account it credited
      still holds what the chain brought it. */
  lemma {:induction false} ReversalCommitsIff(s: State, ts: seq<Transfer>, key: string)
    requires SingleChain(ts) && NoPassThrough(ts) && Healthy(s, Volume(ts)) && ReversalIsNew(s, ts, key)
    requires forall i :: 0 <= i < |ts| ==> ts[i].amount > 0 && ts[i].debit in s.accounts && ts[i].credit in s.accounts
    ensures Commits(s, Reversal(ts, key)) <==>
      forall a :: a in s.accounts ==> CreditTotal(ts, a) <= s.accounts[a].Balance()
  {
    var rev := Reversal(ts, key);
    ReversalShape(ts, key);
    assert Mirrors(rev, ts);
    MirrorTotals(rev, ts, ts[0].debit);
    hide ReversalLegId, SingleChain, NoPassThrough, Healthy, Commits;
    assert forall i :: 0 <= i < |rev| ==> Submittable(s, rev[i]);
    hide Reversal, Submittable, ReversalIsNew;
    forall a ensures DebitTotal(rev, a) == CreditTotal(ts, a) && Volume(rev) == Volume(ts) {
      MirrorTotals(rev, ts, a);
    }
    hide DebitTotal, CreditTotal, Mirrors;
    ChainCommitsIff(s, rev);
  }

  lemma {:induction false} AfterCommitHealthy(s: State, ts: seq<Transfer>, room: nat)
    requires SingleChain(ts) && Settling(ts) && Healthy(s, Volume(ts) + room)
    ensures Healthy(Commit(s, ts), room)
  {
    SingleChainBorrowsNothing(s, ts);
    BatchStaysHealthy(s, ts, room);
  }

  lemma {:induction false} HealthyWithLess(s: State, more: nat, less: nat)
    requires Healthy(s, more) && less <= more
    ensures Healthy(s, less)
  {
  }

  /** Settle, then reverse with nothing in between: the reversal commits, and every account is back at
      its balance. */
  lemma {:induction false} ReversalRestores(s: State, ts: seq<Transfer>, key: string)
    requires SingleChain(ts) && Settling(ts) && NoPassThrough(ts) && Healthy(s, 2 * Volume(ts)) && Commits(s, ts)
    requires ReversalIsNew(s, ts, key) && forall i, k :: 0 <= i < |ts| && 0 <= k < |ts| ==> ts[i].id != ReversalLegId(key, k)
    ensures var s1 := Commit(s, ts);
      var s2 := Commit(s1, Reversal(ts, key));
      && Commits(s1, Reversal(ts, key))
      && s2.accounts.Keys == s.accounts.Keys
      && forall a :: a in s.accounts ==> s2.accounts[a].Balance() == s.accounts[a].Balance()
  {
    hide ReversalLegId, Commit, Commits, NoPassThrough, Volume, Healthy, Settling, CreditTotal, DebitTotal, ReversalIsNew;
    var rev, s1 := Reversal(ts, key), Commit(s, ts);
    CommittedState(s, ts, key);
    ReversalShape(ts, key);
    assert Mirrors(rev, ts) && |ts| > 0;
    MirrorTotals(rev, ts, ts[0].debit);
    hide Reversal, SingleChain;
    ReversalCommitsIff(s1, ts, key);
    CommittedEffect(s1, rev);
    forall a | a in s.accounts ensures Commit(s1, rev).accounts[a].Balance() == s.accounts[a].Balance() {
      MirrorTotals(rev, ts, a);
      BackToBalance(s, s1, Commit(s1, rev), a, DebitTotal(ts, a), CreditTotal(ts, a));
    }
  }

  lemma {:induction false} BackToBalance(s: State, s1: State, s2: State, a: AccountId, debits: nat, credits: nat)
    requires a in s.accounts && a in s1.accounts && a in s2.accounts
    requires PostedIs(s, s1, a, debits, credits) && PostedIs(s1, s2, a, credits, debits)
    ensures s2.accounts[a].Balance() == s.accounts[a].Balance()
  {
  }

  /** The state right after a chain committed. */
  lemma {:induction false} CommittedState(s: State, ts: seq<Transfer>, key: string)
    requires SingleChain(ts) && Settling(ts) && NoPassThrough(ts) && Healthy(s, 2 * Volume(ts)) && Commits(s, ts)
    requires ReversalIsNew(s, ts, key) && forall i, k :: 0 <= i < |ts| && 0 <= k < |ts| ==> ts[i].id != ReversalLegId(key, k)
    ensures var s1 := Commit(s, ts);
      && Healthy(s1, Volume(ts)) && ReversalIsNew(s1, ts, key) && s1.accounts.Keys == s.accounts.Keys
      && (forall i :: 0 <= i < |ts| ==> ts[i].amount > 0 && ts[i].debit in s.accounts && ts[i].credit in s.accounts)
      && (forall a :: a in s.accounts ==> PostedIs(s, s1, a, DebitTotal(ts, a), CreditTotal(ts, a)))
      && (forall a :: a in s.accounts ==> CreditTotal(ts, a) <= s1.accounts[a].Balance())
  {
    var s1 := Commit(s, ts);
    HealthyWithLess(s, 2 * Volume(ts), Volume(ts));
    ChainCommitsIff(s, ts);
    CommittedEffect(s, ts);
    AfterCommitHealthy(s, ts, Volume(ts));
    hide Commit, Commits, ReversalLegId, SingleChain, NoPassThrough, Volume, Settling;
    forall a | a in s.accounts ensures CreditTotal(ts, a) <= s1.accounts[a].Balance() {
      StillHolds(s, s1, ts, a);
    }
  }

  /** Right after the chain, an account it credited holds at least what it was credited. */
  lemma {:induction false} StillHolds(s: State, s1: State, ts: seq<Transfer>, a: AccountId)
    requires NoPassThrough(ts) && a in s.accounts && a in s1.accounts && s.accounts[a].Balance() >= 0
    requires PostedIs(s, s1, a, DebitTotal(ts, a), CreditTotal(ts, a)) && DebitTotal(ts, a) <= s.accounts[a].Balance()
    ensures CreditTotal(ts, a) <= s1.accounts[a].Balance()
  {
  }

  // ---------------------------------------------------------------------------
  // Passing money through an account
  // ---------------------------------------------------------------------------

  /** A two-leg chain that passes one amount on from `x` through `y` to `z`. */
  ghost predicate PassesOn(ts: seq<Transfer>, x: AccountId, y: AccountId, z: AccountId, n: nat) {
    && |ts| == 2 && SingleChain(ts) && Settling(ts) && n > 0 && x != y && y != z && x != z
    && ts[0].debit == x && ts[0].credit == y && ts[1].debit == y && ts[1].credit == z
    && ts[0].amount == ts[1].amount == n && ts[0].id.Minted? && ts[1].id.Minted?
  }

  lemma {:induction false} TwoTotals(ts: seq<Transfer>, a: AccountId)
    requires |ts| == 2
    ensures Volume(ts) == ts[0].amount + ts[1].amount
    ensures DebitTotal(ts[..0], a) == 0 && CreditTotal(ts[..0], a) == 0
    ensures DebitTotal(ts[..1], a) == if ts[0].debit == a then ts[0].amount else 0
    ensures CreditTotal(ts[..1], a) == if ts[0].credit == a then ts[0].amount else 0
    ensures ts[..2] == ts
    ensures DebitTotal(ts, a) == DebitTotal(ts[..1], a) + (if ts[1].debit == a then ts[1].amount else 0)
    ensures CreditTotal(ts, a) == CreditTotal(ts[..1], a) + (if ts[1].credit == a then ts[1].amount else 0)
  {
    var one := ts[..1];
    assert one[..0] == [] && ts[..0] == [] && one[0] == ts[0];
    assert Volume(one) == ts[0].amount by { assert Volume(one[..0]) == 0; }
  }

  lemma {:induction false} PassingTotals(ts: seq<Transfer>, x: AccountId, y: AccountId, z: AccountId, n: nat)
    requires PassesOn(ts, x, y, z, n)
    ensures Volume(ts) == 2 * n && ts[..2] == ts
    ensures DebitTotal(ts[..0], y) == 0 && CreditTotal(ts[..0], x) == 0
    ensures DebitTotal(ts[..1], x) == n && CreditTotal(ts[..1], y) == n && DebitTotal(ts[..1], z) == 0
    ensures DebitTotal(ts, y) == n && CreditTotal(ts, y) == n && CreditTotal(ts, z) == n && DebitTotal(ts, z) == 0
  {
    hide DebitTotal, CreditTotal, Volume, SingleChain, Settling;
    TwoTotals(ts, x);
    TwoTotals(ts, y);
    TwoTotals(ts, z);
  }

  /** Such a chain commits whenever `x` can pay; its reversal, leg by leg in the original order, needs `y`
      to pay before it is paid back. */
  lemma {:induction false} PassingCommitsIff(s: State, ts: seq<Transfer>, x: AccountId, y: AccountId, z: AccountId, n: nat)
    requires PassesOn(ts, x, y, z, n) && Healthy(s, 2 * n) && x in s.accounts && y in s.accounts && z in s.accounts
    requires ts[0].id !in s.transfers && ts[1].id !in s.transfers
    ensures Commits(s, ts) <==> n <= s.accounts[x].Balance()
  {
    PassingTotals(ts, x, y, z, n);
    assert Submittable(s, ts[0]) && Submittable(s, ts[1]);
    assert s.accounts[y].Balance() >= 0;
    assert Fits(s, ts, 0) <==> n <= s.accounts[x].Balance();
    assert Fits(s, ts, 1);
    hide Commits, Commit, DebitTotal, CreditTotal, Submittable, Fits, Healthy, SingleChain, Settling, Volume;
    SingleChainCommitsIff(s, ts);
    assert forall i :: 0 <= i < |ts| ==> i == 0 || Fits(s, ts, i);
  }

  lemma {:induction false} HealthyIs(s: State, room: nat, a: AccountId)
    requires Healthy(s, room) && a in s.accounts
    ensures s.accounts[a].Balance() >= 0
  {
  }

  lemma {:induction false} PassingReversible(s: State, s1: State, ts: seq<Transfer>, x: AccountId, y: AccountId, z: AccountId, n: nat, key: string)
    requires PassesOn(ts, x, y, z, n) && x in s.accounts && y in s.accounts && z in s.accounts && ReversalIsNew(s, ts, key)
    requires s1.accounts.Keys == s.accounts.Keys
    requires forall id :: id in s1.transfers <==> id in s.transfers || exists i :: 0 <= i < |ts| && ts[i].id == id
    ensures Reversed(s1, ts, key)
  {
    assert ReversalLegId(key, 0).Hashed? && ReversalLegId(key, 1).Hashed?;
    hide ReversalLegId, SingleChain, Settling;
    assert forall i :: 0 <= i < |ts| ==> i == 0 || ts[i] == ts[1];
  }

  lemma {:induction false} PassingLeaves(s: State, ts: seq<Transfer>, x: AccountId, y: AccountId, z: AccountId, n: nat, key: string)
    requires PassesOn(ts, x, y, z, n) && Healthy(s, 4 * n) && x in s.accounts && y in s.accounts && z in s.accounts
    requires Commits(s, ts) && ReversalIsNew(s, ts, key)
    ensures var s1 := Commit(s, ts);
      && Healthy(s1, 2 * n) && Reversed(s1, ts, key) && y in s1.accounts && z in s1.accounts
      && s1.accounts[y].Balance() == s.accounts[y].Balance() && s1.accounts[z].Balance() >= n
  {
    var s1 := Commit(s, ts);
    PassingTotals(ts, x, y, z, n);
    HealthyWithLess(s, 4 * n, 2 * n);
    HealthyIs(s, 4 * n, z);
    hide Commits, Commit, DebitTotal, CreditTotal, Healthy, SingleChain, Volume, ReversalLegId, Reversed, ReversalIsNew;
    CommittedEffect(s, ts);
    AfterCommitHealthy(s, ts, 2 * n);
    PassingReversible(s, s1, ts, x, y, z, n, key);
    hide Settling;
    assert PostedIs(s, s1, y, n, n) && PostedIs(s, s1, z, 0, n);
  }

  /** Right after it has committed, such a chain can be reversed if and only if `y` already held the amount
      before it: otherwise the refund of a committed chain is refused. */
  lemma {:induction false} PassThroughReversalIff(s: State, ts: seq<Transfer>, x: AccountId, y: AccountId, z: AccountId, n: nat, key: string)
    requires PassesOn(ts, x, y, z, n) && Healthy(s, 4 * n) && x in s.accounts && y in s.accounts && z in s.accounts
    requires Commits(s, ts) && ReversalIsNew(s, ts, key)
    ensures Commits(Commit(s, ts), Reversal(ts, key)) <==> n <= s.accounts[y].Balance()
  {
    var s1 := Commit(s, ts);
    PassingLeaves(s, ts, x, y, z, n, key);
    PassingTotals(ts, x, y, z, n);
    assert PaysBack(s1, ts, 0) <==> n <= s.accounts[y].Balance();
    assert PaysBack(s1, ts, 1);
    hide Commits, Commit, DebitTotal, CreditTotal, Healthy, SingleChain, Settling, Volume, Reversal, ReversalLegId, PaysBack;
    AnyReversalCommitsIff(s1, ts, key);
    assert forall i :: 0 <= i < |ts| ==> i == 0 || PaysBack(s1, ts, i);
  }

  // ---------------------------------------------------------------------------
  // Submitting again
  // ---------------------------------------------------------------------------

  /** IDs are never forgotten. */
  lemma {:induction false} TransfersStay(s: State, ts: seq<Transfer>)
    ensures forall id :: id in s.transfers ==> id in Commit(s, ts).transfers
  {
    FinalApplicable(s, ts, |ts|);
    ApplyRecords(s, ts, FinalCodes(s, ts)[..|ts|]);
  }

  lemma {:induction false} TransfersStayAll(s: State, batches: seq<seq<Transfer>>)
    ensures forall id :: id in s.transfers ==> id in CommitAll(s, batches).transfers
    decreases |batches|
  {
    if batches != [] {
      TransfersStay(s, batches[0]);
      hide Commit;
      TransfersStayAll(Commit(s, batches[0]), batches[1..]);
    }
  }

  lemma {:induction false} GenuineFailuresEmptyIff(results: seq<TransferResult>)
    ensures GenuineFailures(results) == [] <==> forall i :: 0 <= i < |results| ==> results[i].code == Exists
    decreases |results|
  {
    if results != [] {
      var n := |results| - 1;
      assert forall i :: 0 <= i < n ==> results[..n][i] == results[i];
      GenuineFailuresEmptyIff(results[..n]);
    }
  }

  lemma {:induction false} FailuresAre(codes: seq<Code>)
    ensures (forall i :: 0 <= i < |Failures(codes)| ==> Failures(codes)[i].code == Exists) <==>
      forall i :: 0 <= i < |codes| ==> codes[i] == OK || codes[i] == Exists
    decreases |codes|
  {
    if codes != [] {
      var n := |codes| - 1;
      assert forall i :: 0 <= i < n ==> codes[..n][i] == codes[i];
      FailuresAre(codes[..n]);
      var before, f := Failures(codes[..n]), Failures(codes);
      assert codes[n] != OK ==> f == before + [TransferResult(n, codes[n])];
      assert codes[n] != OK ==> f[|before|].code == codes[n] && forall i :: 0 <= i < |before| ==> f[i] == before[i];
    }
  }

  /** Submission of a single chain succeeds in exactly two cases: the chain commits now, or every one of
      its legs is refused as existing, and then nothing changes. */
  lemma {:induction false} SubmissionSucceedsIff(s: State, ts: seq<Transfer>)
    requires SingleChain(ts)
    ensures GenuineFailures(Failures(FinalCodes(s, ts))) == [] <==>
      Commits(s, ts) || forall i :: 0 <= i < |ts| ==> Staged(s, ts, |ts|)[i] == Exists
    ensures !Commits(s, ts) ==> Commit(s, ts) == s
  {
    SingleChainAllOrNothing(s, ts);
    var codes := FinalCodes(s, ts);
    GenuineFailuresEmptyIff(Failures(codes));
    FailuresAre(codes);
    FailuresEmptyIff(codes);
    forall i | 0 <= i < |ts| ensures codes[i] == Exists <==> Staged(s, ts, |ts|)[i] == Exists {
      hide Staged, ChainFails;
      assert OwnCode(s, ts, i) == Staged(s, ts, |ts|)[i];
    }
  }

  lemma {:induction false} ExistingLegIs(s: State, ts: seq<Transfer>, i: nat)
    requires i < |ts| && ts[i].id != ZeroId && ts[i].amount > 0 && ts[i].debit != ts[i].credit && ts[i].id in s.transfers
    requires !ts[|ts| - 1].linked
    ensures FinalCodes(s, ts)[i] == Exists
  {
    StagedAt(s, ts, i);
    hide Staged, ChainFails;
  }

  /** The IDs of a batch that committed are stored from then on. */
  lemma {:induction false} CommittedIdsStay(s: State, ts: seq<Transfer>, between: seq<seq<Transfer>>)
    requires Commits(s, ts)
    ensures forall i :: 0 <= i < |ts| ==> ts[i].id in CommitAll(Commit(s, ts), between).transfers
  {
    CommittedIsApplied(s, ts);
    hide FinalCodes, Commit, ApplyAll;
    ApplyRecords(s, ts, FinalCodes(s, ts));
    TransfersStayAll(Commit(s, ts), between);
  }

  /** Whatever was submitted in between, resubmitting a batch that committed succeeds and changes nothing:
      single chains, chains that pass money through an account, and any mix of them. */
  lemma {:induction false} ReplayChangesNothing(s: State, ts: seq<Transfer>, between: seq<seq<Transfer>>)
    requires Commits(s, ts)
    ensures var s' := CommitAll(Commit(s, ts), between);
      GenuineFailures(Failures(FinalCodes(s', ts))) == [] && Commit(s', ts) == s'
  {
    CommittedLegs(s, ts);
    CommittedIdsStay(s, ts, between);
    var s' := CommitAll(Commit(s, ts), between);
    hide Commits, Commit, CommitAll, Failures, FinalCode, GenuineFailures;
    forall i | 0 <= i < |ts| ensures FinalCodes(s', ts)[i] == Exists {
      ExistingLegIs(s', ts, i);
    }
    AllExist(s', ts);
  }

  lemma {:induction false} AllExist(s: State, ts: seq<Transfer>)
    requires forall i :: 0 <= i < |ts| ==> FinalCodes(s, ts)[i] == Exists
    ensures GenuineFailures(Failures(FinalCodes(s, ts))) == [] && Commit(s, ts) == s
  {
    var codes := FinalCodes(s, ts);
    FinalApplicable(s, ts, |ts|);
    assert codes[..|ts|] == codes;
    hide FinalCodes;
    FailuresAre(codes);
    GenuineFailuresEmptyIff(Failures(codes));
    ApplyNothing(s, ts, codes);
  }

  // ---------------------------------------------------------------------------
  // Settlement chains
  // ---------------------------------------------------------------------------

  /** No instant leg is paid back into the clearing account. */
  ghost predicate PaysOthers(legs: seq<SplitEngine.Leg>) {
    forall i :: 0 <= i < |legs| ==> legs[i].rule.accountCode != PAYER_CLEARING
  }

  /** Accounts of different classes are different accounts. */
  lemma {:induction false} ClassesDiffer(p: Params, c: bv16, c': bv16)
    requires p.entity.hi <= 0xFFFF
    ensures AccountOf(p, c) == AccountOf(p, c') <==> c == c'
  {
    DecodeInvertsBuild(AccountParts(p.tenant, p.mda, c, p.entity));
    DecodeInvertsBuild(AccountParts(p.tenant, p.mda, c', p.entity));
  }

  lemma {:induction false} ChainShape(legs: seq<SplitEngine.Leg>, p: Params, first: nat)
    requires legs != [] && p.entity.hi <= 0xFFFF
    ensures var ts := Chain(legs, p, first);
      && SingleChain(ts) && Settling(ts) && (NoPassThrough(ts) <==> PaysOthers(legs))
      && Volume(ts) == SplitEngine.LegSum(legs)
      && DebitTotal(ts, AccountOf(p, PAYER_CLEARING).id) == SplitEngine.LegSum(legs)
  {
    var ts, payer := Chain(legs, p, first), AccountOf(p, PAYER_CLEARING).id;
    forall i | 0 <= i < |legs|
      ensures ts[i].debit == payer && (ts[i].credit == payer <==> legs[i].rule.accountCode == PAYER_CLEARING)
    {
      ClassesDiffer(p, legs[i].rule.accountCode, PAYER_CLEARING);
      AccountFits(p, PAYER_CLEARING);
      AccountFits(p, legs[i].rule.accountCode);
    }
    assert forall i :: 0 <= i < |legs| ==> ts[i].amount == legs[i].amount && !ts[i].pending && (ts[i].linked <==> i < |legs| - 1);
    hide Chain, AccountOf;
    assert |ts| == |legs|;
    assert NoPassThrough(ts) ==> PaysOthers(legs) by {
      if NoPassThrough(ts) {
        assert forall i :: 0 <= i < |ts| ==> ts[i].debit != ts[i].credit;
      }
    }
    PayerTotals(ts, legs, payer);
  }

  lemma {:induction false} PayerTotals(ts: seq<Transfer>, legs: seq<SplitEngine.Leg>, payer: AccountId)
    requires |ts| == |legs| && forall i :: 0 <= i < |ts| ==> ts[i].debit == payer && ts[i].amount == legs[i].amount
    ensures Volume(ts) == SplitEngine.LegSum(legs) && DebitTotal(ts, payer) == SplitEngine.LegSum(legs)
    decreases |ts|
  {
    if ts != [] {
      var n := |ts| - 1;
      PayerTotals(ts[..n], legs[..n], payer);
      assert legs == legs[..n] + [legs[n]];
      SplitEngine.LegSumAppend(legs[..n], legs[n]);
    }
  }

  /** IDs of a chain built under a key: none is zero, none is a reversal ID. */
  lemma {:induction false} ChainIds(legs: seq<SplitEngine.Leg>, p: Params, first: nat, key: string)
    requires p.entity.hi <= 0xFFFF
    ensures var ts := Chain(legs, p, first);
      forall i, k: nat :: 0 <= i < |ts| ==> ts[i].id != ZeroId && ts[i].id != ReversalLegId(key, k)
  {
    var ts := Chain(legs, p, first);
    forall i, k: nat | 0 <= i < |ts| ensures ts[i].id != ZeroId && ts[i].id != ReversalLegId(key, k) {
      LegIdsDistinct(p.key, i, key, k);
    }
  }

  /** Settlement and refund of one bill: the chain commits exactly when its legs are positive, its accounts
      exist, its IDs are unused and clearing can pay the pool; a refund right after restores every
      balance; and both can be submitted again without effect. */
  lemma {:induction false} SettlementLaw(s: State, legs: seq<SplitEngine.Leg>, p: Params, first: nat)
    requires legs != [] && p.entity.hi <= 0xFFFF && PaysOthers(legs) && Healthy(s, 2 * SplitEngine.LegSum(legs))
    ensures var ts := Chain(legs, p, first);
      && (Commits(s, ts) <==> (forall i :: 0 <= i < |ts| ==> Submittable(s, ts[i])) && Funded(s, ts))
      && (Commits(s, ts) && ReversalIsNew(s, ts, p.key) ==>
            RestoredBy(s, Commit(s, ts), Reversal(ts, p.key)) && NoEffect(Commit(s, ts), ts) &&
            NoEffect(Commit(Commit(s, ts), Reversal(ts, p.key)), ts) &&
            NoEffect(Commit(Commit(s, ts), Reversal(ts, p.key)), Reversal(ts, p.key)))
  {
    var ts := Chain(legs, p, first);
    ChainShape(legs, p, first);
    ChainIds(legs, p, first, p.key);
    HealthyWithLess(s, 2 * Volume(ts), Volume(ts));
    ReversalShape(ts, p.key);
    var rev, s1 := Reversal(ts, p.key), Commit(s, ts);
    assert Mirrors(rev, ts);
    MirrorTotals(rev, ts, ts[0].debit);
    hide Chain, Reversal, Healthy, SingleChain, NoPassThrough, PaysOthers, Commit, Volume, Commits, Mirrors, ReversalLegId;
    ChainCommitsIff(s, ts);
    if Commits(s, ts) && ReversalIsNew(s, ts, p.key) {
      ReversalRestores(s, ts, p.key);
      AfterCommitHealthy(s, ts, Volume(ts));
      Replay(s, ts, []);
      Replay(s, ts, [rev]);
      Replay(s1, rev, []);
    }
  }

  ghost predicate RestoredBy(s: State, s1: State, rev: seq<Transfer>) {
    && Commits(s1, rev)
    && Commit(s1, rev).accounts.Keys == s.accounts.Keys
    && forall a :: a in s.accounts ==> Commit(s1, rev).accounts[a].Balance() == s.accounts[a].Balance()
  }

  /** Submitting `ts` succeeds and changes nothing. */
  ghost predicate NoEffect(s: State, ts: seq<Transfer>) {
    GenuineFailures(Failures(FinalCodes(s, ts))) == [] && Commit(s, ts) == s
  }

  lemma {:induction false} Replay(s: State, ts: seq<Transfer>, between: seq<seq<Transfer>>)
    requires Commits(s, ts)
    ensures NoEffect(CommitAll(Commit(s, ts), between), ts)
    ensures between == [] ==> CommitAll(Commit(s, ts), between) == Commit(s, ts)
    ensures |between| == 1 ==> CommitAll(Commit(s, ts), between) == Commit(Commit(s, ts), between[0])
  {
    ReplayChangesNothing(s, ts, between);
    hide Commit;
    if |between| == 1 {
      assert between[1..] == [];
      assert CommitAll(Commit(Commit(s, ts), between[0]), between[1..]) == Commit(Commit(s, ts), between[0]);
    }
  }

  /** What a settled bill leaves in clearing: the gross less the instant pool, which under a validated
      pack covers every month-end leg. */
  lemma {:induction false} SettledClearing(s: State, plan: SplitEngine.SplitPlan, gross: nat, rules: seq<SplitEngine.SplitRule>, p: Params, first: nat)
    requires SplitEngine.ValidPack(rules) && SplitEngine.IsPlan(plan, gross, rules) && p.entity.hi <= 0xFFFF
    requires PaysOthers(plan.instantLegs) && Healthy(s, SplitEngine.LegSum(plan.instantLegs))
    requires Commits(s, Chain(plan.instantLegs, p, first))
    ensures var payer, s' := AccountOf(p, PAYER_CLEARING).id, Commit(s, Chain(plan.instantLegs, p, first));
      && payer in s.accounts && payer in s'.accounts
      && s'.accounts[payer].Balance() == s.accounts[payer].Balance() - gross + plan.clearingRemainder
      && SplitEngine.LegSum(plan.monthEndLegs) <= plan.clearingRemainder
  {
    var ts, payer := Chain(plan.instantLegs, p, first), AccountOf(p, PAYER_CLEARING).id;
    ChainShape(plan.instantLegs, p, first);
    assert ts[0].debit == payer;
    SplitEngine.PlanConserves(plan, gross, rules);
    SplitEngine.RemainderCoversMonthEnd(plan, gross, rules);
    hide Chain, Commit, Commits, SplitEngine.IsPlan, SplitEngine.ValidPack, SingleChain, PaysOthers, SplitEngine.LegSum, Volume;
    ChainCommitsIff(s, ts);
    CommittedEffect(s, ts);
    NothingTo(ts, payer);
    assert forall i :: 0 <= i < |ts| ==> ts[i].credit != payer;
  }

  /** A leg appended to a settlement chain leaves it a single chain with the same payer. */
  lemma {:induction false} ExtendedShape(ts: seq<Transfer>, t: Transfer)
    requires SingleChain(ts) && Settling(ts) && NoPassThrough(ts) && !t.pending
    requires t.debit != t.credit && forall i :: 0 <= i < |ts| ==> ts[i].debit != t.credit && t.debit != ts[i].credit
    ensures SingleChain(Extended(ts, t)) && Settling(Extended(ts, t)) && NoPassThrough(Extended(ts, t))
  {
    var n, all := |ts|, Extended(ts, t);
    assert all[n] == t.(linked := false) && all[n - 1] == ts[n - 1].(linked := true);
    assert forall i :: 0 <= i < n - 1 ==> all[i] == ts[i];
    hide Extended;
    assert forall i :: 0 <= i < n ==> all[i].debit == ts[i].debit && all[i].credit == ts[i].credit && !all[i].pending;
  }
}
