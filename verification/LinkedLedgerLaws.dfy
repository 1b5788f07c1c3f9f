/** What linked batches guarantee: chains commit whole, an open chain never does, and no account is
    overdrawn unless a batch spends credit that only a failed chain would have brought. */
module LinkedLedgerLaws {
  import opened Sequences
  import opened LinkedLedger

  // ---------------------------------------------------------------------------
  // Chains are atomic
  // ---------------------------------------------------------------------------

  lemma {:induction false} SameChainTransitive(ts: seq<Transfer>, i: nat, k: nat, m: nat)
    requires SameChain(ts, i, k) && SameChain(ts, k, m)
    ensures SameChain(ts, i, m)
  {
  }

  /** For any batch of any mix of chains, the applied transfers are a union of whole chains. */
  lemma {:induction false} ChainsCommitWhole(s: State, ts: seq<Transfer>, i: nat, k: nat)
    requires SameChain(ts, i, k)
    ensures FinalCodes(s, ts)[i] == OK <==> FinalCodes(s, ts)[k] == OK
  {
    hide OwnCode;
    forall m: nat | m < |ts|
      ensures SameChain(ts, i, m) <==> SameChain(ts, k, m)
    {
      if SameChain(ts, i, m) { SameChainTransitive(ts, k, i, m); }
      if SameChain(ts, k, m) { SameChainTransitive(ts, i, k, m); }
    }
    hide SameChain;
    assert ChainFails(s, ts, i) <==> ChainFails(s, ts, k);
    assert SameChain(ts, i, i) && SameChain(ts, k, k) && SameChain(ts, k, i) && SameChain(ts, i, k) by {
      assert SameChain(ts, i, k);
      SameChainRefl(ts, i);
      SameChainRefl(ts, k);
      SameChainSym(ts, i, k);
    }
  }

  lemma {:induction false} SameChainRefl(ts: seq<Transfer>, i: nat)
    requires i < |ts|
    ensures SameChain(ts, i, i)
  {
  }

  lemma {:induction false} SameChainSym(ts: seq<Transfer>, i: nat, k: nat)
    requires SameChain(ts, i, k)
    ensures SameChain(ts, k, i)
  {
  }

  /** A chain that the batch leaves open never applies. */
  lemma {:induction false} OpenChainNeverApplies(s: State, ts: seq<Transfer>, i: nat)
    requires ts != [] && ts[|ts| - 1].linked && SameChain(ts, i, |ts| - 1)
    ensures FinalCodes(s, ts)[i] != OK
  {
    ChainsCommitWhole(s, ts, i, |ts| - 1);
  }

  /** All transfers but the last are linked. */
  ghost predicate SingleChain(ts: seq<Transfer>) {
    ts != [] && forall i :: 0 <= i < |ts| ==> (ts[i].linked <==> i < |ts| - 1)
  }

  lemma {:induction false} ApplyNothing(s: State, ts: seq<Transfer>, codes: seq<Code>)
    requires Applicable(s, ts, codes)
    requires forall i :: 0 <= i < |codes| ==> codes[i] != OK
    ensures ApplyAll(s, ts, codes) == s
    decreases |codes|
  {
    if codes != [] { ApplyNothing(s, ts, codes[..|codes| - 1]); }
  }

  predicate AllOk(codes: seq<Code>) {
    forall i :: 0 <= i < |codes| ==> codes[i] == OK
  }

  lemma {:induction false} FailuresEmptyIff(codes: seq<Code>)
    ensures Failures(codes) == [] <==> AllOk(codes)
    decreases |codes|
  {
    if codes != [] {
      var n := |codes| - 1;
      FailuresEmptyIff(codes[..n]);
      assert forall i :: 0 <= i < n ==> codes[..n][i] == codes[i];
    }
  }

  lemma {:induction false} SingleChainCodes(s: State, ts: seq<Transfer>)
    requires SingleChain(ts)
    ensures forall i, k :: 0 <= i < |ts| && 0 <= k < |ts| ==> (FinalCodes(s, ts)[i] == OK <==> FinalCodes(s, ts)[k] == OK)
    ensures AllOk(Staged(s, ts, |ts|)) <==> AllOk(FinalCodes(s, ts))
  {
    forall i: nat, k: nat | i < |ts| && k < |ts|
      ensures FinalCodes(s, ts)[i] == OK <==> FinalCodes(s, ts)[k] == OK
    {
      assert SameChain(ts, i, k);
      ChainsCommitWhole(s, ts, i, k);
    }
    hide SameChain, Staged;
    assert forall i :: 0 <= i < |ts| ==> OwnCode(s, ts, i) == Staged(s, ts, |ts|)[i];
    hide OwnCode, SingleChain;
    assert forall i :: 0 <= i < |ts| && FinalCodes(s, ts)[i] == OK ==> OwnCode(s, ts, i) == OK;
    if AllOk(Staged(s, ts, |ts|)) {
      assert forall i :: 0 <= i < |ts| ==> OwnCode(s, ts, i) == OK;
      assert AllOk(FinalCodes(s, ts));
    }
    if AllOk(FinalCodes(s, ts)) {
      assert AllOk(Staged(s, ts, |ts|));
    }
  }

  /** A single-chain batch applies wholly and reports nothing, or changes nothing at all. */
  lemma {:induction false} SingleChainAllOrNothing(s: State, ts: seq<Transfer>)
    requires SingleChain(ts)
    ensures Failures(FinalCodes(s, ts)) == [] <==> AllOk(Staged(s, ts, |ts|))
    ensures Failures(FinalCodes(s, ts)) == [] <==> AllOk(FinalCodes(s, ts))
    ensures Failures(FinalCodes(s, ts)) != [] ==> Commit(s, ts) == s && forall i :: 0 <= i < |ts| ==> FinalCodes(s, ts)[i] != OK
  {
    SingleChainCodes(s, ts);
    hide FinalCode;
    var codes := FinalCodes(s, ts);
    assert codes[..|ts|] == codes;
    FailuresEmptyIff(codes);
    FinalApplicable(s, ts, |ts|);
    if Failures(codes) != [] {
      var bad :| 0 <= bad < |codes| && codes[bad] != OK;
      assert forall i :: 0 <= i < |ts| ==> (codes[i] == OK <==> codes[bad] == OK);
      ApplyNothing(s, ts, codes);
    }
  }

  lemma {:induction false} ApplyRecords(s: State, ts: seq<Transfer>, codes: seq<Code>)
    requires Applicable(s, ts, codes)
    ensures forall id :: id in ApplyAll(s, ts, codes).transfers <==>
      id in s.transfers || exists i :: 0 <= i < |codes| && codes[i] == OK && ts[i].id == id
    decreases |codes|
  {
    if codes != [] {
      var n := |codes| - 1;
      assert forall i :: 0 <= i < n ==> codes[..n][i] == codes[i];
      ApplyRecords(s, ts, codes[..n]);
    }
  }

  // ---------------------------------------------------------------------------
  // Totals after a batch
  // ---------------------------------------------------------------------------

  function Volume(ts: seq<Transfer>): nat {
    if ts == [] then 0 else Volume(ts[..|ts| - 1]) + ts[|ts| - 1].amount
  }

  ghost predicate Settling(ts: seq<Transfer>) {
    forall i :: 0 <= i < |ts| ==> !ts[i].pending
  }

  /** Debits never exceed credits, and `room` more kobo can be credited to any account before a word wraps. */
  ghost predicate Healthy(s: State, room: nat) {
    forall a :: a in s.accounts ==>
      s.accounts[a].debitsPosted <= s.accounts[a].creditsPosted && s.accounts[a].creditsPosted + room < TWO_64
  }

  lemma {:induction false} SumsWithinVolume(ts: seq<Transfer>, codes: seq<Code>, a: AccountId)
    requires |codes| <= |ts|
    ensures DebitSum(ts, codes, a) <= Volume(ts[..|codes|]) && CreditSum(ts, codes, a) <= Volume(ts[..|codes|])
    decreases |codes|
  {
    if codes != [] {
      var n := |codes| - 1;
      SumsWithinVolume(ts, codes[..n], a);
      assert ts[..n + 1][..n] == ts[..n];
    }
  }

  lemma {:induction false} VolumeAppend(ts: seq<Transfer>, t: Transfer)
    ensures Volume(ts + [t]) == Volume(ts) + t.amount
  {
    assert (ts + [t])[..|ts|] == ts;
  }

  lemma {:induction false} VolumeOfPrefix(ts: seq<Transfer>, n: nat)
    requires n <= |ts|
    ensures Volume(ts[..n]) <= Volume(ts)
    decreases |ts|
  {
    if n < |ts| {
      VolumeOfPrefix(ts[..|ts| - 1], n);
      assert ts[..|ts| - 1][..n] == ts[..n];
    } else {
      assert ts[..n] == ts;
    }
  }

  lemma {:induction false} SumsFit(ts: seq<Transfer>, codes: seq<Code>, a: AccountId)
    requires |codes| <= |ts|
    ensures DebitSum(ts, codes, a) <= Volume(ts) && CreditSum(ts, codes, a) <= Volume(ts)
  {
    SumsWithinVolume(ts, codes, a);
    VolumeOfPrefix(ts, |codes|);
  }

  lemma {:induction false} ApplyEffect(s: State, t: Transfer, a: AccountId)
    requires t.debit in s.accounts && t.credit in s.accounts && a in s.accounts && t.debit != t.credit && !t.pending
    ensures ApplyTransfer(s, t).accounts[a] == s.accounts[a].(
      debitsPosted := if t.debit == a then Add64(s.accounts[a].debitsPosted, t.amount) else s.accounts[a].debitsPosted,
      creditsPosted := if t.credit == a then Add64(s.accounts[a].creditsPosted, t.amount) else s.accounts[a].creditsPosted)
  {
  }

  ghost predicate PostedIs(s: State, s': State, a: AccountId, debits: nat, credits: nat)
    requires a in s.accounts && a in s'.accounts
  {
    s'.accounts[a] == s.accounts[a].(
      debitsPosted := s.accounts[a].debitsPosted + debits, creditsPosted := s.accounts[a].creditsPosted + credits)
  }

  lemma {:induction false} PostedStep(s: State, before: State, t: Transfer, a: AccountId, debits: nat, credits: nat, room: nat)
    requires Healthy(s, room) && debits + t.amount <= room && credits + t.amount <= room
    requires a in s.accounts && before.accounts.Keys == s.accounts.Keys
    requires t.debit in s.accounts && t.credit in s.accounts && t.debit != t.credit && !t.pending
    requires PostedIs(s, before, a, debits, credits)
    ensures PostedIs(s, ApplyTransfer(before, t), a,
      debits + (if t.debit == a then t.amount else 0), credits + (if t.credit == a then t.amount else 0))
  {
    ApplyEffect(before, t, a);
    hide ApplyTransfer;
  }

  /** Every applied transfer, and nothing else, shows in the posted totals. */
  lemma {:induction false} PostedAfter(s: State, ts: seq<Transfer>, codes: seq<Code>, a: AccountId)
    requires Applicable(s, ts, codes) && Settling(ts) && Healthy(s, Volume(ts)) && a in s.accounts
    requires forall i :: 0 <= i < |codes| && codes[i] == OK ==> ts[i].debit != ts[i].credit
    ensures PostedIs(s, ApplyAll(s, ts, codes), a, DebitSum(ts, codes, a), CreditSum(ts, codes, a))
    decreases |codes|
  {
    if codes != [] {
      hide ApplyTransfer;
      var n := |codes| - 1;
      assert forall i :: 0 <= i < n ==> codes[..n][i] == codes[i];
      PostedAfter(s, ts, codes[..n], a);
      if codes[n] == OK {
        SumsWithinVolume(ts, codes[..n], a);
        VolumeOfPrefix(ts, n + 1);
        assert ts[..n + 1][..n] == ts[..n];
        hide Healthy;
        PostedStep(s, ApplyAll(s, ts, codes[..n]), ts[n], a, DebitSum(ts, codes[..n], a), CreditSum(ts, codes[..n], a), Volume(ts));
      }
    }
  }

  // ---------------------------------------------------------------------------
  // Overdraft
  // ---------------------------------------------------------------------------

  lemma {:induction false} AvailableExact(account: Account, credit: nat, debit: nat)
    requires account.creditsPosted + credit < TWO_64
    requires account.debitsPosted + debit <= account.creditsPosted + credit
    ensures Available(account, credit % TWO_64, debit % TWO_64)
      == account.creditsPosted + credit - account.debitsPosted - debit
  {
    assert credit % TWO_64 == credit && debit % TWO_64 == debit;
  }

  /** A staged debit is covered by what was staged before it. */
  lemma {:induction false} StagedDebitCovered(s: State, ts: seq<Transfer>, n: nat)
    requires n < |ts| && Healthy(s, Volume(ts)) && ts[n].debit in s.accounts && StagedCode(s, ts, n) == OK
    requires var account, codes, a := s.accounts[ts[n].debit], Staged(s, ts, n), ts[n].debit;
      account.debitsPosted + DebitSum(ts, codes, a) <= account.creditsPosted + CreditSum(ts, codes, a)
    ensures var account, codes, a := s.accounts[ts[n].debit], Staged(s, ts, n), ts[n].debit;
      account.debitsPosted + DebitSum(ts, codes, a) + ts[n].amount <= account.creditsPosted + CreditSum(ts, codes, a)
  {
    var codes, a := Staged(s, ts, n), ts[n].debit;
    SumsFit(ts, codes, a);
    AvailableExact(s.accounts[a], CreditSum(ts, codes, a), DebitSum(ts, codes, a));
    hide Available, DebitSum, CreditSum, Volume, Staged;
  }

  /** Staging never takes an account below zero. */
  lemma {:induction false} StagedSolvent(s: State, ts: seq<Transfer>, n: nat, a: AccountId)
    requires n <= |ts| && Healthy(s, Volume(ts)) && a in s.accounts
    ensures s.accounts[a].debitsPosted + DebitSum(ts, Staged(s, ts, n), a)
      <= s.accounts[a].creditsPosted + CreditSum(ts, Staged(s, ts, n), a)
    decreases n
  {
    if n == 0 {
      assert Staged(s, ts, 0) == [];
    } else {
      StagedSolvent(s, ts, n - 1, a);
      StagedAt(s, ts, n - 1);
      SumsStep(ts, Staged(s, ts, n - 1), StagedCode(s, ts, n - 1), a);
      if StagedCode(s, ts, n - 1) == OK && ts[n - 1].debit == a {
        StagedDebitCovered(s, ts, n - 1);
      }
      hide Staged, StagedCode, DebitSum, CreditSum, Volume, Healthy;
    }
  }

  /** Transfer `k` was staged but its chain failed. */
  ghost predicate Undone(s: State, ts: seq<Transfer>, k: nat) {
    k < |ts| && FinalCodes(s, ts)[k] != OK && Staged(s, ts, |ts|)[k] == OK
  }

  /** No applied transfer debits an account that an earlier, staged but failed transfer would have credited. */
  ghost predicate NoBorrowedCredit(s: State, ts: seq<Transfer>) {
    forall k, i :: 0 <= k < i < |ts| && FinalCodes(s, ts)[i] == OK && Undone(s, ts, k) ==>
      ts[k].credit != ts[i].debit
  }

  /** Comparing the sums of an accepted set of transfers with those of a larger set. */
  lemma {:induction false} FewerSums(ts: seq<Transfer>, fewer: seq<Code>, more: seq<Code>, a: AccountId)
    requires |fewer| == |more| <= |ts|
    requires forall k :: 0 <= k < |fewer| && fewer[k] == OK ==> more[k] == OK
    ensures DebitSum(ts, fewer, a) <= DebitSum(ts, more, a)
    ensures (forall k :: 0 <= k < |fewer| && fewer[k] != OK && more[k] == OK ==> ts[k].credit != a) ==>
      CreditSum(ts, fewer, a) == CreditSum(ts, more, a)
    decreases |fewer|
  {
    if fewer != [] {
      var n := |fewer| - 1;
      assert forall k :: 0 <= k < n ==> fewer[..n][k] == fewer[k] && more[..n][k] == more[k];
      FewerSums(ts, fewer[..n], more[..n], a);
    }
  }

  lemma {:induction false} FinalIsStaged(s: State, ts: seq<Transfer>, i: nat)
    requires i < |ts| && FinalCodes(s, ts)[i] == OK
    ensures Staged(s, ts, |ts|)[i] == OK && StagedCode(s, ts, i) == OK
  {
    StagedAt(s, ts, i);
  }

  /** An applied debit was covered by applied transfers alone. */
  lemma {:induction false} AppliedDebitCovered(s: State, ts: seq<Transfer>, i: nat)
    requires i < |ts| && Healthy(s, Volume(ts)) && NoBorrowedCredit(s, ts) && FinalCodes(s, ts)[i] == OK
    requires ts[i].debit in s.accounts
    ensures var account, codes := s.accounts[ts[i].debit], FinalCodes(s, ts)[..i];
      account.debitsPosted + DebitSum(ts, codes, ts[i].debit) + ts[i].amount
        <= account.creditsPosted + CreditSum(ts, codes, ts[i].debit)
  {
    var a, final, staged := ts[i].debit, FinalCodes(s, ts)[..i], Staged(s, ts, i);
    FinalIsStaged(s, ts, i);
    StagedSolvent(s, ts, i, a);
    StagedDebitCovered(s, ts, i);
    hide Available, Validate, Volume, DebitSum, CreditSum, Healthy;
    StagedPrefix(s, ts, i, |ts|);
    forall k | 0 <= k < i
      ensures final[k] == OK ==> staged[k] == OK
      ensures final[k] != OK && staged[k] == OK ==> ts[k].credit != a
    {
      assert staged[k] == Staged(s, ts, |ts|)[..i][k];
      if final[k] == OK { FinalIsStaged(s, ts, k); }
      if final[k] != OK && staged[k] == OK { assert Undone(s, ts, k); }
    }
    FewerSums(ts, final, staged, a);
  }

  lemma {:induction false} FinalPrefix(s: State, ts: seq<Transfer>, n: nat)
    requires n < |ts|
    ensures |FinalCodes(s, ts)| == |ts| && FinalCodes(s, ts)[..n + 1] == FinalCodes(s, ts)[..n] + [FinalCodes(s, ts)[n]]
    ensures FinalCodes(s, ts)[n] == OK ==> ts[n].debit in s.accounts
  {
    if FinalCodes(s, ts)[n] == OK { FinalIsStaged(s, ts, n); }
    hide FinalCode;
  }

  lemma {:induction false} AppliedSolvent(s: State, ts: seq<Transfer>, n: nat, a: AccountId)
    requires n <= |ts| == |FinalCodes(s, ts)| && Healthy(s, Volume(ts)) && NoBorrowedCredit(s, ts) && a in s.accounts
    ensures s.accounts[a].debitsPosted + DebitSum(ts, FinalCodes(s, ts)[..n], a)
      <= s.accounts[a].creditsPosted + CreditSum(ts, FinalCodes(s, ts)[..n], a)
    decreases n
  {
    if n == 0 {
      assert FinalCodes(s, ts)[..0] == [];
    } else {
      AppliedSolvent(s, ts, n - 1, a);
      FinalPrefix(s, ts, n - 1);
      hide Volume, Healthy, NoBorrowedCredit, FinalCodes;
      SumsStep(ts, FinalCodes(s, ts)[..n - 1], FinalCodes(s, ts)[n - 1], a);
      hide DebitSum, CreditSum;
      if FinalCodes(s, ts)[n - 1] == OK && ts[n - 1].debit == a {
        AppliedDebitCovered(s, ts, n - 1);
      }
    }
  }

  /** A settling batch leaves every account's debits within its credits when what it applies borrows no
      credit from what failed. */
  lemma {:induction false} BatchStaysHealthy(s: State, ts: seq<Transfer>, room: nat)
    requires Settling(ts) && NoBorrowedCredit(s, ts) && Healthy(s, Volume(ts) + room)
    ensures Healthy(Commit(s, ts), room) && Commit(s, ts).accounts.Keys == s.accounts.Keys
  {
    FinalApplicable(s, ts, |ts|);
    var codes := FinalCodes(s, ts);
    assert codes[..|ts|] == codes;
    forall i | 0 <= i < |codes| && codes[i] == OK ensures ts[i].debit != ts[i].credit {
      StagedAt(s, ts, i);
    }
    forall a | a in s.accounts
      ensures var c := Commit(s, ts).accounts[a]; c.debitsPosted <= c.creditsPosted && c.creditsPosted + room < TWO_64
    {
      PostedAfter(s, ts, codes, a);
      AppliedSolvent(s, ts, |ts|, a);
      SumsFit(ts, codes, a);
    }
  }

  ghost function CommitAll(s: State, batches: seq<seq<Transfer>>): State
    decreases |batches|
  {
    if batches == [] then s else CommitAll(Commit(s, batches[0]), batches[1..])
  }

  function VolumeAll(batches: seq<seq<Transfer>>): nat {
    if batches == [] then 0 else Volume(batches[0]) + VolumeAll(batches[1..])
  }

  lemma {:induction false} SingleChainBorrowsNothing(s: State, ts: seq<Transfer>)
    requires SingleChain(ts)
    ensures NoBorrowedCredit(s, ts)
  {
    SingleChainAllOrNothing(s, ts);
  }

  // ---------------------------------------------------------------------------
  // A batch that borrows credit
  // ---------------------------------------------------------------------------

  const EMPTY_ACCOUNT := Account(0, 0, 0, 0)
  const FOUR_ACCOUNTS: map<AccountId, Account> := map[
    Uint128(1, 0) := EMPTY_ACCOUNT, Uint128(2, 0) := EMPTY_ACCOUNT,
    Uint128(3, 0) := EMPTY_ACCOUNT, Uint128(4, 0) := Account(0, 10, 0, 0)]
  const LENDS := Transfer(Minted(1), Uint128(4, 0), Uint128(1, 0), 10, 1, 101, true, false, ZeroId)
  const FAILS := Transfer(Minted(2), Uint128(4, 0), Uint128(2, 0), 100, 1, 101, false, false, ZeroId)
  const SPENDS := Transfer(Minted(3), Uint128(1, 0), Uint128(3, 0), 10, 1, 101, false, false, ZeroId)

  lemma {:induction false} BorrowedFirst()
    ensures Staged(State(FOUR_ACCOUNTS, map[]), [LENDS, FAILS, SPENDS], 2) == [OK, Overdraft]
  {
    var s, ts := State(FOUR_ACCOUNTS, map[]), [LENDS, FAILS, SPENDS];
    assert Staged(s, ts, 0) == [];
    assert Staged(s, ts, 1) == [OK];
    assert [OK][..0] == [];
  }

  lemma {:induction false} BorrowedSums()
    ensures var ts, codes := [LENDS, FAILS, SPENDS], [OK, Overdraft];
      CreditSum(ts, codes, SPENDS.debit) == 10 && DebitSum(ts, codes, SPENDS.debit) == 0
  {
    var ts := [LENDS, FAILS, SPENDS];
    assert LENDS.debit != SPENDS.debit && FAILS.debit != SPENDS.debit;
    assert DebitSum(ts, [], SPENDS.debit) == 0 && CreditSum(ts, [], SPENDS.debit) == 0;
    SumsStep(ts, [], OK, SPENDS.debit);
    SumsStep(ts, [OK], Overdraft, SPENDS.debit);
    hide DebitSum, CreditSum;
    assert [] + [OK] == [OK] && [OK] + [Overdraft] == [OK, Overdraft];
  }

  lemma {:induction false} BorrowedCodes()
    ensures var s, ts := State(FOUR_ACCOUNTS, map[]), [LENDS, FAILS, SPENDS];
      Staged(s, ts, 3) == [OK, Overdraft, OK] && FinalCodes(s, ts)[0] == LinkedEventFailed && FinalCodes(s, ts)[2] == OK
  {
    var s, ts := State(FOUR_ACCOUNTS, map[]), [LENDS, FAILS, SPENDS];
    BorrowedFirst();
    BorrowedSums();
    assert Staged(s, ts, 3) == [OK, Overdraft, OK];
    hide Staged, DebitSum, CreditSum, Validate;
    assert SameChain(ts, 0, 1) && OwnCode(s, ts, 1) == Overdraft;
    ChainFailsWithin(s, ts, 2, 2, 2);
  }

  /** Two chains in one batch: the first fails, yet the credit it staged still funds the second,
      which leaves account 1 with debits of 10 and no credits. */
  lemma {:induction false} BorrowedCreditOverdraws()
    ensures var s, ts := State(FOUR_ACCOUNTS, map[]), [LENDS, FAILS, SPENDS];
      Healthy(s, Volume(ts)) && Settling(ts) && Uint128(1, 0) in Commit(s, ts).accounts
      && Commit(s, ts).accounts[Uint128(1, 0)].Balance() == -10
  {
    var s, ts, a := State(FOUR_ACCOUNTS, map[]), [LENDS, FAILS, SPENDS], Uint128(1, 0);
    BorrowedCodes();
    VolumeAppend([], LENDS);
    VolumeAppend([LENDS], FAILS);
    VolumeAppend([LENDS, FAILS], SPENDS);
    assert [] + [LENDS] == [LENDS] && [LENDS] + [FAILS] == [LENDS, FAILS] && [LENDS, FAILS] + [SPENDS] == ts;
    FinalApplicable(s, ts, 3);
    var codes := FinalCodes(s, ts);
    assert codes[..3] == codes;
    PostedAfter(s, ts, codes, a);
    assert codes[..2][..1] == codes[..1];
    assert DebitSum(ts, codes[..1], a) == 0 && CreditSum(ts, codes[..1], a) == 0;
    assert DebitSum(ts, codes[..2], a) == 0 && CreditSum(ts, codes[..2], a) == 0;
  }
}
