/** When a batch can overdraw an account or apply one ID twice, decided on the batch alone: a condition
    that rules it out in every state, and for each batch that breaks it a state in which it happens. */
module LinkedLedgerIsolation {
  import opened Sequences
  import opened LinkedLedger
  import opened LinkedLedgerLaws

  // ---------------------------------------------------------------------------
  // No transfer spends what another chain brings
  // ---------------------------------------------------------------------------

  /** The transfer has a chain mate next to it. */
  predicate HasMate(ts: seq<Transfer>, k: nat)
    requires k < |ts|
  {
    (ts[k].linked && k < |ts| - 1) || (k > 0 && ts[k - 1].linked)
  }

  /** Transfer `i` debits what an earlier transfer `k` of another chain with several members credits. */
  ghost predicate SpendsFrom(ts: seq<Transfer>, k: nat, i: nat) {
    k < i < |ts| && HasMate(ts, k) && !SameChain(ts, k, i) && ts[k].credit == ts[i].debit
  }

  ghost predicate Isolated(ts: seq<Transfer>) {
    forall k: nat, i: nat :: !SpendsFrom(ts, k, i)
  }

  lemma {:induction false} SingleChainIsolated(ts: seq<Transfer>)
    requires SingleChain(ts)
    ensures Isolated(ts)
  {
  }

  lemma {:induction false} UndoneHasMate(s: State, ts: seq<Transfer>, k: nat)
    requires k < |ts| - 1 && Undone(s, ts, k)
    ensures HasMate(ts, k)
  {
    var m: nat :| m < |ts| && SameChain(ts, k, m) && OwnCode(s, ts, m) != OK;
    if m < k { assert ts[k - 1].linked; }
  }

  lemma {:induction false} IsolatedBorrowsNothing(s: State, ts: seq<Transfer>)
    requires Isolated(ts)
    ensures NoBorrowedCredit(s, ts)
  {
    forall k: nat, i: nat | k < i < |ts| && FinalCodes(s, ts)[i] == OK && Undone(s, ts, k)
      ensures ts[k].credit != ts[i].debit
    {
      UndoneHasMate(s, ts, k);
      if SameChain(ts, k, i) { ChainsCommitWhole(s, ts, k, i); }
      assert !SpendsFrom(ts, k, i);
    }
  }

  /** Over every run of settling batches, each any mix of chains that spends from no other chain of its
      batch, no account's debits ever exceed its credits. */
  lemma {:induction false} RunStaysHealthy(s: State, batches: seq<seq<Transfer>>)
    requires forall i :: 0 <= i < |batches| ==> Isolated(batches[i]) && Settling(batches[i])
    requires Healthy(s, VolumeAll(batches))
    ensures Healthy(CommitAll(s, batches), 0)
    decreases |batches|
  {
    if batches != [] {
      TailAt(batches);
      IsolatedBorrowsNothing(s, batches[0]);
      BatchStaysHealthy(s, batches[0], VolumeAll(batches[1..]));
      RunStaysHealthy(Commit(s, batches[0]), batches[1..]);
    }
  }

  // ---------------------------------------------------------------------------
  // States in which a batch goes as far as it can
  // ---------------------------------------------------------------------------

  ghost predicate DistinctIds(ts: seq<Transfer>) {
    forall i, j :: 0 <= i < j < |ts| ==> ts[i].id != ts[j].id
  }

  /** No transfer is malformed in itself, and the last chain of the batch is closed. */
  ghost predicate WellFormed(ts: seq<Transfer>) {
    && (forall i :: 0 <= i < |ts| ==> ts[i].id != ZeroId && ts[i].amount > 0 && ts[i].debit != ts[i].credit)
    && (ts != [] ==> !ts[|ts| - 1].linked)
  }

  ghost function Parties(ts: seq<Transfer>): set<AccountId> {
    (set j | 0 <= j < |ts| :: ts[j].debit) + (set j | 0 <= j < |ts| :: ts[j].credit)
  }

  /** The accounts of the batch hold its whole volume, except that `a` holds `funds`; the IDs in `used` are taken. */
  ghost function Rigged(ts: seq<Transfer>, a: AccountId, funds: nat, used: set<TransferId>): State
    requires used != {} ==> ts != []
  {
    State(map x | x in Parties(ts) :: Account(0, if x == a then funds else Volume(ts), 0, 0),
          map id | id in used :: ts[0])
  }

  lemma {:induction false} RiggedHealthy(ts: seq<Transfer>, a: AccountId, funds: nat, used: set<TransferId>)
    requires (used != {} ==> ts != []) && funds <= Volume(ts) && 2 * Volume(ts) < TWO_64
    ensures Healthy(Rigged(ts, a, funds, used), Volume(ts))
  {
  }

  lemma {:induction false} StagedWithNext(ts: seq<Transfer>, codes: seq<Code>, a: AccountId)
    requires |codes| < |ts|
    ensures DebitSum(ts, codes, a) + ts[|codes|].amount <= Volume(ts)
    ensures CreditSum(ts, codes, a) <= Volume(ts)
  {
    var n := |codes|;
    SumsWithinVolume(ts, codes, a);
    SumsFit(ts, codes, a);
    VolumeOfPrefix(ts, n + 1);
    assert ts[..n + 1][..n] == ts[..n];
  }

  /** In a rigged state a well-formed transfer is staged unless its ID is taken or `a` runs out. */
  lemma {:induction false} RiggedCode(ts: seq<Transfer>, a: AccountId, funds: nat, used: set<TransferId>, n: nat)
    requires (used != {} ==> ts != []) && funds <= Volume(ts) && 2 * Volume(ts) < TWO_64
    requires n < |ts| && WellFormed(ts)
    ensures var s, t := Rigged(ts, a, funds, used), ts[n];
      && (t.id in used ==> StagedCode(s, ts, n) != OK)
      && (t.id !in used && t.debit != a ==> StagedCode(s, ts, n) == OK)
      && (t.id !in used && t.debit == a
          && DebitSum(ts, Staged(s, ts, n), a) + t.amount <= funds + CreditSum(ts, Staged(s, ts, n), a)
          ==> StagedCode(s, ts, n) == OK)
  {
    var s, t := Rigged(ts, a, funds, used), ts[n];
    var codes := Staged(s, ts, n);
    assert t.debit in s.accounts && t.credit in s.accounts;
    StagedWithNext(ts, codes, t.debit);
    var account, credit, debit := s.accounts[t.debit], CreditSum(ts, codes, t.debit), DebitSum(ts, codes, t.debit);
    hide DebitSum, CreditSum, Volume, Staged, Parties;
    if debit + t.amount <= account.creditsPosted + credit {
      AvailableExact(account, credit, debit);
    }
  }

  lemma {:induction false} DebitsAgree(ts: seq<Transfer>, one: seq<Code>, other: seq<Code>, a: AccountId)
    requires |one| == |other| <= |ts|
    requires forall j :: 0 <= j < |one| && ts[j].debit == a ==> (one[j] == OK <==> other[j] == OK)
    ensures DebitSum(ts, one, a) == DebitSum(ts, other, a)
    decreases |one|
  {
    if one != [] {
      DebitsAgree(ts, one[..|one| - 1], other[..|one| - 1], a);
    }
  }

  lemma {:induction false} SumsGrow(ts: seq<Transfer>, codes: seq<Code>, n: nat, a: AccountId)
    requires n <= |codes| <= |ts|
    ensures DebitSum(ts, codes[..n], a) <= DebitSum(ts, codes, a)
    ensures CreditSum(ts, codes[..n], a) <= CreditSum(ts, codes, a)
    decreases |codes|
  {
    if n == |codes| {
      assert codes[..n] == codes;
    } else {
      SumsGrow(ts, codes[..|codes| - 1], n, a);
      assert codes[..|codes| - 1][..n] == codes[..n];
    }
  }

  lemma {:induction false} SumsInclude(ts: seq<Transfer>, codes: seq<Code>, j: nat, a: AccountId)
    requires j < |codes| <= |ts| && codes[j] == OK
    ensures ts[j].debit == a ==> DebitSum(ts, codes, a) >= ts[j].amount
    ensures ts[j].credit == a ==> CreditSum(ts, codes, a) >= ts[j].amount
  {
    SumsGrow(ts, codes, j + 1, a);
    assert codes[..j + 1] == codes[..j] + [OK];
    SumsStep(ts, codes[..j], OK, a);
  }

  lemma {:induction false} NothingCredited(ts: seq<Transfer>, codes: seq<Code>, a: AccountId)
    requires |codes| <= |ts| && forall j :: 0 <= j < |codes| && codes[j] == OK ==> ts[j].credit != a
    ensures CreditSum(ts, codes, a) == 0
    decreases |codes|
  {
    if codes != [] { NothingCredited(ts, codes[..|codes| - 1], a); }
  }

  // ---------------------------------------------------------------------------
  // A batch that spends from another chain can overdraw
  // ---------------------------------------------------------------------------

  /** OK exactly on the chain of `i`. */
  ghost function ChainMask(ts: seq<Transfer>, i: nat): seq<Code> {
    seq(|ts|, j requires 0 <= j < |ts| => if SameChain(ts, i, j) then OK else Exists)
  }

  /** The IDs of everything but transfer `k` and the chain of `i`. */
  ghost function OtherIds(ts: seq<Transfer>, k: nat, i: nat): set<TransferId> {
    set j: nat | j < |ts| && j != k && !SameChain(ts, i, j) :: ts[j].id
  }

  /** What the chain of `i` takes from the account it spends, less what `k` lends it. */
  ghost function Shortage(ts: seq<Transfer>, k: nat, i: nat): nat
    requires k < |ts| && i < |ts|
  {
    var d := DebitSum(ts, ChainMask(ts, i), ts[i].debit);
    if d > ts[k].amount then d - ts[k].amount else 0
  }

  ghost function LendingState(ts: seq<Transfer>, k: nat, i: nat): State
    requires k < |ts| && i < |ts|
  {
    Rigged(ts, ts[i].debit, Shortage(ts, k, i), OtherIds(ts, k, i))
  }

  lemma {:induction false} ChainIsLater(ts: seq<Transfer>, k: nat, i: nat, j: nat)
    requires k < i < |ts| && !SameChain(ts, k, i) && SameChain(ts, i, j)
    ensures j > k
  {
  }

  ghost predicate Planned(ts: seq<Transfer>, k: nat, i: nat, j: nat) {
    j == k || SameChain(ts, i, j)
  }

  ghost predicate StagesPlan(ts: seq<Transfer>, k: nat, i: nat, codes: seq<Code>) {
    forall j: nat :: j < |codes| ==> (codes[j] == OK <==> Planned(ts, k, i, j))
  }

  /** Everything a batch needs for transfer `i` to overdraw with what `k` lends. */
  ghost predicate Lends(ts: seq<Transfer>, k: nat, i: nat) {
    SpendsFrom(ts, k, i) && WellFormed(ts) && DistinctIds(ts) && 2 * Volume(ts) < TWO_64
  }

  lemma {:induction false} PlannedDebits(ts: seq<Transfer>, k: nat, i: nat, codes: seq<Code>)
    requires SpendsFrom(ts, k, i) && WellFormed(ts) && |codes| <= |ts| && StagesPlan(ts, k, i, codes)
    ensures DebitSum(ts, codes, ts[i].debit) == DebitSum(ts, ChainMask(ts, i)[..|codes|], ts[i].debit)
  {
    var n, a, mask := |codes|, ts[i].debit, ChainMask(ts, i);
    assert ts[k].debit != a;
    hide SameChain, DebitSum;
    DebitsAgree(ts, codes, mask[..n], a);
  }

  /** The debits of the chain up to a member of it are among the chain's debits. */
  lemma {:induction false} ChainDebitsUpTo(ts: seq<Transfer>, i: nat, n: nat)
    requires i < |ts| && n < |ts| && SameChain(ts, i, n) && ts[n].debit == ts[i].debit
    ensures DebitSum(ts, ChainMask(ts, i)[..n], ts[i].debit) + ts[n].amount <= DebitSum(ts, ChainMask(ts, i), ts[i].debit)
  {
    var a, mask := ts[i].debit, ChainMask(ts, i);
    assert mask[..n + 1] == mask[..n] + [OK];
    hide DebitSum, SameChain, ChainMask;
    SumsStep(ts, mask[..n], OK, a);
    SumsGrow(ts, mask, n + 1, a);
  }

  /** The debits of the chain so far never exceed what `k` lends and the account holds. */
  lemma {:induction false} LoanCovers(ts: seq<Transfer>, k: nat, i: nat, codes: seq<Code>)
    requires SpendsFrom(ts, k, i) && WellFormed(ts) && |codes| < |ts| && StagesPlan(ts, k, i, codes)
    requires SameChain(ts, i, |codes|) && ts[|codes|].debit == ts[i].debit
    ensures DebitSum(ts, codes, ts[i].debit) + ts[|codes|].amount <= Shortage(ts, k, i) + CreditSum(ts, codes, ts[i].debit)
  {
    ChainIsLater(ts, k, i, |codes|);
    assert codes[k] == OK;
    PlannedDebits(ts, k, i, codes);
    hide DebitSum, CreditSum, SameChain, StagesPlan, WellFormed, ChainMask;
    SumsInclude(ts, codes, k, ts[i].debit);
    ChainDebitsUpTo(ts, i, |codes|);
  }

  lemma {:induction false} TakenIffUnplanned(ts: seq<Transfer>, k: nat, i: nat, m: nat)
    requires DistinctIds(ts) && m < |ts|
    ensures ts[m].id in OtherIds(ts, k, i) <==> !Planned(ts, k, i, m)
  {
    hide SameChain;
  }

  lemma {:induction false} ShortageFits(ts: seq<Transfer>, k: nat, i: nat)
    requires k < |ts| && i < |ts|
    ensures Shortage(ts, k, i) <= Volume(ts)
  {
    SumsFit(ts, ChainMask(ts, i), ts[i].debit);
  }

  lemma {:induction false} PlanStep(ts: seq<Transfer>, k: nat, i: nat, m: nat)
    requires Lends(ts, k, i) && m < |ts|
    requires StagesPlan(ts, k, i, Staged(LendingState(ts, k, i), ts, m))
    ensures StagedCode(LendingState(ts, k, i), ts, m) == OK <==> Planned(ts, k, i, m)
  {
    var s, a := LendingState(ts, k, i), ts[i].debit;
    ShortageFits(ts, k, i);
    RiggedCode(ts, a, Shortage(ts, k, i), OtherIds(ts, k, i), m);
    TakenIffUnplanned(ts, k, i, m);
    assert ts[k].debit != a;
    if SameChain(ts, i, m) && ts[m].debit == a { LoanCovers(ts, k, i, Staged(s, ts, m)); }
    hide SameChain, Staged, StagedCode, DebitSum, CreditSum, Volume, Rigged, OtherIds, Shortage, DistinctIds, StagesPlan;
  }

  lemma {:induction false} PlanExtends(ts: seq<Transfer>, k: nat, i: nat, codes: seq<Code>, c: Code)
    requires StagesPlan(ts, k, i, codes) && (c == OK <==> Planned(ts, k, i, |codes|))
    ensures StagesPlan(ts, k, i, codes + [c])
  {
    hide Planned;
  }

  /** In the lending state the first `n` transfers are staged as planned. */
  ghost predicate PlannedUpTo(ts: seq<Transfer>, k: nat, i: nat, n: nat) {
    k < |ts| && i < |ts| && n <= |ts| && StagesPlan(ts, k, i, Staged(LendingState(ts, k, i), ts, n))
  }

  lemma {:induction false} PlannedStart(ts: seq<Transfer>, k: nat, i: nat)
    requires Lends(ts, k, i)
    ensures PlannedUpTo(ts, k, i, 0)
  {
    assert Staged(LendingState(ts, k, i), ts, 0) == [];
  }

  lemma {:induction false} PlannedNext(ts: seq<Transfer>, k: nat, i: nat, n: nat)
    requires Lends(ts, k, i) && n < |ts| && PlannedUpTo(ts, k, i, n)
    ensures PlannedUpTo(ts, k, i, n + 1)
  {
    PlanStep(ts, k, i, n);
    hide Lends, LendingState, StagedCode, Staged, StagesPlan, Planned;
    StagedAt(LendingState(ts, k, i), ts, n);
    PlanExtends(ts, k, i, Staged(LendingState(ts, k, i), ts, n), StagedCode(LendingState(ts, k, i), ts, n));
  }

  lemma {:induction false} PlanIsStaged(ts: seq<Transfer>, k: nat, i: nat, n: nat)
    requires Lends(ts, k, i) && n <= |ts|
    ensures PlannedUpTo(ts, k, i, n)
    decreases n
  {
    hide *;
    if n == 0 {
      PlannedStart(ts, k, i);
    } else {
      PlanIsStaged(ts, k, i, n - 1);
      PlannedNext(ts, k, i, n - 1);
    }
  }

  /** The spender's chain applies: all its members are staged and it is closed. */
  lemma {:induction false} SpenderApplies(s: State, ts: seq<Transfer>, k: nat, i: nat, j: nat)
    requires i < |ts| && StagesPlan(ts, k, i, Staged(s, ts, |ts|)) && WellFormed(ts) && SameChain(ts, i, j)
    ensures FinalCodes(s, ts)[j] == OK
  {
    hide Staged;
    forall m: nat | m < |ts| && SameChain(ts, j, m) ensures OwnCode(s, ts, m) == OK {
      SameChainTransitive(ts, i, j, m);
      assert Planned(ts, k, i, m);
    }
    SameChainRefl(ts, j);
    hide OwnCode, SameChain;
  }

  /** The lender does not: it is staged, but a chain mate of it is not. */
  lemma {:induction false} LenderFails(s: State, ts: seq<Transfer>, k: nat, i: nat)
    requires SpendsFrom(ts, k, i) && StagesPlan(ts, k, i, Staged(s, ts, |ts|))
    ensures FinalCodes(s, ts)[k] != OK
  {
    hide Staged;
    var m := if ts[k].linked then k + 1 else k - 1;
    assert SameChain(ts, k, m);
    assert !Planned(ts, k, i, m) by {
      if SameChain(ts, i, m) {
        SameChainSym(ts, k, m);
        SameChainTransitive(ts, i, m, k);
        SameChainSym(ts, i, k);
      }
    }
    hide SameChain, Planned;
    assert OwnCode(s, ts, m) != OK;
    hide OwnCode;
  }

  /** Everything else is refused, its ID being taken. */
  lemma {:induction false} OthersFail(s: State, ts: seq<Transfer>, k: nat, i: nat, j: nat)
    requires StagesPlan(ts, k, i, Staged(s, ts, |ts|)) && j < |ts| && !Planned(ts, k, i, j)
    ensures FinalCodes(s, ts)[j] != OK
  {
    hide Staged, Planned, SameChain, ChainFails;
  }

  /** In the lending state exactly the chain of `i` applies: `k` is staged but its chain fails. */
  lemma {:induction false} OnlyTheSpenderApplies(ts: seq<Transfer>, k: nat, i: nat, j: nat)
    requires Lends(ts, k, i) && j < |ts|
    ensures FinalCodes(LendingState(ts, k, i), ts)[j] == OK <==> SameChain(ts, i, j)
  {
    var s := LendingState(ts, k, i);
    PlanIsStaged(ts, k, i, |ts|);
    assert !SameChain(ts, i, k) by {
      if SameChain(ts, i, k) { SameChainSym(ts, i, k); }
    }
    hide LendingState, Staged, SameChain, FinalCode, StagesPlan, WellFormed, DistinctIds, Volume;
    if SameChain(ts, i, j) {
      SpenderApplies(s, ts, k, i, j);
    } else if j == k {
      LenderFails(s, ts, k, i);
    } else {
      OthersFail(s, ts, k, i, j);
    }
  }

  lemma {:induction false} LendingStateHealthy(ts: seq<Transfer>, k: nat, i: nat)
    requires k < |ts| && i < |ts| && 2 * Volume(ts) < TWO_64
    ensures Healthy(LendingState(ts, k, i), Volume(ts)) && ts[i].debit in LendingState(ts, k, i).accounts
    ensures LendingState(ts, k, i).accounts[ts[i].debit] == Account(0, Shortage(ts, k, i), 0, 0)
  {
    ShortageFits(ts, k, i);
    RiggedHealthy(ts, ts[i].debit, Shortage(ts, k, i), OtherIds(ts, k, i));
    assert ts[i].debit in Parties(ts);
  }

  lemma {:induction false} SpenderTotals(ts: seq<Transfer>, codes: seq<Code>, k: nat, i: nat)
    requires SpendsFrom(ts, k, i) && WellFormed(ts) && |codes| == |ts|
    requires forall j: nat :: j < |ts| ==> (codes[j] == OK <==> SameChain(ts, i, j))
    requires forall j: nat :: SameChain(ts, i, j) ==> ts[j].credit != ts[i].debit
    ensures DebitSum(ts, codes, ts[i].debit) > Shortage(ts, k, i) && CreditSum(ts, codes, ts[i].debit) == 0
  {
    var a, mask := ts[i].debit, ChainMask(ts, i);
    SameChainRefl(ts, i);
    assert mask[i] == OK;
    DebitsAgree(ts, codes, mask, a);
    NothingCredited(ts, codes, a);
    SumsInclude(ts, mask, i, a);
  }

  /** The posted totals of an account after a batch whose final codes are given. */
  lemma {:induction false} CommitTotals(s: State, ts: seq<Transfer>, a: AccountId)
    requires Settling(ts) && Healthy(s, Volume(ts)) && a in s.accounts && WellFormed(ts)
    ensures a in Commit(s, ts).accounts && |FinalCodes(s, ts)| == |ts|
    ensures PostedIs(s, Commit(s, ts), a, DebitSum(ts, FinalCodes(s, ts), a), CreditSum(ts, FinalCodes(s, ts), a))
  {
    var codes := FinalCodes(s, ts);
    FinalApplicable(s, ts, |ts|);
    assert codes[..|ts|] == codes;
    hide FinalCodes, Healthy, Volume, DebitSum, CreditSum;
    PostedAfter(s, ts, codes, a);
  }

  /** A well-formed batch that spends from another chain overdraws in some healthy state, when the
      spending chain does not itself credit the account. */
  lemma {:induction false} SpendingOverdraws(ts: seq<Transfer>, k: nat, i: nat) returns (s: State)
    requires Lends(ts, k, i) && Settling(ts)
    requires forall j: nat :: SameChain(ts, i, j) ==> ts[j].credit != ts[i].debit
    ensures Healthy(s, Volume(ts)) && ts[i].debit in s.accounts && ts[i].debit in Commit(s, ts).accounts
    ensures var a := Commit(s, ts).accounts[ts[i].debit]; a.debitsPosted > a.creditsPosted
  {
    s := LendingState(ts, k, i);
    LendingStateHealthy(ts, k, i);
    hide LendingState, FinalCodes, Healthy, Shortage, DebitSum, CreditSum, Commit, Volume;
    CommitTotals(s, ts, ts[i].debit);
    forall j: nat | j < |ts| ensures FinalCodes(s, ts)[j] == OK <==> SameChain(ts, i, j) {
      OnlyTheSpenderApplies(ts, k, i, j);
    }
    hide SameChain;
    SpenderTotals(ts, FinalCodes(s, ts), k, i);
  }

  /** No chain credits an account that it debits. */
  ghost predicate OneSided(ts: seq<Transfer>) {
    forall i: nat, j: nat :: SameChain(ts, i, j) ==> ts[j].credit != ts[i].debit
  }

  /** The no-overdraft promise, decided on the batch: a well-formed settling batch whose chains are
      one-sided keeps every healthy state healthy if and only if no transfer debits what an earlier
      transfer of another chain with several members credits. */
  lemma {:induction false} NeverOverdrawsIff(ts: seq<Transfer>)
    requires WellFormed(ts) && DistinctIds(ts) && Settling(ts) && OneSided(ts) && 2 * Volume(ts) < TWO_64
    ensures Isolated(ts) <==> forall s :: Healthy(s, Volume(ts)) ==> Healthy(Commit(s, ts), 0)
  {
    if Isolated(ts) {
      forall s | Healthy(s, Volume(ts)) ensures Healthy(Commit(s, ts), 0) {
        IsolatedBorrowsNothing(s, ts);
        BatchStaysHealthy(s, ts, 0);
      }
    } else {
      var k: nat, i: nat :| SpendsFrom(ts, k, i);
      var s := SpendingOverdraws(ts, k, i);
      assert !Healthy(Commit(s, ts), 0);
    }
  }

  // ---------------------------------------------------------------------------
  // One ID twice in one batch
  // ---------------------------------------------------------------------------

  ghost predicate AppliesEachIdOnce(s: State, ts: seq<Transfer>) {
    forall i, j :: 0 <= i < j < |ts| && FinalCodes(s, ts)[i] == OK && FinalCodes(s, ts)[j] == OK ==> ts[i].id != ts[j].id
  }

  ghost function RichState(ts: seq<Transfer>): State
    requires ts != []
  {
    Rigged(ts, ts[0].debit, Volume(ts), {})
  }

  /** A closed batch that is staged whole applies whole. */
  lemma {:induction false} StagedWholeApplies(s: State, ts: seq<Transfer>, i: nat)
    requires i < |ts| && AllOk(Staged(s, ts, |ts|)) && !ts[|ts| - 1].linked
    ensures FinalCodes(s, ts)[i] == OK
  {
    hide Staged, SameChain;
    forall k: nat | k < |ts| ensures OwnCode(s, ts, k) == OK {}
    hide OwnCode;
  }

  lemma {:induction false} RichCode(ts: seq<Transfer>, n: nat)
    requires WellFormed(ts) && 2 * Volume(ts) < TWO_64 && n < |ts|
    ensures StagedCode(RichState(ts), ts, n) == OK
  {
    RiggedCode(ts, ts[0].debit, Volume(ts), {}, n);
    StagedWithNext(ts, Staged(RichState(ts), ts, n), ts[0].debit);
    hide Rigged, Volume, Staged, StagedCode, DebitSum, CreditSum, WellFormed;
  }

  lemma {:induction false} RichStagesAll(ts: seq<Transfer>, n: nat)
    requires ts != [] && WellFormed(ts) && 2 * Volume(ts) < TWO_64 && n <= |ts|
    ensures AllOk(Staged(RichState(ts), ts, n))
    decreases n
  {
    hide WellFormed, Volume, RichState, StagedCode;
    if n == 0 {
      assert Staged(RichState(ts), ts, 0) == [];
    } else {
      hide Staged;
      RichStagesAll(ts, n - 1);
      RichCode(ts, n - 1);
      StagedAt(RichState(ts), ts, n - 1);
    }
  }

  lemma {:induction false} RichCommitsAll(ts: seq<Transfer>, i: nat)
    requires ts != [] && WellFormed(ts) && 2 * Volume(ts) < TWO_64 && i < |ts|
    ensures FinalCodes(RichState(ts), ts)[i] == OK
  {
    RichStagesAll(ts, |ts|);
    hide RichState, Staged, FinalCode;
    StagedWholeApplies(RichState(ts), ts, i);
  }

  /** Uniqueness of IDs is checked against earlier batches only: a well-formed batch applies each ID at
      most once in every state if and only if its own IDs are distinct. */
  lemma {:induction false} AppliesOnceIff(ts: seq<Transfer>)
    requires WellFormed(ts) && 2 * Volume(ts) < TWO_64
    ensures DistinctIds(ts) <==> forall s :: AppliesEachIdOnce(s, ts)
  {
    if DistinctIds(ts) {
      forall s ensures AppliesEachIdOnce(s, ts) {}
    } else {
      var i, j :| 0 <= i < j < |ts| && ts[i].id == ts[j].id;
      RichCommitsAll(ts, i);
      RichCommitsAll(ts, j);
      assert !AppliesEachIdOnce(RichState(ts), ts);
    }
  }

  const PAYS_TWICE := Transfer(Minted(1), Uint128(1, 0), Uint128(2, 0), 10, 1, 101, false, false, ZeroId)

  ghost function TwoAccounts(): State {
    State(map[Uint128(1, 0) := Account(0, 20, 0, 0), Uint128(2, 0) := EMPTY_ACCOUNT], map[])
  }

  lemma {:induction false} TwiceStaged()
    ensures Staged(TwoAccounts(), [PAYS_TWICE, PAYS_TWICE], 2) == [OK, OK]
  {
    var s, ts := TwoAccounts(), [PAYS_TWICE, PAYS_TWICE];
    assert PAYS_TWICE.debit != PAYS_TWICE.credit;
    assert Staged(s, ts, 0) == [];
    assert Staged(s, ts, 1) == [OK];
    assert [OK][..0] == [];
  }

  lemma {:induction false} TwiceFinal()
    ensures FinalCodes(TwoAccounts(), [PAYS_TWICE, PAYS_TWICE]) == [OK, OK]
  {
    hide TwoAccounts, Staged, FinalCode;
    TwiceStaged();
    StagedWholeApplies(TwoAccounts(), [PAYS_TWICE, PAYS_TWICE], 0);
    StagedWholeApplies(TwoAccounts(), [PAYS_TWICE, PAYS_TWICE], 1);
  }

  /** Two transfers with one ID in one batch: both move their 10, under a single record. */
  lemma {:induction false} OneIdPaysTwice()
    ensures var s' := Commit(TwoAccounts(), [PAYS_TWICE, PAYS_TWICE]);
      && s'.transfers.Keys == {PAYS_TWICE.id}
      && Uint128(2, 0) in s'.accounts && s'.accounts[Uint128(2, 0)].Balance() == 20
  {
    var s, ts := TwoAccounts(), [PAYS_TWICE, PAYS_TWICE];
    TwiceFinal();
    FinalApplicable(s, ts, 2);
    assert PAYS_TWICE.debit != PAYS_TWICE.credit;
    var codes := [OK, OK];
    assert FinalCodes(s, ts)[..2] == codes && codes[..1] == [OK] && [OK][..0] == [];
    hide FinalCodes;
    var once := ApplyTransfer(s, PAYS_TWICE);
    assert ApplyAll(s, ts, []) == s;
    assert ApplyAll(s, ts, [OK]) == once;
    assert ApplyAll(s, ts, codes) == ApplyTransfer(once, PAYS_TWICE);
  }
}
