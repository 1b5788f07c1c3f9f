/** What a batch reports: each transfer that did not apply, once, in order, under the first reason that can be
    read off the state and the batch. */
module LinkedLedgerReports {
  import opened LinkedLedger
  import opened LinkedLedgerLaws

  // ---------------------------------------------------------------------------
  // Which transfers
  // ---------------------------------------------------------------------------

  /** The report lists exactly the indices of codes that are not OK, in increasing order, with those codes. */
  lemma {:induction false} FailuresList(codes: seq<Code>)
    ensures var rs := Failures(codes);
      && (forall j :: 0 <= j < |rs| ==> rs[j].index < |codes| && rs[j].code == codes[rs[j].index] != OK)
      && (forall j, m :: 0 <= j < m < |rs| ==> rs[j].index < rs[m].index)
      && (forall i :: 0 <= i < |codes| && codes[i] != OK ==> TransferResult(i, codes[i]) in rs)
    decreases |codes|
  {
    if codes != [] {
      var n := |codes| - 1;
      FailuresList(codes[..n]);
      var before, rs := Failures(codes[..n]), Failures(codes);
      assert forall i :: 0 <= i < n ==> codes[..n][i] == codes[i];
      assert codes[n] != OK ==> rs == before + [TransferResult(n, codes[n])];
      assert forall j :: 0 <= j < |before| ==> rs[j] == before[j] && rs[j].index < n;
      assert codes[n] != OK ==> rs[|before|] == TransferResult(n, codes[n]);
    }
  }

  /** A transfer under an ID of its own is reported if and only if the ledger does not record it. */
  lemma {:induction false} ReportedIffNotApplied(s: State, ts: seq<Transfer>, i: nat)
    requires i < |ts| && ts[i].id !in s.transfers && forall k :: 0 <= k < |ts| && k != i ==> ts[k].id != ts[i].id
    ensures TransferResult(i, FinalCodes(s, ts)[i]) in Failures(FinalCodes(s, ts)) <==> ts[i].id !in Commit(s, ts).transfers
  {
    var codes := FinalCodes(s, ts);
    FinalApplicable(s, ts, |ts|);
    assert codes[..|ts|] == codes;
    FailuresList(codes);
    hide FinalCodes, Failures;
    ApplyRecords(s, ts, codes);
    hide ApplyAll;
  }

  // ---------------------------------------------------------------------------
  // Why
  // ---------------------------------------------------------------------------

  /** Held against what comes after it in the batch: applied, or refused for its chain mates only. */
  predicate Counts(c: Code) {
    c == OK || c == LinkedEventFailed
  }

  /** The first `n` transfers, those that count as OK. */
  ghost function Counted(s: State, ts: seq<Transfer>, n: nat): seq<Code>
    requires n <= |ts|
  {
    seq(n, k requires 0 <= k < n => if Counts(FinalCodes(s, ts)[k]) then OK else FinalCodes(s, ts)[k])
  }

  /** What the debited account of transfer `i` can pay when its turn comes: its balance and what the transfers before
      it that count bring and take. */
  ghost function AtHand(s: State, ts: seq<Transfer>, i: nat): int
    requires i < |ts| && ts[i].debit in s.accounts
  {
    var a := ts[i].debit;
    s.accounts[a].Balance() + CreditSum(ts, Counted(s, ts, i), a) - DebitSum(ts, Counted(s, ts, i), a)
  }

  /** What `code` says about transfer `i`. */
  ghost predicate Reason(s: State, ts: seq<Transfer>, i: nat, code: Code)
    requires i < |ts|
  {
    var t := ts[i];
    match code
    case LinkedEventChainOpen => t.linked && i == |ts| - 1
    case ZeroAmount => t.id == ZeroId || t.amount == 0
    case AccountsAreSame => t.debit == t.credit
    case Exists => t.id in s.transfers
    case AccountNotFound => t.debit !in s.accounts || t.credit !in s.accounts
    case Overdraft => t.debit in s.accounts && t.amount > AtHand(s, ts, i)
    case LinkedEventFailed => exists k: nat :: k < |ts| && SameChain(ts, i, k) && !Counts(FinalCodes(s, ts)[k])
    case OK => false
  }

  /** The order in which reasons are given. */
  function Precedence(c: Code): nat {
    match c
    case LinkedEventChainOpen => 0
    case ZeroAmount => 1
    case AccountsAreSame => 2
    case Exists => 3
    case AccountNotFound => 4
    case Overdraft => 5
    case LinkedEventFailed => 6
    case OK => 7
  }

  lemma {:induction false} FinalIs(s: State, ts: seq<Transfer>, i: nat)
    requires i < |ts|
    ensures var c := FinalCodes(s, ts)[i];
      && (Counts(c) <==> OwnCode(s, ts, i) == OK) && (!Counts(c) ==> c == OwnCode(s, ts, i))
      && (Counts(c) ==> (c == LinkedEventFailed <==> ChainFails(s, ts, i)))
      && OwnCode(s, ts, i) == (if ts[i].linked && i == |ts| - 1 then LinkedEventChainOpen else StagedCode(s, ts, i))
  {
    StagedAt(s, ts, i);
    hide ChainFails, Staged, StagedCredit, StagedDebit, Available;
  }

  /** The transfers that were staged are those that count. */
  lemma {:induction false} CountedAreStaged(s: State, ts: seq<Transfer>, n: nat)
    requires n < |ts|
    ensures Counted(s, ts, n) == Staged(s, ts, n)
  {
    StagedPrefix(s, ts, n, |ts|);
    forall k | 0 <= k < n ensures Counted(s, ts, n)[k] == Staged(s, ts, n)[k] {
      FinalIs(s, ts, k);
      StagedAt(s, ts, k);
      hide Staged, StagedCode, ChainFails, OwnCode, FinalCodes;
      assert Staged(s, ts, |ts|)[..n][k] == Staged(s, ts, |ts|)[k];
    }
  }

  /** On a healthy ledger the wrapped overdraft test is the exact one. */
  lemma {:induction false} StagedOverdraft(s: State, ts: seq<Transfer>, i: nat)
    requires i < |ts| && Healthy(s, Volume(ts)) && ts[i].debit in s.accounts
    ensures Available(s.accounts[ts[i].debit], StagedCredit(s, ts, i, ts[i].debit), StagedDebit(s, ts, i, ts[i].debit)) == AtHand(s, ts, i)
  {
    var a, codes := ts[i].debit, Staged(s, ts, i);
    CountedAreStaged(s, ts, i);
    StagedSolvent(s, ts, i, a);
    SumsFit(ts, codes, a);
    AvailableExact(s.accounts[a], CreditSum(ts, codes, a), DebitSum(ts, codes, a));
    hide Staged, Counted, DebitSum, CreditSum, Volume, Available;
  }

  lemma {:induction false} ChainReason(s: State, ts: seq<Transfer>, i: nat)
    requires i < |ts|
    ensures ChainFails(s, ts, i) <==> Reason(s, ts, i, LinkedEventFailed)
  {
    assert |FinalCodes(s, ts)| == |ts|;
    hide FinalCodes, OwnCode, SameChain;
    forall k: nat | k < |ts| ensures Counts(FinalCodes(s, ts)[k]) <==> OwnCode(s, ts, k) == OK {
      FinalIs(s, ts, k);
    }
  }

  lemma {:induction false} StagedReason(s: State, ts: seq<Transfer>, i: nat)
    requires i < |ts| && Healthy(s, Volume(ts))
    ensures var c := StagedCode(s, ts, i);
      && c != LinkedEventChainOpen && c != LinkedEventFailed
      && (c != OK ==> Reason(s, ts, i, c))
      && forall c' :: 0 < Precedence(c') < 6 && Precedence(c') < Precedence(c) ==> !Reason(s, ts, i, c')
  {
    if ts[i].debit in s.accounts { StagedOverdraft(s, ts, i); }
    hide Available, StagedCredit, StagedDebit, AtHand, Healthy, Volume, FinalCodes;
  }

  /** Every code a batch gives is the first reason, in the order of the validation switch, that holds of the transfer;
      a transfer is applied exactly when none does. */
  lemma {:induction false} CodeIsFirstReason(s: State, ts: seq<Transfer>, i: nat)
    requires i < |ts| && Healthy(s, Volume(ts))
    ensures var c := FinalCodes(s, ts)[i];
      && (c != OK ==> Reason(s, ts, i, c))
      && forall c' :: Precedence(c') < Precedence(c) ==> !Reason(s, ts, i, c')
  {
    StagedReason(s, ts, i);
    ChainReason(s, ts, i);
    FinalIs(s, ts, i);
    assert Reason(s, ts, i, LinkedEventChainOpen) <==> ts[i].linked && i == |ts| - 1;
    hide Reason, StagedCode, OwnCode, FinalCodes, ChainFails, Healthy, Volume;
    var c := FinalCodes(s, ts)[i];
    forall c' | Precedence(c') < Precedence(c) ensures !Reason(s, ts, i, c') {
      assert Precedence(c') == 0 ==> c' == LinkedEventChainOpen;
      assert Precedence(c') == 6 ==> c' == LinkedEventFailed;
    }
  }

  /** Entry `j` of a report names a transfer, by its place in the batch, and the first reason for which it did not apply. */
  lemma {:induction false} ReportIsExact(s: State, ts: seq<Transfer>, j: nat)
    requires Healthy(s, Volume(ts)) && j < |Failures(FinalCodes(s, ts))|
    ensures var r := Failures(FinalCodes(s, ts))[j];
      && r.index < |ts| && r.code != OK && Reason(s, ts, r.index, r.code)
      && forall c' :: Precedence(c') < Precedence(r.code) ==> !Reason(s, ts, r.index, c')
  {
    FailuresList(FinalCodes(s, ts));
    var r := Failures(FinalCodes(s, ts))[j];
    assert r.index < |FinalCodes(s, ts)| == |ts|;
    hide Failures, FinalCodes, Reason, Healthy, Volume;
    CodeIsFirstReason(s, ts, r.index);
  }

  // ---------------------------------------------------------------------------
  // What is moved
  // ---------------------------------------------------------------------------

  /** What the accepted transfers, the pending ones or the others, take from `a`. */
  function Taken(ts: seq<Transfer>, codes: seq<Code>, a: AccountId, pending: bool): nat
    requires |codes| <= |ts|
  {
    if codes == [] then 0
    else
      var n := |codes| - 1;
      Taken(ts, codes[..n], a, pending)
      + (if codes[n] == OK && ts[n].debit == a && ts[n].pending == pending then ts[n].amount else 0)
  }

  /** What they bring. */
  function Brought(ts: seq<Transfer>, codes: seq<Code>, a: AccountId, pending: bool): nat
    requires |codes| <= |ts|
  {
    if codes == [] then 0
    else
      var n := |codes| - 1;
      Brought(ts, codes[..n], a, pending)
      + (if codes[n] == OK && ts[n].credit == a && ts[n].pending == pending then ts[n].amount else 0)
  }

  ghost predicate Words(s: State) {
    forall a :: a in s.accounts ==>
      var x := s.accounts[a];
      x.debitsPosted < TWO_64 && x.creditsPosted < TWO_64 && x.debitsPending < TWO_64 && x.creditsPending < TWO_64
  }

  function Wrapped(x: nat): nat { x % TWO_64 }

  /** An account whose posted and pending totals have grown on both sides. */
  function Totals(x: Account, taken: nat, brought: nat, reserved: nat, expected: nat): Account {
    Account(Wrapped(x.debitsPosted + taken), Wrapped(x.creditsPosted + brought),
            Wrapped(x.debitsPending + reserved), Wrapped(x.creditsPending + expected))
  }

  lemma {:induction false} WrappedAdd(x: nat, y: nat)
    ensures Add64(Wrapped(x), y) == Wrapped(x + y)
    ensures x < TWO_64 ==> Wrapped(x) == x
  {
  }

  /** One applied transfer adds its amount to the totals of its kind, and to no other. */
  lemma {:induction false} ApplyTotals(s: State, t: Transfer, a: AccountId, x: Account, taken: nat, brought: nat, reserved: nat, expected: nat)
    requires t.debit in s.accounts && t.credit in s.accounts && a in s.accounts
    requires s.accounts[a] == Totals(x, taken, brought, reserved, expected)
    ensures ApplyTransfer(s, t).accounts[a] == Totals(x,
      taken + (if t.debit == a && !t.pending then t.amount else 0), brought + (if t.credit == a && !t.pending then t.amount else 0),
      reserved + (if t.debit == a && t.pending then t.amount else 0), expected + (if t.credit == a && t.pending then t.amount else 0))
  {
    if t.pending {
      WrappedAdd(x.debitsPending + reserved, t.amount);
      WrappedAdd(x.creditsPending + expected, t.amount);
      hide Wrapped, Add64;
    } else {
      WrappedAdd(x.debitsPosted + taken, t.amount);
      WrappedAdd(x.creditsPosted + brought, t.amount);
      hide Wrapped, Add64;
    }
  }

  /** What a batch with these codes makes of an account that was `x`. */
  function MovedAccount(x: Account, ts: seq<Transfer>, codes: seq<Code>, a: AccountId): Account
    requires |codes| <= |ts|
  {
    Totals(x, Taken(ts, codes, a, false), Brought(ts, codes, a, false), Taken(ts, codes, a, true), Brought(ts, codes, a, true))
  }

  lemma {:induction false} MovedNext(before: State, x: Account, ts: seq<Transfer>, codes: seq<Code>, a: AccountId)
    requires |codes| <= |ts| && codes != [] && a in before.accounts
    requires before.accounts[a] == MovedAccount(x, ts, codes[..|codes| - 1], a)
    requires codes[|codes| - 1] == OK ==> ts[|codes| - 1].debit in before.accounts && ts[|codes| - 1].credit in before.accounts
    ensures codes[|codes| - 1] == OK ==> ApplyTransfer(before, ts[|codes| - 1]).accounts[a] == MovedAccount(x, ts, codes, a)
    ensures codes[|codes| - 1] != OK ==> before.accounts[a] == MovedAccount(x, ts, codes, a)
  {
    var n := |codes| - 1;
    hide Totals, Taken, Brought, ApplyTransfer;
    MovedStep(ts, codes, a, false);
    MovedStep(ts, codes, a, true);
    if codes[n] == OK {
      ApplyTotals(before, ts[n], a, x, Taken(ts, codes[..n], a, false), Brought(ts, codes[..n], a, false),
                  Taken(ts, codes[..n], a, true), Brought(ts, codes[..n], a, true));
    }
  }

  lemma {:induction false} ApplyLast(s: State, ts: seq<Transfer>, codes: seq<Code>)
    requires Applicable(s, ts, codes) && codes != []
    ensures var n := |codes| - 1;
      && Applicable(s, ts, codes[..n])
      && (codes[n] != OK ==> ApplyAll(s, ts, codes) == ApplyAll(s, ts, codes[..n]))
      && (codes[n] == OK ==> ts[n].debit in s.accounts && ts[n].credit in s.accounts
                             && ApplyAll(s, ts, codes) == ApplyTransfer(ApplyAll(s, ts, codes[..n]), ts[n]))
  {
  }

  lemma {:induction false} NothingMoved(s: State, ts: seq<Transfer>, a: AccountId)
    requires Words(s) && a in s.accounts
    ensures s.accounts[a] == Totals(s.accounts[a], Taken(ts, [], a, false), Brought(ts, [], a, false), Taken(ts, [], a, true), Brought(ts, [], a, true))
  {
    var x := s.accounts[a];
    WrappedAdd(x.debitsPosted, 0);
    WrappedAdd(x.creditsPosted, 0);
    WrappedAdd(x.debitsPending, 0);
    WrappedAdd(x.creditsPending, 0);
  }

  lemma {:induction false} MovedStep(ts: seq<Transfer>, codes: seq<Code>, a: AccountId, pending: bool)
    requires |codes| <= |ts| && codes != []
    ensures var n := |codes| - 1;
      var counts := codes[n] == OK && ts[n].pending == pending;
      && Taken(ts, codes, a, pending) == Taken(ts, codes[..n], a, pending) + (if counts && ts[n].debit == a then ts[n].amount else 0)
      && Brought(ts, codes, a, pending) == Brought(ts, codes[..n], a, pending) + (if counts && ts[n].credit == a then ts[n].amount else 0)
  {
  }

  lemma {:induction false} ApplyAllTotals(s: State, ts: seq<Transfer>, codes: seq<Code>, a: AccountId)
    requires Applicable(s, ts, codes) && Words(s) && a in s.accounts
    ensures ApplyAll(s, ts, codes).accounts[a] == MovedAccount(s.accounts[a], ts, codes, a)
    decreases |codes|
  {
    if codes == [] {
      NothingMoved(s, ts, a);
      ApplyNothing(s, ts, codes);
    } else {
      ApplyLast(s, ts, codes);
      hide Words, ApplyTransfer, MovedAccount, ApplyAll, Applicable;
      ApplyAllTotals(s, ts, codes[..|codes| - 1], a);
      MovedNext(ApplyAll(s, ts, codes[..|codes| - 1]), s.accounts[a], ts, codes, a);
    }
  }

  /** For any batch, pending transfers and others alike: each account's posted and pending totals grow by exactly the
      applied transfers of their kind, wrapping at 64 bits, and no account appears or disappears. */
  lemma {:induction false} BatchTotals(s: State, ts: seq<Transfer>, a: AccountId)
    requires Words(s) && a in s.accounts
    ensures var codes, s' := FinalCodes(s, ts), Commit(s, ts);
      && s'.accounts.Keys == s.accounts.Keys
      && s'.accounts[a] == MovedAccount(s.accounts[a], ts, codes, a)
  {
    var codes := FinalCodes(s, ts);
    FinalApplicable(s, ts, |ts|);
    assert codes[..|ts|] == codes;
    hide FinalCodes, Words, MovedAccount;
    ApplyAllTotals(s, ts, codes, a);
    hide ApplyAll;
  }
}
