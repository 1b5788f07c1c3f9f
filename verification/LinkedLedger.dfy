/** The linked-chain ledger of `ledger/splits/fake.go`: a batch is staged, failures cascade through
    linked chains, and only transfers outside failed chains are applied. Amounts and account totals
    are 64-bit words that wrap around. */
module LinkedLedger {
  import opened Sums

  const TWO_64: nat := 0x1_0000_0000_0000_0000

  function Add64(x: nat, y: nat): nat { (x + y) % TWO_64 }

  function Sub64(x: nat, y: nat): nat { (x - y) % TWO_64 }

  /** Two 64-bit limbs. */
  datatype Uint128 = Uint128(lo: bv64, hi: bv64)

  type AccountId = Uint128

  /** A transfer ID is zero, a hash, represented by the text that is hashed (the hash is taken to be
      collision free and never zero), or drawn from the process-wide counter. */
  datatype TransferId = ZeroId | Hashed(text: string) | Minted(n: nat)

  datatype Transfer = Transfer(
    id: TransferId, debit: AccountId, credit: AccountId, amount: nat,
    ledger: nat, code: nat, linked: bool, pending: bool, userData: TransferId)

  datatype Account = Account(debitsPosted: nat, creditsPosted: nat, debitsPending: nat, creditsPending: nat) {
    function Balance(): int { creditsPosted - debitsPosted }
  }

  datatype State = State(accounts: map<AccountId, Account>, transfers: map<TransferId, Transfer>)

  datatype Code =
    | OK | Exists | ZeroAmount | AccountNotFound | AccountsAreSame | Overdraft | LinkedEventChainOpen | LinkedEventFailed

  datatype TransferResult = TransferResult(index: nat, code: Code)

  // ---------------------------------------------------------------------------
  // Validation against staged totals
  // ---------------------------------------------------------------------------

  /** What the accepted transfers among the first `|codes|` debit from `a`. */
  function DebitSum(ts: seq<Transfer>, codes: seq<Code>, a: AccountId): nat
    requires |codes| <= |ts|
  {
    if codes == [] then 0
    else
      var n := |codes| - 1;
      DebitSum(ts, codes[..n], a) + (if codes[n] == OK && ts[n].debit == a then ts[n].amount else 0)
  }

  function CreditSum(ts: seq<Transfer>, codes: seq<Code>, a: AccountId): nat
    requires |codes| <= |ts|
  {
    if codes == [] then 0
    else
      var n := |codes| - 1;
      CreditSum(ts, codes[..n], a) + (if codes[n] == OK && ts[n].credit == a then ts[n].amount else 0)
  }

  /** What the overdraft test compares the amount with. */
  function Available(account: Account, stagedCredit: nat, stagedDebit: nat): nat {
    Sub64(Add64(account.creditsPosted, stagedCredit), Add64(account.debitsPosted, stagedDebit))
  }

  function Validate(s: State, t: Transfer, stagedCredit: nat, stagedDebit: nat): Code {
    if t.id == ZeroId then ZeroAmount
    else if t.amount == 0 then ZeroAmount
    else if t.debit == t.credit then AccountsAreSame
    else if t.id in s.transfers then Exists
    else if t.debit !in s.accounts || t.credit !in s.accounts then AccountNotFound
    else if t.amount > Available(s.accounts[t.debit], stagedCredit, stagedDebit) then Overdraft
    else OK
  }

  /** Codes of the first `n` transfers, each validated against what its predecessors staged. */
  function Staged(s: State, ts: seq<Transfer>, n: nat): (codes: seq<Code>)
    requires n <= |ts|
    ensures |codes| == n
  {
    if n == 0 then []
    else
      var before := Staged(s, ts, n - 1);
      var t := ts[n - 1];
      before + [Validate(s, t, CreditSum(ts, before, t.debit) % TWO_64, DebitSum(ts, before, t.debit) % TWO_64)]
  }

  /** A linked last transfer leaves its chain open. */
  function OwnCode(s: State, ts: seq<Transfer>, i: nat): Code
    requires i < |ts|
  {
    if ts[i].linked && i == |ts| - 1 then LinkedEventChainOpen else Staged(s, ts, |ts|)[i]
  }

  /** Transfers are in one chain when every transfer from the earlier up to the later is linked. */
  ghost predicate SameChain(ts: seq<Transfer>, i: nat, k: nat) {
    i < |ts| && k < |ts| && forall m :: (i <= m < k || k <= m < i) ==> ts[m].linked
  }

  ghost predicate ChainFails(s: State, ts: seq<Transfer>, i: nat) {
    exists k: nat :: k < |ts| && SameChain(ts, i, k) && OwnCode(s, ts, k) != OK
  }

  ghost function FinalCode(s: State, ts: seq<Transfer>, i: nat): Code
    requires i < |ts|
  {
    if OwnCode(s, ts, i) != OK then OwnCode(s, ts, i)
    else if ChainFails(s, ts, i) then LinkedEventFailed
    else OK
  }

  ghost function FinalCodes(s: State, ts: seq<Transfer>): seq<Code> {
    seq(|ts|, i requires 0 <= i < |ts| => FinalCode(s, ts, i))
  }

  // ---------------------------------------------------------------------------
  // Application
  // ---------------------------------------------------------------------------

  function ApplyTransfer(s: State, t: Transfer): State
    requires t.debit in s.accounts && t.credit in s.accounts
  {
    var dr := s.accounts[t.debit];
    var dr' := if t.pending then dr.(debitsPending := Add64(dr.debitsPending, t.amount))
               else dr.(debitsPosted := Add64(dr.debitsPosted, t.amount));
    var mid := s.accounts[t.debit := dr'];
    var cr := mid[t.credit];
    var cr' := if t.pending then cr.(creditsPending := Add64(cr.creditsPending, t.amount))
               else cr.(creditsPosted := Add64(cr.creditsPosted, t.amount));
    State(mid[t.credit := cr'], s.transfers[t.id := t])
  }

  ghost predicate Applicable(s: State, ts: seq<Transfer>, codes: seq<Code>) {
    |codes| <= |ts| && forall i :: 0 <= i < |codes| && codes[i] == OK ==> ts[i].debit in s.accounts && ts[i].credit in s.accounts
  }

  ghost function ApplyAll(s: State, ts: seq<Transfer>, codes: seq<Code>): (s': State)
    requires Applicable(s, ts, codes)
    ensures s'.accounts.Keys == s.accounts.Keys
    decreases |codes|
  {
    if codes == [] then s
    else
      var n := |codes| - 1;
      var before := ApplyAll(s, ts, codes[..n]);
      if codes[n] == OK then ApplyTransfer(before, ts[n]) else before
  }

  function Failures(codes: seq<Code>): seq<TransferResult> {
    if codes == [] then []
    else
      var n := |codes| - 1;
      if codes[n] == OK then Failures(codes[..n]) else Failures(codes[..n]) + [TransferResult(n, codes[n])]
  }

  lemma {:induction false} StagedPrefix(s: State, ts: seq<Transfer>, m: nat, n: nat)
    requires m <= n <= |ts|
    ensures Staged(s, ts, n)[..m] == Staged(s, ts, m)
    decreases n
  {
    hide Validate, CreditSum, DebitSum;
    if m < n {
      StagedPrefix(s, ts, m, n - 1);
      assert Staged(s, ts, n)[..m] == Staged(s, ts, n - 1)[..m];
    }
  }

  ghost function StagedDebit(s: State, ts: seq<Transfer>, i: nat, a: AccountId): nat
    requires i <= |ts|
  {
    DebitSum(ts, Staged(s, ts, i), a) % TWO_64
  }

  ghost function StagedCredit(s: State, ts: seq<Transfer>, i: nat, a: AccountId): nat
    requires i <= |ts|
  {
    CreditSum(ts, Staged(s, ts, i), a) % TWO_64
  }

  /** Transfer `i` is validated against what was staged before it. */
  ghost function StagedCode(s: State, ts: seq<Transfer>, i: nat): Code
    requires i < |ts|
  {
    Validate(s, ts[i], StagedCredit(s, ts, i, ts[i].debit), StagedDebit(s, ts, i, ts[i].debit))
  }

  lemma {:induction false} StagedAt(s: State, ts: seq<Transfer>, i: nat)
    requires i < |ts|
    ensures Staged(s, ts, |ts|)[i] == StagedCode(s, ts, i)
    ensures Staged(s, ts, i + 1) == Staged(s, ts, i) + [StagedCode(s, ts, i)]
  {
    StagedPrefix(s, ts, i + 1, |ts|);
    assert Staged(s, ts, |ts|)[..i + 1][i] == Staged(s, ts, i + 1)[i];
  }

  lemma {:induction false} SumsStep(ts: seq<Transfer>, codes: seq<Code>, c: Code, a: AccountId)
    requires |codes| < |ts|
    ensures DebitSum(ts, codes + [c], a) ==
      DebitSum(ts, codes, a) + (if c == OK && ts[|codes|].debit == a then ts[|codes|].amount else 0)
    ensures CreditSum(ts, codes + [c], a) ==
      CreditSum(ts, codes, a) + (if c == OK && ts[|codes|].credit == a then ts[|codes|].amount else 0)
  {
    assert (codes + [c])[..|codes|] == codes;
  }

  lemma {:induction false} FinalApplicable(s: State, ts: seq<Transfer>, n: nat)
    requires n <= |ts|
    ensures Applicable(s, ts, FinalCodes(s, ts)[..n])
  {
    forall i | 0 <= i < n && FinalCodes(s, ts)[i] == OK ensures ts[i].debit in s.accounts && ts[i].credit in s.accounts {
      StagedAt(s, ts, i);
    }
  }

  /** The state after a batch. */
  ghost function Commit(s: State, ts: seq<Transfer>): State {
    FinalApplicable(s, ts, |ts|);
    ApplyAll(s, ts, FinalCodes(s, ts)[..|ts|])
  }

  lemma {:induction false} WrapAdd(x: nat, y: nat)
    ensures Add64(x % TWO_64, y) == (x + y) % TWO_64
  {
  }

  /** Staging one more transfer, on unwrapped sums and on wrapped words alike. */
  lemma {:induction false} StageStep(s: State, ts: seq<Transfer>, i: nat, a: AccountId)
    requires i < |ts|
    ensures var ok, t := StagedCode(s, ts, i) == OK, ts[i];
      var debits, credits := StagedDebit(s, ts, i, a), StagedCredit(s, ts, i, a);
      && StagedDebit(s, ts, i + 1, a) == (if ok && t.debit == a then Add64(debits, t.amount) else debits)
      && StagedCredit(s, ts, i + 1, a) == (if ok && t.credit == a then Add64(credits, t.amount) else credits)
  {
    StagedAt(s, ts, i);
    SumsStep(ts, Staged(s, ts, i), StagedCode(s, ts, i), a);
    WrapAdd(DebitSum(ts, Staged(s, ts, i), a), ts[i].amount);
    WrapAdd(CreditSum(ts, Staged(s, ts, i), a), ts[i].amount);
  }

  /** The staged-total maps hold the wrapped sums of what the first `i` transfers staged. */
  ghost predicate StagedMaps(s: State, ts: seq<Transfer>, i: nat, debits: map<AccountId, nat>, credits: map<AccountId, nat>)
    requires i <= |ts|
  {
    && (forall a :: Get(debits, a) == StagedDebit(s, ts, i, a))
    && (forall a :: Get(credits, a) == StagedCredit(s, ts, i, a))
  }

  lemma {:induction false} StagedMapsStep(s: State, ts: seq<Transfer>, i: nat, debits: map<AccountId, nat>, credits: map<AccountId, nat>)
    requires i < |ts| && StagedMaps(s, ts, i, debits, credits)
    ensures var t := ts[i];
      var code := Validate(s, t, Get(credits, t.debit), Get(debits, t.debit));
      && code == Staged(s, ts, |ts|)[i]
      && (if code == OK then
            StagedMaps(s, ts, i + 1, debits[t.debit := Add64(Get(debits, t.debit), t.amount)],
                                     credits[t.credit := Add64(Get(credits, t.credit), t.amount)])
          else StagedMaps(s, ts, i + 1, debits, credits))
  {
    hide StagedDebit, StagedCredit, Add64, Validate;
    StagedAt(s, ts, i);
    var t, ok := ts[i], StagedCode(s, ts, i) == OK;
    var debits' := if ok then debits[t.debit := Add64(Get(debits, t.debit), t.amount)] else debits;
    var credits' := if ok then credits[t.credit := Add64(Get(credits, t.credit), t.amount)] else credits;
    forall a
      ensures Get(debits', a) == StagedDebit(s, ts, i + 1, a)
      ensures Get(credits', a) == StagedCredit(s, ts, i + 1, a)
    {
      StageStep(s, ts, i, a);
    }
  }

  /** Chain mates of a member of the chain that spans `first..last`. */
  lemma {:induction false} ChainSpan(ts: seq<Transfer>, first: nat, last: nat, k: nat, m: nat)
    requires first <= k <= last < |ts| && m < |ts|
    requires first == 0 || !ts[first - 1].linked
    requires forall x :: first <= x < last ==> ts[x].linked
    requires last == |ts| - 1 || !ts[last].linked
    ensures SameChain(ts, k, m) <==> first <= m <= last
  {
    if m < first {
      assert m <= first - 1 < k && !ts[first - 1].linked;
    } else if m > last {
      assert k <= last < m && !ts[last].linked;
    }
  }

  lemma {:induction false} ChainFailsWithin(s: State, ts: seq<Transfer>, first: nat, last: nat, k: nat)
    requires first <= k <= last < |ts|
    requires first == 0 || !ts[first - 1].linked
    requires forall x :: first <= x < last ==> ts[x].linked
    requires last == |ts| - 1 || !ts[last].linked
    ensures ChainFails(s, ts, k) <==> exists x: nat :: first <= x <= last && OwnCode(s, ts, x) != OK
  {
    hide OwnCode;
    forall m: nat | m < |ts| { ChainSpan(ts, first, last, k, m); }
    hide SameChain;
    if ChainFails(s, ts, k) {
      var x: nat :| x < |ts| && SameChain(ts, k, x) && OwnCode(s, ts, x) != OK;
      assert first <= x <= last;
    }
    if x: nat :| first <= x <= last && OwnCode(s, ts, x) != OK {
      assert SameChain(ts, k, x);
    }
  }

  // ---------------------------------------------------------------------------
  // The ledger, updated in place
  // ---------------------------------------------------------------------------

  class InMemoryLedger {
    var accounts: map<AccountId, Account>
    var transfer: map<TransferId, Transfer>
    var submitted: seq<seq<Transfer>>

    function Model(): State
      reads this
    {
      State(accounts, transfer)
    }

    constructor ()
      ensures Model() == State(map[], map[]) && submitted == []
    {
      accounts, transfer, submitted := map[], map[], [];
    }

    method CreateAccount(id: AccountId)
      modifies this`accounts
      ensures accounts == if id in old(accounts) then old(accounts) else old(accounts)[id := Account(0, 0, 0, 0)]
    {
      if id !in accounts {
        accounts := accounts[id := Account(0, 0, 0, 0)];
      }
    }

    /** The validation switch for one transfer. */
    method ValidateTransfer(t: Transfer, stagedCredit: nat, stagedDebit: nat) returns (code: Code)
      ensures code == Validate(Model(), t, stagedCredit, stagedDebit)
    {
      if t.id == ZeroId {
        return ZeroAmount;
      } else if t.amount == 0 {
        return ZeroAmount;
      } else if t.debit == t.credit {
        return AccountsAreSame;
      } else if t.id in transfer {
        return Exists;
      } else if t.debit !in accounts || t.credit !in accounts {
        return AccountNotFound;
      } else if t.amount > Available(accounts[t.debit], stagedCredit, stagedDebit) {
        return Overdraft;
      }
      return OK;
    }

    /** Stages the batch: one code a transfer, and the staged totals behind them. */
    method StageBatch(ts: seq<Transfer>) returns (codes: array<Code>)
      ensures fresh(codes) && codes.Length == |ts|
      ensures forall i :: 0 <= i < |ts| ==> codes[i] == OwnCode(Model(), ts, i)
    {
      ghost var s := Model();
      codes := new Code[|ts|];
      var debits: map<AccountId, nat> := map[];
      var credits: map<AccountId, nat> := map[];
      for i := 0 to |ts|
        invariant StagedMaps(s, ts, i, debits, credits)
        invariant forall k :: 0 <= k < i ==> codes[k] == OwnCode(s, ts, k)
      {
        var t := ts[i];
        var code := ValidateTransfer(t, Get(credits, t.debit), Get(debits, t.debit));
        StagedMapsStep(s, ts, i, debits, credits);
        if code == OK {
          debits := debits[t.debit := Add64(Get(debits, t.debit), t.amount)];
          credits := credits[t.credit := Add64(Get(credits, t.credit), t.amount)];
        }
        if t.linked && i == |ts| - 1 {
          code := LinkedEventChainOpen;
        }
        codes[i] := code;
      }
    }

    /** The cascade: a failure anywhere in a chain fails every member of it. */
    method CascadeFailures(ts: seq<Transfer>, codes: array<Code>)
      requires codes.Length == |ts|
      requires forall i :: 0 <= i < |ts| ==> codes[i] == OwnCode(Model(), ts, i)
      modifies codes
      ensures codes[..] == FinalCodes(Model(), ts)
    {
      hide OwnCode, ChainFails;
      ghost var s := Model();
      var i := 0;
      while i < |ts|
        invariant 0 <= i <= |ts| + 1
        invariant 0 < i <= |ts| ==> !ts[i - 1].linked
        invariant forall k :: 0 <= k < i && k < |ts| ==> codes[k] == FinalCode(s, ts, k)
        invariant forall k :: i <= k < |ts| ==> codes[k] == OwnCode(s, ts, k)
      {
        var j := i;
        while j < |ts| && ts[j].linked
          invariant i <= j <= |ts|
          invariant forall m :: i <= m < j ==> ts[m].linked
        {
          j := j + 1;
        }
        var last := if j < |ts| then j else |ts| - 1;
        var chainFailed := false;
        var k := i;
        while k <= last && !chainFailed
          invariant i <= k <= last + 1
          invariant !chainFailed ==> forall m :: i <= m < k ==> OwnCode(s, ts, m) == OK
          invariant chainFailed ==> exists m: nat :: i <= m <= last && OwnCode(s, ts, m) != OK
          decreases last - k, !chainFailed
        {
          if codes[k] != OK {
            chainFailed := true;
          } else {
            k := k + 1;
          }
        }
        forall x: nat | i <= x <= last
          ensures ChainFails(s, ts, x) == chainFailed
        {
          ChainFailsWithin(s, ts, i, last, x);
        }
        if chainFailed {
          k := i;
          while k <= last
            invariant i <= k <= last + 1
            invariant forall m :: 0 <= m < k ==> codes[m] == FinalCode(s, ts, m)
            invariant forall m :: k <= m < |ts| ==> codes[m] == OwnCode(s, ts, m)
          {
            if codes[k] == OK {
              codes[k] := LinkedEventFailed;
            }
            k := k + 1;
          }
        }
        i := j + 1;
      }
      assert codes[..] == FinalCodes(s, ts);
    }

    method Apply(t: Transfer)
      requires t.debit in accounts && t.credit in accounts
      modifies this`accounts, this`transfer
      ensures Model() == ApplyTransfer(old(Model()), t)
    {
      var dr := accounts[t.debit];
      if t.pending {
        accounts := accounts[t.debit := dr.(debitsPending := Add64(dr.debitsPending, t.amount))];
        var cr := accounts[t.credit];
        accounts := accounts[t.credit := cr.(creditsPending := Add64(cr.creditsPending, t.amount))];
      } else {
        accounts := accounts[t.debit := dr.(debitsPosted := Add64(dr.debitsPosted, t.amount))];
        var cr := accounts[t.credit];
        accounts := accounts[t.credit := cr.(creditsPosted := Add64(cr.creditsPosted, t.amount))];
      }
      transfer := transfer[t.id := t];
    }

    /** One batch: staged in full, cascaded, applied outside failed chains. Only failures are reported. */
    method CreateTransfers(ts: seq<Transfer>) returns (results: seq<TransferResult>)
      modifies this
      ensures Model() == Commit(old(Model()), ts)
      ensures results == Failures(FinalCodes(old(Model()), ts))
      ensures submitted == old(submitted) + [ts]
    {
      ghost var s := Model();
      submitted := submitted + [ts];
      var codes := StageBatch(ts);
      CascadeFailures(ts, codes);
      ghost var final := FinalCodes(s, ts);
      FinalApplicable(s, ts, |ts|);
      results := [];
      for i := 0 to |ts|
        invariant codes[..] == final && |final| == |ts|
        invariant Applicable(s, ts, final[..i]) && Model() == ApplyAll(s, ts, final[..i])
        invariant results == Failures(final[..i])
        invariant submitted == old(submitted) + [ts]
      {
        hide ApplyTransfer;
        FinalApplicable(s, ts, i + 1);
        assert final[..i + 1][..i] == final[..i] && final[..i + 1][i] == codes[i];
        if codes[i] != OK {
          results := results + [TransferResult(i, codes[i])];
        } else {
          Apply(ts[i]);
        }
      }
      assert final[..|ts|] == final;
    }
  }
}
