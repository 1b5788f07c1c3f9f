/** The end-of-month sweep of `ledger/fundsflow/eom_sweep.py`: a second client of the transfer ledger
    that must give the same balances however often it is stopped and run again. `budget` counts the
    durable operations (client calls and the store write) the process still performs before it dies. */
module EomSweep {
  import opened Sequences
  import opened Sums
  import opened TransferLedger
  import opened TransferLedgerLaws

  datatype SweepPlan = SweepPlan(runKey: string, clearing: Account, legs: seq<Leg>, crf: Account) {
    function Chain(): seq<Transfer> { HoldChain(runKey, clearing, legs) }

    function RemainderLeg(amount: int): Transfer {
      Transfer(DeterministicTransferId(runKey, "clearing_remainder|crf"), clearing, crf, amount,
               false, false, runKey, "clearing_remainder|crf", PENDING)
    }
  }

  datatype Report = Report(swept: int, remainder: int)

  datatype Stored = NoReport | Completed(report: Report)

  /** What survives a crash: the ledger and the store entry of this run key. */
  datatype Books = Books(ledger: Ledger, stored: Stored)

  datatype Ending = Replayed | Refused | Finished | Died

  datatype Sweep = Sweep(books: Books, ending: Ending)

  function RunSweep(b: Books, p: SweepPlan, budget: nat): Sweep {
    if b.stored.Completed? then Sweep(b, Replayed)
    else if !Reversible(p.legs) then Sweep(b, Refused)
    else if budget == 0 then Sweep(b, Died)
    else
      var c := Create(b.ledger, p.Chain(), "");
      if !c.ok then Sweep(b.(ledger := c.ledger), Refused)
      else if budget == 1 then Sweep(b.(ledger := c.ledger), Died)
      else
        var o := Post(c.ledger, Ids(c.created), false);
        if !o.ok then Sweep(b.(ledger := o.ledger), Refused)
        else Reconcile(b.(ledger := o.ledger), p, Amounts(c.created), budget - 2)
  }

  /** Step 2: what is left in clearing moves to the revenue fund; then the run is recorded. */
  function Reconcile(b: Books, p: SweepPlan, swept: int, budget: nat): Sweep {
    var remainder := Bal(b.ledger, p.clearing);
    if remainder < 0 then Sweep(b, Refused)
    else if remainder == 0 then Record(b, p, Report(swept, 0), budget)
    else if budget == 0 then Sweep(b, Died)
    else
      var r := Create(b.ledger, [p.RemainderLeg(remainder)], "");
      if !r.ok then Sweep(b.(ledger := r.ledger), Refused)
      else Record(b.(ledger := r.ledger), p, Report(swept, remainder), budget - 1)
  }

  function Record(b: Books, p: SweepPlan, report: Report, budget: nat): Sweep {
    if Bal(b.ledger, p.clearing) != 0 then Sweep(b, Refused)
    else if budget == 0 then Sweep(b, Died)
    else Sweep(b.(stored := Completed(report)), Finished)
  }

  class EomSweeper {
    const client: InMemoryTBClient
    var stored: Stored

    constructor (client: InMemoryTBClient)
      ensures this.client == client && stored == NoReport
    {
      this.client := client;
      stored := NoReport;
    }

    function Model(): Books
      reads this, client
    {
      Books(client.Model(), stored)
    }

    /** One run, in the order of the source. The client's failure hooks are off. */
    method RunEomSweep(p: SweepPlan, budget: nat) returns (ending: Ending)
      requires client.failOnLeg == "" && !client.failOnPost
      modifies this, client
      ensures Sweep(Model(), ending) == RunSweep(old(Model()), p, budget)
      ensures client.failOnLeg == "" && !client.failOnPost
    {
      if stored.Completed? {
        return Replayed;
      }
      if p.legs == [] {
        return Refused;
      }
      for i := 0 to |p.legs|
        invariant forall j :: 0 <= j < i ==> p.legs[j].amount > 0
      {
        if p.legs[i].amount <= 0 {
          return Refused;
        }
      }
      if budget == 0 {
        return Died;
      }
      var chain := BuildHoldChain(p.runKey, p.clearing, p.legs);
      var ok, created := client.CreateTransfers(chain);
      if !ok {
        return Refused;
      }
      if budget == 1 {
        return Died;
      }
      ok := client.PostPendingTransfers(Ids(created));
      if !ok {
        return Refused;
      }
      var sweptTotal := Amounts(created);
      var left := budget - 2;
      var remainder := Get(client.balances, p.clearing);
      if remainder != 0 {
        if remainder < 0 {
          return Refused;
        }
        if left == 0 {
          return Died;
        }
        var sent;
        ok, sent := client.CreateTransfers([p.RemainderLeg(remainder)]);
        if !ok {
          return Refused;
        }
        left := left - 1;
      }
      if Get(client.balances, p.clearing) != 0 {
        return Refused;
      }
      if left == 0 {
        return Died;
      }
      stored := Completed(Report(sweptTotal, remainder));
      return Finished;
    }
  }

  // ---------------------------------------------------------------------------
  // The effect of an uninterrupted sweep
  // ---------------------------------------------------------------------------

  ghost predicate FreshRun(l: Ledger, p: SweepPlan) {
    && DistinctIds(p.Chain()) && Absent(l, p.Chain())
    && p.RemainderLeg(0).id !in l.transfers
    && forall i :: 0 <= i < |p.legs| ==> p.Chain()[i].id != p.RemainderLeg(0).id
  }

  /** Clearing can cover every leg, and the fund is another account. */
  ghost predicate Ready(l: Ledger, p: SweepPlan) {
    && FreshRun(l, p) && Reversible(p.legs)
    && LegTotal(p.legs) <= Bal(l, p.clearing) - Held(l, p.clearing)
    && p.crf != p.clearing
    && Held(l, p.clearing) >= 0
  }

  ghost function HeldLedger(l: Ledger, p: SweepPlan): Ledger { Create(l, p.Chain(), "").ledger }

  ghost function PostedLedger(l: Ledger, p: SweepPlan): Ledger {
    Post(HeldLedger(l, p), Ids(p.Chain()), false).ledger
  }

  ghost function SweptLedger(l: Ledger, p: SweepPlan): Ledger {
    var l2 := PostedLedger(l, p);
    if Bal(l2, p.clearing) == 0 then l2 else Create(l2, [p.RemainderLeg(Bal(l2, p.clearing))], "").ledger
  }

  /** What the legs leave in clearing. */
  function Remainder(l: Ledger, p: SweepPlan): int {
    Bal(l, p.clearing) + Deltas(p.Chain(), p.clearing)
  }

  lemma {:induction false} DebitedAmounts(ts: seq<Transfer>, a: Account)
    requires forall i :: 0 <= i < |ts| ==> ts[i].debit == a && ts[i].amount > 0
    ensures Deltas(ts, a) >= -Amounts(ts) && Reserves(ts, a) == Amounts(ts)
  {
    if ts != [] {
      TailAt(ts);
      DebitedAmounts(ts[1..], a);
    }
  }

  lemma {:induction false} HoldStage(l: Ledger, p: SweepPlan)
    requires Ready(l, p)
    ensures Create(l, p.Chain(), "").ok && Create(l, p.Chain(), "").created == p.Chain()
    ensures HeldLedger(l, p).transfers == Store(l.transfers, p.Chain())
    ensures forall a :: Bal(HeldLedger(l, p), a) == Bal(l, a)
    ensures forall a :: Held(HeldLedger(l, p), a) == Held(l, a) + Reserves(p.Chain(), a)
  {
    HoldChainOkIff(l, p.runKey, p.clearing, p.legs, "");
    var k := CreateFresh(l, p.Chain(), "");
    assert p.Chain()[..k] == p.Chain();
    HoldsOfHolds(p.Chain());
  }

  lemma {:induction false} ChainIs(l: Ledger, p: SweepPlan)
    requires Ready(l, p)
    ensures var ts := p.Chain();
      && DistinctIds(ts) && NewRecords(ts) && |ts| == |p.legs| && Amounts(ts) == LegTotal(p.legs)
      && (forall i :: 0 <= i < |ts| ==> ts[i].debit == p.clearing && ts[i].amount > 0)
    ensures LegTotal(p.legs) <= Bal(l, p.clearing)
  {
    SameAmounts(p.Chain(), p.legs);
  }

  lemma {:induction false} PostStage(l: Ledger, p: SweepPlan)
    requires Ready(l, p)
    ensures Post(HeldLedger(l, p), Ids(p.Chain()), false).ok
    ensures PostedLedger(l, p).transfers == Store(HeldLedger(l, p).transfers, InState(p.Chain(), POSTED))
    ensures forall a :: Bal(PostedLedger(l, p), a) == Bal(l, a) + Deltas(p.Chain(), a)
    ensures forall a :: Held(PostedLedger(l, p), a) == Held(l, a)
    ensures Bal(PostedLedger(l, p), p.clearing) == Remainder(l, p) >= 0
  {
    var ts := p.Chain();
    HoldStage(l, p);
    ChainIs(l, p);
    StoreLookup(l.transfers, ts);
    DebitedAmounts(ts, p.clearing);
    hide HeldLedger, Ready, HoldChain, Create, Store;
    PostChain(HeldLedger(l, p), ts);
    AllPostable(HeldLedger(l, p), ts);
    hide PostLoop, Postable, Deltas, Reserves, Bal, Held, Amounts, LegTotal;
  }

  lemma {:induction false} AllPostable(l: Ledger, ts: seq<Transfer>)
    requires NewRecords(ts) && Present(l, ts)
    ensures Postable(l, Ids(ts))
  {
    assert forall i :: 0 <= i < |ts| ==> Ids(ts)[i] == ts[i].id;
  }

  lemma {:induction false} PostedRecords(l: Ledger, p: SweepPlan)
    requires Ready(l, p)
    ensures Present(HeldLedger(l, p), p.Chain())
    ensures Present(PostedLedger(l, p), InState(p.Chain(), POSTED))
    ensures p.RemainderLeg(0).id !in PostedLedger(l, p).transfers
  {
    var ts, done := p.Chain(), InState(p.Chain(), POSTED);
    HoldStage(l, p);
    PostStage(l, p);
    SameIds(ts);
    StoreLookup(l.transfers, ts);
    StoreLookup(HeldLedger(l, p).transfers, done);
    RemainderApart(p, ts, l);
    hide HeldLedger, PostedLedger, Store, Ready;
  }

  lemma {:induction false} SameIds(ts: seq<Transfer>)
    requires DistinctIds(ts)
    ensures DistinctIds(InState(ts, POSTED)) && Ids(InState(ts, POSTED)) == Ids(ts)
  {
  }

  lemma {:induction false} RemainderApart(p: SweepPlan, ts: seq<Transfer>, l: Ledger)
    requires FreshRun(l, p) && ts == p.Chain()
    ensures p.RemainderLeg(0).id !in Ids(ts) && p.RemainderLeg(0).id !in l.transfers
  {
    assert forall i :: 0 <= i < |ts| ==> Ids(ts)[i] == ts[i].id;
  }

  /** What a finished sweep does to the balance of `a`. */
  function SweptChange(l: Ledger, p: SweepPlan, a: Account): int {
    Deltas(p.Chain(), a) + (if a == p.crf then Remainder(l, p) else 0) - (if a == p.clearing then Remainder(l, p) else 0)
  }

  lemma {:induction false} RemainderStage(l: Ledger, p: SweepPlan)
    requires Ready(l, p)
    ensures var l2, r := PostedLedger(l, p), Remainder(l, p);
      && (r == 0 ==> SweptLedger(l, p) == l2)
      && (r > 0 ==>
        && Create(l2, [p.RemainderLeg(r)], "").ok
        && SweptLedger(l, p) == Create(l2, [p.RemainderLeg(r)], "").ledger
        && SweptLedger(l, p).transfers == l2.transfers[p.RemainderLeg(r).id := p.RemainderLeg(r)])
    ensures Bal(SweptLedger(l, p), p.clearing) == 0
    ensures forall a :: Bal(SweptLedger(l, p), a) == Bal(l, a) + SweptChange(l, p, a)
    ensures forall a :: Held(SweptLedger(l, p), a) == Held(l, a)
  {
    PostStage(l, p);
    PostedRecords(l, p);
    ChainIs(l, p);
    DebitedAmounts(p.Chain(), p.clearing);
    hide PostedLedger, HeldLedger, HoldChain, Store, Deltas, Reserves, Amounts, LegTotal, Post;
    var l2, t := PostedLedger(l, p), p.RemainderLeg(Remainder(l, p));
    if Remainder(l, p) > 0 {
      assert [t][1..] == [];
      assert CreateLoop(l2, [t], [], "") == CreateLoop(Insert(l2, t), [], [] + [t], "");
      assert SweptLedger(l, p) == Insert(l2, t);
    }
  }

  // ---------------------------------------------------------------------------
  // Stopping and running again
  // ---------------------------------------------------------------------------

  datatype Stage = Untouched | HoldsMade | LegsPosted | Swept

  ghost function LedgerAt(l: Ledger, p: SweepPlan, stage: Stage): Ledger {
    match stage
    case Untouched => l
    case HoldsMade => HeldLedger(l, p)
    case LegsPosted => PostedLedger(l, p)
    case Swept => SweptLedger(l, p)
  }

  ghost predicate BooksAt(l: Ledger, p: SweepPlan, b: Books, stage: Stage) {
    b.ledger == LedgerAt(l, p, stage) && (b.stored.Completed? ==> stage == Swept)
  }

  /** Every leg is stored under its ID, and POSTED once the chain is. */
  ghost predicate ChainIn(m: map<TransferId, Transfer>, ts: seq<Transfer>, posted: bool) {
    && (forall i :: 0 <= i < |ts| ==> ts[i].id in m && m[ts[i].id].id == ts[i].id)
    && (posted ==> forall i :: 0 <= i < |ts| ==> m[ts[i].id].state == POSTED)
  }

  lemma {:induction false} ChainPosted(l: Ledger, p: SweepPlan)
    requires Ready(l, p)
    ensures ChainIn(HeldLedger(l, p).transfers, p.Chain(), false)
    ensures ChainIn(PostedLedger(l, p).transfers, p.Chain(), true)
    ensures p.RemainderLeg(0).id !in PostedLedger(l, p).transfers
  {
    var ts := p.Chain();
    PostedRecords(l, p);
    hide HeldLedger, PostedLedger, Ready, HoldChain;
    assert forall i :: 0 <= i < |ts| ==> InState(ts, POSTED)[i].id == ts[i].id;
  }

  lemma {:induction false} ChainSwept(l: Ledger, p: SweepPlan)
    requires Ready(l, p)
    ensures ChainIn(SweptLedger(l, p).transfers, p.Chain(), true)
  {
    ChainPosted(l, p);
    PostStage(l, p);
    RemainderStage(l, p);
    hide HeldLedger, PostedLedger, SweptLedger, Ready, HoldChain, Create, Post, Remainder, Store;
  }

  /** Asked again for the chain, the ledger at any later stage returns the same legs unchanged. */
  lemma {:induction false} ChainReplays(l: Ledger, p: SweepPlan, stage: Stage)
    requires Ready(l, p) && stage != Untouched
    ensures var c := Create(LedgerAt(l, p, stage), p.Chain(), "");
      && c.ok && c.ledger == LedgerAt(l, p, stage)
      && Ids(c.created) == Ids(p.Chain())
    ensures var o := Post(LedgerAt(l, p, stage), Ids(p.Chain()), false);
      o.ok && o.ledger == (if stage == HoldsMade then PostedLedger(l, p) else LedgerAt(l, p, stage))
  {
    var ts, at := p.Chain(), LedgerAt(l, p, stage);
    ChainPosted(l, p);
    ChainSwept(l, p);
    if stage == HoldsMade { PostStage(l, p); }
    hide Create, Post, HeldLedger, SweptLedger, HoldChain, Ready;
    CreateReplay(at, ts, "");
    if stage != HoldsMade { PostsAgain(at, ts); }
  }

  /** Posting a chain whose records are all POSTED. */
  lemma {:induction false} PostsAgain(l: Ledger, ts: seq<Transfer>)
    requires forall i :: 0 <= i < |ts| ==> ts[i].id in l.transfers && l.transfers[ts[i].id].state == POSTED
    ensures Post(l, Ids(ts), false) == Outcome(true, l)
  {
    assert forall i :: 0 <= i < |ts| ==> Ids(ts)[i] == ts[i].id;
    PostReplay(l, Ids(ts));
  }

  lemma {:induction false} RunFromStage(l: Ledger, p: SweepPlan, b: Books, stage: Stage, budget: nat) returns (stage': Stage)
    requires Ready(l, p) && BooksAt(l, p, b, stage)
    ensures BooksAt(l, p, RunSweep(b, p, budget).books, stage')
    ensures budget >= 4 ==> stage' == Swept && RunSweep(b, p, budget).books.stored.Completed?
  {
    stage' := stage;
    if b.stored.NoReport? && budget > 0 {
      HoldStage(l, p);
      PostStage(l, p);
      RemainderStage(l, p);
      if stage != Untouched { ChainReplays(l, p, stage); }
      hide Create, Post, Ready;
      if budget == 1 {
        stage' := if stage == Untouched then HoldsMade else stage;
      } else {
        var posted := if stage == Swept then Swept else LegsPosted;
        var b2 := b.(ledger := LedgerAt(l, p, posted));
        var swept := Amounts(Create(b.ledger, p.Chain(), "").created);
        assert RunSweep(b, p, budget) == Reconcile(b2, p, swept, budget - 2);
        stage' := if posted == LegsPosted && Remainder(l, p) > 0 && budget == 2 then LegsPosted else Swept;
      }
    }
  }

  /** A run for every budget in turn: each process dies when its budget is used up. */
  function RunAll(b: Books, p: SweepPlan, budgets: seq<nat>): Books
    decreases |budgets|
  {
    if budgets == [] then b else RunAll(RunSweep(b, p, budgets[0]).books, p, budgets[1..])
  }

  lemma {:induction false} RunAllStages(l: Ledger, p: SweepPlan, b: Books, stage: Stage, budgets: seq<nat>) returns (stage': Stage)
    requires Ready(l, p) && BooksAt(l, p, b, stage)
    ensures BooksAt(l, p, RunAll(b, p, budgets), stage')
    decreases |budgets|
  {
    stage' := stage;
    if budgets != [] {
      stage' := RunFromStage(l, p, b, stage, budgets[0]);
      stage' := RunAllStages(l, p, RunSweep(b, p, budgets[0]).books, stage', budgets[1..]);
    }
  }

  /** Stopped after any operation any number of times, the sweep ends with the very ledger of one
      uninterrupted run: clearing at zero, the legs at their destinations, the rest in the fund. */
  lemma {:induction false} RestartedSweepIsTheSame(l: Ledger, p: SweepPlan, budgets: seq<nat>, last: nat)
    requires Ready(l, p) && last >= 4
    ensures var start := Books(l, NoReport);
      var b := RunSweep(RunAll(start, p, budgets), p, last).books;
      && b.ledger == RunSweep(start, p, 4).books.ledger
      && b.stored.Completed?
      && Bal(b.ledger, p.clearing) == 0
      && forall a :: Bal(b.ledger, a) == Bal(l, a) + SweptChange(l, p, a)
  {
    var start := Books(l, NoReport);
    RemainderStage(l, p);
    hide RunSweep, RunAll, SweptLedger, SweptChange, Ready, Deltas;
    var once := RunFromStage(l, p, start, Untouched, 4);
    var stage := RunAllStages(l, p, start, Untouched, budgets);
    stage := RunFromStage(l, p, RunAll(start, p, budgets), stage, last);
  }
}
