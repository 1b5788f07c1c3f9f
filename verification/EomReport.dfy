/** What a sweep reports: the legs' total always, and the amount sent to the fund unless the run was stopped
    between sending it and recording it. */
module EomReport {
  import opened Sequences
  import opened Sums
  import opened TransferLedger
  import opened TransferLedgerLaws
  import opened EomSweep

  lemma {:induction false} SameAmountsAs(ts: seq<Transfer>, us: seq<Transfer>)
    requires |ts| == |us| && forall i :: 0 <= i < |ts| ==> ts[i].amount == us[i].amount
    ensures Amounts(ts) == Amounts(us)
  {
    if ts != [] {
      TailAt(ts);
      TailAt(us);
      SameAmountsAs(ts[1..], us[1..]);
    }
  }

  /** Every leg is stored with its amount. */
  ghost predicate LegsStored(m: map<TransferId, Transfer>, ts: seq<Transfer>) {
    forall i :: 0 <= i < |ts| ==> ts[i].id in m && m[ts[i].id].amount == ts[i].amount
  }

  lemma {:induction false} StoredAtStage(l: Ledger, p: SweepPlan, stage: Stage)
    requires Ready(l, p) && stage != Untouched
    ensures LegsStored(LedgerAt(l, p, stage).transfers, p.Chain())
  {
    var ts := p.Chain();
    PostedRecords(l, p);
    ChainPosted(l, p);
    RemainderStage(l, p);
    PostStage(l, p);
    hide HeldLedger, PostedLedger, SweptLedger, Create, Post, Ready, HoldChain, Remainder, Store;
    assert forall i :: 0 <= i < |ts| ==> InState(ts, POSTED)[i].id == ts[i].id && InState(ts, POSTED)[i].amount == ts[i].amount;
  }

  /** The chain call returns the legs, first time or again. */
  lemma {:induction false} CreatedAmounts(l: Ledger, p: SweepPlan, stage: Stage)
    requires Ready(l, p)
    ensures Amounts(Create(LedgerAt(l, p, stage), p.Chain(), "").created) == LegTotal(p.legs)
  {
    var ts := p.Chain();
    ChainIs(l, p);
    if stage == Untouched {
      HoldStage(l, p);
    } else {
      StoredAtStage(l, p, stage);
      hide LedgerAt, Ready, HoldChain, Create;
      var at := LedgerAt(l, p, stage);
      CreateReplay(at, ts, "");
      SameAmountsAs(Create(at, ts, "").created, ts);
    }
  }

  ghost predicate ReportOk(l: Ledger, p: SweepPlan, b: Books) {
    b.stored.Completed? ==> b.stored.report.swept == LegTotal(p.legs) && b.stored.report.remainder in {0, Remainder(l, p)}
  }

  /** How a life that has not been recorded yet goes on from the legs' posting. */
  lemma {:induction false} RunReaches(l: Ledger, p: SweepPlan, b: Books, stage: Stage, budget: nat)
    requires Ready(l, p) && BooksAt(l, p, b, stage) && b.stored.NoReport? && budget >= 2
    ensures var posted := if stage == Swept then Swept else LegsPosted;
      RunSweep(b, p, budget) == Reconcile(b.(ledger := LedgerAt(l, p, posted)), p, LegTotal(p.legs), budget - 2)
  {
    CreatedAmounts(l, p, stage);
    HoldStage(l, p);
    PostStage(l, p);
    if stage != Untouched { ChainReplays(l, p, stage); }
    hide Create, Post, Ready, Amounts;
  }

  lemma {:induction false} ReconcileReports(l: Ledger, p: SweepPlan, b: Books, posted: Stage, budget: nat)
    requires Ready(l, p) && posted in {LegsPosted, Swept} && b == Books(LedgerAt(l, p, posted), NoReport)
    ensures var s := Reconcile(b, p, LegTotal(p.legs), budget);
      var sent := if posted == LegsPosted then Remainder(l, p) else 0;
      && s.ending == (if budget >= (if sent > 0 then 2 else 1) then Finished else Died)
      && s.books.stored == (if s.ending == Finished then Completed(Report(LegTotal(p.legs), sent)) else NoReport)
      && s.books.ledger == (if budget == 0 && sent > 0 then LedgerAt(l, p, LegsPosted) else LedgerAt(l, p, Swept))
  {
    PostStage(l, p);
    RemainderStage(l, p);
    hide HeldLedger, PostedLedger, SweptLedger, Create, Post, Ready, Remainder;
  }

  lemma {:induction false} LongRun(l: Ledger, p: SweepPlan, b: Books, stage: Stage, budget: nat)
    requires Ready(l, p) && BooksAt(l, p, b, stage) && b.stored.NoReport? && budget >= 2
    ensures ReportOk(l, p, RunSweep(b, p, budget).books)
    ensures budget >= 4 ==> RunSweep(b, p, budget).ending == Finished
  {
    var posted := if stage == Swept then Swept else LegsPosted;
    var b1 := b.(ledger := LedgerAt(l, p, posted));
    RunReaches(l, p, b, stage, budget);
    assert b1 == Books(LedgerAt(l, p, posted), NoReport);
    hide RunSweep, Reconcile, LedgerAt, Ready, Remainder, BooksAt;
    ReconcileReports(l, p, b1, posted, budget - 2);
  }

  lemma {:induction false} ShortRun(b: Books, p: SweepPlan, budget: nat)
    requires b.stored.Completed? || budget < 2
    ensures RunSweep(b, p, budget).books.stored == b.stored
    ensures b.stored.Completed? ==> RunSweep(b, p, budget).ending == Replayed
  {
    hide Create, Post;
  }

  lemma {:induction false} RunReports(l: Ledger, p: SweepPlan, b: Books, stage: Stage, budget: nat)
    requires Ready(l, p) && BooksAt(l, p, b, stage) && ReportOk(l, p, b)
    ensures ReportOk(l, p, RunSweep(b, p, budget).books)
    ensures budget >= 4 ==> RunSweep(b, p, budget).ending == if b.stored.Completed? then Replayed else Finished
  {
    hide RunSweep, Ready, Remainder, BooksAt;
    if b.stored.NoReport? && budget >= 2 { LongRun(l, p, b, stage, budget); } else { ShortRun(b, p, budget); }
  }

  lemma {:induction false} RunsReport(l: Ledger, p: SweepPlan, b: Books, stage: Stage, budgets: seq<nat>) returns (stage': Stage)
    requires Ready(l, p) && BooksAt(l, p, b, stage) && ReportOk(l, p, b)
    ensures BooksAt(l, p, RunAll(b, p, budgets), stage') && ReportOk(l, p, RunAll(b, p, budgets))
    decreases |budgets|
  {
    stage' := stage;
    hide RunSweep, BooksAt, ReportOk, Ready;
    if budgets != [] {
      RunReports(l, p, b, stage, budgets[0]);
      stage' := RunFromStage(l, p, b, stage, budgets[0]);
      stage' := RunsReport(l, p, RunSweep(b, p, budgets[0]).books, stage', budgets[1..]);
    }
  }

  /** However often the sweep is stopped, the run that ends it reports success and the legs' total; the remainder it
      reports is what was sent to the fund or zero. Run once without a stop, it reports exactly what was sent. */
  lemma {:induction false} SweepReports(l: Ledger, p: SweepPlan, budgets: seq<nat>, last: nat)
    requires Ready(l, p) && last >= 4
    ensures var start := Books(l, NoReport);
      var s := RunSweep(RunAll(start, p, budgets), p, last);
      && s.ending in {Finished, Replayed} && s.books.stored.Completed?
      && s.books.stored.report.swept == LegTotal(p.legs)
      && s.books.stored.report.remainder in {0, Remainder(l, p)}
      && (budgets == [] ==> s.ending == Finished && s.books.stored.report == Report(LegTotal(p.legs), Remainder(l, p)))
  {
    var start := Books(l, NoReport);
    var stage := RunsReport(l, p, start, Untouched, budgets);
    RunReports(l, p, RunAll(start, p, budgets), stage, last);
    var end := RunFromStage(l, p, RunAll(start, p, budgets), stage, last);
    if budgets == [] {
      RunReaches(l, p, start, Untouched, last);
      ReconcileReports(l, p, start.(ledger := LedgerAt(l, p, LegsPosted)), LegsPosted, last - 2);
      PostStage(l, p);
    }
    hide RunSweep, Reconcile, LedgerAt, Ready, Remainder;
  }

  /** Stopped right after the remainder was sent, the sweep is completed by a run that reports none. */
  lemma {:induction false} InterruptedReportUnderstates(l: Ledger, p: SweepPlan, last: nat)
    requires Ready(l, p) && last >= 4 && Remainder(l, p) > 0
    ensures var start := Books(l, NoReport);
      var s := RunSweep(RunSweep(start, p, 3).books, p, last);
      && s.ending == Finished && s.books.stored == Completed(Report(LegTotal(p.legs), 0))
      && Bal(s.books.ledger, p.crf) == Bal(l, p.crf) + SweptChange(l, p, p.crf)
  {
    var start := Books(l, NoReport);
    RunReaches(l, p, start, Untouched, 3);
    ReconcileReports(l, p, start.(ledger := LedgerAt(l, p, LegsPosted)), LegsPosted, 1);
    var b := RunSweep(start, p, 3).books;
    assert b == Books(LedgerAt(l, p, Swept), NoReport);
    RunReaches(l, p, b, Swept, last);
    ReconcileReports(l, p, b, Swept, last - 2);
    RemainderStage(l, p);
    hide RunSweep, Reconcile, Ready, Remainder, SweptChange, SweptLedger;
  }
}
