/** Failing posts and publications, uncovered legs and payouts, and crashes anywhere: as long as other users
    only add money and no leg is made to fail, compensation gets through, and no saga ends FAILED. */
module SagaRecourse {
  import opened Sequences
  import opened Sums
  import opened TransferLedger
  import opened TransferLedgerLaws
  import opened Saga
  import opened SagaRecovery
  import opened SagaProgress

  // ---------------------------------------------------------------------------
  // Direct chains that are covered
  // ---------------------------------------------------------------------------

  /** Every account can pay the sum of its legs without what the chain brings. */
  ghost predicate PaysAll(l: Ledger, ts: seq<Transfer>) {
    forall a :: Reserves(ts, a) <= Bal(l, a)
  }

  lemma {:induction false} CoveredLoop(l: Ledger, ts: seq<Transfer>, created: seq<Transfer>)
    requires DistinctIds(ts) && Absent(l, ts) && PaysAll(l, ts)
    requires forall i :: 0 <= i < |ts| ==> !ts[i].pending && ts[i].amount > 0
    ensures CreateLoop(l, ts, created, "").ok
    decreases |ts|
  {
    if ts != [] {
      var t, rest, l1 := ts[0], ts[1..], Insert(l, ts[0]);
      TailAt(ts);
      assert Reserves(ts, t.debit) <= Bal(l, t.debit);
      ReservesPositive(rest, t.debit);
      forall a ensures Reserves(rest, a) <= Bal(l1, a) {
        assert Reserves(ts, a) <= Bal(l, a) && Reserves(ts, a) == Reserve(t, a) + Reserves(rest, a);
      }
      hide Reserves;
      CoveredLoop(l1, rest, created + [t]);
    }
  }

  lemma {:induction false} ReversalReserves(ts: seq<Transfer>, legs: seq<Leg>, a: Account)
    requires |ts| == |legs| && forall i :: 0 <= i < |ts| ==> ts[i].debit == legs[i].dest && ts[i].amount == legs[i].amount
    ensures Reserves(ts, a) == PaidInto(legs, a)
  {
    if ts != [] {
      TailAt(ts);
      TailAt(legs);
      ReversalReserves(ts[1..], legs[1..], a);
    }
  }

  // ---------------------------------------------------------------------------
  // What compensation needs
  // ---------------------------------------------------------------------------

  /** Without the saga no account is short, and what the saga has taken could be taken there too. */
  ghost predicate Backed(p: Plan, l: Ledger, ph: Phase) {
    && (forall a :: 0 <= Held(l, a) && 0 <= Bal(l, a))
    && (ph.hold != Nothing ==> LegTotal(p.legs) <= Bal(l, p.source))
    && (ph.paid ==> p.payout.PayoutSpec? && PayoutCovered(p, l))
  }

  lemma {:induction false} BackedStays(p: Plan, l: Ledger, o: Others, ph: Phase)
    requires Backed(p, l, ph) && Harmless(o)
    ensures Backed(p, Disturb(l, o), ph)
  {
    CoveredStays(p, l, o);
    forall a
      ensures 0 <= Held(Disturb(l, o), a) && Bal(l, a) <= Bal(Disturb(l, o), a)
    {
      DisturbAdds(l, o, a);
      assert 0 <= Get(o.held, a) <= Get(o.bal, a);
      assert 0 <= Held(l, a);
    }
    hide PayoutCovered, Disturb;
    assert Bal(l, p.source) <= Bal(Disturb(l, o), p.source);
    assert forall a :: 0 <= Bal(l, a) <= Bal(Disturb(l, o), a);
  }

  /** What the settled legs have brought is still there. */
  lemma {:induction false} LegsAreThere(p: Plan, l: Ledger, ph: Phase, a: Account)
    requires Backed(p, l, ph) && ph.hold == Settled
    ensures PaidInto(p.legs, a) <= Bal(l, a) + Deltas(p.HoldTransfers(), a)
  {
    HoldChainPays(p.key, p.source, p.legs, a);
    assert 0 <= Bal(l, a);
  }

  lemma {:induction false} PaidIntoPositive(legs: seq<Leg>, a: Account)
    requires forall i :: 0 <= i < |legs| ==> legs[i].amount > 0
    ensures PaidInto(legs, a) >= 0
  {
    if legs != [] {
      TailAt(legs);
      PaidIntoPositive(legs[1..], a);
    }
  }

  lemma {:induction false} RefundCancels(p: Plan, a: Account)
    ensures Deltas(p.RefundTransfers(), a) == -Deltas(p.PayoutTransfers(), a)
  {
    MirrorDeltas(p.PayoutTransfers(), p.RefundTransfers(), a);
  }

  /** The reversal of a settled chain gets through. */
  lemma {:induction false} ReversalOk(p: Plan, w: World, rec: SagaRecord, tick: Tick, ph: Phase)
    requires WellNamed(p) && Tracks(p, w, ph) && ph.hold == Settled && p.legs != [] && tick.failOnLeg == ""
    requires w.history.torn == [] && Backed(p, w.history.without, ph) && (ph.reversed || ph.paid == ph.refunded)
    ensures Undo(p, w, rec, SplitCommit, tick).ok
  {
    var ts := p.ReversalTransfers();
    if ph.reversed {
      CreateReplay(w.ledger, ts, "");
    } else {
      forall a ensures Reserves(ts, a) <= Bal(w.ledger, a) {
        LegsAreThere(p, w.history.without, ph, a);
        RefundCancels(p, a);
        ReversalReserves(ts, p.legs, a);
        assert Deltas(w.history.torn, a) == 0;
      }
      assert PaysAll(w.ledger, ts);
      hide Deltas, Reserves, PaidInto, Moved, PaysAll;
      CoveredLoop(w.ledger, ts, []);
    }
  }

  /** The refund of a payout gets through. */
  lemma {:induction false} RefundOk(p: Plan, w: World, rec: SagaRecord, tick: Tick, ph: Phase)
    requires WellNamed(p) && Tracks(p, w, ph) && ph.hold == Settled && ph.paid && tick.failOnLeg == ""
    requires w.history.torn == [] && Backed(p, w.history.without, ph) && (ph.reversed ==> ph.refunded)
    ensures Undo(p, w, rec, Payout, tick).ok
  {
    var ts := p.RefundTransfers();
    if ph.refunded {
      CreateReplay(w.ledger, ts, "");
    } else {
      var d := p.payout.dest;
      LegsAreThere(p, w.history.without, ph, d);
      PaidIntoPositive(p.legs, d);
      assert Deltas(w.history.torn, d) == 0;
      OneDelta(p, d);
      hide Deltas, PaidInto, HoldChain;
      assert p.payout.amount <= Bal(w.ledger, d);
      assert ts == [ts[0]] && ts[0].id !in w.ledger.transfers;
      OneDirectOkIff(w.ledger, ts[0]);
      hide Create;
    }
  }

  lemma {:induction false} OneDelta(p: Plan, a: Account)
    requires p.payout.PayoutSpec?
    ensures Deltas(p.PayoutTransfers(), a) ==
      (if p.payout.dest == a then p.payout.amount else 0) - (if p.payout.account == a then p.payout.amount else 0)
  {
    assert p.PayoutTransfers()[1..] == [];
  }

  // ---------------------------------------------------------------------------
  // Whole lives
  // ---------------------------------------------------------------------------

  /** The saga has not failed, and whatever it still has to undo can be undone. */
  ghost predicate Recoverable(p: Plan, w: World, ph: Phase) {
    && Inv(p, w, ph) && w.record.state != FAILED && w.history.torn == []
    && Backed(p, w.history.without, ph)
    && (ph.reversed && ph.paid ==> ph.refunded)
  }

  lemma {:induction false} InterfereRecoverable(p: Plan, w: World, o: Others, ph: Phase)
    requires Recoverable(p, w, ph) && Harmless(o)
    ensures Recoverable(p, Interfere(w, o), ph)
    ensures Interfere(w, o).record == w.record
  {
    InterfereTracks(p, w, o, ph);
    InterfereKeepsRecord(p, w, o, ph);
    BackedStays(p, w.history.without, o, ph);
    hide Tracks, RecordFits, Backed, Harmless;
  }

  lemma {:induction false} SaveRecoverable(p: Plan, w: World, rec: SagaRecord, ticks: seq<Tick>, ph: Phase)
    requires Recoverable(p, w, ph) && RecordFits(p, rec, w.history, w.events, ph) && rec.state != FAILED && Quiet(ticks)
    ensures Recoverable(p, Save(w, rec, ticks), ph)
    ensures ticks != [] ==> Save(w, rec, ticks).record == rec
  {
    if ticks != [] {
      InterfereRecoverable(p, w, ticks[0].others, ph);
      SaveFits(p, w, rec, ticks, ph);
      hide Tracks, RecordFits, Backed, Harmless, Interfere;
    }
  }

  /** The next compensation gets through. */
  lemma {:induction false} UndoOk(p: Plan, w: World, rec: SagaRecord, k: nat, tick: Tick, ph: Phase)
    requires WellNamed(p) && Recoverable(p, w, ph) && w.record == rec && rec.state == COMPENSATING && p.legs != []
    requires 0 < k <= |rec.completed| && UndoneDownTo(k, |rec.completed|, ph) && tick.failOnLeg == ""
    ensures rec.completed[k - 1] != EventPublish && Undo(p, w, rec, rec.completed[k - 1], tick).ok
  {
    assert Listed(p, rec) && Behind(p, rec, w.history, ph);
    NotPublished(p, rec, w.history, ph, k);
    assert rec.completed[k - 1] == p.Steps()[k - 1];
    hide WellNamed, Tracks, Backed, Undo;
    match rec.completed[k - 1]
    case Hold => var ph' := HoldUndo(p, w, rec, tick, ph);
    case SplitCommit => ReversalOk(p, w, rec, tick, ph);
    case Payout => RefundOk(p, w, rec, tick, ph);
  }

  lemma {:induction false} UndoKeepsWithout(p: Plan, w: World, rec: SagaRecord, kind: StepKind, tick: Tick)
    ensures Undo(p, w, rec, kind, tick).world.history.without == w.history.without
  {
  }

  /** One compensation on the way down, with its fate and what others do. */
  lemma {:induction false} UndoRecoverable(p: Plan, w: World, rec: SagaRecord, k: nat, tick: Tick, ph: Phase) returns (ph': Phase)
    requires WellNamed(p) && Recoverable(p, w, ph) && w.record == rec && rec.state == COMPENSATING && p.legs != []
    requires 0 < k <= |rec.completed| && UndoneDownTo(k, |rec.completed|, ph) && tick.failOnLeg == ""
    ensures var a := Undo(p, w, rec, rec.completed[k - 1], tick);
      && rec.completed[k - 1] != EventPublish && a.ok
      && Recoverable(p, a.world, ph') && a.world.record == rec && UndoneDownTo(k - 1, |rec.completed|, ph')
  {
    UndoOk(p, w, rec, k, tick, ph);
    var kind := rec.completed[k - 1];
    NotPublished(p, rec, w.history, ph, k);
    ph' := UndoTracks(p, w, rec, kind, tick, ph);
    var a := Undo(p, w, rec, kind, tick);
    UndoRecords(p, rec, k, a.ok, w.history, a.world.history, w.events, ph, ph');
    UndoLeaves(p, w, rec, kind, tick);
    UndoKeepsWithout(p, w, rec, kind, tick);
    assert kind == p.Steps()[k - 1];
    assert Behind(p, rec, w.history, ph);
    hide Undo, Tracks, WellNamed, RecordFits;
  }

  lemma {:induction false} WalkRecoverable(p: Plan, w: World, rec: SagaRecord, k: nat, ticks: seq<Tick>, ph: Phase) returns (ph': Phase)
    requires WellNamed(p) && Recoverable(p, w, ph) && w.record == rec && rec.state == COMPENSATING && p.legs != []
    requires k <= |rec.completed| && UndoneDownTo(k, |rec.completed|, ph) && Quiet(ticks)
    ensures Recoverable(p, Walk(p, w, rec, k, ticks), ph')
    decreases k
  {
    ph' := ph;
    hide Recoverable, WellNamed, UndoneDownTo, Undo, Interfere, Harmless;
    if k == 0 {
      EndOfWalk(p, w, rec, ticks, ph);
    } else if ticks == [] {
      KindOnWalk(p, w, rec, k, ph);
    } else {
      InterfereRecoverable(p, w, ticks[0].others, ph);
      ph' := UndoRecoverable(p, Interfere(w, ticks[0].others), rec, k, ticks[0], ph);
      ph' := WalkRecoverable(p, Undo(p, Interfere(w, ticks[0].others), rec, rec.completed[k - 1], ticks[0]).world, rec, k - 1, ticks[1..], ph');
    }
  }

  lemma {:induction false} EndOfWalk(p: Plan, w: World, rec: SagaRecord, ticks: seq<Tick>, ph: Phase)
    requires Recoverable(p, w, ph) && w.record == rec && rec.state == COMPENSATING
    requires UndoneDownTo(0, |rec.completed|, ph) && Quiet(ticks)
    ensures Recoverable(p, Save(w, rec.(state := COMPENSATED), ticks), ph)
  {
    WalkedDown(p, w, rec, ph);
    SaveRecoverable(p, w, rec.(state := COMPENSATED), ticks, ph);
  }

  lemma {:induction false} KindOnWalk(p: Plan, w: World, rec: SagaRecord, k: nat, ph: Phase)
    requires Recoverable(p, w, ph) && w.record == rec && rec.state == COMPENSATING && 0 < k <= |rec.completed|
    ensures rec.completed[k - 1] != EventPublish
  {
    WalksOver(p, w, rec, k, ph);
  }

  lemma {:induction false} CompensateRecoverable(p: Plan, w: World, rec: SagaRecord, ticks: seq<Tick>, ph: Phase) returns (ph': Phase)
    requires WellNamed(p) && Recoverable(p, w, ph) && p.legs != [] && Quiet(ticks)
    requires Listed(p, rec) && Behind(p, rec, w.history, ph)
    ensures Recoverable(p, Compensate(p, w, rec, ticks), ph')
  {
    ph' := ph;
    if ticks != [] {
      var rec1 := rec.(state := COMPENSATING);
      SaveRecoverable(p, w, rec1, ticks, ph);
      assert UndoneDownTo(|rec1.completed|, |rec1.completed|, ph);
      hide Recoverable, WellNamed, Save, Walk;
      ph' := WalkRecoverable(p, Save(w, rec1, ticks), rec1, |rec1.completed|, ticks[1..], ph);
    }
  }

  // ---------------------------------------------------------------------------
  // Running forward
  // ---------------------------------------------------------------------------

  /** What an attempt takes was there to be taken. */
  lemma {:induction false} ActKeepsBacked(p: Plan, l: Ledger, kind: StepKind, ok: bool, h: History, h': History, ph: Phase, ph': Phase)
    requires Backed(p, l, ph) && ActMoves(p, kind, ok, h, h', ph, ph') && p.legs != []
    requires kind == SplitCommit ==> ph.hold != Nothing
    requires kind == Hold && ok ==> ph.hold == Reserved || HoldCovered(p, l)
    requires kind == Payout && ok ==> p.payout.PayoutSpec? && (ph.paid || PayoutCovered(p, l))
    ensures Backed(p, l, ph')
  {
    hide PayoutCovered;
    assert 0 <= Held(l, p.source);
  }

  lemma {:induction false} StepsBehind(p: Plan, rec: SagaRecord, h: History, ph: Phase)
    requires Listed(p, rec) && Ahead(p, rec, h, ph) && |rec.completed| < |p.Steps()|
    ensures p.Steps()[|rec.completed|] == SplitCommit ==> ph.hold != Nothing
    ensures p.Steps()[|rec.completed|] == Payout ==> p.payout.PayoutSpec?
  {
  }

  lemma {:induction false} ActKeepsHistory(p: Plan, kind: StepKind, ok: bool, h: History, h': History, ph: Phase, ph': Phase)
    requires ActMoves(p, kind, ok, h, h', ph, ph')
    ensures h'.torn == h.torn && ph'.reversed == ph.reversed && ph'.refunded == ph.refunded
  {
  }

  /** The attempt at the next step, which may fail. */
  lemma {:induction false} AttemptRecoverable(p: Plan, w: World, tick: Tick, ph: Phase) returns (ph': Phase)
    requires WellNamed(p) && Recoverable(p, w, ph) && p.legs != [] && tick.failOnLeg == ""
    requires !Terminal(w.record.state) && w.record.state != COMPENSATING && |w.record.completed| < |p.Steps()|
    ensures var kind := p.Steps()[|w.record.completed|];
      var a := Act(p, w, w.record, kind, tick);
      && Recoverable(p, a.world, ph') && a.world.record == w.record
      && (a.ok ==> RecordFits(p, StepDone(a.record, kind), a.world.history, a.world.events, ph'))
      && (!a.ok ==> a.record == w.record && Listed(p, w.record) && Behind(p, w.record, a.world.history, ph'))
  {
    var rec := w.record;
    var kind := p.Steps()[|rec.completed|];
    assert Listed(p, rec) && Ahead(p, rec, w.history, ph) && !ph.reversed;
    hide Tracks, WellNamed, HoldCovered, PayoutCovered, Act, ActMoves, Ahead, Listed, Behind, Backed;
    NextOkIff(p, w, rec, tick, ph);
    ph' := ActTracks(p, w, rec, kind, tick, ph);
    var a := Act(p, w, rec, kind, tick);
    PublishRaisesEvents(p, w, rec, kind, tick);
    ActKeepsWithout(p, w, rec, kind, tick);
    ActLeaves(p, w, rec, kind, tick);
    ActRecords(p, rec, a.record, kind, a.ok, w.history, a.world.history, w.events, ph, ph');
    StepsBehind(p, rec, w.history, ph);
    ActKeepsBacked(p, w.history.without, kind, a.ok, w.history, a.world.history, ph, ph');
    ActKeepsHistory(p, kind, a.ok, w.history, a.world.history, ph, ph');
    hide RecordFits;
  }

  lemma {:induction false} ExecuteRecoverable(p: Plan, w: World, ticks: seq<Tick>, ph: Phase) returns (ph': Phase)
    requires WellNamed(p) && Recoverable(p, w, ph) && p.legs != [] && Quiet(ticks)
    requires !Terminal(w.record.state) && w.record.state != COMPENSATING
    ensures Recoverable(p, Execute(p, w, w.record, ticks), ph')
    decreases |ticks|
  {
    ph' := ph;
    var rec := w.record;
    var c := |rec.completed|;
    hide Act, Interfere, Recoverable, WellNamed, RecordFits, Save, Harmless, Compensate, Behind, Listed;
    if c >= |p.Steps()| {
      AllDone(p, w, ph);
      SaveRecoverable(p, w, rec.(state := COMPLETED), ticks, ph);
    } else if ticks != [] {
      InterfereRecoverable(p, w, ticks[0].others, ph);
      var kind := p.Steps()[c];
      var a := Act(p, Interfere(w, ticks[0].others), rec, kind, ticks[0]);
      ph' := AttemptRecoverable(p, Interfere(w, ticks[0].others), ticks[0], ph);
      if !a.ok {
        ph' := CompensateRecoverable(p, a.world, rec, ticks[1..], ph');
      } else if |ticks| > 1 {
        SaveRecoverable(p, a.world, StepDone(a.record, kind), ticks[1..], ph');
        ExecuteStep(p, w, ticks);
        ph' := ExecuteRecoverable(p, AfterStep(p, w, ticks), ticks[2..], ph');
      }
    }
  }

  lemma {:induction false} AllDone(p: Plan, w: World, ph: Phase)
    requires Recoverable(p, w, ph) && !Terminal(w.record.state) && w.record.state != COMPENSATING
    requires |w.record.completed| >= |p.Steps()|
    ensures RecordFits(p, w.record.(state := COMPLETED), w.history, w.events, ph)
  {
  }

  lemma {:induction false} RecoverRecoverable(p: Plan, w: World, ticks: seq<Tick>, ph: Phase) returns (ph': Phase)
    requires WellNamed(p) && Recoverable(p, w, ph) && p.legs != [] && Quiet(ticks)
    ensures Recoverable(p, Recover(p, w, ticks), ph')
  {
    ph' := ph;
    if w.record.state == COMPENSATING {
      assert Listed(p, w.record) && Behind(p, w.record, w.history, ph);
      hide Recoverable, WellNamed, Listed, Behind, Compensate;
      ph' := CompensateRecoverable(p, w, w.record, ticks, ph);
    } else if !Terminal(w.record.state) {
      hide Recoverable, WellNamed, Execute;
      ph' := ExecuteRecoverable(p, w, ticks, ph);
    }
  }

  lemma {:induction false} LivesRecoverable(p: Plan, w: World, lives: seq<seq<Tick>>, ph: Phase) returns (ph': Phase)
    requires WellNamed(p) && Recoverable(p, w, ph) && p.legs != []
    requires forall i :: 0 <= i < |lives| ==> Quiet(lives[i])
    ensures Recoverable(p, Lives(p, w, lives), ph')
    decreases |lives|
  {
    ph' := ph;
    if lives != [] {
      TailAt(lives);
      hide Recoverable, WellNamed, Quiet, Recover;
      ph' := RecoverRecoverable(p, w, lives[0], ph);
      ph' := LivesRecoverable(p, Recover(p, w, lives[0]), lives[1..], ph');
    }
  }

  /** On a ledger where no account is short, with others who only add money and no leg made to fail, no
      saga ends FAILED: crashes anywhere, posts and publications that raise, a source or a payee that
      cannot be charged all leave it COMPLETED, COMPENSATED or still running, and one life of 13
      operations is enough to finish it. */
  lemma {:induction false} NeverFails(p: Plan, l: Ledger, lives: seq<seq<Tick>>, last: seq<Tick>)
    requires Usable(p, l) && p.legs != [] && (forall a :: 0 <= Held(l, a) && 0 <= Bal(l, a))
    requires (forall i :: 0 <= i < |lives| ==> Quiet(lives[i])) && Quiet(last)
    ensures var w := Lives(p, Begun(l), lives);
      && w.record.state != FAILED && w.history.torn == []
      && (|last| >= 13 ==> Recover(p, w, last).record.state in {COMPLETED, COMPENSATED})
  {
    BegunFits(p, l);
    var ph := Phase(Nothing, false, false, false);
    assert Recoverable(p, Begun(l), ph);
    ph := LivesRecoverable(p, Begun(l), lives, ph);
    var w := Lives(p, Begun(l), lives);
    ph := RecoverRecoverable(p, w, last, ph);
    if |last| >= 13 { RecoveryTerminates(p, l, lives, last); }
  }
}
