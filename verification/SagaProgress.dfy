/** Where a saga ends. With others that only add money and no leg made to fail, crashes alone never keep it
    from completing, and failing posts and publications end it COMPENSATED, never FAILED. */
module SagaProgress {
  import opened Sequences
  import opened Sums
  import opened TransferLedger
  import opened TransferLedgerLaws
  import opened Saga
  import opened SagaRecovery

  // ---------------------------------------------------------------------------
  // Fates
  // ---------------------------------------------------------------------------

  /** Other users put money in and reserve no more than that. */
  ghost predicate Harmless(o: Others) {
    forall a :: 0 <= Get(o.held, a) <= Get(o.bal, a)
  }

  /** No leg is made to fail; posts and publications may be. */
  ghost predicate Quiet(ticks: seq<Tick>) {
    forall i :: 0 <= i < |ticks| ==> ticks[i].failOnLeg == "" && Harmless(ticks[i].others)
  }

  /** Nothing is made to fail. */
  ghost predicate Untroubled(ticks: seq<Tick>) {
    Quiet(ticks) && forall i :: 0 <= i < |ticks| ==> !ticks[i].failOnPost && !ticks[i].publishFails
  }

  /** The source can be charged for every leg. */
  predicate HoldCovered(p: Plan, l: Ledger) {
    p.legs == [] ||
    ((forall i :: 0 <= i < |p.legs| ==> p.legs[i].amount > 0) && LegTotal(p.legs) <= Bal(l, p.source) - Held(l, p.source))
  }

  /** Once the legs have been paid, the payout can be. */
  predicate PayoutCovered(p: Plan, l: Ledger) {
    p.payout.PayoutSpec? ==>
      p.payout.amount > 0 && p.payout.amount <= Bal(l, p.payout.account) + Deltas(p.HoldTransfers(), p.payout.account)
  }

  lemma {:induction false} DisturbAdds(l: Ledger, o: Others, a: Account)
    ensures Bal(Disturb(l, o), a) == Bal(l, a) + Get(o.bal, a)
    ensures Held(Disturb(l, o), a) == Held(l, a) + Get(o.held, a)
  {
  }

  lemma {:induction false} CoveredStays(p: Plan, l: Ledger, o: Others)
    requires Harmless(o)
    ensures HoldCovered(p, l) ==> HoldCovered(p, Disturb(l, o))
    ensures PayoutCovered(p, l) ==> PayoutCovered(p, Disturb(l, o))
  {
    DisturbAdds(l, o, p.source);
    assert 0 <= Get(o.held, p.source) <= Get(o.bal, p.source);
    if p.payout.PayoutSpec? {
      DisturbAdds(l, o, p.payout.account);
      assert 0 <= Get(o.held, p.payout.account) <= Get(o.bal, p.payout.account);
    }
  }

  // ---------------------------------------------------------------------------
  // When each action succeeds
  // ---------------------------------------------------------------------------

  /** The event is published exactly when nothing keeps it from being, and only that raises the count. */
  lemma {:induction false} PublishRaisesEvents(p: Plan, w: World, rec: SagaRecord, kind: StepKind, tick: Tick)
    ensures var a := Act(p, w, rec, kind, tick);
      && (kind == EventPublish ==> (a.ok <==> !tick.publishFails) && a.world.ledger == w.ledger)
      && a.world.events == w.events + (if kind == EventPublish && a.ok then 1 else 0)
  {
  }

  lemma {:induction false} NothingMoved(p: Plan, w: World, ph: Phase, a: Account)
    requires AccountsAre(p, w, ph) && w.history.torn == [] && !ph.reversed && !ph.refunded && !ph.paid
    ensures Bal(w.ledger, a) == Bal(w.history.without, a) + (if ph.hold == Settled then Deltas(p.HoldTransfers(), a) else 0)
    ensures ph.hold != Reserved ==> Held(w.ledger, a) == Held(w.history.without, a)
  {
    assert Deltas(w.history.torn, a) == 0 && Reserves(w.history.torn, a) == 0;
  }

  /** The hold is made if and only if it was made before or the source covers it. */
  lemma {:induction false} HoldOkIff(p: Plan, w: World, rec: SagaRecord, tick: Tick, ph: Phase)
    requires WellNamed(p) && Tracks(p, w, ph) && ph.hold in {Nothing, Reserved} && tick.failOnLeg == ""
    requires !ph.reversed && !ph.refunded && !ph.paid && w.history.torn == []
    ensures Act(p, w, rec, Hold, tick).ok <==> ph.hold == Reserved || HoldCovered(p, w.history.without)
  {
    if ph.hold == Reserved {
      CreateReplay(w.ledger, p.HoldTransfers(), "");
    } else {
      NothingMoved(p, w, ph, p.source);
      HoldChainOkIff(w.ledger, p.key, p.source, p.legs, "");
      hide Create, LegTotal;
    }
  }

  /** Posting a chain that is held or posted fails only when it is made to. */
  lemma {:induction false} PostOkIff(p: Plan, w: World, rec: SagaRecord, tick: Tick, ph: Phase)
    requires WellNamed(p) && Tracks(p, w, ph) && ph.hold in {Reserved, Settled}
    requires rec.holdIds == HoldIds(Ids(p.HoldTransfers()))
    ensures Act(p, w, rec, SplitCommit, tick).ok <==> !tick.failOnPost
  {
    PostedOrNot(w.ledger, p.HoldTransfers(), ph.hold == Settled);
    hide Postable, PostLoop;
  }

  lemma {:induction false} OneDirectOkIff(l: Ledger, t: Transfer)
    requires t.id !in l.transfers && !t.pending
    ensures Create(l, [t], "").ok <==> t.amount > 0 && t.amount <= Bal(l, t.debit)
  {
    assert [t][1..] == [];
    assert CreateLoop(Insert(l, t), [t][1..], [] + [t], "").ok;
  }

  /** The payout is made if and only if it was made before or the account it leaves covers it. */
  lemma {:induction false} PayoutOkIff(p: Plan, w: World, rec: SagaRecord, tick: Tick, ph: Phase)
    requires WellNamed(p) && Tracks(p, w, ph) && ph.hold == Settled && tick.failOnLeg == "" && p.payout.PayoutSpec?
    requires !ph.reversed && !ph.refunded && w.history.torn == []
    ensures Act(p, w, rec, Payout, tick).ok <==> ph.paid || PayoutCovered(p, w.history.without)
  {
    var ts := p.PayoutTransfers();
    if ph.paid {
      CreateReplay(w.ledger, ts, "");
    } else {
      NothingMoved(p, w, ph, p.payout.account);
      assert ts[0].id !in w.ledger.transfers;
      OneDirectOkIff(w.ledger, ts[0]);
      assert ts == [ts[0]];
      hide Create;
    }
  }

  /** How the next action of a saga that runs forward ends. */
  lemma {:induction false} NextOkIff(p: Plan, w: World, rec: SagaRecord, tick: Tick, ph: Phase)
    requires WellNamed(p) && Tracks(p, w, ph) && Listed(p, rec) && Ahead(p, rec, w.history, ph)
    requires tick.failOnLeg == "" && |rec.completed| < |p.Steps()|
    ensures var a := Act(p, w, rec, p.Steps()[|rec.completed|], tick);
      match p.Steps()[|rec.completed|]
      case Hold => a.ok <==> ph.hold == Reserved || HoldCovered(p, w.history.without)
      case SplitCommit => a.ok <==> !tick.failOnPost
      case Payout => a.ok <==> ph.paid || PayoutCovered(p, w.history.without)
      case EventPublish => a.ok <==> !tick.publishFails
  {
    hide Tracks, WellNamed, HoldCovered, PayoutCovered;
    match p.Steps()[|rec.completed|]
    case Hold => HoldOkIff(p, w, rec, tick, ph);
    case SplitCommit => PostOkIff(p, w, rec, tick, ph);
    case Payout => PayoutOkIff(p, w, rec, tick, ph);
    case EventPublish =>
  }

  // ---------------------------------------------------------------------------
  // Crashes alone
  // ---------------------------------------------------------------------------

  /** Running forward, or done, with everything still covered. */
  ghost predicate OnTrack(p: Plan, w: World, ph: Phase) {
    && Inv(p, w, ph) && (w.record.state == COMPLETED || Forward(p, w, ph))
    && HoldCovered(p, w.history.without) && PayoutCovered(p, w.history.without)
  }

  lemma {:induction false} SaveKeepsCovered(p: Plan, w: World, rec: SagaRecord, ticks: seq<Tick>)
    requires HoldCovered(p, w.history.without) && PayoutCovered(p, w.history.without) && Quiet(ticks)
    ensures var h := Save(w, rec, ticks).history; HoldCovered(p, h.without) && PayoutCovered(p, h.without)
    ensures Save(w, rec, ticks).events == w.events
  {
    if ticks != [] { CoveredStays(p, w.history.without, ticks[0].others); }
  }

  lemma {:induction false} ActKeepsWithout(p: Plan, w: World, rec: SagaRecord, kind: StepKind, tick: Tick)
    ensures Act(p, w, rec, kind, tick).world.history.without == w.history.without
  {
  }

  lemma {:induction false} InterfereOnTrack(p: Plan, w: World, o: Others, ph: Phase)
    requires OnTrack(p, w, ph) && Harmless(o)
    ensures OnTrack(p, Interfere(w, o), ph)
    ensures Interfere(w, o).record == w.record && Interfere(w, o).events == w.events
  {
    InterfereTracks(p, w, o, ph);
    InterfereKeepsRecord(p, w, o, ph);
    CoveredStays(p, w.history.without, o);
    hide Tracks, RecordFits, HoldCovered, PayoutCovered, Harmless;
  }

  lemma {:induction false} NextIsOk(p: Plan, w: World, tick: Tick, ph: Phase)
    requires WellNamed(p) && OnTrack(p, w, ph) && w.record.state != COMPLETED && |w.record.completed| < |p.Steps()|
    requires tick.failOnLeg == "" && !tick.failOnPost && !tick.publishFails
    ensures Act(p, w, w.record, p.Steps()[|w.record.completed|], tick).ok
  {
    hide Tracks, WellNamed, HoldCovered, PayoutCovered, Act;
    NextOkIff(p, w, w.record, tick, ph);
  }

  /** The attempt at the next step, nothing being made to fail: it succeeds, and the record with and
      without the step fits the ledger. */
  lemma {:induction false} AttemptSucceeds(p: Plan, w: World, tick: Tick, ph: Phase) returns (ph': Phase)
    requires WellNamed(p) && OnTrack(p, w, ph) && w.record.state != COMPLETED && |w.record.completed| < |p.Steps()|
    requires tick.failOnLeg == "" && !tick.failOnPost && !tick.publishFails
    ensures var kind := p.Steps()[|w.record.completed|];
      var a := Act(p, w, w.record, kind, tick);
      && a.ok && OnTrack(p, a.world, ph') && a.world.record == w.record
      && RecordFits(p, StepDone(a.record, kind), a.world.history, a.world.events, ph')
      && a.world.events == w.events + (if kind == EventPublish then 1 else 0)
  {
    var rec := w.record;
    var kind := p.Steps()[|rec.completed|];
    hide Tracks, WellNamed, HoldCovered, PayoutCovered, Act, ActMoves, Ahead, Listed, Behind;
    assert Listed(p, rec) && Ahead(p, rec, w.history, ph);
    NextIsOk(p, w, tick, ph);
    ph' := ActTracks(p, w, rec, kind, tick, ph);
    var a := Act(p, w, rec, kind, tick);
    PublishRaisesEvents(p, w, rec, kind, tick);
    ActKeepsWithout(p, w, rec, kind, tick);
    ActLeaves(p, w, rec, kind, tick);
    ActRecords(p, rec, a.record, kind, a.ok, w.history, a.world.history, w.events, ph, ph');
    hide RecordFits;
  }

  lemma {:induction false} ActLeaves(p: Plan, w: World, rec: SagaRecord, kind: StepKind, tick: Tick)
    ensures var a := Act(p, w, rec, kind, tick);
      && a.world.record == w.record
      && a.record == (if kind == Hold && a.ok then rec.(holdIds := HoldIds(Ids(p.HoldTransfers()))) else rec)
  {
  }

  lemma {:induction false} SaveOnTrack(p: Plan, w: World, rec: SagaRecord, ticks: seq<Tick>, ph: Phase)
    requires OnTrack(p, w, ph) && RecordFits(p, rec, w.history, w.events, ph) && Quiet(ticks) && ticks != []
    requires rec.state == COMPLETED || (!Terminal(rec.state) && rec.state != COMPENSATING)
    ensures OnTrack(p, Save(w, rec, ticks), ph)
    ensures Save(w, rec, ticks).record == rec && Save(w, rec, ticks).events == w.events
  {
    SaveFits(p, w, rec, ticks, ph);
    SaveKeepsCovered(p, w, rec, ticks);
    hide Tracks, RecordFits, Save, HoldCovered, PayoutCovered;
  }

  /** One step of the forward loop. */
  lemma {:induction false} ExecuteStep(p: Plan, w: World, ticks: seq<Tick>)
    requires |ticks| >= 2 && |w.record.completed| < |p.Steps()|
    requires Act(p, Interfere(w, ticks[0].others), w.record, p.Steps()[|w.record.completed|], ticks[0]).ok
    ensures var kind := p.Steps()[|w.record.completed|];
      var a := Act(p, Interfere(w, ticks[0].others), w.record, kind, ticks[0]);
      Execute(p, w, w.record, ticks) == Execute(p, AfterStep(p, w, ticks), StepDone(a.record, kind), ticks[2..])
  {
    ActLeaves(p, Interfere(w, ticks[0].others), w.record, p.Steps()[|w.record.completed|], ticks[0]);
    hide Act, Interfere, Save;
  }

  /** The world after a step and its save. */
  function AfterStep(p: Plan, w: World, ticks: seq<Tick>): World
    requires |ticks| >= 2 && |w.record.completed| < |p.Steps()|
  {
    var kind := p.Steps()[|w.record.completed|];
    var a := Act(p, Interfere(w, ticks[0].others), w.record, kind, ticks[0]);
    Save(a.world, StepDone(a.record, kind), ticks[1..])
  }

  lemma {:induction false} StepStaysOnTrack(p: Plan, w: World, ticks: seq<Tick>, ph: Phase) returns (ph': Phase)
    requires WellNamed(p) && OnTrack(p, w, ph) && w.record.state != COMPLETED && Untroubled(ticks)
    requires |ticks| >= 2 && |w.record.completed| < |p.Steps()|
    ensures var w', c := AfterStep(p, w, ticks), |w.record.completed|;
      && OnTrack(p, w', ph') && w'.record.state != COMPLETED && |w'.record.completed| == c + 1
      && w'.events == w.events + (if p.Steps()[c] == EventPublish then 1 else 0)
      && Execute(p, w, w.record, ticks) == Execute(p, w', w'.record, ticks[2..])
  {
    hide Act, Interfere, WellNamed, Harmless, RecordFits, OnTrack, Execute, Save;
    InterfereOnTrack(p, w, ticks[0].others, ph);
    var kind := p.Steps()[|w.record.completed|];
    var w1 := Interfere(w, ticks[0].others);
    ph' := AttemptSucceeds(p, w1, ticks[0], ph);
    var a := Act(p, w1, w.record, kind, ticks[0]);
    ActLeaves(p, w1, w.record, kind, ticks[0]);
    ExecuteStep(p, w, ticks);
    SaveOnTrack(p, a.world, StepDone(a.record, kind), ticks[1..], ph');
  }

  /** One life, cut short or not. */
  lemma {:induction false} ExecuteStaysOnTrack(p: Plan, w: World, ticks: seq<Tick>, ph: Phase) returns (ph': Phase)
    requires WellNamed(p) && OnTrack(p, w, ph) && w.record.state != COMPLETED && Untroubled(ticks)
    ensures var w', n := Execute(p, w, w.record, ticks), |p.Steps()| - |w.record.completed|;
      && OnTrack(p, w', ph')
      && (|ticks| >= 2 * n + 1 ==> w'.record.state == COMPLETED && w'.events == w.events + (if n > 0 then 1 else 0))
    decreases |ticks|
  {
    ph' := ph;
    var c := |w.record.completed|;
    hide Act, Interfere, Tracks, WellNamed, HoldCovered, PayoutCovered, Harmless, AfterStep;
    if c >= |p.Steps()| {
      SaveFits(p, w, w.record.(state := COMPLETED), ticks, ph);
      SaveKeepsCovered(p, w, w.record.(state := COMPLETED), ticks);
    } else if |ticks| == 1 {
      InterfereOnTrack(p, w, ticks[0].others, ph);
      ph' := AttemptSucceeds(p, Interfere(w, ticks[0].others), ticks[0], ph);
    } else if |ticks| > 1 {
      ph' := StepStaysOnTrack(p, w, ticks, ph);
      hide Execute, OnTrack;
      ph' := ExecuteStaysOnTrack(p, AfterStep(p, w, ticks), ticks[2..], ph');
      LastStepPublishes(p, c);
    }
  }

  lemma {:induction false} LastStepPublishes(p: Plan, c: nat)
    requires c < |p.Steps()|
    ensures p.Steps()[c] == EventPublish <==> c == |p.Steps()| - 1
  {
  }

  lemma {:induction false} LivesStayOnTrack(p: Plan, w: World, lives: seq<seq<Tick>>, ph: Phase) returns (ph': Phase)
    requires WellNamed(p) && OnTrack(p, w, ph) && forall i :: 0 <= i < |lives| ==> Untroubled(lives[i])
    ensures OnTrack(p, Lives(p, w, lives), ph')
    decreases |lives|
  {
    ph' := ph;
    if lives != [] {
      TailAt(lives);
      hide Inv, HoldCovered, PayoutCovered, WellNamed, Untroubled, Execute;
      if w.record.state != COMPLETED { ph' := ExecuteStaysOnTrack(p, w, lives[0], ph); }
      ph' := LivesStayOnTrack(p, Recover(p, w, lives[0]), lives[1..], ph');
    }
  }

  /** The largest life a saga needs: an action and a save a step, and the closing save. */
  function Enough(p: Plan): nat { 2 * |p.Steps()| + 1 }

  /** A covered saga in which nothing is made to fail completes, in one life that is long enough: the event
      is published once, the source pays every leg, every destination and the payee get theirs. */
  lemma {:induction false} CalmSagaCompletes(p: Plan, l: Ledger, ticks: seq<Tick>, a: Account)
    requires Usable(p, l) && HoldCovered(p, l) && PayoutCovered(p, l) && Untroubled(ticks) && |ticks| >= Enough(p)
    ensures var w := Recover(p, Begun(l), ticks);
      && w.record.state == COMPLETED && w.events == 1
      && Bal(w.ledger, a) == Bal(w.history.without, a) + PaidInto(p.legs, a)
           - (if a == p.source then LegTotal(p.legs) else 0) + Deltas(p.PayoutTransfers(), a)
      && Held(w.ledger, a) == Held(w.history.without, a)
  {
    BegunFits(p, l);
    var ph := ExecuteStaysOnTrack(p, Begun(l), ticks, Phase(Nothing, false, false, false));
    CompletedMeansOnce(p, l, [ticks]);
    assert [ticks][1..] == [];
    assert Lives(p, Begun(l), [ticks]) == Recover(p, Begun(l), ticks);
    HoldChainPays(p.key, p.source, p.legs, a);
    hide Execute, Deltas, PaidInto, LegTotal;
  }

  /** Crashes alone never keep a covered saga from completing: any number of lives, each cut short anywhere,
      and then one that is long enough. */
  lemma {:induction false} CrashesDoNotStopIt(p: Plan, l: Ledger, lives: seq<seq<Tick>>, last: seq<Tick>)
    requires Usable(p, l) && HoldCovered(p, l) && PayoutCovered(p, l)
    requires (forall i :: 0 <= i < |lives| ==> Untroubled(lives[i])) && Untroubled(last) && |last| >= Enough(p)
    ensures Recover(p, Lives(p, Begun(l), lives), last).record.state == COMPLETED
  {
    BegunFits(p, l);
    var ph := LivesStayOnTrack(p, Begun(l), lives, Phase(Nothing, false, false, false));
    var w := Lives(p, Begun(l), lives);
    if w.record.state != COMPLETED { ph := ExecuteStaysOnTrack(p, w, last, ph); }
  }

  // ---------------------------------------------------------------------------
  // What the saved state says
  // ---------------------------------------------------------------------------

  /** A running saga's state is named after the last of the steps its record lists. */
  predicate StateFits(p: Plan, rec: SagaRecord) {
    Terminal(rec.state) || rec.state == COMPENSATING ||
    match |rec.completed|
    case 0 => rec.state == INIT
    case 1 => rec.state == HELD
    case 2 => rec.state == SPLIT_COMMITTED
    case n => rec.state == (if n == 3 && p.payout.PayoutSpec? then PAYOUT_DONE else EVENT_PUBLISHED)
  }

  lemma {:induction false} SaveFitsState(p: Plan, w: World, rec: SagaRecord, ticks: seq<Tick>)
    requires StateFits(p, w.record) && StateFits(p, rec)
    ensures StateFits(p, Save(w, rec, ticks).record)
  {
  }

  lemma {:induction false} WalkFitsState(p: Plan, w: World, rec: SagaRecord, k: nat, ticks: seq<Tick>)
    requires StateFits(p, w.record) && k <= |rec.completed|
    ensures StateFits(p, Walk(p, w, rec, k, ticks).record)
    decreases k
  {
    hide Undo, Save, Interfere;
    if k == 0 {
      SaveFitsState(p, w, rec.(state := COMPENSATED), ticks);
    } else if rec.completed[k - 1] == EventPublish {
      WalkFitsState(p, w, rec, k - 1, ticks);
    } else if ticks != [] {
      var w1 := Interfere(w, ticks[0].others);
      InterfereSameRecord(w, ticks[0].others);
      UndoLeaves(p, w1, rec, rec.completed[k - 1], ticks[0]);
      var a := Undo(p, w1, rec, rec.completed[k - 1], ticks[0]);
      SaveFitsState(p, a.world, rec.(state := FAILED), ticks[1..]);
      if a.ok { WalkFitsState(p, a.world, rec, k - 1, ticks[1..]); }
    }
  }

  lemma {:induction false} InterfereSameRecord(w: World, o: Others)
    ensures Interfere(w, o).record == w.record
  {
  }

  lemma {:induction false} CompensateFitsState(p: Plan, w: World, rec: SagaRecord, ticks: seq<Tick>)
    requires StateFits(p, w.record)
    ensures StateFits(p, Compensate(p, w, rec, ticks).record)
  {
    hide Save, Walk;
    if ticks != [] {
      var rec1 := rec.(state := COMPENSATING);
      SaveFitsState(p, w, rec1, ticks);
      WalkFitsState(p, Save(w, rec1, ticks), rec1, |rec1.completed|, ticks[1..]);
    }
  }

  lemma {:induction false} DoneFitsState(p: Plan, rec: SagaRecord)
    requires |rec.completed| < |p.Steps()|
    ensures StateFits(p, StepDone(rec, p.Steps()[|rec.completed|]))
  {
  }

  lemma {:induction false} ExecuteFitsState(p: Plan, w: World, rec: SagaRecord, ticks: seq<Tick>)
    requires StateFits(p, w.record)
    ensures StateFits(p, Execute(p, w, rec, ticks).record)
    decreases |ticks|
  {
    hide Act, Save, Interfere, Compensate, StateFits;
    var c := |rec.completed|;
    if c >= |p.Steps()| {
      assert StateFits(p, rec.(state := COMPLETED)) by { TerminalFits(p, rec.(state := COMPLETED)); }
      SaveFitsState(p, w, rec.(state := COMPLETED), ticks);
    } else if ticks != [] {
      var kind, w1 := p.Steps()[c], Interfere(w, ticks[0].others);
      InterfereSameRecord(w, ticks[0].others);
      ActLeaves(p, w1, rec, kind, ticks[0]);
      var a := Act(p, w1, rec, kind, ticks[0]);
      if !a.ok {
        CompensateFitsState(p, a.world, a.record, ticks[1..]);
      } else if |ticks| > 1 {
        var done := StepDone(a.record, kind);
        DoneFitsState(p, a.record);
        SaveFitsState(p, a.world, done, ticks[1..]);
        ExecuteFitsState(p, Save(a.world, done, ticks[1..]), done, ticks[2..]);
      }
    }
  }

  lemma {:induction false} TerminalFits(p: Plan, rec: SagaRecord)
    requires Terminal(rec.state)
    ensures StateFits(p, rec)
  {
  }

  /** In every run the state that is saved names the last completed step, until the saga ends or compensates. */
  lemma {:induction false} StateNamesStep(p: Plan, w: World, lives: seq<seq<Tick>>)
    requires StateFits(p, w.record)
    ensures StateFits(p, Lives(p, w, lives).record)
    decreases |lives|
  {
    if lives != [] {
      hide Execute, Compensate, StateFits;
      CompensateFitsState(p, w, w.record, lives[0]);
      ExecuteFitsState(p, w, w.record, lives[0]);
      StateNamesStep(p, Recover(p, w, lives[0]), lives[1..]);
    }
  }
}
