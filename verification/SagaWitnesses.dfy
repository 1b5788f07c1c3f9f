/** Two concrete runs that end COMPENSATED with money still moved, one for each condition of
    `CompensatedNetsToZeroIff`. */
module SagaWitnesses {
  import opened Sums
  import opened TransferLedger
  import opened TransferLedgerLaws
  import opened Saga

  const CALM := Tick(Others(map[], map[]), "", false, false)
  const POST_FAILS := Tick(Others(map[], map[]), "", true, false)
  const NO_BALANCES: map<Account, int> := map[]

  lemma {:induction false} AddNothing(m: map<Account, int>)
    ensures AddMaps(m, map[]) == m
  {
    assert m.Keys + NO_BALANCES.Keys == m.Keys;
    assert forall a :: a in m ==> AddMaps(m, NO_BALANCES)[a] == m[a];
    assert AddMaps(m, NO_BALANCES).Keys == m.Keys;
  }

  lemma {:induction false} AddOne(m: map<Account, int>, a: Account, v: int)
    requires a in m
    ensures AddMaps(m, map[a := v]) == m[a := m[a] + v]
  {
    var d: map<Account, int> := map[a := v];
    assert m.Keys + d.Keys == m.Keys;
    assert forall x :: x in m ==> AddMaps(m, d)[x] == m[a := m[a] + v][x];
    assert AddMaps(m, d).Keys == m.Keys;
  }

  lemma {:induction false} NobodyActs(w: World)
    ensures Interfere(w, Others(map[], map[])) == w
  {
    AddNothing(w.ledger.balances);
    AddNothing(w.ledger.holds);
    AddNothing(w.history.without.balances);
    AddNothing(w.history.without.holds);
  }

  // ---------------------------------------------------------------------------
  // A stray post failure
  // ---------------------------------------------------------------------------

  const TAX_PLAN := Plan("k", 1, [Leg("tax", 2, 5)], NoPayout)
  const TAX := HoldLeg("k", 1, Leg("tax", 2, 5), false)
  const FUNDED := Ledger(map[], map[1 := 5], map[])
  const TAX_HELD := Insert(FUNDED, TAX)
  const TAX_PAID := Ledger(map[TAX.id := TAX.(state := POSTED)], map[1 := 0, 2 := 5], map[1 := 0])
  const TAX_RECORD := SagaRecord(HELD, [Hold], HoldIds([TAX.id]))
  const PAID_UNSAVED := World(TAX_PAID, TAX_RECORD, 0, History(FUNDED, false, []))

  lemma {:induction false} HoldTax()
    ensures TAX_PLAN.HoldTransfers() == [TAX]
    ensures Act(TAX_PLAN, Begun(FUNDED), SagaRecord(INIT, [], NoIds), Hold, CALM)
      == Attempt(true, Begun(FUNDED).(ledger := TAX_HELD), SagaRecord(INIT, [], HoldIds([TAX.id])))
  {
    assert [TAX][1..] == [];
    assert CreateLoop(FUNDED, [TAX], [], "") == CreateLoop(TAX_HELD, [], [] + [TAX], "");
    assert Ids([TAX]) == [TAX.id];
  }

  lemma {:induction false} PostTax()
    ensures PostLoop(TAX_HELD, [TAX.id]) == TAX_PAID
  {
    assert [TAX.id][1..] == [];
    assert PostLoop(TAX_HELD, [TAX.id]) == PostOne(TAX_HELD, TAX.id);
  }

  lemma {:induction false} FirstLife()
    ensures Recover(TAX_PLAN, Begun(FUNDED), [CALM, CALM, CALM]) == PAID_UNSAVED
  {
    var p, w0, r0 := TAX_PLAN, Begun(FUNDED), SagaRecord(INIT, [], NoIds);
    var fate := [CALM, CALM, CALM];
    HoldTax();
    PostTax();
    NobodyActs(w0);
    var w1 := w0.(ledger := TAX_HELD);
    NobodyActs(w1);
    var w2 := w1.(record := TAX_RECORD);
    NobodyActs(w2);
    assert [] + [Hold] == [Hold];
    assert fate[1..][0] == CALM && fate[2..] == [CALM];
    assert Execute(p, w0, r0, fate) == Execute(p, w2, TAX_RECORD, [CALM]);
    assert Execute(p, w2, TAX_RECORD, [CALM]) == Act(p, w2, TAX_RECORD, SplitCommit, CALM).world;
  }

  lemma {:induction false} SecondLife()
    ensures Recover(TAX_PLAN, PAID_UNSAVED, [POST_FAILS, CALM, CALM, CALM]).record.state == COMPENSATED
    ensures Recover(TAX_PLAN, PAID_UNSAVED, [POST_FAILS, CALM, CALM, CALM]).ledger == TAX_PAID
    ensures Recover(TAX_PLAN, PAID_UNSAVED, [POST_FAILS, CALM, CALM, CALM]).history.without == FUNDED
  {
    var p, w3 := TAX_PLAN, PAID_UNSAVED;
    var fate := [POST_FAILS, CALM, CALM, CALM];
    NobodyActs(w3);
    var w4 := w3.(history := History(FUNDED, true, []));
    assert Act(p, w3, TAX_RECORD, SplitCommit, POST_FAILS) == Attempt(false, w4, TAX_RECORD);
    assert fate[1..] == [CALM, CALM, CALM] && fate[1..][1..] == [CALM, CALM] && fate[1..][1..][1..] == [CALM];
    var rec := TAX_RECORD.(state := COMPENSATING);
    NobodyActs(w4);
    var w5 := w4.(record := rec);
    NobodyActs(w5);
    assert StillPending(TAX_PAID, [TAX.id]) == [];
    assert Recover(p, w3, fate) == Compensate(p, w4, TAX_RECORD, fate[1..]);
    assert Compensate(p, w4, TAX_RECORD, fate[1..]) == Walk(p, w5, rec, 1, [CALM, CALM]);
    assert Walk(p, w5, rec, 1, [CALM, CALM]) == Walk(p, w5, rec, 0, [CALM]);
  }

  /** The first life dies right after posting the chain, before saving it; the second one's post
      raises, so the saga is compensated although the leg has been paid. */
  lemma {:induction false} StrayPostLeavesChainPaid()
    ensures
      var w := Lives(TAX_PLAN, Begun(FUNDED), [[CALM, CALM, CALM], [POST_FAILS, CALM, CALM, CALM]]);
      w.record.state == COMPENSATED && Bal(w.ledger, 1) == 0 && Bal(w.ledger, 2) == 5 && Bal(w.history.without, 2) == 0
  {
    FirstLife();
    SecondLife();
    var first, second := [CALM, CALM, CALM], [POST_FAILS, CALM, CALM, CALM];
    assert [first, second][1..] == [second] && [second][1..] == [];
    assert Lives(TAX_PLAN, PAID_UNSAVED, [second]) == Lives(TAX_PLAN, Recover(TAX_PLAN, PAID_UNSAVED, second), []);
  }

  // ---------------------------------------------------------------------------
  // A torn reversal
  // ---------------------------------------------------------------------------

  const PAIR_PLAN := Plan("k", 1, [Leg("a", 2, 5), Leg("b", 3, 5)], NoPayout)
  const BACK_A := ReversalLeg("k", 1, Leg("a", 2, 5), true)
  const BACK_B := ReversalLeg("k", 1, Leg("b", 3, 5), false)
  const HOLD_A := HoldLeg("k", 1, Leg("a", 2, 5), true)
  const HOLD_B := HoldLeg("k", 1, Leg("b", 3, 5), false)
  const PAIR: map<TransferId, Transfer> := map["k|a" := HOLD_A.(state := POSTED), "k|b" := HOLD_B.(state := POSTED)]
  const PAIR_RECORD := SagaRecord(COMPENSATING, [Hold, SplitCommit], HoldIds(["k|a", "k|b"]))
  const PAIR_WITHOUT := Ledger(map[], map[1 := 10, 2 := 5, 3 := 0], map[])
  const PAIR_HELD := Insert(Insert(PAIR_WITHOUT, HOLD_A), HOLD_B)
  const PAIR_PAID := Ledger(PAIR, map[1 := 0, 2 := 10, 3 := 5], map[1 := 0])
  const PAIR_POSTED := World(PAIR_PAID, PAIR_RECORD, 0, History(PAIR_WITHOUT, false, []))

  const PUBLISH_FAILS := Tick(Others(map[], map[]), "", false, true)
  const DRAIN := Tick(Others(map[3 := -5], map[]), "", false, false)
  const REFILL := Tick(Others(map[3 := 5], map[]), "", false, false)

  const PAIR_DRAINED := Ledger(PAIR, map[1 := 0, 2 := 10, 3 := 0], map[1 := 0])
  const PAIR_TORN := Ledger(PAIR, map[1 := 5, 2 := 5, 3 := 0], map[1 := 0, 2 := -5])
  const TORN_HISTORY := History(Ledger(map[], map[1 := 10, 2 := 5, 3 := -5], map[]), false, [BACK_A])

  lemma {:induction false} PairIds()
    ensures PAIR_PLAN.ReversalTransfers() == [BACK_A, BACK_B]
    ensures BACK_A.id != BACK_B.id && BACK_A.id !in PAIR && BACK_B.id !in PAIR
  {
    assert |BACK_A.id| == |BACK_B.id| && BACK_A.id[2] == 'a' && BACK_B.id[2] == 'b';
    assert |BACK_A.id| > 3;
  }

  lemma {:induction false} HoldPair()
    ensures PAIR_PLAN.HoldTransfers() == [HOLD_A, HOLD_B] && Ids([HOLD_A, HOLD_B]) == ["k|a", "k|b"]
    ensures Create(PAIR_WITHOUT, [HOLD_A, HOLD_B], "") == Created(true, PAIR_HELD, [HOLD_A, HOLD_B])
  {
    assert HOLD_A.id == "k|a" && HOLD_B.id == "k|b" && "k|a"[2] != "k|b"[2];
    var l1 := Insert(PAIR_WITHOUT, HOLD_A);
    assert [HOLD_A, HOLD_B][1..] == [HOLD_B] && [HOLD_B][1..] == [] && [] + [HOLD_A] == [HOLD_A];
    assert CreateLoop(l1, [HOLD_B], [HOLD_A], "") == CreateLoop(PAIR_HELD, [], [HOLD_A] + [HOLD_B], "");
    assert CreateLoop(PAIR_WITHOUT, [HOLD_A, HOLD_B], [], "") == CreateLoop(l1, [HOLD_B], [HOLD_A], "");
  }

  lemma {:induction false} PostPair()
    ensures Post(PAIR_HELD, ["k|a", "k|b"], false) == Outcome(true, PAIR_PAID)
  {
    assert HOLD_A.id == "k|a" && HOLD_B.id == "k|b" && "k|a"[2] != "k|b"[2];
    var l1 := PostOne(PAIR_HELD, "k|a");
    assert ["k|a", "k|b"][1..] == ["k|b"] && ["k|b"][1..] == [];
    assert PostLoop(PAIR_HELD, ["k|a", "k|b"]) == PostLoop(l1, ["k|b"]) == PostOne(l1, "k|b");
    assert PostOne(l1, "k|b").transfers == PAIR;
    assert PostOne(l1, "k|b") == PAIR_PAID;
  }

  const PAIR_BEGUN := SagaRecord(INIT, [], NoIds)
  const PAIR_ONE := SagaRecord(HELD, [Hold], HoldIds(["k|a", "k|b"]))
  const PAIR_TWO := SagaRecord(SPLIT_COMMITTED, [Hold, SplitCommit], HoldIds(["k|a", "k|b"]))

  lemma {:induction false} PairSteps(w: World)
    ensures w.ledger == PAIR_WITHOUT ==>
      Act(PAIR_PLAN, w, PAIR_BEGUN, Hold, CALM) == Attempt(true, w.(ledger := PAIR_HELD), PAIR_BEGUN.(holdIds := PAIR_ONE.holdIds))
    ensures w.ledger == PAIR_HELD ==>
      Act(PAIR_PLAN, w, PAIR_ONE, SplitCommit, CALM)
        == Attempt(true, w.(ledger := PAIR_PAID, history := w.history.(stray := false)), PAIR_ONE)
  {
    HoldPair();
    PostPair();
    hide Create, Post;
  }

  /** A step and its save, with nobody else about. */
  lemma {:induction false} CalmStep(p: Plan, w: World, rec: SagaRecord, ticks: seq<Tick>)
    requires |ticks| >= 2 && ticks[0] == CALM && ticks[1] == CALM && |rec.completed| < |p.Steps()|
    requires Act(p, w, rec, p.Steps()[|rec.completed|], CALM).ok
    ensures var kind := p.Steps()[|rec.completed|];
      var a := Act(p, w, rec, kind, CALM);
      var done := a.record.(completed := rec.completed + [kind], state := ForwardState(kind));
      Execute(p, w, rec, ticks) == Execute(p, a.world.(record := done), done, ticks[2..])
  {
    NobodyActs(w);
    NobodyActs(Act(p, w, rec, p.Steps()[|rec.completed|], CALM).world);
    hide Act, Interfere;
    assert ticks[1..][0] == CALM;
  }

  lemma {:induction false} PublishFailsLast(p: Plan, w: World, rec: SagaRecord)
    requires |rec.completed| < |p.Steps()| && p.Steps()[|rec.completed|] == EventPublish
    ensures var done := rec.(state := COMPENSATING);
      Execute(p, w, rec, [PUBLISH_FAILS, CALM]) == Walk(p, w.(record := done), done, |done.completed|, [])
  {
    NobodyActs(w);
    hide Interfere;
    assert [PUBLISH_FAILS, CALM][1..] == [CALM] && [CALM][1..] == [];
    assert Execute(p, w, rec, [PUBLISH_FAILS, CALM]) == Compensate(p, w, rec, [CALM]);
  }

  const PAIR_HOLDING := World(PAIR_HELD, PAIR_ONE, 0, History(PAIR_WITHOUT, false, []))
  const PAIR_SPLIT := World(PAIR_PAID, PAIR_TWO, 0, History(PAIR_WITHOUT, false, []))

  lemma {:induction false} PairHolds(ticks: seq<Tick>)
    requires |ticks| >= 2 && ticks[0] == CALM && ticks[1] == CALM
    ensures Execute(PAIR_PLAN, Begun(PAIR_WITHOUT), PAIR_BEGUN, ticks) == Execute(PAIR_PLAN, PAIR_HOLDING, PAIR_ONE, ticks[2..])
  {
    assert [] + [Hold] == [Hold];
    PairSteps(Begun(PAIR_WITHOUT));
    hide Act, Execute;
    CalmStep(PAIR_PLAN, Begun(PAIR_WITHOUT), PAIR_BEGUN, ticks);
  }

  lemma {:induction false} PairSplits(ticks: seq<Tick>)
    requires |ticks| >= 2 && ticks[0] == CALM && ticks[1] == CALM
    ensures Execute(PAIR_PLAN, PAIR_HOLDING, PAIR_ONE, ticks) == Execute(PAIR_PLAN, PAIR_SPLIT, PAIR_TWO, ticks[2..])
  {
    assert [Hold] + [SplitCommit] == [Hold, SplitCommit];
    PairSteps(PAIR_HOLDING);
    hide Act, Execute;
    CalmStep(PAIR_PLAN, PAIR_HOLDING, PAIR_ONE, ticks);
  }

  lemma {:induction false} PairStops()
    ensures Execute(PAIR_PLAN, PAIR_SPLIT, PAIR_TWO, [PUBLISH_FAILS, CALM]) == PAIR_POSTED
  {
    assert PAIR_PLAN.Steps() == [Hold, SplitCommit, EventPublish];
    PublishFailsLast(PAIR_PLAN, PAIR_SPLIT, PAIR_TWO);
    hide Execute;
    assert Walk(PAIR_PLAN, PAIR_POSTED, PAIR_RECORD, 2, []) == PAIR_POSTED;
  }

  lemma {:induction false} BegunExecutes(p: Plan, l: Ledger, ticks: seq<Tick>)
    ensures Recover(p, Begun(l), ticks) == Execute(p, Begun(l), PAIR_BEGUN, ticks)
  {
    hide Execute;
  }

  /** The hold and the split are made and saved, the event cannot be published, and the process dies
      having saved that it is compensating. */
  lemma {:induction false} PairBegins(fate: seq<Tick>)
    requires |fate| == 6 && fate[0] == fate[1] == fate[2] == fate[3] == CALM && fate[4..] == [PUBLISH_FAILS, CALM]
    ensures Recover(PAIR_PLAN, Begun(PAIR_WITHOUT), fate) == PAIR_POSTED
  {
    hide *;
    BegunExecutes(PAIR_PLAN, PAIR_WITHOUT, fate);
    PairHolds(fate);
    PairSplits(fate[2..]);
    assert fate[2..][2..] == fate[4..];
    PairStops();
  }

  /** With account 3 drained, the reversal applies leg `a`, refuses leg `b` and forgets leg `a`. */
  lemma {:induction false} TornCreate()
    ensures Create(PAIR_DRAINED, [BACK_A, BACK_B], "") == Created(false, PAIR_TORN, [BACK_A])
  {
    PairIds();
    var l1 := Insert(PAIR_DRAINED, BACK_A);
    assert [BACK_A, BACK_B][1..] == [BACK_B] && [] + [BACK_A] == [BACK_A];
    assert CreateLoop(l1, [BACK_B], [BACK_A], "") == Created(false, l1, [BACK_A]);
    assert CreateLoop(PAIR_DRAINED, [BACK_A, BACK_B], [], "") == Created(false, l1, [BACK_A]);
    var l2 := RollbackOne(l1, BACK_A);
    assert [BACK_A][1..] == [];
    assert Rollback(l1, [BACK_A]) == Rollback(l2, []);
    assert l2.transfers == PAIR;
    assert l2 == PAIR_TORN;
  }

  /** Once account 3 has its money back, the retried reversal applies both legs, leg `a` again. */
  lemma {:induction false} SecondCreate()
    ensures
      var l := Ledger(PAIR, map[1 := 5, 2 := 5, 3 := 5], map[1 := 0, 2 := -5]);
      var r := Create(l, [BACK_A, BACK_B], "");
      r.ok && Bal(r.ledger, 1) == 15 && Bal(r.ledger, 2) == 0 && Bal(r.ledger, 3) == 0
      && StillPending(r.ledger, ["k|a", "k|b"]) == []
  {
    PairIds();
    var l := Ledger(PAIR, map[1 := 5, 2 := 5, 3 := 5], map[1 := 0, 2 := -5]);
    var l1 := Insert(l, BACK_A);
    var l2 := Insert(l1, BACK_B);
    assert [BACK_A, BACK_B][1..] == [BACK_B] && [BACK_B][1..] == [];
    assert CreateLoop(l1, [BACK_B], [] + [BACK_A], "") == CreateLoop(l2, [], ([] + [BACK_A]) + [BACK_B], "");
    assert CreateLoop(l, [BACK_A, BACK_B], [], "") == CreateLoop(l1, [BACK_B], [] + [BACK_A], "");
    assert ["k|a", "k|b"][1..] == ["k|b"] && ["k|b"][1..] == [];
    assert StillPending(l2, ["k|b"]) == [];
  }

  lemma {:induction false} Drained()
    ensures Interfere(PAIR_POSTED, DRAIN.others) ==
      PAIR_POSTED.(ledger := PAIR_DRAINED, history := TORN_HISTORY.(torn := []))
  {
    AddNothing(PAIR_POSTED.ledger.holds);
    AddNothing(PAIR_WITHOUT.holds);
    AddOne(PAIR_POSTED.ledger.balances, 3, -5);
    AddOne(PAIR_WITHOUT.balances, 3, -5);
  }

  lemma {:induction false} DrainedUndo(w: World)
    requires w.ledger == PAIR_DRAINED
    ensures Undo(PAIR_PLAN, w, PAIR_RECORD, SplitCommit, DRAIN) ==
      Attempt(false, w.(ledger := PAIR_TORN, history := w.history.(torn := w.history.torn + [BACK_A])), PAIR_RECORD)
  {
    TornCreate();
    PairIds();
    var r := Create(w.ledger, PAIR_PLAN.ReversalTransfers(), DRAIN.failOnLeg);
    assert r == Created(false, PAIR_TORN, [BACK_A]);
    assert Reversible(PAIR_PLAN.legs);
  }

  lemma {:induction false} DyingUndo()
    ensures Undo(PAIR_PLAN, Interfere(PAIR_POSTED, DRAIN.others), PAIR_RECORD, SplitCommit, DRAIN) ==
      Attempt(false, World(PAIR_TORN, PAIR_RECORD, 0, TORN_HISTORY), PAIR_RECORD)
  {
    hide Undo;
    Drained();
    DrainedUndo(Interfere(PAIR_POSTED, DRAIN.others));
    assert [] + [BACK_A] == [BACK_A];
  }

  lemma {:induction false} DyingLife()
    ensures Recover(PAIR_PLAN, PAIR_POSTED, [CALM, DRAIN]) == World(PAIR_TORN, PAIR_RECORD, 0, TORN_HISTORY)
  {
    NobodyActs(PAIR_POSTED);
    DyingUndo();
    hide Undo;
    var w := PAIR_POSTED;
    assert [CALM, DRAIN][1..] == [DRAIN] && [DRAIN][1..] == [];
    assert Recover(PAIR_PLAN, w, [CALM, DRAIN]) == Walk(PAIR_PLAN, w, PAIR_RECORD, 2, [DRAIN]);
    var a := Undo(PAIR_PLAN, Interfere(w, DRAIN.others), PAIR_RECORD, SplitCommit, DRAIN);
    hide Interfere;
    assert Walk(PAIR_PLAN, w, PAIR_RECORD, 2, [DRAIN]) == Save(a.world, PAIR_RECORD.(state := FAILED), []);
  }

  const REFILLED := Ledger(PAIR, map[1 := 5, 2 := 5, 3 := 5], map[1 := 0, 2 := -5])

  lemma {:induction false} Refilled()
    ensures var w := Interfere(World(PAIR_TORN, PAIR_RECORD, 0, TORN_HISTORY), REFILL.others);
      && w.ledger == REFILLED && w.record == PAIR_RECORD && Bal(w.history.without, 1) == 10
  {
    AddNothing(PAIR_TORN.holds);
    AddOne(PAIR_TORN.balances, 3, 5);
    AddOne(TORN_HISTORY.without.balances, 3, 5);
  }

  lemma {:induction false} LastCompensation(w: World)
    requires w.record == PAIR_RECORD && StillPending(w.ledger, ["k|a", "k|b"]) == []
    ensures Walk(PAIR_PLAN, w, PAIR_RECORD, 1, [CALM, CALM]) == w.(record := PAIR_RECORD.(state := COMPENSATED))
  {
    NobodyActs(w);
    assert Undo(PAIR_PLAN, w, PAIR_RECORD, Hold, CALM) == Attempt(true, w, PAIR_RECORD);
    assert [CALM, CALM][1..] == [CALM];
    assert Walk(PAIR_PLAN, w, PAIR_RECORD, 1, [CALM, CALM]) == Walk(PAIR_PLAN, w, PAIR_RECORD, 0, [CALM]);
    assert Walk(PAIR_PLAN, w, PAIR_RECORD, 0, [CALM]) == Save(w, PAIR_RECORD.(state := COMPENSATED), [CALM]);
  }

  lemma {:induction false} ReversalRetried(w: World)
    requires w.ledger == REFILLED && w.record == PAIR_RECORD
    ensures var a := Undo(PAIR_PLAN, w, PAIR_RECORD, SplitCommit, REFILL);
      && a.ok && a.world.record == PAIR_RECORD && a.world.history == w.history
      && Bal(a.world.ledger, 1) == 15 && StillPending(a.world.ledger, ["k|a", "k|b"]) == []
  {
    PairIds();
    SecondCreate();
  }

  lemma {:induction false} RetryingLife()
    ensures var w := Recover(PAIR_PLAN, World(PAIR_TORN, PAIR_RECORD, 0, TORN_HISTORY), [CALM, REFILL, CALM, CALM]);
      w.record.state == COMPENSATED && Bal(w.ledger, 1) == 15 && Bal(w.history.without, 1) == 10
  {
    hide Undo;
    var w := World(PAIR_TORN, PAIR_RECORD, 0, TORN_HISTORY);
    var fate := [CALM, REFILL, CALM, CALM];
    NobodyActs(w);
    Refilled();
    var w1 := Interfere(w, REFILL.others);
    ReversalRetried(w1);
    var a := Undo(PAIR_PLAN, w1, PAIR_RECORD, SplitCommit, REFILL);
    assert fate[1..] == [REFILL, CALM, CALM] && fate[1..][1..] == [CALM, CALM];
    assert Recover(PAIR_PLAN, w, fate) == Walk(PAIR_PLAN, w, PAIR_RECORD, 2, fate[1..]);
    assert Walk(PAIR_PLAN, w, PAIR_RECORD, 2, fate[1..]) == Walk(PAIR_PLAN, a.world, PAIR_RECORD, 1, [CALM, CALM]);
    LastCompensation(a.world);
  }

  lemma {:induction false} ThreeLives(p: Plan, w: World, a: seq<Tick>, b: seq<Tick>, c: seq<Tick>)
    ensures Lives(p, w, [a, b, c]) == Recover(p, Recover(p, Recover(p, w, a), b), c)
  {
    hide Recover;
    var w1 := Recover(p, w, a);
    assert [a, b, c][1..] == [b, c] && [b, c][1..] == [c] && [c][1..] == [];
    assert Lives(p, w1, [b, c]) == Lives(p, Recover(p, w1, b), [c]);
  }

  /** From the start: the split is posted, the event fails, and the process dies compensating. The next
      life applies one reversal leg, is refused the other, and dies before it can save FAILED; the last one
      reverses both legs and reports COMPENSATED. The payer ends with 15 kobo where it would have 10 without
      the saga. */
  lemma {:induction false} TornReversalPaysTwice()
    ensures
      var w := Lives(PAIR_PLAN, Begun(PAIR_WITHOUT),
        [[CALM, CALM, CALM, CALM, PUBLISH_FAILS, CALM], [CALM, DRAIN], [CALM, REFILL, CALM, CALM]]);
      w.record.state == COMPENSATED && Bal(w.ledger, 1) == 15 && Bal(w.history.without, 1) == 10
  {
    var begin := [CALM, CALM, CALM, CALM, PUBLISH_FAILS, CALM];
    var first, second := [CALM, DRAIN], [CALM, REFILL, CALM, CALM];
    assert begin[4..] == [PUBLISH_FAILS, CALM];
    hide Recover, Lives;
    ThreeLives(PAIR_PLAN, Begun(PAIR_WITHOUT), begin, first, second);
    PairBegins(begin);
    DyingLife();
    RetryingLife();
  }
}
