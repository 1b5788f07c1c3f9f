/** When it can be told beforehand that a compensated saga nets to zero: what the fates of its lives and
    its plan rule out, whatever crashes and failures there are. */
module SagaForesight {
  import opened Sequences
  import opened Sums
  import opened TransferLedger
  import opened TransferLedgerLaws
  import opened Saga
  import opened SagaRecovery

  // ---------------------------------------------------------------------------
  // No stray post
  // ---------------------------------------------------------------------------

  predicate PostsGetThrough(ticks: seq<Tick>) {
    forall i :: 0 <= i < |ticks| ==> !ticks[i].failOnPost
  }

  /** A post of a posted chain raises only when it is made to. */
  lemma {:induction false} ActKeepsUnstray(p: Plan, w: World, rec: SagaRecord, kind: StepKind, tick: Tick)
    requires !w.history.stray && (tick.failOnPost ==> kind != SplitCommit)
    ensures !Act(p, w, rec, kind, tick).world.history.stray
  {
  }

  lemma {:induction false} UndoKeepsStray(p: Plan, w: World, rec: SagaRecord, kind: StepKind, tick: Tick)
    ensures Undo(p, w, rec, kind, tick).world.history.stray == w.history.stray
  {
  }

  lemma {:induction false} WalkKeepsStray(p: Plan, w: World, rec: SagaRecord, k: nat, ticks: seq<Tick>)
    requires k <= |rec.completed|
    ensures Walk(p, w, rec, k, ticks).history.stray == w.history.stray
    decreases k
  {
    if k > 0 {
      if rec.completed[k - 1] == EventPublish {
        WalkKeepsStray(p, w, rec, k - 1, ticks);
      } else if ticks != [] {
        var w1 := Interfere(w, ticks[0].others);
        UndoKeepsStray(p, w1, rec, rec.completed[k - 1], ticks[0]);
        var a := Undo(p, w1, rec, rec.completed[k - 1], ticks[0]);
        hide Undo;
        if a.ok { WalkKeepsStray(p, a.world, rec, k - 1, ticks[1..]); }
      }
    }
  }

  lemma {:induction false} CompensateKeepsStray(p: Plan, w: World, rec: SagaRecord, ticks: seq<Tick>)
    ensures Compensate(p, w, rec, ticks).history.stray == w.history.stray
  {
    if ticks != [] {
      var rec1 := rec.(state := COMPENSATING);
      WalkKeepsStray(p, Save(w, rec1, ticks), rec1, |rec1.completed|, ticks[1..]);
      hide Walk;
    }
  }

  /** Running forward past the split, or with posts that get through, no post is stray. */
  lemma {:induction false} ExecuteKeepsUnstray(p: Plan, w: World, rec: SagaRecord, ticks: seq<Tick>)
    requires !w.history.stray && (PostsGetThrough(ticks) || |rec.completed| >= 2)
    ensures !Execute(p, w, rec, ticks).history.stray
    decreases |ticks|
  {
    var c := |rec.completed|;
    if c < |p.Steps()| && ticks != [] {
      var kind, w1 := p.Steps()[c], Interfere(w, ticks[0].others);
      assert c >= 2 ==> kind != SplitCommit;
      ActKeepsUnstray(p, w1, rec, kind, ticks[0]);
      var a := Act(p, w1, rec, kind, ticks[0]);
      hide Act;
      if !a.ok {
        CompensateKeepsStray(p, a.world, a.record, ticks[1..]);
        hide Compensate;
      } else if |ticks| > 1 {
        var done := a.record.(completed := rec.completed + [kind], state := ForwardState(kind));
        ExecuteKeepsUnstray(p, Save(a.world, done, ticks[1..]), done, ticks[2..]);
      }
    }
  }

  lemma {:induction false} LivesKeepUnstray(p: Plan, w: World, lives: seq<seq<Tick>>)
    requires !w.history.stray && forall i :: 0 <= i < |lives| ==> PostsGetThrough(lives[i])
    ensures !Lives(p, w, lives).history.stray
    decreases |lives|
  {
    hide Execute, Compensate, PostsGetThrough;
    if lives != [] {
      TailAt(lives);
      ExecuteKeepsUnstray(p, w, w.record, lives[0]);
      CompensateKeepsStray(p, w, w.record, lives[0]);
      LivesKeepUnstray(p, Recover(p, w, lives[0]), lives[1..]);
    }
  }

  /** A chain that has just been held is not posted. */
  lemma {:induction false} HeldIsNotPosted(p: Plan, l: Ledger, failOnLeg: string)
    requires Usable(p, l) && Create(l, p.HoldTransfers(), failOnLeg).ok
    ensures !AlreadyPosted(Create(l, p.HoldTransfers(), failOnLeg).ledger, Ids(p.HoldTransfers()))
  {
    var ts := p.HoldTransfers();
    var k := CreateFresh(l, ts, failOnLeg);
    StoreLookup(l.transfers, ts);
    hide Create;
    if ts != [] { assert Ids(ts)[0] == ts[0].id && ts[0].state == PENDING; }
  }

  /** The first life posts the chain it has just held, so no post of it is stray, whatever fails. */
  lemma {:induction false} FirstLifeUnstray(p: Plan, l: Ledger, ticks: seq<Tick>)
    requires Usable(p, l)
    ensures !Recover(p, Begun(l), ticks).history.stray
  {
    var w, rec := Begun(l), Begun(l).record;
    if ticks != [] {
      var w1 := Interfere(w, ticks[0].others);
      var a := Act(p, w1, rec, Hold, ticks[0]);
      if !a.ok {
        CompensateKeepsStray(p, a.world, a.record, ticks[1..]);
      } else if |ticks| > 1 {
        assert Usable(p, w1.ledger);
        HeldIsNotPosted(p, w1.ledger, ticks[0].failOnLeg);
        var done := a.record.(completed := [] + [Hold], state := HELD);
        SecondStepUnstray(p, Save(a.world, done, ticks[1..]), done, ticks[2..]);
        hide Create;
      }
    }
  }

  lemma {:induction false} SecondStepUnstray(p: Plan, w: World, rec: SagaRecord, ticks: seq<Tick>)
    requires rec.completed == [Hold] && rec.holdIds == HoldIds(Ids(p.HoldTransfers())) && !w.history.stray
    requires !AlreadyPosted(w.ledger, Ids(p.HoldTransfers()))
    ensures !Execute(p, w, rec, ticks).history.stray
  {
    if ticks != [] {
      var w1 := Interfere(w, ticks[0].others);
      var a := Act(p, w1, rec, SplitCommit, ticks[0]);
      assert !AlreadyPosted(w1.ledger, Ids(p.HoldTransfers()));
      assert !a.world.history.stray;
      hide Act, AlreadyPosted;
      if !a.ok {
        CompensateKeepsStray(p, a.world, a.record, ticks[1..]);
      } else if |ticks| > 1 {
        var done := a.record.(completed := rec.completed + [SplitCommit], state := SPLIT_COMMITTED);
        ExecuteKeepsUnstray(p, Save(a.world, done, ticks[1..]), done, ticks[2..]);
      }
    }
  }

  // ---------------------------------------------------------------------------
  // No torn reversal
  // ---------------------------------------------------------------------------

  /** A create of at most one leg that raises has touched nothing. */
  lemma {:induction false} OneLegIsWhole(l: Ledger, ts: seq<Transfer>, failOnLeg: string)
    requires |ts| <= 1
    ensures Create(l, ts, failOnLeg).ok || Create(l, ts, failOnLeg).created == []
  {
    if |ts| == 1 {
      assert ts[1..] == [];
      assert ts[0].id in l.transfers ==> CreateLoop(l, ts[1..], [] + [l.transfers[ts[0].id]], failOnLeg).ok;
      assert CreateLoop(Insert(l, ts[0]), ts[1..], [] + [ts[0]], failOnLeg).ok;
    }
  }

  lemma {:induction false} UndoKeepsWhole(p: Plan, w: World, rec: SagaRecord, kind: StepKind, tick: Tick)
    requires |p.legs| <= 1 && w.history.torn == []
    ensures Undo(p, w, rec, kind, tick).world.history.torn == []
  {
    OneLegIsWhole(w.ledger, p.ReversalTransfers(), tick.failOnLeg);
    hide Create;
  }

  lemma {:induction false} WalkKeepsWhole(p: Plan, w: World, rec: SagaRecord, k: nat, ticks: seq<Tick>)
    requires |p.legs| <= 1 && w.history.torn == [] && k <= |rec.completed|
    ensures Walk(p, w, rec, k, ticks).history.torn == []
    decreases k
  {
    if k > 0 {
      if rec.completed[k - 1] == EventPublish {
        WalkKeepsWhole(p, w, rec, k - 1, ticks);
      } else if ticks != [] {
        var w1 := Interfere(w, ticks[0].others);
        UndoKeepsWhole(p, w1, rec, rec.completed[k - 1], ticks[0]);
        var a := Undo(p, w1, rec, rec.completed[k - 1], ticks[0]);
        hide Undo;
        if a.ok { WalkKeepsWhole(p, a.world, rec, k - 1, ticks[1..]); }
      }
    }
  }

  lemma {:induction false} CompensateKeepsWhole(p: Plan, w: World, rec: SagaRecord, ticks: seq<Tick>)
    requires |p.legs| <= 1 && w.history.torn == []
    ensures Compensate(p, w, rec, ticks).history.torn == []
  {
    if ticks != [] {
      var rec1 := rec.(state := COMPENSATING);
      WalkKeepsWhole(p, Save(w, rec1, ticks), rec1, |rec1.completed|, ticks[1..]);
      hide Walk;
    }
  }

  lemma {:induction false} ExecuteKeepsWhole(p: Plan, w: World, rec: SagaRecord, ticks: seq<Tick>)
    requires |p.legs| <= 1 && w.history.torn == []
    ensures Execute(p, w, rec, ticks).history.torn == []
    decreases |ticks|
  {
    var c := |rec.completed|;
    if c < |p.Steps()| && ticks != [] {
      var a := Act(p, Interfere(w, ticks[0].others), rec, p.Steps()[c], ticks[0]);
      assert a.world.history.torn == [];
      hide Act;
      if !a.ok {
        CompensateKeepsWhole(p, a.world, a.record, ticks[1..]);
        hide Compensate;
      } else if |ticks| > 1 {
        var done := a.record.(completed := rec.completed + [p.Steps()[c]], state := ForwardState(p.Steps()[c]));
        ExecuteKeepsWhole(p, Save(a.world, done, ticks[1..]), done, ticks[2..]);
      }
    }
  }

  lemma {:induction false} LivesKeepWhole(p: Plan, w: World, lives: seq<seq<Tick>>)
    requires |p.legs| <= 1 && w.history.torn == []
    ensures Lives(p, w, lives).history.torn == []
    decreases |lives|
  {
    hide Execute, Compensate;
    if lives != [] {
      ExecuteKeepsWhole(p, w, w.record, lives[0]);
      CompensateKeepsWhole(p, w, w.record, lives[0]);
      LivesKeepWhole(p, Recover(p, w, lives[0]), lives[1..]);
    }
  }

  // ---------------------------------------------------------------------------
  // Main results
  // ---------------------------------------------------------------------------

  /** No post is stray if after the first life every post attempt that is made gets through, or there is
      no later life. What fails in the first life makes no difference. */
  lemma {:induction false} NoStrayPost(p: Plan, l: Ledger, lives: seq<seq<Tick>>)
    requires Usable(p, l) && forall i :: 1 <= i < |lives| ==> PostsGetThrough(lives[i])
    ensures !Lives(p, Begun(l), lives).history.stray
  {
    if lives != [] {
      FirstLifeUnstray(p, l, lives[0]);
      TailAt(lives);
      hide Recover, PostsGetThrough;
      LivesKeepUnstray(p, Recover(p, Begun(l), lives[0]), lives[1..]);
    }
  }

  /** A saga of at most one leg whose later lives can post nets to zero whenever it ends COMPENSATED,
      wherever it crashes and whatever else fails. */
  lemma {:induction false} OneLegSagaNetsToZero(p: Plan, l: Ledger, lives: seq<seq<Tick>>)
    requires Usable(p, l) && |p.legs| <= 1 && forall i :: 1 <= i < |lives| ==> PostsGetThrough(lives[i])
    ensures var w := Lives(p, Begun(l), lives);
      w.record.state == COMPENSATED ==>
        forall a :: Bal(w.ledger, a) == Bal(w.history.without, a) && Held(w.ledger, a) == Held(w.history.without, a)
  {
    NoStrayPost(p, l, lives);
    LivesKeepWhole(p, Begun(l), lives);
    CompensatedNetsToZeroIff(p, l, lives);
    hide Lives;
  }
}
