/** Crash recovery of the saga: what COMPLETED and COMPENSATED mean for the ledger, for every
    placement of crashes, failures and foreign activity over any number of process lives. */
module SagaRecovery {
  import opened Sequences
  import opened Sums
  import opened TransferLedger
  import opened TransferLedgerLaws
  import opened Saga

  // ---------------------------------------------------------------------------
  // Names
  // ---------------------------------------------------------------------------

  ghost predicate Apart(ts: seq<Transfer>, us: seq<Transfer>) {
    forall i, j :: 0 <= i < |ts| && 0 <= j < |us| ==> ts[i].id != us[j].id
  }

  /** All transfer IDs the saga may ever use are different. */
  ghost predicate WellNamed(p: Plan) {
    var h, r, o, f := p.HoldTransfers(), p.ReversalTransfers(), p.PayoutTransfers(), p.RefundTransfers();
    && DistinctIds(h) && DistinctIds(r)
    && Apart(h, r) && Apart(h, o) && Apart(h, f) && Apart(r, o) && Apart(r, f) && Apart(o, f)
  }

  lemma {:induction false} KeyedDiffer(key: string, x: string, y: string)
    requires x != y
    ensures DeterministicTransferId(key, x) != DeterministicTransferId(key, y)
  {
    assert (key + "|" + x)[|key| + 1..] == x;
    assert (key + "|" + y)[|key| + 1..] == y;
  }

  lemma {:induction false} ReversalNameDiffers(x: string, y: string)
    requires '|' !in y
    ensures x + "|reversal" != y
  {
    assert (x + "|reversal")[|x|] == '|';
  }

  lemma {:induction false} ReversalNamesDiffer(x: string, y: string)
    requires x != y
    ensures x + "|reversal" != y + "|reversal"
  {
    assert (x + "|reversal")[..|x|] == x;
    assert (y + "|reversal")[..|y|] == y;
  }

  /** Distinct leg names, none of them `payout` and none containing the separator, are enough. */
  lemma {:induction false} DistinctNamesSuffice(p: Plan)
    requires forall i, j :: 0 <= i < j < |p.legs| ==> p.legs[i].name != p.legs[j].name
    requires forall i :: 0 <= i < |p.legs| ==> '|' !in p.legs[i].name && p.legs[i].name != "payout"
    ensures WellNamed(p)
  {
    var n := |p.legs|;
    assert "payout|reversal" == "payout" + "|reversal";
    forall i, j | 0 <= i < n && 0 <= j < n
      ensures i < j ==> p.HoldTransfers()[i].id != p.HoldTransfers()[j].id
      ensures i < j ==> p.ReversalTransfers()[i].id != p.ReversalTransfers()[j].id
      ensures p.HoldTransfers()[i].id != p.ReversalTransfers()[j].id
    {
      var x, y := p.legs[i].name, p.legs[j].name;
      ReversalNameDiffers(y, x);
      KeyedDiffer(p.key, x, y + "|reversal");
      if i < j {
        KeyedDiffer(p.key, x, y);
        ReversalNamesDiffer(x, y);
        KeyedDiffer(p.key, x + "|reversal", y + "|reversal");
      }
    }
    forall i | 0 <= i < n
      ensures p.HoldTransfers()[i].id != DeterministicTransferId(p.key, "payout")
      ensures p.HoldTransfers()[i].id != DeterministicTransferId(p.key, "payout|reversal")
      ensures p.ReversalTransfers()[i].id != DeterministicTransferId(p.key, "payout")
      ensures p.ReversalTransfers()[i].id != DeterministicTransferId(p.key, "payout|reversal")
    {
      var x := p.legs[i].name;
      KeyedDiffer(p.key, x, "payout");
      ReversalNameDiffers("payout", x);
      KeyedDiffer(p.key, x, "payout|reversal");
      ReversalNameDiffers(x, "payout");
      KeyedDiffer(p.key, x + "|reversal", "payout");
      ReversalNamesDiffer(x, "payout");
      KeyedDiffer(p.key, x + "|reversal", "payout|reversal");
    }
    KeyedDiffer(p.key, "payout", "payout|reversal");
  }

  // ---------------------------------------------------------------------------
  // Where the saga's transfers stand
  // ---------------------------------------------------------------------------

  datatype HoldPhase = Nothing | Reserved | Settled | Released

  datatype Phase = Phase(hold: HoldPhase, reversed: bool, paid: bool, refunded: bool)

  ghost predicate Stored(l: Ledger, ts: seq<Transfer>, yes: bool) {
    if yes then Present(l, ts) else Absent(l, ts)
  }

  ghost predicate HoldStored(l: Ledger, ts: seq<Transfer>, h: HoldPhase) {
    match h
    case Nothing => Absent(l, ts)
    case Reserved => Present(l, ts)
    case Settled => Present(l, InState(ts, POSTED))
    case Released => Present(l, InState(ts, VOIDED))
  }

  ghost predicate RecordsAre(p: Plan, l: Ledger, ph: Phase) {
    && HoldStored(l, p.HoldTransfers(), ph.hold)
    && Stored(l, p.ReversalTransfers(), ph.reversed)
    && Stored(l, p.PayoutTransfers(), ph.paid)
    && Stored(l, p.RefundTransfers(), ph.refunded)
  }

  /** What the saga's settled transfers add to the balance of `a`. */
  function Moved(p: Plan, ph: Phase, a: Account): int {
    (if ph.hold == Settled then Deltas(p.HoldTransfers(), a) else 0)
    + (if ph.reversed then Deltas(p.ReversalTransfers(), a) else 0)
    + (if ph.paid then Deltas(p.PayoutTransfers(), a) else 0)
    + (if ph.refunded then Deltas(p.RefundTransfers(), a) else 0)
  }

  function Kept(p: Plan, ph: Phase, a: Account): int {
    if ph.hold == Reserved then Reserves(p.HoldTransfers(), a) else 0
  }

  /** Every account differs from what it would be without the saga by exactly the saga's own
      transfers and the legs of torn reversals. */
  ghost predicate AccountsAre(p: Plan, w: World, ph: Phase) {
    && (forall a :: Bal(w.ledger, a) == Bal(w.history.without, a) + Moved(p, ph, a) + Deltas(w.history.torn, a))
    && (forall a :: Held(w.ledger, a) == Held(w.history.without, a) + Kept(p, ph, a) - Reserves(w.history.torn, a))
  }

  ghost predicate Tracks(p: Plan, w: World, ph: Phase) {
    && RecordsAre(p, w.ledger, ph)
    && AccountsAre(p, w, ph)
    && (forall i :: 0 <= i < |w.history.torn| ==> w.history.torn[i].amount > 0)
    && (ph.hold != Nothing ==> forall i :: 0 <= i < |p.legs| ==> p.legs[i].amount > 0)
  }

  // ---------------------------------------------------------------------------
  // What the saved record says about the ledger
  // ---------------------------------------------------------------------------

  ghost predicate Listed(p: Plan, rec: SagaRecord) {
    && |rec.completed| <= |p.Steps()|
    && rec.completed == p.Steps()[..|rec.completed|]
    && (|rec.completed| >= 1 ==> rec.holdIds == HoldIds(Ids(p.HoldTransfers())))
  }

  /** Running forward, the ledger is at the recorded step or one action ahead of it. */
  ghost predicate Ahead(p: Plan, rec: SagaRecord, h: History, ph: Phase) {
    var c := |rec.completed|;
    && !ph.reversed && !ph.refunded && h.torn == []
    && (c == 0 ==> ph.hold in {Nothing, Reserved})
    && (c == 1 ==> ph.hold in {Reserved, Settled})
    && (c >= 2 ==> ph.hold == Settled)
    && (ph.paid ==> c >= 2 && p.payout.PayoutSpec?)
    && (c >= 3 && p.payout.PayoutSpec? ==> ph.paid)
    && (h.stray ==> c == 1 && ph.hold == Settled && p.legs != [])
  }

  /** Compensating, some suffix of the completed steps has been undone. */
  ghost predicate Behind(p: Plan, rec: SagaRecord, h: History, ph: Phase) {
    var c := |rec.completed|;
    && c < |p.Steps()|
    && (c == 0 ==> ph.hold == Nothing)
    && (c == 1 ==> ph.hold in (if h.stray then {Settled} else {Reserved, Released}))
    && (c >= 2 ==> ph.hold == Settled)
    && (c < 2 ==> !ph.reversed && h.torn == [])
    && (ph.paid <==> c >= 3)
    && (ph.refunded ==> c >= 3)
    && (h.stray ==> c == 1 && p.legs != [])
  }

  ghost predicate UndoneDownTo(k: nat, c: nat, ph: Phase) {
    && (k <= 2 && c >= 3 ==> ph.refunded)
    && (k <= 1 && c >= 2 ==> ph.reversed)
    && (k == 0 ==> ph.hold != Reserved)
  }

  ghost predicate RecordFits(p: Plan, rec: SagaRecord, h: History, events: nat, ph: Phase) {
    var c := |rec.completed|;
    && Listed(p, rec)
    && (!Terminal(rec.state) && rec.state != COMPENSATING ==> Ahead(p, rec, h, ph))
    && (rec.state == COMPLETED ==> Ahead(p, rec, h, ph) && c == |p.Steps()|)
    && (rec.state == COMPENSATING || rec.state == COMPENSATED ==> Behind(p, rec, h, ph))
    && (rec.state == COMPENSATED ==> UndoneDownTo(0, c, ph))
    && (c == |p.Steps()| ==> events >= 1)
  }

  ghost predicate Inv(p: Plan, w: World, ph: Phase) {
    Tracks(p, w, ph) && RecordFits(p, w.record, w.history, w.events, ph)
  }

  // ---------------------------------------------------------------------------
  // Single operations
  // ---------------------------------------------------------------------------

  lemma {:induction false} InterfereTracks(p: Plan, w: World, o: Others, ph: Phase)
    requires Tracks(p, w, ph)
    ensures Tracks(p, Interfere(w, o), ph)
  {
    var w1 := Interfere(w, o);
    forall a
      ensures Bal(w1.ledger, a) == Bal(w.ledger, a) + Get(o.bal, a)
      ensures Held(w1.ledger, a) == Held(w.ledger, a) + Get(o.held, a)
      ensures Bal(w1.history.without, a) == Bal(w.history.without, a) + Get(o.bal, a)
      ensures Held(w1.history.without, a) == Held(w.history.without, a) + Get(o.held, a)
    {
    }
  }

  /** Storing one chain leaves the records of a chain with other IDs alone. */
  lemma {:induction false} StoreApart(l: Ledger, l': Ledger, ts: seq<Transfer>, us: seq<Transfer>)
    requires DistinctIds(ts) && Apart(ts, us)
    requires l'.transfers == Store(l.transfers, ts)
    ensures Absent(l, us) ==> Absent(l', us)
    ensures Present(l, us) ==> Present(l', us)
    ensures forall h :: HoldStored(l, us, h) ==> HoldStored(l', us, h)
  {
    StoreLookup(l.transfers, ts);
    forall i | 0 <= i < |us|
      ensures us[i].id in l'.transfers <==> us[i].id in l.transfers
      ensures us[i].id in l.transfers ==> l'.transfers[us[i].id] == l.transfers[us[i].id]
    {
      assert us[i].id !in Ids(ts);
    }
    forall h | HoldStored(l, us, h) ensures HoldStored(l', us, h) {
      assert forall i :: 0 <= i < |us| ==> InState(us, POSTED)[i].id == us[i].id == InState(us, VOIDED)[i].id;
    }
  }

  lemma {:induction false} StorePresent(l: Ledger, l': Ledger, ts: seq<Transfer>)
    requires DistinctIds(ts) && l'.transfers == Store(l.transfers, ts)
    ensures Present(l', ts)
  {
    StoreLookup(l.transfers, ts);
  }

  /** `settled` has been added to the balances and `released` taken off the hold totals. */
  ghost predicate Shifts(l: Ledger, l': Ledger, settled: seq<Transfer>, released: seq<Transfer>) {
    && (forall a :: Bal(l', a) == Bal(l, a) + Deltas(settled, a))
    && (forall a :: Held(l', a) == Held(l, a) - Reserves(released, a))
  }

  /** Creating a chain that settles at once, first time or again. */
  lemma {:induction false} CreateDirect(l: Ledger, ts: seq<Transfer>, done: bool, failOnLeg: string)
    requires DistinctIds(ts) && NewRecords(ts) && Stored(l, ts, done)
    requires forall i :: 0 <= i < |ts| ==> !ts[i].pending
    ensures var r := Create(l, ts, failOnLeg);
      && (r.ok && done ==> r.ledger == l)
      && (r.ok && !done ==> r.ledger.transfers == Store(l.transfers, ts) && Shifts(l, r.ledger, ts, []))
      && (!r.ok ==>
            && ts != [] && !done && r.ledger.transfers == l.transfers && r.created <= ts[..|ts| - 1]
            && (forall i :: 0 <= i < |r.created| ==> r.created[i].amount > 0)
            && Shifts(l, r.ledger, r.created, r.created))
  {
    if done {
      CreateReplay(l, ts, failOnLeg);
    } else {
      var k := CreateFresh(l, ts, failOnLeg);
      DirectOfDirect(ts);
      DirectOfDirect(ts[..k]);
    }
  }

  lemma {:induction false} SumsAppend(ts: seq<Transfer>, us: seq<Transfer>, a: Account)
    ensures Deltas(ts + us, a) == Deltas(ts, a) + Deltas(us, a)
    ensures Reserves(ts + us, a) == Reserves(ts, a) + Reserves(us, a)
  {
    if ts == [] {
      assert ts + us == us;
    } else {
      assert (ts + us)[1..] == ts[1..] + us;
      SumsAppend(ts[1..], us, a);
    }
  }

  // ---------------------------------------------------------------------------
  // Records after one chain has been stored
  // ---------------------------------------------------------------------------

  lemma {:induction false} HoldRecords(p: Plan, l: Ledger, l': Ledger, s: TransferState, ph: Phase, h: HoldPhase)
    requires WellNamed(p) && RecordsAre(p, l, ph)
    requires h == (match s case PENDING => Reserved case POSTED => Settled case VOIDED => Released)
    requires l'.transfers == Store(l.transfers, InState(p.HoldTransfers(), s))
    ensures RecordsAre(p, l', ph.(hold := h))
  {
    var ts := p.HoldTransfers();
    var us := InState(ts, s);
    assert forall i :: 0 <= i < |ts| ==> us[i].id == ts[i].id;
    StorePresent(l, l', us);
    if s == PENDING {
      assert us == ts;
    }
    StoreApart(l, l', us, p.ReversalTransfers());
    StoreApart(l, l', us, p.PayoutTransfers());
    StoreApart(l, l', us, p.RefundTransfers());
  }

  lemma {:induction false} ReversalRecords(p: Plan, l: Ledger, l': Ledger, ph: Phase)
    requires WellNamed(p) && RecordsAre(p, l, ph)
    requires l'.transfers == Store(l.transfers, p.ReversalTransfers())
    ensures RecordsAre(p, l', ph.(reversed := true))
  {
    var ts := p.ReversalTransfers();
    StorePresent(l, l', ts);
    StoreApart(l, l', ts, p.HoldTransfers());
    StoreApart(l, l', ts, p.PayoutTransfers());
    StoreApart(l, l', ts, p.RefundTransfers());
  }

  lemma {:induction false} PayoutRecords(p: Plan, l: Ledger, l': Ledger, ph: Phase)
    requires WellNamed(p) && RecordsAre(p, l, ph)
    requires l'.transfers == Store(l.transfers, p.PayoutTransfers())
    ensures RecordsAre(p, l', ph.(paid := true))
  {
    var ts := p.PayoutTransfers();
    StorePresent(l, l', ts);
    StoreApart(l, l', ts, p.HoldTransfers());
    StoreApart(l, l', ts, p.ReversalTransfers());
    StoreApart(l, l', ts, p.RefundTransfers());
  }

  lemma {:induction false} RefundRecords(p: Plan, l: Ledger, l': Ledger, ph: Phase)
    requires WellNamed(p) && RecordsAre(p, l, ph)
    requires l'.transfers == Store(l.transfers, p.RefundTransfers())
    ensures RecordsAre(p, l', ph.(refunded := true))
  {
    var ts := p.RefundTransfers();
    StorePresent(l, l', ts);
    StoreApart(l, l', ts, p.HoldTransfers());
    StoreApart(l, l', ts, p.ReversalTransfers());
    StoreApart(l, l', ts, p.PayoutTransfers());
  }

  /** Moving the ledger from `ph` to `ph'` by the matching shift keeps the account equations. */
  lemma {:induction false} AccountsShift(p: Plan, w: World, w': World, ph: Phase, ph': Phase, settled: seq<Transfer>, released: seq<Transfer>)
    requires AccountsAre(p, w, ph) && w'.history == w.history.(stray := w'.history.stray)
    requires Shifts(w.ledger, w'.ledger, settled, released)
    requires forall a :: Moved(p, ph', a) == Moved(p, ph, a) + Deltas(settled, a)
    requires forall a :: Kept(p, ph', a) == Kept(p, ph, a) - Reserves(released, a)
    ensures AccountsAre(p, w', ph')
  {
    forall a
      ensures Bal(w'.ledger, a) == Bal(w'.history.without, a) + Moved(p, ph', a) + Deltas(w'.history.torn, a)
      ensures Held(w'.ledger, a) == Held(w'.history.without, a) + Kept(p, ph', a) - Reserves(w'.history.torn, a)
    {
    }
  }

  // ---------------------------------------------------------------------------
  // Forward steps
  // ---------------------------------------------------------------------------

  /** Reserving funds is the one shift that raises hold totals. */
  lemma {:induction false} HoldTransfersAre(p: Plan)
    ensures var ts := p.HoldTransfers();
      && NewRecords(ts) && AllPending(ts) && |ts| == |p.legs| && (WellNamed(p) ==> DistinctIds(ts))
      && (forall i :: 0 <= i < |ts| ==> ts[i].amount == p.legs[i].amount)
  {
  }

  lemma {:induction false} CreateHoldChain(p: Plan, l: Ledger, failOnLeg: string)
    requires WellNamed(p) && Absent(l, p.HoldTransfers())
    ensures var r := Create(l, p.HoldTransfers(), failOnLeg);
      && (r.ok ==> r.ledger.transfers == Store(l.transfers, p.HoldTransfers()))
      && (r.ok ==> forall i :: 0 <= i < |p.legs| ==> p.legs[i].amount > 0)
      && (!r.ok ==> r.ledger.transfers == l.transfers)
      && (forall a :: Bal(r.ledger, a) == Bal(l, a))
      && (forall a :: Held(r.ledger, a) == Held(l, a) + (if r.ok then Reserves(p.HoldTransfers(), a) else 0))
  {
    HoldTransfersAre(p);
    PendingCreate(l, p.HoldTransfers(), failOnLeg);
    hide HoldChain, WellNamed, Absent, Create, Store, Bal, Held, Reserves;
    var ts := p.HoldTransfers();
    assert forall i :: 0 <= i < |ts| ==> p.legs[i].amount == ts[i].amount;
  }

  /** A chain of holds is stored whole with its reserves, or leaves no trace. */
  lemma {:induction false} PendingCreate(l: Ledger, ts: seq<Transfer>, failOnLeg: string)
    requires DistinctIds(ts) && Absent(l, ts) && NewRecords(ts) && AllPending(ts)
    ensures var r := Create(l, ts, failOnLeg);
      && (r.ok ==> r.ledger.transfers == Store(l.transfers, ts) && forall i :: 0 <= i < |ts| ==> ts[i].amount > 0)
      && (!r.ok ==> r.ledger.transfers == l.transfers)
      && (forall a :: Bal(r.ledger, a) == Bal(l, a))
      && (forall a :: Held(r.ledger, a) == Held(l, a) + (if r.ok then Reserves(ts, a) else 0))
  {
    var k := CreateFresh(l, ts, failOnLeg);
    HoldsOfHolds(ts[..k]);
    HoldsOfHolds(ts);
    hide Create, Store, DistinctIds, NewRecords, Absent, AllPending, Bal, Held;
    assert forall a: Account :: Deltas([], a) == 0 && Reserves([], a) == 0;
    hide Deltas, Reserves, Direct, Holds;
  }

  lemma {:induction false} HoldStep(p: Plan, w: World, rec: SagaRecord, tick: Tick, ph: Phase) returns (ph': Phase)
    requires WellNamed(p) && Tracks(p, w, ph) && ph.hold in {Nothing, Reserved}
    ensures var a := Act(p, w, rec, Hold, tick);
      && Tracks(p, a.world, ph') && a.world.history == w.history
      && ph' == (if a.ok then ph.(hold := Reserved) else ph)
      && (!a.ok ==> ph.hold == Nothing)
  {
    var a := Act(p, w, rec, Hold, tick);
    ph' := if a.ok then ph.(hold := Reserved) else ph;
    if ph.hold == Reserved {
      CreateReplay(w.ledger, p.HoldTransfers(), tick.failOnLeg);
    } else {
      CreateHoldChain(p, w.ledger, tick.failOnLeg);
      if a.ok {
        assert InState(p.HoldTransfers(), PENDING) == p.HoldTransfers();
        HoldRecords(p, w.ledger, a.world.ledger, PENDING, ph, Reserved);
      }
    }
  }

  lemma {:induction false} PostedOrNot(l: Ledger, ts: seq<Transfer>, settled: bool)
    requires DistinctIds(ts) && NewRecords(ts)
    requires if settled then Present(l, InState(ts, POSTED)) else Present(l, ts)
    ensures Postable(l, Ids(ts))
    ensures AlreadyPosted(l, Ids(ts)) <==> settled && ts != []
    ensures settled ==> PostLoop(l, Ids(ts)) == l
    ensures !settled ==>
      PostLoop(l, Ids(ts)).transfers == Store(l.transfers, InState(ts, POSTED)) && Shifts(l, PostLoop(l, Ids(ts)), ts, ts)
  {
    assert forall i :: 0 <= i < |ts| ==> Ids(ts)[i] == ts[i].id == InState(ts, POSTED)[i].id;
    if settled {
      PostReplay(l, Ids(ts));
    } else {
      PostChain(l, ts);
      if ts != [] { assert Ids(ts)[0] == ts[0].id; }
    }
  }

  /** A chain without legs is as good as reserved when its post has raised. */
  function AfterPost(p: Plan, ok: bool, hold: HoldPhase): HoldPhase {
    if ok then Settled else if p.legs == [] then Reserved else hold
  }

  lemma {:induction false} SplitCommitStep(p: Plan, w: World, rec: SagaRecord, tick: Tick, ph: Phase) returns (ph': Phase)
    requires WellNamed(p) && Tracks(p, w, ph) && ph.hold in {Reserved, Settled}
    requires rec.holdIds == HoldIds(Ids(p.HoldTransfers()))
    ensures var a := Act(p, w, rec, SplitCommit, tick);
      && Tracks(p, a.world, ph') && a.record == rec
      && a.world.history == w.history.(stray := a.world.history.stray)
      && ph' == ph.(hold := AfterPost(p, a.ok, ph.hold))
      && (a.world.history.stray <==> !a.ok && ph'.hold == Settled)
  {
    var ts := p.HoldTransfers();
    var a := Act(p, w, rec, SplitCommit, tick);
    ph' := ph.(hold := AfterPost(p, a.ok, ph.hold));
    PostedOrNot(w.ledger, ts, ph.hold == Settled);
    if a.ok && ph.hold == Reserved {
      HoldRecords(p, w.ledger, a.world.ledger, POSTED, ph, Settled);
      AccountsShift(p, w, a.world, ph, ph', ts, ts);
    }
  }

  lemma {:induction false} PayoutStep(p: Plan, w: World, rec: SagaRecord, tick: Tick, ph: Phase) returns (ph': Phase)
    requires WellNamed(p) && Tracks(p, w, ph)
    ensures var a := Act(p, w, rec, Payout, tick);
      && Tracks(p, a.world, ph') && a.world.history == w.history && a.record == rec
      && ph' == (if a.ok then ph.(paid := true) else ph)
      && (!a.ok ==> !ph.paid)
  {
    var ts := p.PayoutTransfers();
    var a := Act(p, w, rec, Payout, tick);
    ph' := if a.ok then ph.(paid := true) else ph;
    CreateDirect(w.ledger, ts, ph.paid, tick.failOnLeg);
    if a.ok && !ph.paid {
      PayoutRecords(p, w.ledger, a.world.ledger, ph);
      AccountsShift(p, w, a.world, ph, ph', ts, []);
    }
  }

  // ---------------------------------------------------------------------------
  // Compensations
  // ---------------------------------------------------------------------------

  lemma {:induction false} StillPendingAll(l: Ledger, ts: seq<Transfer>)
    requires NewRecords(ts) && Present(l, ts)
    ensures StillPending(l, Ids(ts)) == Ids(ts)
  {
    if ts != [] {
      TailAt(ts);
      assert Ids(ts)[1..] == Ids(ts[1..]) && Ids(ts)[0] == ts[0].id;
      StillPendingAll(l, ts[1..]);
    }
  }

  lemma {:induction false} StillPendingNone(l: Ledger, ids: seq<TransferId>)
    requires forall i :: 0 <= i < |ids| ==> ids[i] in l.transfers && l.transfers[ids[i]].state != PENDING
    ensures StillPending(l, ids) == []
  {
    if ids != [] {
      TailAt(ids);
      StillPendingNone(l, ids[1..]);
    }
  }

  lemma {:induction false} PendingOrNot(l: Ledger, ts: seq<Transfer>, h: HoldPhase)
    requires DistinctIds(ts) && NewRecords(ts) && HoldStored(l, ts, h) && h != Nothing
    ensures h != Reserved ==> StillPending(l, Ids(ts)) == []
    ensures h == Reserved ==>
      && StillPending(l, Ids(ts)) == Ids(ts) && Voidable(l, Ids(ts))
      && VoidLoop(l, Ids(ts)).transfers == Store(l.transfers, InState(ts, VOIDED))
      && Shifts(l, VoidLoop(l, Ids(ts)), [], ts)
  {
    assert forall i :: 0 <= i < |ts| ==> Ids(ts)[i] == ts[i].id == InState(ts, POSTED)[i].id == InState(ts, VOIDED)[i].id;
    if h == Reserved {
      StillPendingAll(l, ts);
      VoidChain(l, ts);
    } else {
      StillPendingNone(l, Ids(ts));
    }
  }

  lemma {:induction false} HoldUndo(p: Plan, w: World, rec: SagaRecord, tick: Tick, ph: Phase) returns (ph': Phase)
    requires WellNamed(p) && Tracks(p, w, ph) && ph.hold != Nothing
    requires rec.holdIds == HoldIds(Ids(p.HoldTransfers()))
    ensures var a := Undo(p, w, rec, Hold, tick);
      && a.ok && Tracks(p, a.world, ph') && a.world.history == w.history
      && ph' == (if ph.hold == Reserved then ph.(hold := Released) else ph)
  {
    var ts := p.HoldTransfers();
    var a := Undo(p, w, rec, Hold, tick);
    ph' := if ph.hold == Reserved then ph.(hold := Released) else ph;
    PendingOrNot(w.ledger, ts, ph.hold);
    if ph.hold == Reserved {
      if ts == [] {
        assert Ids(ts) == [] && VoidLoop(w.ledger, Ids(ts)) == w.ledger;
      }
      HoldRecords(p, w.ledger, a.world.ledger, VOIDED, ph, Released);
      AccountsShift(p, w, a.world, ph, ph', [], ts);
    }
  }

  lemma {:induction false} TearAccounts(p: Plan, w: World, w': World, ph: Phase, legs: seq<Transfer>)
    requires AccountsAre(p, w, ph) && Shifts(w.ledger, w'.ledger, legs, legs)
    requires w'.history == w.history.(torn := w.history.torn + legs)
    ensures AccountsAre(p, w', ph)
  {
    forall a
      ensures Bal(w'.ledger, a) == Bal(w'.history.without, a) + Moved(p, ph, a) + Deltas(w'.history.torn, a)
      ensures Held(w'.ledger, a) == Held(w'.history.without, a) + Kept(p, ph, a) - Reserves(w'.history.torn, a)
    {
      SumsAppend(w.history.torn, legs, a);
    }
  }

  lemma {:induction false} SplitCommitUndo(p: Plan, w: World, rec: SagaRecord, tick: Tick, ph: Phase) returns (ph': Phase)
    requires WellNamed(p) && Tracks(p, w, ph)
    ensures var a := Undo(p, w, rec, SplitCommit, tick);
      && Tracks(p, a.world, ph')
      && a.world.history == w.history.(torn := a.world.history.torn)
      && (a.ok ==> a.world.history == w.history)
      && ph' == (if a.ok then ph.(reversed := true) else ph)
  {
    hide AccountsAre, Shifts;
    var ts := p.ReversalTransfers();
    var a := Undo(p, w, rec, SplitCommit, tick);
    ph' := if a.ok then ph.(reversed := true) else ph;
    if Reversible(p.legs) {
      CreateDirect(w.ledger, ts, ph.reversed, tick.failOnLeg);
      var r := Create(w.ledger, ts, tick.failOnLeg);
      if r.ok && !ph.reversed {
        ReversalRecords(p, w.ledger, a.world.ledger, ph);
        AccountsShift(p, w, a.world, ph, ph', ts, []);
      } else if !r.ok {
        TearAccounts(p, w, a.world, ph, r.created);
      }
    }
  }

  lemma {:induction false} PayoutUndo(p: Plan, w: World, rec: SagaRecord, tick: Tick, ph: Phase) returns (ph': Phase)
    requires WellNamed(p) && Tracks(p, w, ph)
    ensures var a := Undo(p, w, rec, Payout, tick);
      && Tracks(p, a.world, ph') && a.world.history == w.history
      && ph' == (if a.ok then ph.(refunded := true) else ph)
  {
    var ts := p.RefundTransfers();
    var a := Undo(p, w, rec, Payout, tick);
    ph' := if a.ok then ph.(refunded := true) else ph;
    CreateDirect(w.ledger, ts, ph.refunded, tick.failOnLeg);
    if a.ok && !ph.refunded {
      RefundRecords(p, w.ledger, a.world.ledger, ph);
      AccountsShift(p, w, a.world, ph, ph', ts, []);
    } else if !a.ok {
      assert Create(w.ledger, ts, tick.failOnLeg).created == [];
      AccountsShift(p, w, a.world, ph, ph, [], []);
    }
  }

  // ---------------------------------------------------------------------------
  // Whole lives
  // ---------------------------------------------------------------------------

  lemma {:induction false} SaveFits(p: Plan, w: World, rec: SagaRecord, ticks: seq<Tick>, ph: Phase)
    requires Inv(p, w, ph) && RecordFits(p, rec, w.history, w.events, ph)
    ensures Inv(p, Save(w, rec, ticks), ph)
    ensures ticks != [] ==> Save(w, rec, ticks).record == rec
  {
    if ticks != [] {
      InterfereTracks(p, w, ticks[0].others, ph);
    }
  }

  /** Running forward with the in-memory record equal to the saved one. */
  ghost predicate Forward(p: Plan, w: World, ph: Phase) {
    Inv(p, w, ph) && !Terminal(w.record.state) && w.record.state != COMPENSATING
  }

  /** How an attempt at `kind` moves the phase and the history. */
  ghost predicate ActMoves(p: Plan, kind: StepKind, ok: bool, h: History, h': History, ph: Phase, ph': Phase) {
    match kind
    case Hold => h' == h && ph' == (if ok then ph.(hold := Reserved) else ph) && (!ok ==> ph.hold == Nothing)
    case SplitCommit =>
      && h' == h.(stray := h'.stray) && ph' == ph.(hold := AfterPost(p, ok, ph.hold))
      && (h'.stray <==> !ok && ph'.hold == Settled)
    case Payout => h' == h && ph' == (if ok then ph.(paid := true) else ph) && (!ok ==> !ph.paid)
    case EventPublish => h' == h && ph' == ph
  }

  function StepDone(rec: SagaRecord, kind: StepKind): SagaRecord {
    rec.(completed := rec.completed + [kind], state := ForwardState(kind))
  }

  lemma {:induction false} ActTracks(p: Plan, w: World, rec: SagaRecord, kind: StepKind, tick: Tick, ph: Phase) returns (ph': Phase)
    requires WellNamed(p) && Tracks(p, w, ph) && Listed(p, rec) && Ahead(p, rec, w.history, ph)
    requires |rec.completed| < |p.Steps()| && kind == p.Steps()[|rec.completed|]
    ensures var a := Act(p, w, rec, kind, tick);
      Tracks(p, a.world, ph') && ActMoves(p, kind, a.ok, w.history, a.world.history, ph, ph')
  {
    match kind
    case Hold => ph' := HoldStep(p, w, rec, tick, ph);
    case SplitCommit => ph' := SplitCommitStep(p, w, rec, tick, ph);
    case Payout => ph' := PayoutStep(p, w, rec, tick, ph);
    case EventPublish => ph' := ph;
  }

  /** After an attempt, the saved record, the advanced record and the start of a compensation all fit. */
  lemma {:induction false} ActRecords(p: Plan, rec: SagaRecord, rec': SagaRecord, kind: StepKind, ok: bool,
                   h: History, h': History, events: nat, ph: Phase, ph': Phase)
    requires |rec.completed| < |p.Steps()| && kind == p.Steps()[|rec.completed|]
    requires !Terminal(rec.state) && rec.state != COMPENSATING
    requires RecordFits(p, rec, h, events, ph) && ActMoves(p, kind, ok, h, h', ph, ph')
    requires rec' == (if kind == Hold && ok then rec.(holdIds := HoldIds(Ids(p.HoldTransfers()))) else rec)
    ensures RecordFits(p, rec, h', events, ph')
    ensures ok ==> RecordFits(p, StepDone(rec', kind), h', events + (if kind == EventPublish then 1 else 0), ph')
    ensures !ok ==> Behind(p, rec, h', ph')
  {
    assert p.Steps()[..|rec.completed| + 1] == p.Steps()[..|rec.completed|] + [kind];
  }

  /** How a compensation of `kind` moves the phase and the history. */
  ghost predicate UndoMoves(kind: StepKind, ok: bool, h: History, h': History, ph: Phase, ph': Phase) {
    match kind
    case Hold => ok && h' == h && ph' == (if ph.hold == Reserved then ph.(hold := Released) else ph)
    case SplitCommit => h' == h.(torn := h'.torn) && (ok ==> h' == h) && ph' == (if ok then ph.(reversed := true) else ph)
    case Payout => h' == h && ph' == (if ok then ph.(refunded := true) else ph)
    case EventPublish => ok && h' == h && ph' == ph
  }

  lemma {:induction false} UndoTracks(p: Plan, w: World, rec: SagaRecord, kind: StepKind, tick: Tick, ph: Phase) returns (ph': Phase)
    requires WellNamed(p) && Tracks(p, w, ph) && kind != EventPublish
    requires kind == Hold ==> ph.hold != Nothing && rec.holdIds == HoldIds(Ids(p.HoldTransfers()))
    ensures var a := Undo(p, w, rec, kind, tick);
      Tracks(p, a.world, ph') && UndoMoves(kind, a.ok, w.history, a.world.history, ph, ph')
  {
    match kind
    case Hold => ph' := HoldUndo(p, w, rec, tick, ph);
    case SplitCommit => ph' := SplitCommitUndo(p, w, rec, tick, ph);
    case Payout => ph' := PayoutUndo(p, w, rec, tick, ph);
  }

  lemma {:induction false} UndoRecords(p: Plan, rec: SagaRecord, k: nat, ok: bool, h: History, h': History, events: nat, ph: Phase, ph': Phase)
    requires RecordFits(p, rec, h, events, ph) && rec.state == COMPENSATING
    requires 0 < k <= |rec.completed| && UndoneDownTo(k, |rec.completed|, ph)
    requires UndoMoves(rec.completed[k - 1], ok, h, h', ph, ph')
    ensures RecordFits(p, rec, h', events, ph')
    ensures ok ==> UndoneDownTo(k - 1, |rec.completed|, ph')
    ensures !ok ==> RecordFits(p, rec.(state := FAILED), h', events, ph')
  {
    assert rec.completed[k - 1] == p.Steps()[k - 1];
  }

  lemma {:induction false} NotPublished(p: Plan, rec: SagaRecord, h: History, ph: Phase, k: nat)
    requires Listed(p, rec) && Behind(p, rec, h, ph) && 0 < k <= |rec.completed|
    ensures rec.completed[k - 1] != EventPublish
    ensures rec.completed[k - 1] == Hold ==> ph.hold != Nothing
  {
    assert rec.completed[k - 1] == p.Steps()[k - 1];
  }

  lemma {:induction false} WalkFits(p: Plan, w: World, rec: SagaRecord, k: nat, ticks: seq<Tick>, ph: Phase) returns (ph': Phase)
    requires WellNamed(p) && Inv(p, w, ph) && w.record == rec && rec.state == COMPENSATING
    requires k <= |rec.completed| && UndoneDownTo(k, |rec.completed|, ph)
    ensures Inv(p, Walk(p, w, rec, k, ticks), ph')
    decreases k
  {
    hide Tracks, Undo, Interfere, RecordFits, UndoneDownTo;
    ph' := ph;
    if k == 0 {
      WalkedDown(p, w, rec, ph);
      SaveFits(p, w, rec.(state := COMPENSATED), ticks, ph);
    } else {
      WalksOver(p, w, rec, k, ph);
      if ticks != [] {
        var a := Undo(p, Interfere(w, ticks[0].others), rec, rec.completed[k - 1], ticks[0]);
        ph' := WalkStep(p, w, rec, k, ticks[0], ph);
        if a.ok {
          ph' := WalkFits(p, a.world, rec, k - 1, ticks[1..], ph');
        } else {
          SaveFits(p, a.world, rec.(state := FAILED), ticks[1..], ph');
        }
      }
    }
  }

  lemma {:induction false} WalkedDown(p: Plan, w: World, rec: SagaRecord, ph: Phase)
    requires Inv(p, w, ph) && w.record == rec && rec.state == COMPENSATING && UndoneDownTo(0, |rec.completed|, ph)
    ensures RecordFits(p, rec.(state := COMPENSATED), w.history, w.events, ph)
  {
    hide Tracks;
  }

  lemma {:induction false} WalksOver(p: Plan, w: World, rec: SagaRecord, k: nat, ph: Phase)
    requires Inv(p, w, ph) && w.record == rec && rec.state == COMPENSATING && 0 < k <= |rec.completed|
    ensures rec.completed[k - 1] != EventPublish
  {
    hide Tracks;
    NotPublished(p, rec, w.history, ph, k);
  }

  /** One compensation on the way down. */
  lemma {:induction false} WalkStep(p: Plan, w: World, rec: SagaRecord, k: nat, tick: Tick, ph: Phase) returns (ph': Phase)
    requires WellNamed(p) && Inv(p, w, ph) && w.record == rec && rec.state == COMPENSATING
    requires 0 < k <= |rec.completed| && UndoneDownTo(k, |rec.completed|, ph)
    ensures var a := Undo(p, Interfere(w, tick.others), rec, rec.completed[k - 1], tick);
      && Tracks(p, a.world, ph') && a.world.record == rec
      && RecordFits(p, rec, a.world.history, a.world.events, ph')
      && (a.ok ==> UndoneDownTo(k - 1, |rec.completed|, ph'))
      && (!a.ok ==> RecordFits(p, rec.(state := FAILED), a.world.history, a.world.events, ph'))
  {
    hide Tracks, WellNamed;
    var w1, kind := Interfere(w, tick.others), rec.completed[k - 1];
    NotPublished(p, rec, w.history, ph, k);
    InterfereTracks(p, w, tick.others, ph);
    InterfereKeepsRecord(p, w, tick.others, ph);
    var a := Undo(p, w1, rec, kind, tick);
    ph' := UndoTracks(p, w1, rec, kind, tick, ph);
    UndoRecords(p, rec, k, a.ok, w1.history, a.world.history, w.events, ph, ph');
    UndoLeaves(p, w1, rec, kind, tick);
    hide Undo, RecordFits, UndoneDownTo, Interfere;
  }

  lemma {:induction false} UndoLeaves(p: Plan, w: World, rec: SagaRecord, kind: StepKind, tick: Tick)
    ensures Undo(p, w, rec, kind, tick).world.record == w.record && Undo(p, w, rec, kind, tick).world.events == w.events
  {
  }

  lemma {:induction false} InterfereKeepsRecord(p: Plan, w: World, o: Others, ph: Phase)
    ensures RecordFits(p, w.record, w.history, w.events, ph) ==>
      RecordFits(p, w.record, Interfere(w, o).history, w.events, ph)
  {
  }

  lemma {:induction false} CompensateFits(p: Plan, w: World, rec: SagaRecord, ticks: seq<Tick>, ph: Phase) returns (ph': Phase)
    requires WellNamed(p) && Inv(p, w, ph)
    requires Listed(p, rec) && Behind(p, rec, w.history, ph)
    ensures Inv(p, Compensate(p, w, rec, ticks), ph')
  {
    ph' := ph;
    if ticks != [] {
      var rec1 := rec.(state := COMPENSATING);
      SaveFits(p, w, rec1, ticks, ph);
      ph' := WalkFits(p, Save(w, rec1, ticks), rec1, |rec1.completed|, ticks[1..], ph);
    }
  }

  lemma {:induction false} ExecuteFits(p: Plan, w: World, ticks: seq<Tick>, ph: Phase) returns (ph': Phase)
    requires WellNamed(p) && Forward(p, w, ph)
    ensures Inv(p, Execute(p, w, w.record, ticks), ph')
    decreases |ticks|
  {
    hide Tracks;
    ph' := ph;
    var rec := w.record;
    var c := |rec.completed|;
    if c >= |p.Steps()| {
      SaveFits(p, w, rec.(state := COMPLETED), ticks, ph);
    } else if ticks != [] {
      InterfereTracks(p, w, ticks[0].others, ph);
      InterfereKeepsRecord(p, w, ticks[0].others, ph);
      var w1 := Interfere(w, ticks[0].others);
      var kind := p.Steps()[c];
      var a := Act(p, w1, rec, kind, ticks[0]);
      ph' := ActTracks(p, w1, rec, kind, ticks[0], ph);
      ActRecords(p, rec, a.record, kind, a.ok, w1.history, a.world.history, w.events, ph, ph');
      if !a.ok {
        ph' := CompensateFits(p, a.world, rec, ticks[1..], ph');
      } else if |ticks| > 1 {
        var done := StepDone(a.record, kind);
        SaveFits(p, a.world, done, ticks[1..], ph');
        ph' := ExecuteFits(p, Save(a.world, done, ticks[1..]), ticks[2..], ph');
      }
    }
  }

  lemma {:induction false} RecoverFits(p: Plan, w: World, ticks: seq<Tick>, ph: Phase) returns (ph': Phase)
    requires WellNamed(p) && Inv(p, w, ph)
    ensures Inv(p, Recover(p, w, ticks), ph')
  {
    ph' := ph;
    if Terminal(w.record.state) {
    } else if w.record.state == COMPENSATING {
      ph' := CompensateFits(p, w, w.record, ticks, ph);
    } else {
      ph' := ExecuteFits(p, w, ticks, ph);
    }
  }

  lemma {:induction false} LivesFit(p: Plan, w: World, lives: seq<seq<Tick>>, ph: Phase) returns (ph': Phase)
    requires WellNamed(p) && Inv(p, w, ph)
    ensures Inv(p, Lives(p, w, lives), ph')
    decreases |lives|
  {
    ph' := ph;
    if lives != [] {
      ph' := RecoverFits(p, w, lives[0], ph);
      ph' := LivesFit(p, Recover(p, w, lives[0]), lives[1..], ph');
    }
  }

  // ---------------------------------------------------------------------------
  // Main results
  // ---------------------------------------------------------------------------

  ghost predicate Unused(p: Plan, l: Ledger) {
    Absent(l, p.HoldTransfers()) && Absent(l, p.ReversalTransfers()) && Absent(l, p.PayoutTransfers()) && Absent(l, p.RefundTransfers())
  }

  lemma {:induction false} BegunFits(p: Plan, l: Ledger)
    requires Unused(p, l)
    ensures Inv(p, Begun(l), Phase(Nothing, false, false, false))
  {
  }

  ghost predicate Usable(p: Plan, l: Ledger) {
    WellNamed(p) && Unused(p, l)
  }

  /** COMPLETED: against the ledger without the saga, every account shows each leg and the payout
      exactly once, no hold is left, and the completion event was published. */
  lemma {:induction false} CompletedMeansOnce(p: Plan, l: Ledger, lives: seq<seq<Tick>>)
    requires Usable(p, l)
    ensures var w := Lives(p, Begun(l), lives);
      w.record.state == COMPLETED ==>
        && (forall a :: Bal(w.ledger, a) == Bal(w.history.without, a) + Deltas(p.HoldTransfers(), a) + Deltas(p.PayoutTransfers(), a))
        && (forall a :: Held(w.ledger, a) == Held(w.history.without, a))
        && w.events >= 1
  {
    BegunFits(p, l);
    var ph := LivesFit(p, Begun(l), lives, Phase(Nothing, false, false, false));
  }

  /** What a compensated saga has left behind: the legs of torn reversals and, after a stray post
      failure, the whole chain. */
  lemma {:induction false} CompensatedResidue(p: Plan, l: Ledger, lives: seq<seq<Tick>>)
    requires Usable(p, l)
    ensures var w := Lives(p, Begun(l), lives);
      var h := w.history;
      w.record.state == COMPENSATED ==>
        && (forall i :: 0 <= i < |h.torn| ==> h.torn[i].amount > 0)
        && (h.stray ==> h.torn == [] && p.legs != [] && forall i :: 0 <= i < |p.legs| ==> p.legs[i].amount > 0)
        && (forall a :: Bal(w.ledger, a) == Bal(h.without, a) + Deltas(h.torn, a) + (if h.stray then Deltas(p.HoldTransfers(), a) else 0))
        && (forall a :: Held(w.ledger, a) == Held(h.without, a) - Reserves(h.torn, a))
  {
    BegunFits(p, l);
    var ph := LivesFit(p, Begun(l), lives, Phase(Nothing, false, false, false));
    var w := Lives(p, Begun(l), lives);
    if w.record.state == COMPENSATED {
      forall a ensures Moved(p, ph, a) == if w.history.stray then Deltas(p.HoldTransfers(), a) else 0 {
        ReversalCancels(p.key, p.source, p.legs, a);
        MirrorDeltas(p.PayoutTransfers(), p.RefundTransfers(), a);
      }
    }
  }

  /** A chain out of one account moves nothing if and only if every leg pays that account itself. */
  lemma {:induction false} DebitsOnly(ts: seq<Transfer>, source: Account)
    requires forall i :: 0 <= i < |ts| ==> ts[i].amount > 0 && ts[i].debit == source
    ensures Deltas(ts, source) <= 0
    ensures Deltas(ts, source) == 0 <==> forall i :: 0 <= i < |ts| ==> ts[i].credit == source
    ensures (forall i :: 0 <= i < |ts| ==> ts[i].credit == source) ==> forall a :: Deltas(ts, a) == 0
  {
    if ts != [] {
      TailAt(ts);
      DebitsOnly(ts[1..], source);
      assert Deltas(ts, source) == Delta(ts[0], source) + Deltas(ts[1..], source);
      if forall i :: 0 <= i < |ts| ==> ts[i].credit == source {
        assert forall a :: Deltas(ts, a) == Delta(ts[0], a) + Deltas(ts[1..], a);
      }
    }
  }

  /** COMPENSATED: every balance and every hold total is what it would be without the saga if and
      only if no reversal raised after applying some of its legs, and no post attempt raised on a chain
      it had already posted, unless every leg of that chain pays the payer itself. */
  lemma {:induction false} CompensatedNetsToZeroIff(p: Plan, l: Ledger, lives: seq<seq<Tick>>)
    requires Usable(p, l)
    ensures var w := Lives(p, Begun(l), lives);
      w.record.state == COMPENSATED ==>
        ((forall a :: Bal(w.ledger, a) == Bal(w.history.without, a) && Held(w.ledger, a) == Held(w.history.without, a))
          <==> w.history.torn == [] && (w.history.stray ==> forall i :: 0 <= i < |p.legs| ==> p.legs[i].dest == p.source))
  {
    CompensatedResidue(p, l, lives);
    var w := Lives(p, Begun(l), lives);
    hide Lives;
    if w.record.state == COMPENSATED && w.history.torn != [] {
      var a := w.history.torn[0].debit;
      ReservesPositive(w.history.torn, a);
      assert Held(w.ledger, a) != Held(w.history.without, a);
    } else if w.record.state == COMPENSATED && w.history.stray {
      var ts := p.HoldTransfers();
      assert forall i :: 0 <= i < |ts| ==> ts[i].amount == p.legs[i].amount && ts[i].credit == p.legs[i].dest;
      DebitsOnly(ts, p.source);
    }
  }

  // ---------------------------------------------------------------------------
  // Termination
  // ---------------------------------------------------------------------------

  lemma {:induction false} WalkEnds(p: Plan, w: World, rec: SagaRecord, k: nat, ticks: seq<Tick>)
    requires k <= |rec.completed| && |ticks| >= k + 1
    ensures Terminal(Walk(p, w, rec, k, ticks).record.state)
    decreases k
  {
    if k > 0 {
      if rec.completed[k - 1] == EventPublish {
        WalkEnds(p, w, rec, k - 1, ticks);
      } else {
        var a := Undo(p, Interfere(w, ticks[0].others), rec, rec.completed[k - 1], ticks[0]);
        if a.ok { WalkEnds(p, a.world, rec, k - 1, ticks[1..]); }
      }
    }
  }

  lemma {:induction false} ExecuteEnds(p: Plan, w: World, rec: SagaRecord, ticks: seq<Tick>)
    requires |rec.completed| <= |p.Steps()|
    requires |ticks| >= 2 * (|p.Steps()| - |rec.completed|) + |p.Steps()| + 1
    ensures Terminal(Execute(p, w, rec, ticks).record.state)
    decreases |ticks|
  {
    var c := |rec.completed|;
    if c < |p.Steps()| {
      var kind := p.Steps()[c];
      var a := Act(p, Interfere(w, ticks[0].others), rec, kind, ticks[0]);
      if a.ok {
        var done := a.record.(completed := rec.completed + [kind], state := ForwardState(kind));
        ExecuteEnds(p, Save(a.world, done, ticks[1..]), done, ticks[2..]);
      } else {
        var rec1 := rec.(state := COMPENSATING);
        WalkEnds(p, Save(a.world, rec1, ticks[1..]), rec1, c, ticks[1..][1..]);
      }
    }
  }

  /** Recovery always reaches a terminal state: whatever happened before, one life that survives
      13 durable operations finishes the saga. */
  lemma {:induction false} RecoveryTerminates(p: Plan, l: Ledger, lives: seq<seq<Tick>>, last: seq<Tick>)
    requires Usable(p, l) && |last| >= 13
    ensures Terminal(Recover(p, Lives(p, Begun(l), lives), last).record.state)
  {
    BegunFits(p, l);
    var ph := LivesFit(p, Begun(l), lives, Phase(Nothing, false, false, false));
    var w := Lives(p, Begun(l), lives);
    if !Terminal(w.record.state) {
      if w.record.state == COMPENSATING {
        var rec := w.record;
        WalkEnds(p, Save(w, rec, last), rec, |rec.completed|, last[1..]);
      } else {
        ExecuteEnds(p, w, w.record, last);
      }
    }
  }
}
