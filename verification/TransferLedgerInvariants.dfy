/** Invariants of the transfer client over whole runs: the running hold totals equal the scan they
    replace, holds never exceed the balance, and no operation creates or destroys money. */
module TransferLedgerInvariants {
  import opened Sequences
  import opened Sums
  import opened TransferLedger
  import opened TransferLedgerCreate
  import opened TransferLedgerLaws

  /** What one stored transfer contributes to the outstanding holds of `a`. */
  function Outstanding(t: Transfer, a: Account): int {
    if t.pending && t.state == PENDING && t.debit == a then t.amount else 0
  }

  /** The scan over all transfers that `_holds` replaces. */
  ghost function Scan(m: map<TransferId, Transfer>, a: Account): int {
    SumMap(map id | id in m :: Outstanding(m[id], a))
  }

  lemma {:induction false} ScanPut(m: map<TransferId, Transfer>, id: TransferId, t: Transfer, a: Account)
    ensures Scan(m[id := t], a) == Scan(m, a) - (if id in m then Outstanding(m[id], a) else 0) + Outstanding(t, a)
  {
    var table := map i | i in m :: Outstanding(m[i], a);
    var m1 := m[id := t];
    assert (map i | i in m1 :: Outstanding(m1[i], a)) == table[id := Outstanding(t, a)];
    SumMapPut(table, id, Outstanding(t, a));
  }

  lemma {:induction false} ScanDrop(m: map<TransferId, Transfer>, id: TransferId, a: Account)
    requires id in m
    ensures Scan(m - {id}, a) == Scan(m, a) - Outstanding(m[id], a)
  {
    var table := map i | i in m :: Outstanding(m[i], a);
    var m1 := m - {id};
    assert (map i | i in m1 :: Outstanding(m1[i], a)) == table - {id};
    SumMapDrop(table, id);
  }

  ghost predicate WellKept(l: Ledger) {
    forall id :: id in l.transfers ==> l.transfers[id].id == id && l.transfers[id].amount > 0
  }

  /** How far the running total of `a` has fallen behind the scan. */
  ghost function Gap(l: Ledger, a: Account): int {
    Scan(l.transfers, a) - Held(l, a)
  }

  ghost predicate HoldsExact(l: Ledger) {
    forall a :: Gap(l, a) == 0
  }

  ghost predicate Solvent(l: Ledger) {
    forall a :: 0 <= Held(l, a) <= Bal(l, a)
  }

  ghost predicate Invariant(l: Ledger) {
    WellKept(l) && HoldsExact(l) && Solvent(l)
  }

  lemma {:induction false} HoldCoversTransfer(l: Ledger, id: TransferId)
    requires WellKept(l) && HoldsExact(l) && id in l.transfers
    ensures Held(l, l.transfers[id].debit) >= Outstanding(l.transfers[id], l.transfers[id].debit)
  {
    var m, a := l.transfers, l.transfers[id].debit;
    assert Gap(l, a) == 0;
    SumMapAtLeast(map i | i in m :: Outstanding(m[i], a), id);
  }

  // ---------------------------------------------------------------------------
  // Hold totals, exactly
  // ---------------------------------------------------------------------------

  /** A direct transfer keeps the default state PENDING, so roll-back, post and void take it for a hold. */
  predicate TakenForHold(t: Transfer) {
    !t.pending && t.state == PENDING
  }

  ghost predicate Unmistaken(l: Ledger, ids: seq<TransferId>) {
    forall i :: 0 <= i < |ids| && ids[i] in l.transfers ==> !TakenForHold(l.transfers[ids[i]])
  }

  lemma {:induction false} InsertKeepsExact(l: Ledger, t: Transfer)
    requires WellKept(l) && t.id !in l.transfers && t.amount > 0 && t.state == PENDING
    ensures WellKept(Insert(l, t))
    ensures forall a :: Gap(Insert(l, t), a) == Gap(l, a)
  {
    forall a ensures Gap(Insert(l, t), a) == Gap(l, a) {
      ScanPut(l.transfers, t.id, t, a);
    }
  }

  lemma {:induction false} CreateLoopKeepsExact(l: Ledger, ts: seq<Transfer>, created: seq<Transfer>, failOnLeg: string)
    requires WellKept(l) && NewRecords(ts) && Present(l, created)
    ensures var r := CreateLoop(l, ts, created, failOnLeg);
      WellKept(r.ledger) && Present(r.ledger, r.created) && forall a :: Gap(r.ledger, a) == Gap(l, a)
    decreases |ts|
  {
    if ts != [] {
      TailAt(ts);
      if ts[0].id in l.transfers {
        CreateLoopKeepsExact(l, ts[1..], created + [l.transfers[ts[0].id]], failOnLeg);
      } else if !Refuses(l, ts[0], failOnLeg) {
        InsertKeepsExact(l, ts[0]);
        CreateLoopKeepsExact(Insert(l, ts[0]), ts[1..], created + [ts[0]], failOnLeg);
      }
    }
  }

  ghost predicate Faithful(l: Ledger, created: seq<Transfer>) {
    forall i :: 0 <= i < |created| && created[i].id in l.transfers ==> l.transfers[created[i].id] == created[i]
  }

  lemma {:induction false} RollbackOneGap(l: Ledger, t: Transfer, a: Account)
    requires WellKept(l) && t.id in l.transfers && l.transfers[t.id] == t
    ensures Gap(RollbackOne(l, t), a) == Gap(l, a) + (if TakenForHold(t) then Reserve(t, a) else 0)
  {
    ScanDrop(l.transfers, t.id, a);
  }

  lemma {:induction false} RollbackOneLeaves(l: Ledger, created: seq<Transfer>)
    requires WellKept(l) && created != [] && Faithful(l, created)
    ensures var l1 := RollbackOne(l, created[0]);
      && WellKept(l1) && Faithful(l1, created[1..])
      && (forall id :: id != created[0].id ==> (id in l1.transfers <==> id in l.transfers))
      && (created[0].id !in l.transfers ==> l1 == l)
    ensures created[0].id in l.transfers ==> created[0].amount > 0
  {
    TailAt(created);
  }

  /** A record the roll-back takes for a hold of `a`. */
  ghost predicate Deletes(l: Ledger, t: Transfer, a: Account) {
    TakenForHold(t) && t.id in l.transfers && t.debit == a
  }

  lemma {:induction false} RollbackGapAt(l: Ledger, created: seq<Transfer>, a: Account)
    requires WellKept(l) && Faithful(l, created)
    ensures WellKept(Rollback(l, created)) && Gap(Rollback(l, created), a) >= Gap(l, a)
    ensures (forall i :: 0 <= i < |created| ==> !TakenForHold(created[i])) ==> Gap(Rollback(l, created), a) == Gap(l, a)
    ensures (exists i :: 0 <= i < |created| && Deletes(l, created[i], a)) ==> Gap(Rollback(l, created), a) > Gap(l, a)
    decreases |created|
  {
    if created != [] {
      var t, l1 := created[0], RollbackOne(l, created[0]);
      RollbackOneLeaves(l, created);
      if t.id in l.transfers { RollbackOneGap(l, t, a); }
      TailAt(created);
      hide RollbackOne, Gap, WellKept, Faithful, TakenForHold;
      RollbackGapAt(l1, created[1..], a);
      if i :| 0 <= i < |created| && Deletes(l, created[i], a) {
        if created[i].id != t.id {
          assert Deletes(l1, created[1..][i - 1], a);
        }
      }
    }
  }

  /** Each direct transfer the roll-back deletes leaves its debit account's total short by its amount. */
  lemma {:induction false} RollbackGap(l: Ledger, created: seq<Transfer>)
    requires WellKept(l) && Faithful(l, created)
    ensures WellKept(Rollback(l, created))
    ensures forall a :: Gap(Rollback(l, created), a) >= Gap(l, a)
    ensures (forall i :: 0 <= i < |created| ==> !TakenForHold(created[i])) ==>
      forall a :: Gap(Rollback(l, created), a) == Gap(l, a)
    ensures forall i :: 0 <= i < |created| && TakenForHold(created[i]) && created[i].id in l.transfers ==>
      Gap(Rollback(l, created), created[i].debit) > Gap(l, created[i].debit)
  {
    hide Rollback, Gap, WellKept, Faithful, TakenForHold;
    RollbackGapAt(l, created, 0);
    forall a
      ensures Gap(Rollback(l, created), a) >= Gap(l, a)
      ensures (forall i :: 0 <= i < |created| ==> !TakenForHold(created[i])) ==> Gap(Rollback(l, created), a) == Gap(l, a)
    {
      RollbackGapAt(l, created, a);
    }
    forall i | 0 <= i < |created| && TakenForHold(created[i]) && created[i].id in l.transfers
      ensures Gap(Rollback(l, created), created[i].debit) > Gap(l, created[i].debit)
    {
      RollbackGapAt(l, created, created[i].debit);
      assert Deletes(l, created[i], created[i].debit);
    }
  }

  /** Nothing a failing call would roll back is a direct transfer: either no leg is refused, or none of
      the records touched before the refused leg is one. */
  ghost predicate KeepsHolds(l: Ledger, ts: seq<Transfer>, failOnLeg: string) {
    var k := Accepted(l, ts, failOnLeg);
    k == |ts| || forall i :: 0 <= i < k ==> !TakenForHold(Touched(l.transfers, ts, i))
  }

  /** After a create the running totals still equal the scan if and only if no leg is refused, or no leg
      before the refused one names a direct transfer. */
  lemma {:induction false} CreateHoldsExactIff(l: Ledger, ts: seq<Transfer>, failOnLeg: string)
    requires WellKept(l) && HoldsExact(l) && NewRecords(ts)
    ensures WellKept(Create(l, ts, failOnLeg).ledger)
    ensures HoldsExact(Create(l, ts, failOnLeg).ledger) <==> KeepsHolds(l, ts, failOnLeg)
  {
    CreateLoopKeepsExact(l, ts, [], failOnLeg);
    CreateTouchesAccepted(l, ts, failOnLeg);
    var c, k := CreateLoop(l, ts, [], failOnLeg), Accepted(l, ts, failOnLeg);
    hide Reached, CreateLoop, Touched, Accepted;
    if !c.ok {
      RollbackGap(c.ledger, c.created);
      if i :| 0 <= i < k && TakenForHold(Touched(l.transfers, ts, i)) {
        assert c.created[i] == Touched(l.transfers, ts, i);
        assert Gap(Rollback(c.ledger, c.created), c.created[i].debit) > Gap(c.ledger, c.created[i].debit);
      }
    }
  }

  /** Chains that reserve in every leg but the last, naming no stored direct transfer before it: hold
      chains and single direct legs among them. Whether such a call succeeds makes no difference. */
  lemma {:induction false} LastLegMaySettle(l: Ledger, ts: seq<Transfer>, failOnLeg: string)
    requires forall i :: 0 <= i < |ts| - 1 ==>
      ts[i].pending && (ts[i].id in l.transfers ==> !TakenForHold(l.transfers[ts[i].id]))
    ensures KeepsHolds(l, ts, failOnLeg)
  {
    var k := Accepted(l, ts, failOnLeg);
    if k < |ts| {
      forall i | 0 <= i < k ensures !TakenForHold(Touched(l.transfers, ts, i)) {
        assert 0 <= FirstFrom(ts, i, 0) < |ts| - 1;
      }
    }
  }

  // ---------------------------------------------------------------------------
  // Atomicity of a failed create
  // ---------------------------------------------------------------------------

  ghost predicate Unchanged(l: Ledger, l': Ledger) {
    l'.transfers == l.transfers && forall a :: Bal(l', a) == Bal(l, a) && Held(l', a) == Held(l, a)
  }

  /** Among the first `k` legs every unseen one is pending and none names a record stored as PENDING. */
  ghost predicate CleanLegs(m: map<TransferId, Transfer>, ts: seq<Transfer>, k: nat)
    requires k <= |ts|
  {
    && (forall i :: 0 <= i < k && Unseen(m, ts, i) ==> ts[i].pending)
    && (forall i :: 0 <= i < k && ts[i].id in m ==> m[ts[i].id].state != PENDING)
  }

  /** Before the refused leg every unseen leg is pending, and no leg names a record stored as PENDING. */
  ghost predicate RollsBackClean(l: Ledger, ts: seq<Transfer>, failOnLeg: string) {
    CleanLegs(l.transfers, ts, Accepted(l, ts, failOnLeg))
  }

  /** The record of `id` is one the roll-back deletes. */
  ghost predicate Dropped(l: Ledger, created: seq<Transfer>, id: TransferId) {
    id in l.transfers && l.transfers[id].state == PENDING && exists i :: 0 <= i < |created| && created[i].id == id
  }

  lemma {:induction false} RollbackRecords(l: Ledger, created: seq<Transfer>)
    ensures forall id :: id in Rollback(l, created).transfers <==> id in l.transfers && !Dropped(l, created, id)
    ensures forall id :: id in Rollback(l, created).transfers ==> Rollback(l, created).transfers[id] == l.transfers[id]
    decreases |created|
  {
    if created != [] {
      var l1, r := RollbackOne(l, created[0]), Rollback(l, created);
      TailAt(created);
      RollbackRecords(l1, created[1..]);
      forall id ensures id in r.transfers <==> id in l.transfers && !Dropped(l, created, id) {
        if i :| 0 <= i < |created| && created[i].id == id {
          if i > 0 { assert created[1..][i - 1].id == id; }
        }
      }
    }
  }

  lemma {:induction false} NewLegsPending(m: map<TransferId, Transfer>, ts: seq<Transfer>, k: nat)
    requires k <= |ts| && forall i :: 0 <= i < k && Unseen(m, ts, i) ==> ts[i].pending
    ensures AllPending(NewLegs(m, ts, k))
    decreases k
  {
    if k > 0 { NewLegsPending(m, ts, k - 1); }
  }

  lemma {:induction false} CleanTouched(m: map<TransferId, Transfer>, ts: seq<Transfer>, k: nat, i: nat)
    requires i < k <= |ts| && NewRecords(ts) && CleanLegs(m, ts, k)
    ensures !TakenForHold(Touched(m, ts, i)) && Touched(m, ts, i).id == (if ts[i].id in m then m[ts[i].id].id else ts[i].id)
    ensures Touched(m, ts, i).state == PENDING <==> ts[i].id !in m
  {
    FirstIsFirst(ts, i);
    assert ts[i].id !in m ==> Unseen(m, ts, FirstFrom(ts, i, 0));
  }

  /** A leg that names a stored record names one the roll-back leaves alone. */
  lemma {:induction false} StoredStays(l: Ledger, ts: seq<Transfer>, k: nat, i: nat, id: TransferId)
    requires i < k <= |ts| && NewRecords(ts) && CleanLegs(l.transfers, ts, k) && WellKept(l)
    requires id in l.transfers && Touched(l.transfers, ts, i).id == id
    ensures l.transfers[id].state != PENDING
  {
    CleanTouched(l.transfers, ts, k, i);
    hide Touched;
  }

  lemma {:induction false} NewIsTouched(l: Ledger, ts: seq<Transfer>, k: nat, id: TransferId) returns (i: nat)
    requires k <= |ts| && NewRecords(ts) && CleanLegs(l.transfers, ts, k)
    requires id in Reached(l, ts, k).transfers && id !in l.transfers
    ensures i < k && Touched(l.transfers, ts, i).id == id
    ensures Reached(l, ts, k).transfers[id].state == PENDING
  {
    ReachedRecords(l, ts, k);
    hide Reached, CleanLegs, Touched;
    assert Names(ts, k, id);
    i :| 0 <= i < k && ts[i].id == id;
    CleanTouched(l.transfers, ts, k, i);
    assert Reached(l, ts, k).transfers[ts[i].id] == Touched(l.transfers, ts, i);
  }

  lemma {:induction false} DroppedAreNew(l: Ledger, ts: seq<Transfer>, k: nat, id: TransferId)
    requires k <= |ts| && NewRecords(ts) && CleanLegs(l.transfers, ts, k) && WellKept(l)
    requires id in Reached(l, ts, k).transfers
    ensures Dropped(Reached(l, ts, k), TouchedLegs(l.transfers, ts, k), id) <==> id !in l.transfers
  {
    var s, created := Reached(l, ts, k), TouchedLegs(l.transfers, ts, k);
    if id in l.transfers {
      assert s.transfers[id] == l.transfers[id] by { ReachedRecords(l, ts, k); }
      hide Reached, CleanLegs, Touched, NewRecords, WellKept;
      forall i | 0 <= i < |created| && created[i].id == id ensures l.transfers[id].state != PENDING {
        StoredStays(l, ts, k, i, id);
      }
    } else {
      var i := NewIsTouched(l, ts, k, id);
      hide Reached, CleanLegs, Touched, NewRecords, WellKept;
      assert created[i].id == id;
    }
  }

  lemma {:induction false} CleanRecords(l: Ledger, ts: seq<Transfer>, k: nat)
    requires k <= |ts| && NewRecords(ts) && CleanLegs(l.transfers, ts, k) && WellKept(l)
    ensures forall i :: 0 <= i < k ==> !TakenForHold(Touched(l.transfers, ts, i))
    ensures Rollback(Reached(l, ts, k), TouchedLegs(l.transfers, ts, k)).transfers == l.transfers
  {
    var s, created := Reached(l, ts, k), TouchedLegs(l.transfers, ts, k);
    ReachedRecords(l, ts, k);
    RollbackRecords(s, created);
    hide Reached, Rollback, CleanLegs, TakenForHold, Touched, TouchedLegs, Dropped, WellKept;
    forall i | 0 <= i < k ensures !TakenForHold(Touched(l.transfers, ts, i)) { CleanTouched(l.transfers, ts, k, i); }
    forall id | id in s.transfers ensures !Dropped(s, created, id) <==> id in l.transfers {
      DroppedAreNew(l, ts, k, id);
    }
  }

  lemma {:induction false} CleanRollback(l: Ledger, ts: seq<Transfer>, failOnLeg: string)
    requires WellKept(l) && NewRecords(ts) && !Create(l, ts, failOnLeg).ok
    requires RollsBackClean(l, ts, failOnLeg)
    ensures Unchanged(l, Create(l, ts, failOnLeg).ledger)
  {
    var k, r := Accepted(l, ts, failOnLeg), Create(l, ts, failOnLeg).ledger;
    var s, created := Reached(l, ts, k), TouchedLegs(l.transfers, ts, k);
    CreateTouchesAccepted(l, ts, failOnLeg);
    CreateLoopKeepsExact(l, ts, [], failOnLeg);
    CleanRecords(l, ts, k);
    RollbackGap(s, created);
    RollbackConserves(s, created);
    InsertAllEffect(l, NewLegs(l.transfers, ts, k));
    NewLegsPending(l.transfers, ts, k);
    HoldsOfHolds(NewLegs(l.transfers, ts, k));
    hide NewLegs, Touched, Rollback, CreateLoop, WellKept;
    forall a ensures Bal(r, a) == Bal(l, a) && Held(r, a) == Held(l, a) {
      assert Gap(r, a) == Gap(s, a) && Gap(s, a) == Gap(l, a);
    }
  }

  lemma {:induction false} StoredHoldIsDropped(l: Ledger, ts: seq<Transfer>, k: nat, i: nat)
    requires i < k <= |ts| && WellKept(l)
    requires ts[i].id in l.transfers && l.transfers[ts[i].id].state == PENDING
    ensures Rollback(Reached(l, ts, k), TouchedLegs(l.transfers, ts, k)).transfers != l.transfers
  {
    var s, created := Reached(l, ts, k), TouchedLegs(l.transfers, ts, k);
    RollbackRecords(s, created);
    ReachedRecords(l, ts, k);
    hide Reached, Rollback;
    assert created[i].id == ts[i].id;
    assert s.transfers[ts[i].id] == l.transfers[ts[i].id];
    assert Dropped(s, created, ts[i].id);
  }

  lemma {:induction false} DirectLegLeavesGap(l: Ledger, ts: seq<Transfer>, k: nat, i: nat)
    requires i < k <= |ts| && NewRecords(ts) && Unseen(l.transfers, ts, i) && !ts[i].pending
    requires var s, created := Reached(l, ts, k), TouchedLegs(l.transfers, ts, k);
      WellKept(s) && Faithful(s, created) && forall a :: Gap(s, a) == Gap(l, a)
    ensures !Unchanged(l, Rollback(Reached(l, ts, k), TouchedLegs(l.transfers, ts, k)))
  {
    var s, created, a := Reached(l, ts, k), TouchedLegs(l.transfers, ts, k), ts[i].debit;
    assert ts[i].id in s.transfers by { ReachedRecords(l, ts, k); }
    assert created[i] == ts[i];
    assert TakenForHold(created[i]);
    hide Reached, Rollback, Scan, WellKept, Faithful, TouchedLegs, TakenForHold, Unseen;
    var r := Rollback(s, created);
    assert Gap(r, a) > Gap(l, a) by {
      hide Gap;
      RollbackGap(s, created);
    }
  }

  lemma {:induction false} UncleanRollback(l: Ledger, ts: seq<Transfer>, failOnLeg: string)
    requires WellKept(l) && NewRecords(ts) && !Create(l, ts, failOnLeg).ok
    requires !RollsBackClean(l, ts, failOnLeg)
    ensures !Unchanged(l, Create(l, ts, failOnLeg).ledger)
  {
    var k := Accepted(l, ts, failOnLeg);
    CreateTouchesAccepted(l, ts, failOnLeg);
    if i :| 0 <= i < k && ts[i].id in l.transfers && l.transfers[ts[i].id].state == PENDING {
      hide Reached, Touched, CreateLoop, Accepted;
      StoredHoldIsDropped(l, ts, k, i);
    } else {
      var i :| 0 <= i < k && Unseen(l.transfers, ts, i) && !ts[i].pending;
      hide Reached, Touched, CreateLoop, Accepted, WellKept;
      CreateLoopKeepsExact(l, ts, [], failOnLeg);
      DirectLegLeavesGap(l, ts, k, i);
    }
  }

  /** The roll-back promise, exactly: a failed create leaves every record and account as it was if and
      only if, before the leg it refuses, every unseen leg is pending and no leg names a record that is
      stored as PENDING. Neither hold chains nor direct chains are atomic in general. */
  lemma {:induction false} FailedCreateAtomicIff(l: Ledger, ts: seq<Transfer>, failOnLeg: string)
    requires WellKept(l) && NewRecords(ts) && !Create(l, ts, failOnLeg).ok
    ensures Unchanged(l, Create(l, ts, failOnLeg).ledger) <==> RollsBackClean(l, ts, failOnLeg)
  {
    if RollsBackClean(l, ts, failOnLeg) {
      CleanRollback(l, ts, failOnLeg);
    } else {
      UncleanRollback(l, ts, failOnLeg);
    }
  }

  /** A chain of holds that is not atomic: its first leg names a hold that is already stored, its second
      is refused, and the roll-back deletes the old hold and releases its 5. */
  lemma {:induction false} FailedChainDropsStoredHold()
    ensures
      var ta := Transfer("k|a", 1, 9, 5, true, true, "k", "a", PENDING);
      var tb := Transfer("k|b", 1, 9, 100, true, false, "k", "b", PENDING);
      var l := Ledger(map["k|a" := ta], map[1 := 5], map[1 := 5]);
      var r := Create(l, [ta, tb], "");
      !r.ok && r.ledger.transfers == map[] && Held(l, 1) == 5 && Held(r.ledger, 1) == 0 && Bal(r.ledger, 1) == 5
  {
    var ta := Transfer("k|a", 1, 9, 5, true, true, "k", "a", PENDING);
    var tb := Transfer("k|b", 1, 9, 100, true, false, "k", "b", PENDING);
    var l := Ledger(map["k|a" := ta], map[1 := 5], map[1 := 5]);
    assert "k|a"[2] != "k|b"[2];
    assert [ta, tb][1..] == [tb] && [] + [ta] == [ta];
    assert CreateLoop(l, [tb], [ta], "") == Created(false, l, [ta]);
    assert Rollback(l, [ta]) == Rollback(RollbackOne(l, ta), [ta][1..]);
  }

  /** Posting and voiding treat the records the same way, up to the balances. */
  ghost function SettleOne(l: Ledger, id: TransferId, post: bool): Ledger
    requires id in l.transfers
  {
    if post then PostOne(l, id) else VoidOne(l, id)
  }

  ghost function SettleLoop(l: Ledger, ids: seq<TransferId>, post: bool): Ledger
    requires forall i :: 0 <= i < |ids| ==> ids[i] in l.transfers
  {
    if post then PostLoop(l, ids) else VoidLoop(l, ids)
  }

  lemma {:induction false} SettleGap(l: Ledger, id: TransferId, post: bool, a: Account)
    requires WellKept(l) && id in l.transfers
    ensures WellKept(SettleOne(l, id, post))
    ensures Gap(SettleOne(l, id, post), a) ==
      Gap(l, a) + (if TakenForHold(l.transfers[id]) then Reserve(l.transfers[id], a) else 0)
  {
    ScanPut(l.transfers, id, l.transfers[id].(state := if post then POSTED else VOIDED), a);
  }

  lemma {:induction false} SettleLoopStep(l: Ledger, ids: seq<TransferId>, post: bool)
    requires ids != [] && forall i :: 0 <= i < |ids| ==> ids[i] in l.transfers
    ensures var l1 := SettleOne(l, ids[0], post);
      && (forall i :: 0 <= i < |ids[1..]| ==> ids[1..][i] in l1.transfers)
      && SettleLoop(l, ids, post) == SettleLoop(l1, ids[1..], post)
      && (Unmistaken(l, ids) ==> Unmistaken(l1, ids[1..]) && !TakenForHold(l.transfers[ids[0]]))
  {
    TailAt(ids);
  }

  lemma {:induction false} SettleLoopGap(l: Ledger, ids: seq<TransferId>, post: bool)
    requires WellKept(l) && forall i :: 0 <= i < |ids| ==> ids[i] in l.transfers
    ensures WellKept(SettleLoop(l, ids, post))
    ensures forall a :: Gap(SettleLoop(l, ids, post), a) >= Gap(l, a)
    ensures Unmistaken(l, ids) ==> forall a :: Gap(SettleLoop(l, ids, post), a) == Gap(l, a)
    decreases |ids|
  {
    if ids != [] {
      var l1 := SettleOne(l, ids[0], post);
      assert l.transfers[ids[0]].amount > 0;
      hide SettleOne, SettleLoop, Unmistaken, WellKept, Gap, TakenForHold;
      forall a { SettleGap(l, ids[0], post, a); }
      SettleGap(l, ids[0], post, 0);
      SettleLoopStep(l, ids, post);
      SettleLoopGap(l1, ids[1..], post);
    }
  }

  lemma {:induction false} SettleMistake(l: Ledger, ids: seq<TransferId>, post: bool, i: nat)
    requires WellKept(l) && forall j :: 0 <= j < |ids| ==> ids[j] in l.transfers
    requires i < |ids| && TakenForHold(l.transfers[ids[i]])
    ensures Gap(SettleLoop(l, ids, post), l.transfers[ids[i]].debit) > Gap(l, l.transfers[ids[i]].debit)
    decreases |ids|
  {
    var l1, a := SettleOne(l, ids[0], post), l.transfers[ids[i]].debit;
    TailAt(ids);
    SettleGap(l, ids[0], post, a);
    assert SettleLoop(l, ids, post) == SettleLoop(l1, ids[1..], post);
    if ids[i] == ids[0] {
      SettleLoopGap(l1, ids[1..], post);
    } else {
      SettleMistake(l1, ids[1..], post, i - 1);
    }
  }

  lemma {:induction false} SettleLoopExactIff(l: Ledger, ids: seq<TransferId>, post: bool)
    requires WellKept(l) && HoldsExact(l) && forall i :: 0 <= i < |ids| ==> ids[i] in l.transfers
    ensures WellKept(SettleLoop(l, ids, post))
    ensures HoldsExact(SettleLoop(l, ids, post)) <==> Unmistaken(l, ids)
  {
    SettleLoopGap(l, ids, post);
    if !Unmistaken(l, ids) {
      var i :| 0 <= i < |ids| && ids[i] in l.transfers && TakenForHold(l.transfers[ids[i]]);
      SettleMistake(l, ids, post, i);
      assert Gap(SettleLoop(l, ids, post), l.transfers[ids[i]].debit) != 0;
    }
  }

  /** Posting and voiding keep the running totals exact if and only if they do nothing or no ID
      names a direct transfer. */
  lemma {:induction false} SettleHoldsExactIff(l: Ledger, ids: seq<TransferId>, failOnPost: bool)
    requires WellKept(l) && HoldsExact(l)
    ensures WellKept(Post(l, ids, failOnPost).ledger) && WellKept(Void(l, ids).ledger)
    ensures HoldsExact(Post(l, ids, failOnPost).ledger) <==> !Post(l, ids, failOnPost).ok || Unmistaken(l, ids)
    ensures HoldsExact(Void(l, ids).ledger) <==> !Void(l, ids).ok || Unmistaken(l, ids)
  {
    if Post(l, ids, failOnPost).ok { SettleLoopExactIff(l, ids, true); }
    if Void(l, ids).ok { SettleLoopExactIff(l, ids, false); }
  }

  // ---------------------------------------------------------------------------
  // Solvency
  // ---------------------------------------------------------------------------

  lemma {:induction false} InsertKeepsSolvent(l: Ledger, t: Transfer, failOnLeg: string)
    requires Solvent(l) && !Refuses(l, t, failOnLeg)
    requires t.pending || Held(l, t.debit) == 0
    ensures Solvent(Insert(l, t))
  {
    forall a ensures 0 <= Held(Insert(l, t), a) <= Bal(Insert(l, t), a) {
      assert 0 <= Held(l, a) <= Bal(l, a);
    }
  }

  /** Every direct leg that is new is drawn on an account that carries no hold and that no new leg before
      it reserves on. Chains of holds, chains of direct legs and mixed chains can all be spendable. */
  ghost predicate Spendable(l: Ledger, ts: seq<Transfer>) {
    forall i :: 0 <= i < |ts| && !ts[i].pending && ts[i].id !in l.transfers ==>
      Held(l, ts[i].debit) == 0 && Unreserved(l, ts, i)
  }

  ghost predicate Unreserved(l: Ledger, ts: seq<Transfer>, i: nat)
    requires i < |ts|
  {
    forall j :: 0 <= j < i && ts[j].pending && ts[j].id !in l.transfers ==> ts[j].debit != ts[i].debit
  }

  lemma {:induction false} SpendableTail(l: Ledger, ts: seq<Transfer>)
    requires ts != [] && Spendable(l, ts)
    ensures ts[0].id in l.transfers ==> Spendable(l, ts[1..])
    ensures ts[0].id !in l.transfers ==> Spendable(Insert(l, ts[0]), ts[1..])
  {
    TailAt(ts);
    var l1 := if ts[0].id in l.transfers then l else Insert(l, ts[0]);
    forall i | 0 <= i < |ts[1..]| && !ts[1..][i].pending && ts[1..][i].id !in l1.transfers
      ensures Held(l1, ts[1..][i].debit) == 0 && Unreserved(l1, ts[1..], i)
    {
      assert ts[1..][i] == ts[i + 1] && Unreserved(l, ts, i + 1);
    }
  }

  lemma {:induction false} SpendableFirst(l: Ledger, ts: seq<Transfer>)
    requires ts != [] && Spendable(l, ts) && ts[0].id !in l.transfers
    ensures ts[0].pending || Held(l, ts[0].debit) == 0
  {
  }

  lemma {:induction false} CreateLoopKeepsSolvent(l: Ledger, ts: seq<Transfer>, created: seq<Transfer>, failOnLeg: string)
    requires Solvent(l) && Spendable(l, ts)
    ensures Solvent(CreateLoop(l, ts, created, failOnLeg).ledger)
    decreases |ts|
  {
    if ts != [] {
      SpendableTail(l, ts);
      hide Spendable, Solvent;
      if ts[0].id in l.transfers {
        CreateLoopKeepsSolvent(l, ts[1..], created + [l.transfers[ts[0].id]], failOnLeg);
      } else if !Refuses(l, ts[0], failOnLeg) {
        assert ts[0].pending || Held(l, ts[0].debit) == 0 by { SpendableFirst(l, ts); }
        InsertKeepsSolvent(l, ts[0], failOnLeg);
        CreateLoopKeepsSolvent(Insert(l, ts[0]), ts[1..], created + [ts[0]], failOnLeg);
      }
    }
  }

  lemma {:induction false} RollbackOneKeepsInvariant(l: Ledger, t: Transfer)
    requires Invariant(l) && !TakenForHold(t)
    requires t.id in l.transfers ==> l.transfers[t.id] == t
    ensures Invariant(RollbackOne(l, t))
  {
    if t.id in l.transfers {
      HoldCoversTransfer(l, t.id);
      forall a ensures Gap(RollbackOne(l, t), a) == 0 && 0 <= Held(RollbackOne(l, t), a) <= Bal(RollbackOne(l, t), a) {
        RollbackOneGap(l, t, a);
        assert Gap(l, a) == 0 && 0 <= Held(l, a) <= Bal(l, a);
      }
    }
  }

  lemma {:induction false} RollbackKeepsInvariant(l: Ledger, created: seq<Transfer>)
    requires Invariant(l) && Faithful(l, created)
    requires forall i :: 0 <= i < |created| ==> !TakenForHold(created[i])
    ensures Invariant(Rollback(l, created))
    decreases |created|
  {
    if created != [] {
      TailAt(created);
      RollbackOneKeepsInvariant(l, created[0]);
      RollbackKeepsInvariant(RollbackOne(l, created[0]), created[1..]);
    }
  }

  lemma {:induction false} SettleOneKeepsInvariant(l: Ledger, id: TransferId, post: bool)
    requires Invariant(l) && id in l.transfers && !TakenForHold(l.transfers[id])
    ensures Invariant(SettleOne(l, id, post))
  {
    var l1 := SettleOne(l, id, post);
    HoldCoversTransfer(l, id);
    SettleGap(l, id, post, 0);
    forall a ensures Gap(l1, a) == 0 && 0 <= Held(l1, a) <= Bal(l1, a) {
      SettleGap(l, id, post, a);
      assert Gap(l, a) == 0 && 0 <= Held(l, a) <= Bal(l, a);
    }
  }

  lemma {:induction false} SettleLoopKeepsInvariant(l: Ledger, ids: seq<TransferId>, post: bool)
    requires Invariant(l) && Unmistaken(l, ids) && forall i :: 0 <= i < |ids| ==> ids[i] in l.transfers
    ensures Invariant(SettleLoop(l, ids, post))
    decreases |ids|
  {
    if ids != [] {
      TailAt(ids);
      SettleOneKeepsInvariant(l, ids[0], post);
      SettleLoopKeepsInvariant(SettleOne(l, ids[0], post), ids[1..], post);
      assert SettleLoop(l, ids, post) == SettleLoop(SettleOne(l, ids[0], post), ids[1..], post);
    }
  }

  // ---------------------------------------------------------------------------
  // Conservation
  // ---------------------------------------------------------------------------

  ghost function Total(l: Ledger): int { SumMap(l.balances) }

  lemma {:induction false} ApplyConserves(l: Ledger, t: Transfer)
    ensures Total(ApplyTransfer(l, t)) == Total(l)
  {
    var b1 := l.balances[t.debit := Get(l.balances, t.debit) - t.amount];
    SumMapPut(l.balances, t.debit, Get(l.balances, t.debit) - t.amount);
    SumMapPut(b1, t.credit, Get(b1, t.credit) + t.amount);
  }

  lemma {:induction false} CreateLoopConserves(l: Ledger, ts: seq<Transfer>, created: seq<Transfer>, failOnLeg: string)
    ensures Total(CreateLoop(l, ts, created, failOnLeg).ledger) == Total(l)
    decreases |ts|
  {
    if ts != [] {
      if ts[0].id in l.transfers {
        CreateLoopConserves(l, ts[1..], created + [l.transfers[ts[0].id]], failOnLeg);
      } else if !Refuses(l, ts[0], failOnLeg) {
        ApplyConserves(l.(transfers := l.transfers[ts[0].id := ts[0]]), ts[0]);
        CreateLoopConserves(Insert(l, ts[0]), ts[1..], created + [ts[0]], failOnLeg);
      }
    }
  }

  lemma {:induction false} RollbackConserves(l: Ledger, created: seq<Transfer>)
    ensures Rollback(l, created).balances == l.balances
    decreases |created|
  {
    if created != [] { RollbackConserves(RollbackOne(l, created[0]), created[1..]); }
  }

  lemma {:induction false} SettleLoopConserves(l: Ledger, ids: seq<TransferId>, post: bool)
    requires forall i :: 0 <= i < |ids| ==> ids[i] in l.transfers
    ensures Total(SettleLoop(l, ids, post)) == Total(l)
    decreases |ids|
  {
    if ids != [] {
      TailAt(ids);
      var t := l.transfers[ids[0]];
      ApplyConserves(AddHold(l.(transfers := l.transfers[ids[0] := t.(state := POSTED)]), t.debit, -t.amount), t);
      SettleLoopConserves(SettleOne(l, ids[0], post), ids[1..], post);
      assert SettleLoop(l, ids, post) == SettleLoop(SettleOne(l, ids[0], post), ids[1..], post);
    }
  }

  // ---------------------------------------------------------------------------
  // Runs
  // ---------------------------------------------------------------------------

  datatype Call =
    | CallDeposit(account: Account, amount: nat)
    | CallCreate(ts: seq<Transfer>, failOnLeg: string)
    | CallPost(ids: seq<TransferId>, failOnPost: bool)
    | CallVoid(ids: seq<TransferId>)

  function Perform(l: Ledger, c: Call): Ledger {
    match c
    case CallDeposit(a, n) => l.(balances := l.balances[a := Bal(l, a) + n])
    case CallCreate(ts, f) => Create(l, ts, f).ledger
    case CallPost(ids, f) => Post(l, ids, f).ledger
    case CallVoid(ids) => Void(l, ids).ledger
  }

  function PerformAll(l: Ledger, cs: seq<Call>): Ledger
    decreases |cs|
  {
    if cs == [] then l else PerformAll(Perform(l, cs[0]), cs[1..])
  }

  function Deposited(cs: seq<Call>): int {
    if cs == [] then 0 else (if cs[0].CallDeposit? then cs[0].amount else 0) + Deposited(cs[1..])
  }

  /** Chains are new PENDING records; no account is debited directly while it carries a hold; no direct
      transfer is posted, voided or named before a refused leg. */
  ghost predicate Safe(l: Ledger, c: Call) {
    match c
    case CallDeposit(_, _) => true
    case CallCreate(ts, f) =>
      NewRecords(ts) && Spendable(l, ts) && KeepsHolds(l, ts, f)
    case CallPost(ids, _) => Unmistaken(l, ids)
    case CallVoid(ids) => Unmistaken(l, ids)
  }

  ghost predicate SafeRun(l: Ledger, cs: seq<Call>)
    decreases |cs|
  {
    cs == [] || (Safe(l, cs[0]) && SafeRun(Perform(l, cs[0]), cs[1..]))
  }

  lemma {:induction false} PerformKeepsInvariant(l: Ledger, c: Call)
    requires Invariant(l) && Safe(l, c)
    ensures Invariant(Perform(l, c))
  {
    match c
    case CallDeposit(a, n) =>
      forall x ensures Gap(Perform(l, c), x) == 0 && 0 <= Held(Perform(l, c), x) <= Bal(Perform(l, c), x) {
        assert Gap(l, x) == 0 && 0 <= Held(l, x) <= Bal(l, x);
      }
    case CallCreate(ts, f) =>
      CreateLoopKeepsExact(l, ts, [], f);
      CreateLoopKeepsSolvent(l, ts, [], f);
      CreateTouchesAccepted(l, ts, f);
      var r := CreateLoop(l, ts, [], f);
      if !r.ok { RollbackKeepsInvariant(r.ledger, r.created); }
    case CallPost(ids, f) =>
      if Post(l, ids, f).ok { SettleLoopKeepsInvariant(l, ids, true); }
    case CallVoid(ids) =>
      if Void(l, ids).ok { SettleLoopKeepsInvariant(l, ids, false); }
  }

  /** In every safe run the running totals equal the scan and no account's holds exceed its balance,
      so no balance is ever negative. */
  lemma {:induction false} RunKeepsInvariant(l: Ledger, cs: seq<Call>)
    requires Invariant(l) && SafeRun(l, cs)
    ensures Invariant(PerformAll(l, cs))
    decreases |cs|
  {
    if cs != [] {
      PerformKeepsInvariant(l, cs[0]);
      RunKeepsInvariant(Perform(l, cs[0]), cs[1..]);
    }
  }

  ghost predicate AllHolds(l: Ledger) {
    forall id :: id in l.transfers ==> l.transfers[id].pending
  }

  lemma {:induction false} CreateLoopKeepsAllHolds(l: Ledger, ts: seq<Transfer>, created: seq<Transfer>, failOnLeg: string)
    requires AllHolds(l) && AllPending(ts)
    ensures AllHolds(CreateLoop(l, ts, created, failOnLeg).ledger)
    decreases |ts|
  {
    if ts != [] {
      TailAt(ts);
      if ts[0].id in l.transfers {
        CreateLoopKeepsAllHolds(l, ts[1..], created + [l.transfers[ts[0].id]], failOnLeg);
      } else if !Refuses(l, ts[0], failOnLeg) {
        CreateLoopKeepsAllHolds(Insert(l, ts[0]), ts[1..], created + [ts[0]], failOnLeg);
      }
    }
  }

  lemma {:induction false} SettleLoopKeepsAllHolds(l: Ledger, ids: seq<TransferId>, post: bool)
    requires AllHolds(l) && forall i :: 0 <= i < |ids| ==> ids[i] in l.transfers
    ensures AllHolds(SettleLoop(l, ids, post))
    decreases |ids|
  {
    if ids != [] {
      TailAt(ids);
      SettleLoopKeepsAllHolds(SettleOne(l, ids[0], post), ids[1..], post);
      assert SettleLoop(l, ids, post) == SettleLoop(SettleOne(l, ids[0], post), ids[1..], post);
    }
  }

  /** A call that creates only chains of new holds; it may fail, repeat IDs and name stored holds. */
  ghost predicate HoldCall(c: Call) {
    c.CallCreate? ==> NewRecords(c.ts) && AllPending(c.ts)
  }

  lemma {:induction false} HoldCallIsSafe(l: Ledger, c: Call)
    requires AllHolds(l) && HoldCall(c)
    ensures Safe(l, c) && AllHolds(Perform(l, c))
  {
    match c
    case CallDeposit(_, _) =>
    case CallCreate(ts, f) =>
      LastLegMaySettle(l, ts, f);
      CreateLoopKeepsAllHolds(l, ts, [], f);
      var r := CreateLoop(l, ts, [], f);
      RollbackRecords(r.ledger, r.created);
    case CallPost(ids, f) =>
      if Post(l, ids, f).ok { SettleLoopKeepsAllHolds(l, ids, true); }
    case CallVoid(ids) =>
      if Void(l, ids).ok { SettleLoopKeepsAllHolds(l, ids, false); }
  }

  /** While every transfer is created as a hold, nothing else has to be assumed: in every run of deposits,
      creates that succeed or fail, posts and voids, in any order and with any IDs, the running totals
      equal the scan and no account's holds exceed its balance. */
  lemma {:induction false} HoldRunKeepsInvariant(l: Ledger, cs: seq<Call>)
    requires Invariant(l) && AllHolds(l) && forall i :: 0 <= i < |cs| ==> HoldCall(cs[i])
    ensures SafeRun(l, cs) && Invariant(PerformAll(l, cs))
    decreases |cs|
  {
    if cs != [] {
      TailAt(cs);
      HoldCallIsSafe(l, cs[0]);
      PerformKeepsInvariant(l, cs[0]);
      HoldRunKeepsInvariant(Perform(l, cs[0]), cs[1..]);
    }
  }

  /** In every run whatsoever the balances sum to what was deposited: even a torn roll-back moves
      money but never creates it. */
  lemma {:induction false} RunConserves(l: Ledger, cs: seq<Call>)
    ensures Total(PerformAll(l, cs)) == Total(l) + Deposited(cs)
    decreases |cs|
  {
    if cs != [] {
      match cs[0] {
        case CallDeposit(a, n) => SumMapPut(l.balances, a, Bal(l, a) + n);
        case CallCreate(ts, f) =>
          CreateLoopConserves(l, ts, [], f);
          var r := CreateLoop(l, ts, [], f);
          RollbackConserves(r.ledger, r.created);
        case CallPost(ids, f) =>
          if Post(l, ids, f).ok { SettleLoopConserves(l, ids, true); }
        case CallVoid(ids) =>
          if Void(l, ids).ok { SettleLoopConserves(l, ids, false); }
      }
      RunConserves(Perform(l, cs[0]), cs[1..]);
    }
  }

  /** A direct transfer that is posted settles twice. */
  lemma {:induction false} PostingADirectTransferSettlesTwice()
    ensures
      var t := Transfer("k|payout", 1, 2, 5, false, false, "k", "payout", PENDING);
      var l := Create(Ledger(map[], map[1 := 20], map[]), [t], "").ledger;
      var r := Post(l, [t.id], false);
      r.ok && Bal(l, 2) == 5 && Bal(r.ledger, 2) == 10 && Held(r.ledger, 1) == -5
  {
    var t := Transfer("k|payout", 1, 2, 5, false, false, "k", "payout", PENDING);
    var l0 := Ledger(map[], map[1 := 20], map[]);
    assert [t][1..] == [];
    var l := Insert(l0, t);
    assert CreateLoop(l0, [t], [], "") == CreateLoop(l, [], [] + [t], "");
    assert [t.id][1..] == [];
    assert PostLoop(l, [t.id]) == PostLoop(PostOne(l, t.id), []);
  }
}
